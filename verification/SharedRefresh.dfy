/** Any number of processes, each with its own `TokenRuntime`, share one token file, one lock
    file and one identity provider that issues single-use rotating refresh tokens (section
    5.2.2.3 of RFC 6819). A state puts the lock machine and the runtimes side by side; `mail`
    holds what an await already brought an acquisition that has not resumed yet. */
module SharedRefresh {
  import opened Prelude
  import opened TokenRuntime
  import L = FileLock

  type ProcessId = nat

  datatype State = State(
    lock: L.State,
    disk: Option<TokenSet>,
    issued: set<Secret>,                 // every refresh token the provider has handed out or been shown
    consumed: set<Secret>,               // those it has rotated away
    runtimes: map<ProcessId, Runtime>,
    mail: map<AcquisitionId, Input>,
    replayed: bool)                      // some consumed token was presented again
  {
    predicate Runs(r: ProcessId, a: AcquisitionId) { r in runtimes && a in runtimes[r].acquisitions }

    function At(r: ProcessId, a: AcquisitionId): Phase
      requires Runs(r, a)
    {
      runtimes[r].acquisitions[a].at
    }

    function Act(r: ProcessId, act: Action): State
      requires r in runtimes && Possible(runtimes[r], act)
    {
      this.(runtimes := runtimes[r := Perform(runtimes[r], act)])
    }
  }

  datatype Label =
    | Lock(l: L.Label)                                          // any lock step but Start, Release
    | Call(r: ProcessId, c: CallerId)
    | ReadCache(r: ProcessId, c: CallerId)
    | Decide(r: ProcessId, c: CallerId, valid: bool, a: AcquisitionId, mkdirOk: bool)
    | Locked(r: ProcessId, a: AcquisitionId)
    | Reread(r: ProcessId, a: AcquisitionId, valid: bool)
    | Provider(r: ProcessId, a: AcquisitionId, answer: Answer, lost: bool)
    | Save(r: ProcessId, a: AcquisitionId, ok: bool)
    | Login(r: ProcessId, a: AcquisitionId, result: Option<TokenSet>)
    | Unlock(r: ProcessId, a: AcquisitionId)
    | Resume(r: ProcessId, a: AcquisitionId)
    | Settle(r: ProcessId, a: AcquisitionId)
    | SyncSave(r: ProcessId, c: CallerId)                       // syncServer saves what `ensure` gave it
    | Intrude(disk: Option<TokenSet>)                           // somebody else rewrites the file

  // The token on its way to the provider.
  function Presented(ph: Phase): Option<Secret> {
    match ph
    case Presenting(base) => base.refresh
    case Retrying(_, newer) => newer.refresh
    case _ => None
  }

  function ToSave(ph: Phase): Option<TokenSet> {
    match ph
    case Saving(_, token) => Some(token)
    case SavingLogin(token) => Some(token)
    case _ => None
  }

  // What an honest provider may answer when `presented` reaches it. A success either rotates,
  // or repeats the token (the client's fallback for a provider that does not rotate).
  predicate Honest(s: State, presented: Secret, answer: Answer, lost: bool) {
    match answer
    case Issued(t) =>
      && !lost && presented !in s.consumed && t.refresh.Some?
      && (t.refresh.value == presented || t.refresh.value !in s.issued)
    case Rejected => !lost
    case Failed => lost ==> presented !in s.consumed
  }

  // Alive, suspended, and with nothing delivered yet.
  predicate Suspended(s: State, r: ProcessId, a: AcquisitionId) {
    s.Runs(r, a) && a !in s.mail && !s.lock.At(a).Crashed?
  }

  predicate Enabled(s: State, l: Label) {
    match l
    case Lock(k) => !k.Start? && !k.Release? && L.Enabled(s.lock, k)
    case Call(r, c) => r in s.runtimes && Possible(s.runtimes[r], Action.Call(c))
    case ReadCache(r, c) => r in s.runtimes && Possible(s.runtimes[r], GetCached(c, s.disk))
    case Decide(r, c, valid, a, _) =>
      r in s.runtimes && Possible(s.runtimes[r], Action.Decide(c, valid, a)) && a !in s.lock.phase && a !in s.mail
    case Locked(r, a) =>
      Suspended(s, r, a) && s.At(r, a).Locking? && (s.lock.At(a).Holding? || s.lock.At(a).Unlocked?)
    case Reread(r, a, valid) =>
      Suspended(s, r, a) && (s.At(r, a).Rereading? || s.At(r, a).Rechecking?) && (valid ==> s.disk.Some?)
    case Provider(r, a, answer, lost) =>
      Suspended(s, r, a) && Presented(s.At(r, a)).Some? && Honest(s, Presented(s.At(r, a)).value, answer, lost)
    case Save(r, a, _) => Suspended(s, r, a) && ToSave(s.At(r, a)).Some?
    case Login(r, a, result) =>
      && Suspended(s, r, a) && s.At(r, a).LoggingIn?
      && (result.Some? ==>
            result == s.At(r, a).handed || result.value.refresh.None? || result.value.refresh.value !in s.issued)
    case Unlock(r, a) => Suspended(s, r, a) && s.At(r, a).Releasing?
    case Resume(r, a) =>
      s.Runs(r, a) && a in s.mail && !s.lock.At(a).Crashed? && Accepts(s.At(r, a), s.mail[a])
    case Settle(r, a) => s.Runs(r, a) && s.At(r, a).Done?
    case SyncSave(r, c) => Ensured(s, r, c).Some?
    case Intrude(_) => true
  }

  // The token `ensure` returned to caller c of process r.
  function Ensured(s: State, r: ProcessId, c: CallerId): Option<TokenSet> {
    if r in s.runtimes && c in s.runtimes[r].callers && s.runtimes[r].callers[c].Returned?
    then s.runtimes[r].callers[c].outcome else None
  }

  function Deliver(s: State, a: AcquisitionId, i: Input): State { s.(mail := s.mail[a := i]) }

  function Refreshes(t: Option<TokenSet>): set<Secret> {
    if t.Some? && t.value.refresh.Some? then {t.value.refresh.value} else {}
  }

  function Apply(c: L.Settings, s: State, l: Label): State
    requires Enabled(s, l)
  {
    match l
    case Lock(k) => s.(lock := L.Apply(c, s.lock, k))
    case Call(r, cl) => s.Act(r, Action.Call(cl))
    case ReadCache(r, cl) => s.Act(r, GetCached(cl, s.disk))
    case Decide(r, cl, valid, a, mkdirOk) =>
      var t := s.Act(r, Action.Decide(cl, valid, a));
      if t.Runs(r, a) then t.(lock := L.Apply(c, s.lock, L.Start(a, mkdirOk))) else t
    case Locked(r, a) => Deliver(s, a, LockReturned)
    case Reread(r, a, valid) => Deliver(s, a, Read(s.disk, valid))
    case Provider(r, a, answer, lost) =>
      var p := Presented(s.At(r, a)).value;
      var rotated := lost || (answer.Issued? && answer.token.refresh.value != p);
      Deliver(s, a, Answered(answer)).(
        issued := s.issued + {p} + (if answer.Issued? then Refreshes(Some(answer.token)) else {}),
        consumed := s.consumed + (if rotated then {p} else {}),
        replayed := s.replayed || p in s.consumed)
    case Save(r, a, ok) => Deliver(s, a, Saved(ok)).(disk := if ok then ToSave(s.At(r, a)) else s.disk)
    case Login(r, a, result) => Deliver(s, a, LoginEnded(result)).(issued := s.issued + Refreshes(result))
    case Unlock(r, a) =>
      Deliver(s, a, LockReleased).(
        lock := if s.lock.At(a).Holding? then L.Apply(c, s.lock, L.Release(a)) else s.lock)
    case Resume(r, a) => s.Act(r, Advance(a, s.mail[a])).(mail := s.mail - {a})
    case Settle(r, a) => s.Act(r, Action.Settle(a))
    case SyncSave(r, cl) => s.(disk := Ensured(s, r, cl))
    case Intrude(d) => s.(disk := d)
  }

  ghost predicate IsRun(c: L.Settings, tr: seq<State>, ls: seq<Label>) {
    && c.Valid() && |tr| == |ls| + 1
    && forall i | 0 <= i < |ls| :: Enabled(tr[i], ls[i]) && tr[i + 1] == Apply(c, tr[i], ls[i])
  }

  // The file holds whatever it holds, as long as its refresh token is still good.
  ghost predicate Initial(s: State) {
    && L.Initial(s.lock) && s.mail == map[] && !s.replayed
    && s.consumed <= s.issued && CleanDisk(s)
    && forall r | r in s.runtimes ::
         s.runtimes[r].inFlight.None? && s.runtimes[r].acquisitions == map[] && s.runtimes[r].callers == map[]
  }

  // No refresh token on file has been rotated away.
  predicate CleanDisk(s: State) { Refreshes(s.disk) !! s.consumed }

  // ---- No replay ------------------------------------------------------------------------

  // No holder of the lock crashes and no lock age is unreadable; every write lands; a refresh that fails
  // does not rotate; a sync saves a token that nobody has replaced on file since `ensure` returned it; and
  // nobody else rewrites the file.
  predicate Benign(s: State, l: Label) {
    match l
    case Lock(k) => L.OrderlyAt(s.lock, k)
    case Provider(_, _, _, lost) => !lost
    case Save(_, _, ok) => ok
    case SyncSave(r, c) => s.disk == Ensured(s, r, c)
    case Intrude(_) => false
    case _ => true
  }

  // Every lock is acquired, and held under staleMs.
  ghost predicate WellLocked(c: L.Settings, s: State) { L.Timely(c, s.lock) && Acquired(s) }

  ghost predicate Acquired(s: State) { forall a :: !s.lock.At(a).Unlocked? }

  // Between learning that the lock was granted and giving it back.
  predicate Critical(s: State, r: ProcessId, a: AcquisitionId) {
    && s.Runs(r, a)
    && match s.At(r, a)
       case Locking(_) => a in s.mail
       case Releasing(_) => a !in s.mail
       case Done(_) => false
       case _ => true
  }

  function MailOf(s: State, a: AcquisitionId): Option<Input> { if a in s.mail then Some(s.mail[a]) else None }

  // The provider has rotated and the file does not say so yet.
  predicate Unsaved(ph: Phase, m: Option<Input>) {
    match ph
    case Presenting(_) => m.Some? && m.value.Answered? && m.value.answer.Issued?
    case Saving(_, _) => m.None?
    case _ => false
  }

  // What the acquisition inside the critical section knows about the file and the provider.
  predicate Fact(ph: Phase, m: Option<Input>, disk: Option<TokenSet>, consumed: set<Secret>) {
    match ph
    case Rereading(_) => m.Some? ==> m.value.Read? && m.value.found == disk
    case Rechecking(base) => disk == Some(base) && (m.Some? ==> m.value.Read? && m.value.found == disk)
    case Presenting(base) =>
      && disk == Some(base)
      && (m.Some? && m.value.Answered? && m.value.answer.Issued? ==>
            Refreshes(Some(m.value.answer.token)) !! consumed)
    case Retrying(_, _) => false
    case Saving(_, token) =>
      Refreshes(Some(token)) !! consumed && (m.Some? ==> m == Some(Saved(true)) && disk == Some(token))
    case LoggingIn(_, handed) =>
      && Refreshes(handed) !! consumed
      && (m.Some? && m.value.LoginEnded? ==> Refreshes(m.value.result) !! consumed)
    case SavingLogin(token) => Refreshes(Some(token)) !! consumed
    case _ => true
  }

  ghost predicate LockSide(s: State) {
    && L.HolderOwnsFile(s.lock) && L.NothingAbandoned(s.lock)
    && (forall r, a | s.Runs(r, a) :: a in s.lock.phase)
    && (forall q, r, a | s.Runs(q, a) && s.Runs(r, a) :: q == r)
    && (forall r, a | Critical(s, r, a) :: s.lock.At(a).Holding?)
  }

  ghost predicate FactSide(s: State) {
    forall r, a | Critical(s, r, a) :: Fact(s.At(r, a), MailOf(s, a), s.disk, s.consumed)
  }

  ghost predicate Rotating(s: State) {
    exists r, a :: Critical(s, r, a) && Unsaved(s.At(r, a), MailOf(s, a))
  }

  // An old snapshot can only be in use while the file has a token to override it.
  ghost predicate SnapshotsOverridden(rt: Runtime, disk: Option<TokenSet>) {
    && (forall a | a in rt.acquisitions :: SnapshotOf(rt.acquisitions[a].at).Some? ==> disk.Some?)
    && (forall c | c in rt.callers && rt.callers[c].HasRead? :: rt.callers[c].found.Some? ==> disk.Some?)
  }

  function SnapshotOf(ph: Phase): Option<TokenSet> {
    match ph
    case Locking(snapshot) => snapshot
    case Rereading(snapshot) => snapshot
    case _ => None
  }

  ghost predicate SnapshotSide(s: State) { forall r | r in s.runtimes :: SnapshotsOverridden(s.runtimes[r], s.disk) }

  ghost predicate Inv(s: State) {
    && LockSide(s) && FactSide(s) && SnapshotSide(s)
    && (Rotating(s) || CleanDisk(s))
    && s.consumed <= s.issued && !s.replayed
  }

  lemma OneInTheCriticalSection(s: State, q: ProcessId, a: AcquisitionId, r: ProcessId, b: AcquisitionId)
    requires LockSide(s) && Critical(s, q, a) && Critical(s, r, b)
    ensures q == r && a == b
  {
    assert L.Holds(s.lock, a) && L.Holds(s.lock, b);
  }

  // The acquisitions are where they were and still hold their locks.
  lemma SameAcquisitionsKeepInv(s: State, t: State)
    requires Inv(s) && SnapshotSide(t) && t == s.(lock := t.lock, runtimes := t.runtimes)
    requires L.HolderOwnsFile(t.lock) && L.NothingAbandoned(t.lock) && s.lock.phase.Keys <= t.lock.phase.Keys
    requires forall a | s.lock.At(a).Holding? :: t.lock.At(a).Holding?
    requires forall r, a :: t.Runs(r, a) <==> s.Runs(r, a)
    requires forall r, a | s.Runs(r, a) :: t.At(r, a) == s.At(r, a)
    ensures Inv(t)
  {
    hide Fact, Unsaved, CleanDisk, SnapshotSide, L.HolderOwnsFile, L.NothingAbandoned;
    assert forall r, a :: Critical(t, r, a) <==> Critical(s, r, a);
    assert forall a :: MailOf(t, a) == MailOf(s, a);
    if Rotating(s) {
      var r, a :| Critical(s, r, a) && Unsaved(s.At(r, a), MailOf(s, a));
      assert Critical(t, r, a) && Unsaved(t.At(r, a), MailOf(t, a));
      assert Rotating(t);
    } else {
      KeepsDisk(s, t);
    }
  }

  lemma KeepsDisk(s: State, t: State)
    requires CleanDisk(s) && t.disk == s.disk && t.consumed == s.consumed
    ensures CleanDisk(t)
  {
  }

  lemma LockStepHolds(c: L.Settings, s: L.State, k: L.Label)
    requires L.Enabled(s, k) && !k.Start? && !k.Release? && L.OrderlyAt(s, k)
    ensures forall a | s.At(a).Holding? :: L.Apply(c, s, k).At(a).Holding?
    ensures s.phase.Keys <= L.Apply(c, s, k).phase.Keys
  {
  }

  lemma LockStepsKeepInv(c: L.Settings, s: State, l: Label)
    requires c.Valid() && Inv(s) && l.Lock? && Enabled(s, l) && Benign(s, l)
    requires WellLocked(c, s) && WellLocked(c, Apply(c, s, l))
    ensures Inv(Apply(c, s, l))
  {
    LockSideOf(s);
    hide Inv, L.Enabled, L.Apply, L.HolderOwnsFile, L.NothingAbandoned, L.OrderlyAt;
    L.OwnershipLostExactlyByRobbing(c, s.lock, l.l);
    L.OrderlyStepAbandonsNothing(c, s.lock, l.l);
    LockStepHolds(c, s.lock, l.l);
    NobodyIsRobbed(s.lock, l.l);
    StepKeepsSnapshots(c, s, l);
    SameAcquisitionsKeepInv(s, Apply(c, s, l));
  }

  lemma LockSideOf(s: State)
    requires Inv(s)
    ensures L.HolderOwnsFile(s.lock) && L.NothingAbandoned(s.lock)
  {
  }

  // Nobody is about to break the file.
  lemma NobodyIsRobbed(s: L.State, k: L.Label)
    requires L.Enabled(s, k) && L.NothingAbandoned(s)
    ensures !L.Robs(s, k)
  {
  }

  // A step of acquisition `a` of process `r`: all others are where they were.
  ghost predicate OthersStay(s: State, t: State, r: ProcessId, a: AcquisitionId) {
    && (forall q, b | b != a :: t.Runs(q, b) <==> s.Runs(q, b))
    && (forall q, b | b != a && s.Runs(q, b) :: t.At(q, b) == s.At(q, b))
    && (forall b | b != a :: MailOf(t, b) == MailOf(s, b))
    && (forall b | b != a :: t.lock.At(b) == s.lock.At(b))
    && (forall q | s.Runs(q, a) || t.Runs(q, a) :: q == r)
    && s.lock.phase.Keys <= t.lock.phase.Keys
    && (t.Runs(r, a) ==> a in t.lock.phase)
  }

  // An await of acquisition a brings something, or its lock step happens.
  lemma DeliveryIsLocal(s: State, t: State, r: ProcessId, a: AcquisitionId)
    requires LockSide(s) && s.Runs(r, a) && t.runtimes == s.runtimes
    requires a in t.mail && t.mail == s.mail[a := t.mail[a]]
    requires forall b | b != a :: t.lock.At(b) == s.lock.At(b)
    requires s.lock.phase.Keys <= t.lock.phase.Keys
    ensures OthersStay(s, t, r, a)
  {
    hide L.HolderOwnsFile, L.NothingAbandoned;
    assert forall q, b :: t.Runs(q, b) <==> s.Runs(q, b);
  }

  // Acquisition a of process r moves on, starts, or ends.
  lemma ProgressIsLocal(s: State, t: State, r: ProcessId, a: AcquisitionId)
    requires LockSide(s) && r in s.runtimes && r in t.runtimes && t.runtimes == s.runtimes[r := t.runtimes[r]]
    requires t.runtimes[r].acquisitions - {a} == s.runtimes[r].acquisitions - {a}
    requires s.Runs(r, a) || a !in s.lock.phase
    requires t.mail == s.mail || t.mail == s.mail - {a}
    requires forall b | b != a :: t.lock.At(b) == s.lock.At(b)
    requires s.lock.phase.Keys <= t.lock.phase.Keys && a in t.lock.phase
    ensures OthersStay(s, t, r, a)
  {
    hide L.HolderOwnsFile, L.NothingAbandoned;
    forall q, b | b != a ensures t.Runs(q, b) <==> s.Runs(q, b) {
      assert b in t.runtimes[r].acquisitions <==> b in t.runtimes[r].acquisitions - {a};
      assert b in s.runtimes[r].acquisitions <==> b in s.runtimes[r].acquisitions - {a};
    }
    forall q, b | b != a && s.Runs(q, b) ensures t.At(q, b) == s.At(q, b) {
      if q == r { assert (t.runtimes[r].acquisitions - {a})[b] == (s.runtimes[r].acquisitions - {a})[b]; }
    }
    forall q | s.Runs(q, a) || t.Runs(q, a) ensures q == r {
      assert q == r || s.Runs(q, a);
    }
  }

  lemma StepOfOneKeepsInv(s: State, t: State, r: ProcessId, a: AcquisitionId)
    requires Inv(s) && OthersStay(s, t, r, a) && SnapshotSide(t)
    requires L.HolderOwnsFile(t.lock) && L.NothingAbandoned(t.lock)
    requires Critical(t, r, a) ==> t.lock.At(a).Holding? && Fact(t.At(r, a), MailOf(t, a), t.disk, t.consumed)
    requires !Critical(s, r, a) ==> t.disk == s.disk && t.consumed == s.consumed
    requires Critical(s, r, a) ==> CleanDisk(t) || (Critical(t, r, a) && Unsaved(t.At(r, a), MailOf(t, a)))
    requires t.consumed <= t.issued && !t.replayed
    ensures Inv(t)
  {
    hide Fact, Unsaved, CleanDisk, SnapshotSide, L.HolderOwnsFile, L.NothingAbandoned;
    forall q, b | Critical(t, q, b) && b != a
      ensures Critical(s, q, b) && !Critical(s, r, a)
    {
      assert s.Runs(q, b);
      assert MailOf(t, b) == MailOf(s, b);
      if Critical(s, r, a) { OneInTheCriticalSection(s, q, b, r, a); }
    }
    if !Critical(s, r, a) && Rotating(s) {
      var q, b :| Critical(s, q, b) && Unsaved(s.At(q, b), MailOf(s, b));
      assert b != a;
      assert MailOf(t, b) == MailOf(s, b);
      assert Critical(t, q, b);
    } else if !Critical(s, r, a) {
      KeepsDisk(s, t);
    }
  }

  // Someone in the critical section with nothing unsaved sees a clean file.
  lemma CleanForTheSoleHolder(s: State, r: ProcessId, a: AcquisitionId)
    requires Inv(s) && Critical(s, r, a) && !Unsaved(s.At(r, a), MailOf(s, a))
    ensures CleanDisk(s)
  {
    if Rotating(s) {
      var q, b :| Critical(s, q, b) && Unsaved(s.At(q, b), MailOf(s, b));
      OneInTheCriticalSection(s, q, b, r, a);
    }
  }

  lemma PerformKeepsSnapshots(rt: Runtime, act: Action, disk: Option<TokenSet>)
    requires Possible(rt, act) && SnapshotsOverridden(rt, disk) && (act.GetCached? ==> act.found == disk)
    ensures SnapshotsOverridden(Perform(rt, act), disk)
  {
  }

  lemma ActKeepsSnapshots(s: State, r: ProcessId, act: Action)
    requires SnapshotSide(s) && r in s.runtimes && Possible(s.runtimes[r], act) && (act.GetCached? ==> act.found == s.disk)
    ensures SnapshotSide(s.Act(r, act))
  {
    hide SnapshotsOverridden, Perform, Possible;
    PerformKeepsSnapshots(s.runtimes[r], act, s.disk);
  }

  lemma SameRuntimesKeepSnapshots(s: State, t: State)
    requires SnapshotSide(s) && t.runtimes == s.runtimes && (s.disk.Some? ==> t.disk.Some?)
    ensures SnapshotSide(t)
  {
  }

  lemma RuntimesKeepSnapshots(c: L.Settings, s: State, l: Label)
    requires SnapshotSide(s) && Enabled(s, l) && (l.Call? || l.ReadCache? || l.Decide? || l.Resume? || l.Settle?)
    ensures SnapshotSide(Apply(c, s, l))
  {
    hide SnapshotSide, Perform, L.Enabled, L.Apply;
    var t := Apply(c, s, l);
    match l {
      case Call(r, cl) => ActKeepsSnapshots(s, r, Action.Call(cl));
      case ReadCache(r, cl) => ActKeepsSnapshots(s, r, GetCached(cl, s.disk));
      case Decide(r, cl, valid, a, _) =>
        ActKeepsSnapshots(s, r, Action.Decide(cl, valid, a));
        SameRuntimesKeepSnapshots(s.Act(r, Action.Decide(cl, valid, a)), t);
      case Resume(r, a) =>
        ActKeepsSnapshots(s, r, Advance(a, s.mail[a]));
        SameRuntimesKeepSnapshots(s.Act(r, Advance(a, s.mail[a])), t);
      case Settle(r, a) => ActKeepsSnapshots(s, r, Action.Settle(a));
    }
  }

  lemma WorldKeepsRuntimes(c: L.Settings, s: State, l: Label)
    requires Enabled(s, l) && Benign(s, l) && !l.Call? && !l.ReadCache? && !l.Decide? && !l.Resume? && !l.Settle?
    ensures var t := Apply(c, s, l);
      t.runtimes == s.runtimes && (s.disk.Some? ==> t.disk.Some?)
  {
    hide L.Enabled, L.Apply, L.OrderlyAt;
  }

  lemma StepKeepsSnapshots(c: L.Settings, s: State, l: Label)
    requires Inv(s) && Enabled(s, l) && Benign(s, l)
    ensures SnapshotSide(Apply(c, s, l))
  {
    hide Inv, SnapshotSide, Enabled, Apply, Benign;
    SnapshotSideOf(s);
    if l.Call? || l.ReadCache? || l.Decide? || l.Resume? || l.Settle? {
      RuntimesKeepSnapshots(c, s, l);
    } else {
      WorldKeepsRuntimes(c, s, l);
      SameRuntimesKeepSnapshots(s, Apply(c, s, l));
    }
  }

  lemma SnapshotSideOf(s: State)
    requires Inv(s)
    ensures SnapshotSide(s)
  {
  }

  lemma CallerStepsKeepInv(c: L.Settings, s: State, l: Label)
    requires c.Valid() && Inv(s) && Enabled(s, l) && (l.Call? || l.ReadCache? || l.Decide? || l.SyncSave?)
    requires Benign(s, l) && WellLocked(c, s)
    ensures Inv(Apply(c, s, l))
  {
    StepKeepsSnapshots(c, s, l);
    if l.Decide? && Apply(c, s, l).Runs(l.r, l.a) {
      StartKeepsInv(c, s, l);
    } else {
      LockSideOf(s);
      CallersMoveAlone(c, s, l);
      hide Inv, Enabled, Apply, Benign;
      SameAcquisitionsKeepInv(s, Apply(c, s, l));
    }
  }

  lemma CallersMoveAlone(c: L.Settings, s: State, l: Label)
    requires Enabled(s, l) && Benign(s, l) && (l.Call? || l.ReadCache? || l.Decide? || l.SyncSave?)
    requires l.Decide? ==> !Apply(c, s, l).Runs(l.r, l.a)
    ensures var t := Apply(c, s, l);
      && t == s.(runtimes := t.runtimes)
      && (forall r, a :: t.Runs(r, a) <==> s.Runs(r, a))
      && (forall r, a | s.Runs(r, a) :: t.At(r, a) == s.At(r, a))
  {
  }

  // A started acquisition has only asked for the lock.
  lemma StartedInFull(c: L.Settings, s: State, l: Label)
    requires Enabled(s, l) && l.Decide? && Apply(c, s, l).Runs(l.r, l.a)
    ensures var (t, k) := (Apply(c, s, l), L.Start(l.a, l.mkdirOk));
      && l.r in s.runtimes && !s.Runs(l.r, l.a) && l.a !in s.lock.phase && L.Enabled(s.lock, k)
      && t == s.(lock := L.Apply(c, s.lock, k), runtimes := s.runtimes[l.r := t.runtimes[l.r]])
      && t.runtimes[l.r].acquisitions - {l.a} == s.runtimes[l.r].acquisitions - {l.a}
      && t.At(l.r, l.a).Locking?
  {
    var t := Apply(c, s, l);
    assert t.runtimes[l.r].acquisitions - {l.a} == s.runtimes[l.r].acquisitions - {l.a};
  }

  lemma StartKeepsInv(c: L.Settings, s: State, l: Label)
    requires c.Valid() && Inv(s) && Enabled(s, l) && l.Decide? && Apply(c, s, l).Runs(l.r, l.a)
    requires WellLocked(c, s) && SnapshotSide(Apply(c, s, l))
    ensures Inv(Apply(c, s, l))
  {
    var k := L.Start(l.a, l.mkdirOk);
    StartedInFull(c, s, l);
    L.OwnershipLostExactlyByRobbing(c, s.lock, k);
    L.OrderlyStepAbandonsNothing(c, s.lock, k);
    hide Enabled, Apply, Fact, FactSide, SnapshotSide, L.HolderOwnsFile, L.NothingAbandoned;
    ProgressIsLocal(s, Apply(c, s, l), l.r, l.a);
    StepOfOneKeepsInv(s, Apply(c, s, l), l.r, l.a);
  }

  // What a delivery changes besides the mail.
  lemma WorldStepInFull(c: L.Settings, s: State, l: Label)
    requires Enabled(s, l) && (l.Locked? || l.Reread? || l.Provider? || l.Save? || l.Login?)
    ensures var t := Apply(c, s, l);
      && s.Runs(l.r, l.a) && l.a !in s.mail && l.a in t.mail && t.mail == s.mail[l.a := t.mail[l.a]]
      && t.lock == s.lock && t.runtimes == s.runtimes
  {
  }

  // An await ends inside the critical section.
  lemma DeliveryKeepsFacts(c: L.Settings, s: State, l: Label)
    requires Enabled(s, l) && Benign(s, l) && (l.Reread? || l.Provider? || l.Save? || l.Login?)
    requires Fact(s.At(l.r, l.a), None, s.disk, s.consumed) && s.consumed <= s.issued && !s.replayed
    requires !Unsaved(s.At(l.r, l.a), None) ==> CleanDisk(s)
    ensures var t := Apply(c, s, l);
      && Fact(s.At(l.r, l.a), MailOf(t, l.a), t.disk, t.consumed)
      && (CleanDisk(t) || Unsaved(s.At(l.r, l.a), MailOf(t, l.a)))
      && t.consumed <= t.issued && !t.replayed
  {
  }

  lemma WorldStepsKeepInv(c: L.Settings, s: State, l: Label)
    requires c.Valid() && Inv(s) && Enabled(s, l) && Benign(s, l)
    requires l.Reread? || l.Provider? || l.Save? || l.Login?
    requires WellLocked(c, s)
    ensures Inv(Apply(c, s, l))
  {
    var t := Apply(c, s, l);
    StepKeepsSnapshots(c, s, l);
    WorldStepInFull(c, s, l);
    InsideKnowsFacts(c, s, l);
    DeliveryKeepsFacts(c, s, l);
    hide Enabled, Apply, Benign, Fact, Unsaved, CleanDisk, SnapshotSide, L.HolderOwnsFile, L.NothingAbandoned;
    DeliveryIsLocal(s, t, l.r, l.a);
    StepOfOneKeepsInv(s, t, l.r, l.a);
  }

  lemma InsideKnowsFacts(c: L.Settings, s: State, l: Label)
    requires Inv(s) && Enabled(s, l) && (l.Reread? || l.Provider? || l.Save? || l.Login?)
    ensures Critical(s, l.r, l.a) && Fact(s.At(l.r, l.a), None, s.disk, s.consumed)
    ensures Critical(Apply(c, s, l), l.r, l.a)
    ensures !Unsaved(s.At(l.r, l.a), None) ==> CleanDisk(s)
  {
    WorldStepInFull(c, s, l);
    assert Critical(s, l.r, l.a) && Critical(Apply(c, s, l), l.r, l.a) by {
      hide Apply, Fact, FactSide, LockSide, SnapshotSide, CleanDisk;
    }
    assert MailOf(s, l.a).None?;
    hide Apply, Enabled, Fact, LockSide, SnapshotSide, CleanDisk, Unsaved;
    if !Unsaved(s.At(l.r, l.a), None) { CleanForTheSoleHolder(s, l.r, l.a); }
  }

  // The lock was granted.
  lemma LockedKeepsInv(c: L.Settings, s: State, l: Label)
    requires c.Valid() && Inv(s) && Enabled(s, l) && l.Locked?
    requires WellLocked(c, s)
    ensures Inv(Apply(c, s, l))
  {
    var t := Apply(c, s, l);
    StepKeepsSnapshots(c, s, l);
    WorldStepInFull(c, s, l);
    assert !s.lock.At(l.a).Unlocked?;
    hide SnapshotSide, L.HolderOwnsFile, L.NothingAbandoned;
    DeliveryIsLocal(s, t, l.r, l.a);
    StepOfOneKeepsInv(s, t, l.r, l.a);
  }

  lemma UnlockKeepsInv(c: L.Settings, s: State, l: Label)
    requires c.Valid() && Inv(s) && Enabled(s, l) && l.Unlock?
    requires WellLocked(c, s)
    ensures Inv(Apply(c, s, l))
  {
    var t := Apply(c, s, l);
    StepKeepsSnapshots(c, s, l);
    assert Critical(s, l.r, l.a);
    CleanForTheSoleHolder(s, l.r, l.a);
    var k := L.Release(l.a);
    L.OwnershipLostExactlyByRobbing(c, s.lock, k);
    L.OrderlyStepAbandonsNothing(c, s.lock, k);
    hide SnapshotSide, L.HolderOwnsFile, L.NothingAbandoned;
    DeliveryIsLocal(s, t, l.r, l.a);
    StepOfOneKeepsInv(s, t, l.r, l.a);
  }

  // Inside the critical section an acquisition goes on from what it knows.
  lemma ContinuingKeepsFacts(usesRefresh: bool, q: Acquisition, i: Input, disk: Option<TokenSet>, consumed: set<Secret>)
    requires Accepts(q.at, i) && Fact(q.at, Some(i), disk, consumed) && (SnapshotOf(q.at).Some? ==> disk.Some?)
    requires Unsaved(q.at, Some(i)) || Refreshes(disk) !! consumed
    ensures Fact(Continue(usesRefresh, q, i).at, None, disk, consumed)
    ensures Unsaved(q.at, Some(i)) ==> Continue(usesRefresh, q, i).at.Saving?
  {
  }

  lemma ResumedInFull(c: L.Settings, s: State, l: Label)
    requires Enabled(s, l) && l.Resume?
    ensures var t := Apply(c, s, l);
      && s.Runs(l.r, l.a) && t.Runs(l.r, l.a) && l.a in s.mail && Accepts(s.At(l.r, l.a), s.mail[l.a])
      && t == s.(mail := s.mail - {l.a}, runtimes := s.runtimes[l.r := t.runtimes[l.r]])
      && t.runtimes[l.r].acquisitions - {l.a} == s.runtimes[l.r].acquisitions - {l.a}
      && t.At(l.r, l.a) == Continue(s.runtimes[l.r].usesRefresh, s.runtimes[l.r].acquisitions[l.a], s.mail[l.a]).at
      && (s.At(l.r, l.a).Releasing? <==> t.At(l.r, l.a).Done?) && !t.At(l.r, l.a).Locking?
  {
    var t := Apply(c, s, l);
    assert t.runtimes[l.r].acquisitions - {l.a} == s.runtimes[l.r].acquisitions - {l.a};
  }

  lemma ResumingKeepsFacts(c: L.Settings, s: State, l: Label)
    requires Inv(s) && Enabled(s, l) && l.Resume? && Critical(s, l.r, l.a)
    ensures var t := Apply(c, s, l);
      && t.Runs(l.r, l.a) && Fact(t.At(l.r, l.a), None, s.disk, s.consumed) && (t.At(l.r, l.a).Saving? || CleanDisk(s))
  {
    ResumedInFull(c, s, l);
    assert SnapshotsOverridden(s.runtimes[l.r], s.disk);
    assert Fact(s.At(l.r, l.a), MailOf(s, l.a), s.disk, s.consumed);
    if !Unsaved(s.At(l.r, l.a), MailOf(s, l.a)) { CleanForTheSoleHolder(s, l.r, l.a); }
    hide Enabled, Apply, Fact, Unsaved, Continue;
    ContinuingKeepsFacts(s.runtimes[l.r].usesRefresh, s.runtimes[l.r].acquisitions[l.a], s.mail[l.a], s.disk, s.consumed);
  }

  lemma ResumeKeepsInv(c: L.Settings, s: State, l: Label)
    requires c.Valid() && Inv(s) && Enabled(s, l) && l.Resume?
    requires WellLocked(c, s)
    ensures Inv(Apply(c, s, l))
  {
    var t := Apply(c, s, l);
    StepKeepsSnapshots(c, s, l);
    ResumedInFull(c, s, l);
    if Critical(s, l.r, l.a) { ResumingKeepsFacts(c, s, l); }
    hide Enabled, Apply, Fact, SnapshotSide, L.HolderOwnsFile, L.NothingAbandoned, Continue, Accepts;
    ProgressIsLocal(s, t, l.r, l.a);
    StepOfOneKeepsInv(s, t, l.r, l.a);
  }

  lemma SettleKeepsInv(c: L.Settings, s: State, l: Label)
    requires c.Valid() && Inv(s) && Enabled(s, l) && l.Settle?
    requires WellLocked(c, s)
    ensures Inv(Apply(c, s, l))
  {
    var t := Apply(c, s, l);
    StepKeepsSnapshots(c, s, l);
    assert !Critical(s, l.r, l.a) && !t.Runs(l.r, l.a);
    assert t.runtimes[l.r].acquisitions - {l.a} == s.runtimes[l.r].acquisitions - {l.a};
    hide Fact, SnapshotSide, L.HolderOwnsFile, L.NothingAbandoned;
    ProgressIsLocal(s, t, l.r, l.a);
    StepOfOneKeepsInv(s, t, l.r, l.a);
  }

  lemma InitiallyFine(s: State)
    requires Initial(s)
    ensures Inv(s)
  {
  }

  lemma NobodyIntrudes(s: State, l: Label)
    requires l.Intrude?
    ensures !Benign(s, l)
  {
  }

  lemma NotReplayed(s: State)
    requires Inv(s)
    ensures !s.replayed
  {
  }

  /** In every interleaving of any number of processes calling `ensure` on one token file, no
      refresh token that the identity provider has rotated away is ever presented again, provided
      every lock is acquired and held under staleMs, no holder of the lock crashes, no lock age is
      unreadable, writes land, a failed refresh does not rotate, a sync saves only a token that is
      still the one on file, and nobody else rewrites the file. */
  lemma {:induction false} NeverReplays(c: L.Settings, tr: seq<State>, ls: seq<Label>, i: nat)
    requires IsRun(c, tr, ls) && Initial(tr[0]) && i < |tr|
    requires forall k | 0 <= k < |ls| :: Benign(tr[k], ls[k])
    requires forall k | 0 <= k < |tr| :: WellLocked(c, tr[k])
    ensures Inv(tr[i]) && !tr[i].replayed
  {
    hide Inv, Apply, WellLocked, Benign, Initial;
    if i == 0 {
      InitiallyFine(tr[0]);
    } else {
      NeverReplays(c, tr, ls, i - 1);
      var s, l := tr[i - 1], ls[i - 1];
      assert Enabled(s, l) && Benign(s, l) && WellLocked(c, s) && WellLocked(c, tr[i]);
      match l {
        case Lock(_) => LockStepsKeepInv(c, s, l);
        case Call(_, _) => CallerStepsKeepInv(c, s, l);
        case ReadCache(_, _) => CallerStepsKeepInv(c, s, l);
        case Decide(_, _, _, _, _) => CallerStepsKeepInv(c, s, l);
        case SyncSave(_, _) => CallerStepsKeepInv(c, s, l);
        case Unlock(_, _) => UnlockKeepsInv(c, s, l);
        case Resume(_, _) => ResumeKeepsInv(c, s, l);
        case Settle(_, _) => SettleKeepsInv(c, s, l);
        case Locked(_, _) => LockedKeepsInv(c, s, l);
        case Intrude(_) => NobodyIntrudes(s, l);
        case _ => WorldStepsKeepInv(c, s, l);
      }
    }
    NotReplayed(tr[i]);
  }
}
