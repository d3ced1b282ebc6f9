/** Each hypothesis of NeverReplays is needed: for every one of them, a run that breaks only that one
    replays a rotated token. */
module SharedRefreshNeeds {
  import opened Prelude
  import opened TokenRuntime
  import opened SharedRefresh
  import L = FileLock

  datatype Flaw =
    | NoLock | Overrun | HolderCrash | Unreadable        // of the lock
    | LostAnswer | FailedWrite | StaleSync | Intruder    // of the provider and the file

  predicate Tolerated(flaw: Flaw, s: State, l: Label) {
    || Benign(s, l)
    || (flaw.HolderCrash? && l.Lock? && l.l.Crash?)
    || (flaw.Unreadable? && l.Lock? && l.l.ReadAge?)
    || (flaw.LostAnswer? && l.Provider?)
    || (flaw.FailedWrite? && l.Save?)
    || (flaw.StaleSync? && l.SyncSave?)
    || (flaw.Intruder? && l.Intrude?)
  }

  // A run that breaks no hypothesis of NeverReplays but the one named by `flaw`.
  ghost predicate Demonstrates(c: L.Settings, flaw: Flaw, tr: seq<State>, ls: seq<Label>) {
    && IsRun(c, tr, ls) && Initial(tr[0])
    && (forall k | 0 <= k < |ls| :: Tolerated(flaw, tr[k], ls[k]))
    && (!flaw.NoLock? ==> forall k | 0 <= k < |tr| :: Acquired(tr[k]))
    && (!flaw.Overrun? ==> forall k | 0 <= k < |tr| :: L.Timely(c, tr[k].lock))
  }

  ghost predicate Reachable(c: L.Settings, flaw: Flaw, s: State) {
    exists tr, ls :: |tr| == |ls| + 1 && Demonstrates(c, flaw, tr, ls) && tr[|ls|] == s
  }

  // What the lock must look like in every state of such a run.
  ghost predicate LockFine(c: L.Settings, flaw: Flaw, s: State) {
    (!flaw.NoLock? ==> Acquired(s)) && (!flaw.Overrun? ==> L.Timely(c, s.lock))
  }

  lemma FineHere(c: L.Settings, flaw: Flaw, s: State)
    requires Reachable(c, flaw, s)
    ensures c.Valid() && LockFine(c, flaw, s)
  {
    var tr, ls :| |tr| == |ls| + 1 && Demonstrates(c, flaw, tr, ls) && tr[|ls|] == s;
  }

  lemma Extend(c: L.Settings, flaw: Flaw, s: State, l: Label) returns (t: State)
    requires Reachable(c, flaw, s)
    requires Enabled(s, l) && Tolerated(flaw, s, l) && LockFine(c, flaw, Apply(c, s, l))
    ensures Reachable(c, flaw, t) && t == Apply(c, s, l)
  {
    hide Enabled, Apply, Tolerated, Initial, IsRun, Demonstrates, LockFine;
    t := Apply(c, s, l);
    var tr, ls :| |tr| == |ls| + 1 && Demonstrates(c, flaw, tr, ls) && tr[|ls|] == s;
    ExtendRun(c, flaw, tr, ls, l, t);
    assert (tr + [t])[|ls + [l]|] == t;
  }

  lemma ExtendRun(c: L.Settings, flaw: Flaw, tr: seq<State>, ls: seq<Label>, l: Label, t: State)
    requires Demonstrates(c, flaw, tr, ls)
    requires Enabled(tr[|ls|], l) && Tolerated(flaw, tr[|ls|], l) && t == Apply(c, tr[|ls|], l) && LockFine(c, flaw, t)
    ensures Demonstrates(c, flaw, tr + [t], ls + [l]) && |tr| == |ls| + 1
  {
    hide Enabled, Apply, Tolerated, Initial, Acquired, L.Timely;
    var tr', ls' := tr + [t], ls + [l];
    forall i | 0 <= i < |ls'| ensures Enabled(tr'[i], ls'[i]) && tr'[i + 1] == Apply(c, tr'[i], ls'[i]) {
      assert i < |ls| ==> Enabled(tr[i], ls[i]);
    }
  }

  // Steps that leave the lock alone need no lock reasoning.
  lemma ExtendOffLock(c: L.Settings, flaw: Flaw, s: State, l: Label) returns (t: State)
    requires Reachable(c, flaw, s)
    requires Enabled(s, l) && Tolerated(flaw, s, l) && Apply(c, s, l).lock == s.lock
    ensures Reachable(c, flaw, t) && t == Apply(c, s, l)
  {
    hide Enabled, Apply, Tolerated, Reachable;
    FineHere(c, flaw, s);
    t := Extend(c, flaw, s, l);
  }

  // A step of attempt p that takes the file away, leaves it, or makes p its holder now.
  ghost predicate MovesOnly(s: L.State, t: L.State, p: L.Attempt) {
    && t.now == s.now
    && (t.file == s.file || t.file.None? || t.file == Some(L.LockFile(p, s.now)))
    && (L.Holds(t, p) ==> L.Holds(s, p) || t.file == Some(L.LockFile(p, s.now)))
    && forall q | q != p :: t.At(q) == s.At(q)
  }

  lemma StaysTimely(c: L.Settings, s: L.State, t: L.State, p: L.Attempt)
    requires c.Valid() && L.Timely(c, s) && MovesOnly(s, t, p)
    ensures L.Timely(c, t)
  {
    forall q | L.Holds(t, q) && t.file.Some? && t.file.value.creator == q
      ensures t.now - t.file.value.stamp <= c.staleMs
    {
      if q != p {
        assert t.At(q) == s.At(q);
        assert L.Holds(s, q);
      }
    }
  }

  lemma ExtendOnLock(c: L.Settings, flaw: Flaw, s: State, l: Label, p: L.Attempt) returns (t: State)
    requires Reachable(c, flaw, s)
    requires Enabled(s, l) && Tolerated(flaw, s, l) && MovesOnly(s.lock, Apply(c, s, l).lock, p)
    requires flaw.NoLock? || !Apply(c, s, l).lock.At(p).Unlocked?
    ensures Reachable(c, flaw, t) && t == Apply(c, s, l)
  {
    hide Enabled, Apply, Tolerated, Reachable;
    FineHere(c, flaw, s);
    t := Apply(c, s, l);
    forall q | !flaw.NoLock? ensures !t.lock.At(q).Unlocked? {
      assert !s.lock.At(q).Unlocked?;
    }
    if !flaw.Overrun? { StaysTimely(c, s.lock, t.lock, p); }
    t := Extend(c, flaw, s, l);
  }

  // A quiet moment for process r, with a fresh name a for what it starts next.
  predicate Quiet(s: State, r: ProcessId, a: AcquisitionId) {
    && r in s.runtimes && s.runtimes[r].usesRefresh
    && s.runtimes[r].inFlight.None? && s.runtimes[r].acquisitions == map[]
    && a !in s.runtimes[r].callers && a !in s.lock.phase && a !in s.mail
  }

  const OLD := TokenSet(100, Some(1))
  const NEW := TokenSet(101, Some(2))

  // Process r as it is with caller a at `h`.
  function WithCaller(rt: Runtime, a: CallerId, h: Caller): Runtime { rt.(callers := rt.callers[a := h]) }

  // Process r as it is while its one acquisition a is at `ph`.
  function Busy(rt: Runtime, a: AcquisitionId, ph: Phase, presented: seq<Secret>): Runtime {
    rt.(acquisitions := map[a := Acquisition(ph, presented)])
  }

  function With(s: State, r: ProcessId, rt: Runtime): State { s.(runtimes := s.runtimes[r := rt]) }

  // ---- One await of the one acquisition of process r --------------------------------------

  // Acquisition a is the only one of process r, which is otherwise as `rt` says, and waits.
  predicate Waits(s: State, r: ProcessId, a: AcquisitionId, rt: Runtime, q: Acquisition) {
    && r in s.runtimes && a !in s.mail && !s.lock.At(a).Crashed?
    && s.runtimes[r] == Busy(rt, a, q.at, q.presented)
  }

  lemma AwaitAndResume(c: L.Settings, flaw: Flaw, s: State, l: Label, u: State, i: Input,
                       r: ProcessId, a: AcquisitionId, rt: Runtime, q: Acquisition) returns (t: State)
    requires Reachable(c, flaw, s) && Waits(s, r, a, rt, q)
    requires Enabled(s, l) && Tolerated(flaw, s, l) && Apply(c, s, l) == Deliver(u, a, i)
    requires u.lock == s.lock && u.runtimes == s.runtimes && u.mail == s.mail && Accepts(q.at, i)
    ensures Reachable(c, flaw, t)
    ensures t == With(u, r, Busy(rt, a, Continue(rt.usesRefresh, q, i).at, Continue(rt.usesRefresh, q, i).presented))
  {
    hide Enabled, Apply, Tolerated, Reachable;
    var d := ExtendOffLock(c, flaw, s, l);
    t := ResumeOne(c, flaw, d, i, r, a, rt, q);
    assert t.mail == u.mail;
  }

  lemma ResumeOne(c: L.Settings, flaw: Flaw, s: State, i: Input,
                  r: ProcessId, a: AcquisitionId, rt: Runtime, q: Acquisition) returns (t: State)
    requires Reachable(c, flaw, s) && r in s.runtimes && !s.lock.At(a).Crashed?
    requires s.runtimes[r] == Busy(rt, a, q.at, q.presented)
    requires a in s.mail && s.mail[a] == i && Accepts(q.at, i)
    ensures Reachable(c, flaw, t)
    ensures t == With(s, r, Busy(rt, a, Continue(rt.usesRefresh, q, i).at, Continue(rt.usesRefresh, q, i).presented))
                 .(mail := s.mail - {a})
  {
    hide Continue, Accepts, Reachable;
    t := ExtendOffLock(c, flaw, s, Resume(r, a));
    assert t.runtimes[r].acquisitions == map[a := Continue(rt.usesRefresh, q, i)];
  }

  // The lock call returns.
  lemma LockCallReturns(c: L.Settings, flaw: Flaw, s: State, r: ProcessId, a: AcquisitionId, rt: Runtime) returns (t: State)
    requires Reachable(c, flaw, s) && Waits(s, r, a, rt, Acquisition(Locking(Some(OLD)), []))
    requires s.lock.At(a).Holding? || s.lock.At(a).Unlocked?
    ensures Reachable(c, flaw, t) && t == With(s, r, Busy(rt, a, Rereading(Some(OLD)), []))
  {
    hide Reachable;
    t := AwaitAndResume(c, flaw, s, Locked(r, a), s, LockReturned, r, a, rt, Acquisition(Locking(Some(OLD)), []));
  }

  // The re-read finds OLD expired, and OLD's refresh token goes out.
  lemma RereadOld(c: L.Settings, flaw: Flaw, s: State, r: ProcessId, a: AcquisitionId, rt: Runtime) returns (t: State)
    requires Reachable(c, flaw, s) && Waits(s, r, a, rt, Acquisition(Rereading(Some(OLD)), []))
    requires s.disk == Some(OLD) && rt.usesRefresh
    ensures Reachable(c, flaw, t) && t == With(s, r, Busy(rt, a, Presenting(OLD), [1]))
  {
    hide Reachable;
    var q := Acquisition(Rereading(Some(OLD)), []);
    assert Continue(true, q, Read(Some(OLD), false)) == Acquisition(Presenting(OLD), [1]);
    t := AwaitAndResume(c, flaw, s, Reread(r, a, false), s, Read(Some(OLD), false), r, a, rt, q);
  }

  lemma ProviderAnswers(c: L.Settings, flaw: Flaw, s: State, answer: Answer, lost: bool,
                        r: ProcessId, a: AcquisitionId, rt: Runtime) returns (t: State)
    requires Reachable(c, flaw, s) && Waits(s, r, a, rt, Acquisition(Presenting(OLD), [1]))
    requires s.issued == s.consumed == {}
    requires if lost then flaw.LostAnswer? && answer == Failed else answer == Issued(NEW)
    ensures Reachable(c, flaw, t)
    ensures t == With(s, r, Busy(rt, a, if lost then LoggingIn(Some(OLD), STRIPPED) else Saving(OLD, NEW), [1]))
                 .(issued := if lost then {1} else {1, 2}, consumed := {1})
  {
    hide Reachable;
    var l := Provider(r, a, answer, lost);
    var u := s.(issued := if lost then {1} else {1, 2}, consumed := {1});
    assert Apply(c, s, l) == Deliver(u, a, Answered(answer));
    t := AwaitAndResume(c, flaw, s, l, u, Answered(answer), r, a, rt, Acquisition(Presenting(OLD), [1]));
  }

  const STRIPPED := Some(OLD.(refresh := None))

  lemma SaveEnds(c: L.Settings, flaw: Flaw, s: State, ok: bool, r: ProcessId, a: AcquisitionId, rt: Runtime) returns (t: State)
    requires Reachable(c, flaw, s) && Waits(s, r, a, rt, Acquisition(Saving(OLD, NEW), [1]))
    requires ok || flaw.FailedWrite?
    ensures Reachable(c, flaw, t)
    ensures t == With(s, r, Busy(rt, a, if ok then Releasing(Some(NEW)) else LoggingIn(Some(OLD), STRIPPED), [1]))
                 .(disk := if ok then Some(NEW) else s.disk)
  {
    hide Reachable;
    var u := s.(disk := if ok then Some(NEW) else s.disk);
    assert Apply(c, s, Save(r, a, ok)) == Deliver(u, a, Saved(ok));
    t := AwaitAndResume(c, flaw, s, Save(r, a, ok), u, Saved(ok), r, a, rt, Acquisition(Saving(OLD, NEW), [1]));
  }

  lemma LoginFails(c: L.Settings, flaw: Flaw, s: State, r: ProcessId, a: AcquisitionId, rt: Runtime) returns (t: State)
    requires Reachable(c, flaw, s) && Waits(s, r, a, rt, Acquisition(LoggingIn(Some(OLD), STRIPPED), [1]))
    ensures Reachable(c, flaw, t) && t == With(s, r, Busy(rt, a, Releasing(None), [1]))
  {
    hide Reachable;
    var q := Acquisition(LoggingIn(Some(OLD), STRIPPED), [1]);
    assert s.issued + Refreshes(None) == s.issued;
    t := AwaitAndResume(c, flaw, s, Login(r, a, None), s, LoginEnded(None), r, a, rt, q);
  }

  // ---- The start of an acquisition --------------------------------------------------------

  // Caller a of process r reads the file.
  lemma ReadCacheOnce(c: L.Settings, flaw: Flaw, s: State, r: ProcessId, a: AcquisitionId) returns (t: State)
    requires Reachable(c, flaw, s) && Quiet(s, r, a) && s.disk == Some(OLD)
    ensures Reachable(c, flaw, t) && t == With(s, r, WithCaller(s.runtimes[r], a, HasRead(Some(OLD))))
  {
    hide Reachable;
    var d := ExtendOffLock(c, flaw, s, Label.Call(r, a));
    assert d == With(s, r, WithCaller(s.runtimes[r], a, Reading));
    t := ExtendOffLock(c, flaw, d, ReadCache(r, a));
    assert t.runtimes[r].callers == s.runtimes[r].callers[a := HasRead(Some(OLD))];
  }

  function Started(rt: Runtime, a: AcquisitionId): Runtime {
    Runtime(rt.usesRefresh, Some(a), rt.acquisitions, rt.callers[a := Waiting(a)])
  }

  // It finds OLD expired and starts acquisition a, whose attempt at the lock begins.
  lemma StartAcquisition(c: L.Settings, flaw: Flaw, s: State, r: ProcessId, a: AcquisitionId) returns (t: State)
    requires Reachable(c, flaw, s) && Quiet(s, r, a) && s.disk == Some(OLD)
    ensures Reachable(c, flaw, t)
    ensures t == With(s, r, Busy(Started(s.runtimes[r], a), a, Locking(Some(OLD)), []))
                 .(lock := s.lock.Goto(a, Entry(c, flaw, s.lock.now)))
  {
    hide Reachable, Tolerated;
    var d := ReadCacheOnce(c, flaw, s, r, a);
    t := DecideToStart(c, flaw, d, r, a);
    assert t.runtimes[r].callers == s.runtimes[r].callers[a := Waiting(a)];
  }

  function Entry(c: L.Settings, flaw: Flaw, now: int): L.Phase {
    if flaw.NoLock? then L.Unlocked(L.Unwritable) else L.Creating(now + c.maxWaitMs)
  }

  lemma DecideToStart(c: L.Settings, flaw: Flaw, s: State, r: ProcessId, a: AcquisitionId) returns (t: State)
    requires Reachable(c, flaw, s) && r in s.runtimes && s.runtimes[r].inFlight.None?
    requires s.runtimes[r].acquisitions == map[] && a !in s.lock.phase && a !in s.mail
    requires a in s.runtimes[r].callers && s.runtimes[r].callers[a] == HasRead(Some(OLD))
    ensures Reachable(c, flaw, t)
    ensures t == With(s, r, Busy(Started(s.runtimes[r], a), a, Locking(Some(OLD)), []))
                 .(lock := s.lock.Goto(a, Entry(c, flaw, s.lock.now)))
  {
    hide Reachable, Tolerated;
    var l := Label.Decide(r, a, false, a, !flaw.NoLock?);
    assert Tolerated(flaw, s, l) by { TolerateDecide(flaw, s, l); }
    t := ExtendOnLock(c, flaw, s, l, a);
  }

  lemma TolerateDecide(flaw: Flaw, s: State, l: Label)
    requires l.Decide?
    ensures Tolerated(flaw, s, l)
  {
  }

  lemma CreateAndStamp(c: L.Settings, flaw: Flaw, s: State, a: AcquisitionId) returns (t: State)
    requires Reachable(c, flaw, s) && s.lock.file.None? && s.lock.At(a).Creating?
    ensures Reachable(c, flaw, t)
    ensures t == s.(lock := L.State(s.lock.now, Some(L.LockFile(a, s.lock.now)), s.lock.phase[a := L.Holding]))
  {
    hide Reachable;
    var d := ExtendOnLock(c, flaw, s, Lock(L.Create(a, true)), a);
    t := ExtendOnLock(c, flaw, d, Lock(L.Stamp(a, true)), a);
    assert t.lock.phase == s.lock.phase[a := L.Holding];
  }

  // The lock of acquisition a once it runs.
  function Entered(flaw: Flaw, k: L.State, a: AcquisitionId): L.State {
    if flaw.NoLock? then k.Goto(a, L.Unlocked(L.Unwritable))
    else L.State(k.now, Some(L.LockFile(a, k.now)), k.phase[a := L.Holding])
  }

  // From the lock call to OLD's refresh token going out.
  lemma EnterAndPresent(c: L.Settings, flaw: Flaw, s: State, r: ProcessId, a: AcquisitionId, rt: Runtime) returns (t: State)
    requires Reachable(c, flaw, s) && Waits(s, r, a, rt, Acquisition(Locking(Some(OLD)), []))
    requires s.disk == Some(OLD) && rt.usesRefresh
    requires if flaw.NoLock? then s.lock.At(a).Unlocked? else s.lock.At(a).Creating? && s.lock.file.None?
    ensures Reachable(c, flaw, t)
    ensures t == With(s, r, Busy(rt, a, Presenting(OLD), [1])).(lock := if flaw.NoLock? then s.lock else Entered(flaw, s.lock, a))
  {
    hide Reachable;
    var d := s;
    if !flaw.NoLock? { d := CreateAndStamp(c, flaw, s, a); }
    d := LockCallReturns(c, flaw, d, r, a, rt);
    t := RereadOld(c, flaw, d, r, a, rt);
    assert t.runtimes == s.runtimes[r := Busy(rt, a, Presenting(OLD), [1])];
  }

  lemma StartOver(c: L.Settings, flaw: Flaw, s: State, r: ProcessId, a: AcquisitionId) returns (t: State)
    requires Reachable(c, flaw, s) && Quiet(s, r, a) && s.disk == Some(OLD) && s.lock.file.None?
    ensures Reachable(c, flaw, t)
    ensures t == With(s, r, Busy(Started(s.runtimes[r], a), a, Presenting(OLD), [1])).(lock := Entered(flaw, s.lock, a))
  {
    hide Reachable;
    var rt := Started(s.runtimes[r], a);
    var d := StartAcquisition(c, flaw, s, r, a);
    assert Busy(rt, a, Locking(Some(OLD)), []) == d.runtimes[r];
    t := EnterAndPresent(c, flaw, d, r, a, rt);
    assert t.runtimes == s.runtimes[r := Busy(rt, a, Presenting(OLD), [1])];
    assert t.lock.phase == Entered(flaw, s.lock, a).phase;
  }

  // ---- The end of an acquisition ----------------------------------------------------------

  lemma FreeTheLock(c: L.Settings, flaw: Flaw, s: State, r: ProcessId, a: AcquisitionId) returns (t: State)
    requires Reachable(c, flaw, s) && Suspended(s, r, a)
    requires s.At(r, a).Releasing? && s.lock.At(a).Holding?
    ensures Reachable(c, flaw, t)
    ensures t == Deliver(s, a, LockReleased).(lock := L.State(s.lock.now, None, s.lock.phase[a := L.Idle]))
  {
    hide Reachable;
    t := ExtendOnLock(c, flaw, s, Unlock(r, a), a);
  }

  lemma Close(c: L.Settings, flaw: Flaw, s: State, r: ProcessId, a: AcquisitionId, rt: Runtime, o: Option<TokenSet>)
    returns (t: State)
    requires Reachable(c, flaw, s) && Waits(s, r, a, rt, Acquisition(Releasing(o), [1]))
    requires s.lock.At(a).Holding? && rt.inFlight == Some(a) && rt.acquisitions == map[]
    ensures Reachable(c, flaw, t) && r in t.runtimes
    ensures t == With(s, r, t.runtimes[r]).(lock := L.State(s.lock.now, None, s.lock.phase[a := L.Idle]))
    ensures t.runtimes[r] == rt.(inFlight := None, callers := t.runtimes[r].callers)
    ensures t.runtimes[r].callers.Keys == rt.callers.Keys
  {
    hide Reachable, Enabled, Apply;
    var q := Acquisition(Releasing(o), [1]);
    var d := FreeTheLock(c, flaw, s, r, a);
    d := ResumeOne(c, flaw, d, LockReleased, r, a, rt, q);
    assert d.mail == s.mail;
    t := SettleLast(c, flaw, d, r, a, rt, o);
  }

  lemma SettleLast(c: L.Settings, flaw: Flaw, s: State, r: ProcessId, a: AcquisitionId, rt: Runtime, o: Option<TokenSet>)
    returns (t: State)
    requires Reachable(c, flaw, s) && r in s.runtimes && s.runtimes[r] == Busy(rt, a, Done(o), [1])
    requires rt.inFlight == Some(a) && rt.acquisitions == map[]
    ensures Reachable(c, flaw, t) && r in t.runtimes
    ensures t == With(s, r, t.runtimes[r])
    ensures t.runtimes[r] == rt.(inFlight := None, callers := t.runtimes[r].callers)
    ensures t.runtimes[r].callers.Keys == rt.callers.Keys
  {
    hide Reachable;
    t := ExtendOffLock(c, flaw, s, Label.Settle(r, a));
    assert t.runtimes[r].acquisitions == map[];
  }

  // ---- What an acquisition does with OLD ---------------------------------------------------

  // Process r has rt's callers; its one acquisition a waits with the lock and has just sent OLD out.
  predicate Presents(s: State, r: ProcessId, a: AcquisitionId, rt: Runtime) {
    && Waits(s, r, a, rt, Acquisition(Presenting(OLD), [1]))
    && s.disk == Some(OLD) && s.issued == s.consumed == {}
  }

  // The provider rotated OLD away, and acquisition a ends with `o` while OLD is (again) on file.
  predicate OldOutlives(s: State, t: State, r: ProcessId, a: AcquisitionId, rt: Runtime, o: Option<TokenSet>) {
    t == With(s, r, Busy(rt, a, Releasing(o), [1])).(issued := t.issued, consumed := {1})
  }

  lemma LoseTheAnswer(c: L.Settings, s: State, r: ProcessId, a: AcquisitionId, rt: Runtime) returns (t: State)
    requires Reachable(c, LostAnswer, s) && Presents(s, r, a, rt)
    ensures Reachable(c, LostAnswer, t) && OldOutlives(s, t, r, a, rt, None)
  {
    hide Reachable;
    var d := ProviderAnswers(c, LostAnswer, s, Failed, true, r, a, rt);
    t := LoginFails(c, LostAnswer, d, r, a, rt);
    assert t.runtimes == s.runtimes[r := Busy(rt, a, Releasing(None), [1])];
  }

  lemma FailTheWrite(c: L.Settings, s: State, r: ProcessId, a: AcquisitionId, rt: Runtime) returns (t: State)
    requires Reachable(c, FailedWrite, s) && Presents(s, r, a, rt)
    ensures Reachable(c, FailedWrite, t) && OldOutlives(s, t, r, a, rt, None)
  {
    hide Reachable;
    var d := ProviderAnswers(c, FailedWrite, s, Issued(NEW), false, r, a, rt);
    d := SaveEnds(c, FailedWrite, d, false, r, a, rt);
    t := LoginFails(c, FailedWrite, d, r, a, rt);
    assert t.runtimes == s.runtimes[r := Busy(rt, a, Releasing(None), [1])];
  }

  // The caller that came while OLD was still valid.
  const FIRST: CallerId := 5

  lemma Overwrite(c: L.Settings, flaw: Flaw, s: State, r: ProcessId) returns (t: State)
    requires Reachable(c, flaw, s) && (flaw.Intruder? || (flaw.StaleSync? && Ensured(s, r, FIRST) == Some(OLD)))
    ensures Reachable(c, flaw, t) && t == s.(disk := Some(OLD))
  {
    hide Reachable;
    t := ExtendOffLock(c, flaw, s, if flaw.Intruder? then Intrude(Some(OLD)) else SyncSave(r, FIRST));
  }

  lemma PutOldBack(c: L.Settings, flaw: Flaw, s: State, r: ProcessId, a: AcquisitionId, rt: Runtime) returns (t: State)
    requires Reachable(c, flaw, s) && Presents(s, r, a, rt)
    requires flaw.Intruder? || (flaw.StaleSync? && FIRST in rt.callers && rt.callers[FIRST] == Returned(Some(OLD)))
    ensures Reachable(c, flaw, t) && OldOutlives(s, t, r, a, rt, Some(NEW))
  {
    hide Reachable, Tolerated, Enabled, Apply;
    var d := ProviderAnswers(c, flaw, s, Issued(NEW), false, r, a, rt);
    d := SaveEnds(c, flaw, d, true, r, a, rt);
    t := Overwrite(c, flaw, d, r);
    assert t.runtimes == s.runtimes[r := Busy(rt, a, Releasing(Some(NEW)), [1])];
  }

  // Somebody presents OLD after it was rotated away.
  lemma Replay(c: L.Settings, flaw: Flaw, s: State, r: ProcessId, a: AcquisitionId) returns (tr: seq<State>, ls: seq<Label>)
    requires Reachable(c, flaw, s) && Suspended(s, r, a) && s.At(r, a) == Presenting(OLD) && 1 in s.consumed
    ensures Demonstrates(c, flaw, tr, ls) && tr[|ls|].replayed
  {
    hide Demonstrates;
    var t := RejectReplay(c, flaw, s, r, a);
    tr, ls :| |tr| == |ls| + 1 && Demonstrates(c, flaw, tr, ls) && tr[|ls|] == t;
  }

  lemma RejectReplay(c: L.Settings, flaw: Flaw, s: State, r: ProcessId, a: AcquisitionId) returns (t: State)
    requires Reachable(c, flaw, s) && Suspended(s, r, a) && s.At(r, a) == Presenting(OLD) && 1 in s.consumed
    ensures Reachable(c, flaw, t) && t.replayed
  {
    hide Reachable;
    t := ExtendOffLock(c, flaw, s, Provider(r, a, Rejected, false));
  }

  // ---- The runs ----------------------------------------------------------------------------

  const IDLE := Runtime(true, None, map[], map[])
  const START := State(L.State(0, None, map[]), Some(OLD), {}, {}, map[0 := IDLE, 1 := IDLE], map[], false)

  lemma Begin(c: L.Settings, flaw: Flaw)
    requires c.Valid()
    ensures Reachable(c, flaw, START)
  {
    var tr, ls: seq<Label> := [START], [];
    assert Demonstrates(c, flaw, tr, ls);
    assert tr[|ls|] == START;
  }

  // A caller is given OLD while it is valid.
  lemma ReadValid(c: L.Settings, flaw: Flaw, s: State, r: ProcessId) returns (t: State)
    requires Reachable(c, flaw, s) && Quiet(s, r, FIRST) && s.disk == Some(OLD)
    ensures Reachable(c, flaw, t) && t == With(s, r, WithCaller(s.runtimes[r], FIRST, Returned(Some(OLD))))
  {
    hide Reachable;
    var d := ReadCacheOnce(c, flaw, s, r, FIRST);
    t := ExtendOffLock(c, flaw, d, Label.Decide(r, FIRST, true, FIRST, true));
    assert t.runtimes[r].callers == s.runtimes[r].callers[FIRST := Returned(Some(OLD))];
    assert t.runtimes == s.runtimes[r := t.runtimes[r]];
  }

  // OLD is rotated away and stays, or is put back, on file; the next acquisition sends it out again.
  lemma ReplayFromFile(c: L.Settings, flaw: Flaw) returns (tr: seq<State>, ls: seq<Label>)
    requires c.Valid() && (flaw.LostAnswer? || flaw.FailedWrite? || flaw.Intruder? || flaw.StaleSync?)
    ensures Demonstrates(c, flaw, tr, ls) && tr[|ls|].replayed
  {
    hide Reachable, Demonstrates;
    Begin(c, flaw);
    var s := START;
    if flaw.StaleSync? { s := ReadValid(c, flaw, s, 0); }
    var rt := Started(s.runtimes[0], 0);
    s := StartOver(c, flaw, s, 0, 0);
    s := OutliveRotation(c, flaw, s, rt);
    s := Close(c, flaw, s, 0, 0, rt, if flaw.Intruder? || flaw.StaleSync? then Some(NEW) else None);
    s := StartOver(c, flaw, s, 0, 1);
    tr, ls := Replay(c, flaw, s, 0, 1);
  }

  lemma OutliveRotation(c: L.Settings, flaw: Flaw, s: State, rt: Runtime) returns (t: State)
    requires Reachable(c, flaw, s) && Presents(s, 0, 0, rt)
    requires flaw.LostAnswer? || flaw.FailedWrite? || flaw.Intruder? || flaw.StaleSync?
    requires flaw.StaleSync? ==> FIRST in rt.callers && rt.callers[FIRST] == Returned(Some(OLD))
    ensures Reachable(c, flaw, t)
    ensures OldOutlives(s, t, 0, 0, rt, if flaw.Intruder? || flaw.StaleSync? then Some(NEW) else None)
  {
    hide Reachable, OldOutlives, Presents;
    if flaw.LostAnswer? {
      t := LoseTheAnswer(c, s, 0, 0, rt);
    } else if flaw.FailedWrite? {
      t := FailTheWrite(c, s, 0, 0, rt);
    } else {
      t := PutOldBack(c, flaw, s, 0, 0, rt);
    }
  }

  lemma Contend(c: L.Settings, flaw: Flaw, s: State, a: AcquisitionId) returns (t: State)
    requires Reachable(c, flaw, s) && s.lock.At(a).Creating? && s.lock.file.Some?
    ensures Reachable(c, flaw, t) && t == s.(lock := s.lock.Goto(a, L.Contended(s.lock.At(a).deadline)))
  {
    hide Reachable;
    t := ExtendOnLock(c, flaw, s, Lock(L.Create(a, true)), a);
  }

  lemma DecideToBreak(c: L.Settings, flaw: Flaw, s: State, a: AcquisitionId) returns (t: State)
    requires Reachable(c, flaw, s) && s.lock.At(a).Contended? && s.lock.file.Some?
    requires flaw.Unreadable? || s.lock.now - s.lock.file.value.stamp > c.staleMs
    ensures Reachable(c, flaw, t) && t == s.(lock := s.lock.Goto(a, L.Breaking(s.lock.At(a).deadline)))
  {
    hide Reachable;
    t := ExtendOnLock(c, flaw, s, Lock(L.ReadAge(a, !flaw.Unreadable?)), a);
  }

  lemma BreakFile(c: L.Settings, flaw: Flaw, s: State, a: AcquisitionId) returns (t: State)
    requires Reachable(c, flaw, s) && s.lock.At(a).Breaking? && s.lock.file.Some?
    requires s.lock.At(a).deadline > s.lock.now
    ensures Reachable(c, flaw, t)
    ensures t == s.(lock := s.lock.(file := None).Goto(a, L.Creating(s.lock.At(a).deadline)))
  {
    hide Reachable;
    t := ExtendOnLock(c, flaw, s, Lock(L.Break(a, true)), a);
  }

  // An attempt that finds the file old, or cannot read its age, breaks it and starts again.
  lemma RobLock(c: L.Settings, flaw: Flaw, s: State, a: AcquisitionId, d: int) returns (t: State)
    requires Reachable(c, flaw, s)
    requires s.lock.At(a) == L.Creating(d) && d > s.lock.now && s.lock.file.Some?
    requires flaw.Unreadable? || s.lock.now - s.lock.file.value.stamp > c.staleMs
    ensures Reachable(c, flaw, t)
    ensures t == s.(lock := L.State(s.lock.now, None, s.lock.phase[a := L.Creating(d)]))
  {
    hide Reachable, Tolerated, Enabled, Apply;
    t := Contend(c, flaw, s, a);
    t := DecideToBreak(c, flaw, t, a);
    t := BreakFile(c, flaw, t, a);
    assert t.lock.phase == s.lock.phase[a := L.Creating(d)];
  }

  // Process 1 meets the lock file of acquisition 0, breaks it, and sends OLD's refresh token out.
  lemma StealAndPresent(c: L.Settings, flaw: Flaw, s: State) returns (t: State)
    requires Reachable(c, flaw, s) && !flaw.NoLock?
    requires Quiet(s, 1, 1) && s.disk == Some(OLD) && s.lock.file.Some?
    requires flaw.Unreadable? || s.lock.now - s.lock.file.value.stamp > c.staleMs
    ensures Reachable(c, flaw, t)
    ensures t == With(s, 1, Busy(Started(s.runtimes[1], 1), 1, Presenting(OLD), [1])).(lock := t.lock)
    ensures t.lock.phase == s.lock.phase[1 := L.Holding]
  {
    hide Reachable;
    FineHere(c, flaw, s);
    var rt := Started(s.runtimes[1], 1);
    t := StartAcquisition(c, flaw, s, 1, 1);
    t := RobLock(c, flaw, t, 1, s.lock.now + c.maxWaitMs);
    t := EnterAndPresent(c, flaw, t, 1, 1, rt);
    assert t.runtimes == s.runtimes[1 := Busy(rt, 1, Presenting(OLD), [1])];
    assert t.lock.phase == s.lock.phase[1 := L.Holding];
  }

  // Time passes the holders' limit, if there are any.
  lemma Pass(c: L.Settings, flaw: Flaw, s: State) returns (t: State)
    requires Reachable(c, flaw, s)
    requires flaw.Overrun? || forall a :: !L.Holds(s.lock, a)
    ensures Reachable(c, flaw, t)
    ensures t == s.(lock := s.lock.(now := s.lock.now + c.staleMs + 1)) && c.Valid()
  {
    hide Reachable;
    FineHere(c, flaw, s);
    t := Apply(c, s, Lock(L.Tick(c.staleMs + 1)));
    assert forall p :: t.lock.At(p) == s.lock.At(p);
    assert forall p :: L.Holds(t.lock, p) <==> L.Holds(s.lock, p);
    t := Extend(c, flaw, s, Lock(L.Tick(c.staleMs + 1)));
  }

  // Nobody ever gets the lock file, and everybody goes on.
  lemma ReplayWithoutLock(c: L.Settings) returns (tr: seq<State>, ls: seq<Label>)
    requires c.Valid()
    ensures Demonstrates(c, NoLock, tr, ls) && tr[|ls|].replayed
  {
    hide Reachable, Demonstrates;
    Begin(c, NoLock);
    var rt := Started(IDLE, 0);
    var s := StartOver(c, NoLock, START, 0, 0);
    s := StartOver(c, NoLock, s, 1, 1);
    s := ProviderAnswers(c, NoLock, s, Issued(NEW), false, 0, 0, rt);
    tr, ls := Replay(c, NoLock, s, 1, 1);
  }

  // The first holder is slow, or its lock file's age cannot be read: both send OLD out.
  lemma ReplayPastTheHolder(c: L.Settings, flaw: Flaw) returns (tr: seq<State>, ls: seq<Label>)
    requires c.Valid() && (flaw.Overrun? || flaw.Unreadable?)
    ensures Demonstrates(c, flaw, tr, ls) && tr[|ls|].replayed
  {
    hide Reachable, Demonstrates;
    Begin(c, flaw);
    var rt := Started(IDLE, 0);
    var s := StartOver(c, flaw, START, 0, 0);
    if flaw.Overrun? { s := Pass(c, flaw, s); }
    s := StealAndPresent(c, flaw, s);
    s := ProviderAnswers(c, flaw, s, Issued(NEW), false, 0, 0, rt);
    tr, ls := Replay(c, flaw, s, 1, 1);
  }

  // The first holder crashes when the provider has rotated and before the file says so.
  lemma ReplayAfterCrash(c: L.Settings) returns (tr: seq<State>, ls: seq<Label>)
    requires c.Valid()
    ensures Demonstrates(c, HolderCrash, tr, ls) && tr[|ls|].replayed
  {
    hide Reachable, Demonstrates;
    Begin(c, HolderCrash);
    var s := StartOver(c, HolderCrash, START, 0, 0);
    s := ProviderAnswers(c, HolderCrash, s, Issued(NEW), false, 0, 0, Started(IDLE, 0));
    s := CrashHolder(c, s);
    s := Pass(c, HolderCrash, s);
    s := StealAndPresent(c, HolderCrash, s);
    tr, ls := Replay(c, HolderCrash, s, 1, 1);
  }

  lemma CrashHolder(c: L.Settings, s: State) returns (t: State)
    requires Reachable(c, HolderCrash, s) && s.lock.phase == map[0 := L.Holding]
    ensures Reachable(c, HolderCrash, t) && t == s.(lock := s.lock.Goto(0, L.Crashed))
    ensures forall a :: !L.Holds(t.lock, a)
  {
    hide Reachable;
    t := ExtendOnLock(c, HolderCrash, s, Lock(L.Crash(0)), 0);
  }

  /** Drop any one hypothesis of NeverReplays and some run replays a rotated token. */
  lemma EachHypothesisIsNeeded(c: L.Settings, flaw: Flaw) returns (tr: seq<State>, ls: seq<Label>)
    requires c.Valid()
    ensures Demonstrates(c, flaw, tr, ls) && tr[|ls|].replayed
  {
    hide Demonstrates;
    match flaw {
      case NoLock => tr, ls := ReplayWithoutLock(c);
      case Overrun => tr, ls := ReplayPastTheHolder(c, flaw);
      case Unreadable => tr, ls := ReplayPastTheHolder(c, flaw);
      case HolderCrash => tr, ls := ReplayAfterCrash(c);
      case _ => tr, ls := ReplayFromFile(c, flaw);
    }
  }
}
