/** The per-server state of packages/opencode-provider-sync/src/engine.ts: one engine's memory, the
    shared state file, and the awaits in between. A load that has finished but not resumed is in
    `loads`; a write that has been stamped but has not returned yet is in `writes`. */
module ProviderSync {
  import opened Prelude
  import opened TokenRuntime

  type OpId = nat

  // `models` stands for models, rawModels and lastSyncAt together.
  datatype Snapshot = Snapshot(updatedAt: int, token: Option<TokenSet>, models: nat)

  datatype Write = Write(next: Snapshot, landed: bool)

  datatype State = State(
    now: int,
    disk: Option<Snapshot>,
    memory: Snapshot,
    loads: map<OpId, Option<Snapshot>>,
    writes: map<OpId, Write>)

  datatype Label =
    | Tick(ms: nat)
    | OthersWrite(disk: Option<Snapshot>)
    | Load(id: OpId, readable: bool)
    | Adopt(id: OpId)                                   // the rest of readCachedToken
    | SetCached(id: OpId, token: TokenSet)              // stamps the state it is about to save
    | SyncWrite(id: OpId, token: TokenSet, models: nat) // the same in syncServer
    | Land(id: OpId, ok: bool)                          // the rename
    | Commit(id: OpId)                                  // runtime.state = next

  predicate Enabled(s: State, l: Label) {
    match l
    case Tick(_) => true
    case OthersWrite(disk) => disk.Some? ==> disk.value.updatedAt <= s.now
    case Load(id, _) => id !in s.loads
    case Adopt(id) => id in s.loads
    case SetCached(id, _) => id !in s.writes
    case SyncWrite(id, _, _) => id !in s.writes
    case Land(id, _) => id in s.writes && !s.writes[id].landed
    case Commit(id) => id in s.writes && s.writes[id].landed
  }

  // What readCachedToken leaves in memory when the load brought `persisted`.
  function Reconcile(memory: Snapshot, persisted: Option<Snapshot>): Snapshot {
    if persisted.None? || persisted.value.token.None? then memory
    else if persisted.value.updatedAt < memory.updatedAt then memory
    else persisted.value
  }

  function Apply(s: State, l: Label): State
    requires Enabled(s, l)
  {
    match l
    case Tick(ms) => s.(now := s.now + ms)
    case OthersWrite(disk) => s.(disk := disk)
    case Load(id, readable) => s.(loads := s.loads[id := if readable then s.disk else None])
    case Adopt(id) => s.(memory := Reconcile(s.memory, s.loads[id]), loads := s.loads - {id})
    case SetCached(id, token) =>
      s.(writes := s.writes[id := Write(s.memory.(updatedAt := s.now, token := Some(token)), false)])
    case SyncWrite(id, token, models) =>
      s.(writes := s.writes[id := Write(Snapshot(s.now, Some(token), models), false)])
    case Land(id, ok) =>
      if ok then s.(disk := Some(s.writes[id].next), writes := s.writes[id := s.writes[id].(landed := true)])
      else s.(writes := s.writes - {id})
    case Commit(id) => s.(memory := s.writes[id].next, writes := s.writes - {id})
  }

  ghost predicate IsRun(tr: seq<State>, ls: seq<Label>) {
    && |tr| == |ls| + 1
    && forall i | 0 <= i < |ls| :: Enabled(tr[i], ls[i]) && tr[i + 1] == Apply(tr[i], ls[i])
  }

  // Nothing is stamped in the future, and every stamped write carries a token.
  ghost predicate Stamped(s: State) {
    && s.memory.updatedAt <= s.now
    && (s.disk.Some? ==> s.disk.value.updatedAt <= s.now)
    && (forall id | id in s.loads && s.loads[id].Some? :: s.loads[id].value.updatedAt <= s.now)
    && (forall id | id in s.writes :: s.writes[id].next.updatedAt <= s.now && s.writes[id].next.token.Some?)
  }

  lemma StepKeepsStamps(s: State, l: Label)
    requires Stamped(s) && Enabled(s, l)
    ensures Stamped(Apply(s, l))
    ensures s.memory.token.Some? ==> Apply(s, l).memory.token.Some?
  {
  }

  /** A state that holds a token never becomes tokenless, whatever the file goes through. */
  lemma {:induction false} TokenIsNeverLost(tr: seq<State>, ls: seq<Label>, i: nat)
    requires IsRun(tr, ls) && Stamped(tr[0]) && i < |tr|
    ensures Stamped(tr[i])
    ensures tr[0].memory.token.Some? ==> tr[i].memory.token.Some?
  {
    hide Stamped, Apply;
    if i > 0 {
      TokenIsNeverLost(tr, ls, i - 1);
      assert Enabled(tr[i - 1], ls[i - 1]);
      StepKeepsStamps(tr[i - 1], ls[i - 1]);
    }
  }

  // A read brought `persisted`: it is taken whole when it holds a token and is not older than memory.
  predicate Takes(memory: Snapshot, persisted: Option<Snapshot>) {
    persisted.Some? && persisted.value.token.Some? && persisted.value.updatedAt >= memory.updatedAt
  }

  lemma ReconcileIsWholesale(memory: Snapshot, persisted: Option<Snapshot>)
    ensures Reconcile(memory, persisted) == if Takes(memory, persisted) then persisted.value else memory
  {
  }

  // The read `id` that resumes at step n fetched, at step k, what was then on file.
  ghost predicate FetchedAt(tr: seq<State>, ls: seq<Label>, id: OpId, k: nat, n: nat)
    requires |tr| == |ls| + 1 && n < |tr|
  {
    && k < n && ls[k].Load? && ls[k].id == id && id in tr[n].loads
    && tr[n].loads[id] == if ls[k].readable then tr[k].disk else None
  }

  lemma {:induction false} LoadWasOnFile(tr: seq<State>, ls: seq<Label>, id: OpId, n: nat) returns (k: nat)
    requires IsRun(tr, ls) && tr[0].loads == map[] && n < |tr| && id in tr[n].loads
    ensures FetchedAt(tr, ls, id, k, n)
  {
    var s, l := tr[n - 1], ls[n - 1];
    assert Enabled(s, l) && tr[n] == Apply(s, l);
    if l.Load? && l.id == id {
      k := n - 1;
    } else {
      k := LoadWasOnFile(tr, ls, id, n - 1);
    }
  }

  /** Whatever the run, a resuming read either leaves memory alone or replaces it whole by one snapshot
      that was on file, token and models together, when the read fetched it; it does the latter exactly
      when that snapshot holds a token and is not older than memory by now. */
  lemma AdoptionIsWholesale(tr: seq<State>, ls: seq<Label>, n: nat) returns (k: nat)
    requires IsRun(tr, ls) && tr[0].loads == map[] && n < |ls| && ls[n].Adopt?
    ensures FetchedAt(tr, ls, ls[n].id, k, n)
    ensures tr[n + 1].memory == if ls[k].readable && Takes(tr[n].memory, tr[k].disk) then tr[k].disk.value else tr[n].memory
  {
    assert Enabled(tr[n], ls[n]) && tr[n + 1] == Apply(tr[n], ls[n]);
    k := LoadWasOnFile(tr, ls, ls[n].id, n);
    ReconcileIsWholesale(tr[n].memory, tr[n].loads[ls[n].id]);
  }

  // ---- Does updatedAt ever go back? -----------------------------------------------------

  predicate GoesBack(s: State, l: Label)
    requires Enabled(s, l)
  {
    Apply(s, l).memory.updatedAt < s.memory.updatedAt
  }

  predicate Stamps(l: Label) { l.SetCached? || l.SyncWrite? }

  // The write stamped at step e returns and commits at step n.
  ghost predicate Spans(tr: seq<State>, ls: seq<Label>, e: nat, n: nat) {
    && IsRun(tr, ls) && e < n < |ls| && Stamps(ls[e]) && ls[n] == Commit(ls[e].id)
    && forall k | e < k < n :: ls[k] != Commit(ls[e].id) && ls[k] != Land(ls[e].id, false)
  }

  // What the step puts in memory, if anything: an adopted snapshot, or a committed write.
  function Brings(s: State, l: Label): Option<Snapshot>
    requires Enabled(s, l)
  {
    match l
    case Adopt(id) => if Takes(s.memory, s.loads[id]) then s.loads[id] else None
    case Commit(id) => Some(s.writes[id].next)
    case _ => None
  }

  predicate BringsLater(s: State, l: Label, stamp: int) {
    Enabled(s, l) && Brings(s, l).Some? && Brings(s, l).value.updatedAt > stamp
  }

  predicate BringsBack(s: State, l: Label, stamp: int) {
    Enabled(s, l) && Brings(s, l).Some? && Brings(s, l).value.updatedAt <= stamp
  }

  // Between the steps e and n something stamped after e came into memory and stayed.
  ghost predicate Overtaken(tr: seq<State>, ls: seq<Label>, e: nat, n: nat)
    requires e < n < |tr| == |ls| + 1
  {
    exists k :: e < k < n && BringsLater(tr[k], ls[k], tr[e].now) &&
      forall j | k < j < n :: !BringsBack(tr[j], ls[j], tr[e].now)
  }

  lemma {:induction false} StampedAlways(tr: seq<State>, ls: seq<Label>, i: nat)
    requires IsRun(tr, ls) && Stamped(tr[0]) && i < |tr|
    ensures Stamped(tr[i])
  {
    TokenIsNeverLost(tr, ls, i);
  }

  lemma BringsOrStays(s: State, l: Label)
    requires Enabled(s, l)
    ensures Apply(s, l).memory == if Brings(s, l).Some? then Brings(s, l).value else s.memory
    ensures GoesBack(s, l) ==> l.Commit?
  {
  }

  lemma {:induction false} InFlight(tr: seq<State>, ls: seq<Label>, e: nat, n: nat)
    requires IsRun(tr, ls) && Stamped(tr[0]) && e < n < |tr| && Stamps(ls[e])
    requires forall k | e < k < n :: ls[k] != Commit(ls[e].id) && ls[k] != Land(ls[e].id, false)
    ensures ls[e].id in tr[n].writes && tr[n].writes[ls[e].id].next.updatedAt == tr[e].now
    ensures tr[n].memory.updatedAt > tr[e].now <==> Overtaken(tr, ls, e, n)
  {
    hide Stamped, Apply, Brings;
    var s, l := tr[n - 1], ls[n - 1];
    assert Enabled(s, l) && tr[n] == Apply(s, l);
    if n == e + 1 {
      StampedAlways(tr, ls, e);
      JustStamped(s, l);
    } else {
      InFlight(tr, ls, e, n - 1);
      StaysInFlight(s, l, ls[e].id);
      BringsOrStays(s, l);
      OvertakenOneMore(tr, ls, e, n);
    }
  }

  lemma JustStamped(s: State, l: Label)
    requires Enabled(s, l) && Stamps(l) && Stamped(s)
    ensures l.id in Apply(s, l).writes && Apply(s, l).writes[l.id].next.updatedAt == s.now >= Apply(s, l).memory.updatedAt
  {
  }

  lemma StaysInFlight(s: State, l: Label, id: OpId)
    requires Enabled(s, l) && id in s.writes && l != Commit(id) && l != Land(id, false)
    ensures id in Apply(s, l).writes && Apply(s, l).writes[id].next == s.writes[id].next
  {
  }

  lemma OvertakenOneMore(tr: seq<State>, ls: seq<Label>, e: nat, n: nat)
    requires e + 1 < n < |tr| == |ls| + 1 && Enabled(tr[n - 1], ls[n - 1])
    ensures Overtaken(tr, ls, e, n) <==>
      BringsLater(tr[n - 1], ls[n - 1], tr[e].now) || (Overtaken(tr, ls, e, n - 1) && Brings(tr[n - 1], ls[n - 1]).None?)
  {
    hide Brings;
    var stamp := tr[e].now;
    if Overtaken(tr, ls, e, n) {
      var k :| e < k < n && BringsLater(tr[k], ls[k], stamp) && forall j | k < j < n :: !BringsBack(tr[j], ls[j], stamp);
      if k < n - 1 && !BringsLater(tr[n - 1], ls[n - 1], stamp) {
        assert !BringsBack(tr[n - 1], ls[n - 1], stamp);
        assert Overtaken(tr, ls, e, n - 1);
      }
    }
    if Overtaken(tr, ls, e, n - 1) && Brings(tr[n - 1], ls[n - 1]).None? {
      var k :| e < k < n - 1 && BringsLater(tr[k], ls[k], stamp) && forall j | k < j < n - 1 :: !BringsBack(tr[j], ls[j], stamp);
      assert e < k < n && forall j | k < j < n :: !BringsBack(tr[j], ls[j], stamp);
    }
    if BringsLater(tr[n - 1], ls[n - 1], stamp) { assert e < n - 1 < n; }
  }

  /** A write goes back at its commit exactly when, since its stamp, a read or another write put a later
      stamp in memory and no commit has brought it back below. */
  lemma GoesBackExactlyWhenOvertaken(tr: seq<State>, ls: seq<Label>, e: nat, n: nat)
    requires Spans(tr, ls, e, n) && Stamped(tr[0])
    ensures GoesBack(tr[n], ls[n]) <==> Overtaken(tr, ls, e, n)
  {
    hide Stamped, Overtaken;
    assert Enabled(tr[n], ls[n]);
    InFlight(tr, ls, e, n);
  }

  // Every write in flight was stamped at some step.
  lemma {:induction false} WasStamped(tr: seq<State>, ls: seq<Label>, id: OpId, n: nat) returns (e: nat)
    requires IsRun(tr, ls) && tr[0].writes == map[] && n < |tr| && id in tr[n].writes
    ensures e < n && Stamps(ls[e]) && ls[e].id == id
    ensures forall k | e < k < n :: ls[k] != Commit(id) && ls[k] != Land(id, false)
  {
    var s, l := tr[n - 1], ls[n - 1];
    assert Enabled(s, l) && tr[n] == Apply(s, l);
    if Stamps(l) && l.id == id {
      e := n - 1;
    } else {
      e := WasStamped(tr, ls, id, n - 1);
    }
  }

  /** Over a whole run updatedAt never goes back if and only if no write was overtaken. */
  lemma NeverGoesBackExactly(tr: seq<State>, ls: seq<Label>)
    requires IsRun(tr, ls) && Stamped(tr[0]) && tr[0].writes == map[]
    ensures (forall i | 0 <= i < |ls| :: Enabled(tr[i], ls[i]) && !GoesBack(tr[i], ls[i])) <==>
            (forall e, n | Spans(tr, ls, e, n) :: !Overtaken(tr, ls, e, n))
  {
    if forall e, n | Spans(tr, ls, e, n) :: !Overtaken(tr, ls, e, n) {
      forall i | 0 <= i < |ls| ensures Enabled(tr[i], ls[i]) && !GoesBack(tr[i], ls[i]) {
        assert Enabled(tr[i], ls[i]);
        BringsOrStays(tr[i], ls[i]);
        if ls[i].Commit? {
          var e := WasStamped(tr, ls, ls[i].id, i);
          assert Spans(tr, ls, e, i);
          GoesBackExactlyWhenOvertaken(tr, ls, e, i);
        }
      }
    }
    if forall i | 0 <= i < |ls| :: Enabled(tr[i], ls[i]) && !GoesBack(tr[i], ls[i]) {
      forall e, n | Spans(tr, ls, e, n) ensures !Overtaken(tr, ls, e, n) {
        GoesBackExactlyWhenOvertaken(tr, ls, e, n);
      }
    }
  }

  // No read resumes and no other write commits while a write is in flight.
  predicate Serial(s: State, l: Label) {
    (l.Adopt? ==> s.writes == map[]) && (Stamps(l) ==> s.writes == map[])
  }

  // At most one write is in flight, and memory is not past it.
  ghost predicate OneInFlight(s: State) {
    Stamped(s) && forall id | id in s.writes ::
      s.writes.Keys == {id} && s.memory.updatedAt <= s.writes[id].next.updatedAt
  }

  lemma SerialStep(s: State, l: Label)
    requires OneInFlight(s) && Enabled(s, l) && Serial(s, l)
    ensures OneInFlight(Apply(s, l)) && !GoesBack(s, l)
  {
    StepKeepsStamps(s, l);
    hide Stamped;
    assert s.memory.updatedAt <= s.now by { ClockIsAhead(s); }
  }

  lemma ClockIsAhead(s: State)
    requires Stamped(s)
    ensures s.memory.updatedAt <= s.now
  {
  }

  /** Without such overlaps updatedAt never goes back. */
  lemma {:induction false} SerialNeverGoesBack(tr: seq<State>, ls: seq<Label>, i: nat)
    requires IsRun(tr, ls) && Stamped(tr[0]) && tr[0].writes == map[] && i < |tr|
    requires forall k | 0 <= k < |ls| :: Serial(tr[k], ls[k])
    ensures OneInFlight(tr[i])
    ensures i < |ls| ==> !GoesBack(tr[i], ls[i])
  {
    hide Stamped, Apply, GoesBack, Serial;
    if i > 0 {
      SerialNeverGoesBack(tr, ls, i - 1);
      assert Enabled(tr[i - 1], ls[i - 1]) && Serial(tr[i - 1], ls[i - 1]);
      SerialStep(tr[i - 1], ls[i - 1]);
    }
    if i < |ls| {
      assert Enabled(tr[i], ls[i]) && Serial(tr[i], ls[i]);
      SerialStep(tr[i], ls[i]);
    }
  }

  lemma Extend(tr: seq<State>, ls: seq<Label>, l: Label) returns (tr': seq<State>, ls': seq<Label>, s: State)
    requires IsRun(tr, ls) && |tr| == |ls| + 1 && Enabled(tr[|ls|], l)
    ensures IsRun(tr', ls') && |tr'| == |ls'| + 1 && tr'[|ls'|] == s == Apply(tr[|ls|], l)
    ensures tr' == tr + [s] && ls' == ls + [l]
  {
    hide Apply, Enabled;
    s := Apply(tr[|ls|], l);
    tr', ls' := tr + [s], ls + [l];
  }

  // A token is being saved, and two milliseconds pass.
  lemma Saving(m: Snapshot, mine: TokenSet) returns (tr: seq<State>, ls: seq<Label>, s: State)
    requires m.updatedAt == 0
    ensures IsRun(tr, ls) && |tr| == |ls| + 1 && tr[|ls|] == s && Stamped(tr[0])
    ensures ls == [SetCached(0, mine), Tick(2)]
    ensures s == State(12, Some(m), m, map[], map[0 := Write(m.(updatedAt := 10, token := Some(mine)), false)])
  {
    s := State(10, Some(m), m, map[], map[]);
    tr, ls := [s], [];
    assert IsRun(tr, ls) && Stamped(s);
    hide IsRun, Stamped;
    tr, ls, s := Extend(tr, ls, SetCached(0, mine));
    tr, ls, s := Extend(tr, ls, Tick(2));
  }

  /** With one, it can: a token is saved while another caller's read adopts what a second process
      wrote a moment later. */
  lemma SaveOvertakenByRead(before: TokenSet, mine: TokenSet, theirs: TokenSet) returns (tr: seq<State>, ls: seq<Label>)
    ensures |ls| > 0 && IsRun(tr, ls) && Stamped(tr[0])
    ensures GoesBack(tr[|ls| - 1], ls[|ls| - 1])
  {
    hide IsRun, Stamped;
    var s;
    tr, ls, s := Saving(Snapshot(0, Some(before), 7), mine);
    tr, ls, s := Extend(tr, ls, OthersWrite(Some(Snapshot(12, Some(theirs), 8))));
    tr, ls, s := Extend(tr, ls, Load(1, true));
    tr, ls, s := Extend(tr, ls, Land(0, true));
    tr, ls, s := Extend(tr, ls, Adopt(1));
    tr, ls, s := Extend(tr, ls, Commit(0));
  }

  /** The engine's own writes can do it too, with nobody else about: a sync is stamped while a token is
      being saved, and lands and commits first. */
  lemma SaveOvertakenBySync(before: TokenSet, mine: TokenSet, synced: TokenSet) returns (tr: seq<State>, ls: seq<Label>)
    ensures |ls| > 0 && IsRun(tr, ls) && Stamped(tr[0])
    ensures forall k | 0 <= k < |ls| :: !ls[k].OthersWrite? && !ls[k].Adopt?
    ensures GoesBack(tr[|ls| - 1], ls[|ls| - 1])
  {
    hide IsRun, Stamped;
    var s;
    tr, ls, s := Syncing(Snapshot(0, Some(before), 7), mine, synced);
    tr, ls, s := Extend(tr, ls, Land(0, true));
    tr, ls, s := Extend(tr, ls, Commit(0));
  }

  // Meanwhile a sync is stamped, lands, and commits.
  lemma Syncing(m: Snapshot, mine: TokenSet, synced: TokenSet) returns (tr: seq<State>, ls: seq<Label>, s: State)
    requires m.updatedAt == 0
    ensures IsRun(tr, ls) && |tr| == |ls| + 1 && tr[|ls|] == s && Stamped(tr[0])
    ensures forall k | 0 <= k < |ls| :: !ls[k].OthersWrite? && !ls[k].Adopt?
    ensures var sync := Snapshot(12, Some(synced), 8);
      s == State(12, Some(sync), sync, map[], map[0 := Write(m.(updatedAt := 10, token := Some(mine)), false)])
  {
    hide IsRun, Stamped;
    tr, ls, s := Saving(m, mine);
    tr, ls, s := Extend(tr, ls, SyncWrite(1, synced, 8));
    tr, ls, s := Extend(tr, ls, Land(1, true));
    tr, ls, s := Extend(tr, ls, Commit(1));
    assert s.writes == map[0 := Write(m.(updatedAt := 10, token := Some(mine)), false)];
  }

  // ---- syncServer and rotations ---------------------------------------------------------

  function OnFile(s: State): Option<TokenSet> { if s.disk.Some? then s.disk.value.token else None }

  // What the step puts on file, if it writes the file at all.
  function Puts(s: State, l: Label): Option<Option<Snapshot>>
    requires Enabled(s, l)
  {
    match l
    case OthersWrite(disk) => Some(disk)
    case Land(id, true) => Some(Some(s.writes[id].next))
    case _ => None
  }

  // The step leaves `token` on file, or takes it off.
  predicate PutsBack(s: State, l: Label, token: TokenSet) {
    Enabled(s, l) && Puts(s, l).Some? && OnFile(Apply(s, l)) == Some(token)
  }

  predicate Replaces(s: State, l: Label, token: TokenSet) {
    Enabled(s, l) && Puts(s, l).Some? && OnFile(Apply(s, l)) != Some(token)
  }

  // Between the steps e and n somebody replaced the token on file and nobody has put it back.
  ghost predicate Rotated(tr: seq<State>, ls: seq<Label>, token: TokenSet, e: nat, n: nat)
    requires e <= n < |tr| == |ls| + 1
  {
    exists k :: e <= k < n && Replaces(tr[k], ls[k], token) && forall j | k < j < n :: !PutsBack(tr[j], ls[j], token)
  }

  // syncServer: `ensure` returned `obtained` at state e, with that token on file; the sync is stamped
  // with it at step i, after the model fetch, and its file lands at step n.
  ghost predicate Syncs(tr: seq<State>, ls: seq<Label>, obtained: TokenSet, e: nat, i: nat, n: nat) {
    && IsRun(tr, ls) && e <= i < n < |ls|
    && OnFile(tr[e]) == Some(obtained)
    && ls[i].SyncWrite? && ls[i].token == obtained && ls[n] == Land(ls[i].id, true)
    && forall k | i < k < n :: ls[k] != Commit(ls[i].id) && ls[k] != Land(ls[i].id, false)
  }

  lemma {:induction false} OnFileUntilRotated(tr: seq<State>, ls: seq<Label>, token: TokenSet, e: nat, n: nat)
    requires IsRun(tr, ls) && e <= n < |tr| && OnFile(tr[e]) == Some(token)
    ensures OnFile(tr[n]) == Some(token) <==> !Rotated(tr, ls, token, e, n)
  {
    if n > e {
      OnFileUntilRotated(tr, ls, token, e, n - 1);
      assert Enabled(tr[n - 1], ls[n - 1]) && tr[n] == Apply(tr[n - 1], ls[n - 1]);
      RotatedOneMore(tr, ls, token, e, n);
    }
  }

  lemma RotatedOneMore(tr: seq<State>, ls: seq<Label>, token: TokenSet, e: nat, n: nat)
    requires e < n < |tr| == |ls| + 1 && Enabled(tr[n - 1], ls[n - 1])
    ensures Rotated(tr, ls, token, e, n) <==>
      Replaces(tr[n - 1], ls[n - 1], token) || (Rotated(tr, ls, token, e, n - 1) && !PutsBack(tr[n - 1], ls[n - 1], token))
  {
    hide Replaces, PutsBack;
    if Rotated(tr, ls, token, e, n) {
      var k :| e <= k < n && Replaces(tr[k], ls[k], token) && forall j | k < j < n :: !PutsBack(tr[j], ls[j], token);
      if k < n - 1 { assert Rotated(tr, ls, token, e, n - 1) && !PutsBack(tr[n - 1], ls[n - 1], token); }
    }
    if Rotated(tr, ls, token, e, n - 1) && !PutsBack(tr[n - 1], ls[n - 1], token) {
      var k :| e <= k < n - 1 && Replaces(tr[k], ls[k], token) && forall j | k < j < n - 1 :: !PutsBack(tr[j], ls[j], token);
      assert e <= k < n && forall j | k < j < n :: !PutsBack(tr[j], ls[j], token);
    }
    if Replaces(tr[n - 1], ls[n - 1], token) { assert e <= n - 1 < n; }
  }

  lemma {:induction false} WriteStays(tr: seq<State>, ls: seq<Label>, i: nat, n: nat)
    requires IsRun(tr, ls) && i < n < |tr| && Stamps(ls[i])
    requires forall k | i < k < n :: ls[k] != Commit(ls[i].id) && ls[k] != Land(ls[i].id, false)
    ensures ls[i].id in tr[n].writes && tr[n].writes[ls[i].id].next == tr[i + 1].writes[ls[i].id].next
    ensures ls[i].id in tr[i + 1].writes && tr[i + 1].writes[ls[i].id].next.token == Some(ls[i].token)
    ensures tr[i + 1].writes[ls[i].id].next.updatedAt == tr[i].now
  {
    assert Enabled(tr[n - 1], ls[n - 1]) && tr[n] == Apply(tr[n - 1], ls[n - 1]);
    if n > i + 1 { WriteStays(tr, ls, i, n - 1); }
  }

  /** A sync changes the token on file, undoing a rotation, if and only if between the return of `ensure`
      and the landing of its file somebody replaced the token on file and nobody put it back; the token
      ensured is on file in any case, and every engine that remembers nothing later than the sync's stamp
      takes it at a read that brings the file. */
  lemma SyncUndoesRotationExactly(tr: seq<State>, ls: seq<Label>, obtained: TokenSet, e: nat, i: nat, n: nat)
    requires Syncs(tr, ls, obtained, e, i, n)
    ensures OnFile(tr[n + 1]) != OnFile(tr[n]) <==> Rotated(tr, ls, obtained, e, n)
    ensures OnFile(tr[n + 1]) == Some(obtained)
    ensures forall reader: Snapshot | reader.updatedAt <= tr[i].now :: Reconcile(reader, tr[n + 1].disk).token == Some(obtained)
  {
    assert Enabled(tr[n], ls[n]) && tr[n + 1] == Apply(tr[n], ls[n]);
    OnFileUntilRotated(tr, ls, obtained, e, n);
    WriteStays(tr, ls, i, n);
  }

  // ---- What a write leaves ----------------------------------------------------------------

  lemma {:induction false} LandedOnce(tr: seq<State>, ls: seq<Label>, e: nat, n: nat) returns (k: nat)
    requires IsRun(tr, ls) && e < n < |tr| && Stamps(ls[e])
    requires forall k | e < k < n :: ls[k] != Commit(ls[e].id) && ls[k] != Land(ls[e].id, false)
    requires ls[e].id in tr[n].writes && tr[n].writes[ls[e].id].landed
    ensures e < k < n && ls[k] == Land(ls[e].id, true)
  {
    assert Enabled(tr[n - 1], ls[n - 1]) && tr[n] == Apply(tr[n - 1], ls[n - 1]);
    if n - 1 > e && ls[n - 1] == Land(ls[e].id, true) {
      k := n - 1;
    } else {
      assert n - 1 > e;
      k := LandedOnce(tr, ls, e, n - 1);
    }
  }

  lemma {:induction false} WriteIsFixed(tr: seq<State>, ls: seq<Label>, e: nat, n: nat)
    requires IsRun(tr, ls) && e < n < |tr| && Stamps(ls[e])
    requires forall k | e < k < n :: ls[k] != Commit(ls[e].id) && ls[k] != Land(ls[e].id, false)
    ensures ls[e].id in tr[n].writes
    ensures tr[n].writes[ls[e].id].next ==
      Snapshot(tr[e].now, Some(ls[e].token), if ls[e].SetCached? then tr[e].memory.models else ls[e].models)
  {
    assert Enabled(tr[n - 1], ls[n - 1]) && tr[n] == Apply(tr[n - 1], ls[n - 1]);
    if n - 1 > e { WriteIsFixed(tr, ls, e, n - 1); }
  }

  /** What a write stamped at step e brings is fixed there, whatever comes in between: a saved token goes with
      the models in memory then, a sync's with the models it fetched. It is put on file as it lands, comes into
      memory only after that, and a write that fails leaves both alone. */
  lemma WritesLeaveWhatTheyWere(tr: seq<State>, ls: seq<Label>, e: nat, n: nat)
    requires IsRun(tr, ls) && e < n < |ls| && Stamps(ls[e])
    requires forall k | e < k < n :: ls[k] != Commit(ls[e].id) && ls[k] != Land(ls[e].id, false)
    ensures var written := Snapshot(tr[e].now, Some(ls[e].token), if ls[e].SetCached? then tr[e].memory.models else ls[e].models);
      var (s, t) := (tr[n], tr[n + 1]);
      && (ls[n] == Land(ls[e].id, true) ==> t.disk == Some(written) && t.memory == s.memory)
      && (ls[n] == Land(ls[e].id, false) ==> t.disk == s.disk && t.memory == s.memory)
      && (ls[n] == Commit(ls[e].id) ==> t.memory == written && t.disk == s.disk)
    ensures ls[n] == Commit(ls[e].id) ==> exists k :: e < k < n && ls[k] == Land(ls[e].id, true)
  {
    assert Enabled(tr[n], ls[n]) && tr[n + 1] == Apply(tr[n], ls[n]);
    WriteIsFixed(tr, ls, e, n);
    if ls[n] == Commit(ls[e].id) { var k := LandedOnce(tr, ls, e, n); }
  }

  // ---- The engine's code ----------------------------------------------------------------

  class Engine {
    var now: int
    var disk: Option<Snapshot>
    var state: Snapshot
    var loads: map<OpId, Option<Snapshot>>
    var writes: map<OpId, Write>

    function View(): State reads this { State(now, disk, state, loads, writes) }

    constructor (now: int, disk: Option<Snapshot>)
      requires disk.Some? ==> disk.value.updatedAt <= now
      ensures Stamped(View()) && View().now == now && View().disk == disk
      ensures View().memory == if disk.Some? then disk.value else Snapshot(now, None, 0)
      ensures View().loads == map[] && View().writes == map[]
    {
      this.now, this.disk := now, disk;
      state := if disk.Some? then disk.value else Snapshot(now, None, 0);
      loads, writes := map[], map[];
    }

    // readCachedToken from where its load returns; the token the next decision is made against.
    method ReadCachedToken(id: OpId) returns (token: Option<TokenSet>)
      requires Enabled(View(), Adopt(id))
      modifies this
      ensures View() == Apply(old(View()), Adopt(id)) && token == state.token
    {
      var persisted := loads[id];
      loads := loads - {id};
      if persisted.None? || persisted.value.token.None? { return state.token; }
      if persisted.value.updatedAt < state.updatedAt { return state.token; }
      state := persisted.value;
      return persisted.value.token;
    }

    method BeginSetCached(id: OpId, token: TokenSet)
      requires Enabled(View(), SetCached(id, token))
      modifies this
      ensures View() == Apply(old(View()), SetCached(id, token))
    {
      var next := state.(updatedAt := now, token := Some(token));
      writes := writes[id := Write(next, false)];
    }

    method BeginSyncWrite(id: OpId, token: TokenSet, models: nat)
      requires Enabled(View(), SyncWrite(id, token, models))
      modifies this
      ensures View() == Apply(old(View()), SyncWrite(id, token, models))
    {
      var next := state.(updatedAt := now, token := Some(token), models := models);
      writes := writes[id := Write(next, false)];
    }

    method SaveServerState(id: OpId, ok: bool)
      requires Enabled(View(), Land(id, ok))
      modifies this
      ensures View() == Apply(old(View()), Land(id, ok))
    {
      if ok {
        disk := Some(writes[id].next);
        writes := writes[id := writes[id].(landed := true)];
      } else {
        writes := writes - {id};
      }
    }

    method FinishWrite(id: OpId)
      requires Enabled(View(), Commit(id))
      modifies this
      ensures View() == Apply(old(View()), Commit(id))
    {
      state := writes[id].next;
      writes := writes - {id};
    }
  }
}
