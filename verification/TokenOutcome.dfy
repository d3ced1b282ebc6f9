/** Which token an acquisition ends with, which refresh tokens it sends out, and what `ensure` returns,
    told by what the outside world said. The statements look at inputs only. */
module TokenOutcome {
  import opened Prelude
  import opened TokenRuntime

  // ---- Reading a list of inputs -----------------------------------------------------------

  // What the re-read under the lock found, or else what the caller had read before.
  function BaseOf(snapshot: Option<TokenSet>, ins: seq<Input>): Option<TokenSet> {
    if |ins| > 1 && ins[1].Read? && ins[1].found.Some? then ins[1].found else snapshot
  }

  predicate ValidRead(ins: seq<Input>, k: int) { 0 <= k < |ins| && ins[k].Read? && ins[k].valid }

  ghost predicate NoValidRead(ins: seq<Input>) { forall k :: !ValidRead(ins, k) }

  // The provider issued t and the write of t landed.
  predicate RefreshedAt(ins: seq<Input>, k: int, t: TokenSet) {
    0 <= k < |ins| - 1 && ins[k] == Answered(Issued(t)) && ins[k + 1] == Saved(true)
  }

  ghost predicate NeverRefreshed(ins: seq<Input>) { forall k, t :: !RefreshedAt(ins, k, t) }

  predicate LoginAt(ins: seq<Input>, k: int) { 0 <= k < |ins| && ins[k].LoginEnded? }

  ghost predicate NoLogin(ins: seq<Input>) { forall k :: !LoginAt(ins, k) }

  // A login brought an access token that differs from the one it started from.
  predicate NewByLogin(base: Option<TokenSet>, result: Option<TokenSet>) {
    result.Some? && (base.None? || result.value.access != base.value.access)
  }

  // What the login at k amounts to: a new token counts once it is saved.
  predicate LoginYields(base: Option<TokenSet>, ins: seq<Input>, k: int, outcome: Option<TokenSet>)
    requires LoginAt(ins, k)
  {
    if NewByLogin(base, ins[k].result) then
      k + 1 < |ins| && ins[k + 1].Saved? && outcome == if ins[k + 1].ok then ins[k].result else None
    else outcome == ins[k].result
  }

  // The acquisition's outcome is the token of a valid read, or one that was refreshed and saved, or what
  // the login came to; and one of these happened, and only one.
  ghost predicate ComesFrom(snapshot: Option<TokenSet>, ins: seq<Input>, outcome: Option<TokenSet>) {
    && (forall k | ValidRead(ins, k) :: outcome == ins[k].found)
    && (forall k, t | RefreshedAt(ins, k, t) :: outcome == Some(t))
    && (forall k | LoginAt(ins, k) :: LoginYields(BaseOf(snapshot, ins), ins, k, outcome))
    && (NoValidRead(ins) && NeverRefreshed(ins) ==> exists k :: LoginAt(ins, k))
    && (NoValidRead(ins) || (NeverRefreshed(ins) && NoLogin(ins)))
    && (NeverRefreshed(ins) || NoLogin(ins))
  }

  // Whether a refresh token goes out at all, and whether a second one does after a rejection.
  predicate PresentsBase(usesRefresh: bool, snapshot: Option<TokenSet>, ins: seq<Input>) {
    && |ins| > 1 && ins[1].Read? && !ins[1].valid && usesRefresh
    && BaseOf(snapshot, ins).Some? && BaseOf(snapshot, ins).value.refresh.Some?
  }

  predicate IsRejected(usesRefresh: bool, snapshot: Option<TokenSet>, ins: seq<Input>) {
    PresentsBase(usesRefresh, snapshot, ins) && |ins| > 2 && ins[2] == Answered(Rejected)
  }

  predicate PresentsNewer(usesRefresh: bool, snapshot: Option<TokenSet>, ins: seq<Input>) {
    && IsRejected(usesRefresh, snapshot, ins) && |ins| > 3
    && ins[3].Read? && !ins[3].valid && ins[3].found.Some? && ins[3].found.value.refresh.Some?
    && ins[3].found.value.refresh != BaseOf(snapshot, ins).value.refresh
  }

  function Presents(usesRefresh: bool, snapshot: Option<TokenSet>, ins: seq<Input>): seq<Secret> {
    (if PresentsBase(usesRefresh, snapshot, ins) then [BaseOf(snapshot, ins).value.refresh.value] else [])
      + (if PresentsNewer(usesRefresh, snapshot, ins) then [ins[3].found.value.refresh.value] else [])
  }

  // ---- One acquisition --------------------------------------------------------------------

  // Nothing has been settled yet.
  ghost predicate Open(ins: seq<Input>) { NoValidRead(ins) && NeverRefreshed(ins) && NoLogin(ins) }

  // The inputs so far account for where the acquisition is.
  ghost predicate Accounts(usesRefresh: bool, snapshot: Option<TokenSet>, ins: seq<Input>, q: Acquisition) {
    var n := |ins|;
    && q.presented == Presents(usesRefresh, snapshot, ins)
    && (n > 1 ==> ins[1].Read?)
    && (n == 2 && PresentsBase(usesRefresh, snapshot, ins) ==> q.at.Presenting?)
    && (n == 3 && IsRejected(usesRefresh, snapshot, ins) ==> q.at.Rechecking?)
    && (n > 3 && IsRejected(usesRefresh, snapshot, ins) ==> ins[3].Read?)
    && match q.at
       case Locking(sn) => n == 0 && sn == snapshot
       case Rereading(sn) => n == 1 && sn == snapshot && Open(ins)
       case Presenting(b) => n == 2 && Sends(usesRefresh, snapshot, ins, b)
       case Rechecking(b) => n == 3 && Sends(usesRefresh, snapshot, ins, b) && ins[2] == Answered(Rejected)
       case Retrying(b, _) => n == 4 && Sends(usesRefresh, snapshot, ins, b)
       case Saving(b, token) => n > 2 && Sends(usesRefresh, snapshot, ins, b) && ins[n - 1] == Answered(Issued(token))
       case LoggingIn(before, handed) =>
         && n > 1 && Open(ins) && before == BaseOf(snapshot, ins)
         && handed == if PresentsBase(usesRefresh, snapshot, ins) then Some(before.value.(refresh := None)) else before
       case SavingLogin(token) => n > 2 && SavesLogin(snapshot, ins, token)
       case Releasing(o) => n > 1 && ComesFrom(snapshot, ins, o)
       case Done(o) => n > 2 && ins[n - 1] == LockReleased && ComesFrom(snapshot, ins, o)
  }

  // The refresh token of b is out, or has been, and nothing is settled.
  ghost predicate Sends(usesRefresh: bool, snapshot: Option<TokenSet>, ins: seq<Input>, b: TokenSet) {
    Open(ins) && Some(b) == BaseOf(snapshot, ins) && PresentsBase(usesRefresh, snapshot, ins)
  }

  // The login just brought a new token.
  ghost predicate SavesLogin(snapshot: Option<TokenSet>, ins: seq<Input>, token: TokenSet) {
    && ins != [] && NoValidRead(ins) && NeverRefreshed(ins)
    && ins[|ins| - 1] == LoginEnded(Some(token)) && NewByLogin(BaseOf(snapshot, ins), Some(token))
    && forall k | LoginAt(ins, k) :: k == |ins| - 1
  }

  lemma OneMoreInput(ins: seq<Input>, i: Input)
    ensures forall k :: ValidRead(ins + [i], k) <==> ValidRead(ins, k) || (k == |ins| && i.Read? && i.valid)
    ensures forall k :: LoginAt(ins + [i], k) <==> LoginAt(ins, k) || (k == |ins| && i.LoginEnded?)
    ensures forall k, t :: RefreshedAt(ins + [i], k, t) <==>
      RefreshedAt(ins, k, t) || (k == |ins| - 1 >= 0 && ins[k] == Answered(Issued(t)) && i == Saved(true))
    ensures forall k | 0 <= k < |ins| :: (ins + [i])[k] == ins[k]
    ensures (ins + [i])[|ins|] == i
  {
  }

  // After the re-read the base is fixed, and after the second read so is what is sent out.
  lemma SentIsFixed(usesRefresh: bool, snapshot: Option<TokenSet>, ins: seq<Input>, i: Input)
    requires |ins| > 1
    ensures BaseOf(snapshot, ins + [i]) == BaseOf(snapshot, ins)
    ensures PresentsBase(usesRefresh, snapshot, ins + [i]) == PresentsBase(usesRefresh, snapshot, ins)
    ensures |ins| > 2 ==> IsRejected(usesRefresh, snapshot, ins + [i]) == IsRejected(usesRefresh, snapshot, ins)
    ensures |ins| != 3 || !i.Read? ==> Presents(usesRefresh, snapshot, ins + [i]) == Presents(usesRefresh, snapshot, ins)
  {
    assert forall k | 0 <= k < |ins| :: (ins + [i])[k] == ins[k];
  }

  lemma OpenStays(ins: seq<Input>, i: Input)
    requires Open(ins) && !(i.Read? && i.valid) && !i.LoginEnded? && i != Saved(true)
    ensures Open(ins + [i])
  {
    OneMoreInput(ins, i);
  }

  lemma ValidReadSettles(snapshot: Option<TokenSet>, ins: seq<Input>, i: Input)
    requires Open(ins) && i.Read? && i.valid
    ensures ComesFrom(snapshot, ins + [i], i.found)
  {
    OneMoreInput(ins, i);
    assert ValidRead(ins + [i], |ins|);
  }

  lemma SaveSettles(snapshot: Option<TokenSet>, ins: seq<Input>, t: TokenSet)
    requires Open(ins) && ins != [] && ins[|ins| - 1] == Answered(Issued(t))
    ensures ComesFrom(snapshot, ins + [Saved(true)], Some(t))
  {
    OneMoreInput(ins, Saved(true));
    assert RefreshedAt(ins + [Saved(true)], |ins| - 1, t);
  }

  lemma LoginSettles(snapshot: Option<TokenSet>, ins: seq<Input>, result: Option<TokenSet>)
    requires |ins| > 1 && Open(ins)
    ensures var more := ins + [LoginEnded(result)];
      if NewByLogin(BaseOf(snapshot, ins), result) then SavesLogin(snapshot, more, result.value)
      else ComesFrom(snapshot, more, result)
  {
    OneMoreInput(ins, LoginEnded(result));
    SentIsFixed(true, snapshot, ins, LoginEnded(result));
    assert LoginAt(ins + [LoginEnded(result)], |ins|);
  }

  lemma SavedLoginSettles(snapshot: Option<TokenSet>, ins: seq<Input>, token: TokenSet, ok: bool)
    requires |ins| > 1 && SavesLogin(snapshot, ins, token)
    ensures ComesFrom(snapshot, ins + [Saved(ok)], if ok then Some(token) else None)
  {
    OneMoreInput(ins, Saved(ok));
    SentIsFixed(true, snapshot, ins, Saved(ok));
    assert LoginAt(ins + [Saved(ok)], |ins| - 1);
  }

  lemma ReleaseChangesNothing(snapshot: Option<TokenSet>, ins: seq<Input>, o: Option<TokenSet>)
    requires |ins| > 1 && ComesFrom(snapshot, ins, o)
    ensures ComesFrom(snapshot, ins + [LockReleased], o)
  {
    OneMoreInput(ins, LockReleased);
    SentIsFixed(true, snapshot, ins, LockReleased);
    if NoValidRead(ins) && NeverRefreshed(ins) {
      var k :| LoginAt(ins, k);
      assert LoginAt(ins + [LockReleased], k);
    }
    if !NoValidRead(ins + [LockReleased]) {
      var k :| ValidRead(ins + [LockReleased], k);
      assert ValidRead(ins, k);
    }
    if !NeverRefreshed(ins + [LockReleased]) {
      var k, t :| RefreshedAt(ins + [LockReleased], k, t);
      assert RefreshedAt(ins, k, t);
    }
  }

  // ---- An acquisition keeps its accounts --------------------------------------------------

  lemma StartAccounts(usesRefresh: bool, snapshot: Option<TokenSet>)
    ensures Accounts(usesRefresh, snapshot, [], Acquisition(Locking(snapshot), []))
  {
  }

  lemma EntryAccounts(usesRefresh: bool, snapshot: Option<TokenSet>, ins: seq<Input>, q: Acquisition, i: Input)
    requires Accounts(usesRefresh, snapshot, ins, q) && Accepts(q.at, i) && (q.at.Locking? || q.at.Rereading?)
    ensures Accounts(usesRefresh, snapshot, ins + [i], Continue(usesRefresh, q, i))
  {
    var more := ins + [i];
    OneMoreInput(ins, i);
    if q.at.Locking? {
      assert Open(more);
    } else {
      assert more[1] == i && BaseOf(snapshot, more) == if i.found.Some? then i.found else snapshot;
      if i.valid { ValidReadSettles(snapshot, ins, i); } else { OpenStays(ins, i); }
    }
  }

  lemma RefreshAccounts(usesRefresh: bool, snapshot: Option<TokenSet>, ins: seq<Input>, q: Acquisition, i: Input)
    requires Accounts(usesRefresh, snapshot, ins, q) && Accepts(q.at, i) && (q.at.Presenting? || q.at.Retrying?)
    ensures Accounts(usesRefresh, snapshot, ins + [i], Continue(usesRefresh, q, i))
  {
    hide Open, BaseOf, PresentsBase, PresentsNewer, Presents;
    SentIsFixed(usesRefresh, snapshot, ins, i);
    OpenStays(ins, i);
    assert (ins + [i])[|ins|] == i && (ins + [i])[1] == ins[1];
  }

  lemma RecheckAccounts(usesRefresh: bool, snapshot: Option<TokenSet>, ins: seq<Input>, q: Acquisition, i: Input)
    requires Accounts(usesRefresh, snapshot, ins, q) && Accepts(q.at, i) && q.at.Rechecking?
    ensures Accounts(usesRefresh, snapshot, ins + [i], Continue(usesRefresh, q, i))
  {
    hide Open, BaseOf, PresentsBase;
    SentIsFixed(usesRefresh, snapshot, ins, i);
    assert (ins + [i])[3] == i && (ins + [i])[2] == ins[2] && (ins + [i])[1] == ins[1];
    if i.valid { ValidReadSettles(snapshot, ins, i); } else { OpenStays(ins, i); }
  }

  lemma SavingAccounts(usesRefresh: bool, snapshot: Option<TokenSet>, ins: seq<Input>, q: Acquisition, i: Input)
    requires Accounts(usesRefresh, snapshot, ins, q) && Accepts(q.at, i)
    requires q.at.Saving? || q.at.SavingLogin?
    ensures Accounts(usesRefresh, snapshot, ins + [i], Continue(usesRefresh, q, i))
  {
    hide Open, BaseOf, PresentsBase, PresentsNewer, Presents, ComesFrom, SavesLogin;
    SentIsFixed(usesRefresh, snapshot, ins, i);
    assert (ins + [i])[1] == ins[1];
    match q.at {
      case Saving(_, token) => if i.ok { SaveSettles(snapshot, ins, token); } else { OpenStays(ins, i); }
      case SavingLogin(token) => SavedLoginSettles(snapshot, ins, token, i.ok);
    }
  }

  lemma LastAccounts(usesRefresh: bool, snapshot: Option<TokenSet>, ins: seq<Input>, q: Acquisition, i: Input)
    requires Accounts(usesRefresh, snapshot, ins, q) && Accepts(q.at, i)
    requires q.at.LoggingIn? || q.at.Releasing?
    ensures Accounts(usesRefresh, snapshot, ins + [i], Continue(usesRefresh, q, i))
  {
    hide Open, BaseOf, PresentsBase, PresentsNewer, Presents, ComesFrom, SavesLogin;
    SentIsFixed(usesRefresh, snapshot, ins, i);
    assert (ins + [i])[1] == ins[1] && (ins + [i])[|ins|] == i;
    match q.at {
      case LoggingIn(_, _) => LoginSettles(snapshot, ins, i.result);
      case Releasing(o) => ReleaseChangesNothing(snapshot, ins, o);
    }
  }

  lemma ContinueAccounts(usesRefresh: bool, snapshot: Option<TokenSet>, ins: seq<Input>, q: Acquisition, i: Input)
    requires Accounts(usesRefresh, snapshot, ins, q) && Accepts(q.at, i)
    ensures Accounts(usesRefresh, snapshot, ins + [i], Continue(usesRefresh, q, i))
  {
    hide Accounts, Continue;
    if q.at.Locking? || q.at.Rereading? { EntryAccounts(usesRefresh, snapshot, ins, q, i); }
    else if q.at.Presenting? || q.at.Retrying? { RefreshAccounts(usesRefresh, snapshot, ins, q, i); }
    else if q.at.Rechecking? { RecheckAccounts(usesRefresh, snapshot, ins, q, i); }
    else if q.at.Saving? || q.at.SavingLogin? { SavingAccounts(usesRefresh, snapshot, ins, q, i); }
    else { LastAccounts(usesRefresh, snapshot, ins, q, i); }
  }

  lemma {:induction false} RunAccounts(usesRefresh: bool, snapshot: Option<TokenSet>, qs: seq<Acquisition>, ins: seq<Input>, n: nat)
    requires IsAcquisitionRun(usesRefresh, qs, ins) && qs[0] == Acquisition(Locking(snapshot), []) && n <= |ins|
    ensures Accounts(usesRefresh, snapshot, ins[..n], qs[n])
  {
    hide Accounts, Continue, Accepts;
    if n == 0 {
      StartAccounts(usesRefresh, snapshot);
    } else {
      RunAccounts(usesRefresh, snapshot, qs, ins, n - 1);
      assert Accepts(qs[n - 1].at, ins[n - 1]);
      ContinueAccounts(usesRefresh, snapshot, ins[..n - 1], qs[n - 1], ins[n - 1]);
      assert ins[..n - 1] + [ins[n - 1]] == ins[..n];
    }
  }

  /** An acquisition ends with exactly the token of a read that was valid, at lock entry or after a
      rejection; else with the token that was issued to it and saved; else with what the login came to,
      where an access token other than the base's counts only once saved. */
  lemma OutcomeComesFromInputs(usesRefresh: bool, snapshot: Option<TokenSet>, qs: seq<Acquisition>, ins: seq<Input>)
    requires IsAcquisitionRun(usesRefresh, qs, ins) && qs[0] == Acquisition(Locking(snapshot), [])
    ensures qs[|ins|].at.Done? ==> ComesFrom(snapshot, ins, qs[|ins|].at.outcome)
  {
    RunAccounts(usesRefresh, snapshot, qs, ins, |ins|);
    assert ins[..|ins|] == ins;
    hide ComesFrom;
  }

  /** It sends out the base's refresh token exactly when the first read is not valid and it may refresh. If
      that one is rejected it reads again, and sends out one more exactly when the second read is not valid
      either and brings another refresh token. A login is not given what was sent out. */
  lemma SendsExactly(usesRefresh: bool, snapshot: Option<TokenSet>, qs: seq<Acquisition>, ins: seq<Input>)
    requires IsAcquisitionRun(usesRefresh, qs, ins) && qs[0] == Acquisition(Locking(snapshot), [])
    ensures qs[|ins|].presented == Presents(usesRefresh, snapshot, ins)
    ensures IsRejected(usesRefresh, snapshot, ins) && |ins| > 3 ==> ins[3].Read?
    ensures qs[|ins|].at.LoggingIn? ==> var base := BaseOf(snapshot, ins);
      qs[|ins|].at.handed == if PresentsBase(usesRefresh, snapshot, ins) then Some(base.value.(refresh := None)) else base
  {
    RunAccounts(usesRefresh, snapshot, qs, ins, |ins|);
    assert ins[..|ins|] == ins;
  }

  // ---- What a caller gets -----------------------------------------------------------------

  // What the awaits of acquisition a brought between the steps i and n.
  function InputsOf(acts: seq<Action>, a: AcquisitionId, i: nat, n: nat): seq<Input>
    requires i <= n <= |acts|
  {
    if i == n then []
    else InputsOf(acts, a, i, n - 1) + if acts[n - 1].Advance? && acts[n - 1].a == a then [acts[n - 1].i] else []
  }

  ghost predicate FromNothing(rs: seq<Runtime>, acts: seq<Action>) {
    && IsRuntimeRun(rs, acts)
    && rs[0].inFlight.None? && rs[0].acquisitions == map[] && rs[0].callers == map[]
  }

  // Caller c's read brought `found`, and the token was judged so.
  predicate ReadsThenDecides(acts: seq<Action>, g: nat, d: nat, c: CallerId, found: Option<TokenSet>, valid: bool) {
    g < d < |acts| && acts[g] == GetCached(c, found) && acts[d].Decide? && acts[d].c == c && acts[d].valid == valid
  }

  // Acquisition a was started at step e by a caller that had read `snapshot` at step g.
  predicate StartedAt(acts: seq<Action>, a: AcquisitionId, g: nat, e: nat, snapshot: Option<TokenSet>) {
    e < |acts| && acts[e].Decide? && acts[e].started == a && ReadsThenDecides(acts, g, e, acts[e].c, snapshot, false)
  }

  lemma {:induction false} ReadCameFrom(rs: seq<Runtime>, acts: seq<Action>, c: CallerId, n: nat) returns (g: nat)
    requires FromNothing(rs, acts) && n < |rs| && c in rs[n].callers && rs[n].callers[c].HasRead?
    ensures g < n && acts[g] == GetCached(c, rs[n].callers[c].found)
  {
    var r, act := rs[n - 1], acts[n - 1];
    assert Possible(r, act) && rs[n] == Perform(r, act);
    if act.GetCached? && act.c == c { g := n - 1; } else { g := ReadCameFrom(rs, acts, c, n - 1); }
  }

  // Acquisition a, under way in state n, and the step that started it.
  ghost predicate UnderWay(rs: seq<Runtime>, acts: seq<Action>, a: AcquisitionId, g: nat, e: nat, snapshot: Option<TokenSet>, n: nat) {
    && |rs| == |acts| + 1 && e < n <= |acts| && StartedAt(acts, a, g, e, snapshot)
    && a in rs[n].acquisitions
    && Accounts(rs[0].usesRefresh, snapshot, InputsOf(acts, a, e + 1, n), rs[n].acquisitions[a])
  }

  lemma JustStarted(rs: seq<Runtime>, acts: seq<Action>, a: AcquisitionId, n: nat) returns (g: nat, snapshot: Option<TokenSet>)
    requires FromNothing(rs, acts) && 0 < n < |rs| && a in rs[n].acquisitions && a !in rs[n - 1].acquisitions
    ensures UnderWay(rs, acts, a, g, n - 1, snapshot, n)
  {
    hide Accounts;
    var r, act := rs[n - 1], acts[n - 1];
    assert Possible(r, act) && rs[n] == Perform(r, act);
    assert act.Decide? && act.started == a && !act.valid;
    snapshot := r.callers[act.c].found;
    g := ReadCameFrom(rs, acts, act.c, n - 1);
    StartAccounts(rs[0].usesRefresh, snapshot);
  }

  lemma {:induction false} SameKind(rs: seq<Runtime>, acts: seq<Action>, n: nat)
    requires IsRuntimeRun(rs, acts) && n < |rs|
    ensures rs[n].usesRefresh == rs[0].usesRefresh
  {
    if n > 0 { SameKind(rs, acts, n - 1); }
  }

  lemma AcquisitionMoves(r: Runtime, act: Action, a: AcquisitionId)
    requires Possible(r, act) && a in r.acquisitions && a in Perform(r, act).acquisitions
    ensures act.Advance? && act.a == a ==> Accepts(r.acquisitions[a].at, act.i)
    ensures Perform(r, act).acquisitions[a] ==
      if act.Advance? && act.a == a then Continue(r.usesRefresh, r.acquisitions[a], act.i) else r.acquisitions[a]
  {
    hide Continue, Accepts;
  }

  lemma StillUnderWay(rs: seq<Runtime>, acts: seq<Action>, a: AcquisitionId, g: nat, e: nat, snapshot: Option<TokenSet>, n: nat)
    requires FromNothing(rs, acts) && 0 < n < |rs| && a in rs[n].acquisitions
    requires UnderWay(rs, acts, a, g, e, snapshot, n - 1)
    ensures UnderWay(rs, acts, a, g, e, snapshot, n)
  {
    hide Accounts, Continue, Accepts, Perform, Possible, StartedAt;
    var r, act := rs[n - 1], acts[n - 1];
    assert Possible(r, act) && rs[n] == Perform(r, act);
    SameKind(rs, acts, n - 1);
    AcquisitionMoves(r, act, a);
    if act.Advance? && act.a == a {
      ContinueAccounts(r.usesRefresh, snapshot, InputsOf(acts, a, e + 1, n - 1), r.acquisitions[a], act.i);
    } else {
      assert InputsOf(acts, a, e + 1, n - 1) + [] == InputsOf(acts, a, e + 1, n - 1);
    }
  }

  lemma {:induction false} WasStarted(rs: seq<Runtime>, acts: seq<Action>, a: AcquisitionId, n: nat)
    returns (g: nat, e: nat, snapshot: Option<TokenSet>)
    requires FromNothing(rs, acts) && n < |rs| && a in rs[n].acquisitions
    ensures UnderWay(rs, acts, a, g, e, snapshot, n)
  {
    hide UnderWay, IsRuntimeRun;
    if a in rs[n - 1].acquisitions {
      g, e, snapshot := WasStarted(rs, acts, a, n - 1);
      StillUnderWay(rs, acts, a, g, e, snapshot, n);
    } else {
      e := n - 1;
      g, snapshot := JustStarted(rs, acts, a, n);
    }
  }

  // Caller c waits on the acquisition that was started at step e, since step d.
  lemma {:induction false} WaitsSince(rs: seq<Runtime>, acts: seq<Action>, c: CallerId, n: nat)
    returns (g: nat, e: nat, d: nat, snapshot: Option<TokenSet>)
    requires FromNothing(rs, acts) && n < |rs| && c in rs[n].callers && rs[n].callers[c].Waiting?
    ensures UnderWay(rs, acts, rs[n].callers[c].on, g, e, snapshot, n)
    ensures e <= d < n && acts[d].Decide? && acts[d].c == c && !acts[d].valid
  {
    hide UnderWay, Accounts, Continue, Frugal;
    var a := rs[n].callers[c].on;
    PerformRunKeepsSingleFlight(rs, acts, n);
    var r, act := rs[n - 1], acts[n - 1];
    assert Possible(r, act) && rs[n] == Perform(r, act);
    if act.Decide? && act.c == c {
      g, e, snapshot := WasStarted(rs, acts, a, n);
      d := n - 1;
      StartIsPast(rs, acts, a, g, e, snapshot, n);
    } else {
      g, e, d, snapshot := WaitsSince(rs, acts, c, n - 1);
      StillUnderWay(rs, acts, a, g, e, snapshot, n);
    }
  }

  lemma StartIsPast(rs: seq<Runtime>, acts: seq<Action>, a: AcquisitionId, g: nat, e: nat, snapshot: Option<TokenSet>, n: nat)
    requires UnderWay(rs, acts, a, g, e, snapshot, n)
    ensures e < n
  {
  }

  // Where a caller's answer came from: its own read, or the acquisition `a` that it started or joined.
  datatype Origin =
    | Cached(read: nat, decide: nat)
    | Obtained(a: AcquisitionId, read: nat, start: nat, join: nat, settle: nat, snapshot: Option<TokenSet>)

  ghost predicate Explains(acts: seq<Action>, c: CallerId, answer: Option<TokenSet>, o: Origin) {
    match o
    case Cached(g, d) => ReadsThenDecides(acts, g, d, c, answer, true)
    case Obtained(a, g, e, d, m, snapshot) =>
      && StartedAt(acts, a, g, e, snapshot)
      && e <= d < m < |acts| && acts[d].Decide? && acts[d].c == c && !acts[d].valid
      && acts[m] == Settle(a) && ComesFrom(snapshot, InputsOf(acts, a, e + 1, m), answer)
  }

  lemma SettledAnswer(rs: seq<Runtime>, acts: seq<Action>, c: CallerId, n: nat) returns (o: Origin)
    requires FromNothing(rs, acts) && 0 < n < |rs| && c in rs[n].callers && rs[n].callers[c].Returned?
    requires acts[n - 1].Settle? && c in rs[n - 1].callers && rs[n - 1].callers[c] == Waiting(acts[n - 1].a)
    ensures Explains(acts, c, rs[n].callers[c].outcome, o)
  {
    hide Continue, ComesFrom, StartedAt;
    var a := acts[n - 1].a;
    var r, act := rs[n - 1], acts[n - 1];
    assert Possible(r, act) && rs[n] == Perform(r, act);
    var g, e, d, snapshot := WaitsSince(rs, acts, c, n - 1);
    o := Obtained(a, g, e, d, n - 1, snapshot);
  }

  /** Whatever `ensure` returns was valid when the caller read it, or is what the acquisition it started or
      joined came to by that acquisition's own inputs, from its start to its end. */
  lemma {:induction false} ReturnedCameFrom(rs: seq<Runtime>, acts: seq<Action>, c: CallerId, n: nat) returns (o: Origin)
    requires FromNothing(rs, acts) && n < |rs| && c in rs[n].callers && rs[n].callers[c].Returned?
    ensures Explains(acts, c, rs[n].callers[c].outcome, o)
  {
    hide Explains, Continue;
    var r, act := rs[n - 1], acts[n - 1];
    assert Possible(r, act) && rs[n] == Perform(r, act);
    if c in r.callers && r.callers[c].Returned? {
      o := ReturnedCameFrom(rs, acts, c, n - 1);
    } else if act.Settle? {
      o := SettledAnswer(rs, acts, c, n);
    } else {
      o := CachedAnswer(rs, acts, c, n);
    }
  }

  lemma CachedAnswer(rs: seq<Runtime>, acts: seq<Action>, c: CallerId, n: nat) returns (o: Origin)
    requires FromNothing(rs, acts) && 0 < n < |rs| && c in rs[n].callers && rs[n].callers[c].Returned?
    requires !acts[n - 1].Settle? && (c in rs[n - 1].callers ==> !rs[n - 1].callers[c].Returned?)
    ensures Explains(acts, c, rs[n].callers[c].outcome, o)
  {
    hide Continue;
    var r, act := rs[n - 1], acts[n - 1];
    assert Possible(r, act) && rs[n] == Perform(r, act);
    var g := ReadCameFrom(rs, acts, c, n - 1);
    o := Cached(g, n - 1);
  }
}
