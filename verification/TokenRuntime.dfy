/** `TokenRuntime` of packages/opencode-auth-core/src/token-runtime.ts, one step per
    synchronous stretch between awaits. What an await brings back (a read of the shared file,
    the identity provider's answer, the end of a login) is an `Input`; `isTokenValid` is the
    `valid` flag of a read. */
module TokenRuntime {
  import opened Prelude

  type Secret = nat
  type AcquisitionId = nat
  type CallerId = nat

  datatype TokenSet = TokenSet(access: Secret, refresh: Option<Secret>)

  // A refresh request ends with a new token set, a 4xx refusal, or any other failure.
  datatype Answer = Issued(token: TokenSet) | Rejected | Failed

  datatype Phase =
    | Locking(snapshot: Option<TokenSet>)
    | Rereading(snapshot: Option<TokenSet>)
    | Presenting(base: TokenSet)
    | Rechecking(base: TokenSet)
    | Retrying(base: TokenSet, newer: TokenSet)
    | Saving(base: TokenSet, token: TokenSet)
    | LoggingIn(before: Option<TokenSet>, handed: Option<TokenSet>)
    | SavingLogin(token: TokenSet)
    | Releasing(outcome: Option<TokenSet>)        // None: the promise is going to reject
    | Done(outcome: Option<TokenSet>)

  // `presented` is the history of refresh tokens this acquisition sent out.
  datatype Acquisition = Acquisition(at: Phase, presented: seq<Secret>)

  datatype Input =
    | LockReturned
    | Read(found: Option<TokenSet>, valid: bool)
    | Answered(answer: Answer)
    | Saved(ok: bool)
    | LoginEnded(result: Option<TokenSet>)        // None: ensureToken threw
    | LockReleased

  predicate Accepts(ph: Phase, i: Input) {
    match ph
    case Locking(_) => i.LockReturned?
    case Rereading(_) => i.Read? && (i.valid ==> i.found.Some?)
    case Presenting(_) => i.Answered?
    case Rechecking(_) => i.Read? && (i.valid ==> i.found.Some?)
    case Retrying(_, _) => i.Answered?
    case Saving(_, _) => i.Saved?
    case LoggingIn(_, _) => i.LoginEnded?
    case SavingLogin(_) => i.Saved?
    case Releasing(_) => i.LockReleased?
    case Done(_) => false
  }

  // The start of refreshOrLogin.
  function StartOf(usesRefresh: bool, q: Acquisition, base: Option<TokenSet>): Acquisition {
    if base.Some? && base.value.refresh.Some? && usesRefresh then
      Acquisition(Presenting(base.value), q.presented + [base.value.refresh.value])
    else q.(at := LoggingIn(base, base))
  }

  // Its end: log in with the presented refresh token stripped.
  function Fallback(q: Acquisition, base: TokenSet): Acquisition {
    q.(at := LoggingIn(Some(base), Some(base.(refresh := None))))
  }

  function Continue(usesRefresh: bool, q: Acquisition, i: Input): Acquisition
    requires Accepts(q.at, i)
  {
    match q.at
    case Locking(snapshot) => q.(at := Rereading(snapshot))
    case Rereading(snapshot) =>
      if i.valid then q.(at := Releasing(i.found))
      else StartOf(usesRefresh, q, if i.found.Some? then i.found else snapshot)
    case Presenting(base) =>
      (match i.answer
       case Issued(token) => q.(at := Saving(base, token))
       case Rejected => q.(at := Rechecking(base))
       case Failed => Fallback(q, base))
    case Rechecking(base) =>
      if i.valid then q.(at := Releasing(i.found))
      else if i.found.None? || i.found.value.refresh.None? || i.found.value.refresh == base.refresh then
        Fallback(q, base)
      else Acquisition(Retrying(base, i.found.value), q.presented + [i.found.value.refresh.value])
    case Retrying(base, newer) =>
      if i.answer.Issued? then q.(at := Saving(base, i.answer.token)) else Fallback(q, base)
    case Saving(base, token) =>
      if i.ok then q.(at := Releasing(Some(token))) else Fallback(q, base)
    case LoggingIn(before, _) =>
      if i.result.Some? && (before.None? || i.result.value.access != before.value.access) then
        q.(at := SavingLogin(i.result.value))
      else q.(at := Releasing(i.result))
    case SavingLogin(token) => q.(at := Releasing(if i.ok then Some(token) else None))
    case Releasing(outcome) => q.(at := Done(outcome))
  }

  // ---- One acquisition ------------------------------------------------------------------

  /** What holds of an acquisition whatever it reads and whatever it is answered: at most two
      refresh tokens presented, always distinct, and none of them handed to the login. */
  ghost predicate Frugal(usesRefresh: bool, q: Acquisition) {
    && |q.presented| <= 2
    && (|q.presented| == 2 ==> q.presented[0] != q.presented[1])
    && (!usesRefresh ==> q.presented == [])
    && match q.at
       case Locking(_) => q.presented == []
       case Rereading(_) => q.presented == []
       case Presenting(base) => base.refresh.Some? && q.presented == [base.refresh.value]
       case Rechecking(base) => base.refresh.Some? && q.presented == [base.refresh.value]
       case Retrying(base, newer) =>
         base.refresh.Some? && newer.refresh.Some? && q.presented == [base.refresh.value, newer.refresh.value]
       case Saving(base, _) => |q.presented| >= 1 && base.refresh == Some(q.presented[0])
       case LoggingIn(before, handed) =>
         && (usesRefresh ==> handed.None? || handed.value.refresh.None?)
         && before.Some? == handed.Some?
         && (before.Some? ==> handed.value.access == before.value.access)
       case _ => true
  }

  lemma ContinueStaysFrugal(usesRefresh: bool, q: Acquisition, i: Input)
    requires Accepts(q.at, i) && Frugal(usesRefresh, q)
    ensures Frugal(usesRefresh, Continue(usesRefresh, q, i))
    ensures q.presented <= Continue(usesRefresh, q, i).presented
  {
  }

  ghost predicate IsAcquisitionRun(usesRefresh: bool, qs: seq<Acquisition>, ins: seq<Input>) {
    && |qs| == |ins| + 1
    && forall k | 0 <= k < |ins| ::
         Accepts(qs[k].at, ins[k]) && qs[k + 1] == Continue(usesRefresh, qs[k], ins[k])
  }

  /** An acquisition presents at most two refresh tokens over its whole life, never the same one
      twice, and the login it falls back to is never handed one it presented. */
  lemma {:induction false} AcquisitionIsFrugal(usesRefresh: bool, qs: seq<Acquisition>, ins: seq<Input>, k: nat)
    requires IsAcquisitionRun(usesRefresh, qs, ins) && k < |qs|
    requires qs[0].at.Locking? && qs[0].presented == []
    ensures Frugal(usesRefresh, qs[k])
    ensures qs[k].at.LoggingIn? && qs[k].at.handed.Some? && qs[k].at.handed.value.refresh.Some? ==>
              qs[k].at.handed.value.refresh.value !in qs[k].presented
  {
    if k > 0 {
      AcquisitionIsFrugal(usesRefresh, qs, ins, k - 1);
      ContinueStaysFrugal(usesRefresh, qs[k - 1], ins[k - 1]);
    }
  }

  // Awaits an acquisition can still go through.
  function AwaitsLeft(ph: Phase): nat {
    match ph
    case Locking(_) => 9
    case Rereading(_) => 8
    case Presenting(_) => 7
    case Rechecking(_) => 6
    case Retrying(_, _) => 5
    case Saving(_, _) => 4
    case LoggingIn(_, _) => 3
    case SavingLogin(_) => 2
    case Releasing(_) => 1
    case Done(_) => 0
  }

  /** ... and it always ends: nine awaits at most, the last of which gives the lock back. */
  lemma {:induction false} AcquisitionEnds(usesRefresh: bool, qs: seq<Acquisition>, ins: seq<Input>)
    requires IsAcquisitionRun(usesRefresh, qs, ins)
    ensures |ins| <= AwaitsLeft(qs[0].at) <= 9
    ensures |ins| > 0 && qs[|ins|].at.Done? ==> ins[|ins| - 1] == LockReleased
    decreases |ins|
  {
    if |ins| > 1 {
      assert Accepts(qs[0].at, ins[0]);
      var qs', ins' := qs[1..], ins[1..];
      forall k | 0 <= k < |ins'|
        ensures Accepts(qs'[k].at, ins'[k]) && qs'[k + 1] == Continue(usesRefresh, qs'[k], ins'[k])
      {
        assert Accepts(qs[k + 1].at, ins[k + 1]);
      }
      AcquisitionEnds(usesRefresh, qs', ins');
    }
  }

  // ---- One runtime ----------------------------------------------------------------------

  datatype Caller =
    | Reading                                     // its first getCached is under way
    | HasRead(found: Option<TokenSet>)
    | Waiting(on: AcquisitionId)
    | Returned(outcome: Option<TokenSet>)

  datatype Runtime = Runtime(
    usesRefresh: bool,
    inFlight: Option<AcquisitionId>,
    acquisitions: map<AcquisitionId, Acquisition>,
    callers: map<CallerId, Caller>)

  datatype Action =
    | Call(c: CallerId)
    | GetCached(c: CallerId, found: Option<TokenSet>)
    | Decide(c: CallerId, valid: bool, started: AcquisitionId)
    | Advance(a: AcquisitionId, i: Input)
    | Settle(a: AcquisitionId)

  predicate Possible(r: Runtime, act: Action) {
    match act
    case Call(c) => c !in r.callers
    case GetCached(c, _) => c in r.callers && r.callers[c].Reading?
    case Decide(c, valid, started) =>
      c in r.callers && r.callers[c].HasRead? && (valid ==> r.callers[c].found.Some?) && started !in r.acquisitions
    case Advance(a, i) => a in r.acquisitions && Accepts(r.acquisitions[a].at, i)
    case Settle(a) => a in r.acquisitions && r.acquisitions[a].at.Done?
  }

  function Perform(r: Runtime, act: Action): Runtime
    requires Possible(r, act)
  {
    match act
    case Call(c) => r.(callers := r.callers[c := Reading])
    case GetCached(c, found) => r.(callers := r.callers[c := HasRead(found)])
    case Decide(c, valid, started) =>
      var found := r.callers[c].found;
      if valid then r.(callers := r.callers[c := Returned(found)])
      else if r.inFlight.Some? then r.(callers := r.callers[c := Waiting(r.inFlight.value)])
      else r.(inFlight := Some(started),
              acquisitions := r.acquisitions[started := Acquisition(Locking(found), [])],
              callers := r.callers[c := Waiting(started)])
    case Advance(a, i) =>
      r.(acquisitions := r.acquisitions[a := Continue(r.usesRefresh, r.acquisitions[a], i)])
    case Settle(a) =>
      var outcome := r.acquisitions[a].at.outcome;
      r.(inFlight := if r.inFlight == Some(a) then None else r.inFlight,
         acquisitions := r.acquisitions - {a},
         callers := map c | c in r.callers ::
           if r.callers[c] == Waiting(a) then Returned(outcome) else r.callers[c])
  }

  ghost predicate SingleFlight(r: Runtime) {
    && r.acquisitions.Keys == (if r.inFlight.Some? then {r.inFlight.value} else {})
    && (forall a | a in r.acquisitions :: Frugal(r.usesRefresh, r.acquisitions[a]))
    && (forall c | c in r.callers && r.callers[c].Waiting? :: r.inFlight == Some(r.callers[c].on))
  }

  ghost predicate IsRuntimeRun(rs: seq<Runtime>, acts: seq<Action>) {
    && |rs| == |acts| + 1
    && forall k | 0 <= k < |acts| :: Possible(rs[k], acts[k]) && rs[k + 1] == Perform(rs[k], acts[k])
  }

  lemma PerformKeepsSingleFlight(r: Runtime, act: Action)
    requires Possible(r, act) && SingleFlight(r)
    ensures SingleFlight(Perform(r, act))
  {
    if act.Advance? { ContinueStaysFrugal(r.usesRefresh, r.acquisitions[act.a], act.i); }
  }

  /** However the calls of `ensure` interleave, one runtime never has two acquisitions under way,
      and everyone waiting waits on the one in the slot. */
  lemma {:induction false} OneAcquisitionAtATime(rs: seq<Runtime>, acts: seq<Action>, k: nat)
    requires IsRuntimeRun(rs, acts) && k < |rs|
    requires rs[0].inFlight.None? && rs[0].acquisitions == map[] && rs[0].callers == map[]
    ensures SingleFlight(rs[k]) && |rs[k].acquisitions.Keys| <= 1
  {
    if k > 0 {
      OneAcquisitionAtATime(rs, acts, k - 1);
      PerformKeepsSingleFlight(rs[k - 1], acts[k - 1]);
    }
  }

  /** A caller that joins gets the outcome of the acquisition it joined: from the step where it
      starts waiting on `a` until `a` settles it keeps waiting, and settling answers it. */
  lemma {:induction false} JoinersShareTheOutcome(rs: seq<Runtime>, acts: seq<Action>, c: CallerId, a: AcquisitionId)
    requires IsRuntimeRun(rs, acts) && |acts| > 0
    requires SingleFlight(rs[0])
    requires c in rs[0].callers && rs[0].callers[c] == Waiting(a)
    requires forall k | 0 <= k < |acts| - 1 :: acts[k] != Settle(a)
    ensures a in rs[|acts| - 1].acquisitions
    ensures acts[|acts| - 1] == Settle(a) ==>
              && c in rs[|acts|].callers
              && rs[|acts|].callers[c] == Returned(rs[|acts| - 1].acquisitions[a].at.outcome)
    ensures acts[|acts| - 1] != Settle(a) ==> c in rs[|acts|].callers && rs[|acts|].callers[c] == Waiting(a)
    decreases |acts|
  {
    if |acts| > 1 {
      var n := |acts| - 1;
      assert rs[..n + 1][n - 1] == rs[n - 1];
      JoinersShareTheOutcome(rs[..n + 1], acts[..n], c, a);
      PerformRunKeepsSingleFlight(rs, acts, n);
      assert rs[n].callers[c] == Waiting(a);
    }
    assert Possible(rs[|acts| - 1], acts[|acts| - 1]);
  }

  lemma {:induction false} PerformRunKeepsSingleFlight(rs: seq<Runtime>, acts: seq<Action>, k: nat)
    requires IsRuntimeRun(rs, acts) && k < |rs| && SingleFlight(rs[0])
    ensures SingleFlight(rs[k])
  {
    if k > 0 {
      PerformRunKeepsSingleFlight(rs, acts, k - 1);
      PerformKeepsSingleFlight(rs[k - 1], acts[k - 1]);
    }
  }

  // ---- The code of one runtime ----------------------------------------------------------

  // What the outside world will say to one acquisition: reads of the cache (with the verdict of
  // isTokenValid), answers to refresh requests, results of writes, and the login.
  datatype World = World(
    firstRead: (Option<TokenSet>, bool), secondRead: (Option<TokenSet>, bool),
    firstAnswer: Answer, secondAnswer: Answer,
    saveRefreshed: bool, login: Option<TokenSet>, saveLogin: bool)
  {
    predicate Sensible() {
      && (firstRead.1 ==> firstRead.0.Some?)
      && (secondRead.1 ==> secondRead.0.Some?)
    }

    // The second read brings a refresh token other than the one refused.
    predicate HasNewer(base: TokenSet) {
      secondRead.0.Some? && secondRead.0.value.refresh.Some? && secondRead.0.value.refresh != base.refresh
    }

    // The token that recovering from a refusal brings: a valid one, or one refreshed from the newer.
    function Recovered(base: TokenSet): Option<TokenSet> {
      if secondRead.1 then secondRead.0
      else if HasNewer(base) && secondAnswer.Issued? && saveRefreshed then Some(secondAnswer.token)
      else None
    }

    // What the login comes to: an access token other than the base's has to be saved.
    function LoggedIn(base: Option<TokenSet>): Option<TokenSet> {
      if base.Some? && login.Some? && login.value.access == base.value.access then login
      else if saveLogin then login else None
    }

    function Obtained(usesRefresh: bool, base: Option<TokenSet>): Option<TokenSet> {
      if base.None? || base.value.refresh.None? || !usesRefresh then LoggedIn(base)
      else match firstAnswer
        case Issued(token) => if saveRefreshed then Some(token) else LoggedIn(base)
        case Rejected => if Recovered(base.value).Some? then Recovered(base.value) else LoggedIn(base)
        case Failed => LoggedIn(base)
    }
  }

  /** `acquireCoordinated` and the functions below it, in the shape of the source: `None` stands
      for a thrown error. The ghost history shows that every path through the code is a run of
      the acquisition above, and that `sent` is what that run presented. */
  class Coordinator {
    const usesRefresh: bool
    var sent: seq<Secret>
    ghost var qs: seq<Acquisition>
    ghost var ins: seq<Input>

    ghost predicate Valid() reads this {
      IsAcquisitionRun(usesRefresh, qs, ins) && Now().presented == sent
    }

    ghost function Now(): Acquisition
      requires |qs| == |ins| + 1
      reads this
    {
      qs[|ins|]
    }

    constructor (usesRefresh: bool, snapshot: Option<TokenSet>)
      ensures Valid() && this.usesRefresh == usesRefresh
      ensures qs == [Acquisition(Locking(snapshot), [])] && ins == [] && sent == []
    {
      this.usesRefresh, sent := usesRefresh, [];
      qs, ins := [Acquisition(Locking(snapshot), [])], [];
    }

    ghost method Await(i: Input)
      requires IsAcquisitionRun(usesRefresh, qs, ins) && Accepts(Now().at, i)
      modifies this`qs, this`ins
      ensures IsAcquisitionRun(usesRefresh, qs, ins) && |qs| == |old(qs)| + 1 && qs[0] == old(qs)[0]
      ensures ins == old(ins) + [i] && Now() == Continue(usesRefresh, old(Now()), i)
    {
      qs, ins := qs + [Continue(usesRefresh, Now(), i)], ins + [i];
    }

    method AcquireCoordinated(w: World, snapshot: Option<TokenSet>) returns (outcome: Option<TokenSet>)
      requires w.Sensible() && Valid() && Now().at == Locking(snapshot) && sent == []
      modifies this
      ensures Valid() && Now().at == Done(outcome) && qs[0] == old(qs)[0]
      ensures var (reread, valid) := w.firstRead;
        outcome == if valid then reread else w.Obtained(usesRefresh, if reread.Some? then reread else snapshot)
    {
      Await(LockReturned);
      var (reread, valid) := w.firstRead;
      Await(Read(reread, valid));
      if valid {
        outcome := reread;
      } else {
        outcome := RefreshOrLogin(w, if reread.Some? then reread else snapshot);
      }
      Await(LockReleased);
    }

    method RefreshOrLogin(w: World, base: Option<TokenSet>) returns (outcome: Option<TokenSet>)
      requires w.Sensible() && IsAcquisitionRun(usesRefresh, qs, ins) && sent == []
      requires Now() == StartOf(usesRefresh, Acquisition(Now().at, []), base)
      modifies this
      ensures Valid() && Now().at == Releasing(outcome) && qs[0] == old(qs)[0]
      ensures outcome == w.Obtained(usesRefresh, base)
    {
      hide IsAcquisitionRun;
      var refreshAttempted := false;
      if base.Some? && base.value.refresh.Some? && usesRefresh {
        refreshAttempted := true;
        sent := [base.value.refresh.value];
        Await(Answered(w.firstAnswer));
        match w.firstAnswer {
          case Issued(token) =>
            Await(Saved(w.saveRefreshed));
            if w.saveRefreshed { return Some(token); }
          case Rejected =>
            var recovered := RecoverFromRejectedRefresh(w, base.value);
            if recovered.Some? { return recovered; }
          case Failed =>
        }
      }
      outcome := LogIn(w, base);
    }

    // ensureToken, without the refresh token if one was presented.
    method LogIn(w: World, base: Option<TokenSet>) returns (outcome: Option<TokenSet>)
      requires Valid() && Now().at.LoggingIn? && Now().at.before == base
      modifies this
      ensures Valid() && Now().at == Releasing(outcome) && qs[0] == old(qs)[0] && outcome == w.LoggedIn(base)
    {
      hide IsAcquisitionRun;
      Await(LoginEnded(w.login));
      if w.login.Some? && (base.None? || w.login.value.access != base.value.access) {
        Await(Saved(w.saveLogin));
        return if w.saveLogin then w.login else None;
      }
      return w.login;
    }

    method RecoverFromRejectedRefresh(w: World, base: TokenSet) returns (recovered: Option<TokenSet>)
      requires w.Sensible() && Valid() && Now().at == Rechecking(base)
      requires base.refresh.Some? && sent == [base.refresh.value]
      modifies this
      ensures Valid() && qs[0] == old(qs)[0] && recovered == w.Recovered(base)
      ensures Now().at == if recovered.Some? then Releasing(recovered) else Fallback(Now(), base).at
    {
      hide IsAcquisitionRun;
      var (newer, valid) := w.secondRead;
      Await(Read(newer, valid));
      if valid { return newer; }
      if newer.None? || newer.value.refresh.None? || newer.value.refresh == base.refresh { return None; }
      sent := sent + [newer.value.refresh.value];
      Await(Answered(w.secondAnswer));
      if w.secondAnswer.Issued? {
        Await(Saved(w.saveRefreshed));
        if w.saveRefreshed { return Some(w.secondAnswer.token); }
      }
      return None;
    }
  }

  /** `ensure` with its single-flight slot, one method per synchronous stretch. */
  class Ensurer {
    const usesRefresh: bool
    var inFlight: Option<AcquisitionId>
    var acquisitions: map<AcquisitionId, Acquisition>
    var callers: map<CallerId, Caller>

    function View(): Runtime reads this { Runtime(usesRefresh, inFlight, acquisitions, callers) }

    constructor (usesRefresh: bool)
      ensures View() == Runtime(usesRefresh, None, map[], map[]) && SingleFlight(View())
    {
      this.usesRefresh, inFlight, acquisitions, callers := usesRefresh, None, map[], map[];
    }

    // After the first getCached: answer from the cache, join, or start an acquisition.
    method Ensure(c: CallerId, valid: bool, started: AcquisitionId)
      requires Possible(View(), Decide(c, valid, started)) && SingleFlight(View())
      modifies this
      ensures View() == Perform(old(View()), Decide(c, valid, started)) && SingleFlight(View())
    {
      PerformKeepsSingleFlight(View(), Decide(c, valid, started));
      var cached := callers[c].found;
      if valid {
        callers := callers[c := Returned(cached)];
        return;
      }
      if inFlight.Some? {
        callers := callers[c := Waiting(inFlight.value)];
        return;
      }
      acquisitions := acquisitions[started := Acquisition(Locking(cached), [])];
      inFlight := Some(started);
      callers := callers[c := Waiting(started)];
    }

    // The finally handler, then the promise answers everyone waiting on it.
    method Finally(a: AcquisitionId)
      requires Possible(View(), Settle(a)) && SingleFlight(View())
      modifies this
      ensures View() == Perform(old(View()), Settle(a)) && SingleFlight(View())
    {
      PerformKeepsSingleFlight(View(), Settle(a));
      var outcome := acquisitions[a].at.outcome;
      if inFlight == Some(a) { inFlight := None; }
      acquisitions := acquisitions - {a};
      Answer(a, outcome);
      assert callers == Perform(old(View()), Settle(a)).callers;
    }

    // Everyone waiting on the promise gets its value.
    method Answer(a: AcquisitionId, outcome: Option<TokenSet>)
      modifies this`callers
      ensures callers == map c | c in old(callers) ::
        if old(callers)[c] == Waiting(a) then Returned(outcome) else old(callers)[c]
    {
      var all, todo := callers, callers.Keys;
      while todo != {}
        modifies this`callers
        invariant todo <= all.Keys && callers.Keys == all.Keys
        invariant forall c | c in all ::
          callers[c] == if c !in todo && all[c] == Waiting(a) then Returned(outcome) else all[c]
        decreases |todo|
      {
        var c :| c in todo;
        if callers[c] == Waiting(a) { callers := callers[c := Returned(outcome)]; }
        todo := todo - {c};
      }
    }
  }
}
