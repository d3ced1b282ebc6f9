/** The wait gate of one rate-limit bucket: any number of concurrent callers wait out a cooldown that
    others keep moving, on one shared timer or on private ones. Each step is one synchronous stretch;
    timers wake on time, so the clock never passes a due timer or a caller about to resume. */
module RateGate {
  import opened Prelude

  type WaiterId = nat
  type TimerId = nat

  datatype Published = Published(timer: TimerId, due: int)

  // A caller of the gate: when it must be let go at the latest, the timer it awaits (none once woken),
  // and how often it has gone to sleep.
  datatype Waiter = Waiter(deadline: Option<int>, on: Option<TimerId>, sleeps: nat)

  datatype State = State(
    now: nat,
    cooldownUntil: int,
    timers: map<TimerId, int>,          // the sleeps that have not ended, and when they are due
    nextTimer: TimerId,
    shared: Option<Published>,
    waiters: map<WaiterId, Waiter>)

  datatype Step =
    | SetCooldown(until: int)             // any caller overwrites the window
    | Enter(w: WaiterId, maxWaitMs: nat)
    | Check(w: WaiterId)                  // a woken caller looks again
    | Fire(timer: TimerId)                // a sleep ends, and with it everyone awaiting it
    | Abort(w: WaiterId)                  // the caller's own signal
    | Tick

  function Initial(): State { State(0, 0, map[], 0, None, map[]) }

  function Deadline(now: nat, maxWaitMs: nat): Option<int> { if maxWaitMs > 0 then Some(now + maxWaitMs) else None }

  function Remaining(s: State, deadline: Option<int>): int {
    (if deadline.Some? then Min(s.cooldownUntil, deadline.value) else s.cooldownUntil) - s.now
  }

  // The shared timer is joined unless it would make this caller wait too long.
  predicate Joins(s: State, remaining: int) { s.shared.Some? && s.shared.value.due - s.now <= remaining }

  // One pass of the loop, up to the await or the return.
  function Pass(s: State, w: WaiterId, me: Waiter): State {
    var remaining := Remaining(s, me.deadline);
    if remaining <= 0 then s.(waiters := s.waiters - {w})
    else if Joins(s, remaining) then
      s.(waiters := s.waiters[w := me.(on := Some(s.shared.value.timer), sleeps := me.sleeps + 1)])
    else
      var created := s.nextTimer;
      s.(timers := s.timers[created := s.now + remaining], nextTimer := created + 1,
         shared := if s.shared.None? then Some(Published(created, s.now + remaining)) else s.shared,
         waiters := s.waiters[w := me.(on := Some(created), sleeps := me.sleeps + 1)])
  }

  predicate Enabled(s: State, st: Step) {
    match st
    case SetCooldown(_) => true
    case Enter(w, _) => w !in s.waiters
    case Check(w) => w in s.waiters && s.waiters[w].on.None?
    case Fire(t) => t in s.timers && s.timers[t] <= s.now
    case Abort(w) => w in s.waiters && s.waiters[w].on.Some?
    case Tick => (forall t | t in s.timers :: s.timers[t] > s.now) && (forall w | w in s.waiters :: s.waiters[w].on.Some?)
  }

  function Apply(s: State, st: Step): State
    requires Enabled(s, st)
  {
    match st
    case SetCooldown(until) => s.(cooldownUntil := until)
    case Enter(w, maxWaitMs) => Pass(s, w, Waiter(Deadline(s.now, maxWaitMs), None, 0))
    case Check(w) => Pass(s, w, s.waiters[w])
    case Fire(t) =>
      s.(timers := s.timers - {t},
         shared := if s.shared.Some? && s.shared.value.timer == t then None else s.shared,
         waiters := map w | w in s.waiters :: if s.waiters[w].on == Some(t) then s.waiters[w].(on := None) else s.waiters[w])
    case Abort(w) => s.(waiters := s.waiters - {w})
    case Tick => s.(now := s.now + 1)
  }

  ghost predicate IsRun(tr: seq<State>, steps: seq<Step>) {
    && |tr| == |steps| + 1 && tr[0] == Initial()
    && forall i | 0 <= i < |steps| :: Enabled(tr[i], steps[i]) && tr[i + 1] == Apply(tr[i], steps[i])
  }

  // ---- The invariant --------------------------------------------------------------------

  ghost predicate TimersOnTime(s: State) {
    && (forall t | t in s.timers :: t < s.nextTimer && s.timers[t] >= s.now)
    && (s.shared.Some? ==> s.shared.value.timer in s.timers && s.timers[s.shared.value.timer] == s.shared.value.due)
  }

  // Whoever sleeps does so on a live timer that wakes it by its own deadline.
  predicate WaiterInTime(s: State, me: Waiter) {
    && (me.on.Some? ==> me.on.value in s.timers)
    && (me.deadline.Some? ==>
          && s.now <= me.deadline.value
          && (me.on.Some? ==> s.timers[me.on.value] <= me.deadline.value))
  }

  ghost predicate Inv(s: State) {
    TimersOnTime(s) && forall w | w in s.waiters :: WaiterInTime(s, s.waiters[w])
  }

  lemma PassKeepsInv(s: State, w: WaiterId, me: Waiter)
    requires Inv(s) && me.on.None? && (me.deadline.Some? ==> s.now <= me.deadline.value)
    ensures Inv(Pass(s, w, me))
  {
    var t := Pass(s, w, me);
    forall v | v in t.waiters && v != w ensures WaiterInTime(t, t.waiters[v]) {
      assert WaiterInTime(s, s.waiters[v]);
    }
  }

  lemma StepKeepsInv(s: State, st: Step)
    requires Inv(s) && Enabled(s, st)
    ensures Inv(Apply(s, st))
  {
    var t := Apply(s, st);
    match st {
      case Enter(w, maxWaitMs) => PassKeepsInv(s, w, Waiter(Deadline(s.now, maxWaitMs), None, 0));
      case Check(w) => PassKeepsInv(s, w, s.waiters[w]);
      case _ =>
        forall v | v in t.waiters ensures WaiterInTime(t, t.waiters[v]) {
          assert WaiterInTime(s, s.waiters[v]);
        }
    }
  }

  lemma {:induction false} InvAlways(tr: seq<State>, steps: seq<Step>, i: nat)
    requires IsRun(tr, steps) && i < |tr|
    ensures Inv(tr[i])
  {
    if i > 0 {
      InvAlways(tr, steps, i - 1);
      assert Enabled(tr[i - 1], steps[i - 1]);
      StepKeepsInv(tr[i - 1], steps[i - 1]);
    }
  }

  /** The gate lets a caller go only when the window then in force has passed or its own cap is
      reached, and never after its cap. */
  lemma LetGoExactly(s: State, w: WaiterId)
    requires Inv(s) && Enabled(s, Check(w))
    ensures w !in Apply(s, Check(w)).waiters <==>
      s.cooldownUntil <= s.now || (s.waiters[w].deadline.Some? && s.waiters[w].deadline.value == s.now)
    ensures s.waiters[w].deadline.Some? ==> s.now <= s.waiters[w].deadline.value
  {
    assert WaiterInTime(s, s.waiters[w]);
  }

  // ---- Bounded waiting ------------------------------------------------------------------

  // How often a caller with a deadline may still go to sleep. Twice in one millisecond is possible,
  // when the shared timer is due but its callback has not run.
  function DueNow(s: State): int { if s.shared.Some? && s.shared.value.due == s.now then 1 else 0 }

  function Budget(s: State, me: Waiter): int
    requires me.deadline.Some? && (me.on.Some? ==> me.on.value in s.timers)
  {
    if me.on.None? then 2 * (me.deadline.value - s.now) + DueNow(s)
    else
      var due := s.timers[me.on.value];
      if due > s.now then 2 * (me.deadline.value - due) + 1
      else if s.shared.Some? && s.shared.value.timer == me.on.value then 2 * (me.deadline.value - s.now)
      else 2 * (me.deadline.value - s.now) + DueNow(s)
  }

  predicate WithinBudget(s: State, me: Waiter, limit: int)
    requires me.on.Some? ==> me.on.value in s.timers
  {
    me.deadline.Some? ==> me.sleeps + Budget(s, me) <= limit
  }

  lemma SleepingSpendsBudget(s: State, w: WaiterId, me: Waiter, limit: int)
    requires Inv(s) && me.on.None? && (me.deadline.Some? ==> s.now <= me.deadline.value)
    requires WithinBudget(s, me, limit)
    ensures w in Pass(s, w, me).waiters ==> WithinBudget(Pass(s, w, me), Pass(s, w, me).waiters[w], limit)
  {
  }

  lemma OthersSpendNothing(s: State, w: WaiterId, me: Waiter, v: WaiterId, limit: int)
    requires Inv(s) && me.on.None?
    requires v in s.waiters && v != w && WithinBudget(s, s.waiters[v], limit)
    ensures v in Pass(s, w, me).waiters && Pass(s, w, me).waiters[v] == s.waiters[v]
    ensures s.waiters[v].on.Some? ==> s.waiters[v].on.value in Pass(s, w, me).timers
    ensures WithinBudget(Pass(s, w, me), s.waiters[v], limit)
  {
    assert WaiterInTime(s, s.waiters[v]);
  }

  lemma StepKeepsBudget(s: State, st: Step, v: WaiterId, limit: int)
    requires Inv(s) && Enabled(s, st) && Inv(Apply(s, st))
    requires v in s.waiters && v in Apply(s, st).waiters
    requires WithinBudget(s, s.waiters[v], limit)
    ensures WithinBudget(Apply(s, st), Apply(s, st).waiters[v], limit)
  {
    assert WaiterInTime(s, s.waiters[v]);
    match st {
      case Enter(w, maxWaitMs) => OthersSpendNothing(s, w, Waiter(Deadline(s.now, maxWaitMs), None, 0), v, limit);
      case Check(w) =>
        if v == w { SleepingSpendsBudget(s, w, s.waiters[w], limit); } else { OthersSpendNothing(s, w, s.waiters[w], v, limit); }
      case _ =>
    }
  }

  // Caller w enters at step e with a cap and has not been let go by state i.
  ghost predicate Stays(tr: seq<State>, steps: seq<Step>, e: nat, w: WaiterId, maxWaitMs: nat, i: nat) {
    && IsRun(tr, steps) && e < i < |tr| && steps[e] == Enter(w, maxWaitMs) && maxWaitMs > 0
    && forall j | e < j <= i :: w in tr[j].waiters
  }

  lemma Entering(s: State, w: WaiterId, maxWaitMs: nat)
    requires Inv(s) && Enabled(s, Enter(w, maxWaitMs)) && maxWaitMs > 0
    requires w in Apply(s, Enter(w, maxWaitMs)).waiters
    ensures var t := Apply(s, Enter(w, maxWaitMs));
      && Inv(t) && t.waiters[w].deadline == Some(s.now + maxWaitMs)
      && WaiterInTime(t, t.waiters[w]) && WithinBudget(t, t.waiters[w], 2 * maxWaitMs + 1)
  {
    StepKeepsInv(s, Enter(w, maxWaitMs));
    SleepingSpendsBudget(s, w, Waiter(Deadline(s.now, maxWaitMs), None, 0), 2 * maxWaitMs + 1);
  }

  lemma StayingKeepsDeadline(s: State, st: Step, w: WaiterId)
    requires Enabled(s, st) && w in s.waiters && w in Apply(s, st).waiters
    ensures Apply(s, st).waiters[w].deadline == s.waiters[w].deadline
  {
  }

  ghost predicate Accounted(s: State, w: WaiterId, deadline: int, limit: int) {
    && Inv(s) && w in s.waiters && WaiterInTime(s, s.waiters[w])
    && s.waiters[w].deadline == Some(deadline) && WithinBudget(s, s.waiters[w], limit)
  }

  lemma StayingKeepsAccount(s: State, st: Step, w: WaiterId, deadline: int, limit: int)
    requires Enabled(s, st) && Accounted(s, w, deadline, limit) && w in Apply(s, st).waiters
    ensures Accounted(Apply(s, st), w, deadline, limit)
  {
    StepKeepsInv(s, st);
    StayingKeepsDeadline(s, st, w);
    StepKeepsBudget(s, st, w, limit);
  }

  lemma {:induction false} BudgetHolds(tr: seq<State>, steps: seq<Step>, e: nat, w: WaiterId, maxWaitMs: nat, i: nat)
    requires Stays(tr, steps, e, w, maxWaitMs, i)
    ensures Accounted(tr[i], w, tr[e].now + maxWaitMs, 2 * maxWaitMs + 1)
  {
    assert Enabled(tr[i - 1], steps[i - 1]) && tr[i] == Apply(tr[i - 1], steps[i - 1]);
    if i == e + 1 {
      InvAlways(tr, steps, e);
      Entering(tr[e], w, maxWaitMs);
    } else {
      BudgetHolds(tr, steps, e, w, maxWaitMs, i - 1);
      StayingKeepsAccount(tr[i - 1], steps[i - 1], w, tr[e].now + maxWaitMs, 2 * maxWaitMs + 1);
    }
  }

  /** Whatever others do to the window and to the timers, a caller with a cap is never kept beyond it
      and goes to sleep a bounded number of times. */
  lemma WaitIsBounded(tr: seq<State>, steps: seq<Step>, e: nat, w: WaiterId, maxWaitMs: nat, i: nat)
    requires Stays(tr, steps, e, w, maxWaitMs, i)
    ensures tr[i].now <= tr[e].now + maxWaitMs
    ensures tr[i].waiters[w].sleeps <= 2 * maxWaitMs + 1
  {
    BudgetHolds(tr, steps, e, w, maxWaitMs, i);
  }

  // A whole visit to the gate: caller w enters at step e and has left in state i, not before.
  ghost predicate Visits(tr: seq<State>, steps: seq<Step>, e: nat, w: WaiterId, maxWaitMs: nat, i: nat) {
    && IsRun(tr, steps) && e < i < |tr| && steps[e] == Enter(w, maxWaitMs)
    && (forall j | e < j < i :: w in tr[j].waiters) && w !in tr[i].waiters
  }

  lemma VisitIsBounded(tr: seq<State>, steps: seq<Step>, e: nat, w: WaiterId, maxWaitMs: nat, i: nat)
    requires Visits(tr, steps, e, w, maxWaitMs, i) && maxWaitMs > 0
    ensures tr[e].now <= tr[i].now <= tr[e].now + maxWaitMs
  {
    assert Enabled(tr[i - 1], steps[i - 1]) && tr[i] == Apply(tr[i - 1], steps[i - 1]);
    ClockNeverGoesBack(tr, steps, e, i);
    if i > e + 1 { WaitIsBounded(tr, steps, e, w, maxWaitMs, i - 1); }
  }

  lemma {:induction false} ClockNeverGoesBack(tr: seq<State>, steps: seq<Step>, e: nat, i: nat)
    requires IsRun(tr, steps) && e <= i < |tr|
    ensures tr[e].now <= tr[i].now
  {
    if i > e {
      ClockNeverGoesBack(tr, steps, e, i - 1);
      assert Enabled(tr[i - 1], steps[i - 1]) && tr[i] == Apply(tr[i - 1], steps[i - 1]);
    }
  }

  /** A caller that leaves without having aborted leaves when the window then in force has passed, or
      exactly at its cap. */
  lemma LeavesForAReason(tr: seq<State>, steps: seq<Step>, e: nat, w: WaiterId, maxWaitMs: nat, i: nat)
    requires Stays(tr, steps, e, w, maxWaitMs, i) && i < |steps|
    requires w !in tr[i + 1].waiters && steps[i] != Abort(w)
    ensures tr[i].cooldownUntil <= tr[i].now || tr[i].now == tr[e].now + maxWaitMs
  {
    BudgetHolds(tr, steps, e, w, maxWaitMs, i);
    assert Enabled(tr[i], steps[i]) && tr[i + 1] == Apply(tr[i], steps[i]);
    if steps[i].Check? && steps[i].w == w { LetGoExactly(tr[i], w); }
  }

  /** Nobody hangs: while someone waits, a timer fires, a woken caller looks again, or time passes, and
      time cannot pass a cap. */
  lemma SomethingAlwaysHappens(s: State)
    requires Inv(s)
    ensures (exists t :: Enabled(s, Fire(t))) || (exists w :: Enabled(s, Check(w))) || Enabled(s, Tick)
    ensures Enabled(s, Tick) ==> forall w | w in s.waiters && s.waiters[w].deadline.Some? :: s.now < s.waiters[w].deadline.value
  {
    if !Enabled(s, Tick) {
      if t :| t in s.timers && s.timers[t] <= s.now {
        assert Enabled(s, Fire(t));
      } else {
        var w :| w in s.waiters && s.waiters[w].on.None?;
        assert Enabled(s, Check(w));
      }
    } else {
      forall w | w in s.waiters && s.waiters[w].deadline.Some? ensures s.now < s.waiters[w].deadline.value {
        assert WaiterInTime(s, s.waiters[w]);
      }
    }
  }

  // ---- Every capped caller is let go ------------------------------------------------------

  // A run without end.
  ghost predicate RunsForever(tr: nat -> State, steps: nat -> Step) {
    tr(0) == Initial() && forall i: nat :: Enabled(tr(i), steps(i)) && tr(i + 1) == Apply(tr(i), steps(i))
  }

  // As long as w waits, sleeps keep ending.
  ghost predicate TimersKeepFiring(tr: nat -> State, steps: nat -> Step, e: nat, w: WaiterId) {
    forall i: nat | i > e && w in tr(i).waiters :: exists j: nat :: j >= i && steps(j).Fire?
  }

  function FirstStates(tr: nat -> State, n: nat): seq<State> { seq(n + 1, (i: nat) => tr(i)) }

  function FirstSteps(steps: nat -> Step, n: nat): seq<Step> { seq(n, (i: nat) => steps(i)) }

  lemma BeginningIsRun(tr: nat -> State, steps: nat -> Step, n: nat)
    requires RunsForever(tr, steps)
    ensures IsRun(FirstStates(tr, n), FirstSteps(steps, n))
  {
    hide Enabled, Apply, Initial;
    forall i | 0 <= i < n
      ensures Enabled(FirstStates(tr, n)[i], FirstSteps(steps, n)[i])
      ensures FirstStates(tr, n)[i + 1] == Apply(FirstStates(tr, n)[i], FirstSteps(steps, n)[i])
    {
      assert Enabled(tr(i), steps(i));
    }
  }

  // The sleeps that should have ended by now.
  function Due(s: State): set<TimerId> { set t | t in s.timers && s.timers[t] <= s.now }

  lemma StepsAddNothingDue(s: State, st: Step)
    requires Enabled(s, st)
    ensures s.now <= Apply(s, st).now
    ensures Apply(s, st).now == s.now ==> Due(Apply(s, st)) <= Due(s)
    ensures Apply(s, st).now == s.now && st.Fire? ==> st.timer in Due(s) && Due(Apply(s, st)) <= Due(s) - {st.timer}
  {
  }

  lemma {:induction false} NothingDueIsAdded(tr: nat -> State, steps: nat -> Step, i: nat, j: nat)
    requires RunsForever(tr, steps) && i <= j
    ensures tr(i).now <= tr(j).now
    ensures tr(i).now == tr(j).now ==> Due(tr(j)) <= Due(tr(i))
    decreases j - i
  {
    hide Enabled, Apply, Initial, Due;
    if i < j {
      NothingDueIsAdded(tr, steps, i, j - 1);
      assert Enabled(tr(j - 1), steps(j - 1)) && tr(j - 1 + 1) == Apply(tr(j - 1), steps(j - 1));
      StepsAddNothingDue(tr(j - 1), steps(j - 1));
    }
  }

  // Only so many sleeps can end before time passes.
  lemma {:induction false} TimePasses(tr: nat -> State, steps: nat -> Step, e: nat, w: WaiterId, i: nat) returns (j: nat)
    requires RunsForever(tr, steps) && TimersKeepFiring(tr, steps, e, w) && i > e
    ensures j >= i && (tr(j).now > tr(i).now || w !in tr(j).waiters)
    decreases |Due(tr(i))|
  {
    hide Enabled, Apply, Initial, Due;
    j := i;
    if w in tr(i).waiters {
      j :| j >= i && steps(j).Fire?;
      NothingDueIsAdded(tr, steps, i, j);
      assert Enabled(tr(j), steps(j)) && tr(j + 1) == Apply(tr(j), steps(j));
      StepsAddNothingDue(tr(j), steps(j));
      if tr(j + 1).now == tr(i).now {
        Shrinks(Due(tr(i)), Due(tr(j + 1)), steps(j).timer);
        j := TimePasses(tr, steps, e, w, j + 1);
      } else {
        j := j + 1;
      }
    }
  }

  lemma Shrinks(a: set<TimerId>, b: set<TimerId>, t: TimerId)
    requires t in a && b <= a - {t}
    ensures |b| < |a|
  {
    Smaller(b, a - {t});
  }

  lemma {:induction false} Smaller(b: set<TimerId>, a: set<TimerId>)
    requires b <= a
    ensures |b| <= |a|
  {
    if x :| x in b { Smaller(b - {x}, a - {x}); }
  }

  // Time passes any cap while w waits, unless w leaves before.
  lemma {:induction false} TimeReaches(tr: nat -> State, steps: nat -> Step, e: nat, w: WaiterId, i: nat, until: int)
    returns (j: nat)
    requires RunsForever(tr, steps) && TimersKeepFiring(tr, steps, e, w) && i > e
    ensures j >= i && (tr(j).now > until || w !in tr(j).waiters)
    decreases until - tr(i).now
  {
    hide *;
    j := TimePasses(tr, steps, e, w, i);
    if tr(j).now <= until && w in tr(j).waiters { j := TimeReaches(tr, steps, e, w, j, until); }
  }

  /** In every endless run in which sleeps keep ending while it waits, a caller with a cap is let go, and
      by its cap. */
  lemma EveryCappedCallerIsLetGo(tr: nat -> State, steps: nat -> Step, e: nat, w: WaiterId, maxWaitMs: nat)
    returns (i: nat)
    requires RunsForever(tr, steps) && TimersKeepFiring(tr, steps, e, w)
    requires steps(e) == Enter(w, maxWaitMs) && maxWaitMs > 0
    ensures i > e && w !in tr(i).waiters && tr(i).now <= tr(e).now + maxWaitMs
  {
    hide *;
    var n := TimeReaches(tr, steps, e, w, e + 1, tr(e).now + maxWaitMs);
    i := LeavesBefore(tr, steps, e, w, maxWaitMs, n);
    VisitOfRun(tr, steps, e, w, maxWaitMs, i);
  }

  lemma VisitOfRun(tr: nat -> State, steps: nat -> Step, e: nat, w: WaiterId, maxWaitMs: nat, i: nat)
    requires RunsForever(tr, steps) && steps(e) == Enter(w, maxWaitMs) && maxWaitMs > 0
    requires i > e && w !in tr(i).waiters && forall j: nat | e < j < i :: w in tr(j).waiters
    ensures tr(i).now <= tr(e).now + maxWaitMs
  {
    hide IsRun, RunsForever;
    BeginningIsRun(tr, steps, i);
    VisitIsBounded(FirstStates(tr, i), FirstSteps(steps, i), e, w, maxWaitMs, i);
  }

  // Where caller w has left for the first time, given a state it cannot still wait in.
  lemma {:induction false} LeavesBefore(tr: nat -> State, steps: nat -> Step, e: nat, w: WaiterId, maxWaitMs: nat, n: nat)
    returns (i: nat)
    requires RunsForever(tr, steps) && steps(e) == Enter(w, maxWaitMs) && maxWaitMs > 0
    requires n > e && (tr(n).now > tr(e).now + maxWaitMs || w !in tr(n).waiters)
    ensures i > e && w !in tr(i).waiters && forall j: nat | e < j < i :: w in tr(j).waiters
  {
    hide *;
    i := e + 1;
    while i < n && w in tr(i).waiters
      invariant e < i <= n && forall j: nat | e < j < i :: w in tr(j).waiters
    {
      i := i + 1;
    }
    if w in tr(i).waiters { TooLate(tr, steps, e, w, maxWaitMs, i); }
  }

  lemma TooLate(tr: nat -> State, steps: nat -> Step, e: nat, w: WaiterId, maxWaitMs: nat, n: nat)
    requires RunsForever(tr, steps) && steps(e) == Enter(w, maxWaitMs) && maxWaitMs > 0
    requires n > e && forall j: nat | e < j <= n :: w in tr(j).waiters
    ensures tr(n).now <= tr(e).now + maxWaitMs
  {
    hide IsRun, RunsForever;
    BeginningIsRun(tr, steps, n);
    WaitIsBounded(FirstStates(tr, n), FirstSteps(steps, n), e, w, maxWaitMs, n);
  }

  // ---- The bucket -----------------------------------------------------------------------

  /** The mutable bucket state, one method per synchronous stretch of the gate. */
  class Bucket {
    var now: nat
    var cooldownUntilMs: int
    var shared: Option<Published>
    var timers: map<TimerId, int>
    var nextTimer: TimerId
    var waiters: map<WaiterId, Waiter>

    function View(): State reads this { State(now, cooldownUntilMs, timers, nextTimer, shared, waiters) }

    constructor ()
      ensures View() == Initial() && Inv(View())
    {
      now, cooldownUntilMs, shared, timers, nextTimer, waiters := 0, 0, None, map[], 0, map[];
    }

    method WaitGate(w: WaiterId, maxWaitMs: nat)
      requires Inv(View()) && Enabled(View(), Enter(w, maxWaitMs))
      modifies this
      ensures View() == Apply(old(View()), Enter(w, maxWaitMs)) && Inv(View())
    {
      StepKeepsInv(View(), Enter(w, maxWaitMs));
      LookAgain(w, Waiter(Deadline(now, maxWaitMs), None, 0));
    }

    method Resume(w: WaiterId)
      requires Inv(View()) && Enabled(View(), Check(w))
      modifies this
      ensures View() == Apply(old(View()), Check(w)) && Inv(View())
    {
      StepKeepsInv(View(), Check(w));
      LookAgain(w, waiters[w]);
    }

    method LookAgain(w: WaiterId, me: Waiter)
      modifies this
      ensures View() == Pass(old(View()), w, me)
    {
      var target := if me.deadline.Some? then Min(cooldownUntilMs, me.deadline.value) else cooldownUntilMs;
      var remainingMs := target - now;
      if remainingMs <= 0 {
        waiters := waiters - {w};
        return;
      }
      var pending: Option<TimerId> := if shared.Some? then Some(shared.value.timer) else None;
      if shared.Some? && shared.value.due - now > remainingMs { pending := None; }
      if pending.None? {
        timers := timers[nextTimer := now + remainingMs];
        if shared.None? { shared := Some(Published(nextTimer, now + remainingMs)); }
        pending := Some(nextTimer);
        nextTimer := nextTimer + 1;
      }
      waiters := waiters[w := me.(on := pending, sleeps := me.sleeps + 1)];
    }

    // The sleep's finally handler, then everyone awaiting it.
    method TimerFired(t: TimerId)
      requires Inv(View()) && Enabled(View(), Fire(t))
      modifies this
      ensures View() == Apply(old(View()), Fire(t)) && Inv(View())
    {
      StepKeepsInv(View(), Fire(t));
      timers := timers - {t};
      if shared.Some? && shared.value.timer == t { shared := None; }
      Wake(t);
    }

    method Wake(t: TimerId)
      modifies this`waiters
      ensures waiters == map w | w in old(waiters) ::
        if old(waiters)[w].on == Some(t) then old(waiters)[w].(on := None) else old(waiters)[w]
    {
      var all, todo := waiters, waiters.Keys;
      while todo != {}
        modifies this`waiters
        invariant todo <= all.Keys && waiters.Keys == all.Keys
        invariant forall w | w in all ::
          waiters[w] == if w !in todo && all[w].on == Some(t) then all[w].(on := None) else all[w]
        decreases |todo|
      {
        var w :| w in todo;
        if waiters[w].on == Some(t) { waiters := waiters[w := waiters[w].(on := None)]; }
        todo := todo - {w};
      }
    }
  }
}
