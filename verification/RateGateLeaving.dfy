/** When a caller leaves the gate, with a cap or without one, from the entry on. A cap of 0 is none. */
module RateGateLeaving {
  import opened Prelude
  import opened RateGate

  // Caller w has looked at the gate at step e and has waited since, up to state i.
  ghost predicate Waits(tr: seq<State>, steps: seq<Step>, e: nat, w: WaiterId, maxWaitMs: nat, i: nat) {
    && IsRun(tr, steps) && e < |steps| && steps[e] == Enter(w, maxWaitMs) && e <= i < |tr|
    && forall j | e < j <= i :: w in tr[j].waiters
  }

  // It looks at step i: as it enters, or when it was woken.
  ghost predicate Looks(tr: seq<State>, steps: seq<Step>, e: nat, w: WaiterId, maxWaitMs: nat, i: nat) {
    Waits(tr, steps, e, w, maxWaitMs, i) && i < |steps| && (i == e || steps[i] == Check(w))
  }

  // The window has passed, or the cap counted from its entry is reached.
  predicate MayGo(s: State, entered: int, maxWaitMs: nat) {
    s.cooldownUntil <= s.now || (maxWaitMs > 0 && s.now == entered + maxWaitMs)
  }

  // How long it has to wait if nothing changes.
  function Until(s: State, entered: int, maxWaitMs: nat): int {
    if maxWaitMs > 0 && entered + maxWaitMs < s.cooldownUntil then entered + maxWaitMs else s.cooldownUntil
  }

  function DueBy(entered: int, maxWaitMs: nat): Option<int> {
    if maxWaitMs > 0 then Some(entered + maxWaitMs) else None
  }

  lemma EnteringSetsDeadline(s: State, w: WaiterId, maxWaitMs: nat)
    requires Enabled(s, Enter(w, maxWaitMs)) && w in Apply(s, Enter(w, maxWaitMs)).waiters
    ensures Apply(s, Enter(w, maxWaitMs)).waiters[w].deadline == DueBy(s.now, maxWaitMs)
  {
  }

  lemma {:induction false} DeadlineKept(tr: seq<State>, steps: seq<Step>, e: nat, w: WaiterId, maxWaitMs: nat, i: nat)
    requires Waits(tr, steps, e, w, maxWaitMs, i) && e < i
    ensures tr[i].waiters[w].deadline == DueBy(tr[e].now, maxWaitMs)
  {
    hide Apply, Enabled, DueBy;
    assert Enabled(tr[i - 1], steps[i - 1]) && tr[i] == Apply(tr[i - 1], steps[i - 1]);
    if i == e + 1 {
      EnteringSetsDeadline(tr[e], w, maxWaitMs);
    } else {
      DeadlineKept(tr, steps, e, w, maxWaitMs, i - 1);
      StayingKeepsDeadline(tr[i - 1], steps[i - 1], w);
    }
  }

  lemma CapIsKept(tr: seq<State>, steps: seq<Step>, e: nat, w: WaiterId, maxWaitMs: nat, i: nat)
    requires Waits(tr, steps, e, w, maxWaitMs, i) && maxWaitMs > 0
    ensures tr[i].now <= tr[e].now + maxWaitMs
  {
    hide IsRun;
    if i > e { WaitIsBounded(tr, steps, e, w, maxWaitMs, i); }
  }

  // What one look does, told by the waiter's deadline.
  lemma OneLook(s: State, st: Step, w: WaiterId, due: Option<int>)
    requires Enabled(s, st) && ((st.Enter? && st.w == w && due == DueBy(s.now, st.maxWaitMs))
                             || (st == Check(w) && due == s.waiters[w].deadline))
    ensures var (t, until) := (Apply(s, st), if due.Some? && due.value < s.cooldownUntil then due.value else s.cooldownUntil);
      && t.now == s.now && t.cooldownUntil == s.cooldownUntil
      && (w in t.waiters <==> until > s.now)
      && (forall v | v != w :: v in t.waiters <==> v in s.waiters)
      && (forall v | v != w && v in s.waiters :: t.waiters[v] == s.waiters[v])
      && (w !in t.waiters ==> t.timers == s.timers && t.shared == s.shared)
      && (w in t.waiters ==> SleepsUntil(s, t, w, until))
  {
  }

  // w sleeps on the published sleep if that ends by then, else on one of its own, published if none is.
  ghost predicate SleepsUntil(s: State, t: State, w: WaiterId, until: int)
    requires w in t.waiters
  {
    t.waiters[w].on.Some? &&
    var x := t.waiters[w].on.value;
    if s.shared.Some? && s.shared.value.due <= until then
      x == s.shared.value.timer && t.timers == s.timers && t.shared == s.shared
    else
      && x == s.nextTimer && t.timers == s.timers[x := until]
      && t.shared == if s.shared.None? then Some(Published(x, until)) else s.shared
  }

  /** Every look, the first one included, ends the wait exactly when the window has passed or the cap
      counted from the entry is reached; without a cap, exactly when the window has passed. Otherwise the
      caller sleeps until the window or its cap at the latest, on the shared sleep if that ends by then. */
  lemma LooksExactly(tr: seq<State>, steps: seq<Step>, e: nat, w: WaiterId, maxWaitMs: nat, i: nat)
    requires Looks(tr, steps, e, w, maxWaitMs, i)
    ensures w !in tr[i + 1].waiters <==> MayGo(tr[i], tr[e].now, maxWaitMs)
    ensures w in tr[i + 1].waiters ==> SleepsUntil(tr[i], tr[i + 1], w, Until(tr[i], tr[e].now, maxWaitMs))
  {
    hide Apply, SleepsUntil;
    assert Enabled(tr[i], steps[i]) && tr[i + 1] == Apply(tr[i], steps[i]);
    if i > e { DeadlineKept(tr, steps, e, w, maxWaitMs, i); }
    if maxWaitMs > 0 { CapIsKept(tr, steps, e, w, maxWaitMs, i); }
    OneLook(tr[i], steps[i], w, DueBy(tr[e].now, maxWaitMs));
  }

  lemma OnlyLooksLeave(s: State, st: Step, w: WaiterId)
    requires Enabled(s, st) && w in s.waiters && w !in Apply(s, st).waiters
    ensures st == Check(w) || st == Abort(w)
  {
  }

  /** Every visit that was not aborted, however short and with or without a cap, ends in a state in which
      the window has passed, or at the cap. */
  lemma VisitEndsForAReason(tr: seq<State>, steps: seq<Step>, e: nat, w: WaiterId, maxWaitMs: nat, i: nat)
    requires Visits(tr, steps, e, w, maxWaitMs, i) && steps[i - 1] != Abort(w)
    ensures MayGo(tr[i - 1], tr[e].now, maxWaitMs)
  {
    hide MayGo, Apply;
    assert Enabled(tr[i - 1], steps[i - 1]) && tr[i] == Apply(tr[i - 1], steps[i - 1]);
    if i - 1 > e { OnlyLooksLeave(tr[i - 1], steps[i - 1], w); }
    LooksExactly(tr, steps, e, w, maxWaitMs, i - 1);
  }

  /** A sleep that ends wakes exactly those who were on it, and is not published any more. */
  lemma EndedSleepWakesExactly(s: State, x: TimerId, w: WaiterId)
    requires Enabled(s, Fire(x))
    ensures var t := Apply(s, Fire(x));
      && (w in t.waiters <==> w in s.waiters)
      && (w in s.waiters ==> t.waiters[w].on == if s.waiters[w].on == Some(x) then None else s.waiters[w].on)
      && t.timers == s.timers - {x} && t.now == s.now && t.cooldownUntil == s.cooldownUntil
      && (t.shared == if s.shared.Some? && s.shared.value.timer == x then None else s.shared)
  {
  }

  // ---- Without a cap ------------------------------------------------------------------------

  lemma InvForever(tr: nat -> State, steps: nat -> Step, i: nat)
    requires RunsForever(tr, steps)
    ensures Inv(tr(i))
  {
    hide Inv, IsRun, RunsForever;
    BeginningIsRun(tr, steps, i);
    InvAlways(FirstStates(tr, i), FirstSteps(steps, i), i);
  }

  // Past the window for good, w is still on the sleep x that ends at `due`, or has been woken by then.
  ghost predicate Stuck(s: State, w: WaiterId, x: Option<TimerId>, due: int) {
    && w in s.waiters
    && (if s.waiters[w].on.None? then s.now <= due
        else s.waiters[w].on == x && x.value in s.timers && s.timers[x.value] == due)
  }

  lemma StuckStays(s: State, st: Step, w: WaiterId, x: Option<TimerId>, due: int)
    requires Inv(s) && Enabled(s, st) && Stuck(s, w, x, due)
    requires s.cooldownUntil < s.now && w in Apply(s, st).waiters
    ensures Stuck(Apply(s, st), w, x, due)
  {
  }

  lemma {:induction false} StuckUntil(tr: nat -> State, steps: nat -> Step, w: WaiterId, x: Option<TimerId>, due: int, j: nat, k: nat)
    requires RunsForever(tr, steps) && j <= k && Stuck(tr(j), w, x, due)
    requires forall i: nat | j <= i <= k :: w in tr(i).waiters && tr(i).cooldownUntil < tr(i).now
    ensures Stuck(tr(k), w, x, due) && tr(k).now <= due
  {
    hide Inv, Apply, Enabled, Stuck;
    InvForever(tr, steps, k);
    if j < k {
      StuckUntil(tr, steps, w, x, due, j, k - 1);
      InvForever(tr, steps, k - 1);
      assert Enabled(tr(k - 1), steps(k - 1)) && tr(k - 1 + 1) == Apply(tr(k - 1), steps(k - 1));
      StuckStays(tr(k - 1), steps(k - 1), w, x, due);
    }
    StuckIsInTime(tr(k), w, x, due);
  }

  lemma StuckIsInTime(s: State, w: WaiterId, x: Option<TimerId>, due: int)
    requires Inv(s) && Stuck(s, w, x, due)
    ensures s.now <= due
  {
  }

  lemma SleepsOrAwake(s: State, w: WaiterId) returns (x: Option<TimerId>, due: int)
    requires Inv(s) && w in s.waiters
    ensures Stuck(s, w, x, due)
  {
    assert WaiterInTime(s, s.waiters[w]);
    x := s.waiters[w].on;
    due := if x.None? then s.now else s.timers[x.value];
  }

  // Somewhere between j and k caller w was gone.
  lemma GoneBetween(tr: nat -> State, steps: nat -> Step, w: WaiterId, until: int, j: nat, k: nat, x: Option<TimerId>, due: int)
    returns (i: nat)
    requires RunsForever(tr, steps) && j <= k && Stuck(tr(j), w, x, due) && tr(j).now > until
    requires forall i: nat | i >= j :: tr(i).cooldownUntil <= until
    requires tr(k).now > due || w !in tr(k).waiters
    ensures j <= i && w !in tr(i).waiters
  {
    hide Inv, Apply, Enabled, Stuck, RunsForever;
    if i' :| j <= i' <= k && w !in tr(i').waiters {
      i := i';
    } else {
      forall i: nat | j <= i <= k ensures w in tr(i).waiters && tr(i).cooldownUntil < tr(i).now {
        NothingDueIsAdded(tr, steps, j, i);
      }
      StuckUntil(tr, steps, w, x, due, j, k);
      i := k;
      assert false;
    }
  }

  /** In every endless run in which from some point on the window is not set past `until`, and in which
      sleeps keep ending while it waits, every caller is let go, with a cap or without. */
  lemma EveryCallerIsLetGo(tr: nat -> State, steps: nat -> Step, e: nat, w: WaiterId, maxWaitMs: nat, n: nat, until: int)
    returns (i: nat)
    requires RunsForever(tr, steps) && TimersKeepFiring(tr, steps, e, w) && steps(e) == Enter(w, maxWaitMs)
    requires forall j: nat | j >= n :: tr(j).cooldownUntil <= until
    ensures i > e && w !in tr(i).waiters
  {
    hide Inv, Stuck, RunsForever, TimersKeepFiring;
    var j := TimeReaches(tr, steps, e, w, if n > e then n else e + 1, until);
    i := j;
    if w in tr(j).waiters {
      InvForever(tr, steps, j);
      var x, due := SleepsOrAwake(tr(j), w);
      var k := TimeReaches(tr, steps, e, w, j, due);
      i := GoneBetween(tr, steps, w, until, j, k, x, due);
    }
  }
}
