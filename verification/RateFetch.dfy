/** The rate-limit-aware fetch: wait out the bucket's cooldown, call, and on a 429 back off and call
    again. The underlying calls and the pauses are oracles; every pause is a visit to the gate in some run
    of module RateGate, and while this caller is suspended others may rewrite the bucket. */
module RateFetch {
  import opened Prelude
  import opened RateTiers
  import G = RateGate

  const DEFAULT_BACKOFF_MS := 1000

  datatype Snapshot = Snapshot(remaining: Option<int>, resetSeconds: Option<int>, resetAtMs: Option<int>, retryAfterMs: Option<nat>)

  datatype Bucket = Bucket(cooldownUntilMs: int, cooldownMaxWaitMs: nat)

  const CLEARED := Bucket(0, 0)

  // `at` is the clock when the answer is handled, `bucket` what the bucket holds by then.
  datatype Reply = Reply(tooMany: bool, snapshot: Snapshot, at: nat, bucket: Bucket)
  datatype Exchange = Answered(reply: Reply) | Threw

  // One stay in the gate: how long it took, whether it was aborted, and the bucket afterwards.
  datatype Pause = Pause(ms: nat, aborted: bool, bucket: Bucket)

  datatype Result = Returned(reply: Reply) | Failed | Aborted

  function EffectiveResetSeconds(s: Snapshot): Option<int> {
    if s.resetSeconds.Some? then s.resetSeconds
    else if s.retryAfterMs.Some? then Some((s.retryAfterMs.value + 999) / 1000)
    else None
  }

  function ComputeBackoff(s: Snapshot, now: int): nat {
    if s.resetAtMs.Some? then Max(0, s.resetAtMs.value - now)
    else if s.retryAfterMs.Some? then s.retryAfterMs.value
    else DEFAULT_BACKOFF_MS
  }

  function ClampWait(ms: int, maxWaitMs: nat): nat {
    if maxWaitMs > 0 then Min(Max(0, ms), maxWaitMs) else Max(0, ms)
  }

  function TierFor(tiers: seq<Tier>, s: Snapshot): Tier
    requires tiers != []
  {
    SelectTier(tiers, EffectiveResetSeconds(s))
  }

  predicate Exhausted(s: Snapshot) { s.remaining.Some? && s.remaining.value <= 0 && s.resetAtMs.Some? }

  // What an answer other than 429 does to the bucket.
  function AfterSuccess(tiers: seq<Tier>, r: Reply): Bucket
    requires tiers != []
  {
    if !Exhausted(r.snapshot) then r.bucket
    else if TierFor(tiers, r.snapshot).action == Wait
    then Bucket(r.snapshot.resetAtMs.value, TierFor(tiers, r.snapshot).maxWaitMs)
    else CLEARED
  }

  // What a 429 under a waiting tier arms before the retry.
  function AfterBackoff(tiers: seq<Tier>, r: Reply): Bucket
    requires tiers != []
  {
    var cap := TierFor(tiers, r.snapshot).maxWaitMs;
    Bucket(r.at + ClampWait(ComputeBackoff(r.snapshot, r.at), cap), cap)
  }

  // What an answer that is handed on leaves in the bucket.
  function AfterLast(tiers: seq<Tier>, r: Reply): Bucket
    requires tiers != []
  {
    if !r.tooMany then AfterSuccess(tiers, r)
    else if TierFor(tiers, r.snapshot).action == Fail then CLEARED
    else r.bucket
  }

  // The answer to call number `attempt` (from 0) leads to another call.
  predicate Retries(tiers: seq<Tier>, r: Reply, attempt: nat)
    requires tiers != []
  {
    r.tooMany && TierFor(tiers, r.snapshot).action == Wait && attempt < TierFor(tiers, r.snapshot).maxRetries
  }

  function MaxRetries(tiers: seq<Tier>): nat {
    if tiers == [] then 0
    else Max(if tiers[0].action == Wait then tiers[0].maxRetries else 0, MaxRetries(tiers[1..]))
  }

  predicate Capped(tiers: seq<Tier>, limit: nat) {
    forall t | t in tiers && t.action == Wait :: 0 < t.maxWaitMs <= limit
  }

  // Every bucket is either clear or armed by one of the waiting tiers.
  predicate ArmedBy(tiers: seq<Tier>, b: Bucket) {
    b == CLEARED || exists t :: t in tiers && t.action == Wait && b.cooldownMaxWaitMs == t.maxWaitMs
  }

  ghost predicate GateKeepsCap(pauses: (nat, nat) -> Pause) {
    forall k, cap | cap > 0 :: pauses(k, cap).ms <= cap
  }

  // The pause is a whole visit to the gate in some run of it.
  ghost predicate IsVisit(cap: nat, pause: Pause) {
    exists tr: seq<G.State>, steps: seq<G.Step>, e: nat, w: G.WaiterId, i: nat ::
      && G.Visits(tr, steps, e, w, cap, i)
      && pause.ms == tr[i].now - tr[e].now && (pause.aborted <==> steps[i - 1] == G.Abort(w))
  }

  // Every pause is one that the gate really makes.
  ghost predicate FromGate(pauses: (nat, nat) -> Pause) {
    forall k, cap :: IsVisit(cap, pauses(k, cap))
  }

  lemma GateBoundsPauses(pauses: (nat, nat) -> Pause)
    requires FromGate(pauses)
    ensures GateKeepsCap(pauses)
  {
    hide G.Visits;
    forall k, cap | cap > 0 ensures pauses(k, cap).ms <= cap {
      assert IsVisit(cap, pauses(k, cap));
      VisitKeepsCap(cap, pauses(k, cap));
    }
  }

  lemma VisitKeepsCap(cap: nat, pause: Pause)
    requires IsVisit(cap, pause) && cap > 0
    ensures pause.ms <= cap
  {
    var tr: seq<G.State>, steps, e: nat, w, i: nat :|
      G.Visits(tr, steps, e, w, cap, i) && pause.ms == tr[i].now - tr[e].now;
    G.VisitIsBounded(tr, steps, e, w, cap, i);
  }

  lemma {:induction false} MaxRetriesBounds(tiers: seq<Tier>, t: Tier)
    requires t in tiers && t.action == Wait
    ensures t.maxRetries <= MaxRetries(tiers)
  {
    if t != tiers[0] { MaxRetriesBounds(tiers[1..], t); }
  }

  lemma SelectedIsConfigured(tiers: seq<Tier>, reset: Option<int>)
    requires tiers != []
    ensures SelectTier(tiers, reset) in tiers
  {
    FoundIsInside(tiers, Magnitude(reset));
  }

  /** What the fetch leaves in the bucket is again clear or armed by a waiting tier. */
  lemma BucketsStayArmedByTiers(tiers: seq<Tier>, r: Reply)
    requires tiers != [] && ArmedBy(tiers, r.bucket)
    ensures ArmedBy(tiers, AfterSuccess(tiers, r))
    ensures TierFor(tiers, r.snapshot).action == Wait ==> ArmedBy(tiers, AfterBackoff(tiers, r))
  {
    SelectedIsConfigured(tiers, EffectiveResetSeconds(r.snapshot));
  }

  /** A delay given only in Retry-After lands in the tier of the whole seconds it takes up. */
  lemma RetryAfterRoundsUp(s: Snapshot)
    requires s.resetSeconds.None? && s.retryAfterMs.Some?
    ensures var secs := EffectiveResetSeconds(s);
      secs.Some? && (secs.value - 1) * 1000 < s.retryAfterMs.value <= secs.value * 1000
  {
  }

  lemma CallBudget(tiers: seq<Tier>, r: Reply, attempt: nat)
    requires tiers != [] && Retries(tiers, r, attempt)
    ensures attempt < MaxRetries(tiers)
    ensures forall limit | Capped(tiers, limit) :: 0 < TierFor(tiers, r.snapshot).maxWaitMs <= limit
  {
    SelectedIsConfigured(tiers, EffectiveResetSeconds(r.snapshot));
    MaxRetriesBounds(tiers, TierFor(tiers, r.snapshot));
  }

  // The first tier whose bound is not under the seconds, or else the last.
  predicate IsFirstFit(tiers: seq<Tier>, secs: int, i: int) {
    && 0 <= i < |tiers|
    && (forall j | 0 <= j < i :: tiers[j].bound.Some? && tiers[j].bound.value < secs)
    && (i == |tiers| - 1 || tiers[i].bound.None? || secs <= tiers[i].bound.value)
  }

  // The seconds an answer gives: its reset, else the whole seconds its Retry-After takes up, else none.
  predicate GivesSeconds(s: Snapshot, secs: int) {
    match s.resetSeconds
    case Some(r) => secs == r
    case None =>
      match s.retryAfterMs
      case Some(ms) => (secs - 1) * 1000 < ms <= secs * 1000
      case None => secs == 0
  }

  lemma {:induction false} FirstFitOf(tiers: seq<Tier>, secs: int) returns (i: int)
    requires tiers != []
    ensures IsFirstFit(tiers, secs, i)
    ensures tiers[i] == (if FirstCovering(tiers, secs).Some? then FirstCovering(tiers, secs).value else tiers[|tiers| - 1])
  {
    i := 0;
    if !Covers(tiers[0], secs) && |tiers| > 1 {
      i := FirstFitOf(tiers[1..], secs);
      i := i + 1;
      assert forall j | 0 < j < |tiers| :: tiers[j] == tiers[1..][j - 1];
    }
  }

  lemma TierIsFirstFit(tiers: seq<Tier>, s: Snapshot) returns (secs: int, i: int)
    requires tiers != []
    ensures GivesSeconds(s, secs) && IsFirstFit(tiers, secs, i) && TierFor(tiers, s) == tiers[i]
  {
    secs := Magnitude(EffectiveResetSeconds(s));
    i := FirstFitOf(tiers, secs);
  }

  /** An answer that is not a 429 arms the bucket exactly when nothing remains and it says when the window
      resets: until then, under the cap of the tier its seconds fall in, if that tier waits, and not at all
      if it does not. */
  lemma ExhaustedAnswersArmExactly(tiers: seq<Tier>, r: Reply) returns (secs: int, i: int)
    requires tiers != [] && !r.tooMany
    ensures GivesSeconds(r.snapshot, secs) && IsFirstFit(tiers, secs, i)
    ensures AfterLast(tiers, r) ==
      if r.snapshot.remaining.None? || r.snapshot.remaining.value > 0 || r.snapshot.resetAtMs.None? then r.bucket
      else if tiers[i].action == Fail then Bucket(0, 0)
      else Bucket(r.snapshot.resetAtMs.value, tiers[i].maxWaitMs)
  {
    secs, i := TierIsFirstFit(tiers, r.snapshot);
  }

  /** A 429 leads to another call exactly when the tier its seconds fall in waits and has retries left. It
      arms the bucket then until the window resets, else until its Retry-After is over, else for a second,
      but not into the past and not beyond the tier's cap. A 429 of a failing tier clears the bucket. */
  lemma TooManyArmsExactly(tiers: seq<Tier>, r: Reply, attempt: nat) returns (secs: int, i: int)
    requires tiers != [] && r.tooMany
    ensures GivesSeconds(r.snapshot, secs) && IsFirstFit(tiers, secs, i)
    ensures Retries(tiers, r, attempt) <==> tiers[i].action == Wait && attempt < tiers[i].maxRetries
    ensures var wanted := if r.snapshot.resetAtMs.Some? then r.snapshot.resetAtMs.value
                          else if r.snapshot.retryAfterMs.Some? then r.at + r.snapshot.retryAfterMs.value else r.at + 1000;
      var (cap, armed) := (tiers[i].maxWaitMs, AfterBackoff(tiers, r));
      && armed.cooldownMaxWaitMs == cap
      && armed.cooldownUntilMs == if wanted <= r.at then r.at else if cap > 0 && wanted > r.at + cap then r.at + cap else wanted
    ensures AfterLast(tiers, r) == if tiers[i].action == Fail then Bucket(0, 0) else r.bucket
  {
    secs, i := TierIsFirstFit(tiers, r.snapshot);
    hide SelectTier;
  }

  // When the gateway wants the next call, going by what the answer says.
  function WantedAt(r: Reply): int {
    if r.snapshot.resetAtMs.Some? then r.snapshot.resetAtMs.value
    else if r.snapshot.retryAfterMs.Some? then r.at + r.snapshot.retryAfterMs.value
    else r.at + DEFAULT_BACKOFF_MS
  }

  /** The window armed before a retry ends when the gateway wants the next call, but not in the past and
      not beyond the tier's cap. */
  lemma ArmedWindowExactly(tiers: seq<Tier>, r: Reply)
    requires tiers != []
    ensures var armed, cap := AfterBackoff(tiers, r), TierFor(tiers, r.snapshot).maxWaitMs;
      && armed.cooldownMaxWaitMs == cap
      && armed.cooldownUntilMs >= r.at
      && (cap > 0 ==> armed.cooldownUntilMs <= r.at + cap)
      && (armed.cooldownUntilMs < WantedAt(r) ==> cap > 0 && armed.cooldownUntilMs == r.at + cap)
      && (armed.cooldownUntilMs > WantedAt(r) ==> armed.cooldownUntilMs == r.at)
  {
    hide SelectTier;
  }

  // The longest that so many stays in the gate may take.
  function Allowance(stays: nat, limit: nat): nat { stays * limit }

  lemma FirstStay(pauses: (nat, nat) -> Pause, b: Bucket, tiers: seq<Tier>, waited: nat, limit: nat)
    requires GateKeepsCap(pauses) && ArmedBy(tiers, b)
    requires waited == 0 || (b.cooldownUntilMs > 0 && waited == pauses(0, b.cooldownMaxWaitMs).ms)
    ensures Capped(tiers, limit) ==> waited <= Allowance(1, limit)
  {
  }

  lemma StayWithinCap(pauses: (nat, nat) -> Pause, k: nat, cap: nat)
    requires GateKeepsCap(pauses) && cap > 0
    ensures pauses(k, cap).ms <= cap
  {
  }

  /** A 429 that is handed on comes from an error tier, with the cooldown cleared, or after that tier's
      retries have been used up. */
  lemma SurfacedTooMany(tiers: seq<Tier>, r: Reply, made: nat)
    requires tiers != [] && r.tooMany && made > 0 && !Retries(tiers, r, made - 1)
    ensures (TierFor(tiers, r.snapshot).action == Fail && AfterLast(tiers, r) == CLEARED)
         || (TierFor(tiers, r.snapshot).action == Wait && made - 1 >= TierFor(tiers, r.snapshot).maxRetries)
  {
  }

  lemma OneMoreWait(waited: nat, attempt: nat, ms: nat, limit: nat)
    requires waited <= Allowance(attempt + 1, limit) && ms <= limit
    ensures waited + ms <= Allowance(attempt + 2, limit)
  {
  }

  lemma MoreAttempts(attempt: nat, most: nat, limit: nat)
    requires attempt <= most
    ensures Allowance(attempt + 1, limit) <= Allowance(most + 1, limit)
  {
  }

  /** The state shared by every caller of one bucket. */
  class RateState {
    var cooldownUntilMs: int
    var cooldownMaxWaitMs: nat

    function View(): Bucket reads this { Bucket(cooldownUntilMs, cooldownMaxWaitMs) }

    constructor ()
      ensures View() == CLEARED
    {
      cooldownUntilMs, cooldownMaxWaitMs := 0, 0;
    }

    method Set(b: Bucket)
      modifies this
      ensures View() == b
    {
      cooldownUntilMs, cooldownMaxWaitMs := b.cooldownUntilMs, b.cooldownMaxWaitMs;
    }

    // The gate in front of the first call.
    method AwaitCooldown(now: nat, pauses: (nat, nat) -> Pause) returns (waited: nat, aborted: bool)
      modifies this
      ensures var gate := pauses(0, old(View()).cooldownMaxWaitMs);
        if old(View()).cooldownUntilMs > now then waited == gate.ms && aborted == gate.aborted && View() == gate.bucket
        else waited == 0 && !aborted && View() == old(View())
    {
      waited, aborted := 0, false;
      if cooldownUntilMs > now {
        var waitMs := ClampWait(cooldownUntilMs - now, cooldownMaxWaitMs);
        if waitMs > 0 {
          var pause := pauses(0, cooldownMaxWaitMs);
          waited, aborted := pause.ms, pause.aborted;
          Set(pause.bucket);
        }
      }
    }

    // Any answer but a 429.
    method Arm(tiers: seq<Tier>, r: Reply)
      requires tiers != [] && View() == r.bucket
      modifies this
      ensures View() == AfterSuccess(tiers, r)
    {
      var s := r.snapshot;
      if s.remaining.Some? && s.remaining.value <= 0 && s.resetAtMs.Some? {
        var tier := Select(tiers, EffectiveResetSeconds(s));
        if tier.action == Wait {
          cooldownUntilMs, cooldownMaxWaitMs := s.resetAtMs.value, tier.maxWaitMs;
        } else {
          cooldownUntilMs, cooldownMaxWaitMs := 0, 0;
        }
      }
    }

    // Surfaces the answer, or arms the cooldown for a retry under the cap `cap`.
    method Handle(tiers: seq<Tier>, r: Reply, attempt: nat) returns (again: bool, cap: nat)
      requires tiers != [] && View() == r.bucket
      modifies this
      ensures again == Retries(tiers, r, attempt) && cap == TierFor(tiers, r.snapshot).maxWaitMs
      ensures again ==> View() == AfterBackoff(tiers, r)
      ensures !again ==> View() == AfterLast(tiers, r)
    {
      var tier := Select(tiers, EffectiveResetSeconds(r.snapshot));
      again, cap := false, tier.maxWaitMs;
      if !r.tooMany {
        Arm(tiers, r);
      } else if tier.action == Fail {
        cooldownUntilMs, cooldownMaxWaitMs := 0, 0;
      } else if attempt < tier.maxRetries {
        var waitMs := ClampWait(ComputeBackoff(r.snapshot, r.at), tier.maxWaitMs);
        cooldownUntilMs, cooldownMaxWaitMs := r.at + waitMs, tier.maxWaitMs;
        again := true;
      }
    }

    /** One wrapped fetch: at most 1 + R calls and at most (R + 1) * M milliseconds in the gate. Every
        answer but the last was retried after arming the cooldown, the last is returned as it came, and a
        429 comes back only from an error tier, with the cooldown cleared, or with that tier's retries
        used up. */
    method Fetch(tiers: seq<Tier>, now: nat, calls: nat -> Exchange, pauses: (nat, nat) -> Pause, ghost limit: nat)
      returns (result: Result, made: nat, waited: nat, ghost armed: seq<Bucket>)
      requires tiers != [] && ArmedBy(tiers, View()) && FromGate(pauses)
      modifies this
      ensures made <= 1 + MaxRetries(tiers)
      ensures Capped(tiers, limit) ==> waited <= Allowance(MaxRetries(tiers) + 1, limit)
      ensures forall k | 0 <= k < made - 1 :: calls(k).Answered? && Retries(tiers, calls(k).reply, k)
      ensures |armed| == (if result.Aborted? then made else made - 1)
      ensures forall k | 0 <= k < |armed| :: calls(k).Answered? && armed[k] == AfterBackoff(tiers, calls(k).reply)
      ensures result.Returned? ==>
        && made > 0 && calls(made - 1) == Answered(result.reply) && !Retries(tiers, result.reply, made - 1)
        && View() == AfterLast(tiers, result.reply)
      ensures result.Failed? ==> made > 0 && calls(made - 1).Threw?
      ensures result.Aborted? ==>
        if made == 0 then pauses(0, old(View()).cooldownMaxWaitMs).aborted
        else && calls(made - 1).Answered? && Retries(tiers, calls(made - 1).reply, made - 1)
             && pauses(made, TierFor(tiers, calls(made - 1).reply.snapshot).maxWaitMs).aborted
    {
      hide *;
      GateBoundsPauses(pauses);
      var stopped;
      waited, stopped := AwaitCooldown(now, pauses);
      FirstStay(pauses, old(View()), tiers, waited, limit);
      MoreAttempts(0, MaxRetries(tiers), limit);
      made, armed := 0, [];
      if stopped { return Aborted, made, waited, armed; }
      var attempt: nat := 0;
      while true
        invariant made == attempt == |armed| <= MaxRetries(tiers)
        invariant Capped(tiers, limit) ==> waited <= Allowance(attempt + 1, limit)
        invariant forall k | 0 <= k < made ::
          calls(k).Answered? && Retries(tiers, calls(k).reply, k) && armed[k] == AfterBackoff(tiers, calls(k).reply)
        decreases MaxRetries(tiers) - attempt
      {
        MoreAttempts(attempt, MaxRetries(tiers), limit);
        var response := calls(attempt);
        made := made + 1;
        if response.Threw? { return Failed, made, waited, armed; }
        var r := response.reply;
        Set(r.bucket);
        var again, cap := Handle(tiers, r, attempt);
        if !again { return Returned(r), made, waited, armed; }
        CallBudget(tiers, r, attempt);
        armed := armed + [View()];
        var pause := pauses(attempt + 1, cap);
        if Capped(tiers, limit) {
          StayWithinCap(pauses, attempt + 1, cap);
          OneMoreWait(waited, attempt, pause.ms, limit);
        }
        waited := waited + pause.ms;
        MoreAttempts(attempt + 1, MaxRetries(tiers), limit);
        if pause.aborted { return Aborted, made, waited, armed; }
        Set(pause.bucket);
        attempt := attempt + 1;
      }
    }
  }
}
