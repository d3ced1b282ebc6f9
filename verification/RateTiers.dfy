/** The tiered retry policy: normalising configured tiers and selecting one by reset magnitude. */
module RateTiers {
  import opened Prelude

  datatype Action = Wait | Fail

  // A tier without a bound is a catch-all.
  datatype Tier = Tier(bound: Option<nat>, action: Action, maxWaitMs: nat, maxRetries: nat)

  const DEFAULT_MAX_WAIT_MS := 0
  const DEFAULT_MAX_RETRIES := 5
  const CATCH_ALL := Tier(None, Wait, DEFAULT_MAX_WAIT_MS, DEFAULT_MAX_RETRIES)

  predicate NotAfter(a: Option<nat>, b: Option<nat>) { b.None? || (a.Some? && a.value <= b.value) }

  predicate Sorted(s: seq<Tier>) { forall i, j | 0 <= i < j < |s| :: NotAfter(s[i].bound, s[j].bound) }

  // The tiers with one bound, in their order.
  function WithBound(s: seq<Tier>, bound: Option<nat>): seq<Tier> {
    if s == [] then [] else (if s[0].bound == bound then [s[0]] else []) + WithBound(s[1..], bound)
  }

  // What JavaScript's stable sort promises of its result.
  ghost predicate IsStableSort(s: seq<Tier>, t: seq<Tier>) {
    Sorted(t) && forall bound :: WithBound(t, bound) == WithBound(s, bound)
  }

  function Insert(x: Tier, s: seq<Tier>): seq<Tier> {
    if s == [] || NotAfter(x.bound, s[0].bound) then [x] + s else [s[0]] + Insert(x, s[1..])
  }

  function Sort(s: seq<Tier>): seq<Tier> {
    if s == [] then [] else Insert(s[0], Sort(s[1..]))
  }

  predicate HasCatchAll(s: seq<Tier>) { exists i :: 0 <= i < |s| && s[i].bound.None? }

  function NormalizeTiers(tiers: seq<Tier>): seq<Tier> {
    var sorted := Sort(tiers);
    if HasCatchAll(sorted) then sorted else sorted + [CATCH_ALL]
  }

  // ---- Sorting --------------------------------------------------------------------------

  lemma {:induction false} InsertAdds(x: Tier, s: seq<Tier>)
    ensures multiset(Insert(x, s)) == multiset([x] + s)
  {
    if s == [] || NotAfter(x.bound, s[0].bound) {
    } else {
      InsertAdds(x, s[1..]);
      assert s == [s[0]] + s[1..];
    }
  }

  lemma {:induction false} InsertKeepsOrder(x: Tier, s: seq<Tier>)
    requires Sorted(s)
    ensures Sorted(Insert(x, s))
  {
    if s == [] || NotAfter(x.bound, s[0].bound) {
    } else {
      var rest := Insert(x, s[1..]);
      InsertKeepsOrder(x, s[1..]);
      InsertAdds(x, s[1..]);
      forall i | 0 <= i < |rest| ensures NotAfter(s[0].bound, rest[i].bound) {
        assert rest[i] in multiset(rest);
        assert rest[i] in [x] + s[1..];
      }
    }
  }

  lemma {:induction false} InsertIsStable(x: Tier, s: seq<Tier>, bound: Option<nat>)
    requires Sorted(s)
    ensures WithBound(Insert(x, s), bound) == WithBound([x] + s, bound)
  {
    if s == [] || NotAfter(x.bound, s[0].bound) {
    } else {
      InsertIsStable(x, s[1..], bound);
      assert ([x] + s)[1..] == s && ([x] + s[1..])[1..] == s[1..];
      assert Insert(x, s)[1..] == Insert(x, s[1..]);
    }
  }

  lemma {:induction false} SortIsStable(s: seq<Tier>)
    ensures IsStableSort(s, Sort(s)) && multiset(Sort(s)) == multiset(s)
  {
    if s == [] {
    } else {
      SortIsStable(s[1..]);
      InsertKeepsOrder(s[0], Sort(s[1..]));
      InsertAdds(s[0], Sort(s[1..]));
      assert s == [s[0]] + s[1..];
      forall bound ensures WithBound(Sort(s), bound) == WithBound(s, bound) {
        InsertIsStable(s[0], Sort(s[1..]), bound);
        assert ([s[0]] + Sort(s[1..]))[1..] == Sort(s[1..]);
      }
    }
  }

  lemma {:induction false} WithBoundFinds(s: seq<Tier>, bound: Option<nat>)
    ensures WithBound(s, bound) == [] <==> forall i | 0 <= i < |s| :: s[i].bound != bound
  {
    if s == [] {
    } else {
      WithBoundFinds(s[1..], bound);
      if WithBound(s[1..], bound) != [] {
        var i :| 0 <= i < |s[1..]| && s[1..][i].bound == bound;
        assert s[i + 1].bound == bound;
      } else if s[0].bound != bound {
        assert forall i | 0 < i < |s| :: s[i] == s[1..][i - 1];
      }
    }
  }

  // A sorted list starts with its least bound.
  lemma HeadIsLeast(s: seq<Tier>, t: seq<Tier>)
    requires IsStableSort(s, t) && t != []
    ensures exists i | 0 <= i < |s| :: s[i].bound == t[0].bound
    ensures forall i | 0 <= i < |s| :: NotAfter(t[0].bound, s[i].bound)
  {
    WithBoundFinds(s, t[0].bound);
    assert WithBound(t, t[0].bound) == WithBound(s, t[0].bound);
    forall i | 0 <= i < |s| ensures NotAfter(t[0].bound, s[i].bound) {
      WithBoundFinds(s, s[i].bound);
      WithBoundFinds(t, s[i].bound);
      assert WithBound(t, s[i].bound) == WithBound(s, s[i].bound);
    }
  }

  /** There is only one stable sort, so it does not matter how the library sorts. */
  lemma {:induction false} StableSortIsUnique(s: seq<Tier>, t: seq<Tier>, t': seq<Tier>)
    requires IsStableSort(s, t) && IsStableSort(s, t')
    ensures t == t'
    decreases |t|
  {
    assert IsStableSort(t, t') && IsStableSort(t', t) by {
      forall b ensures WithBound(t, b) == WithBound(t', b) { assert WithBound(t, b) == WithBound(s, b); }
    }
    if t == [] {
      if t' != [] { HeadIsLeast(t, t'); }
    } else if t' == [] {
      HeadIsLeast(t', t);
    } else {
      HeadIsLeast(t, t');
      HeadIsLeast(t', t);
      assert WithBound(t, t[0].bound)[0] == WithBound(t', t[0].bound)[0];
      forall b ensures WithBound(t[1..], b) == WithBound(t'[1..], b) {
        assert WithBound(t, b) == WithBound(t', b);
        var head := if t[0].bound == b then [t[0]] else [];
        assert WithBound(t[1..], b) == WithBound(t, b)[|head|..];
        assert WithBound(t'[1..], b) == WithBound(t', b)[|head|..];
      }
      StableSortIsUnique(t[1..], t[1..], t'[1..]);
    }
  }

  lemma PermutationKeepsCatchAll(s: seq<Tier>, t: seq<Tier>)
    requires multiset(s) == multiset(t) && HasCatchAll(s)
    ensures HasCatchAll(t)
  {
    var i :| 0 <= i < |s| && s[i].bound.None?;
    assert s[i] in multiset(t);
  }

  /** Normalising is the stable sort of the configured tiers, plus the default catch-all at the end
      exactly when none was configured. */
  lemma NormalizedIsSortedPlusDefault(tiers: seq<Tier>)
    ensures var n := NormalizeTiers(tiers);
      var own := if HasCatchAll(tiers) then n else n[..|n| - 1];
      && Sorted(n) && n != [] && n[|n| - 1].bound.None?
      && IsStableSort(tiers, own) && multiset(own) == multiset(tiers)
      && (own == n || n == own + [CATCH_ALL])
  {
    hide IsStableSort, WithBound;
    SortIsStable(tiers);
    SortSorts(tiers);
    var sorted := Sort(tiers);
    if HasCatchAll(sorted) {
      PermutationKeepsCatchAll(sorted, tiers);
      var i :| 0 <= i < |sorted| && sorted[i].bound.None?;
      assert NotAfter(sorted[i].bound, sorted[|sorted| - 1].bound);
    } else {
      if HasCatchAll(tiers) { PermutationKeepsCatchAll(tiers, sorted); }
      assert NormalizeTiers(tiers)[..|sorted|] == sorted;
    }
  }

  lemma SortSorts(tiers: seq<Tier>)
    ensures Sorted(Sort(tiers))
  {
    SortIsStable(tiers);
  }

  // ---- Selection ------------------------------------------------------------------------

  predicate Covers(t: Tier, reset: int) { t.bound.None? || reset <= t.bound.value }

  function FirstCovering(tiers: seq<Tier>, reset: int): Option<Tier> {
    if tiers == [] then None
    else if Covers(tiers[0], reset) then Some(tiers[0])
    else FirstCovering(tiers[1..], reset)
  }

  // An unknown reset counts as the smallest.
  function Magnitude(reset: Option<int>): int { if reset.Some? then reset.value else 0 }

  function SelectTier(tiers: seq<Tier>, reset: Option<int>): Tier
    requires tiers != []
  {
    var first := FirstCovering(tiers, Magnitude(reset));
    if first.Some? then first.value else tiers[|tiers| - 1]
  }

  method Select(tiers: seq<Tier>, resetSeconds: Option<int>) returns (tier: Tier)
    requires tiers != []
    ensures tier == SelectTier(tiers, resetSeconds)
  {
    var reset := Magnitude(resetSeconds);
    for i := 0 to |tiers|
      invariant FirstCovering(tiers[i..], reset) == FirstCovering(tiers, reset)
    {
      if Covers(tiers[i], reset) { return tiers[i]; }
      assert tiers[i..][1..] == tiers[i + 1..];
    }
    return tiers[|tiers| - 1];
  }

  // Position i holds the least bound that covers the reset, and is the first to hold it.
  ghost predicate BestFit(raw: seq<Tier>, reset: int, i: int) {
    && 0 <= i < |raw| && Covers(raw[i], reset)
    && (forall j | 0 <= j < |raw| && Covers(raw[j], reset) ::
          NotAfter(raw[i].bound, raw[j].bound) && (raw[j].bound == raw[i].bound ==> i <= j))
  }

  lemma {:induction false} InsertChoosesBetter(x: Tier, s: seq<Tier>, reset: int)
    requires Sorted(s)
    ensures FirstCovering(Insert(x, s), reset) ==
      var was := FirstCovering(s, reset);
      if Covers(x, reset) && (was.None? || NotAfter(x.bound, was.value.bound)) then Some(x) else was
  {
    if s == [] || NotAfter(x.bound, s[0].bound) {
      assert ([x] + s)[1..] == s;
      FoundIsInside(s, reset);
    } else {
      assert Insert(x, s)[1..] == Insert(x, s[1..]);
      InsertChoosesBetter(x, s[1..], reset);
    }
  }

  lemma {:induction false} FoundIsInside(s: seq<Tier>, reset: int)
    ensures FirstCovering(s, reset).Some? ==> FirstCovering(s, reset).value in s && Covers(FirstCovering(s, reset).value, reset)
    ensures FirstCovering(s, reset).None? ==> forall i | 0 <= i < |s| :: !Covers(s[i], reset)
  {
    if s == [] {
    } else {
      FoundIsInside(s[1..], reset);
      assert forall i | 0 < i < |s| :: s[i] == s[1..][i - 1];
    }
  }

  lemma {:induction false} SortedFindsBestFit(raw: seq<Tier>, reset: int) returns (i: int)
    ensures FirstCovering(Sort(raw), reset).None? ==> i == -1 && forall j | 0 <= j < |raw| :: !Covers(raw[j], reset)
    ensures FirstCovering(Sort(raw), reset).Some? ==> BestFit(raw, reset, i) && raw[i] == FirstCovering(Sort(raw), reset).value
  {
    i := -1;
    if raw == [] {
    } else {
      var k := SortedFindsBestFit(raw[1..], reset);
      SortIsStable(raw[1..]);
      InsertChoosesBetter(raw[0], Sort(raw[1..]), reset);
      i := BestWithHead(raw, reset, k);
    }
  }

  // The position of the best fit of the tail, or none, becomes that of the whole list.
  lemma BestWithHead(raw: seq<Tier>, reset: int, k: int) returns (i: int)
    requires raw != []
    requires if k == -1 then forall j | 0 <= j < |raw[1..]| :: !Covers(raw[1..][j], reset) else BestFit(raw[1..], reset, k)
    ensures i == if Covers(raw[0], reset) && (k == -1 || NotAfter(raw[0].bound, raw[1..][k].bound)) then 0
                 else if k == -1 then -1 else k + 1
    ensures if i == -1 then forall j | 0 <= j < |raw| :: !Covers(raw[j], reset) else BestFit(raw, reset, i)
  {
    assert forall j | 0 < j < |raw| :: raw[j] == raw[1..][j - 1];
    i := if Covers(raw[0], reset) && (k == -1 || NotAfter(raw[0].bound, raw[1..][k].bound)) then 0
         else if k == -1 then -1 else k + 1;
    forall j | 0 < j < |raw| && Covers(raw[j], reset)
      ensures k != -1 && NotAfter(raw[k + 1].bound, raw[j].bound) && (raw[j].bound == raw[k + 1].bound ==> k + 1 <= j)
    {
      assert Covers(raw[1..][j - 1], reset);
    }
  }

  lemma {:induction false} FirstCoveringOfAppend(s: seq<Tier>, x: Tier, reset: int)
    ensures FirstCovering(s + [x], reset) ==
      if FirstCovering(s, reset).Some? then FirstCovering(s, reset) else if Covers(x, reset) then Some(x) else None
  {
    if s == [] {
      assert (s + [x])[1..] == [];
    } else {
      assert (s + [x])[1..] == s[1..] + [x];
      FirstCoveringOfAppend(s[1..], x, reset);
    }
  }

  /** For every configured list and every reset, selection picks the first configured tier with the
      least bound that covers the reset, and the default catch-all only when none covers it; its
      last-resort return is never reached. */
  lemma SelectionIsBestFit(raw: seq<Tier>, reset: Option<int>)
    ensures NormalizeTiers(raw) != [] && FirstCovering(NormalizeTiers(raw), Magnitude(reset)).Some?
    ensures var tier := SelectTier(NormalizeTiers(raw), reset);
      if exists j :: 0 <= j < |raw| && Covers(raw[j], Magnitude(reset))
      then exists i :: BestFit(raw, Magnitude(reset), i) && tier == raw[i]
      else tier == CATCH_ALL
  {
    NormalizedIsSortedPlusDefault(raw);
    var i := SortedFindsBestFit(raw, Magnitude(reset));
    FirstCoveringOfAppend(Sort(raw), CATCH_ALL, Magnitude(reset));
    FoundIsInside(Sort(raw), Magnitude(reset));
  }

  /** The same with bounds and seconds spelled out: the tier whose bound is the least of those not under the
      reset (0 s when it is unknown), no bound counting as the greatest, and of equals the first; with none,
      wait without a cap and retry five times. */
  lemma SelectionByBounds(raw: seq<Tier>, reset: Option<int>) returns (i: int)
    ensures var secs := match reset { case Some(r) => r case None => 0 };
      var tier := SelectTier(NormalizeTiers(raw), reset);
      if i == -1 then
        && tier == Tier(None, Wait, 0, 5)
        && forall j | 0 <= j < |raw| :: raw[j].bound.Some? && raw[j].bound.value < secs
      else
        && 0 <= i < |raw| && tier == raw[i] && (raw[i].bound.Some? ==> secs <= raw[i].bound.value)
        && forall j | 0 <= j < |raw| && j != i && (raw[j].bound.Some? ==> secs <= raw[j].bound.value) ::
             if raw[i].bound.None? then raw[j].bound.None? && i < j
             else raw[j].bound.None? || raw[i].bound.value < raw[j].bound.value || (raw[i].bound == raw[j].bound && i < j)
  {
    SelectionIsBestFit(raw, reset);
    var secs := Magnitude(reset);
    if exists j :: 0 <= j < |raw| && Covers(raw[j], secs) {
      i :| BestFit(raw, secs, i) && SelectTier(NormalizeTiers(raw), reset) == raw[i];
      forall j | 0 <= j < |raw| && j != i && (raw[j].bound.Some? ==> secs <= raw[j].bound.value)
        ensures NotAfter(raw[i].bound, raw[j].bound) && (raw[j].bound == raw[i].bound ==> i <= j)
      {
        assert Covers(raw[j], secs);
      }
    } else {
      i := -1;
      forall j | 0 <= j < |raw| ensures raw[j].bound.Some? && raw[j].bound.value < secs { assert !Covers(raw[j], secs); }
    }
  }
}
