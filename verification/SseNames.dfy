/** The repaired stream once more, with the event names, the identifiers and the places spelled out. */
module SseNames {
  import opened Prelude
  import opened SseFraming
  import opened SseRepair

  // The id of the event's item, else its item id; an empty one is none.
  function NameOf(e: Event): string {
    match e.itemId
    case Some(id) => id
    case None => match e.fieldId case Some(id) => id case None => ""
  }

  // The items announced by these events.
  function Announced(es: seq<Event>): set<string> {
    set j | 0 <= j < |es| && es[j].kind == "response.output_item.added" && NameOf(es[j]) != "" :: NameOf(es[j])
  }

  // Item id is announced for the first time by event f.
  predicate FirstAnnouncedAt(es: seq<Event>, f: nat, id: string) {
    && f < |es| && es[f].kind == "response.output_item.added" && id != "" && NameOf(es[f]) == id
    && id !in Announced(es[..f])
  }

  predicate OccursAt(s: string, word: string, i: nat) { i + |word| <= |s| && s[i..i + |word|] == word }

  ghost predicate Contains(s: string, word: string) { exists i: nat :: OccursAt(s, word, i) }

  ghost predicate IsContentEvent(kind: string) {
    Contains(kind, "content_part") || Contains(kind, "output_text") || Contains(kind, "reasoning_text")
  }

  lemma ContainsIsMentions(s: string, word: string)
    ensures Mentions(s, word) <==> Contains(s, word)
  {
    if Mentions(s, word) {
      var i :| 0 <= i <= |s| - |word| && At(s, word, i);
      assert OccursAt(s, word, i);
    }
    if Contains(s, word) {
      var i: nat :| OccursAt(s, word, i);
      assert At(s, word, i);
    }
  }

  lemma ContentIsNamed(kind: string)
    ensures IsContent(kind) <==> IsContentEvent(kind)
  {
    hide OccursAt, Mentions;
    ContainsIsMentions(kind, "content_part");
    ContainsIsMentions(kind, "output_text");
    ContainsIsMentions(kind, "reasoning_text");
  }

  lemma IdIsName(e: Event)
    ensures Id(e) == if NameOf(e) == "" then None else Some(NameOf(e))
  {
  }

  lemma AnnouncedGrows(es: seq<Event>, n: nat)
    requires n < |es|
    ensures Announced(es[..n + 1]) == Announced(es[..n]) +
      if es[n].kind == "response.output_item.added" && NameOf(es[n]) != "" then {NameOf(es[n])} else {}
  {
    assert es[..n + 1] == es[..n] + [es[n]];
    var counts := es[n].kind == "response.output_item.added" && NameOf(es[n]) != "";
    forall id ensures id in Announced(es[..n + 1]) <==> (id in Announced(es[..n]) || (counts && id == NameOf(es[n]))) {
      if id in Announced(es[..n]) {
        var j :| 0 <= j < n && es[j].kind == "response.output_item.added" && NameOf(es[j]) == id;
        assert es[..n + 1][j] == es[j];
      }
      if es[n].kind == "response.output_item.added" && NameOf(es[n]) == id { assert es[..n + 1][n] == es[n]; }
    }
  }

  lemma ArrivalsStep(es: seq<Event>, n: nat)
    requires n < |es|
    ensures Arrivals(es[..n + 1]) == Arrivals(es[..n]) +
      if es[n].kind == "response.output_item.added" && NameOf(es[n]) != "" && NameOf(es[n]) !in Arrivals(es[..n]) then [NameOf(es[n])] else []
  {
    assert es[..n + 1][..n] == es[..n] && es[..n + 1][n] == es[n];
    IdIsName(es[n]);
  }

  // The arrivals are the announced items, and there are as many.
  ghost predicate Lists(known: seq<string>, announced: set<string>) {
    (forall id :: id in known <==> id in announced) && |known| == |announced|
  }

  lemma ListsOneMore(known: seq<string>, announced: set<string>, id: string)
    requires Lists(known, announced)
    ensures Lists(known + if id !in known then [id] else [], announced + {id})
  {
    if id in known { assert announced + {id} == announced; }
  }

  lemma NothingYet(es: seq<Event>)
    ensures Lists(Arrivals(es[..0]), Announced(es[..0]))
  {
  }

  lemma {:induction false} ArrivalsAreAnnounced(es: seq<Event>, n: nat)
    requires n <= |es|
    ensures Lists(Arrivals(es[..n]), Announced(es[..n]))
  {
    hide Lists, Arrivals, Announced, NameOf;
    if n == 0 {
      NothingYet(es);
    } else {
      ArrivalsAreAnnounced(es, n - 1);
      AnnouncedGrows(es, n - 1);
      ArrivalsStep(es, n - 1);
      ListsOneMore(Arrivals(es[..n - 1]), Announced(es[..n - 1]), NameOf(es[n - 1]));
      assert Arrivals(es[..n - 1]) + [] == Arrivals(es[..n - 1]);
      assert Announced(es[..n - 1]) + {} == Announced(es[..n - 1]);
    }
  }

  // The item first announced by event f arrives in the place that many announced before it give.
  lemma PlaceOfItem(es: seq<Event>, f: nat, id: string, n: nat)
    requires FirstAnnouncedAt(es, f, id) && f < n <= |es|
    ensures var known := Arrivals(es[..n]);
      |Announced(es[..f])| < |known| && known[|Announced(es[..f])|] == id
  {
    ArrivalsAreAnnounced(es, f);
    ArrivalsStep(es, f);
    ArrivalsOnlyGrow(es[..n], f + 1);
    assert es[..n][..f + 1] == es[..f + 1];
  }

  /** In a repaired stream nothing but the two indices ever differs, and a present one never. A missing
      output index becomes, for an item announced by `response.output_item.added` up to then, the number of
      items announced before it; else it stays missing. A missing content index becomes 0 exactly on events
      whose type mentions `content_part`, `output_text` or `reasoning_text`. */
  lemma RepairsByName(es: seq<Event>, k: nat)
    requires k < |es|
    ensures |RepairAll(FRESH, es)| == |es|
    ensures var (e, e') := (es[k], RepairAll(FRESH, es)[k]);
      && e' == e.(outputIndex := e'.outputIndex, contentIndex := e'.contentIndex)
      && (e.outputIndex.Some? ==> e'.outputIndex == e.outputIndex)
      && (e.contentIndex.Some? ==> e'.contentIndex == e.contentIndex)
      && (e.outputIndex.None? && NameOf(e) !in Announced(es[..k + 1]) ==> e'.outputIndex.None?)
      && (forall f: nat | f <= k && e.outputIndex.None? && FirstAnnouncedAt(es, f, NameOf(e)) ::
            e'.outputIndex == Some(Number(|Announced(es[..f])|)))
      && (e.contentIndex.None? ==> e'.contentIndex == if IsContentEvent(e.kind) then Some(Number(0)) else None)
  {
    hide RepairAll, IsContent, IsContentEvent, Arrivals, Announced;
    StreamIsRepaired(es, k);
    ContentIsNamed(es[k].kind);
    IdIsName(es[k]);
    var known := Arrivals(es[..k + 1]);
    ArrivalsAreDistinct(es[..k + 1]);
    ArrivalsAreAnnounced(es, k + 1);
    forall f: nat | f <= k && FirstAnnouncedAt(es, f, NameOf(es[k])) && es[k].outputIndex.None?
      ensures RepairAll(FRESH, es)[k].outputIndex == Some(Number(|Announced(es[..f])|))
    {
      PlaceOfItem(es, f, NameOf(es[k]), k + 1);
      assert known[|Announced(es[..f])|] == NameOf(es[k]);
    }
  }
}
