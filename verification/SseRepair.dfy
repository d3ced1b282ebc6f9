/** Repairing Responses events: missing output and content indices are filled in while the stream goes by.
    Decoding a frame and encoding an event (regular expression and JSON) are the codec's. */
module SseRepair {
  import opened Prelude
  import opened SseFraming

  // A present index may hold anything; a missing one is None.
  datatype Value = Number(n: int) | Foreign(json: string)

  datatype Event = Event(
    kind: string, itemId: Option<string>, fieldId: Option<string>,
    outputIndex: Option<Value>, contentIndex: Option<Value>, rest: string)

  const ADDED := "response.output_item.added"

  predicate Mentions(s: string, word: string) { exists i | 0 <= i <= |s| - |word| :: At(s, word, i) }

  predicate IsContent(kind: string) {
    Mentions(kind, "content_part") || Mentions(kind, "output_text") || Mentions(kind, "reasoning_text")
  }

  // `item.id`, else `item_id`; the empty string counts as none.
  function Id(e: Event): Option<string> {
    var id := if e.itemId.Some? then e.itemId else e.fieldId;
    if id == Some("") then None else id
  }

  datatype Injector = Injector(outputIndex: map<string, nat>, nextIndex: nat)

  const FRESH := Injector(map[], 0)

  function Register(inj: Injector, e: Event): Injector {
    if e.kind == ADDED && Id(e).Some? && Id(e).value !in inj.outputIndex
    then Injector(inj.outputIndex[Id(e).value := inj.nextIndex], inj.nextIndex + 1)
    else inj
  }

  function Fill(inj: Injector, e: Event): Event {
    e.(outputIndex := if Id(e).Some? && Id(e).value in inj.outputIndex && e.outputIndex.None?
                      then Some(Number(inj.outputIndex[Id(e).value])) else e.outputIndex,
       contentIndex := if IsContent(e.kind) && e.contentIndex.None? then Some(Number(0)) else e.contentIndex)
  }

  function RepairAll(inj: Injector, es: seq<Event>): seq<Event>
    decreases |es|
  {
    if es == [] then [] else [Fill(Register(inj, es[0]), es[0])] + RepairAll(Register(inj, es[0]), es[1..])
  }

  // ---- What the indices are -------------------------------------------------------------

  // The items announced so far, each once, in the order of their first announcement.
  function Arrivals(es: seq<Event>): seq<string> {
    if es == [] then []
    else
      var before, e := Arrivals(es[..|es| - 1]), es[|es| - 1];
      if e.kind == ADDED && Id(e).Some? && Id(e).value !in before then before + [Id(e).value] else before
  }

  // The injector after the events `es`: item number i holds index i.
  predicate Knows(inj: Injector, es: seq<Event>) {
    && inj.nextIndex == |Arrivals(es)|
    && inj.outputIndex.Keys == (set id | id in Arrivals(es))
    && forall i | 0 <= i < |Arrivals(es)| :: inj.outputIndex[Arrivals(es)[i]] == i
  }

  predicate Distinct(ids: seq<string>) { forall i, j | 0 <= i < j < |ids| :: ids[i] != ids[j] }

  // What a repaired event must look like when the items `known` have been announced.
  ghost predicate RepairedBy(known: seq<string>, e: Event, e': Event) {
    && e' == e.(outputIndex := e'.outputIndex, contentIndex := e'.contentIndex)
    && (e.outputIndex.Some? ==> e'.outputIndex == e.outputIndex)
    && (e.contentIndex.Some? ==> e'.contentIndex == e.contentIndex)
    && (e.outputIndex.None? ==>
          if Id(e).Some? && Id(e).value in known
          then exists i :: 0 <= i < |known| && known[i] == Id(e).value && e'.outputIndex == Some(Number(i))
          else e'.outputIndex.None?)
    && (e.contentIndex.None? ==> e'.contentIndex == if IsContent(e.kind) then Some(Number(0)) else None)
  }

  lemma {:induction false} ArrivalsAreDistinct(es: seq<Event>)
    ensures Distinct(Arrivals(es))
  {
    if es != [] { ArrivalsAreDistinct(es[..|es| - 1]); }
  }

  /** An item keeps its index for the rest of the stream. */
  lemma {:induction false} ArrivalsOnlyGrow(es: seq<Event>, n: nat)
    requires n <= |es|
    ensures Arrivals(es[..n]) <= Arrivals(es)
    decreases |es| - n
  {
    if n == |es| {
      assert es[..n] == es;
    } else {
      ArrivalsOnlyGrow(es, n + 1);
      assert es[..n + 1][..n] == es[..n];
    }
  }

  lemma RegisterKnows(inj: Injector, done: seq<Event>, e: Event)
    requires Knows(inj, done)
    ensures Knows(Register(inj, e), done + [e])
  {
    assert (done + [e])[..|done|] == done;
    ArrivalsAreDistinct(done + [e]);
    if e.kind == ADDED && Id(e).Some? && Id(e).value !in Arrivals(done) {
      assert Arrivals(done + [e]) == Arrivals(done) + [Id(e).value];
      assert (set id | id in Arrivals(done + [e])) == (set id | id in Arrivals(done)) + {Id(e).value};
    }
  }

  lemma FillIsRepair(inj: Injector, done: seq<Event>, e: Event)
    requires Knows(inj, done)
    ensures RepairedBy(Arrivals(done), e, Fill(inj, e))
  {
    if Id(e).Some? && Id(e).value in Arrivals(done) {
      var i :| 0 <= i < |Arrivals(done)| && Arrivals(done)[i] == Id(e).value;
      assert inj.outputIndex[Arrivals(done)[i]] == i;
    }
  }

  lemma {:induction false} RepairsInOrder(inj: Injector, done: seq<Event>, es: seq<Event>, k: nat)
    requires Knows(inj, done) && k < |es|
    ensures |RepairAll(inj, es)| == |es|
    ensures RepairedBy(Arrivals(done + es[..k + 1]), es[k], RepairAll(inj, es)[k])
    decreases |es|
  {
    hide Knows, Arrivals, RepairedBy, Register, Fill;
    var next := Register(inj, es[0]);
    RegisterKnows(inj, done, es[0]);
    RepairLength(next, es[1..]);
    if k == 0 {
      assert es[..1] == [es[0]];
      FillIsRepair(next, done + [es[0]], es[0]);
    } else {
      RepairsInOrder(next, done + [es[0]], es[1..], k - 1);
      assert done + [es[0]] + es[1..][..k] == done + es[..k + 1];
    }
  }

  lemma {:induction false} RepairLength(inj: Injector, es: seq<Event>)
    ensures |RepairAll(inj, es)| == |es|
    decreases |es|
  {
    if es != [] { RepairLength(Register(inj, es[0]), es[1..]); }
  }

  /** Over a whole stream, each event leaves with its present indices untouched, a missing output index
      set to the place of its item in the order of first announcement, and a missing content index set
      to 0 on content events. */
  lemma StreamIsRepaired(es: seq<Event>, k: nat)
    requires k < |es|
    ensures |RepairAll(FRESH, es)| == |es|
    ensures RepairedBy(Arrivals(es[..k + 1]), es[k], RepairAll(FRESH, es)[k])
    ensures Distinct(Arrivals(es)) && Arrivals(es[..k + 1]) <= Arrivals(es)
  {
    RepairsInOrder(FRESH, [], es, k);
    assert [] + es[..k + 1] == es[..k + 1];
    ArrivalsAreDistinct(es);
    ArrivalsOnlyGrow(es, k + 1);
  }

  // ---- Repairing twice ------------------------------------------------------------------

  // An injector that knows no more items finds nothing to fill in a repaired event.
  lemma SecondRepairChangesNothing(inj: Injector, inj': Injector, e: Event)
    requires inj'.outputIndex.Keys <= inj.outputIndex.Keys
    ensures var done := Fill(Register(inj, e), e);
      && Fill(Register(inj', done), done) == done
      && Register(inj', done).outputIndex.Keys <= Register(inj, e).outputIndex.Keys
  {
  }

  lemma {:induction false} RepairTwice(inj: Injector, inj': Injector, es: seq<Event>)
    requires inj'.outputIndex.Keys <= inj.outputIndex.Keys
    ensures RepairAll(inj', RepairAll(inj, es)) == RepairAll(inj, es)
    decreases |es|
  {
    if es != [] {
      var done := Fill(Register(inj, es[0]), es[0]);
      SecondRepairChangesNothing(inj, inj', es[0]);
      RepairTwice(Register(inj, es[0]), Register(inj', done), es[1..]);
      assert RepairAll(inj, es)[1..] == RepairAll(Register(inj, es[0]), es[1..]);
    }
  }

  /** Repairing an already repaired event sequence changes nothing. */
  lemma RepairIsIdempotent(es: seq<Event>)
    ensures RepairAll(FRESH, RepairAll(FRESH, es)) == RepairAll(FRESH, es)
  {
    RepairTwice(FRESH, FRESH, es);
  }

  // ---- Frames ---------------------------------------------------------------------------

  datatype Block = Block(name: Option<string>, event: Event)

  // `decode` fails on comments, `data: [DONE]` and malformed JSON.
  datatype Codec = Codec(decode: string -> Option<Block>, encode: Block -> string)

  datatype Rendered = Rendered(inj: Injector, text: string)

  function Render(c: Codec, inj: Injector, frame: string): Rendered {
    match c.decode(frame)
    case None => Rendered(inj, frame)
    case Some(b) =>
      var next := Register(inj, b.event);
      Rendered(next, c.encode(b.(event := Fill(next, b.event))))
  }

  function RenderAll(c: Codec, inj: Injector, frames: seq<string>): Rendered
    decreases |frames|
  {
    if frames == [] then Rendered(inj, "")
    else
      var first := Render(c, inj, frames[0]);
      var more := RenderAll(c, first.inj, frames[1..]);
      Rendered(more.inj, first.text + more.text)
  }

  function RepairText(c: Codec, input: string): string { RenderAll(c, FRESH, Split(input)).text }

  // The text the stream puts out when it takes the whole input as one chunk.
  function StreamText(c: Codec, input: string): string { RenderAll(c, FRESH, Frames(input)).text }

  lemma {:induction false} RenderAllOfConcat(c: Codec, inj: Injector, a: seq<string>, b: seq<string>)
    ensures RenderAll(c, inj, a + b) ==
      Rendered(RenderAll(c, RenderAll(c, inj, a).inj, b).inj, RenderAll(c, inj, a).text + RenderAll(c, RenderAll(c, inj, a).inj, b).text)
    decreases |a|
  {
    if a == [] {
      assert a + b == b;
    } else {
      assert (a + b)[1..] == a[1..] + b;
      RenderAllOfConcat(c, Render(c, inj, a[0]).inj, a[1..], b);
    }
  }

  lemma RenderOneMore(c: Codec, inj: Injector, done: seq<string>, frame: string)
    ensures var before := RenderAll(c, inj, done);
      var one := Render(c, before.inj, frame);
      RenderAll(c, inj, done + [frame]) == Rendered(one.inj, before.text + one.text)
  {
    RenderAllOfConcat(c, inj, done, [frame]);
  }

  lemma NothingRendered(c: Codec, inj: Injector)
    ensures RenderAll(c, inj, []) == Rendered(inj, "")
  {
  }

  // The loop takes the first frame off the buffer and adds it to those done.
  lemma CutOne(all: Drained, done: seq<string>, buffer: string)
    requires all == Drained(done + Drain(buffer).frames, Drain(buffer).rest) && FirstEnd(buffer).Some?
    ensures var p := FirstEnd(buffer).value;
      && 0 < p <= |buffer|
      && all == Drained((done + [buffer[..p]]) + Drain(buffer[p..]).frames, Drain(buffer[p..]).rest)
  {
    hide *;
    DrainStep(buffer);
    var p := FirstEnd(buffer).value;
    assert done + ([buffer[..p]] + Drain(buffer[p..]).frames) == (done + [buffer[..p]]) + Drain(buffer[p..]).frames;
  }

  lemma DrainStep(buffer: string)
    requires FirstEnd(buffer).Some?
    ensures var p := FirstEnd(buffer).value;
      0 < p <= |buffer| && Drain(buffer) == Drained([buffer[..p]] + Drain(buffer[p..]).frames, Drain(buffer[p..]).rest)
  {
    FirstEndIsEarliest(buffer);
    hide FirstEnd;
  }

  // The index injector: a map and a counter, updated in place.
  class IndexInjector {
    var outputIndex: map<string, nat>
    var nextIndex: nat

    function View(): Injector reads this { Injector(outputIndex, nextIndex) }

    constructor ()
      ensures View() == FRESH
    {
      outputIndex, nextIndex := map[], 0;
    }

    method RenderFrame(c: Codec, block: string) returns (text: string)
      modifies this
      ensures Rendered(View(), text) == Render(c, old(View()), block)
    {
      var parsed := c.decode(block);
      if parsed.None? { return block; }
      var event := parsed.value.event;
      var itemId := Id(event);
      if event.kind == ADDED && itemId.Some? && itemId.value !in outputIndex {
        outputIndex, nextIndex := outputIndex[itemId.value := nextIndex], nextIndex + 1;
      }
      if itemId.Some? && itemId.value in outputIndex && event.outputIndex.None? {
        event := event.(outputIndex := Some(Number(outputIndex[itemId.value])));
      }
      if IsContent(event.kind) && event.contentIndex.None? {
        event := event.(contentIndex := Some(Number(0)));
      }
      text := c.encode(parsed.value.(event := event));
    }
  }

  /** The transform stream: chunks come in, complete frames go out repaired, the rest waits. */
  class RepairStream {
    const codec: Codec
    const render: IndexInjector
    var buffer: string
    ghost var received: string            // everything that came in
    ghost var sent: string                // everything that went out

    // What went out is what the frames complete so far render to.
    ghost predicate Valid() reads this, render {
      && buffer == Drain(received).rest
      && Rendered(render.View(), sent) == RenderAll(codec, FRESH, Drain(received).frames)
    }

    constructor (codec: Codec)
      ensures Valid() && received == "" && fresh(render) && this.codec == codec
    {
      this.codec := codec;
      render := new IndexInjector();
      buffer, received, sent := "", "", "";
      new;
      FirstEndIsEarliest("");
    }

    method Transform(chunk: string) returns (out: string)
      requires Valid()
      modifies this, render
      ensures Valid() && received == old(received) + chunk && sent == old(sent) + out
    {
      DrainInTwoSteps(received, chunk);
      RenderAllOfConcat(codec, FRESH, Drain(received).frames, Drain(buffer + chunk).frames);
      buffer := buffer + chunk;
      out := CutFrames();
      received, sent := received + chunk, sent + out;
    }

    // Takes every complete frame off the buffer.
    method CutFrames() returns (out: string)
      modifies this`buffer, render
      ensures buffer == Drain(old(buffer)).rest
      ensures Rendered(render.View(), out) == RenderAll(codec, old(render.View()), Drain(old(buffer)).frames)
    {
      hide Drain;
      hide RenderAll;
      ghost var all, was := Drain(buffer), render.View();
      ghost var done: seq<string> := [];
      NothingRendered(codec, was);
      assert [] + all.frames == all.frames;
      out := "";
      var boundary := FirstEnd(buffer);
      while boundary.Some?
        modifies this`buffer, render
        invariant boundary == FirstEnd(buffer)
        invariant all == Drained(done + Drain(buffer).frames, Drain(buffer).rest)
        invariant Rendered(render.View(), out) == RenderAll(codec, was, done)
        decreases |buffer|
      {
        var end := boundary.value;
        CutOne(all, done, buffer);
        var frame := buffer[..end];
        RenderOneMore(codec, was, done, frame);
        var text := render.RenderFrame(codec, frame);
        out, buffer := out + text, buffer[end..];
        done := done + [frame];
        boundary := FirstEnd(buffer);
      }
      NothingToCut(buffer);
      assert done + [] == done;
    }

    method Flush() returns (out: string)
      requires Valid()
      modifies render
      ensures sent + out == StreamText(codec, received)
    {
      RenderAllOfConcat(codec, FRESH, Drain(received).frames, Flushed(buffer));
      out := "";
      if buffer != "" { out := render.RenderFrame(codec, buffer); }
    }
  }

  lemma ConcatSteps(chunks: seq<string>)
    ensures forall i | 0 <= i < |chunks| :: Concat(chunks[i..]) == chunks[i] + Concat(chunks[i + 1..])
    ensures Concat(chunks[|chunks|..]) == ""
  {
    forall i | 0 <= i < |chunks| ensures Concat(chunks[i..]) == chunks[i] + Concat(chunks[i + 1..]) {
      assert chunks[i..][1..] == chunks[i + 1..];
    }
  }

  /** For every way of cutting a text into chunks, what the stream puts out is what it puts out for the
      text in one chunk. */
  method RunStream(codec: Codec, chunks: seq<string>) returns (out: string)
    ensures out == StreamText(codec, Concat(chunks))
  {
    hide StreamText, Concat;
    ConcatSteps(chunks);
    var stream := new RepairStream(codec);
    out := "";
    assert chunks[0..] == chunks;
    for i := 0 to |chunks|
      invariant stream.Valid() && fresh(stream) && fresh(stream.render) && stream.codec == codec
      invariant out == stream.sent && stream.received + Concat(chunks[i..]) == Concat(chunks)
    {
      var text := stream.Transform(chunks[i]);
      out := out + text;
    }
    assert stream.received + "" == stream.received;
    var last := stream.Flush();
    out := out + last;
  }

  /** The stream's output equals the whole-text repair whenever no third newline follows a blank line
      inside the text. */
  lemma StreamAgreesWithText(c: Codec, input: string)
    requires !ThreeNewlines(input) && c.decode("").None?
    ensures StreamText(c, input) == RepairText(c, input)
  {
    if input != "" {
      SameFramesExactlyWithoutThirdNewline(input);
    } else {
      FirstEndIsEarliest("");
      assert Drain("") == Drained([], "") && Split("") == [""];
      assert RenderAll(c, FRESH, [""]).text == "" + "";
    }
  }
}
