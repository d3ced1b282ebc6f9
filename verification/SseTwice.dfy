/** Repairing a text that has already been repaired. The second pass may cut the text elsewhere, because
    repaired frames end in LF where the original ended in CRLF; it still changes nothing. */
module SseTwice {
  import opened Prelude
  import opened SseFraming
  import opened SseRepair

  predicate Newline(ch: char) { ch == '\n' || ch == '\r' }

  // An encoded frame: one line or two, no blank line before its very end.
  ghost predicate FrameText(t: string) {
    && |t| >= 3 && !Newline(t[0]) && !Newline(t[|t| - 3]) && t[|t| - 2] == '\n' && t[|t| - 1] == '\n'
    && forall p | p < |t| :: !BlankEndsAt(t, p)
  }

  // The event as the injector sees it; `rest`, which holds everything else, layout included, may differ.
  predicate LooksLike(e: Event, e': Event) { e'.(rest := e.rest) == e }

  // What the regular expression and JSON promise: frames that decode start with `event:` or `data:`,
  // and a frame that is encoded decodes to a block of the same kind, ids and indices that encodes back to
  // the same text. `ok` holds of the blocks that decoding and the injector's own filling bring about.
  ghost predicate Lawful(c: Codec, ok: Block -> bool) {
    && (forall s | c.decode(s).Some? :: s != "" && !Newline(s[0]) && ok(c.decode(s).value))
    && (forall b, inj | ok(b) :: ok(b.(event := Fill(inj, b.event))))
    && (forall b | ok(b) :: FrameText(c.encode(b)) && c.decode(c.encode(b)).Some? &&
          LooksLike(b.event, c.decode(c.encode(b)).value.event) && c.encode(c.decode(c.encode(b)).value) == c.encode(b))
  }

  // Where the first pass has read up to d in s, it has written up to w in out.
  predicate Abreast(s: string, d: nat, out: string, w: nat) {
    && d <= |s| && w <= |out|
    && if d == 0 then w == 0
       else && 0 < w && BlankEndsAt(s, d) && out[w - 1] == '\n'
            && (w >= 2 && out[w - 2] == '\r' ==> s[d - 2] == '\r')
  }

  // The piece s[d..d'] of the first pass came out as out[w..w'].
  ghost predicate CameOut(c: Codec, ok: Block -> bool, s: string, d: nat, d': nat, out: string, w: nat, w': nat) {
    && Abreast(s, d, out, w) && d < d' == NextCut(s, d) && w < w' <= |out|
    && (out[w..w'] == s[d..d'] || FrameText(out[w..w']))
  }

  lemma CopiedLetters(s: string, d: nat, d': nat, out: string, w: nat, w': nat)
    requires d <= d' <= |s| && w <= w' <= |out| && out[w..w'] == s[d..d']
    ensures d' - d == w' - w
    ensures forall i | w <= i < w' :: out[i] == s[d + (i - w)]
  {
    assert |out[w..w']| == |s[d..d']|;
    forall i | w <= i < w' ensures out[i] == s[d + (i - w)] {
      assert out[w..w'][i - w] == s[d..d'][i - w];
    }
  }

  lemma CopiedHasNoBoundary(s: string, d: nat, d': nat, out: string, w: nat, w': nat, q: nat)
    requires Abreast(s, d, out, w) && d < d' == NextCut(s, d) && w <= w' <= |out|
    requires out[w..w'] == s[d..d'] && w < q < w'
    ensures !BlankEndsAt(out, q)
  {
    CopiedLetters(s, d, d', out, w, w');
    assert !BlankEndsAt(s, d + (q - w)) && !BlankEndsAt(s, d + 1) && (d + 2 < d' ==> !BlankEndsAt(s, d + 2));
  }

  lemma EncodedHasNoBoundary(out: string, w: nat, w': nat, q: nat)
    requires w < w' <= |out| && FrameText(out[w..w']) && w < q < w'
    ensures !BlankEndsAt(out, q)
  {
    var t := out[w..w'];
    assert t[0] == out[w];
    if BlankEndsAt(out, q) {
      assert BlankEndsAt(t, q - w) by { BoundaryInTail(out, w, q); }
    }
  }

  lemma PieceHasNoBoundary(c: Codec, ok: Block -> bool, s: string, d: nat, d': nat, out: string, w: nat, w': nat)
    requires CameOut(c, ok, s, d, d', out, w, w')
    ensures forall q | w < q < w' :: !BlankEndsAt(out, q)
  {
    forall q | w < q < w' ensures !BlankEndsAt(out, q) {
      if FrameText(out[w..w']) { EncodedHasNoBoundary(out, w, w', q); } else { CopiedHasNoBoundary(s, d, d', out, w, w', q); }
    }
  }

  // After a piece that is not the last, the passes are abreast again; if the second pass does not cut
  // there, the piece was nothing but newlines.
  lemma AbreastAgain(c: Codec, ok: Block -> bool, s: string, d: nat, d': nat, out: string, w: nat, w': nat)
    requires CameOut(c, ok, s, d, d', out, w, w') && d' < |s|
    ensures Abreast(s, d', out, w')
    ensures !BlankEndsAt(out, w') ==> Newline(out[w])
  {
    if FrameText(out[w..w']) {
      var t := out[w..w'];
      assert t[|t| - 1] == out[w' - 1] && t[|t| - 2] == out[w' - 2];
    } else {
      CopiedLetters(s, d, d', out, w, w');
      assert d' - Width(s, d') >= d ==> BlankEndsAt(out, w');
    }
  }

  lemma RenderedAgain(c: Codec, ok: Block -> bool, inj: Injector, inj': Injector, x: string)
    requires Lawful(c, ok) && x != "" && inj'.outputIndex.Keys <= inj.outputIndex.Keys
    ensures var first := Render(c, inj, x);
      var second := Render(c, inj', first.text);
      && first.text != "" && (first.text == x || FrameText(first.text)) && second.text == first.text
      && second.inj.outputIndex.Keys <= first.inj.outputIndex.Keys
  {
    if c.decode(x).Some? {
      var b := c.decode(x).value;
      var next := Register(inj, b.event);
      var done := b.(event := Fill(next, b.event));
      assert ok(done);
      var again := c.decode(c.encode(done)).value;
      SecondRepairChangesNothing(inj, inj', b.event);
      LooksAlike(inj', done.event, again.event);
      assert again.(event := Fill(Register(inj', again.event), again.event)) == again;
    }
  }

  // The injector treats events that look alike in the same way.
  lemma LooksAlike(inj: Injector, e: Event, e': Event)
    requires LooksLike(e, e')
    ensures Register(inj, e') == Register(inj, e)
    ensures Fill(Register(inj, e), e) == e ==> Fill(Register(inj, e'), e') == e'
  {
  }

  lemma SomethingComesOut(c: Codec, ok: Block -> bool, inj: Injector, s: string, d: nat)
    requires Lawful(c, ok) && d < |s|
    ensures RenderAll(c, inj, SplitFrom(s, d)).text != ""
  {
    RenderedAgain(c, ok, inj, inj, s[d..NextCut(s, d)]);
    assert SplitFrom(s, d)[0] == s[d..NextCut(s, d)];
  }

  // One piece of the first pass, and the rest.
  lemma FirstPassStep(c: Codec, inj: Injector, s: string, d: nat)
    requires d < |s|
    ensures var d' := NextCut(s, d);
      var first := Render(c, inj, s[d..d']);
      RenderAll(c, inj, SplitFrom(s, d)).text ==
        first.text + if d' == |s| then "" else RenderAll(c, first.inj, SplitFrom(s, d')).text
  {
    var d' := NextCut(s, d);
    if d' == |s| {
      assert s[d..] == s[d..d'];
    } else {
      assert SplitFrom(s, d)[1..] == SplitFrom(s, d');
    }
  }

  lemma NextCutIs(out: string, b: nat, p: nat)
    requires b < p <= |out| && (forall q | b < q < p :: !BlankEndsAt(out, q)) && (p == |out| || BlankEndsAt(out, p))
    ensures NextCut(out, b) == p
  {
  }

  // A piece of the second pass: it is one piece of the first, or it starts with a newline.
  lemma SecondPassPiece(c: Codec, ok: Block -> bool, inj: Injector, inj': Injector, x: string, out: string, b: nat, w: nat, w': nat)
    requires Lawful(c, ok) && x != "" && b <= w < w' <= |out| && out[w..w'] == Render(c, inj, x).text
    requires b < w ==> Newline(out[b])
    requires inj'.outputIndex.Keys <= inj.outputIndex.Keys
    ensures var again := Render(c, inj', out[b..w']);
      && again.text == out[b..w']
      && inj'.outputIndex.Keys <= Render(c, inj, x).inj.outputIndex.Keys
      && again.inj.outputIndex.Keys <= Render(c, inj, x).inj.outputIndex.Keys
  {
    if b < w {
      assert out[b..w'][0] == out[b];
      assert c.decode(out[b..w']).None?;
    } else {
      RenderedAgain(c, ok, inj, inj', x);
    }
  }

  // The first pass stands at d in s and w in out; the second has yet to cut since b.
  ghost predicate Standing(c: Codec, s: string, d: nat, inj: Injector, out: string, b: nat, w: nat, inj': Injector) {
    && d < |s| && Abreast(s, d, out, w) && b <= w
    && out[w..] == RenderAll(c, inj, SplitFrom(s, d)).text
    && (forall q | b < q <= w :: !BlankEndsAt(out, q))
    && (b < w ==> Newline(out[b]))
    && inj'.outputIndex.Keys <= inj.outputIndex.Keys
  }

  lemma Divide(t: string, a: string, b: string)
    requires t == a + b
    ensures |a| <= |t| && t[..|a|] == a && t[|a|..] == b
  {
  }

  lemma OnePieceOn(c: Codec, ok: Block -> bool, s: string, d: nat, inj: Injector, out: string, b: nat, w: nat, inj': Injector)
    returns (w': nat)
    requires Lawful(c, ok) && Standing(c, s, d, inj, out, b, w, inj')
    ensures var d' := NextCut(s, d);
      var first := Render(c, inj, s[d..d']);
      && w < w' <= |out| && CameOut(c, ok, s, d, d', out, w, w') && out[w..w'] == first.text
      && out[w'..] == (if d' == |s| then "" else RenderAll(c, first.inj, SplitFrom(s, d')).text)
      && (d' < |s| ==> w' < |out|)
      && forall q | b < q < w' :: !BlankEndsAt(out, q)
  {
    hide RenderAll, SplitFrom, Render, Lawful, FrameText, BlankEndsAt, Width;
    var d' := NextCut(s, d);
    var first := Render(c, inj, s[d..d']);
    w' := w + |first.text|;
    FirstPassStep(c, inj, s, d);
    RenderedAgain(c, ok, inj, inj, s[d..d']);
    Divide(out[w..], first.text, if d' == |s| then "" else RenderAll(c, first.inj, SplitFrom(s, d')).text);
    assert out[w..][..|first.text|] == out[w..w'] && out[w..][|first.text|..] == out[w'..];
    PieceHasNoBoundary(c, ok, s, d, d', out, w, w');
    if d' < |s| { SomethingComesOut(c, ok, first.inj, s, d'); }
  }

  lemma {:induction false} SecondPass(c: Codec, ok: Block -> bool, s: string, d: nat, inj: Injector,
                                      out: string, b: nat, w: nat, inj': Injector)
    requires Lawful(c, ok) && Standing(c, s, d, inj, out, b, w, inj')
    ensures RenderAll(c, inj', SplitFrom(out, b)).text == out[b..]
    decreases |s| - d
  {
    hide RenderAll, SplitFrom, Render, CameOut, Lawful, Abreast, FrameText, BlankEndsAt, Newline, NextCut;
    var d' := NextCut(s, d);
    var first := Render(c, inj, s[d..d']);
    var w' := OnePieceOn(c, ok, s, d, inj, out, b, w, inj');
    SecondPassPiece(c, ok, inj, inj', s[d..d'], out, b, w, w');
    var again := Render(c, inj', out[b..w']);
    assert out[b..] == out[b..w'] + out[w'..];
    FirstPassStep(c, inj', out, b);
    if d' == |s| {
      NextCutIs(out, b, |out|);
    } else {
      AbreastAgain(c, ok, s, d, d', out, w, w');
      assert Newline(out[w]) ==> b < w || Newline(out[b]);
      if BlankEndsAt(out, w') {
        NextCutIs(out, b, w');
        SecondPass(c, ok, s, d', first.inj, out, w', w', again.inj);
      } else {
        SecondPass(c, ok, s, d', first.inj, out, b, w', inj');
      }
    }
  }

  /** Repairing a repaired text changes nothing, whatever the text and wherever its frames are cut. */
  lemma TextRepairIsIdempotent(c: Codec, ok: Block -> bool, input: string)
    requires Lawful(c, ok)
    ensures RepairText(c, RepairText(c, input)) == RepairText(c, input)
  {
    var out := RepairText(c, input);
    if input == "" {
      assert Split("") == [""] && c.decode("").None?;
      assert RenderAll(c, FRESH, [""]).text == "" + "";
    } else {
      assert out[0..] == out;
      SecondPass(c, ok, input, 0, FRESH, out, 0, 0, FRESH);
    }
  }

  /** A third newline can make the stream and the whole-text form differ: the stream keeps it in front
      of the next frame, which then no longer decodes. */
  lemma ThirdNewlineMatters(c: Codec, frame: string)
    requires c.decode("a\n\n").None? && c.decode("\n").None? && c.decode("\n" + frame).None?
    requires frame != "" && !Newline(frame[0]) && forall q :: !BlankEndsAt(frame, q)
    requires Render(c, FRESH, frame).text != frame
    ensures ThreeNewlines("a\n\n\n" + frame)
    ensures StreamText(c, "a\n\n\n" + frame) != RepairText(c, "a\n\n\n" + frame)
  {
    var s := "a\n\n\n" + frame;
    assert At(s, LF3, 1);
    SplitCutsTwice(frame);
    StreamCutsOnce(frame);
    StreamKeepsIt(c, frame);
    SplitRepairsIt(c, frame);
  }

  lemma FrameHasNoBoundary(frame: string, q: int)
    requires frame != "" && !Newline(frame[0]) && !BlankEndsAt(frame, q - 4) && q > 4
    ensures !BlankEndsAt("a\n\n\n" + frame, q)
  {
    var s := "a\n\n\n" + frame;
    assert s[4] == frame[0] && s[4..] == frame;
    if q <= |s| { BoundaryInTail(s, 4, q); }
  }

  lemma SplitCutsTwice(frame: string)
    requires frame != "" && !Newline(frame[0]) && forall q :: !BlankEndsAt(frame, q)
    ensures Split("a\n\n\n" + frame) == ["a\n\n", "\n", frame]
  {
    var s := "a\n\n\n" + frame;
    forall q | 4 < q ensures !BlankEndsAt(s, q) { FrameHasNoBoundary(frame, q); }
    assert s[0] == 'a' && s[1] == '\n' && s[2] == '\n' && s[3] == '\n';
    NextCutIs(s, 0, 3);
    NextCutIs(s, 3, 4);
    NextCutIs(s, 4, |s|);
    assert s[0..3] == "a\n\n" && s[3..4] == "\n" && s[4..] == frame;
    assert SplitFrom(s, 4) == [frame] && SplitFrom(s, 3) == ["\n"] + [frame];
  }

  lemma StreamCutsOnce(frame: string)
    requires frame != "" && !Newline(frame[0]) && forall q :: !BlankEndsAt(frame, q)
    ensures Frames("a\n\n\n" + frame) == ["a\n\n", "\n" + frame]
  {
    var s, t := "a\n\n\n" + frame, "\n" + frame;
    assert s[0..] == s && s[3..] == t && s[0..3] == "a\n\n";
    assert s[0] == 'a' && s[1] == '\n' && s[2] == '\n';
    NextCutIs(s, 0, 3);
    AgreesOnOneCut(s, 0, 3);
    assert t[1..] == frame && t[1] == frame[0];
    forall q ensures !BlankEndsAt(t, q) {
      if 1 <= q <= |t| { BoundaryInTail(t, 1, q); assert !BlankEndsAt(frame, q - 1); }
    }
    FirstEndIsEarliest(t);
    NothingToCut(t);
  }

  lemma StreamKeepsIt(c: Codec, frame: string)
    requires c.decode("a\n\n").None? && c.decode("\n" + frame).None?
    ensures RenderAll(c, FRESH, ["a\n\n", "\n" + frame]).text == "a\n\n\n" + frame
  {
    assert ["a\n\n", "\n" + frame][1..] == ["\n" + frame];
    assert RenderAll(c, FRESH, ["\n" + frame]).text == "\n" + frame + "";
  }

  lemma SplitRepairsIt(c: Codec, frame: string)
    requires c.decode("a\n\n").None? && c.decode("\n").None? && Render(c, FRESH, frame).text != frame
    ensures RenderAll(c, FRESH, ["a\n\n", "\n", frame]).text != "a\n\n\n" + frame
  {
    var text := Render(c, FRESH, frame).text;
    assert ["a\n\n", "\n", frame][1..] == ["\n", frame] && ["\n", frame][1..] == [frame];
    assert RenderAll(c, FRESH, [frame]).text == text + "";
    assert RenderAll(c, FRESH, ["\n", frame]).text == "\n" + text;
    assert RenderAll(c, FRESH, ["a\n\n", "\n", frame]).text == "a\n\n\n" + text;
    assert ("a\n\n\n" + text)[4..] == text && ("a\n\n\n" + frame)[4..] == frame;
  }
}
