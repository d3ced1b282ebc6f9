/** Cutting an SSE text into frames at blank lines (section 9.2 of the WHATWG HTML standard): the way the
    stream does it, on whatever has arrived, and the way the whole-text form does it, with a lookbehind
    split. */
module SseFraming {
  import opened Prelude

  // A blank line, LF or CRLF, ends at position p.
  predicate BlankEndsAt(s: string, p: int) {
    || (2 <= p <= |s| && s[p - 2] == '\n' && s[p - 1] == '\n')
    || (4 <= p <= |s| && s[p - 4] == '\r' && s[p - 3] == '\n' && s[p - 2] == '\r' && s[p - 1] == '\n')
  }

  function Width(s: string, p: int): nat
    requires BlankEndsAt(s, p)
  {
    if s[p - 2] == '\n' then 2 else 4
  }

  // ---- The regular expression -----------------------------------------------------------

  // The length of the boundary that starts at position i, or 0.
  function MatchAt(s: string, i: nat): nat {
    if i + 4 <= |s| && s[i] == '\r' && s[i + 1] == '\n' && s[i + 2] == '\r' && s[i + 3] == '\n' then 4
    else if i + 2 <= |s| && s[i] == '\n' && s[i + 1] == '\n' then 2
    else 0
  }

  // The end of the leftmost match at or after i.
  function Exec(s: string, i: nat): Option<nat>
    decreases |s| - i
  {
    if i >= |s| then None
    else if MatchAt(s, i) > 0 then Some(i + MatchAt(s, i))
    else Exec(s, i + 1)
  }

  function FirstEnd(s: string): Option<nat> { Exec(s, 0) }

  lemma {:induction false} ExecFindsFirst(s: string, i: nat)
    requires forall k | 0 <= k < i && k < |s| :: MatchAt(s, k) == 0
    ensures match Exec(s, i)
      case Some(p) => exists k :: 0 <= k < |s| && MatchAt(s, k) > 0 && p == k + MatchAt(s, k) && forall j | 0 <= j < k :: MatchAt(s, j) == 0
      case None => forall k | 0 <= k < |s| :: MatchAt(s, k) == 0
    decreases |s| - i
  {
    if i < |s| && MatchAt(s, i) == 0 { ExecFindsFirst(s, i + 1); }
  }

  /** The match that starts first is also the one that ends first. */
  lemma FirstEndIsEarliest(s: string)
    ensures match FirstEnd(s)
      case Some(p) => 0 < p <= |s| && BlankEndsAt(s, p) && forall q | q < p :: !BlankEndsAt(s, q)
      case None => forall q :: !BlankEndsAt(s, q)
  {
    ExecFindsFirst(s, 0);
    forall q ensures BlankEndsAt(s, q) ==> MatchAt(s, q - Width(s, q)) == Width(s, q) {}
  }

  // ---- The stream's frames --------------------------------------------------------------

  datatype Drained = Drained(frames: seq<string>, rest: string)

  // All complete frames of the buffer, and what is left of it.
  function Drain(s: string): Drained
    decreases |s|
  {
    FirstEndIsEarliest(s);
    match FirstEnd(s)
    case None => Drained([], s)
    case Some(p) => var d := Drain(s[p..]); Drained([s[..p]] + d.frames, d.rest)
  }

  // Flushing hands over what is left, if anything is.
  function Flushed(rest: string): seq<string> { if rest != "" then [rest] else [] }

  function Frames(s: string): seq<string> { Drain(s).frames + Flushed(Drain(s).rest) }

  function Concat(pieces: seq<string>): string { if pieces == [] then "" else pieces[0] + Concat(pieces[1..]) }

  lemma FirstEndOfPrefix(s: string, t: string)
    requires FirstEnd(s).Some?
    ensures FirstEnd(s + t) == FirstEnd(s)
  {
    FirstEndIsEarliest(s);
    FirstEndIsEarliest(s + t);
    forall q | q <= |s| ensures BlankEndsAt(s + t, q) <==> BlankEndsAt(s, q) {}
  }

  /** What has been cut off already does not depend on what arrives later. */
  lemma {:induction false} DrainInTwoSteps(s: string, t: string)
    ensures Drain(s + t).frames == Drain(s).frames + Drain(Drain(s).rest + t).frames
    ensures Drain(s + t).rest == Drain(Drain(s).rest + t).rest
    decreases |s|
  {
    if FirstEnd(s).Some? {
      FirstEndIsEarliest(s);
      var p := FirstEnd(s).value;
      FirstEndOfPrefix(s, t);
      assert (s + t)[p..] == s[p..] + t && (s + t)[..p] == s[..p];
      DrainInTwoSteps(s[p..], t);
      assert Drain(s + t).frames == [s[..p]] + Drain(s[p..] + t).frames;
    }
  }

  // The buffer after a series of chunks, with every frame cut off on the way.
  function Feed(buffer: string, chunks: seq<string>): Drained
    decreases |chunks|
  {
    if chunks == [] then Drained([], buffer)
    else
      var d := Drain(buffer + chunks[0]);
      var more := Feed(d.rest, chunks[1..]);
      Drained(d.frames + more.frames, more.rest)
  }

  lemma {:induction false} DrainedHasNoBoundary(s: string)
    ensures FirstEnd(Drain(s).rest).None?
    decreases |s|
  {
    FirstEndIsEarliest(s);
    if FirstEnd(s).Some? { DrainedHasNoBoundary(s[FirstEnd(s).value..]); }
  }

  lemma NothingToCut(buffer: string)
    requires FirstEnd(buffer).None?
    ensures Drain(buffer) == Drained([], buffer)
  {
  }

  predicate EndsWith(s: string, word: string) { |word| <= |s| && s[|s| - |word|..] == word }

  predicate EndsBlank(s: string) { EndsWith(s, "\n\n") || EndsWith(s, "\r\n\r\n") }

  // Ends in a blank line, and no shorter beginning of it does.
  predicate IsFrame(s: string) { EndsBlank(s) && forall p | 0 <= p < |s| :: !EndsBlank(s[..p]) }

  predicate Unfinished(s: string) { forall p | 0 <= p <= |s| :: !EndsBlank(s[..p]) }

  lemma BlankEndsExactly(s: string, p: nat)
    requires p <= |s|
    ensures EndsBlank(s[..p]) <==> BlankEndsAt(s, p)
  {
    var t := s[..p];
    if p >= 2 { assert t[p - 2..] == [s[p - 2], s[p - 1]]; }
    if p >= 4 { assert t[p - 4..] == [s[p - 4], s[p - 3], s[p - 2], s[p - 1]]; }
  }

  lemma FirstFrameExactly(s: string)
    ensures match FirstEnd(s)
      case Some(p) => 0 < p <= |s| && IsFrame(s[..p])
      case None => Unfinished(s)
  {
    FirstEndIsEarliest(s);
    hide FirstEnd, EndsBlank;
    forall p | 0 <= p <= |s| ensures EndsBlank(s[..p]) <==> BlankEndsAt(s, p) { BlankEndsExactly(s, p); }
    if FirstEnd(s).Some? {
      var p := FirstEnd(s).value;
      forall q | 0 <= q < p ensures s[..p][..q] == s[..q] {}
    }
  }

  // A text begins with one frame at most.
  lemma FrameIsFirst(s: string, frame: string, rest: string)
    requires s == frame + rest && IsFrame(frame)
    ensures FirstEnd(s) == Some(|frame|)
  {
    FirstFrameExactly(s);
    hide FirstEnd, EndsBlank;
    assert s[..|frame|] == frame;
    forall q | 0 <= q <= |frame| ensures s[..q] == frame[..q] {}
    forall p, q | 0 <= q <= p <= |s| ensures s[..p][..q] == s[..q] {}
  }

  /** The frames are the only way to cut the text into pieces that each end in a blank line, LF or CRLF, and
      not before, and a rest without one. */
  lemma {:induction false} FramesExactly(s: string, frames: seq<string>, rest: string)
    ensures Drain(s) == Drained(frames, rest) <==>
      s == Concat(frames) + rest && (forall f | f in frames :: IsFrame(f)) && Unfinished(rest)
    decreases |s|
  {
    hide IsFrame, Unfinished, FirstEnd;
    FirstFrameExactly(s);
    if frames != [] {
      assert Concat(frames) + rest == frames[0] + (Concat(frames[1..]) + rest);
      assert frames == [frames[0]] + frames[1..];
    }
    if FirstEnd(s).None? {
      assert Concat([]) + rest == rest;
      if frames != [] && s == Concat(frames) + rest && IsFrame(frames[0]) {
        FrameIsFirst(s, frames[0], Concat(frames[1..]) + rest);
      }
    } else {
      var p := FirstEnd(s).value;
      assert s == s[..p] + s[p..];
      if frames == [] {
        assert Concat([]) + rest == rest;
        NotUnfinished(s, p);
      } else {
        FramesExactly(s[p..], frames[1..], rest);
        if s == Concat(frames) + rest && IsFrame(frames[0]) { FrameIsFirst(s, frames[0], Concat(frames[1..]) + rest); }
      }
    }
  }

  lemma NotUnfinished(s: string, p: nat)
    requires p <= |s| && IsFrame(s[..p])
    ensures !Unfinished(s)
  {
  }

  /** However the text is cut into chunks, the frames are the same. */
  lemma {:induction false} ChunkingDoesNotMatter(buffer: string, chunks: seq<string>)
    requires FirstEnd(buffer).None?
    ensures Feed(buffer, chunks) == Drain(buffer + Concat(chunks))
    decreases |chunks|
  {
    hide Drain;
    if chunks == [] {
      NothingToCut(buffer);
      assert buffer + "" == buffer;
    } else {
      var first := buffer + chunks[0];
      DrainedHasNoBoundary(first);
      ChunkingDoesNotMatter(Drain(first).rest, chunks[1..]);
      JoinSteps(first, Concat(chunks[1..]));
      assert buffer + Concat(chunks) == first + Concat(chunks[1..]);
    }
  }

  lemma JoinSteps(s: string, t: string)
    ensures var more := Drain(Drain(s).rest + t); Drain(s + t) == Drained(Drain(s).frames + more.frames, more.rest)
  {
    DrainInTwoSteps(s, t);
  }

  // ---- The lookbehind split -------------------------------------------------------------

  // The next place after c, before the end, that a blank line precedes; the end if there is none.
  function NextCut(s: string, c: nat): (p: nat)
    requires c <= |s|
    ensures c <= p <= |s| && (c < |s| ==> c < p)
    ensures p < |s| ==> BlankEndsAt(s, p)
    ensures forall q | c < q < p :: !BlankEndsAt(s, q)
    decreases |s| - c
  {
    if c + 1 >= |s| then |s|
    else if BlankEndsAt(s, c + 1) then c + 1
    else NextCut(s, c + 1)
  }

  function SplitFrom(s: string, c: nat): seq<string>
    requires c <= |s|
    decreases |s| - c
  {
    var p := NextCut(s, c);
    if p == |s| then [s[c..]] else [s[c..p]] + SplitFrom(s, p)
  }

  function Split(s: string): seq<string> { SplitFrom(s, 0) }

  // ---- When the two agree ---------------------------------------------------------------

  // Two blank lines that share characters, the later ending before the end of the text.
  ghost predicate OverlapFrom(s: string, c: int) {
    exists p, q :: c <= p < q < |s| && BlankEndsAt(s, p) && BlankEndsAt(s, q) && q - Width(s, q) < p
  }

  lemma BoundaryInTail(s: string, c: nat, q: int)
    requires c <= q <= |s|
    ensures BlankEndsAt(s[c..], q - c) <==> BlankEndsAt(s, q) && q - Width(s, q) >= c
  {
  }

  lemma NoCutAgrees(s: string, c: nat)
    requires c < |s| && NextCut(s, c) == |s|
    ensures Frames(s[c..]) == [s[c..]] && !OverlapFrom(s, c)
  {
    var t := s[c..];
    FirstEndIsEarliest(t);
    forall q | 0 < q < |t| ensures !BlankEndsAt(t, q) { BoundaryInTail(s, c, c + q); }
    FirstEndIsEarliest("");
    assert Drain("") == Drained([], "");
    if FirstEnd(t).Some? {
      assert FirstEnd(t).value == |t|;
      assert t[..|t|] == t && t[|t|..] == "";
      assert Drain(t).frames == [t] && Drain(t).rest == "";
    } else {
      assert Drain(t) == Drained([], t);
    }
  }

  // The stream passes over a boundary that starts before the last cut.
  lemma OverlapDisagrees(s: string, c: nat, p: nat)
    requires c < |s| && p == NextCut(s, c) < |s|
    requires !BlankEndsAt(s[c..], p - c)
    ensures Frames(s[c..]) != SplitFrom(s, c)
  {
    hide FirstEnd, Frames, SplitFrom, BlankEndsAt, Width;
    var t := s[c..];
    FirstEndIsEarliest(t);
    FirstFrame(t);
    assert |SplitFrom(s, c)[0]| == p - c by { FirstPiece(s, c); }
  }

  lemma FirstFrame(t: string)
    requires t != ""
    ensures Frames(t) != [] && Frames(t)[0] == if FirstEnd(t).Some? && FirstEnd(t).value <= |t| then t[..FirstEnd(t).value] else t
  {
    FirstEndIsEarliest(t);
    hide FirstEnd;
  }

  lemma FirstPiece(s: string, c: nat)
    requires c < |s|
    ensures SplitFrom(s, c) != [] && SplitFrom(s, c)[0] == s[c..NextCut(s, c)]
  {
  }

  lemma AgreesOnOneCut(s: string, c: nat, p: nat)
    requires c < |s| && p == NextCut(s, c) < |s|
    requires BlankEndsAt(s[c..], p - c)
    ensures Frames(s[c..]) == [s[c..p]] + Frames(s[p..])
  {
    var t := s[c..];
    FirstEndIsEarliest(t);
    forall q | 0 < q < p - c ensures !BlankEndsAt(t, q) { BoundaryInTail(s, c, c + q); }
    assert FirstEnd(t) == Some(p - c);
    assert t[..p - c] == s[c..p] && t[p - c..] == s[p..];
    assert Drain(t) == Drained([s[c..p]] + Drain(s[p..]).frames, Drain(s[p..]).rest);
  }

  lemma {:induction false} AgreeExactlyWithoutOverlapFrom(s: string, c: nat)
    requires c < |s| && (c == 0 || BlankEndsAt(s, c))
    ensures Frames(s[c..]) == SplitFrom(s, c) <==> !OverlapFrom(s, c)
    decreases |s| - c
  {
    var p := NextCut(s, c);
    if p == |s| {
      NoCutAgrees(s, c);
    } else {
      BoundaryInTail(s, c, p);
      if BlankEndsAt(s[c..], p - c) {
        AgreesOnOneCut(s, c, p);
        AgreeExactlyWithoutOverlapFrom(s, p);
        assert ([s[c..p]] + Frames(s[p..]))[1..] == Frames(s[p..]);
        assert ([s[c..p]] + SplitFrom(s, p))[1..] == SplitFrom(s, p);
        OverlapFromNextCut(s, c, p);
      } else {
        OverlapDisagrees(s, c, p);
        assert BlankEndsAt(s, c) && BlankEndsAt(s, p) && p - Width(s, p) < c;
      }
    }
  }

  lemma OverlapFromNextCut(s: string, c: nat, p: nat)
    requires c < |s| && p == NextCut(s, c) < |s| && p - Width(s, p) >= c
    ensures OverlapFrom(s, c) <==> OverlapFrom(s, p)
  {
    if OverlapFrom(s, c) {
      var a, b :| c <= a < b < |s| && BlankEndsAt(s, a) && BlankEndsAt(s, b) && b - Width(s, b) < a;
      if a < p {
        assert b >= p && b != p;
        assert BlankEndsAt(s, p) && BlankEndsAt(s, b) && b - Width(s, b) < p;
      }
    }
  }

  // A third newline, or a third CRLF, right after a blank line, and then something more.
  predicate At(s: string, pattern: string, i: int) { 0 <= i && i + |pattern| <= |s| && s[i..i + |pattern|] == pattern }

  ghost predicate OccursInside(s: string, pattern: string) { exists i :: At(s, pattern, i) && i + |pattern| < |s| }

  const LF3 := "\n\n\n"
  const CRLF2_LF := "\r\n\r\n\n"
  const CRLF3 := "\r\n\r\n\r\n"

  ghost predicate ThreeNewlines(s: string) {
    OccursInside(s, LF3) || OccursInside(s, CRLF2_LF) || OccursInside(s, CRLF3)
  }

  lemma OverlapIsThreeNewlines(s: string)
    ensures OverlapFrom(s, 0) <==> ThreeNewlines(s)
  {
    if OverlapFrom(s, 0) {
      var p, q :| 0 <= p < q < |s| && BlankEndsAt(s, p) && BlankEndsAt(s, q) && q - Width(s, q) < p;
      OverlapShowsThree(s, p, q);
    }
    if ThreeNewlines(s) { ThreeShowOverlap(s); }
  }

  lemma OverlapShowsThree(s: string, p: nat, q: nat)
    requires 0 <= p < q < |s| && BlankEndsAt(s, p) && BlankEndsAt(s, q) && q - Width(s, q) < p
    ensures ThreeNewlines(s)
  {
    if Width(s, q) == 2 {
      if Width(s, p) == 2 { assert At(s, LF3, p - 2); } else { assert At(s, CRLF2_LF, p - 4); }
    } else {
      assert At(s, CRLF3, p - 4);
    }
  }

  lemma ThreeShowOverlap(s: string)
    requires ThreeNewlines(s)
    ensures OverlapFrom(s, 0)
  {
    if i :| At(s, LF3, i) && i + 3 < |s| {
      Letters(s, LF3, i);
      assert s[i + 0] == LF3[0] && s[i + 1] == LF3[1] && s[i + 2] == LF3[2];
      assert BlankEndsAt(s, i + 2) && BlankEndsAt(s, i + 3);
    } else if i :| At(s, CRLF2_LF, i) && i + 5 < |s| {
      Letters(s, CRLF2_LF, i);
      assert s[i + 0] == CRLF2_LF[0] && s[i + 1] == CRLF2_LF[1] && s[i + 2] == CRLF2_LF[2];
      assert s[i + 3] == CRLF2_LF[3] && s[i + 4] == CRLF2_LF[4];
      assert BlankEndsAt(s, i + 4) && BlankEndsAt(s, i + 5);
    } else {
      var i :| At(s, CRLF3, i) && i + 6 < |s|;
      Letters(s, CRLF3, i);
      assert s[i + 0] == CRLF3[0] && s[i + 1] == CRLF3[1] && s[i + 2] == CRLF3[2];
      assert s[i + 3] == CRLF3[3] && s[i + 4] == CRLF3[4] && s[i + 5] == CRLF3[5];
      assert BlankEndsAt(s, i + 4) && BlankEndsAt(s, i + 6);
    }
  }

  lemma Letters(s: string, pattern: string, i: int)
    requires At(s, pattern, i)
    ensures forall k | 0 <= k < |pattern| :: s[i + k] == pattern[k]
  {
    forall k | 0 <= k < |pattern| ensures s[i + k] == pattern[k] {
      assert s[i + k] == s[i..i + |pattern|][k];
    }
  }

  /** The stream and the lookbehind split cut a text into the same pieces exactly when no third newline
      follows a blank line inside the text. */
  lemma SameFramesExactlyWithoutThirdNewline(s: string)
    requires s != ""
    ensures Frames(s) == Split(s) <==> !ThreeNewlines(s)
  {
    assert s[0..] == s;
    AgreeExactlyWithoutOverlapFrom(s, 0);
    OverlapIsThreeNewlines(s);
  }
}
