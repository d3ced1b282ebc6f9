/** A codec that keeps the order of an object's members, as parsing and printing JSON does: a present key
    stays in its place, a missing one is appended. It meets the laws that repairing twice relies on. */
module SseCodec {
  import opened Prelude
  import opened SseFraming
  import opened SseRepair
  import opened SseTwice

  // ---- Numbers --------------------------------------------------------------------------

  function Digit(n: nat): char
    requires n < 10
  {
    '0' + n as char
  }

  function Digits(n: nat): string { if n < 10 then [Digit(n)] else Digits(n / 10) + [Digit(n % 10)] }

  predicate AllDigits(s: string) { forall i | 0 <= i < |s| :: '0' <= s[i] <= '9' }

  function ValueOf(s: string): nat
    requires AllDigits(s)
  {
    if s == "" then 0 else ValueOf(s[..|s| - 1]) * 10 + (s[|s| - 1] as nat - '0' as nat)
  }

  lemma {:induction false} DigitsRoundTrip(n: nat)
    ensures AllDigits(Digits(n)) && ValueOf(Digits(n)) == n
  {
    if n >= 10 {
      DigitsRoundTrip(n / 10);
      var s := Digits(n);
      assert s[..|s| - 1] == Digits(n / 10);
    }
  }

  function Read(text: string): Value {
    if AllDigits(text) && Digits(ValueOf(text)) == text then Number(ValueOf(text)) else Foreign(text)
  }

  function Show(v: Value): string {
    match v
    case Number(n) => if n >= 0 then Digits(n) else "-" + Digits(-n)
    case Foreign(text) => text
  }

  // ---- Members --------------------------------------------------------------------------

  datatype Member = Member(key: string, value: string)

  predicate Plain(s: string) { forall ch | ch in s :: ch !in {':', ',', '\n', '\r'} }

  predicate PlainMember(m: Member) { Plain(m.key) && Plain(m.value) }

  function Text(m: Member): string { m.key + ":" + m.value + "," }

  function Body(ms: seq<Member>): string { if ms == [] then "" else Text(ms[0]) + Body(ms[1..]) }

  // The first position of ch, or the length.
  function IndexOf(s: string, ch: char): (i: nat)
    ensures i <= |s| && (forall j | 0 <= j < i :: s[j] != ch) && (i < |s| ==> s[i] == ch)
  {
    if s == "" || s[0] == ch then 0 else 1 + IndexOf(s[1..], ch)
  }

  function ParseMember(s: string): Option<Member> {
    var comma := IndexOf(s, ',');
    var colon := IndexOf(s[..comma], ':');
    if comma == |s| || colon == comma then None
    else
      var m := Member(s[..colon], s[colon + 1..comma]);
      if PlainMember(m) then Some(m) else None
  }

  function ParseBody(s: string): Option<seq<Member>>
    decreases |s|
  {
    if s == "" then Some([])
    else
      var m := ParseMember(s);
      if m.None? then None
      else
        var more := ParseBody(s[IndexOf(s, ',') + 1..]);
        if more.None? then None else Some([m.value] + more.value)
  }

  predicate AllPlain(ms: seq<Member>) { forall m | m in ms :: PlainMember(m) }

  lemma IndexOfIs(s: string, ch: char, i: nat)
    requires i < |s| && s[i] == ch && forall j | 0 <= j < i :: s[j] != ch
    ensures IndexOf(s, ch) == i
  {
  }

  // The parts of a member's text.
  lemma TextParts(m: Member, s: string, rest: string)
    requires s == Text(m) + rest
    ensures var (k, comma) := (|m.key|, |Text(m)| - 1);
      && k < comma < |s| && s[..k] == m.key && s[k] == ':' && s[k + 1..comma] == m.value && s[comma] == ','
  {
    var t := Text(m);
    assert t[..|m.key|] == m.key && t[|m.key| + 1..|t| - 1] == m.value;
    assert s[..|t|] == t;
  }

  lemma ParseMemberOfText(m: Member, rest: string)
    requires PlainMember(m)
    ensures ParseMember(Text(m) + rest) == Some(m) && IndexOf(Text(m) + rest, ',') == |Text(m)| - 1
  {
    hide Text, IndexOf;
    var s, k, comma := Text(m) + rest, |m.key|, |Text(m)| - 1;
    TextParts(m, s, rest);
    forall j | 0 <= j < comma ensures s[j] != ',' {
      if j < k { assert s[j] == s[..k][j] && s[..k][j] in m.key; }
      if j > k { assert s[j] == s[k + 1..comma][j - k - 1] && s[k + 1..comma][j - k - 1] in m.value; }
    }
    IndexOfIs(s, ',', comma);
    forall j | 0 <= j < k ensures s[..comma][j] != ':' { assert s[j] == s[..k][j] && s[..k][j] in m.key; }
    IndexOfIs(s[..comma], ':', k);
  }

  lemma {:induction false} ParseBodyOfBody(ms: seq<Member>)
    requires AllPlain(ms)
    ensures ParseBody(Body(ms)) == Some(ms)
  {
    hide ParseMember, Text, PlainMember, IndexOf;
    if ms != [] {
      var s := Body(ms);
      ParseMemberOfText(ms[0], Body(ms[1..]));
      assert ms[0] in ms;
      ParseBodyOfBody(ms[1..]);
      assert s[|Text(ms[0])|..] == Body(ms[1..]);
      assert [ms[0]] + ms[1..] == ms;
    }
  }

  lemma CutInTwo(s: string, i: nat)
    requires i <= |s|
    ensures s == s[..i] + s[i..]
  {
  }

  lemma CutAt(s: string, colon: nat, comma: nat)
    requires colon < comma < |s| && s[colon] == ':' && s[comma] == ','
    ensures Text(Member(s[..colon], s[colon + 1..comma])) == s[..comma + 1]
  {
    var t, u := Text(Member(s[..colon], s[colon + 1..comma])), s[..comma + 1];
    assert |t| == |u|;
    forall i | 0 <= i < |u| ensures t[i] == u[i] {}
  }

  lemma TextOfParseMember(s: string)
    requires ParseMember(s).Some?
    ensures var comma := IndexOf(s, ',');
      comma < |s| && PlainMember(ParseMember(s).value) && Text(ParseMember(s).value) == s[..comma + 1]
  {
    hide IndexOf, Text, PlainMember;
    var comma := IndexOf(s, ',');
    var colon := IndexOf(s[..comma], ':');
    assert s[..comma][colon] == s[colon];
    CutAt(s, colon, comma);
  }

  lemma {:induction false} BodyOfParseBody(s: string)
    requires ParseBody(s).Some?
    ensures AllPlain(ParseBody(s).value) && Body(ParseBody(s).value) == s
    decreases |s|
  {
    hide ParseMember, Text, PlainMember;
    if s != "" {
      var comma := IndexOf(s, ',');
      TextOfParseMember(s);
      BodyOfParseBody(s[comma + 1..]);
      var m, more := ParseMember(s).value, ParseBody(s[comma + 1..]).value;
      assert ParseBody(s).value[1..] == more;
      CutInTwo(s, comma + 1);
    }
  }

  lemma {:induction false} BodyHasNoNewline(ms: seq<Member>)
    requires AllPlain(ms)
    ensures forall ch | ch in Body(ms) :: !Newline(ch)
  {
    if ms != [] {
      assert ms[0] in ms;
      BodyHasNoNewline(ms[1..]);
    }
  }

  function Lookup(ms: seq<Member>, key: string): Option<string> {
    if ms == [] then None else if ms[0].key == key then Some(ms[0].value) else Lookup(ms[1..], key)
  }

  lemma {:induction false} LookupOfConcat(a: seq<Member>, b: seq<Member>, key: string)
    ensures Lookup(a + b, key) == if Lookup(a, key).Some? then Lookup(a, key) else Lookup(b, key)
  {
    if a == [] {
      assert a + b == b;
    } else {
      assert (a + b)[1..] == a[1..] + b;
      LookupOfConcat(a[1..], b, key);
    }
  }

  // ---- The codec ------------------------------------------------------------------------

  const OUT := "output_index"
  const CONTENT := "content_index"

  function Index(ms: seq<Member>, key: string): Option<Value> {
    if Lookup(ms, key).Some? then Some(Read(Lookup(ms, key).value)) else None
  }

  // `rest` is the object as it was written.
  function EventOf(ms: seq<Member>): Event {
    Event(if Lookup(ms, "type").Some? then Lookup(ms, "type").value else "",
          Lookup(ms, "item"), Lookup(ms, "item_id"), Index(ms, OUT), Index(ms, CONTENT), Body(ms))
  }

  function Missing(ms: seq<Member>, key: string, v: Option<Value>): seq<Member> {
    if Lookup(ms, key).None? && v.Some? then [Member(key, Show(v.value))] else []
  }

  function Full(ms: seq<Member>, e: Event): seq<Member> {
    ms + Missing(ms, OUT, e.outputIndex) + Missing(ms, CONTENT, e.contentIndex)
  }

  const OPENING := "data:{"
  const CLOSING := "}\n\n"

  function Encode(b: Block): string {
    var ms := ParseBody(b.event.rest);
    OPENING + Body(Full(if ms.Some? then ms.value else [], b.event)) + CLOSING
  }

  function Decode(s: string): Option<Block> {
    if |s| < 9 || s[..6] != OPENING || s[|s| - 3..] != CLOSING then None
    else
      var ms := ParseBody(s[6..|s| - 3]);
      if ms.None? then None else Some(Block(None, EventOf(ms.value)))
  }

  const KEEPING_ORDER := Codec(Decode, Encode)

  // An index that is not in the text was filled in.
  predicate FilledOrRead(ms: seq<Member>, key: string, v: Option<Value>) {
    if Lookup(ms, key).Some? then v == Index(ms, key) else v.None? || (v.value.Number? && v.value.n >= 0)
  }

  predicate Fits(ms: seq<Member>, e: Event) {
    && AllPlain(ms) && e.rest == Body(ms)
    && LooksLike(e.(outputIndex := None, contentIndex := None), EventOf(ms).(outputIndex := None, contentIndex := None))
    && FilledOrRead(ms, OUT, e.outputIndex) && FilledOrRead(ms, CONTENT, e.contentIndex)
  }

  predicate Ok(b: Block) {
    var ms := ParseBody(b.event.rest);
    b.name.None? && ms.Some? && Fits(ms.value, b.event)
  }

  lemma DecodedIsOk(s: string)
    requires Decode(s).Some?
    ensures s[0] == 'd' && Ok(Decode(s).value) && Decode(s).value.event.rest == s[6..|s| - 3]
  {
    assert s[0] == s[..6][0];
    BodyOfParseBody(s[6..|s| - 3]);
  }

  lemma FilledIsOk(b: Block, inj: Injector)
    requires Ok(b)
    ensures Ok(b.(event := Fill(inj, b.event)))
  {
  }

  lemma DigitsArePlain(n: nat)
    ensures Plain(Digits(n)) && Read(Digits(n)) == Number(n)
  {
    DigitsRoundTrip(n);
  }

  // The index reads back from the full object, and nothing is missing from it any more.
  lemma FullReadsBack(ms: seq<Member>, e: Event)
    requires Fits(ms, e)
    ensures var full := Full(ms, e);
      && AllPlain(full)
      && (forall key | key != OUT && key != CONTENT :: Lookup(full, key) == Lookup(ms, key))
      && Index(full, OUT) == e.outputIndex && Index(full, CONTENT) == e.contentIndex
  {
    hide Read, Show, Digits, LooksLike, Body, FilledOrRead, Lookup, Index;
    var out, content := Missing(ms, OUT, e.outputIndex), Missing(ms, CONTENT, e.contentIndex);
    MissingReadsBack(ms, OUT, e.outputIndex);
    MissingReadsBack(ms, CONTENT, e.contentIndex);
    OneKey(out, OUT, content, CONTENT);
    forall key ensures Lookup(Full(ms, e), key) ==
      if Lookup(ms, key).Some? then Lookup(ms, key) else if Lookup(out, key).Some? then Lookup(out, key) else Lookup(content, key)
    {
      LookupOfConcat(ms + out, content, key);
      LookupOfConcat(ms, out, key);
    }
    IndexOfFull(ms, Full(ms, e), out, OUT, e.outputIndex);
    IndexOfFull(ms, Full(ms, e), content, CONTENT, e.contentIndex);
  }

  lemma IndexOfFull(ms: seq<Member>, full: seq<Member>, added: seq<Member>, key: string, v: Option<Value>)
    requires FilledOrRead(ms, key, v) && (Lookup(ms, key).None? ==> Index(added, key) == v)
    requires Lookup(full, key) == if Lookup(ms, key).Some? then Lookup(ms, key) else Lookup(added, key)
    ensures Index(full, key) == v
  {
    hide Lookup, Read;
  }

  lemma MissingReadsBack(ms: seq<Member>, key: string, v: Option<Value>)
    requires FilledOrRead(ms, key, v) && Plain(key)
    ensures AllPlain(Missing(ms, key, v))
    ensures Lookup(ms, key).None? ==> Index(Missing(ms, key, v), key) == v
  {
    if Lookup(ms, key).None? && v.Some? { DigitsArePlain(v.value.n); }
  }

  lemma OneKey(a: seq<Member>, ka: string, b: seq<Member>, kb: string)
    requires |a| <= 1 && |b| <= 1 && ka != kb
    requires (a != [] ==> a[0].key == ka) && (b != [] ==> b[0].key == kb)
    ensures forall key | key != ka :: Lookup(a, key).None?
    ensures forall key | key != kb :: Lookup(b, key).None?
    ensures Lookup(a, ka) == (if a == [] then None else Some(a[0].value)) && Lookup(b, kb) == (if b == [] then None else Some(b[0].value))
  {
    if a != [] { assert a[1..] == []; }
    if b != [] { assert b[1..] == []; }
  }

  lemma NothingMissing(ms: seq<Member>, e: Event)
    requires Index(ms, OUT) == e.outputIndex && Index(ms, CONTENT) == e.contentIndex
    ensures Full(ms, e) == ms
  {
  }

  // The parts of a frame, letter by letter.
  lemma FrameParts(body: string)
    ensures var t := OPENING + body + CLOSING;
      && |t| == |body| + 9 && t[..6] == OPENING && t[|t| - 3..] == CLOSING && t[6..|t| - 3] == body
      && t[0] == 'd' && t[|t| - 3] == '}' && t[|t| - 2] == '\n' && t[|t| - 1] == '\n'
  {
    var t := OPENING + body + CLOSING;
    assert t[..6] == OPENING && t[|t| - 3..] == CLOSING;
  }

  lemma OneLine(body: string)
    requires forall ch | ch in body :: !Newline(ch)
    ensures FrameText(OPENING + body + CLOSING)
  {
    var t := OPENING + body + CLOSING;
    FrameParts(body);
    forall i | 0 <= i < |t| - 2 ensures !Newline(t[i]) {
      if i < 6 { assert t[i] == OPENING[i]; }
      if 6 <= i < |t| - 3 { assert t[i] == body[i - 6] && body[i - 6] in body; }
    }
  }

  lemma EncodedIsFrame(ms: seq<Member>)
    requires AllPlain(ms)
    ensures var t := OPENING + Body(ms) + CLOSING;
      FrameText(t) && Decode(t) == Some(Block(None, EventOf(ms)))
  {
    hide FrameText, Body, ParseBody, AllPlain, EventOf;
    BodyHasNoNewline(ms);
    OneLine(Body(ms));
    FrameParts(Body(ms));
    ParseBodyOfBody(ms);
  }

  lemma EncodedReadsBack(b: Block)
    requires Ok(b)
    ensures FrameText(Encode(b)) && Decode(Encode(b)).Some?
    ensures LooksLike(b.event, Decode(Encode(b)).value.event) && Encode(Decode(Encode(b)).value) == Encode(b)
  {
    hide Full, Index, FilledOrRead, Body, ParseBody, FrameText, Decode, AllPlain, Lookup;
    var ms := ParseBody(b.event.rest).value;
    var full := Full(ms, b.event);
    FullReadsBack(ms, b.event);
    EncodedIsFrame(full);
    ParseBodyOfBody(full);
    NothingMissing(full, EventOf(full));
  }

  /** The laws can be met: a codec that keeps the order of keys and appends missing ones meets them. */
  lemma KeepingOrderIsLawful()
    ensures Lawful(KEEPING_ORDER, Ok)
  {
    var c := KEEPING_ORDER;
    forall s | c.decode(s).Some? ensures s != "" && !Newline(s[0]) && Ok(c.decode(s).value) { DecodedIsOk(s); }
    forall b, inj | Ok(b) ensures Ok(b.(event := Fill(inj, b.event))) { FilledIsOk(b, inj); }
    forall b | Ok(b)
      ensures FrameText(c.encode(b)) && c.decode(c.encode(b)).Some? &&
        LooksLike(b.event, c.decode(c.encode(b)).value.event) && c.encode(c.decode(c.encode(b)).value) == c.encode(b)
    {
      EncodedReadsBack(b);
    }
  }

  /** A conformant frame, wherever its indices stand among the keys, comes out as it went in. */
  lemma OrderIsKept(s: string)
    requires Decode(s).Some?
    ensures Encode(Decode(s).value) == s
  {
    var ms := ParseBody(s[6..|s| - 3]).value;
    BodyOfParseBody(s[6..|s| - 3]);
    ParseBodyOfBody(ms);
    NothingMissing(ms, EventOf(ms));
    assert s == s[..6] + s[6..|s| - 3] + s[|s| - 3..];
  }

  /** With this codec, as with every lawful one, repairing a repaired text changes nothing. */
  lemma TextRepairIsIdempotentHere(input: string)
    ensures RepairText(KEEPING_ORDER, RepairText(KEEPING_ORDER, input)) == RepairText(KEEPING_ORDER, input)
  {
    KeepingOrderIsLawful();
    TextRepairIsIdempotent(KEEPING_ORDER, Ok, input);
  }
}
