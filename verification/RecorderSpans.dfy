/** Span conservation: no span is ended twice or held after it ended, and none is lost unless a live
    entry is overwritten. */
module RecorderSpans {
  import opened Prelude
  import opened Recorder

  // Ended at most once, and not held any more; held in one place at most.
  ghost predicate Safe(s: State) {
    && (forall e | e in s.ended :: s.ended[e] == 1 && e.span < s.nextSpan)
    && (forall e, f | e in s.ended && f in s.ended && e.span == f.span :: e == f)
    && (forall e, p | e in s.ended :: Held(s, p) != Some(e.span))
    && (forall p | Held(s, p).Some? :: Held(s, p).value < s.nextSpan)
    && (forall p, q | Held(s, p).Some? && Held(s, p) == Held(s, q) :: p == q)
  }

  ghost predicate Accounted(s: State, n: SpanId) {
    (exists p :: Held(s, p) == Some(n)) || (exists e :: e in s.ended && e.span == n)
  }

  // Every span started so far is held or has ended.
  ghost predicate Lossless(s: State) { forall n: SpanId | n < s.nextSpan :: Accounted(s, n) }

  // ---- What can happen to spans ---------------------------------------------------------

  lemma ClearHolds(s: State, places: set<Place>, p: Place)
    ensures Held(Clear(s, places), p) == if p in places then None else Held(s, p)
  {
  }

  lemma ClearEnds(s: State, places: set<Place>)
    requires Safe(s)
    ensures forall e | e in s.ended :: e !in Endings(s, places)
    ensures forall e :: Clear(s, places).ended[e] == s.ended[e] + if e in Endings(s, places) then 1 else 0
  {
  }

  // What the exporters have seen and what is held after the spans at these places ended.
  ghost predicate Closed(s: State, t: State, places: set<Place>) {
    && t.nextSpan == s.nextSpan
    && (forall p :: Held(t, p) == if p in places then None else Held(s, p))
    && (forall e :: t.ended[e] == s.ended[e] + if e.place in places && Held(s, e.place) == Some(e.span) then 1 else 0)
  }

  lemma ClearCloses(s: State, places: set<Place>)
    requires Safe(s)
    ensures Closed(s, Clear(s, places), places)
  {
    ClearEnds(s, places);
    hide Safe, Held;
    forall p ensures Held(Clear(s, places), p) == if p in places then None else Held(s, p) { ClearHolds(s, places, p); }
  }

  lemma ClosedEndOnce(s: State, t: State, places: set<Place>)
    requires Safe(s) && Closed(s, t, places)
    ensures forall e | e in t.ended :: t.ended[e] == 1 && e.span < t.nextSpan
    ensures forall e, f | e in t.ended && f in t.ended && e.span == f.span :: e == f
  {
    hide Held;
    forall e, f | e in t.ended && f in t.ended && e.span == f.span ensures e == f {
      assert e in s.ended || Held(s, e.place) == Some(e.span);
      assert f in s.ended || Held(s, f.place) == Some(f.span);
    }
  }

  lemma ClosedAreNotHeld(s: State, t: State, places: set<Place>, e: Ended, p: Place)
    requires Safe(s) && Closed(s, t, places) && e in t.ended
    ensures Held(t, p) != Some(e.span)
  {
    hide Held;
    assert e in s.ended || Held(s, e.place) == Some(e.span);
  }

  lemma ClearKeepsSafe(s: State, places: set<Place>)
    requires Safe(s)
    ensures Safe(Clear(s, places))
  {
    hide Held, Clear;
    var t := Clear(s, places);
    ClearCloses(s, places);
    ClosedEndOnce(s, t, places);
    forall e, p | e in t.ended ensures Held(t, p) != Some(e.span) { ClosedAreNotHeld(s, t, places, e, p); }
  }

  lemma ClearKeepsLossless(s: State, places: set<Place>)
    requires Safe(s) && Lossless(s)
    ensures Lossless(Clear(s, places))
  {
    var t := Clear(s, places);
    forall n: SpanId | n < s.nextSpan ensures Accounted(t, n) {
      assert Accounted(s, n);
      if p :| Held(s, p) == Some(n) {
        ClearHolds(s, places, p);
        if p in places { assert Ended(p, n) in Endings(s, places) && Ended(p, n) in t.ended; }
      } else {
        var e :| e in s.ended && e.span == n;
        assert e in t.ended;
      }
    }
  }

  ghost predicate SameSpans(s: State, t: State) {
    t.nextSpan == s.nextSpan && t.ended == s.ended && forall p :: Held(t, p) == Held(s, p)
  }

  lemma SameSpansKeep(s: State, t: State)
    requires SameSpans(s, t)
    ensures Safe(s) ==> Safe(t)
    ensures Lossless(s) ==> Lossless(t)
  {
    hide Held;
    if Lossless(s) {
      forall n: SpanId | n < t.nextSpan ensures Accounted(t, n) { assert Accounted(s, n); }
    }
  }

  // The entry at p is written over, with a new span or with none.
  ghost predicate WrittenAt(s: State, t: State, p: Place) {
    && t.ended == s.ended && (forall q | q != p :: Held(t, q) == Held(s, q))
    && (if Held(t, p).Some? then Held(t, p).value == s.nextSpan && t.nextSpan == s.nextSpan + 1 else t.nextSpan == s.nextSpan)
  }

  lemma WrittenIsNew(s: State, t: State, p: Place, q: Place)
    requires Safe(s) && WrittenAt(s, t, p) && Held(t, q).Some?
    ensures if q == p then Held(t, q).value == s.nextSpan else Held(t, q) == Held(s, q) && Held(s, q).value < s.nextSpan
  {
    hide Held;
  }

  lemma WriteKeepsSafe(s: State, t: State, p: Place)
    requires Safe(s) && WrittenAt(s, t, p)
    ensures Safe(t)
  {
    hide Held;
    assert t.ended == s.ended && s.nextSpan <= t.nextSpan;
    forall q | Held(t, q).Some?
      ensures if q == p then Held(t, q).value == s.nextSpan else Held(t, q) == Held(s, q) && Held(s, q).value < s.nextSpan
    {
      WrittenIsNew(s, t, p, q);
    }
    assert Held(t, p).Some? ==> t.nextSpan == s.nextSpan + 1;
    hide WrittenAt;
  }

  lemma WriteIntoFreeKeepsAll(s: State, t: State, p: Place)
    requires Lossless(s) && WrittenAt(s, t, p) && Held(s, p).None?
    ensures Lossless(t)
  {
    hide Held;
    forall n: SpanId | n < t.nextSpan ensures Accounted(t, n) {
      if n < s.nextSpan {
        assert Accounted(s, n);
      } else {
        assert Held(t, p) == Some(n);
      }
    }
  }

  lemma OverwrittenIsLost(s: State, t: State, p: Place)
    requires Safe(s) && WrittenAt(s, t, p) && Held(s, p).Some?
    ensures !Lossless(t)
  {
    hide Held;
    assert !Accounted(t, Held(s, p).value);
  }

  /** Writing over a place loses a span exactly when the place held one. */
  lemma WriteLosesExactly(s: State, t: State, p: Place)
    requires Safe(s) && WrittenAt(s, t, p)
    ensures Safe(t)
    ensures Lossless(s) ==> (Lossless(t) <==> Held(s, p).None?)
  {
    hide Held, Safe, Lossless, WrittenAt;
    WriteKeepsSafe(s, t, p);
    if Held(s, p).Some? { OverwrittenIsLost(s, t, p); }
    else if Lossless(s) { WriteIntoFreeKeepsAll(s, t, p); }
  }

  ghost predicate MovedTo(s: State, t: State, p: Place, q: Place) {
    && t.ended == s.ended && t.nextSpan == s.nextSpan && p != q
    && Held(s, q).None? && Held(t, q) == Held(s, p) && Held(t, p).None?
    && forall r | r != p && r != q :: Held(t, r) == Held(s, r)
  }

  // Where the span now at r was before the move from p to q.
  function Before(r: Place, p: Place, q: Place): Place { if r == q then p else r }

  lemma MoveKeepsSafe(s: State, t: State, p: Place, q: Place)
    requires Safe(s) && MovedTo(s, t, p, q)
    ensures Safe(t)
  {
    hide Held;
    forall r | Held(t, r).Some? ensures r != p && Held(s, Before(r, p, q)) == Held(t, r) {}
    forall r, u | Held(t, r).Some? && Held(t, r) == Held(t, u) ensures r == u {
      assert Held(s, Before(r, p, q)) == Held(s, Before(u, p, q));
    }
    forall e, r | e in t.ended ensures Held(t, r) != Some(e.span) {
      assert Held(s, Before(r, p, q)) != Some(e.span);
    }
  }

  lemma MoveKeeps(s: State, t: State, p: Place, q: Place)
    requires Safe(s) && MovedTo(s, t, p, q)
    ensures Safe(t) && (Lossless(s) ==> Lossless(t))
  {
    hide Held, Safe;
    MoveKeepsSafe(s, t, p, q);
    if Lossless(s) {
      forall n: SpanId | n < t.nextSpan ensures Accounted(t, n) {
        assert Accounted(s, n);
        if r :| Held(s, r) == Some(n) { assert Held(t, if r == p then q else r) == Some(n); }
      }
    }
  }

  // ---- The steps ------------------------------------------------------------------------

  ghost predicate Kept(s: State, t: State) { (Safe(s) ==> Safe(t)) && (Safe(s) && Lossless(s) ==> Lossless(t)) }

  lemma TouchKeeps(s: State, id: SessionId)
    ensures SameSpans(s, Touch(s, id)) && Kept(s, Touch(s, id))
  {
    SameSpansKeep(s, Touch(s, id));
  }

  lemma ClearKeeps(s: State, places: set<Place>)
    ensures Kept(s, Clear(s, places))
  {
    if Safe(s) {
      ClearKeepsSafe(s, places);
      if Lossless(s) { ClearKeepsLossless(s, places); }
    }
  }

  lemma AdoptionMoves(cfg: Config, s: State, m: MessageId, id: SessionId)
    requires m !in s.chats && id in s.pendingChats
    ensures MovedTo(s, EnsureChat(cfg, s, m, id), InPending(id), InChat(m))
  {
    forall q | q != InPending(id) && q != InChat(m) ensures Held(EnsureChat(cfg, s, m, id), q) == Held(s, q) { match q { case _ => } }
  }

  lemma NewChatWrites(cfg: Config, s: State, m: MessageId, id: SessionId)
    requires m !in s.chats && id !in s.pendingChats
    ensures WrittenAt(s, EnsureChat(cfg, s, m, id), InChat(m)) && Held(s, InChat(m)).None?
  {
    forall q | q != InChat(m) ensures Held(EnsureChat(cfg, s, m, id), q) == Held(s, q) { match q { case _ => } }
  }

  lemma EnsureChatKeeps(cfg: Config, s: State, m: MessageId, id: SessionId)
    ensures Kept(s, EnsureChat(cfg, s, m, id))
  {
    if Safe(s) && m !in s.chats {
      if id in s.pendingChats {
        AdoptionMoves(cfg, s, m, id);
        KeptByMove(s, EnsureChat(cfg, s, m, id), InPending(id), InChat(m));
      } else {
        NewChatWrites(cfg, s, m, id);
        KeptByWrite(s, EnsureChat(cfg, s, m, id), InChat(m));
      }
    }
  }

  lemma KeptByMove(s: State, t: State, p: Place, q: Place)
    requires MovedTo(s, t, p, q)
    ensures Kept(s, t)
  {
    if Safe(s) { MoveKeeps(s, t, p, q); }
  }

  lemma KeptByWrite(s: State, t: State, p: Place)
    requires WrittenAt(s, t, p) && Held(s, p).None?
    ensures Kept(s, t)
  {
    if Safe(s) { WriteLosesExactly(s, t, p); }
  }

  lemma KeptBySame(s: State, t: State)
    requires SameSpans(s, t)
    ensures Kept(s, t)
  {
    SameSpansKeep(s, t);
  }

  lemma KeptTwice(s: State, t: State, u: State)
    requires Kept(s, t) && Kept(t, u)
    ensures Kept(s, u)
  {
  }

  lemma FinalizeSpans(s: State, m: MessageId, id: SessionId)
    requires id in s.sessions
    ensures SameSpans(Clear(s, {InChat(m)}), Finalize(s, m, id))
  {
    var t := Clear(s, {InChat(m)});
    forall q ensures Held(Finalize(s, m, id), q) == Held(t, q) { match q { case _ => } }
  }

  lemma UpdateKeeps(cfg: Config, s: State, m: MessageId, id: SessionId, assistant: bool, completed: bool)
    ensures Kept(s, Update(cfg, s, m, id, assistant, completed))
  {
    hide Kept, Clear, Finalize, EnsureChat, Touch;
    KeptBySame(s, s);
    if assistant && m !in s.finalizedMessages {
      var t := EnsureChat(cfg, Touch(s, id), m, id);
      TouchKeeps(s, id);
      EnsureChatKeeps(cfg, Touch(s, id), m, id);
      KeptTwice(s, Touch(s, id), t);
      if completed {
        ClearKeeps(t, {InChat(m)});
        FinalizeSpans(t, m, id);
        KeptBySame(Clear(t, {InChat(m)}), Finalize(t, m, id));
        KeptTwice(t, Clear(t, {InChat(m)}), Finalize(t, m, id));
        KeptTwice(s, t, Finalize(t, m, id));
      }
    }
  }

  lemma OpenPendingKeeps(cfg: Config, s: State, id: SessionId)
    ensures Kept(s, OpenPending(cfg, s, id))
  {
    var u := Touch(s, id);
    TouchKeeps(s, id);
    ClearKeeps(u, {InPending(id)});
    PendingWrites(cfg, s, id);
    KeptByWrite(Clear(u, {InPending(id)}), OpenPending(cfg, s, id), InPending(id));
  }

  lemma PendingWrites(cfg: Config, s: State, id: SessionId)
    ensures var t := Clear(Touch(s, id), {InPending(id)});
      WrittenAt(t, OpenPending(cfg, s, id), InPending(id)) && Held(t, InPending(id)).None?
  {
    var t := Clear(Touch(s, id), {InPending(id)});
    forall q | q != InPending(id) ensures Held(OpenPending(cfg, s, id), q) == Held(t, q) { match q { case _ => } }
  }

  lemma FinishToolSpans(s: State, c: CallId, id: SessionId)
    requires c !in s.finishedTools
    ensures SameSpans(Clear(s, {InTool(c)}), FinishTool(s, c, id))
  {
    hide Clear, Touch;
    var t, owner := Clear(s, {InTool(c)}), OwnerOf(s, c, id);
    var u := t.(finishedTools := s.finishedTools[c := owner], counted := s.counted + multiset{Call(c)});
    assert SameSpans(t, u);
    if owner != "" { TouchKeeps(u, owner); }
  }

  lemma FinishToolKeeps(s: State, c: CallId, id: SessionId)
    ensures Kept(s, FinishTool(s, c, id))
  {
    if c !in s.finishedTools {
      var t := Clear(s, {InTool(c)});
      ClearKeeps(s, {InTool(c)});
      FinishToolSpans(s, c, id);
      KeptBySame(t, FinishTool(s, c, id));
    }
  }

  lemma ForgettingKeeps(s: State, id: SessionId)
    ensures Kept(s, Idle(s, id)) && Kept(s, Forget(s, id))
  {
    hide Safe, Lossless;
    if id in s.sessions {
      ClearKeeps(s, {InSession(id)});
      SameSpansKeep(Clear(s, {InSession(id)}), Idle(s, id));
    }
    ClearKeeps(s, PlacesOf(s, id));
    SameSpansKeep(Clear(s, PlacesOf(s, id)), Forget(s, id));
  }

  lemma {:induction false} ReportKeeps(s: State, id: SessionId, diff: seq<FileDiff>)
    ensures SameSpans(s, Report(s, id, diff))
  {
    if diff != [] { ReportKeeps(s, id, diff[..|diff| - 1]); }
  }

  lemma CompactionKeepsSafe(cfg: Config, s: State)
    requires Safe(s)
    ensures Safe(EndInstantly(cfg, s))
  {
    var t := EndInstantly(cfg, s);
    var e := Ended(Instant, s.nextSpan);
    assert forall p :: Held(t, p) == Held(s, p);
    hide Held;
    if cfg.tracing {
      assert e !in s.ended;
      assert forall f :: t.ended[f] == s.ended[f] + if f == e then 1 else 0;
    }
  }

  lemma CompactionKeeps(cfg: Config, s: State)
    ensures Kept(s, EndInstantly(cfg, s))
  {
    hide Safe;
    if Safe(s) { CompactionKeepsSafe(cfg, s); }
    var t := EndInstantly(cfg, s);
    assert forall p :: Held(t, p) == Held(s, p);
    hide Held;
    if Lossless(s) && cfg.tracing {
      forall n: SpanId | n < t.nextSpan ensures Accounted(t, n) {
        if n < s.nextSpan { EndingMoreKeepsAccounts(s, t, n); } else { assert Ended(Instant, n) in t.ended; }
      }
    }
  }

  lemma EndingMoreKeepsAccounts(s: State, t: State, n: SpanId)
    requires Accounted(s, n) && s.ended <= t.ended && forall p :: Held(t, p) == Held(s, p)
    ensures Accounted(t, n)
  {
    if p :| Held(s, p) == Some(n) {
      assert Held(t, p) == Some(n);
    } else {
      var e :| e in s.ended && e.span == n;
      assert e in t.ended;
    }
  }

  // The entry the step writes over, if it is one of the two that may be live.
  function Overwrites(st: Step): Option<Place> {
    match st
    case SessionCreated(id) => Some(InSession(id))
    case ToolBefore(c, _, _) => Some(InTool(c))
    case _ => None
  }

  // A live session is created once, a live call is started once.
  predicate Sound(s: State, st: Step) {
    Overwrites(st).Some? ==> Held(s, Overwrites(st).value).None?
  }

  lemma ToolWrites(s: State, c: CallId, tool: Tool, n: SpanId)
    ensures forall q | q != InTool(c) :: Held(s.(tools := s.tools[c := tool], nextSpan := n), q) == Held(s, q)
    ensures Held(s.(tools := s.tools[c := tool], nextSpan := n), InTool(c)) == tool.span
  {
  }

  lemma BeginWrites(cfg: Config, s: State, c: CallId, id: SessionId, tool: string)
    ensures WrittenAt(Touch(s, id), Begin(cfg, s, c, id, tool), InTool(c))
  {
    hide Touch;
    var t := Touch(s, id);
    if tool in cfg.filtered {
      ToolWrites(t, c, Tool(id, tool, None), t.nextSpan);
    } else {
      ToolWrites(t, c, Tool(id, tool, Opened(cfg, t)), AfterOpening(cfg, t));
    }
  }

  lemma CreateWrites(cfg: Config, s: State, id: SessionId)
    ensures WrittenAt(s, Create(cfg, s, id), InSession(id))
  {
    forall q | q != InSession(id) ensures Held(Create(cfg, s, id), q) == Held(s, q) { match q { case _ => } }
  }

  lemma OverwritingLosesExactly(cfg: Config, s: State, st: Step)
    requires Safe(s) && Overwrites(st).Some?
    ensures Safe(Apply(cfg, s, st))
    ensures Lossless(s) ==> (Lossless(Apply(cfg, s, st)) <==> Sound(s, st))
  {
    hide Safe, Lossless;
    if st.ToolBefore? {
      TouchKeeps(s, st.id);
      BeginWrites(cfg, s, st.call, st.id, st.tool);
      WriteLosesExactly(Touch(s, st.id), Apply(cfg, s, st), InTool(st.call));
    } else {
      CreateWrites(cfg, s, st.id);
      WriteLosesExactly(s, Apply(cfg, s, st), InSession(st.id));
    }
  }

  /** Every step keeps spans safe, whatever happens; a step loses a span exactly when it creates a
      session or starts a call whose entry still holds one. */
  lemma StepConservesSpansExactly(cfg: Config, s: State, st: Step)
    requires Safe(s)
    ensures Safe(Apply(cfg, s, st))
    ensures Lossless(s) ==> (Lossless(Apply(cfg, s, st)) <==> Sound(s, st))
  {
    hide Safe, Lossless;
    match st {
      case SessionCreated(_) => OverwritingLosesExactly(cfg, s, st);
      case ToolBefore(_, _, _) => OverwritingLosesExactly(cfg, s, st);
      case SessionIdle(id) => ForgettingKeeps(s, id);
      case SessionDeleted(id) => ForgettingKeeps(s, id);
      case Compacted(id) =>
        TouchKeeps(s, id);
        CompactionKeeps(cfg, Touch(s, id));
      case Noted(id) => TouchKeeps(s, id);
      case SessionDiff(id, diff) =>
        TouchKeeps(s, id);
        ReportKeeps(Touch(s, id), id, diff);
        SameSpansKeep(Touch(s, id), Report(Touch(s, id), id, diff));
      case MessageUpdated(m, id, assistant, completed) => UpdateKeeps(cfg, s, m, id, assistant, completed);
      case ChatParams(id) => OpenPendingKeeps(cfg, s, id);
      case ToolReported(c, id) => FinishToolKeeps(s, c, id);
      case Shutdown => ClearKeeps(s, AllPlaces(s));
    }
  }

  lemma NothingHeldYet()
    ensures Safe(START) && Lossless(START)
  {
  }

  /** In every run no span is ended twice or held after its end, and as long as live sessions are created
      once and live calls started once, every span is held in one place or has ended. */
  lemma {:induction false} SpansAreConserved(cfg: Config, tr: seq<State>, steps: seq<Step>, i: nat)
    requires IsRun(cfg, tr, steps) && i < |tr|
    ensures Safe(tr[i])
    ensures (forall k | 0 <= k < i :: Sound(tr[k], steps[k])) ==> Lossless(tr[i])
  {
    hide Safe, Lossless, Apply, Sound;
    if i == 0 {
      NothingHeldYet();
    } else {
      SpansAreConserved(cfg, tr, steps, i - 1);
      StepConservesSpansExactly(cfg, tr[i - 1], steps[i - 1]);
    }
  }

  ghost predicate AllClosed(s: State) { forall p :: Held(s, p).None? }

  ghost predicate EndedOnce(s: State, n: SpanId) {
    exists e :: e in s.ended && e.span == n && s.ended[e] == 1 && (forall f | f in s.ended && f.span == n :: f == e)
  }

  /** Shutdown leaves no span open: every span ever started has then ended exactly once. */
  lemma ShutdownEndsEverything(cfg: Config, tr: seq<State>, steps: seq<Step>, i: nat, n: SpanId)
    requires IsRun(cfg, tr, steps) && i < |steps| && steps[i] == Shutdown
    requires forall k | 0 <= k < i :: Sound(tr[k], steps[k])
    requires n < tr[i].nextSpan
    ensures AllClosed(tr[i + 1]) && EndedOnce(tr[i + 1], n)
  {
    hide Held, Clear;
    SpansAreConserved(cfg, tr, steps, i + 1);
    var s, t := tr[i], tr[i + 1];
    assert t == Clear(s, AllPlaces(s)) && t.nextSpan == s.nextSpan by { SameCounter(s, AllPlaces(s)); }
    forall p ensures Held(t, p).None? { EverythingIsSomewhere(s, p); }
    assert Sound(s, steps[i]);
    EndedWhenNotHeld(t, n);
  }

  lemma SameCounter(s: State, places: set<Place>)
    ensures Clear(s, places).nextSpan == s.nextSpan
  {
  }

  lemma EverythingIsSomewhere(s: State, p: Place)
    ensures Held(Clear(s, AllPlaces(s)), p).None?
  {
    ClearHolds(s, AllPlaces(s), p);
  }

  lemma EndedWhenNotHeld(t: State, n: SpanId)
    requires Safe(t) && Lossless(t) && AllClosed(t) && n < t.nextSpan
    ensures EndedOnce(t, n)
  {
    hide Held;
    assert Accounted(t, n);
    var e :| e in t.ended && e.span == n;
    assert t.ended[e] == 1;
  }
}
