/** The life of every span, step by step: where the step starts one, which ones it ends, moves or writes
    over, and that it leaves all others alone. Told by what is held, what has ended, and the span counter. */
module RecorderLife {
  import opened Prelude
  import opened Recorder

  // An update of an assistant message that is not known to be complete.
  predicate News(s: State, st: Step) { st.MessageUpdated? && st.assistant && st.message !in s.finalizedMessages }

  // It finds no chat of its message, and takes over the one opened ahead of it.
  predicate TakesOver(s: State, st: Step) {
    News(s, st) && st.message !in s.chats && st.id in s.pendingChats
  }

  // Where the step starts a span.
  function StartsAt(cfg: Config, s: State, st: Step): Option<Place> {
    if !cfg.tracing then None
    else match st
      case SessionCreated(id) => Some(InSession(id))
      case ChatParams(id) => Some(InPending(id))
      case ToolBefore(c, _, tool) => if tool in cfg.filtered then None else Some(InTool(c))
      case MessageUpdated(m, id, _, _) =>
        if News(s, st) && m !in s.chats && id !in s.pendingChats then Some(InChat(m)) else None
      case Compacted(_) => Some(Instant)
      case _ => None
  }

  // The step ends the span that is held at p.
  predicate EndsAt(s: State, st: Step, p: Place) {
    match p
    case InSession(id) => st == SessionIdle(id) || st == SessionDeleted(id) || st.Shutdown?
    case InPending(id) => st == ChatParams(id) || st == SessionDeleted(id) || st.Shutdown?
    case InChat(m) =>
      || st.Shutdown? || (News(s, st) && st.message == m && st.completed)
      || (st.SessionDeleted? && m in s.chats && s.chats[m].session == st.id)
    case InTool(c) =>
      || st.Shutdown? || (st.ToolReported? && st.call == c && c !in s.finishedTools)
      || (st.SessionDeleted? && c in s.tools && s.tools[c].session == st.id)
    case Instant => false
  }

  // The step writes over the entry at p.
  predicate WritesOver(st: Step, p: Place) {
    match p
    case InSession(id) => st == SessionCreated(id)
    case InTool(c) => st.ToolBefore? && st.call == c
    case _ => false
  }

  function HeldAfter(cfg: Config, s: State, st: Step, p: Place): Option<SpanId> {
    if p.InChat? && News(s, st) && st.message == p.message then
      if st.completed then None
      else if TakesOver(s, st) then Held(s, InPending(st.id))
      else if StartsAt(cfg, s, st) == Some(p) then Some(s.nextSpan) else Held(s, p)
    else if TakesOver(s, st) && p == InPending(st.id) then None
    else if StartsAt(cfg, s, st) == Some(p) && p != Instant then Some(s.nextSpan)
    else if EndsAt(s, st, p) || WritesOver(st, p) then None
    else Held(s, p)
  }

  predicate EndsNow(cfg: Config, s: State, st: Step, e: Ended) {
    || (EndsAt(s, st, e.place) && Held(s, e.place) == Some(e.span))
    || (News(s, st) && st.completed && e == Ended(InChat(st.message), s.nextSpan) && StartsAt(cfg, s, st) == Some(e.place))
    || (TakesOver(s, st) && st.completed && e.place == InChat(st.message) && Held(s, InPending(st.id)) == Some(e.span))
    || (StartsAt(cfg, s, st) == Some(Instant) && e == Ended(Instant, s.nextSpan))
  }

  ghost predicate Life(cfg: Config, s: State, st: Step, t: State) {
    && t.nextSpan == s.nextSpan + (if StartsAt(cfg, s, st).Some? then 1 else 0)
    && (forall p :: Held(t, p) == HeldAfter(cfg, s, st, p))
    && (forall e :: t.ended[e] == s.ended[e] + if EndsNow(cfg, s, st, e) then 1 else 0)
  }

  // ---- Proofs -------------------------------------------------------------------------------

  // The entries at `places` were dropped and their spans ended.
  ghost predicate Cleared(s: State, t: State, places: set<Place>) {
    && t.nextSpan == s.nextSpan
    && (forall p :: Held(t, p) == if p in places then None else Held(s, p))
    && (forall e :: t.ended[e] == s.ended[e] + if e.place in places && Held(s, e.place) == Some(e.span) then 1 else 0)
  }

  lemma ClearHolds(s: State, places: set<Place>, p: Place)
    ensures Held(Clear(s, places), p) == if p in places then None else Held(s, p)
  {
    hide Endings;
  }

  lemma ClearEnds(s: State, places: set<Place>, e: Ended)
    ensures Clear(s, places).ended[e] == s.ended[e] + if e.place in places && Held(s, e.place) == Some(e.span) then 1 else 0
  {
    hide Held;
    assert e in Endings(s, places) <==> e.place in places && Held(s, e.place) == Some(e.span);
  }

  lemma ClearClears(s: State, places: set<Place>)
    ensures Cleared(s, Clear(s, places), places)
  {
    var t := Clear(s, places);
    assert t.nextSpan == s.nextSpan;
    hide Held, Clear;
    forall p ensures Held(t, p) == if p in places then None else Held(s, p) { ClearHolds(s, places, p); }
    forall e ensures t.ended[e] == s.ended[e] + if e.place in places && Held(s, e.place) == Some(e.span) then 1 else 0 {
      ClearEnds(s, places, e);
    }
  }

  // Nothing about spans changed.
  ghost predicate SameSpans(s: State, t: State) {
    t.nextSpan == s.nextSpan && t.ended == s.ended && forall p :: Held(t, p) == Held(s, p)
  }

  lemma TouchIsSilent(s: State, id: SessionId)
    ensures SameSpans(s, Touch(s, id)) && id in Touch(s, id).sessions
    ensures Touch(s, id) == s.(sessions := Touch(s, id).sessions)
  {
  }

  lemma {:induction false} ReportIsSilent(s: State, id: SessionId, diff: seq<FileDiff>)
    ensures SameSpans(s, Report(s, id, diff))
  {
    if diff != [] { ReportIsSilent(s, id, diff[..|diff| - 1]); }
  }

  // The entry at p is written, with a new span if `on`.
  ghost predicate Opened(s: State, t: State, p: Place, on: bool) {
    && t.ended == s.ended && t.nextSpan == s.nextSpan + (if on then 1 else 0)
    && (forall q :: Held(t, q) == if q != p then Held(s, q) else if on then Some(s.nextSpan) else None)
  }

  lemma LifeOfClearing(cfg: Config, s: State, st: Step, t: State, places: set<Place>)
    requires Cleared(s, t, places) && StartsAt(cfg, s, st).None? && !News(s, st)
    requires forall p :: !WritesOver(st, p)
    requires forall p | Held(s, p).Some? :: p in places <==> EndsAt(s, st, p)
    ensures Life(cfg, s, st, t)
  {
    hide Held, StartsAt, EndsAt, WritesOver, News;
  }

  lemma LifeOfOpening(cfg: Config, s: State, st: Step, t: State, p: Place, on: bool)
    requires Opened(s, t, p, on) && StartsAt(cfg, s, st) == (if on then Some(p) else None) && p != Instant && !News(s, st)
    requires WritesOver(st, p) && forall q :: !EndsAt(s, st, q) && (WritesOver(st, q) ==> q == p)
    ensures Life(cfg, s, st, t)
  {
    hide Held, StartsAt, EndsAt, WritesOver, News;
  }

  lemma LifeOfSilence(cfg: Config, s: State, st: Step, t: State)
    requires SameSpans(s, t) && StartsAt(cfg, s, st).None? && !News(s, st)
    requires forall p :: !WritesOver(st, p) && (Held(s, p).Some? ==> !EndsAt(s, st, p))
    ensures Life(cfg, s, st, t)
  {
    hide Held, StartsAt, EndsAt, WritesOver, News;
  }

  lemma CreateLives(cfg: Config, s: State, id: SessionId)
    ensures Life(cfg, s, SessionCreated(id), Create(cfg, s, id))
  {
    var t := Create(cfg, s, id);
    forall q ensures Held(t, q) == if q != InSession(id) then Held(s, q) else if cfg.tracing then Some(s.nextSpan) else None {
      match q { case _ => }
    }
    hide Held, Create;
    LifeOfOpening(cfg, s, SessionCreated(id), t, InSession(id), cfg.tracing);
    hide Life;
  }

  lemma SilentAfterClearing(s: State, c: State, t: State, places: set<Place>)
    requires Cleared(s, c, places) && SameSpans(c, t)
    ensures Cleared(s, t, places)
  {
    hide Held;
  }

  lemma IdleClears(s: State, id: SessionId)
    ensures Cleared(s, Idle(s, id), {InSession(id)})
  {
    hide Clear;
    var c, t := Clear(s, {InSession(id)}), Idle(s, id);
    ClearClears(s, {InSession(id)});
    if id in s.sessions {
      assert SameSpans(c, t);
      hide Held, Cleared, SameSpans;
      SilentAfterClearing(s, c, t, {InSession(id)});
    }
  }

  lemma IdleLives(cfg: Config, s: State, id: SessionId)
    ensures Life(cfg, s, SessionIdle(id), Idle(s, id))
  {
    hide Held, Cleared, Idle, Life;
    IdleClears(s, id);
    LifeOfClearing(cfg, s, SessionIdle(id), Idle(s, id), {InSession(id)});
  }

  lemma ForgetClears(s: State, id: SessionId)
    ensures Cleared(s, Forget(s, id), PlacesOf(s, id))
  {
    hide Clear, PlacesOf;
    var c, t := Clear(s, PlacesOf(s, id)), Forget(s, id);
    ClearClears(s, PlacesOf(s, id));
    assert SameSpans(c, t);
    hide Held, Cleared, SameSpans;
    SilentAfterClearing(s, c, t, PlacesOf(s, id));
  }

  lemma ForgetLives(cfg: Config, s: State, id: SessionId)
    ensures Life(cfg, s, SessionDeleted(id), Forget(s, id))
  {
    hide Held, Cleared, Forget, Life, PlacesOf;
    ForgetClears(s, id);
    OwnPlaces(s, id);
    LifeOfClearing(cfg, s, SessionDeleted(id), Forget(s, id), PlacesOf(s, id));
  }

  lemma OwnPlaces(s: State, id: SessionId)
    ensures forall p | Held(s, p).Some? :: p in PlacesOf(s, id) <==> EndsAt(s, SessionDeleted(id), p)
  {
  }

  lemma LifeOfInstant(cfg: Config, s: State, t: State, id: SessionId)
    requires t.nextSpan == s.nextSpan + (if cfg.tracing then 1 else 0) && forall p :: Held(t, p) == Held(s, p)
    requires t.ended == if cfg.tracing then s.ended + multiset{Ended(Instant, s.nextSpan)} else s.ended
    ensures Life(cfg, s, Compacted(id), t)
  {
    hide Held;
    assert forall p :: HeldAfter(cfg, s, Compacted(id), p) == Held(s, p);
    hide HeldAfter;
  }

  lemma CompactLives(cfg: Config, s: State, id: SessionId)
    ensures Life(cfg, s, Compacted(id), EndInstantly(cfg, Touch(s, id)))
  {
    hide Touch, Life;
    TouchIsSilent(s, id);
    var u, t := Touch(s, id), EndInstantly(cfg, Touch(s, id));
    assert forall p :: Held(t, p) == Held(u, p);
    hide Held;
    LifeOfInstant(cfg, s, t, id);
  }

  // First cleared, then written.
  lemma LifeOfReopening(cfg: Config, s: State, c: State, t: State, id: SessionId)
    requires Cleared(s, c, {InPending(id)}) && Opened(c, t, InPending(id), cfg.tracing)
    ensures Life(cfg, s, ChatParams(id), t)
  {
    hide Held;
  }

  lemma OpenOpens(cfg: Config, s: State, id: SessionId)
    ensures var c := Clear(Touch(s, id), {InPending(id)});
      Opened(c, OpenPending(cfg, s, id), InPending(id), cfg.tracing)
  {
    hide Clear, Touch;
    var c, t := Clear(Touch(s, id), {InPending(id)}), OpenPending(cfg, s, id);
    forall q ensures Held(t, q) == if q != InPending(id) then Held(c, q) else if cfg.tracing then Some(c.nextSpan) else None {
      match q { case _ => }
    }
  }

  lemma ClearedAfterSilence(s: State, u: State, t: State, places: set<Place>)
    requires SameSpans(s, u) && Cleared(u, t, places)
    ensures Cleared(s, t, places)
  {
    hide Held;
  }

  lemma OpenLives(cfg: Config, s: State, id: SessionId)
    ensures Life(cfg, s, ChatParams(id), OpenPending(cfg, s, id))
  {
    hide Held, Clear, Touch, OpenPending, Cleared, Opened, SameSpans, Life;
    TouchIsSilent(s, id);
    ClearClears(Touch(s, id), {InPending(id)});
    ClearedAfterSilence(s, Touch(s, id), Clear(Touch(s, id), {InPending(id)}), {InPending(id)});
    OpenOpens(cfg, s, id);
    LifeOfReopening(cfg, s, Clear(Touch(s, id), {InPending(id)}), OpenPending(cfg, s, id), id);
  }

  lemma ToolEntry(s: State, c: CallId, tool: Tool, n: SpanId, q: Place)
    ensures Held(s.(tools := s.tools[c := tool], nextSpan := n), q) == if q != InTool(c) then Held(s, q) else tool.span
  {
  }

  // The entry of a call that starts: its session, its name, and its span.
  lemma BeginEnters(cfg: Config, s: State, c: CallId, id: SessionId, tool: string)
    ensures var (u, on) := (Touch(s, id), cfg.tracing && tool !in cfg.filtered);
      Begin(cfg, s, c, id, tool) == u.(tools := u.tools[c := Tool(id, tool, if on then Some(u.nextSpan) else None)],
                                       nextSpan := u.nextSpan + if on then 1 else 0)
  {
    hide Touch;
  }

  lemma BeginOpens(cfg: Config, s: State, c: CallId, id: SessionId, tool: string)
    ensures Opened(Touch(s, id), Begin(cfg, s, c, id, tool), InTool(c), cfg.tracing && tool !in cfg.filtered)
  {
    hide Touch, Held, Begin;
    var u, t, on := Touch(s, id), Begin(cfg, s, c, id, tool), cfg.tracing && tool !in cfg.filtered;
    BeginEnters(cfg, s, c, id, tool);
    forall q ensures Held(t, q) == if q != InTool(c) then Held(u, q) else if on then Some(u.nextSpan) else None {
      ToolEntry(u, c, Tool(id, tool, if on then Some(u.nextSpan) else None), t.nextSpan, q);
    }
  }

  lemma OpenedAfterSilence(s: State, u: State, t: State, p: Place, on: bool)
    requires SameSpans(s, u) && Opened(u, t, p, on)
    ensures Opened(s, t, p, on)
  {
    hide Held;
  }

  lemma BeginLives(cfg: Config, s: State, c: CallId, id: SessionId, tool: string)
    ensures Life(cfg, s, ToolBefore(c, id, tool), Begin(cfg, s, c, id, tool))
  {
    hide Held, Touch, Begin, Opened, SameSpans, Life;
    var on := cfg.tracing && tool !in cfg.filtered;
    TouchIsSilent(s, id);
    BeginOpens(cfg, s, c, id, tool);
    OpenedAfterSilence(s, Touch(s, id), Begin(cfg, s, c, id, tool), InTool(c), on);
    LifeOfOpening(cfg, s, ToolBefore(c, id, tool), Begin(cfg, s, c, id, tool), InTool(c), on);
  }

  lemma FinishClears(s: State, c: CallId, id: SessionId)
    requires c !in s.finishedTools
    ensures Cleared(s, FinishTool(s, c, id), {InTool(c)})
  {
    hide Clear, Touch, OwnerOf;
    ClearClears(s, {InTool(c)});
    var k, owner := Clear(s, {InTool(c)}), OwnerOf(s, c, id);
    var u := k.(finishedTools := s.finishedTools[c := owner], counted := s.counted + multiset{Call(c)});
    assert SameSpans(k, u);
    TouchIsSilent(u, owner);
    hide Held, Cleared, SameSpans;
    SilentAfterClearing(s, k, u, {InTool(c)});
    if owner != "" { SilentAfterClearing(s, u, Touch(u, owner), {InTool(c)}); }
  }

  lemma FinishedAgain(s: State, c: CallId, id: SessionId)
    requires c in s.finishedTools
    ensures FinishTool(s, c, id) == s
  {
  }

  lemma FinishLives(cfg: Config, s: State, c: CallId, id: SessionId)
    ensures Life(cfg, s, ToolReported(c, id), FinishTool(s, c, id))
  {
    hide Held, Life, FinishTool, Cleared;
    if c in s.finishedTools {
      FinishedAgain(s, c, id);
      LifeOfSilence(cfg, s, ToolReported(c, id), s);
    } else {
      FinishClears(s, c, id);
      LifeOfClearing(cfg, s, ToolReported(c, id), FinishTool(s, c, id), {InTool(c)});
    }
  }

  lemma ShutdownLives(cfg: Config, s: State)
    ensures Life(cfg, s, Shutdown, Clear(s, AllPlaces(s)))
  {
    EverywhereHeld(s);
    hide Clear, Held, Life, Cleared, AllPlaces;
    ClearClears(s, AllPlaces(s));
    LifeOfClearing(cfg, s, Shutdown, Clear(s, AllPlaces(s)), AllPlaces(s));
  }

  lemma EverywhereHeld(s: State)
    ensures forall p | Held(s, p).Some? :: p in AllPlaces(s) && EndsAt(s, Shutdown, p)
  {
  }

  lemma DiffLives(cfg: Config, s: State, id: SessionId, diff: seq<FileDiff>)
    ensures Life(cfg, s, SessionDiff(id, diff), Report(Touch(s, id), id, diff))
  {
    hide Held, Life, Touch, Report;
    TouchIsSilent(s, id);
    ReportIsSilent(Touch(s, id), id, diff);
    LifeOfSilence(cfg, s, SessionDiff(id, diff), Report(Touch(s, id), id, diff));
  }

  lemma NotedLives(cfg: Config, s: State, id: SessionId)
    ensures Life(cfg, s, Noted(id), Touch(s, id))
  {
    hide Held, Life, Touch;
    TouchIsSilent(s, id);
    LifeOfSilence(cfg, s, Noted(id), Touch(s, id));
  }

  // ---- Messages -----------------------------------------------------------------------------

  // The span at p is at q now.
  ghost predicate Moved(s: State, t: State, p: Place, q: Place) {
    && t.ended == s.ended && t.nextSpan == s.nextSpan
    && (forall r :: Held(t, r) == if r == q then Held(s, p) else if r == p then None else Held(s, r))
  }

  // What finding the chat of message m does.
  ghost predicate FindsChat(cfg: Config, s: State, t: State, m: MessageId, id: SessionId) {
    if m in s.chats then SameSpans(s, t)
    else if id in s.pendingChats then Moved(s, t, InPending(id), InChat(m))
    else Opened(s, t, InChat(m), cfg.tracing)
  }

  lemma ChatIsNew(cfg: Config, s: State, m: MessageId, id: SessionId)
    requires m !in s.chats && id !in s.pendingChats
    ensures Opened(s, EnsureChat(cfg, s, m, id), InChat(m), cfg.tracing)
  {
    var t := EnsureChat(cfg, s, m, id);
    forall q ensures Held(t, q) == if q != InChat(m) then Held(s, q) else if cfg.tracing then Some(s.nextSpan) else None {
      match q { case _ => }
    }
  }

  lemma ChatIsTakenOver(cfg: Config, s: State, m: MessageId, id: SessionId)
    requires m !in s.chats && id in s.pendingChats
    ensures Moved(s, EnsureChat(cfg, s, m, id), InPending(id), InChat(m))
  {
    var t := EnsureChat(cfg, s, m, id);
    forall r ensures Held(t, r) == if r == InChat(m) then Held(s, InPending(id)) else if r == InPending(id) then None else Held(s, r) {
      match r { case _ => }
    }
  }

  lemma ChatIsThere(cfg: Config, s: State, m: MessageId, id: SessionId)
    requires m in s.chats
    ensures EnsureChat(cfg, s, m, id) == s
  {
  }

  lemma ChatIsFound(cfg: Config, s: State, m: MessageId, id: SessionId)
    ensures FindsChat(cfg, s, EnsureChat(cfg, s, m, id), m, id)
  {
    hide EnsureChat, Held, Moved, Opened;
    if m in s.chats { ChatIsThere(cfg, s, m, id); }
    else if id in s.pendingChats { ChatIsTakenOver(cfg, s, m, id); }
    else { ChatIsNew(cfg, s, m, id); }
  }

  lemma FoundAfterSilence(cfg: Config, s: State, u: State, t: State, m: MessageId, id: SessionId)
    requires SameSpans(s, u) && u == s.(sessions := u.sessions) && FindsChat(cfg, u, t, m, id)
    ensures FindsChat(cfg, s, t, m, id)
  {
    hide Held;
  }

  lemma FinalizeClears(s: State, m: MessageId, id: SessionId)
    requires id in s.sessions
    ensures Cleared(s, Finalize(s, m, id), {InChat(m)})
  {
    hide Clear;
    ClearClears(s, {InChat(m)});
    FinalizeIsSilent(s, m, id);
    hide Held, Cleared, SameSpans, Finalize;
    SilentAfterClearing(s, Clear(s, {InChat(m)}), Finalize(s, m, id), {InChat(m)});
  }

  lemma FinalizeIsSilent(s: State, m: MessageId, id: SessionId)
    requires id in s.sessions
    ensures SameSpans(Clear(s, {InChat(m)}), Finalize(s, m, id))
  {
    var c, t := Clear(s, {InChat(m)}), Finalize(s, m, id);
    assert t.tools == c.tools && t.chats == c.chats && t.pendingChats == c.pendingChats && t.ended == c.ended && t.nextSpan == c.nextSpan;
    assert t.sessions.Keys == c.sessions.Keys && forall i | i in c.sessions :: t.sessions[i].span == c.sessions[i].span;
    hide Clear, Finalize;
  }

  lemma LifeOfOpenUpdate(cfg: Config, s: State, t: State, m: MessageId, id: SessionId)
    requires m !in s.finalizedMessages && FindsChat(cfg, s, t, m, id)
    requires m !in s.chats ==> Held(s, InChat(m)).None?
    ensures Life(cfg, s, MessageUpdated(m, id, true, false), t)
  {
    hide Held;
  }

  lemma NewLastEnds(cfg: Config, s: State, v: State, t: State, m: MessageId, id: SessionId, e: Ended)
    requires m !in s.finalizedMessages && m !in s.chats && id !in s.pendingChats && Held(s, InChat(m)).None?
    requires Opened(s, v, InChat(m), cfg.tracing) && Cleared(v, t, {InChat(m)})
    ensures t.ended[e] == s.ended[e] + if EndsNow(cfg, s, MessageUpdated(m, id, true, true), e) then 1 else 0
  {
    hide Held;
    assert t.ended[e] == v.ended[e] + if e.place == InChat(m) && Held(v, e.place) == Some(e.span) then 1 else 0;
  }

  lemma NewLastHolds(cfg: Config, s: State, v: State, t: State, m: MessageId, id: SessionId, p: Place)
    requires m !in s.finalizedMessages && m !in s.chats && id !in s.pendingChats && Held(s, InChat(m)).None?
    requires Opened(s, v, InChat(m), cfg.tracing) && Cleared(v, t, {InChat(m)})
    ensures Held(t, p) == HeldAfter(cfg, s, MessageUpdated(m, id, true, true), p)
  {
    hide Held;
    assert Held(t, p) == if p == InChat(m) then None else Held(v, p);
  }

  lemma LifeOfNewLast(cfg: Config, s: State, v: State, t: State, m: MessageId, id: SessionId)
    requires m !in s.finalizedMessages && m !in s.chats && id !in s.pendingChats && Held(s, InChat(m)).None?
    requires Opened(s, v, InChat(m), cfg.tracing) && Cleared(v, t, {InChat(m)})
    ensures Life(cfg, s, MessageUpdated(m, id, true, true), t)
  {
    assert t.nextSpan == s.nextSpan + if cfg.tracing then 1 else 0;
    hide Held, HeldAfter, EndsNow, Opened, Cleared;
    forall p ensures Held(t, p) == HeldAfter(cfg, s, MessageUpdated(m, id, true, true), p) { NewLastHolds(cfg, s, v, t, m, id, p); }
    forall e ensures t.ended[e] == s.ended[e] + if EndsNow(cfg, s, MessageUpdated(m, id, true, true), e) then 1 else 0 {
      NewLastEnds(cfg, s, v, t, m, id, e);
    }
  }

  lemma LifeOfTakenLast(cfg: Config, s: State, v: State, t: State, m: MessageId, id: SessionId)
    requires m !in s.finalizedMessages && m !in s.chats && id in s.pendingChats && Held(s, InChat(m)).None?
    requires Moved(s, v, InPending(id), InChat(m)) && Cleared(v, t, {InChat(m)})
    ensures Life(cfg, s, MessageUpdated(m, id, true, true), t)
  {
    hide Held;
  }

  lemma LifeOfKnownLast(cfg: Config, s: State, v: State, t: State, m: MessageId, id: SessionId)
    requires m !in s.finalizedMessages && m in s.chats && SameSpans(s, v) && Cleared(v, t, {InChat(m)})
    ensures Life(cfg, s, MessageUpdated(m, id, true, true), t)
  {
    hide Held;
  }

  lemma LifeOfLastUpdate(cfg: Config, s: State, v: State, t: State, m: MessageId, id: SessionId)
    requires m !in s.finalizedMessages && FindsChat(cfg, s, v, m, id) && Cleared(v, t, {InChat(m)})
    requires m !in s.chats ==> Held(s, InChat(m)).None?
    ensures Life(cfg, s, MessageUpdated(m, id, true, true), t)
  {
    hide Held, SameSpans, Moved, Opened, Cleared, Life;
    if m in s.chats { LifeOfKnownLast(cfg, s, v, t, m, id); }
    else if id in s.pendingChats { LifeOfTakenLast(cfg, s, v, t, m, id); }
    else { LifeOfNewLast(cfg, s, v, t, m, id); }
  }

  lemma UpdateLives(cfg: Config, s: State, m: MessageId, id: SessionId, assistant: bool, completed: bool)
    ensures Life(cfg, s, MessageUpdated(m, id, assistant, completed), Update(cfg, s, m, id, assistant, completed))
  {
    hide Held, Life, Touch, EnsureChat, Finalize, FindsChat, Cleared;
    if assistant && m !in s.finalizedMessages {
      var u := Touch(s, id);
      var v := EnsureChat(cfg, u, m, id);
      TouchIsSilent(s, id);
      ChatIsFound(cfg, u, m, id);
      FoundAfterSilence(cfg, s, u, v, m, id);
      if completed {
        FinalizeClears(v, m, id);
        NoChatHoldsNothing(s, m);
        LifeOfLastUpdate(cfg, s, v, Finalize(v, m, id), m, id);
      } else {
        NoChatHoldsNothing(s, m);
        LifeOfOpenUpdate(cfg, s, v, m, id);
      }
    } else {
      LifeOfSilence(cfg, s, MessageUpdated(m, id, assistant, completed), s);
    }
  }

  lemma NoChatHoldsNothing(s: State, m: MessageId)
    ensures m !in s.chats ==> Held(s, InChat(m)).None?
  {
  }

  // ---- Every step ---------------------------------------------------------------------------

  /** With tracing, a created session, a chat opened ahead, a call of an unfiltered tool, the first update of
      an assistant message with no chat to take over, and a compaction each start one span, the next; no
      other step does, and none without tracing. The span is held at that entry, or has ended there if the
      message is complete. A chat opened ahead gives its very span to the message that finds it. Spans end
      where the session, chat or call they stand for ends, and every other span stays where it is. */
  lemma SpansLiveExactly(cfg: Config, s: State, st: Step)
    ensures Life(cfg, s, st, Apply(cfg, s, st))
  {
    hide Life, Create, Idle, Forget, EndInstantly, Touch, Report, Update, OpenPending, Begin, FinishTool, Clear;
    match st {
      case SessionCreated(id) => CreateLives(cfg, s, id);
      case SessionIdle(id) => IdleLives(cfg, s, id);
      case SessionDeleted(id) => ForgetLives(cfg, s, id);
      case Compacted(id) => CompactLives(cfg, s, id);
      case Noted(id) => NotedLives(cfg, s, id);
      case SessionDiff(id, diff) => DiffLives(cfg, s, id, diff);
      case MessageUpdated(m, id, assistant, completed) => UpdateLives(cfg, s, m, id, assistant, completed);
      case ChatParams(id) => OpenLives(cfg, s, id);
      case ToolBefore(c, id, tool) => BeginLives(cfg, s, c, id, tool);
      case ToolReported(c, id) => FinishLives(cfg, s, c, id);
      case Shutdown => ShutdownLives(cfg, s);
    }
  }

  // ---- What the entries say -------------------------------------------------------------------

  /** An entry that is opened belongs to the session that opened it, and a chat taken over stays with its
      own; a call keeps the session it was started in. Those are what ending a session looks at. */
  lemma EntriesNameTheirSession(cfg: Config, s: State, st: Step)
    ensures st.ToolBefore? ==> var t := Apply(cfg, s, st);
      st.call in t.tools && t.tools[st.call].session == st.id && t.tools[st.call].name == st.tool
    ensures st.ChatParams? ==> var t := Apply(cfg, s, st);
      st.id in t.pendingChats && t.pendingChats[st.id].session == st.id
    ensures News(s, st) && !st.completed ==> var t := Apply(cfg, s, st);
      && st.message in t.chats
      && t.chats[st.message].session == if st.message in s.chats then s.chats[st.message].session
                                        else if st.id in s.pendingChats then s.pendingChats[st.id].session else st.id
  {
    hide Touch, Clear, Finalize;
    if st.ToolBefore? { BeginEnters(cfg, s, st.call, st.id, st.tool); }
    if st.MessageUpdated? { TouchIsSilent(s, st.id); }
    if st.ChatParams? { TouchIsSilent(s, st.id); }
  }

  lemma FinishesUnder(s: State, c: CallId, id: SessionId)
    requires c !in s.finishedTools
    ensures var owner := if c in s.tools && s.tools[c].session != "" then s.tools[c].session else id;
      FinishTool(s, c, id).finishedTools == s.finishedTools[c := owner]
  {
    hide Clear, Touch;
    var t := Clear(s, {InTool(c)}).(finishedTools := s.finishedTools[c := OwnerOf(s, c, id)], counted := s.counted + multiset{Call(c)});
    TouchIsSilent(t, OwnerOf(s, c, id));
  }

  /** What is complete is remembered under its session: a message under the one that reports it, a call under
      the one it was started in, and the one that reports it if that has no name. */
  lemma CompletedUnderTheirSession(cfg: Config, s: State, st: Step)
    ensures News(s, st) && st.completed ==>
      Apply(cfg, s, st).finalizedMessages == s.finalizedMessages[st.message := st.id]
    ensures st.ToolReported? && st.call !in s.finishedTools ==>
      var started := if st.call in s.tools then s.tools[st.call].session else "";
      Apply(cfg, s, st).finishedTools == s.finishedTools[st.call := if started != "" then started else st.id]
  {
    hide Clear, Touch, EnsureChat, FinishTool;
    if st.MessageUpdated? { TouchIsSilent(s, st.id); }
    if st.ToolReported? && st.call !in s.finishedTools { FinishesUnder(s, st.call, st.id); }
  }

  function RequestsOf(s: State, id: SessionId): nat { if id in s.sessions then s.sessions[id].requests else 0 }

  lemma FinalizeCounts(s: State, m: MessageId, id: SessionId, who: SessionId)
    requires id in s.sessions
    ensures RequestsOf(Finalize(s, m, id), who) == RequestsOf(s, who) + if who == id then 1 else 0
  {
    hide Clear;
  }

  lemma TouchCountsNothing(s: State, id: SessionId, who: SessionId)
    ensures RequestsOf(Touch(s, id), who) == RequestsOf(s, who)
  {
  }

  /** A message that is complete counts as one request of its session, any other update as none. */
  lemma RequestsAreCounted(cfg: Config, s: State, m: MessageId, id: SessionId, assistant: bool, completed: bool, who: SessionId)
    ensures var st := MessageUpdated(m, id, assistant, completed);
      RequestsOf(Apply(cfg, s, st), who) == RequestsOf(s, who) + if News(s, st) && completed && who == id then 1 else 0
  {
    hide Finalize, EnsureChat, Touch, RequestsOf;
    TouchCountsNothing(s, id, who);
    var v := EnsureChat(cfg, Touch(s, id), m, id);
    assert RequestsOf(v, who) == RequestsOf(Touch(s, id), who) by { SameSessionsCount(v, Touch(s, id), who); }
    TouchIsSilent(s, id);
    FinalizeCounts(v, m, id, who);
  }

  lemma SameSessionsCount(s: State, t: State, who: SessionId)
    requires s.sessions == t.sessions
    ensures RequestsOf(s, who) == RequestsOf(t, who)
  {
  }
}
