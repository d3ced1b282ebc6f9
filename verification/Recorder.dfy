/** The telemetry recorder: host events and hooks turned into spans and counts. A step is one event or
    hook. `ended` and `counted` are what the exporters saw. */
module Recorder {
  import opened Prelude

  type SessionId = string
  type MessageId = string
  type CallId = string
  type SpanId = nat

  // A span that was ended, and where it was held until then.
  datatype Place = InSession(id: SessionId) | InChat(message: MessageId) | InPending(id: SessionId) | InTool(call: CallId) | Instant
  datatype Ended = Ended(place: Place, span: SpanId)

  datatype Session = Session(span: Option<SpanId>, requests: nat)
  datatype Chat = Chat(session: SessionId, span: Option<SpanId>)
  datatype Tool = Tool(session: SessionId, name: string, span: Option<SpanId>)
  datatype Lines = Lines(additions: nat, deletions: nat)

  // What may be counted once: an assistant message, a tool call.
  datatype Key = Message(message: MessageId) | Call(call: CallId)

  datatype State = State(
    sessions: map<SessionId, Session>,
    chats: map<MessageId, Chat>,
    pendingChats: map<SessionId, Chat>,
    tools: map<CallId, Tool>,
    finishedTools: map<CallId, SessionId>,
    finalizedMessages: map<MessageId, SessionId>,
    diffs: map<(SessionId, string), Lines>,
    nextSpan: SpanId,
    ended: multiset<Ended>,
    counted: multiset<Key>,
    lines: map<(SessionId, string), Lines>)      // lines counted, per session and file

  // Whether there is a tracer, and the tools that get no span.
  datatype Config = Config(tracing: bool, filtered: set<string>)

  datatype FileDiff = FileDiff(file: string, additions: nat, deletions: nat)

  datatype Step =
    | SessionCreated(id: SessionId)
    | SessionIdle(id: SessionId)
    | SessionDeleted(id: SessionId)
    | Compacted(id: SessionId)
    | Noted(id: SessionId)                       // any other event that looks the session up
    | SessionDiff(id: SessionId, diff: seq<FileDiff>)
    | MessageUpdated(message: MessageId, id: SessionId, assistant: bool, completed: bool)
    | ChatParams(id: SessionId)
    | ToolBefore(call: CallId, id: SessionId, tool: string)
    | ToolReported(call: CallId, id: SessionId)  // the after hook, or a terminal part update
    | Shutdown

  const START := State(map[], map[], map[], map[], map[], map[], map[], 0, multiset{}, multiset{}, map[])

  // ---- Spans ----------------------------------------------------------------------------

  function Held(s: State, p: Place): Option<SpanId> {
    match p
    case InSession(id) => if id in s.sessions then s.sessions[id].span else None
    case InChat(m) => if m in s.chats then s.chats[m].span else None
    case InPending(id) => if id in s.pendingChats then s.pendingChats[id].span else None
    case InTool(c) => if c in s.tools then s.tools[c].span else None
    case Instant => None
  }

  function Endings(s: State, places: set<Place>): set<Ended> {
    set p | p in places && Held(s, p).Some? :: Ended(p, Held(s, p).value)
  }

  // The entries at these places are dropped and their spans ended.
  function Clear(s: State, places: set<Place>): State {
    s.(sessions := map id | id in s.sessions && InSession(id) !in places :: s.sessions[id],
       chats := map m | m in s.chats && InChat(m) !in places :: s.chats[m],
       pendingChats := map id | id in s.pendingChats && InPending(id) !in places :: s.pendingChats[id],
       tools := map c | c in s.tools && InTool(c) !in places :: s.tools[c],
       ended := s.ended + multiset(Endings(s, places)))
  }

  function Opened(cfg: Config, s: State): Option<SpanId> { if cfg.tracing then Some(s.nextSpan) else None }

  function AfterOpening(cfg: Config, s: State): SpanId { if cfg.tracing then s.nextSpan + 1 else s.nextSpan }

  // ---- Steps ----------------------------------------------------------------------------

  // A session never seen created still gets a state, without a span.
  function Touch(s: State, id: SessionId): (t: State)
    ensures id in t.sessions && t == s.(sessions := t.sessions)
  {
    if id in s.sessions then s else s.(sessions := s.sessions[id := Session(None, 0)])
  }

  function Create(cfg: Config, s: State, id: SessionId): State {
    s.(sessions := s.sessions[id := Session(Opened(cfg, s), 0)], nextSpan := AfterOpening(cfg, s))
  }

  // The dedupe entries of what finished in this session.
  function Prune(s: State, id: SessionId): State {
    s.(finalizedMessages := map m | m in s.finalizedMessages && s.finalizedMessages[m] != id :: s.finalizedMessages[m],
       finishedTools := map c | c in s.finishedTools && s.finishedTools[c] != id :: s.finishedTools[c])
  }

  function Idle(s: State, id: SessionId): State {
    if id !in s.sessions then s else Prune(Clear(s, {InSession(id)}), id)
  }

  function PlacesOf(s: State, id: SessionId): set<Place> {
    {InSession(id), InPending(id)} + (set m | m in s.chats && s.chats[m].session == id :: InChat(m))
      + (set c | c in s.tools && s.tools[c].session == id :: InTool(c))
  }

  function Forget(s: State, id: SessionId): State {
    var t := Clear(s, PlacesOf(s, id));
    Prune(t.(diffs := map k | k in s.diffs && k.0 != id :: s.diffs[k]), id)
  }

  function EndInstantly(cfg: Config, s: State): State {
    if cfg.tracing then s.(ended := s.ended + multiset{Ended(Instant, s.nextSpan)}, nextSpan := s.nextSpan + 1) else s
  }

  function At(m: map<(SessionId, string), Lines>, k: (SessionId, string)): Lines { if k in m then m[k] else Lines(0, 0) }

  // The source is cumulative: only what is new since the last report counts.
  function ReportFile(s: State, id: SessionId, d: FileDiff): State {
    var k := (id, d.file);
    var added, removed := Max(0, d.additions - At(s.diffs, k).additions), Max(0, d.deletions - At(s.diffs, k).deletions);
    s.(diffs := s.diffs[k := Lines(d.additions, d.deletions)],
       lines := s.lines[k := Lines(At(s.lines, k).additions + added, At(s.lines, k).deletions + removed)])
  }

  function Report(s: State, id: SessionId, diff: seq<FileDiff>): State {
    if diff == [] then s else ReportFile(Report(s, id, diff[..|diff| - 1]), id, diff[|diff| - 1])
  }

  // The chat of a message: its own, else the one `chat.params` opened, else a new one.
  function EnsureChat(cfg: Config, s: State, m: MessageId, id: SessionId): (t: State)
    ensures m in t.chats && t == s.(chats := t.chats, pendingChats := t.pendingChats, nextSpan := t.nextSpan)
  {
    if m in s.chats then s
    else if id in s.pendingChats then
      s.(pendingChats := s.pendingChats - {id}, chats := s.chats[m := s.pendingChats[id]])
    else s.(chats := s.chats[m := Chat(id, Opened(cfg, s))], nextSpan := AfterOpening(cfg, s))
  }

  function Finalize(s: State, m: MessageId, id: SessionId): State
    requires id in s.sessions
  {
    var t := Clear(s, {InChat(m)});
    t.(finalizedMessages := s.finalizedMessages[m := id], counted := s.counted + multiset{Message(m)},
       sessions := s.sessions[id := s.sessions[id].(requests := s.sessions[id].requests + 1)])
  }

  function Update(cfg: Config, s: State, m: MessageId, id: SessionId, assistant: bool, completed: bool): State {
    if !assistant || m in s.finalizedMessages then s
    else
      var t := EnsureChat(cfg, Touch(s, id), m, id);
      if completed then Finalize(t, m, id) else t
  }

  function OpenPending(cfg: Config, s: State, id: SessionId): State {
    var t := Clear(Touch(s, id), {InPending(id)});
    t.(pendingChats := t.pendingChats[id := Chat(id, Opened(cfg, t))], nextSpan := AfterOpening(cfg, t))
  }

  function Begin(cfg: Config, s: State, c: CallId, id: SessionId, tool: string): State {
    var t := Touch(s, id);
    if tool in cfg.filtered then t.(tools := t.tools[c := Tool(id, tool, None)])
    else t.(tools := t.tools[c := Tool(id, tool, Opened(cfg, t))], nextSpan := AfterOpening(cfg, t))
  }

  // Who a finished call is charged to: the session it started in, unless that is unnamed.
  function OwnerOf(s: State, c: CallId, id: SessionId): SessionId {
    if c in s.tools && s.tools[c].session != "" then s.tools[c].session else id
  }

  function FinishTool(s: State, c: CallId, id: SessionId): State {
    if c in s.finishedTools then s
    else
      var owner := OwnerOf(s, c, id);
      var t := Clear(s, {InTool(c)}).(finishedTools := s.finishedTools[c := owner], counted := s.counted + multiset{Call(c)});
      if owner != "" then Touch(t, owner) else t
  }

  function AllPlaces(s: State): set<Place> {
    (set id | id in s.sessions :: InSession(id)) + (set m | m in s.chats :: InChat(m))
      + (set id | id in s.pendingChats :: InPending(id)) + (set c | c in s.tools :: InTool(c))
  }

  function Apply(cfg: Config, s: State, st: Step): State {
    match st
    case SessionCreated(id) => Create(cfg, s, id)
    case SessionIdle(id) => Idle(s, id)
    case SessionDeleted(id) => Forget(s, id)
    case Compacted(id) => EndInstantly(cfg, Touch(s, id))
    case Noted(id) => Touch(s, id)
    case SessionDiff(id, diff) => Report(Touch(s, id), id, diff)
    case MessageUpdated(m, id, assistant, completed) => Update(cfg, s, m, id, assistant, completed)
    case ChatParams(id) => OpenPending(cfg, s, id)
    case ToolBefore(c, id, tool) => Begin(cfg, s, c, id, tool)
    case ToolReported(c, id) => FinishTool(s, c, id)
    case Shutdown => Clear(s, AllPlaces(s))
  }

  ghost predicate IsRun(cfg: Config, tr: seq<State>, steps: seq<Step>) {
    && |tr| == |steps| + 1 && tr[0] == START
    && forall i | 0 <= i < |steps| :: tr[i + 1] == Apply(cfg, tr[i], steps[i])
  }
}
