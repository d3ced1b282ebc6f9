/** The browser bridge broker of packages/opencode-browser/src/broker.ts: which executor runs what
    for which agent. A step is one handler; what follows a settled promise is part of the step that
    settles it. A step yields the new state and the multiset of things it caused. */
module Broker {
  import opened Prelude

  type Conn = nat
  type ExecId = string
  type Group = string
  type ReqId = nat
  type FrameId = nat

  // "broker" itself, agent:n, or local:n.
  datatype AgentId = Self | Remote(n: nat) | Local(n: nat)

  datatype Action = Targets | Release | Tabs | Cookies | Open | Drive(name: string)

  // An absent target is "".
  datatype Command = Command(action: Action, group: Group, target: string)

  // An executor's data: an opaque value, and the group names when it lists its tabs.
  datatype Outcome = Data(value: nat, groups: set<Group>) | Own | Error(code: string)

  // Who is waiting for a dispatched command.
  datatype Waiter =
    | Rebuild
    | ForAgent(conn: Conn, frame: FrameId)
    | ForLocal(call: nat)

  datatype Exec = Exec(conn: Conn, id: ExecId, name: string, serial: nat)
  datatype Owner = Owner(exec: ExecId, agent: Option<AgentId>)
  datatype Pending = Pending(agent: AgentId, exec: ExecId, waiter: Waiter)

  datatype Event =
    | Ready(conn: Conn)
    | Rejected(conn: Conn)
    | HungUp(conn: Conn)
    | Dispatched(req: ReqId, agent: AgentId, exec: ExecId, conn: Conn, cmd: Command)
    | Cancelled(req: ReqId, conn: Conn)
    | Released(exec: ExecId, conn: Conn)
    | Settled(req: ReqId)
    | Replied(waiter: Waiter, outcome: Outcome, answers: Option<ReqId>)

  // byId keeps insertion order, told by the serial numbers.
  datatype State = State(
    token: string,
    executors: map<Conn, Exec>,
    byId: map<ExecId, Exec>,
    serials: nat,
    agents: map<Conn, AgentId>,
    agentSeq: nat,
    locals: set<nat>,
    groups: map<Group, Owner>,
    pending: map<ReqId, Pending>,
    nextReq: nat,
    primary: Option<ExecId>,
    execSeq: nat)

  datatype Step = Step(s: State, out: multiset<Event>) {
    function Plus(more: multiset<Event>): Step { Step(s, out + more) }
  }

  function Initial(token: string): State {
    State(token, map[], map[], 0, map[], 0, {}, map[], map[], 0, None, 0)
  }

  // ---- Picking an executor --------------------------------------------------------------

  datatype Picked = Found(exec: Exec) | Refused(code: string)

  lemma OldestExists(byId: map<ExecId, Exec>)
    requires byId != map[]
    ensures exists id :: id in byId && forall j | j in byId :: byId[id].serial <= byId[j].serial
  {
    var a :| a in byId;
    var rest := byId - {a};
    assert |rest| < |byId| by { assert byId.Keys == rest.Keys + {a}; }
    if rest == map[] {
      assert byId.Keys == {a} by { assert byId.Keys == rest.Keys + {a}; }
    } else {
      OldestExists(rest);
      var b :| b in rest && forall j | j in rest :: rest[b].serial <= rest[j].serial;
      forall j | j in byId && j != a ensures rest[b].serial <= byId[j].serial { assert j in rest; }
      if byId[b].serial <= byId[a].serial {
        assert forall j | j in byId :: byId[b].serial <= byId[j].serial;
      } else {
        assert forall j | j in byId :: byId[a].serial <= byId[j].serial;
      }
    }
  }

  // The first key of the map in insertion order.
  ghost function Oldest(byId: map<ExecId, Exec>): (id: ExecId)
    requires byId != map[]
    ensures id in byId && forall j | j in byId :: byId[id].serial <= byId[j].serial
  {
    OldestExists(byId);
    var id :| id in byId && forall j | j in byId :: byId[id].serial <= byId[j].serial;
    id
  }

  ghost function PickExecutor(s: State, target: string): Picked {
    if s.byId == map[] then Refused("not_connected")
    else if target != "" then
      if target in s.byId then Found(s.byId[target])
      else
        var matching := set id | id in s.byId && s.byId[id].name == target;
        if |matching| == 0 then Refused("unknown_target")
        else if |matching| > 1 then Refused("ambiguous_target")
        else (var id :| id in matching; Found(s.byId[id]))
    else if s.primary.Some? && s.primary.value in s.byId then Found(s.byId[s.primary.value])
    else Found(s.byId[Oldest(s.byId)])
  }

  // Claims the group for the agent as it resolves; the state is returned even when it refuses.
  ghost function ResolveExecutor(s: State, agent: AgentId, cmd: Command): (State, Picked) {
    if cmd.group in s.groups then
      var owner := s.groups[cmd.group];
      if owner.agent.Some? && owner.agent.value != agent then (s, Refused("group_owned"))
      else
        var t := s.(groups := s.groups[cmd.group := owner.(agent := Some(agent))]);
        (t, if owner.exec in s.byId then Found(s.byId[owner.exec]) else Refused("executor_gone"))
    else if cmd.action != Open then (s, Refused("no_group"))
    else
      var p := PickExecutor(s, cmd.target);
      if p.Refused? then (s, p)
      else (s.(groups := s.groups[cmd.group := Owner(p.exec.id, Some(agent))]), p)
  }

  // ---- Commands and their settlement ----------------------------------------------------

  // What settling a promise triggers besides removing the pending entry.
  function Resumed(s: State, r: ReqId, p: Pending, outcome: Outcome): Step {
    match p.waiter
    case Rebuild =>
      if outcome.Data? then
        var orphans := map g | g in outcome.groups && g != "" && g !in s.groups :: Owner(p.exec, None);
        Step(s.(groups := s.groups + orphans), multiset{Settled(r)})
      else Step(s, multiset{Settled(r)})
    case _ => Step(s, multiset{Settled(r), Replied(p.waiter, outcome, Some(r))})
  }

  function Settle(s: State, r: ReqId, outcome: Outcome): Step
    requires r in s.pending
  {
    Resumed(s.(pending := s.pending - {r}), r, s.pending[r], outcome)
  }

  // sendToExecutor; `dead` are the connections on which send throws.
  function SendToExecutor(s: State, exec: Exec, agent: AgentId, cmd: Command, waiter: Waiter, dead: set<Conn>): Step {
    var r := s.nextReq;
    var t := s.(pending := s.pending[r := Pending(agent, exec.id, waiter)], nextReq := r + 1);
    if exec.conn in dead then Settle(t, r, Error("send_failed"))
    else Step(t, multiset{Dispatched(r, agent, exec.id, exec.conn, cmd)})
  }

  // Rejects a batch of pending commands, none of which is answered with data.
  function RejectAll(s: State, gone: set<ReqId>, code: string): Step
    requires gone <= s.pending.Keys
  {
    Step(s.(pending := s.pending - gone),
         multiset(set r | r in gone :: Settled(r)) +
         multiset(set r | r in gone && s.pending[r].waiter != Rebuild ::
                    Replied(s.pending[r].waiter, Error(code), Some(r))))
  }

  // The cancel frames sent for commands whose executor is still connected.
  function Cancels(s: State, gone: set<ReqId>): multiset<Event>
    requires gone <= s.pending.Keys
  {
    multiset(set r | r in gone && s.pending[r].exec in s.byId :: Cancelled(r, s.byId[s.pending[r].exec].conn))
  }

  function Abandon(s: State, gone: set<ReqId>, code: string): Step
    requires gone <= s.pending.Keys
  {
    RejectAll(s, gone, code).Plus(Cancels(s, gone))
  }

  function HeldBy(s: State, agent: AgentId): set<ExecId> {
    set g | g in s.groups && s.groups[g].agent == Some(agent) :: s.groups[g].exec
  }

  function ReleaseForAgent(s: State, agent: AgentId): Step {
    Step(s.(groups := map g | g in s.groups ::
              if s.groups[g].agent == Some(agent) then s.groups[g].(agent := None) else s.groups[g]),
         multiset(set e | e in HeldBy(s, agent) && e in s.byId :: Released(e, s.byId[e].conn)))
  }

  ghost function Route(s: State, agent: AgentId, cmd: Command, waiter: Waiter, aborted: bool, dead: set<Conn>): Step
    requires !waiter.Rebuild?
  {
    if cmd.action == Targets then Step(s, multiset{Replied(waiter, Own, None)})
    else if cmd.action == Release then ReleaseForAgent(s, agent).Plus(multiset{Replied(waiter, Own, None)})
    else
      var (t, p) := if cmd.action == Cookies then (s, PickExecutor(s, cmd.target)) else ResolveExecutor(s, agent, cmd);
      if p.Refused? then Step(t, multiset{Replied(waiter, Error(p.code), None)})
      else if aborted then Step(t, multiset{Replied(waiter, Error("aborted"), None)})
      else SendToExecutor(t, p.exec, agent, cmd, waiter, dead)
  }

  // ---- Connections ----------------------------------------------------------------------

  datatype Hello = Hello(agent: bool, token: string, id: ExecId, name: string)

  // The token after a mismatch: what `reloadToken` brings, if it brings anything.
  function AdoptRotated(token: string, latest: Option<string>): string {
    if latest.Some? && latest.value != "" then latest.value else token
  }

  function TokenAfter(s: State, h: Hello, latest: Option<string>): string {
    if h.token == s.token then s.token else AdoptRotated(s.token, latest)
  }

  predicate Accepts(s: State, h: Hello, latest: Option<string>) { h.token == TokenAfter(s, h, latest) }

  function JoinAgent(s: State, conn: Conn): Step {
    Step(s.(agents := s.agents[conn := Remote(s.agentSeq + 1)], agentSeq := s.agentSeq + 1), multiset{Ready(conn)})
  }

  // Registers an executor, replacing a stale connection that carries the same id.
  function JoinExecutor(s: State, conn: Conn, id: ExecId, name: string): Step {
    var known := id in s.byId;
    var stale := known && s.byId[id].conn != conn;
    var info := Exec(conn, id, name, if known then s.byId[id].serial else s.serials);
    var executors := if stale then s.executors - {s.byId[id].conn} else s.executors;
    var byId := s.byId[id := info];
    Step(s.(executors := executors[conn := info], byId := byId,
            serials := if known then s.serials else s.serials + 1,
            primary := if s.primary.Some? && s.primary.value in byId then s.primary else Some(id)),
         multiset{Ready(conn)} + (if stale then multiset{HungUp(s.byId[id].conn)} else multiset{}))
  }

  const ListTabs := Command(Tabs, "", "")

  function Decimal(n: nat): string {
    if n < 10 then [(n as char) + '0'] else Decimal(n / 10) + Decimal(n % 10)
  }

  // An executor that gives no id is given one.
  function IdOf(s: State, h: Hello): ExecId { if h.id != "" then h.id else "exec:" + Decimal(s.execSeq + 1) }

  // The state in which an accepted executor is registered.
  function Introduced(s: State, h: Hello, latest: Option<string>): State {
    s.(token := TokenAfter(s, h, latest), execSeq := if h.id != "" then s.execSeq else s.execSeq + 1)
  }

  function HandleHello(s: State, conn: Conn, h: Hello, latest: Option<string>, dead: set<Conn>): Step {
    var t := s.(token := TokenAfter(s, h, latest));
    if !Accepts(s, h, latest) then Step(t, multiset{Rejected(conn), HungUp(conn)})
    else if h.agent then JoinAgent(t, conn)
    else
      var joined := JoinExecutor(Introduced(s, h, latest), conn, IdOf(s, h), h.name);
      SendToExecutor(joined.s, joined.s.byId[IdOf(s, h)], Self, ListTabs, Rebuild, dead).Plus(joined.out)
  }

  ghost function CloseExecutor(s: State, conn: Conn): Step
    requires conn in s.executors
  {
    var id := s.executors[conn].id;
    var t := s.(executors := s.executors - {conn});
    var current := id in s.byId && s.byId[id].conn == conn;
    var gone := set r | r in s.pending && s.pending[r].exec == id;
    var u := if !current then Step(t, multiset{})
             else RejectAll(t.(byId := s.byId - {id},
                               groups := map g | g in s.groups && s.groups[g].exec != id :: s.groups[g]),
                            gone, "executor_gone");
    if s.primary == Some(id) then
      u.(s := u.s.(primary := if u.s.byId == map[] then None else Some(Oldest(u.s.byId))))
    else u
  }

  function CloseAgent(s: State, conn: Conn): Step
    requires conn in s.agents
  {
    var id := s.agents[conn];
    var gone := set r | r in s.pending && s.pending[r].agent == id;
    var released := ReleaseForAgent(s.(agents := s.agents - {conn}), id);
    Abandon(released.s, gone, "agent_gone").Plus(released.out)
  }

  function Stop(s: State): Step {
    Step(s.(executors := map[], byId := map[], agents := map[], groups := map[], pending := map[], primary := None),
         RejectAll(s, s.pending.Keys, "stopped").out)
  }

  // ---- The machine ----------------------------------------------------------------------

  datatype Label =
    | HelloFrame(conn: Conn, h: Hello, latest: Option<string>, dead: set<Conn>)
    | AgentCommand(conn: Conn, frame: FrameId, cmd: Command, dead: set<Conn>)
    | LocalCommand(agent: nat, call: nat, cmd: Command, aborted: bool, dead: set<Conn>)
    | ResultFrame(conn: Conn, req: ReqId, outcome: Outcome)
    | GiveUp(req: ReqId, code: string)               // the command's timer, or its abort signal
    | NewLocalAgent
    | LocalRelease(agent: nat)
    | Closed(conn: Conn)
    | Stopped

  // The command without a group that asks every executor in turn is not part of the model.
  predicate Routable(cmd: Command) { !(cmd.action == Tabs && cmd.group == "") }

  predicate Enabled(s: State, l: Label) {
    match l
    case HelloFrame(_, _, _, _) => true
    case AgentCommand(conn, _, cmd, _) => conn in s.agents && conn !in s.executors && Routable(cmd)
    case LocalCommand(n, _, cmd, _, _) => n in s.locals && Routable(cmd)
    case ResultFrame(conn, _, outcome) => conn in s.executors && !outcome.Own?
    case GiveUp(req, _) => req in s.pending
    case NewLocalAgent => true
    case LocalRelease(n) => n in s.locals
    case Closed(_) => true
    case Stopped => true
  }

  ghost function Apply(s: State, l: Label): Step
    requires Enabled(s, l)
  {
    match l
    case HelloFrame(conn, h, latest, dead) => HandleHello(s, conn, h, latest, dead)
    case AgentCommand(conn, frame, cmd, dead) => Route(s, s.agents[conn], cmd, ForAgent(conn, frame), false, dead)
    case LocalCommand(n, call, cmd, aborted, dead) => Route(s, Local(n), cmd, ForLocal(call), aborted, dead)
    case ResultFrame(_, req, outcome) => if req in s.pending then Settle(s, req, outcome) else Step(s, multiset{})
    case GiveUp(req, code) => Abandon(s, {req}, code)
    case NewLocalAgent => Step(s.(agentSeq := s.agentSeq + 1, locals := s.locals + {s.agentSeq + 1}), multiset{})
    case LocalRelease(n) => ReleaseForAgent(s, Local(n))
    case Closed(conn) =>
      if conn in s.executors then CloseExecutor(s, conn)
      else if conn in s.agents then CloseAgent(s, conn)
      else Step(s, multiset{})
    case Stopped => Stop(s)
  }
}
