/** What every handler of the broker keeps, and what follows for whole runs. */
module BrokerSafety {
  import opened Prelude
  import opened Broker

  predicate Live(s: State, a: AgentId) {
    match a
    case Self => false
    case Remote(n) => a in s.agents.Values
    case Local(n) => n in s.locals
  }

  ghost predicate Mirrored(s: State) {
    && (forall c | c in s.executors ::
          && s.executors[c].conn == c
          && s.executors[c].id in s.byId && s.byId[s.executors[c].id] == s.executors[c])
    && (forall id | id in s.byId ::
          && s.byId[id].id == id
          && s.byId[id].conn in s.executors && s.executors[s.byId[id].conn] == s.byId[id])
  }

  ghost predicate PrimaryConnected(s: State) {
    if s.byId == map[] then s.primary.None? else s.primary.Some? && s.primary.value in s.byId
  }

  ghost predicate NamesConnected(s: State) {
    && (forall g | g in s.groups :: s.groups[g].exec in s.byId)
    && (forall r | r in s.pending :: s.pending[r].exec in s.byId)
  }

  ghost predicate AgentsLive(s: State) {
    && (forall g | g in s.groups && s.groups[g].agent.Some? :: Live(s, s.groups[g].agent.value))
    && (forall r | r in s.pending :: s.pending[r].agent.Self? || Live(s, s.pending[r].agent))
  }

  ghost predicate Numbered(s: State) {
    && s.executors.Keys !! s.agents.Keys
    && (forall c | c in s.agents :: s.agents[c].Remote? && s.agents[c].n <= s.agentSeq)
    && (forall c, d | c in s.agents && d in s.agents && s.agents[c] == s.agents[d] :: c == d)
    && (forall r | r in s.pending :: r < s.nextReq)
    && (forall n | n in s.locals :: n <= s.agentSeq)
  }

  ghost predicate Inv(s: State) {
    Mirrored(s) && PrimaryConnected(s) && NamesConnected(s) && AgentsLive(s) && Numbered(s)
  }

  // ---- Hello ----------------------------------------------------------------------------

  lemma JoiningMirrors(s: State, conn: Conn, id: ExecId, name: string)
    requires Mirrored(s)
    ensures Mirrored(JoinExecutor(s, conn, id, name).s) <==> (conn in s.executors ==> s.executors[conn].id == id)
  {
    var t := JoinExecutor(s, conn, id, name).s;
    assert t.executors[conn].id == id;
    if conn in s.executors && s.executors[conn].id != id {
      var other := s.executors[conn].id;
      assert t.byId[other].conn == conn;
      assert !Mirrored(t);
    }
  }

  lemma JoiningKeepsNames(s: State, conn: Conn, id: ExecId, name: string)
    requires PrimaryConnected(s) && NamesConnected(s) && AgentsLive(s) && Numbered(s) && Mirrored(s)
    ensures var t := JoinExecutor(s, conn, id, name).s;
      PrimaryConnected(t) && NamesConnected(t) && AgentsLive(t) && (Numbered(t) <==> conn !in s.agents)
  {
    var t := JoinExecutor(s, conn, id, name).s;
    assert t == s.(executors := t.executors, byId := t.byId, serials := t.serials, primary := t.primary);
    assert forall e | e in s.byId :: e in t.byId;
    assert conn in t.executors && t.executors.Keys <= s.executors.Keys + {conn};
    assert t.byId != map[] by { assert id in t.byId; }
    hide JoinExecutor, Mirrored;
    assert forall a :: Live(s, a) <==> Live(t, a);
  }

  /** The handshake of an executor keeps the invariant exactly when the connection is not an agent
      and has not introduced itself under another id. */
  lemma JoinExecutorKeepsInvExactly(s: State, conn: Conn, id: ExecId, name: string)
    requires Inv(s)
    ensures Inv(JoinExecutor(s, conn, id, name).s) <==>
              conn !in s.agents && (conn in s.executors ==> s.executors[conn].id == id)
  {
    hide Mirrored, PrimaryConnected, NamesConnected, AgentsLive, Numbered, JoinExecutor;
    JoiningMirrors(s, conn, id, name);
    JoiningKeepsNames(s, conn, id, name);
  }

  // What the connection's earlier identity, if it has one, holds and waits for.
  ghost predicate NothingUnder(s: State, conn: Conn) {
    conn in s.agents ==>
      && (forall g | g in s.groups :: s.groups[g].agent != Some(s.agents[conn]))
      && (forall r | r in s.pending :: s.pending[r].agent != s.agents[conn])
  }

  lemma JoiningKeepsAgents(s: State, conn: Conn)
    requires Numbered(s)
    ensures forall a :: Live(s, a) ==> Live(JoinAgent(s, conn).s, a) || (conn in s.agents && a == s.agents[conn])
    ensures conn in s.agents ==> !Live(JoinAgent(s, conn).s, s.agents[conn])
  {
    var t := JoinAgent(s, conn).s;
    forall a | Live(s, a) && (conn in s.agents ==> a != s.agents[conn]) ensures Live(t, a) {
      if a.Remote? {
        var c :| c in s.agents && s.agents[c] == a;
        assert t.agents[c] == a;
      }
    }
  }

  lemma JoiningNumbers(s: State, conn: Conn)
    requires Numbered(s)
    ensures Numbered(JoinAgent(s, conn).s) <==> conn !in s.executors
  {
    var t := JoinAgent(s, conn).s;
    assert conn in t.agents;
    assert t.agents.Keys == s.agents.Keys + {conn};
  }

  /** The handshake of an agent keeps it exactly when the connection is not an executor, and any
      earlier identity of the connection owns nothing and waits for nothing. */
  lemma JoinAgentKeepsInvExactly(s: State, conn: Conn)
    requires Inv(s)
    ensures Inv(JoinAgent(s, conn).s) <==> conn !in s.executors && NothingUnder(s, conn)
  {
    var t := JoinAgent(s, conn).s;
    assert Mirrored(t) && PrimaryConnected(t) && NamesConnected(t);
    hide Mirrored, PrimaryConnected, NamesConnected, Live, JoinAgent;
    JoiningKeepsAgents(s, conn);
    JoiningNumbers(s, conn);
    assert t.groups == s.groups && t.pending == s.pending && (conn in s.agents ==> s.agents[conn].Remote?);
    hide Numbered;
    assert AgentsLive(t) <==> NothingUnder(s, conn);
  }

  // The exact condition of the two lemmas above, on an accepted handshake.
  ghost predicate SoundHello(s: State, l: Label) {
    l.HelloFrame? && Accepts(s, l.h, l.latest) ==>
      if l.h.agent then
        l.conn !in s.executors && NothingUnder(s, l.conn)
      else l.conn !in s.agents && (l.conn in s.executors ==> s.executors[l.conn].id == IdOf(s, l.h))
  }

  ghost predicate SameConnections(s: State, t: State) {
    && t.executors == s.executors && t.byId == s.byId && t.primary == s.primary
    && t.agents == s.agents && t.locals == s.locals
  }

  // Groups and pending commands that name connected executors and live agents.
  ghost predicate GroupsFine(s: State, groups: map<Group, Owner>) {
    forall g | g in groups ::
      groups[g].exec in s.byId && (groups[g].agent.None? || Live(s, groups[g].agent.value))
  }

  ghost predicate PendingFine(s: State, pending: map<ReqId, Pending>, nextReq: nat) {
    forall r | r in pending ::
      pending[r].exec in s.byId && (pending[r].agent.Self? || Live(s, pending[r].agent)) && r < nextReq
  }

  lemma NamesAreFine(s: State)
    requires Inv(s)
    ensures GroupsFine(s, s.groups) && PendingFine(s, s.pending, s.nextReq)
  {
  }

  // A step that leaves the connections alone need only be checked for the names it uses.
  lemma OffConnections(s: State, t: State)
    requires Inv(s) && SameConnections(s, t) && t.agentSeq == s.agentSeq && s.nextReq <= t.nextReq
    requires GroupsFine(s, t.groups) && PendingFine(s, t.pending, t.nextReq)
    ensures Inv(t)
  {
    assert forall a :: Live(s, a) <==> Live(t, a);
    assert Mirrored(t) && PrimaryConnected(t) by { hide AgentsLive, Numbered, NamesConnected, GroupsFine, PendingFine, Live; }
  }

  lemma OrphansAreFine(s: State, groups: map<Group, Owner>, found: set<Group>, exec: ExecId)
    requires GroupsFine(s, groups) && exec in s.byId
    ensures GroupsFine(s, groups + map g | g in found && g != "" && g !in groups :: Owner(exec, None))
  {
  }

  lemma SettleKeepsInv(s: State, r: ReqId, outcome: Outcome)
    requires Inv(s) && r in s.pending
    ensures Inv(Settle(s, r, outcome).s)
  {
    hide Inv, GroupsFine;
    NamesAreFine(s);
    if outcome.Data? { OrphansAreFine(s, s.groups, outcome.groups, s.pending[r].exec); }
    OffConnections(s, Settle(s, r, outcome).s);
  }

  lemma SendKeepsInv(s: State, exec: Exec, agent: AgentId, cmd: Command, waiter: Waiter, dead: set<Conn>)
    requires Inv(s) && exec.id in s.byId && (agent.Self? || Live(s, agent))
    ensures Inv(SendToExecutor(s, exec, agent, cmd, waiter, dead).s)
  {
    hide Inv, GroupsFine, Live, Settle;
    NamesAreFine(s);
    var t := s.(pending := s.pending[s.nextReq := Pending(agent, exec.id, waiter)], nextReq := s.nextReq + 1);
    OffConnections(s, t);
    SettleKeepsInv(t, s.nextReq, Error("send_failed"));
  }

  lemma NewTokenKeepsInv(s: State, t: State)
    requires Inv(s) && t == s.(token := t.token, execSeq := t.execSeq)
    ensures Inv(t)
  {
    hide Inv;
    NamesAreFine(s);
    OffConnections(s, t);
  }

  lemma JoinedUnder(s: State, conn: Conn, id: ExecId, name: string)
    ensures var t := JoinExecutor(s, conn, id, name).s; id in t.byId && t.byId[id].id == id
  {
  }

  lemma HelloKeepsInv(s: State, l: Label)
    requires Inv(s) && l.HelloFrame? && Enabled(s, l) && SoundHello(s, l)
    ensures Inv(Apply(s, l).s)
  {
    hide Inv, JoinAgent, JoinExecutor, SendToExecutor, Accepts, TokenAfter, IdOf;
    var t := s.(token := TokenAfter(s, l.h, l.latest));
    NewTokenKeepsInv(s, t);
    if Accepts(s, l.h, l.latest) {
      if l.h.agent {
        JoinAgentKeepsInvExactly(t, l.conn);
      } else {
        var i, id := Introduced(s, l.h, l.latest), IdOf(s, l.h);
        NewTokenKeepsInv(s, i);
        JoinExecutorKeepsInvExactly(i, l.conn, id, l.h.name);
        JoinedUnder(i, l.conn, id, l.h.name);
        var u := JoinExecutor(i, l.conn, id, l.h.name).s;
        SendKeepsInv(u, u.byId[id], Self, ListTabs, Rebuild, l.dead);
      }
    }
  }

  lemma PickedIsConnected(s: State, target: string)
    requires Inv(s) && PickExecutor(s, target).Found?
    ensures PickExecutor(s, target).exec.id in s.byId
    ensures s.byId[PickExecutor(s, target).exec.id] == PickExecutor(s, target).exec
  {
  }

  /** Under the invariant the last-resort branches are dead: an owned group always has its browser,
      and with no target the primary is taken. */
  lemma DeadBranches(s: State, agent: AgentId, cmd: Command)
    requires Inv(s)
    ensures ResolveExecutor(s, agent, cmd).1 != Refused("executor_gone")
    ensures s.byId != map[] ==>
              s.primary.Some? && s.primary.value in s.byId &&
              PickExecutor(s, "") == Found(s.byId[s.primary.value])
  {
  }

  lemma ResolvingKeepsConnections(s: State, agent: AgentId, cmd: Command)
    ensures var t := ResolveExecutor(s, agent, cmd).0;
      SameConnections(s, t) && t.agentSeq == s.agentSeq && t.nextReq == s.nextReq && t.pending == s.pending
  {
    hide PickExecutor;
  }

  lemma ResolvedGroupsAreFine(s: State, agent: AgentId, cmd: Command)
    requires Inv(s) && Live(s, agent)
    ensures GroupsFine(s, ResolveExecutor(s, agent, cmd).0.groups)
    ensures ResolveExecutor(s, agent, cmd).1.Found? ==> ResolveExecutor(s, agent, cmd).1.exec.id in s.byId
  {
    NamesAreFine(s);
    if PickExecutor(s, cmd.target).Found? { PickedIsConnected(s, cmd.target); }
    assert cmd.group in s.groups ==> s.groups[cmd.group].exec in s.byId && s.byId[s.groups[cmd.group].exec].id in s.byId;
    hide PickExecutor, Inv, Live, PendingFine;
  }

  lemma ResolveKeepsInv(s: State, agent: AgentId, cmd: Command)
    requires Inv(s) && Live(s, agent)
    ensures Inv(ResolveExecutor(s, agent, cmd).0) && Live(ResolveExecutor(s, agent, cmd).0, agent)
    ensures ResolveExecutor(s, agent, cmd).1.Found? ==>
              ResolveExecutor(s, agent, cmd).1.exec.id in ResolveExecutor(s, agent, cmd).0.byId
  {
    hide ResolveExecutor, Inv, GroupsFine, PendingFine;
    NamesAreFine(s);
    ResolvingKeepsConnections(s, agent, cmd);
    ResolvedGroupsAreFine(s, agent, cmd);
    OffConnections(s, ResolveExecutor(s, agent, cmd).0);
  }

  lemma ReleaseKeepsInv(s: State, agent: AgentId)
    requires Inv(s)
    ensures Inv(ReleaseForAgent(s, agent).s)
  {
    hide Inv, Live, HeldBy;
    NamesAreFine(s);
    OffConnections(s, ReleaseForAgent(s, agent).s);
  }

  lemma RouteKeepsInv(s: State, agent: AgentId, cmd: Command, waiter: Waiter, aborted: bool, dead: set<Conn>)
    requires Inv(s) && Live(s, agent) && !waiter.Rebuild?
    ensures Inv(Route(s, agent, cmd, waiter, aborted, dead).s)
  {
    hide Inv, Live, ResolveExecutor, PickExecutor, SendToExecutor, ReleaseForAgent;
    if cmd.action == Release {
      ReleaseKeepsInv(s, agent);
    } else if cmd.action != Targets {
      var t, p := s, PickExecutor(s, cmd.target);
      if cmd.action == Cookies {
        if p.Found? { PickedIsConnected(s, cmd.target); }
      } else {
        t, p := ResolveExecutor(s, agent, cmd).0, ResolveExecutor(s, agent, cmd).1;
        ResolveKeepsInv(s, agent, cmd);
      }
      if p.Found? { SendKeepsInv(t, p.exec, agent, cmd, waiter, dead); }
    }
  }

  lemma RejectingState(s: State, gone: set<ReqId>, code: string)
    requires gone <= s.pending.Keys
    ensures RejectAll(s, gone, code).s == s.(pending := s.pending - gone)
    ensures Abandon(s, gone, code).s == s.(pending := s.pending - gone)
  {
  }

  // What is left when the connection of executor `id` closes.
  lemma AfterClosing(s: State, conn: Conn, id: ExecId) returns (gone: set<ReqId>)
    requires conn in s.executors && s.executors[conn].id == id && id in s.byId && s.byId[id].conn == conn
    ensures gone == (set r | r in s.pending && s.pending[r].exec == id)
    ensures CloseExecutor(s, conn).s == s.(
      executors := s.executors - {conn}, byId := s.byId - {id},
      groups := map g | g in s.groups && s.groups[g].exec != id :: s.groups[g],
      pending := s.pending - gone,
      primary := if s.primary != Some(id) then s.primary
                 else if s.byId - {id} == map[] then None else Some(Oldest(s.byId - {id})))
  {
    hide RejectAll, Oldest;
    gone := set r | r in s.pending && s.pending[r].exec == id;
    RejectingState(s.(executors := s.executors - {conn}, byId := s.byId - {id},
                      groups := map g | g in s.groups && s.groups[g].exec != id :: s.groups[g]), gone, "executor_gone");
  }

  lemma LiveAsBefore(s: State, t: State)
    requires t.agents == s.agents && t.locals == s.locals
    ensures forall a :: Live(s, a) <==> Live(t, a)
  {
  }

  lemma ClosingKeepsNames(s: State, conn: Conn)
    requires Inv(s) && conn in s.executors
    ensures var t := CloseExecutor(s, conn).s;
      NamesConnected(t) && AgentsLive(t) && Numbered(t)
  {
    hide PrimaryConnected, Oldest, CloseExecutor;
    var gone := AfterClosing(s, conn, s.executors[conn].id);
    hide Mirrored;
    LiveAsBefore(s, CloseExecutor(s, conn).s);
    hide Live;
  }

  lemma ClosingMirrors(s: State, conn: Conn)
    requires Mirrored(s) && conn in s.executors
    ensures Mirrored(CloseExecutor(s, conn).s)
  {
    hide Oldest, CloseExecutor;
    var gone := AfterClosing(s, conn, s.executors[conn].id);
  }

  lemma CloseExecutorKeepsInv(s: State, conn: Conn)
    requires Inv(s) && conn in s.executors
    ensures Inv(CloseExecutor(s, conn).s)
  {
    hide NamesConnected, AgentsLive, Numbered, Oldest, CloseExecutor;
    ClosingKeepsNames(s, conn);
    ClosingMirrors(s, conn);
    var id := s.executors[conn].id;
    var gone := AfterClosing(s, conn, id);
    hide Mirrored;
    if s.primary != Some(id) { assert s.primary.value in s.byId - {id}; }
  }

  lemma ClosingKeepsAgents(s: State, conn: Conn)
    requires Numbered(s) && conn in s.agents
    ensures forall a | Live(s, a) && a != s.agents[conn] :: Live(CloseAgent(s, conn).s, a)
  {
    hide Abandon;
    var t, id := CloseAgent(s, conn).s, s.agents[conn];
    var released := ReleaseForAgent(s.(agents := s.agents - {conn}), id).s;
    RejectingState(released, set r | r in s.pending && s.pending[r].agent == id, "agent_gone");
    forall a | Live(s, a) && a != s.agents[conn] ensures Live(t, a) {
      if a.Remote? {
        var c :| c in s.agents && s.agents[c] == a;
        assert c in t.agents && t.agents[c] == a;
      }
    }
  }

  lemma AfterAgentCloses(s: State, conn: Conn) returns (gone: set<ReqId>)
    requires conn in s.agents
    ensures gone == set r | r in s.pending && s.pending[r].agent == s.agents[conn]
    ensures CloseAgent(s, conn).s == s.(
      agents := s.agents - {conn}, groups := CloseAgent(s, conn).s.groups, pending := s.pending - gone)
    ensures CloseAgent(s, conn).s.groups.Keys == s.groups.Keys
    ensures forall g | g in s.groups :: var was, now := s.groups[g], CloseAgent(s, conn).s.groups[g];
      now == if was.agent == Some(s.agents[conn]) then was.(agent := None) else was
  {
    hide Abandon, HeldBy;
    var id := s.agents[conn];
    gone := set r | r in s.pending && s.pending[r].agent == id;
    RejectingState(ReleaseForAgent(s.(agents := s.agents - {conn}), id).s, gone, "agent_gone");
  }

  lemma CloseAgentKeepsInv(s: State, conn: Conn)
    requires Inv(s) && conn in s.agents
    ensures Inv(CloseAgent(s, conn).s)
  {
    hide Live, CloseAgent;
    var gone := AfterAgentCloses(s, conn);
    ClosingKeepsAgents(s, conn);
  }

  lemma GiveUpKeepsInv(s: State, r: ReqId, code: string)
    requires Inv(s) && r in s.pending
    ensures Inv(Abandon(s, {r}, code).s)
  {
    hide Inv, GroupsFine, Live, Cancels;
    NamesAreFine(s);
    OffConnections(s, Abandon(s, {r}, code).s);
  }

  lemma ExecutorsUntouched(s: State, t: State)
    requires Mirrored(s) && PrimaryConnected(s) && NamesConnected(s)
    requires t.executors == s.executors && t.byId == s.byId && t.primary == s.primary
    requires t.groups == s.groups && t.pending == s.pending
    ensures Mirrored(t) && PrimaryConnected(t) && NamesConnected(t)
  {
  }

  lemma NewLocalKeepsNames(s: State, t: State)
    requires AgentsLive(s) && Numbered(s) && t == s.(agentSeq := s.agentSeq + 1, locals := s.locals + {s.agentSeq + 1})
    ensures AgentsLive(t) && Numbered(t)
  {
    assert forall a | Live(s, a) :: Live(t, a);
    hide Live;
  }

  lemma NewLocalKeepsInv(s: State)
    requires Inv(s)
    ensures Inv(Apply(s, NewLocalAgent).s)
  {
    hide Mirrored, PrimaryConnected, NamesConnected, AgentsLive, Numbered;
    var t := s.(agentSeq := s.agentSeq + 1, locals := s.locals + {s.agentSeq + 1});
    NewLocalKeepsNames(s, t);
    ExecutorsUntouched(s, t);
  }

  lemma StopKeepsInv(s: State)
    requires Inv(s)
    ensures Inv(Stop(s).s)
  {
    hide RejectAll;
  }

  lemma AgentIsLive(s: State, conn: Conn)
    requires Inv(s) && conn in s.agents
    ensures Live(s, s.agents[conn])
  {
  }

  lemma StepKeepsInv(s: State, l: Label)
    requires Inv(s) && Enabled(s, l) && SoundHello(s, l)
    ensures Inv(Apply(s, l).s)
  {
    hide Inv, SoundHello, Route, HandleHello, CloseExecutor, CloseAgent, Settle, Abandon, Stop, ReleaseForAgent;
    match l {
      case HelloFrame(_, _, _, _) => HelloKeepsInv(s, l);
      case AgentCommand(conn, frame, cmd, dead) =>
        AgentIsLive(s, conn);
        RouteKeepsInv(s, s.agents[conn], cmd, ForAgent(conn, frame), false, dead);
      case LocalCommand(n, call, cmd, aborted, dead) =>
        RouteKeepsInv(s, Local(n), cmd, ForLocal(call), aborted, dead);
      case ResultFrame(_, req, outcome) => if req in s.pending { SettleKeepsInv(s, req, outcome); }
      case Closed(conn) =>
        if conn in s.executors { CloseExecutorKeepsInv(s, conn); }
        else if conn in s.agents { CloseAgentKeepsInv(s, conn); }
      case GiveUp(r, code) => GiveUpKeepsInv(s, r, code);
      case NewLocalAgent => NewLocalKeepsInv(s);
      case LocalRelease(n) => ReleaseKeepsInv(s, Local(n));
      case Stopped => StopKeepsInv(s);
    }
  }

  ghost predicate IsRun(tr: seq<State>, ls: seq<Label>) {
    && |tr| == |ls| + 1
    && forall i | 0 <= i < |ls| :: Enabled(tr[i], ls[i]) && tr[i + 1] == Apply(tr[i], ls[i]).s
  }

  /** Every connect, hello, message, close, timeout, abort and stop keeps the invariant, as long as
      every accepted handshake meets its exact condition. */
  lemma {:induction false} InvAlways(tr: seq<State>, ls: seq<Label>, i: nat)
    requires IsRun(tr, ls) && Inv(tr[0]) && i < |tr|
    requires forall k | 0 <= k < |ls| :: SoundHello(tr[k], ls[k])
    ensures Inv(tr[i])
  {
    if i > 0 {
      InvAlways(tr, ls, i - 1);
      assert Enabled(tr[i - 1], ls[i - 1]);
      StepKeepsInv(tr[i - 1], ls[i - 1]);
    }
  }

  predicate AcceptedHello(s: State, l: Label, conn: Conn) {
    l.HelloFrame? && l.conn == conn && Accepts(s, l.h, l.latest)
  }

  lemma SendingKeepsConnections(s: State, exec: Exec, agent: AgentId, cmd: Command, waiter: Waiter, dead: set<Conn>)
    ensures SameConnections(s, SendToExecutor(s, exec, agent, cmd, waiter, dead).s)
  {
  }

  lemma RoutingKeepsConnections(s: State, agent: AgentId, cmd: Command, waiter: Waiter, aborted: bool, dead: set<Conn>)
    requires !waiter.Rebuild?
    ensures SameConnections(s, Route(s, agent, cmd, waiter, aborted, dead).s)
  {
    if cmd.action != Targets && cmd.action != Release {
      var t, p := s, PickExecutor(s, cmd.target);
      if cmd.action != Cookies {
        t, p := ResolveExecutor(s, agent, cmd).0, ResolveExecutor(s, agent, cmd).1;
        ResolvingKeepsConnections(s, agent, cmd);
      }
      if p.Found? { SendingKeepsConnections(t, p.exec, agent, cmd, waiter, dead); }
    }
  }

  lemma NewConnectionsSayHello(s: State, l: Label, conn: Conn)
    requires Enabled(s, l)
    requires conn in Apply(s, l).s.executors || conn in Apply(s, l).s.agents
    ensures conn in s.executors || conn in s.agents || AcceptedHello(s, l, conn)
  {
    hide Route, HandleHello, CloseExecutor, CloseAgent, Settle, Abandon, Stop, ReleaseForAgent;
    match l {
      case AgentCommand(c, frame, cmd, dead) =>
        RoutingKeepsConnections(s, s.agents[c], cmd, ForAgent(c, frame), false, dead);
      case LocalCommand(n, call, cmd, aborted, dead) =>
        RoutingKeepsConnections(s, Local(n), cmd, ForLocal(call), aborted, dead);
      case Closed(c) => ClosingAddsNothing(s, c);
      case HelloFrame(_, _, _, _) => HelloAddsOnlyItself(s, l, conn);
      case _ => QuietStepsAddNothing(s, l);
    }
  }

  lemma JoiningAddsOnlyItself(s: State, conn: Conn, id: ExecId, name: string)
    ensures var t := JoinExecutor(s, conn, id, name).s;
      t.executors.Keys <= s.executors.Keys + {conn} && t.agents == s.agents
  {
  }

  lemma HelloAddsOnlyItself(s: State, l: Label, conn: Conn)
    requires l.HelloFrame? && (conn in Apply(s, l).s.executors || conn in Apply(s, l).s.agents)
    ensures conn in s.executors || conn in s.agents || AcceptedHello(s, l, conn)
  {
    hide SendToExecutor, IdOf, TokenAfter, JoinExecutor;
    if Accepts(s, l.h, l.latest) && !l.h.agent {
      JoinedUnder(Introduced(s, l.h, l.latest), l.conn, IdOf(s, l.h), l.h.name);
      JoiningAddsOnlyItself(Introduced(s, l.h, l.latest), l.conn, IdOf(s, l.h), l.h.name);
      var joined := JoinExecutor(Introduced(s, l.h, l.latest), l.conn, IdOf(s, l.h), l.h.name);
      SendingKeepsConnections(joined.s, joined.s.byId[IdOf(s, l.h)], Self, ListTabs, Rebuild, l.dead);
    }
  }

  lemma QuietStepsAddNothing(s: State, l: Label)
    requires Enabled(s, l) && (l.ResultFrame? || l.GiveUp? || l.NewLocalAgent? || l.LocalRelease? || l.Stopped?)
    ensures Apply(s, l).s.executors.Keys <= s.executors.Keys && Apply(s, l).s.agents.Keys <= s.agents.Keys
  {
  }

  lemma ClosingAddsNothing(s: State, conn: Conn)
    ensures var t := Apply(s, Closed(conn)).s;
      t.executors.Keys <= s.executors.Keys && t.agents.Keys <= s.agents.Keys
  {
    hide Oldest, RejectAll, CloseAgent;
    if conn in s.executors {
      var id := s.executors[conn].id;
      if id in s.byId && s.byId[id].conn == conn {
        hide CloseExecutor;
        var gone := AfterClosing(s, conn, id);
      }
    } else if conn in s.agents {
      hide CloseExecutor;
      var gone := AfterAgentCloses(s, conn);
    }
  }

  predicate Known(s: State, conn: Conn) { conn in s.executors || conn in s.agents }

  lemma NewcomersSayHello(tr: seq<State>, ls: seq<Label>, k: nat, conn: Conn)
    requires IsRun(tr, ls) && k < |ls| && Known(tr[k + 1], conn)
    ensures Known(tr[k], conn) || AcceptedHello(tr[k], ls[k], conn)
  {
    assert Enabled(tr[k], ls[k]);
    NewConnectionsSayHello(tr[k], ls[k], conn);
  }

  lemma {:induction false} ConnectionsIntroducedThemselves(tr: seq<State>, ls: seq<Label>, i: nat, conn: Conn)
    requires IsRun(tr, ls) && i < |tr| && tr[0].executors == map[] && tr[0].agents == map[]
    requires Known(tr[i], conn)
    ensures exists k | 0 <= k < i :: AcceptedHello(tr[k], ls[k], conn)
  {
    var k := i;
    while !(k > 0 && AcceptedHello(tr[k - 1], ls[k - 1], conn))
      invariant 0 <= k <= i && Known(tr[k], conn)
      decreases k
    {
      NewcomersSayHello(tr, ls, k - 1, conn);
      k := k - 1;
    }
  }

  /** In particular when every connection has at most one accepted handshake, starting from an idle
      broker. */
  lemma {:induction false} InvWhenEachIntroducesItselfOnce(tr: seq<State>, ls: seq<Label>, token: string, i: nat)
    requires IsRun(tr, ls) && tr[0] == Initial(token) && i < |tr|
    requires forall conn, j, k | 0 <= j < k < |ls| && AcceptedHello(tr[j], ls[j], conn) ::
               !AcceptedHello(tr[k], ls[k], conn)
    ensures Inv(tr[i])
  {
    forall k | 0 <= k < |ls| ensures SoundHello(tr[k], ls[k]) {
      var l := ls[k];
      if l.HelloFrame? && AcceptedHello(tr[k], l, l.conn) {
        if l.conn in tr[k].executors || l.conn in tr[k].agents {
          ConnectionsIntroducedThemselves(tr, ls, k, l.conn);
        }
      }
    }
    InvAlways(tr, ls, i);
  }
}
