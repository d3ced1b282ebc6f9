/** Who drives a group: from the step that claims it until the claim ends, one agent on one
    executor. */
module BrokerOwnership {
  import opened Prelude
  import opened Broker
  import opened BrokerSafety

  predicate Owns(s: State, g: Group, a: AgentId, e: ExecId) {
    g in s.groups && s.groups[g] == Owner(e, Some(a))
  }

  // The agent that lets go of everything it holds in this step.
  function Releasing(s: State, l: Label): Option<AgentId>
    requires Enabled(s, l)
  {
    match l
    case AgentCommand(conn, _, cmd, _) => if cmd.action == Release then Some(s.agents[conn]) else None
    case LocalCommand(n, _, cmd, _, _) => if cmd.action == Release then Some(Local(n)) else None
    case LocalRelease(n) => Some(Local(n))
    case Closed(conn) => if conn !in s.executors && conn in s.agents then Some(s.agents[conn]) else None
    case _ => None
  }

  // The agent releases or disconnects, the executor goes away, or the broker stops.
  predicate Ends(s: State, l: Label, a: AgentId, e: ExecId)
    requires Enabled(s, l)
  {
    || Releasing(s, l) == Some(a)
    || (l.Closed? && l.conn in s.executors && s.executors[l.conn].id == e)
    || l.Stopped?
  }

  lemma ResolvingRespectsOwners(s: State, agent: AgentId, cmd: Command, g: Group, a: AgentId, e: ExecId)
    requires Inv(s)
    ensures var (t, p) := ResolveExecutor(s, agent, cmd);
      && (Owns(s, g, a, e) ==> Owns(t, g, a, e))
      && (p.Found? ==> Owns(t, cmd.group, agent, p.exec.id) && p.exec.id in s.byId && p.exec == s.byId[p.exec.id])
  {
    hide Inv, PickExecutor, ResolveExecutor, Owns;
    KeyedById(s);
    if PickExecutor(s, cmd.target).Found? { PickedIsConnected(s, cmd.target); }
    ResolvedOwns(s, agent, cmd);
    if Owns(s, g, a, e) { ResolvingKeepsOwner(s, agent, cmd, g, a, e); }
  }

  lemma ResolvingKeepsOwner(s: State, agent: AgentId, cmd: Command, g: Group, a: AgentId, e: ExecId)
    requires Owns(s, g, a, e)
    ensures Owns(ResolveExecutor(s, agent, cmd).0, g, a, e)
  {
    hide PickExecutor;
  }

  lemma ResolvedOwns(s: State, agent: AgentId, cmd: Command)
    requires forall id | id in s.byId :: s.byId[id].id == id
    requires var p := PickExecutor(s, cmd.target);
      p.Found? ==> p.exec.id in s.byId && p.exec == s.byId[p.exec.id]
    ensures var (t, p) := ResolveExecutor(s, agent, cmd);
      p.Found? ==> Owns(t, cmd.group, agent, p.exec.id) && p.exec.id in s.byId && p.exec == s.byId[p.exec.id]
  {
    hide PickExecutor;
  }

  lemma KeyedById(s: State)
    requires Inv(s)
    ensures forall id | id in s.byId :: s.byId[id].id == id
  {
  }

  // What sending a command does, whichever way it goes.
  lemma SendingInFull(s: State, exec: Exec, agent: AgentId, cmd: Command, waiter: Waiter, dead: set<Conn>)
    ensures var (t, out) := (SendToExecutor(s, exec, agent, cmd, waiter, dead).s, SendToExecutor(s, exec, agent, cmd, waiter, dead).out);
      && t.groups == s.groups && t.nextReq == s.nextReq + 1
      && (if exec.conn in dead then
            && t.pending == s.pending - {s.nextReq}
            && out == multiset{Settled(s.nextReq)} + (if waiter.Rebuild? then multiset{} else
                        multiset{Replied(waiter, Error("send_failed"), Some(s.nextReq))})
          else
            && t.pending == s.pending[s.nextReq := Pending(agent, exec.id, waiter)]
            && out == multiset{Dispatched(s.nextReq, agent, exec.id, exec.conn, cmd)})
  {
    assert s.pending[s.nextReq := Pending(agent, exec.id, waiter)] - {s.nextReq} == s.pending - {s.nextReq};
  }

  // ... and what the handshake adds around it.
  lemma HelloInFull(s: State, l: Label)
    requires l.HelloFrame? && Enabled(s, l)
    ensures Apply(s, l).s.groups == s.groups
    ensures !Accepts(s, l.h, l.latest) ==>
      Apply(s, l).s.pending == s.pending && Apply(s, l).s.nextReq == s.nextReq &&
      Apply(s, l).out == multiset{Rejected(l.conn), HungUp(l.conn)}
    ensures Accepts(s, l.h, l.latest) && l.h.agent ==>
      Apply(s, l).s.pending == s.pending && Apply(s, l).s.nextReq == s.nextReq && Apply(s, l).out == multiset{Ready(l.conn)}
    ensures Accepts(s, l.h, l.latest) && !l.h.agent ==>
      var joined := JoinExecutor(Introduced(s, l.h, l.latest), l.conn, IdOf(s, l.h), l.h.name);
      && Apply(s, l) == SendToExecutor(joined.s, joined.s.byId[IdOf(s, l.h)], Self, ListTabs, Rebuild, l.dead).Plus(joined.out)
      && joined.s.pending == s.pending && joined.s.nextReq == s.nextReq
      && (joined.out == multiset{Ready(l.conn)} || exists c :: joined.out == multiset{Ready(l.conn), HungUp(c)})
  {
    hide Decimal, JoinExecutor, SendToExecutor;
    if Accepts(s, l.h, l.latest) && !l.h.agent {
      var i, id := Introduced(s, l.h, l.latest), IdOf(s, l.h);
      var joined := JoinExecutor(i, l.conn, id, l.h.name);
      JoiningInFull(i, l.conn, id, l.h.name);
      SendingInFull(joined.s, joined.s.byId[id], Self, ListTabs, Rebuild, l.dead);
    }
  }

  lemma JoiningInFull(s: State, conn: Conn, id: ExecId, name: string)
    ensures var joined := JoinExecutor(s, conn, id, name);
      && joined.s.groups == s.groups && joined.s.pending == s.pending && joined.s.nextReq == s.nextReq && id in joined.s.byId
      && (joined.out == multiset{Ready(conn)} || exists c :: joined.out == multiset{Ready(conn), HungUp(c)})
  {
    if id in s.byId && s.byId[id].conn != conn {
      assert JoinExecutor(s, conn, id, name).out == multiset{Ready(conn), HungUp(s.byId[id].conn)};
    }
  }

  lemma SendingRespectsOwners(s: State, exec: Exec, agent: AgentId, cmd: Command, waiter: Waiter, dead: set<Conn>,
                              g: Group, a: AgentId, e: ExecId)
    requires Owns(s, g, a, e)
    ensures Owns(SendToExecutor(s, exec, agent, cmd, waiter, dead).s, g, a, e)
  {
  }

  lemma RoutingRespectsOwners(s: State, agent: AgentId, cmd: Command, waiter: Waiter, aborted: bool, dead: set<Conn>,
                              g: Group, a: AgentId, e: ExecId)
    requires Inv(s) && Owns(s, g, a, e) && !waiter.Rebuild?
    ensures Owns(Route(s, agent, cmd, waiter, aborted, dead).s, g, a, e) <==> !(cmd.action == Release && agent == a)
  {
    hide Inv, PickExecutor, ResolveExecutor, SendToExecutor;
    if cmd.action != Targets && cmd.action != Release {
      var t, p := s, PickExecutor(s, cmd.target);
      if cmd.action != Cookies {
        t, p := ResolveExecutor(s, agent, cmd).0, ResolveExecutor(s, agent, cmd).1;
        ResolvingRespectsOwners(s, agent, cmd, g, a, e);
      }
      if p.Found? { SendingRespectsOwners(t, p.exec, agent, cmd, waiter, dead, g, a, e); }
    }
  }

  lemma SettlingRespectsOwners(s: State, r: ReqId, outcome: Outcome, g: Group, a: AgentId, e: ExecId)
    requires r in s.pending && Owns(s, g, a, e)
    ensures Owns(Settle(s, r, outcome).s, g, a, e)
  {
  }

  lemma ReleasingEndsClaimsExactly(s: State, agent: AgentId, g: Group, a: AgentId, e: ExecId)
    requires Owns(s, g, a, e)
    ensures Owns(ReleaseForAgent(s, agent).s, g, a, e) <==> agent != a
  {
  }

  lemma ClosingEndsClaimsExactly(s: State, conn: Conn, g: Group, a: AgentId, e: ExecId)
    requires Inv(s) && Owns(s, g, a, e)
    ensures Owns(Apply(s, Closed(conn)).s, g, a, e) <==> !Ends(s, Closed(conn), a, e)
  {
    hide CloseExecutor, CloseAgent, Oldest;
    if conn in s.executors {
      var gone := AfterClosing(s, conn, s.executors[conn].id);
    } else if conn in s.agents {
      var gone := AfterAgentCloses(s, conn);
    }
    hide Inv;
  }

  lemma QuietStepsRespectOwners(s: State, l: Label, g: Group, a: AgentId, e: ExecId)
    requires Inv(s) && Enabled(s, l) && Owns(s, g, a, e)
    requires l.ResultFrame? || l.GiveUp? || l.NewLocalAgent? || l.Stopped?
    ensures Owns(Apply(s, l).s, g, a, e) <==> !Ends(s, l, a, e)
  {
    hide Inv, Settle, RejectAll, Cancels;
    if l.ResultFrame? && l.req in s.pending { SettlingRespectsOwners(s, l.req, l.outcome, g, a, e); }
    if l.GiveUp? { RejectingState(s, {l.req}, l.code); }
  }

  /** A claim ends exactly when its agent releases or disconnects, its executor goes away, or the
      broker stops. */
  lemma ClaimsEndExactly(s: State, l: Label, g: Group, a: AgentId, e: ExecId)
    requires Inv(s) && Enabled(s, l) && Owns(s, g, a, e)
    ensures Owns(Apply(s, l).s, g, a, e) <==> !Ends(s, l, a, e)
  {
    hide Inv, HandleHello, Route, CloseExecutor, CloseAgent, Settle, Abandon, Stop, ReleaseForAgent;
    match l {
      case HelloFrame(conn, h, latest, dead) => HelloInFull(s, l);
      case AgentCommand(conn, frame, cmd, dead) =>
        RoutingRespectsOwners(s, s.agents[conn], cmd, ForAgent(conn, frame), false, dead, g, a, e);
      case LocalCommand(n, call, cmd, aborted, dead) =>
        RoutingRespectsOwners(s, Local(n), cmd, ForLocal(call), aborted, dead, g, a, e);
      case LocalRelease(n) => ReleasingEndsClaimsExactly(s, Local(n), g, a, e);
      case Closed(conn) => ClosingEndsClaimsExactly(s, conn, g, a, e);
      case _ => QuietStepsRespectOwners(s, l, g, a, e);
    }
  }

  // ---- Dispatches -----------------------------------------------------------------------

  // Group-scoped: sent for an agent, and not the one action that is about the whole browser.
  predicate GroupScoped(ev: Event) { ev.Dispatched? && !ev.agent.Self? && ev.cmd.action != Cookies }

  lemma RoutedDispatch(s: State, agent: AgentId, cmd: Command, waiter: Waiter, aborted: bool, dead: set<Conn>, ev: Event)
    requires Inv(s) && !waiter.Rebuild?
    requires ev in Route(s, agent, cmd, waiter, aborted, dead).out && ev.Dispatched?
    ensures ev.agent == agent && ev.cmd == cmd && ev.exec in s.byId && ev.conn == s.byId[ev.exec].conn
    ensures cmd.action != Cookies ==> Owns(Route(s, agent, cmd, waiter, aborted, dead).s, cmd.group, agent, ev.exec)
  {
    hide Inv, PickExecutor, ResolveExecutor, SendToExecutor;
    var t, p := s, PickExecutor(s, cmd.target);
    if cmd.action == Cookies {
      if p.Found? {
        PickedIsConnected(s, cmd.target);
        SendingInFull(s, p.exec, agent, cmd, waiter, dead);
      }
    } else if cmd.action != Targets && cmd.action != Release {
      t, p := ResolveExecutor(s, agent, cmd).0, ResolveExecutor(s, agent, cmd).1;
      ResolvingRespectsOwners(s, agent, cmd, cmd.group, agent, "");
      if p.Found? {
        SendingRespectsOwners(t, p.exec, agent, cmd, waiter, dead, cmd.group, agent, p.exec.id);
        SendingInFull(t, p.exec, agent, cmd, waiter, dead);
      }
    }
  }

  lemma OnlyRoutingDispatches(s: State, l: Label, ev: Event)
    requires Enabled(s, l) && !l.AgentCommand? && !l.LocalCommand?
    requires ev.Dispatched? && !ev.agent.Self?
    ensures ev !in Apply(s, l).out
  {
    hide HandleHello, JoinExecutor, SendToExecutor, CloseExecutor, CloseAgent, Settle, Abandon, Stop, ReleaseForAgent;
    match l {
      case HelloFrame(conn, h, latest, dead) =>
        HelloInFull(s, l);
        JoiningInFull(Introduced(s, h, latest), conn, IdOf(s, h), h.name);
        var joined := JoinExecutor(Introduced(s, h, latest), conn, IdOf(s, h), h.name);
        SendingInFull(joined.s, joined.s.byId[IdOf(s, h)], Self, ListTabs, Rebuild, dead);
      case Closed(conn) => ClosingDispatchesNothing(s, conn, ev);
      case _ => QuietStepsDispatchNothing(s, l, ev);
    }
  }

  lemma QuietStepsDispatchNothing(s: State, l: Label, ev: Event)
    requires Enabled(s, l) && ev.Dispatched?
    requires l.ResultFrame? || l.GiveUp? || l.NewLocalAgent? || l.Stopped? || l.LocalRelease?
    ensures ev !in Apply(s, l).out
  {
  }

  lemma ClosingDispatchesNothing(s: State, conn: Conn, ev: Event)
    requires ev.Dispatched?
    ensures ev !in Apply(s, Closed(conn)).out
  {
    if conn in s.executors {
      var gone := set r | r in s.pending && s.pending[r].exec == s.executors[conn].id;
      assert ev !in RejectAll(s, gone, "executor_gone").out;
    } else if conn in s.agents {
      AgentCloseDispatchesNothing(s, conn, ev);
    }
  }

  lemma AgentCloseDispatchesNothing(s: State, conn: Conn, ev: Event)
    requires conn in s.agents && ev.Dispatched?
    ensures ev !in CloseAgent(s, conn).out
  {
  }

  /** A group-scoped command is only ever sent on behalf of the agent that owns the group once it is
      sent, to the executor the group lives on, over that executor's connection. */
  lemma DispatchesFollowOwnership(s: State, l: Label, ev: Event)
    requires Inv(s) && Enabled(s, l) && ev in Apply(s, l).out && GroupScoped(ev)
    ensures Owns(Apply(s, l).s, ev.cmd.group, ev.agent, ev.exec)
    ensures ev.exec in s.byId && ev.conn == s.byId[ev.exec].conn
  {
    if !l.AgentCommand? && !l.LocalCommand? { OnlyRoutingDispatches(s, l, ev); }
    match l {
      case AgentCommand(conn, frame, cmd, dead) =>
        RoutedDispatch(s, s.agents[conn], cmd, ForAgent(conn, frame), false, dead, ev);
      case LocalCommand(n, call, cmd, aborted, dead) =>
        RoutedDispatch(s, Local(n), cmd, ForLocal(call), aborted, dead, ev);
    }
  }

  // Every group-scoped command for g in this step is the owner's, to the owner's executor.
  ghost predicate OnlyDrivenBy(s: State, l: Label, g: Group, a: AgentId, e: ExecId)
    requires Enabled(s, l)
  {
    forall ev | ev in Apply(s, l).out && GroupScoped(ev) && ev.cmd.group == g :: ev.agent == a && ev.exec == e
  }

  lemma OneDriverPerStep(s: State, l: Label, g: Group, a: AgentId, e: ExecId)
    requires Inv(s) && Enabled(s, l) && Owns(s, g, a, e) && !Ends(s, l, a, e)
    ensures Owns(Apply(s, l).s, g, a, e) && OnlyDrivenBy(s, l, g, a, e)
  {
    ClaimsEndExactly(s, l, g, a, e);
    forall ev | ev in Apply(s, l).out && GroupScoped(ev) && ev.cmd.group == g ensures ev.agent == a && ev.exec == e {
      DispatchesFollowOwnership(s, l, ev);
    }
  }

  /** From the step an agent has claimed a group until that claim ends, every group-scoped command
      for the group comes from that agent and goes to that same executor. */
  lemma {:induction false} OneDriverPerGroup(tr: seq<State>, ls: seq<Label>, g: Group, a: AgentId, e: ExecId, i: nat)
    requires IsRun(tr, ls) && Inv(tr[0]) && i < |tr|
    requires forall k | 0 <= k < |ls| :: SoundHello(tr[k], ls[k])
    requires Owns(tr[0], g, a, e)
    requires forall k | 0 <= k < i :: Enabled(tr[k], ls[k]) && !Ends(tr[k], ls[k], a, e)
    ensures Owns(tr[i], g, a, e)
    ensures forall k | 0 <= k < i :: Enabled(tr[k], ls[k]) && OnlyDrivenBy(tr[k], ls[k], g, a, e)
  {
    if i > 0 {
      OneDriverPerGroup(tr, ls, g, a, e, i - 1);
      InvAlways(tr, ls, i - 1);
      OneDriverPerStep(tr[i - 1], ls[i - 1], g, a, e);
    }
  }

  // ---- Release frames -------------------------------------------------------------------

  predicate HasExecutor(s: State, e: ExecId, conn: Conn) { e in s.byId && s.byId[e].conn == conn }

  // The agent holds a group on the executor connected there.
  ghost predicate HoldsOn(s: State, agent: AgentId, e: ExecId, conn: Conn) {
    (exists g :: Owns(s, g, agent, e)) && HasExecutor(s, e, conn)
  }

  lemma ReleasedByRelease(s: State, agent: AgentId, e: ExecId, conn: Conn)
    ensures ReleaseForAgent(s, agent).out[Released(e, conn)] ==
            if HoldsOn(s, agent, e, conn) then 1 else 0
  {
    HeldIsOwned(s, agent, e);
  }

  lemma ReleasedByRouting(s: State, agent: AgentId, cmd: Command, waiter: Waiter, aborted: bool, dead: set<Conn>,
                          e: ExecId, conn: Conn)
    requires !waiter.Rebuild?
    ensures Route(s, agent, cmd, waiter, aborted, dead).out[Released(e, conn)] ==
            if cmd.action == Release && HoldsOn(s, agent, e, conn) then 1 else 0
  {
    if cmd.action == Release {
      ReleasedByRelease(s, agent, e, conn);
    } else if cmd.action != Targets {
      var t, p := s, PickExecutor(s, cmd.target);
      if cmd.action != Cookies { t, p := ResolveExecutor(s, agent, cmd).0, ResolveExecutor(s, agent, cmd).1; }
      if p.Found? { SendingInFull(t, p.exec, agent, cmd, waiter, dead); }
    }
  }

  lemma ReleasedByClosing(s: State, c: Conn, e: ExecId, conn: Conn)
    ensures Apply(s, Closed(c)).out[Released(e, conn)] ==
            if c !in s.executors && c in s.agents && HoldsOn(s, s.agents[c], e, conn)
            then 1 else 0
  {
    hide HoldsOn, CloseAgent, CloseExecutor;
    if c in s.executors {
      ExecutorCloseReleasesNothing(s, c, e, conn);
    } else if c in s.agents {
      AgentCloseReleases(s, c, e, conn);
    }
  }

  lemma ExecutorCloseReleasesNothing(s: State, c: Conn, e: ExecId, conn: Conn)
    requires c in s.executors
    ensures CloseExecutor(s, c).out[Released(e, conn)] == 0
  {
    var gone := set r | r in s.pending && s.pending[r].exec == s.executors[c].id;
    assert RejectAll(s, gone, "executor_gone").out[Released(e, conn)] == 0;
  }

  lemma AgentCloseReleases(s: State, c: Conn, e: ExecId, conn: Conn)
    requires c in s.agents
    ensures CloseAgent(s, c).out[Released(e, conn)] == if HoldsOn(s, s.agents[c], e, conn) then 1 else 0
  {
    hide ReleaseForAgent, RejectAll;
    var t := s.(agents := s.agents - {c});
    ReleasedByRelease(t, s.agents[c], e, conn);
    assert forall g :: Owns(t, g, s.agents[c], e) <==> Owns(s, g, s.agents[c], e);
    ReleasingKeepsPending(t, s.agents[c]);
    AbandonReleasesNothing(ReleaseForAgent(t, s.agents[c]).s, (set r | r in s.pending && s.pending[r].agent == s.agents[c]), e, conn);
  }

  lemma ReleasingKeepsPending(s: State, agent: AgentId)
    ensures ReleaseForAgent(s, agent).s.pending == s.pending
  {
  }

  lemma AbandonReleasesNothing(s: State, gone: set<ReqId>, e: ExecId, conn: Conn)
    requires gone <= s.pending.Keys
    ensures Abandon(s, gone, "agent_gone").out[Released(e, conn)] == 0
  {
  }

  lemma LocalReleaseFrames(s: State, n: nat, e: ExecId, conn: Conn)
    requires Enabled(s, LocalRelease(n))
    ensures Apply(s, LocalRelease(n)).out[Released(e, conn)] ==
            if HoldsOn(s, Local(n), e, conn) then 1 else 0
  {
    assert Apply(s, LocalRelease(n)) == ReleaseForAgent(s, Local(n));
    ReleasedByRelease(s, Local(n), e, conn);
  }

  lemma QuietStepsReleaseNothing(s: State, l: Label, e: ExecId, conn: Conn)
    requires Enabled(s, l)
    requires l.ResultFrame? || l.GiveUp? || l.NewLocalAgent? || l.Stopped?
    ensures Apply(s, l).out[Released(e, conn)] == 0
  {
  }

  lemma HelloReleasesNothing(s: State, l: Label, e: ExecId, conn: Conn)
    requires Enabled(s, l) && l.HelloFrame?
    ensures Apply(s, l).out[Released(e, conn)] == 0
  {
    HelloInFull(s, l);
    var joined := JoinExecutor(Introduced(s, l.h, l.latest), l.conn, IdOf(s, l.h), l.h.name);
    SendingInFull(joined.s, joined.s.byId[IdOf(s, l.h)], Self, ListTabs, Rebuild, l.dead);
  }

  /** A release frame goes out exactly once to each executor on which the releasing agent held a
      group, over that executor's connection, and to nobody else. */
  lemma ReleaseFramesExactly(s: State, l: Label, e: ExecId, conn: Conn)
    requires Enabled(s, l)
    ensures Apply(s, l).out[Released(e, conn)] ==
            if Releasing(s, l).Some? && HoldsOn(s, Releasing(s, l).value, e, conn)
            then 1 else 0
  {
    match l {
      case HelloFrame(_, _, _, _) => HelloReleasesNothing(s, l, e, conn);
      case AgentCommand(c, frame, cmd, dead) =>
        ReleasedByRouting(s, s.agents[c], cmd, ForAgent(c, frame), false, dead, e, conn);
      case LocalCommand(n, call, cmd, aborted, dead) =>
        ReleasedByRouting(s, Local(n), cmd, ForLocal(call), aborted, dead, e, conn);
      case LocalRelease(n) => LocalReleaseFrames(s, n, e, conn);
      case Closed(c) => ReleasedByClosing(s, c, e, conn);
      case _ => QuietStepsReleaseNothing(s, l, e, conn);
    }
  }

  lemma HeldIsOwned(s: State, a: AgentId, e: ExecId)
    ensures e in HeldBy(s, a) <==> exists g :: Owns(s, g, a, e)
  {
    if e in HeldBy(s, a) {
      var g :| g in s.groups && s.groups[g].agent == Some(a) && s.groups[g].exec == e;
      assert Owns(s, g, a, e);
    }
  }
}
