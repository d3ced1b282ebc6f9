/** The `Broker` class: maps updated in place by each handler, proved to do exactly what the steps of
    module Broker say. `caused` is the history of what the broker sent and settled. */
module BrokerHost {
  import opened Prelude
  import B = Broker

  lemma NoneRejected(s: B.State, code: string)
    ensures B.RejectAll(s, {}, code).out == multiset{}
  {
  }

  lemma RejectionRemoves(s: B.State, gone: set<B.ReqId>, code: string)
    requires gone <= s.pending.Keys
    ensures B.RejectAll(s, gone, code).s == s.(pending := s.pending - gone)
  {
  }

  function Rejection(r: B.ReqId, waiter: B.Waiter, code: string): multiset<B.Event> {
    multiset{B.Settled(r)} + (if waiter != B.Rebuild then multiset{B.Replied(waiter, B.Error(code), Some(r))} else multiset{})
  }

  lemma OneMore(s: B.State, done: set<B.ReqId>, r: B.ReqId, code: string)
    requires done <= s.pending.Keys && r in s.pending && r !in done
    ensures B.RejectAll(s, done + {r}, code).out ==
      B.RejectAll(s, done, code).out + Rejection(r, s.pending[r].waiter, code)
  {
    var settled, settled' := set q | q in done :: B.Settled(q), set q | q in done + {r} :: B.Settled(q);
    assert settled' == settled + {B.Settled(r)};
    assert multiset(settled') == multiset(settled) + multiset{B.Settled(r)};
    RepliesOneMore(s, done, r, code);
  }

  lemma RepliesOneMore(s: B.State, done: set<B.ReqId>, r: B.ReqId, code: string)
    requires done <= s.pending.Keys && r in s.pending && r !in done
    ensures multiset(set q | q in done + {r} && s.pending[q].waiter != B.Rebuild :: B.Replied(s.pending[q].waiter, B.Error(code), Some(q)))
      == multiset(set q | q in done && s.pending[q].waiter != B.Rebuild :: B.Replied(s.pending[q].waiter, B.Error(code), Some(q)))
       + (if s.pending[r].waiter != B.Rebuild then multiset{B.Replied(s.pending[r].waiter, B.Error(code), Some(r))} else multiset{})
  {
    var more := set q | q in done + {r} && s.pending[q].waiter != B.Rebuild :: B.Replied(s.pending[q].waiter, B.Error(code), Some(q));
    var less := set q | q in done && s.pending[q].waiter != B.Rebuild :: B.Replied(s.pending[q].waiter, B.Error(code), Some(q));
    var ev := B.Replied(s.pending[r].waiter, B.Error(code), Some(r));
    if s.pending[r].waiter != B.Rebuild {
      assert more == less + {ev} && ev !in less;
      assert multiset(more) == multiset(less) + multiset{ev};
    } else {
      assert more == less;
    }
  }

  // An executor hello once the token is right.
  function Accepted(s: B.State, conn: B.Conn, h: B.Hello, dead: set<B.Conn>): B.Step {
    var id := B.IdOf(s, h);
    var joined := B.JoinExecutor(s.(execSeq := s.execSeq + if h.id != "" then 0 else 1), conn, id, h.name);
    B.SendToExecutor(joined.s, joined.s.byId[id], B.Self, B.ListTabs, B.Rebuild, dead).Plus(joined.out)
  }

  lemma HelloOfExecutor(s: B.State, conn: B.Conn, h: B.Hello, latest: Option<string>, dead: set<B.Conn>)
    requires B.Accepts(s, h, latest) && !h.agent
    ensures B.HandleHello(s, conn, h, latest, dead) == Accepted(s.(token := B.TokenAfter(s, h, latest)), conn, h, dead)
  {
    hide B.JoinExecutor, B.SendToExecutor, B.Decimal, B.TokenAfter;
  }

  lemma Orphaned(s: B.State, agent: B.AgentId, groups: map<B.Group, B.Owner>, execIds: set<B.ExecId>)
    requires groups.Keys == s.groups.Keys
    requires forall g | g in s.groups ::
      groups[g] == if s.groups[g].agent == Some(agent) then s.groups[g].(agent := None) else s.groups[g]
    requires execIds == set g | g in s.groups && s.groups[g].agent == Some(agent) :: s.groups[g].exec
    ensures groups == B.ReleaseForAgent(s, agent).s.groups && execIds == B.HeldBy(s, agent)
  {
  }

  lemma NoneCancelled(s: B.State)
    ensures B.Cancels(s, {}) == multiset{}
  {
  }

  lemma OneMoreCancel(s: B.State, done: set<B.ReqId>, r: B.ReqId)
    requires done <= s.pending.Keys && r in s.pending && r !in done
    ensures var exec := s.pending[r].exec;
      B.Cancels(s, done + {r}) == B.Cancels(s, done)
        + if exec in s.byId then multiset{B.Cancelled(r, s.byId[exec].conn)} else multiset{}
  {
    var less := set q | q in done && s.pending[q].exec in s.byId :: B.Cancelled(q, s.byId[s.pending[q].exec].conn);
    var more := set q | q in done + {r} && s.pending[q].exec in s.byId :: B.Cancelled(q, s.byId[s.pending[q].exec].conn);
    if s.pending[r].exec in s.byId {
      assert more == less + {B.Cancelled(r, s.byId[s.pending[r].exec].conn)};
    } else {
      assert more == less;
    }
  }

  lemma ReleasedStillWait(s: B.State, agent: B.AgentId)
    ensures B.ReleaseForAgent(s, agent).s.pending == s.pending
  {
  }

  class Broker {
    var token: string
    var executors: map<B.Conn, B.Exec>
    var executorById: map<B.ExecId, B.Exec>
    var execSerial: nat
    var agents: map<B.Conn, B.AgentId>
    var agentSeq: nat
    var locals: set<nat>
    var groupOwner: map<B.Group, B.Owner>
    var pending: map<B.ReqId, B.Pending>
    var nextReq: nat
    var primaryExecutorId: Option<B.ExecId>
    var execSeq: nat
    ghost var caused: multiset<B.Event>

    ghost function View(): B.State reads this {
      B.State(token, executors, executorById, execSerial, agents, agentSeq, locals, groupOwner, pending, nextReq,
              primaryExecutorId, execSeq)
    }

    // Insertion order is a strict order.
    ghost predicate Valid() reads this`executorById, this`execSerial {
      && (forall i | i in executorById :: executorById[i].serial < execSerial)
      && (forall i, j | i in executorById && j in executorById && executorById[i].serial == executorById[j].serial :: i == j)
    }

    // The state and the history after step st.
    twostate predicate Took(st: B.Step) reads this {
      View() == st.s && caused == old(caused) + st.out
    }

    constructor (token: string)
      ensures View() == B.Initial(token) && Valid() && caused == multiset{}
    {
      this.token, executors, executorById, execSerial, agents, agentSeq, locals :=
        token, map[], map[], 0, map[], 0, {};
      groupOwner, pending, nextReq, primaryExecutorId, execSeq, caused := map[], map[], 0, None, 0, multiset{};
    }

    method FirstKey() returns (id: Option<B.ExecId>)
      requires Valid()
      ensures id == if executorById == map[] then None else Some(B.Oldest(executorById))
    {
      id := None;
      var todo := executorById.Keys;
      while todo != {}
        invariant todo <= executorById.Keys
        invariant id.None? ==> todo == executorById.Keys
        invariant id.Some? ==> id.value in executorById.Keys - todo
        invariant id.Some? ==> forall j | j in executorById.Keys - todo ::
          executorById[id.value].serial <= executorById[j].serial
        decreases |todo|
      {
        var next :| next in todo;
        if id.None? || executorById[next].serial < executorById[id.value].serial { id := Some(next); }
        todo := todo - {next};
      }
      if id.Some? {
        var first := B.Oldest(executorById);
        assert executorById[id.value].serial <= executorById[first].serial <= executorById[id.value].serial;
      }
    }

    method Named(target: string) returns (matching: set<B.ExecId>)
      ensures matching == set i | i in executorById && executorById[i].name == target
    {
      matching := {};
      var todo := executorById.Keys;
      while todo != {}
        invariant todo <= executorById.Keys
        invariant matching == set i | i in executorById.Keys - todo && executorById[i].name == target
        decreases |todo|
      {
        var next :| next in todo;
        if executorById[next].name == target { matching := matching + {next}; }
        todo := todo - {next};
      }
    }

    method PickExecutor(target: string) returns (p: B.Picked)
      requires Valid()
      ensures p == B.PickExecutor(View(), target)
    {
      if executorById == map[] { return B.Refused("not_connected"); }
      if target != "" {
        if target in executorById { return B.Found(executorById[target]); }
        var matching := Named(target);
        if |matching| == 1 {
          var id :| id in matching;
          assert matching == {id} by { assert |matching - {id}| == 0; }
          return B.Found(executorById[id]);
        }
        return B.Refused(if |matching| > 1 then "ambiguous_target" else "unknown_target");
      }
      if primaryExecutorId.Some? && primaryExecutorId.value in executorById {
        return B.Found(executorById[primaryExecutorId.value]);
      }
      var first := FirstKey();
      return B.Found(executorById[first.value]);
    }

    method ResolveExecutor(agent: B.AgentId, cmd: B.Command) returns (p: B.Picked)
      requires Valid()
      modifies this`groupOwner
      ensures Valid() && (View(), p) == B.ResolveExecutor(old(View()), agent, cmd)
    {
      if cmd.group in groupOwner {
        var owner := groupOwner[cmd.group];
        if owner.agent.Some? && owner.agent.value != agent { return B.Refused("group_owned"); }
        groupOwner := groupOwner[cmd.group := owner.(agent := Some(agent))];
        if owner.exec !in executorById { return B.Refused("executor_gone"); }
        return B.Found(executorById[owner.exec]);
      }
      if cmd.action != B.Open { return B.Refused("no_group"); }
      p := PickExecutor(cmd.target);
      if p.Found? { groupOwner := groupOwner[cmd.group := B.Owner(p.exec.id, Some(agent))]; }
    }

    // Removes the pending entry, answers whoever waits, and for a tab listing adopts its groups.
    method Settle(r: B.ReqId, outcome: B.Outcome)
      requires Valid() && r in pending
      modifies this`pending, this`groupOwner, this`caused
      ensures Valid() && Took(B.Settle(old(View()), r, outcome))
    {
      hide Valid, B.Resumed;
      var p := pending[r];
      pending := pending - {r};
      Resume(r, p, outcome);
    }

    method Resume(r: B.ReqId, p: B.Pending, outcome: B.Outcome)
      requires Valid()
      modifies this`groupOwner, this`caused
      ensures Valid() && Took(B.Resumed(old(View()), r, p, outcome))
    {
      hide Valid;
      caused := caused + multiset{B.Settled(r)};
      if p.waiter != B.Rebuild {
        caused := caused + multiset{B.Replied(p.waiter, outcome, Some(r))};
        assert caused == old(caused) + multiset{B.Settled(r), B.Replied(p.waiter, outcome, Some(r))};
      } else if outcome.Data? {
        AdoptOrphans(outcome.groups, p.exec);
      }
    }

    method AdoptOrphans(names: set<B.Group>, exec: B.ExecId)
      modifies this`groupOwner
      ensures groupOwner == old(groupOwner) + map g | g in names && g != "" && g !in old(groupOwner) :: B.Owner(exec, None)
    {
      var todo := names;
      while todo != {}
        invariant todo <= names
        invariant groupOwner ==
          old(groupOwner) + map g | g in names - todo && g != "" && g !in old(groupOwner) :: B.Owner(exec, None)
        decreases |todo|
      {
        var g :| g in todo;
        if g != "" && g !in groupOwner { groupOwner := groupOwner[g := B.Owner(exec, None)]; }
        todo := todo - {g};
      }
    }

    method SendToExecutor(exec: B.Exec, agent: B.AgentId, cmd: B.Command, waiter: B.Waiter, dead: set<B.Conn>)
      requires Valid()
      modifies this`pending, this`nextReq, this`groupOwner, this`caused
      ensures Valid() && Took(B.SendToExecutor(old(View()), exec, agent, cmd, waiter, dead))
    {
      hide Valid, B.Settle;
      var r := nextReq;
      nextReq := nextReq + 1;
      pending := pending[r := B.Pending(agent, exec.id, waiter)];
      if exec.conn in dead {
        Settle(r, B.Error("send_failed"));
      } else {
        caused := caused + multiset{B.Dispatched(r, agent, exec.id, exec.conn, cmd)};
      }
    }

    method ReleaseForAgent(agent: B.AgentId)
      requires Valid()
      modifies this`groupOwner, this`caused
      ensures Valid() && Took(B.ReleaseForAgent(old(View()), agent))
    {
      var execIds := OrphanGroups(agent);
      SendRelease(execIds);
    }

    // Orphans the agent's groups; the executors they live on.
    method OrphanGroups(agent: B.AgentId) returns (execIds: set<B.ExecId>)
      modifies this`groupOwner
      ensures groupOwner == B.ReleaseForAgent(old(View()), agent).s.groups
      ensures execIds == B.HeldBy(old(View()), agent)
    {
      hide B.ReleaseForAgent, B.HeldBy;
      ghost var was := groupOwner;
      execIds := {};
      var todo := groupOwner.Keys;
      while todo != {}
        invariant todo <= was.Keys == groupOwner.Keys
        invariant execIds == set g | g in was.Keys - todo && was[g].agent == Some(agent) :: was[g].exec
        invariant forall g | g in was ::
          groupOwner[g] == (if g !in todo && was[g].agent == Some(agent) then was[g].(agent := None) else was[g])
        decreases |todo|
      {
        var g :| g in todo;
        if groupOwner[g].agent == Some(agent) {
          execIds := execIds + {groupOwner[g].exec};
          groupOwner := groupOwner[g := groupOwner[g].(agent := None)];
        }
        todo := todo - {g};
      }
      Orphaned(old(View()), agent, groupOwner, execIds);
    }

    method SendRelease(execIds: set<B.ExecId>)
      modifies this`caused
      ensures caused == old(caused) + multiset(set e | e in execIds && e in executorById :: B.Released(e, executorById[e].conn))
    {
      var todo := execIds;
      ghost var sent: set<B.Event> := {};
      while todo != {}
        invariant todo <= execIds
        invariant sent == set e | e in execIds - todo && e in executorById :: B.Released(e, executorById[e].conn)
        invariant caused == old(caused) + multiset(sent)
        decreases |todo|
      {
        var id :| id in todo;
        if id in executorById {
          ghost var ev := B.Released(id, executorById[id].conn);
          assert ev !in sent;
          assert multiset(sent + {ev}) == multiset(sent) + multiset{ev};
          caused := caused + multiset{ev};
          sent := sent + {ev};
        }
        todo := todo - {id};
      }
    }

    method Route(agent: B.AgentId, cmd: B.Command, waiter: B.Waiter, aborted: bool, dead: set<B.Conn>)
      requires Valid() && !waiter.Rebuild?
      modifies this
      ensures Valid() && Took(B.Route(old(View()), agent, cmd, waiter, aborted, dead))
    {
      hide Valid, B.ResolveExecutor, B.PickExecutor, B.SendToExecutor, B.ReleaseForAgent;
      if cmd.action == B.Targets {
        caused := caused + multiset{B.Replied(waiter, B.Own, None)};
        return;
      }
      if cmd.action == B.Release {
        ReleaseForAgent(agent);
        caused := caused + multiset{B.Replied(waiter, B.Own, None)};
        return;
      }
      var p;
      if cmd.action == B.Cookies { p := PickExecutor(cmd.target); } else { p := ResolveExecutor(agent, cmd); }
      Dispatch(p, agent, cmd, waiter, aborted, dead);
    }

    method Dispatch(p: B.Picked, agent: B.AgentId, cmd: B.Command, waiter: B.Waiter, aborted: bool, dead: set<B.Conn>)
      requires Valid()
      modifies this`pending, this`nextReq, this`groupOwner, this`caused
      ensures Valid()
      ensures p.Refused? ==> Took(B.Step(old(View()), multiset{B.Replied(waiter, B.Error(p.code), None)}))
      ensures p.Found? && aborted ==> Took(B.Step(old(View()), multiset{B.Replied(waiter, B.Error("aborted"), None)}))
      ensures p.Found? && !aborted ==> Took(B.SendToExecutor(old(View()), p.exec, agent, cmd, waiter, dead))
    {
      hide Valid, B.SendToExecutor;
      if p.Refused? {
        caused := caused + multiset{B.Replied(waiter, B.Error(p.code), None)};
      } else if aborted {
        caused := caused + multiset{B.Replied(waiter, B.Error("aborted"), None)};
      } else {
        SendToExecutor(p.exec, agent, cmd, waiter, dead);
      }
    }

    // Everyone in `gone` is rejected; a Rebuild has nobody to tell.
    method RejectAll(gone: set<B.ReqId>, code: string)
      requires Valid() && gone <= pending.Keys
      modifies this`pending, this`caused
      ensures Valid() && Took(B.RejectAll(old(View()), gone, code))
    {
      hide B.RejectAll, Valid;
      ghost var was, before, done := View(), caused, {};
      var todo := gone;
      NoneRejected(was, code);
      RejectionRemoves(was, gone, code);
      while todo != {}
        modifies this`pending, this`caused
        invariant done !! todo && done + todo == gone
        invariant pending == was.pending - done
        invariant caused == before + B.RejectAll(was, done, code).out
        decreases |todo|
      {
        var r :| r in todo;
        RejectNext(was, before, done, r, code);
        done, todo := done + {r}, todo - {r};
      }
      assert done == gone;
    }

    method RejectNext(ghost was: B.State, ghost before: multiset<B.Event>, ghost done: set<B.ReqId>, r: B.ReqId, code: string)
      requires done <= was.pending.Keys && r in was.pending && r !in done
      requires pending == was.pending - done && caused == before + B.RejectAll(was, done, code).out
      modifies this`pending, this`caused
      ensures pending == was.pending - (done + {r}) && caused == before + B.RejectAll(was, done + {r}, code).out
    {
      OneMore(was, done, r, code);
      RejectOne(r, code);
    }

    method RejectOne(r: B.ReqId, code: string)
      requires r in pending
      modifies this`pending, this`caused
      ensures pending == old(pending) - {r}
      ensures caused == old(caused) + Rejection(r, old(pending)[r].waiter, code)
    {
      var p := pending[r];
      pending := pending - {r};
      caused := caused + multiset{B.Settled(r)};
      if p.waiter != B.Rebuild { caused := caused + multiset{B.Replied(p.waiter, B.Error(code), Some(r))}; }
    }

    method SendCancels(gone: set<B.ReqId>)
      requires gone <= pending.Keys
      modifies this`caused
      ensures caused == old(caused) + B.Cancels(View(), gone)
    {
      hide B.Cancels;
      ghost var before, done := caused, {};
      var todo := gone;
      NoneCancelled(View());
      while todo != {}
        modifies this`caused
        invariant done !! todo && done + todo == gone
        invariant caused == before + B.Cancels(View(), done)
        decreases |todo|
      {
        var r :| r in todo;
        OneMoreCancel(View(), done, r);
        if pending[r].exec in executorById {
          caused := caused + multiset{B.Cancelled(r, executorById[pending[r].exec].conn)};
        }
        done, todo := done + {r}, todo - {r};
      }
      assert done == gone;
    }

    method Abandon(gone: set<B.ReqId>, code: string)
      requires Valid() && gone <= pending.Keys
      modifies this`pending, this`caused
      ensures Valid() && Took(B.Abandon(old(View()), gone, code))
    {
      SendCancels(gone);
      RejectAll(gone, code);
    }

    method HandleHello(conn: B.Conn, h: B.Hello, latest: Option<string>, dead: set<B.Conn>)
      requires Valid()
      modifies this
      ensures Valid() && Took(B.HandleHello(old(View()), conn, h, latest, dead))
    {
      hide Valid, B.JoinAgent, B.TokenAfter, Accepted;
      var accepted := Authenticate(h, latest);
      if !accepted {
        caused := caused + multiset{B.Rejected(conn), B.HungUp(conn)};
      } else if h.agent {
        JoinAgent(conn);
      } else {
        AcceptHello(conn, h, dead);
        HelloOfExecutor(old(View()), conn, h, latest, dead);
      }
    }

    // What an accepted executor hello does, whoever named the executor.
    method AcceptHello(conn: B.Conn, h: B.Hello, dead: set<B.Conn>)
      requires Valid()
      modifies this
      ensures Valid() && Took(Accepted(old(View()), conn, h, dead))
    {
      hide Valid, B.JoinExecutor, B.SendToExecutor, B.IdOf;
      var id := IdFor(h);
      AcceptExecutor(conn, id, h.name, dead);
    }

    // The token is compared again after a reload.
    method Authenticate(h: B.Hello, latest: Option<string>) returns (accepted: bool)
      requires Valid()
      modifies this`token
      ensures Valid() && token == B.TokenAfter(old(View()), h, latest) && accepted == B.Accepts(old(View()), h, latest)
      ensures accepted <==> h.token == old(token) || (latest.Some? && latest.value != "" && h.token == latest.value)
    {
      if h.token != token && latest.Some? && latest.value != "" && latest.value != token { token := latest.value; }
      accepted := h.token == token;
    }

    method JoinAgent(conn: B.Conn)
      requires Valid()
      modifies this`agents, this`agentSeq, this`caused
      ensures Valid() && Took(B.JoinAgent(old(View()), conn))
    {
      agentSeq := agentSeq + 1;
      agents := agents[conn := B.Remote(agentSeq)];
      caused := caused + multiset{B.Ready(conn)};
    }

    method IdFor(h: B.Hello) returns (id: B.ExecId)
      requires Valid()
      modifies this`execSeq
      ensures Valid() && id == B.IdOf(old(View()), h)
      ensures execSeq == old(execSeq) + if h.id != "" then 0 else 1
    {
      id := h.id;
      if id == "" {
        execSeq := execSeq + 1;
        id := "exec:" + B.Decimal(execSeq);
      }
    }

    method AcceptExecutor(conn: B.Conn, id: B.ExecId, name: string, dead: set<B.Conn>)
      requires Valid()
      modifies this
      ensures var joined := B.JoinExecutor(old(View()), conn, id, name);
        Valid() && Took(B.SendToExecutor(joined.s, joined.s.byId[id], B.Self, B.ListTabs, B.Rebuild, dead).Plus(joined.out))
    {
      hide Valid, B.SendToExecutor;
      JoinExecutor(conn, id, name);
      SendToExecutor(executorById[id], B.Self, B.ListTabs, B.Rebuild, dead);
    }

    method JoinExecutor(conn: B.Conn, id: B.ExecId, name: string)
      requires Valid()
      modifies this`executors, this`executorById, this`execSerial, this`primaryExecutorId, this`caused
      ensures Valid() && Took(B.JoinExecutor(old(View()), conn, id, name))
    {
      hide Valid;
      DropStale(conn, id);
      AddExecutor(conn, id, name);
      caused := caused + multiset{B.Ready(conn)};
    }

    method AddExecutor(conn: B.Conn, id: B.ExecId, name: string)
      requires Valid()
      modifies this`executors, this`executorById, this`execSerial, this`primaryExecutorId
      ensures Valid()
      ensures var known := id in old(executorById);
        var info := B.Exec(conn, id, name, if known then old(executorById)[id].serial else old(execSerial));
        View() == old(View()).(
          executors := old(executors)[conn := info], byId := old(executorById)[id := info],
          serials := if known then old(execSerial) else old(execSerial) + 1,
          primary := if old(primaryExecutorId).Some? && old(primaryExecutorId).value in old(executorById)[id := info]
                     then old(primaryExecutorId) else Some(id))
    {
      hide Valid;
      var info := Register(conn, id, name);
      executors := executors[conn := info];
      if primaryExecutorId.None? || primaryExecutorId.value !in executorById { primaryExecutorId := Some(id); }
    }

    // Enters the id in insertion order: a known id keeps its place.
    method Register(conn: B.Conn, id: B.ExecId, name: string) returns (info: B.Exec)
      requires Valid()
      modifies this`executorById, this`execSerial
      ensures Valid()
      ensures info == B.Exec(conn, id, name, if id in old(executorById) then old(executorById)[id].serial else old(execSerial))
      ensures executorById == old(executorById)[id := info]
      ensures execSerial == old(execSerial) + if id in old(executorById) then 0 else 1
    {
      var known := id in executorById;
      info := B.Exec(conn, id, name, if known then executorById[id].serial else execSerial);
      if !known { execSerial := execSerial + 1; }
      executorById := executorById[id := info];
    }

    // Replaces any stale connection carrying the same id.
    method DropStale(conn: B.Conn, id: B.ExecId)
      requires Valid()
      modifies this`executors, this`caused
      ensures Valid()
      ensures var stale := id in executorById && executorById[id].conn != conn;
        && View() == old(View()).(executors := if stale then old(executors) - {executorById[id].conn} else old(executors))
        && caused == old(caused) + if stale then multiset{B.HungUp(executorById[id].conn)} else multiset{}
    {
      if id in executorById && executorById[id].conn != conn {
        executors := executors - {executorById[id].conn};
        caused := caused + multiset{B.HungUp(executorById[id].conn)};
      }
    }

    method CloseExecutor(conn: B.Conn)
      requires Valid() && conn in executors
      modifies this
      ensures Valid() && Took(B.CloseExecutor(old(View()), conn))
    {
      hide Valid, B.RejectAll, B.Oldest;
      var executor := executors[conn];
      executors := executors - {conn};
      if executor.id in executorById && executorById[executor.id].conn == conn { ForgetExecutor(executor.id); }
      if primaryExecutorId == Some(executor.id) {
        primaryExecutorId := FirstKey();
      }
    }

    // Its id, its groups, and the commands still waiting for it.
    method ForgetExecutor(id: B.ExecId)
      requires Valid()
      modifies this`executorById, this`groupOwner, this`pending, this`caused
      ensures Valid()
      ensures Took(B.RejectAll(
        old(View()).(byId := old(executorById) - {id},
                     groups := map g | g in old(groupOwner) && old(groupOwner)[g].exec != id :: old(groupOwner)[g]),
        set r | r in old(pending) && old(pending)[r].exec == id, "executor_gone"))
    {
      executorById := executorById - {id};
      groupOwner := map g | g in groupOwner && groupOwner[g].exec != id :: groupOwner[g];
      RejectAll(set r | r in pending && pending[r].exec == id, "executor_gone");
    }

    method CloseAgent(conn: B.Conn)
      requires Valid() && conn in agents
      modifies this
      ensures Valid() && Took(B.CloseAgent(old(View()), conn))
    {
      hide Valid, B.Abandon, B.ReleaseForAgent;
      var id := agents[conn];
      agents := agents - {conn};
      ReleasedStillWait(View(), id);
      ReleaseForAgent(id);
      Abandon(set r | r in pending && pending[r].agent == id, "agent_gone");
    }

    method OnClose(conn: B.Conn)
      requires Valid()
      modifies this
      ensures Valid() && Took(B.Apply(old(View()), B.Closed(conn)))
    {
      if conn in executors { CloseExecutor(conn); }
      else if conn in agents { CloseAgent(conn); }
    }

    method OnResult(conn: B.Conn, req: B.ReqId, outcome: B.Outcome)
      requires Valid() && B.Enabled(View(), B.ResultFrame(conn, req, outcome))
      modifies this
      ensures Valid() && Took(B.Apply(old(View()), B.ResultFrame(conn, req, outcome)))
    {
      if req in pending { Settle(req, outcome); }
    }

    method Stop()
      requires Valid()
      modifies this
      ensures Valid() && Took(B.Stop(old(View())))
    {
      hide Valid, B.RejectAll;
      RejectionRemoves(View(), pending.Keys, "stopped");
      RejectAll(pending.Keys, "stopped");
      Clear();
      assert pending == map[];
    }

    method Clear()
      modifies this`executors, this`executorById, this`agents, this`groupOwner, this`primaryExecutorId
      ensures Valid()
      ensures executors == map[] && executorById == map[] && agents == map[] && groupOwner == map[]
      ensures primaryExecutorId.None?
    {
      executors, executorById, agents, groupOwner, primaryExecutorId := map[], map[], map[], map[], None;
    }
  }
}
