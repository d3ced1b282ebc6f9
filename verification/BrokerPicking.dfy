/** Which executor a command goes to, and when it is refused, told by the connected executors, the groups
    and the command alone. */
module BrokerPicking {
  import opened Prelude
  import opened Broker
  import opened BrokerOwnership

  // ---- Finding an executor ----------------------------------------------------------------

  ghost predicate OnlyOneNamed(byId: map<ExecId, Exec>, name: string, id: ExecId) {
    && id in byId && byId[id].name == name
    && forall j | j in byId && byId[j].name == name :: j == id
  }

  ghost predicate TwoNamed(byId: map<ExecId, Exec>, name: string) {
    exists i, j :: i in byId && j in byId && i != j && byId[i].name == byId[j].name == name
  }

  // The target is an id, or else the name of exactly one.
  ghost predicate NamedBy(byId: map<ExecId, Exec>, target: string, e: Exec) {
    if target in byId then e == byId[target] else exists id :: OnlyOneNamed(byId, target, id) && e == byId[id]
  }

  ghost predicate IsOldest(byId: map<ExecId, Exec>, e: Exec) {
    (exists id :: id in byId && e == byId[id]) && forall j | j in byId :: e.serial <= byId[j].serial
  }

  // Without a target: the primary, or the one that has been there longest.
  ghost predicate ByDefault(s: State, e: Exec) {
    if s.primary.Some? && s.primary.value in s.byId then e == s.byId[s.primary.value] else IsOldest(s.byId, e)
  }

  ghost predicate Chosen(s: State, target: string, e: Exec) {
    if target != "" then NamedBy(s.byId, target, e) else ByDefault(s, e)
  }

  ghost predicate NotFound(byId: map<ExecId, Exec>, target: string, code: string) {
    if byId == map[] then code == "not_connected"
    else
      && target != "" && target !in byId
      && (((forall i | i in byId :: byId[i].name != target) && code == "unknown_target")
       || (TwoNamed(byId, target) && code == "ambiguous_target"))
  }

  lemma NamesCounted(byId: map<ExecId, Exec>, name: string)
    ensures var matching := set id | id in byId && byId[id].name == name;
      && (|matching| == 0 <==> forall i | i in byId :: byId[i].name != name)
      && (|matching| == 1 <==> exists id :: OnlyOneNamed(byId, name, id))
      && (|matching| > 1 <==> TwoNamed(byId, name))
  {
    var matching := set id | id in byId && byId[id].name == name;
    if i :| i in matching {
      if matching == {i} {
        assert OnlyOneNamed(byId, name, i) by { forall j | j in byId && byId[j].name == name ensures j == i { assert j in matching; } }
      } else {
        assert matching - {i} != {} by { assert matching != {i}; }
        var j :| j in matching - {i};
        assert {i, j} <= matching;
        CountIsMonotone({i, j}, matching);
        assert TwoNamed(byId, name);
      }
    } else {
      assert matching == {};
      forall i | i in byId ensures byId[i].name != name { assert i !in matching; }
    }
  }

  lemma {:induction false} CountIsMonotone(a: set<ExecId>, b: set<ExecId>)
    requires a <= b
    ensures |a| <= |b|
  {
    if x :| x in a { CountIsMonotone(a - {x}, b - {x}); }
  }

  /** A target finds the executor with that id, else the only one with that name. Nothing connected, no such
      name, and more than one are refused as such. */
  lemma PicksExactly(s: State, target: string, e: Exec, code: string)
    requires target != ""
    ensures PickExecutor(s, target) == Found(e) <==> NamedBy(s.byId, target, e)
    ensures PickExecutor(s, target) == Refused(code) <==> NotFound(s.byId, target, code)
  {
    NamesCounted(s.byId, target);
    var matching := set id | id in s.byId && s.byId[id].name == target;
    if target !in s.byId && |matching| == 1 {
      var id :| OnlyOneNamed(s.byId, target, id);
      assert matching == {id};
    }
  }

  lemma PicksByDefault(s: State)
    ensures PickExecutor(s, "").Found? <==> s.byId != map[]
    ensures PickExecutor(s, "").Found? ==> ByDefault(s, PickExecutor(s, "").exec)
    ensures PickExecutor(s, "").Refused? ==> NotFound(s.byId, "", PickExecutor(s, "").code)
  {
  }

  lemma PickedIsChosen(s: State, target: string)
    ensures var p := PickExecutor(s, target);
      if p.Found? then Chosen(s, target, p.exec) else NotFound(s.byId, target, p.code)
  {
    hide PickExecutor;
    if target == "" {
      PicksByDefault(s);
    } else if PickExecutor(s, target).Found? {
      PicksExactly(s, target, PickExecutor(s, target).exec, "");
    } else {
      var e: Exec :| true;
      PicksExactly(s, target, e, PickExecutor(s, target).code);
    }
  }

  // ---- Routing a command --------------------------------------------------------------------

  // The group is nobody's, or already the agent's.
  predicate Claimable(s: State, agent: AgentId, g: Group)
    requires g in s.groups
  {
    s.groups[g].agent.None? || s.groups[g].agent == Some(agent)
  }

  // The executor a command has to go to.
  ghost predicate DrivenBy(s: State, agent: AgentId, cmd: Command, e: Exec) {
    if cmd.action == Cookies then Chosen(s, cmd.target, e)
    else if cmd.group in s.groups then
      Claimable(s, agent, cmd.group) && s.groups[cmd.group].exec in s.byId && e == s.byId[s.groups[cmd.group].exec]
    else cmd.action == Open && Chosen(s, cmd.target, e)
  }

  // ... or why it goes nowhere.
  ghost predicate RefusedWith(s: State, agent: AgentId, cmd: Command, code: string) {
    if cmd.action == Cookies then NotFound(s.byId, cmd.target, code)
    else if cmd.group in s.groups then
      if Claimable(s, agent, cmd.group) then s.groups[cmd.group].exec !in s.byId && code == "executor_gone"
      else code == "group_owned"
    else if cmd.action == Open then NotFound(s.byId, cmd.target, code)
    else code == "no_group"
  }

  // What the command leaves of the groups: a group is claimed on the executor it is on, or opened on.
  ghost predicate ClaimsGroup(s: State, t: State, agent: AgentId, cmd: Command, v: Picked) {
    if cmd.action == Cookies then t.groups == s.groups
    else if cmd.group in s.groups then
      t.groups == if Claimable(s, agent, cmd.group)
                  then s.groups[cmd.group := Owner(s.groups[cmd.group].exec, Some(agent))] else s.groups
    else if v.Found? then t.groups == s.groups[cmd.group := Owner(v.exec.id, Some(agent))]
    else t.groups == s.groups
  }

  /** A command is never both driven and refused, and is refused for one reason. */
  lemma OneVerdict(s: State, agent: AgentId, cmd: Command, e: Exec, code: string, code': string)
    requires RefusedWith(s, agent, cmd, code)
    ensures !DrivenBy(s, agent, cmd, e)
    ensures RefusedWith(s, agent, cmd, code') ==> code' == code
  {
    if NamedBy(s.byId, cmd.target, e) && cmd.target !in s.byId {
      var id :| OnlyOneNamed(s.byId, cmd.target, id);
    }
  }

  lemma ResolvesExactly(s: State, agent: AgentId, cmd: Command)
    requires cmd.action != Cookies
    ensures var (t, v) := ResolveExecutor(s, agent, cmd);
      && (if v.Found? then DrivenBy(s, agent, cmd, v.exec) else RefusedWith(s, agent, cmd, v.code))
      && ClaimsGroup(s, t, agent, cmd, v) && t == s.(groups := t.groups)
  {
    hide PickExecutor, Chosen, NotFound;
    PickedIsChosen(s, cmd.target);
  }

  // What a routed command causes when it is answered at once, refused, or sent on.
  function Causes(s: State, agent: AgentId, cmd: Command, waiter: Waiter, aborted: bool, dead: set<Conn>, v: Picked): multiset<Event> {
    if v.Refused? then multiset{Replied(waiter, Error(v.code), None)}
    else if aborted then multiset{Replied(waiter, Error("aborted"), None)}
    else if v.exec.conn in dead then multiset{Settled(s.nextReq), Replied(waiter, Error("send_failed"), Some(s.nextReq))}
    else multiset{Dispatched(s.nextReq, agent, v.exec.id, v.exec.conn, cmd)}
  }

  // A command that is sent waits under the next id, everything else as it was.
  function WaitsAfter(s: State, agent: AgentId, waiter: Waiter, aborted: bool, dead: set<Conn>, v: Picked): map<ReqId, Pending> {
    if v.Refused? || aborted then s.pending
    else if v.exec.conn in dead then s.pending - {s.nextReq}
    else s.pending[s.nextReq := Pending(agent, v.exec.id, waiter)]
  }

  lemma SentCauses(s: State, t: State, agent: AgentId, cmd: Command, waiter: Waiter, dead: set<Conn>, v: Picked)
    requires v.Found? && t == s.(groups := t.groups) && !waiter.Rebuild?
    ensures var st := SendToExecutor(t, v.exec, agent, cmd, waiter, dead);
      && st.out == Causes(s, agent, cmd, waiter, false, dead, v)
      && st.s.pending == WaitsAfter(s, agent, waiter, false, dead, v) && st.s.groups == t.groups
  {
    hide SendToExecutor;
    SendingInFull(t, v.exec, agent, cmd, waiter, dead);
  }

  /** Every command but the broker's own two either goes to the executor its target or its group says, under
      a new id, or is refused for the reason there is; and it claims its group just when it may, on that
      executor. */
  lemma RoutesExactly(s: State, agent: AgentId, cmd: Command, waiter: Waiter, aborted: bool, dead: set<Conn>) returns (v: Picked)
    requires cmd.action != Targets && cmd.action != Release && !waiter.Rebuild?
    ensures if v.Found? then DrivenBy(s, agent, cmd, v.exec) else RefusedWith(s, agent, cmd, v.code)
    ensures var st := Route(s, agent, cmd, waiter, aborted, dead);
      && st.out == Causes(s, agent, cmd, waiter, aborted, dead, v)
      && st.s.pending == WaitsAfter(s, agent, waiter, aborted, dead, v)
      && ClaimsGroup(s, st.s, agent, cmd, v)
  {
    hide PickExecutor, ResolveExecutor, SendToExecutor, Chosen, NotFound, ClaimsGroup, DrivenBy, RefusedWith, ReleaseForAgent;
    var t := s;
    if cmd.action == Cookies {
      v := PickExecutor(s, cmd.target);
      CookiesResolve(s, agent, cmd);
    } else {
      t, v := ResolveExecutor(s, agent, cmd).0, ResolveExecutor(s, agent, cmd).1;
      ResolvesExactly(s, agent, cmd);
    }
    if v.Found? { SentCauses(s, t, agent, cmd, waiter, dead, v); }
    SameGroupsClaim(s, t, Route(s, agent, cmd, waiter, aborted, dead).s, agent, cmd, v);
  }

  lemma CookiesResolve(s: State, agent: AgentId, cmd: Command)
    requires cmd.action == Cookies
    ensures var v := PickExecutor(s, cmd.target);
      && (if v.Found? then DrivenBy(s, agent, cmd, v.exec) else RefusedWith(s, agent, cmd, v.code))
      && ClaimsGroup(s, s, agent, cmd, v)
  {
    PickedIsChosen(s, cmd.target);
  }

  lemma SameGroupsClaim(s: State, t: State, u: State, agent: AgentId, cmd: Command, v: Picked)
    requires ClaimsGroup(s, t, agent, cmd, v) && u.groups == t.groups
    ensures ClaimsGroup(s, u, agent, cmd, v)
  {
  }

  /** The broker answers a listing of targets itself, at once and without touching anything. */
  lemma TargetsAreAnswered(s: State, agent: AgentId, cmd: Command, waiter: Waiter, aborted: bool, dead: set<Conn>)
    requires cmd.action == Targets && !waiter.Rebuild?
    ensures Route(s, agent, cmd, waiter, aborted, dead) == Step(s, multiset{Replied(waiter, Own, None)})
  {
  }

  function Sender(s: State, l: Label): AgentId
    requires Enabled(s, l) && (l.AgentCommand? || l.LocalCommand?)
  {
    if l.AgentCommand? then s.agents[l.conn] else Local(l.agent)
  }

  function Asker(l: Label): Waiter
    requires l.AgentCommand? || l.LocalCommand?
  {
    if l.AgentCommand? then ForAgent(l.conn, l.frame) else ForLocal(l.call)
  }

  predicate IsAborted(l: Label) { l.LocalCommand? && l.aborted }

  /** So does every command that comes in, for the agent whose connection or handle it came over. */
  lemma CommandsRouteExactly(s: State, l: Label) returns (v: Picked)
    requires Enabled(s, l) && (l.AgentCommand? || l.LocalCommand?) && l.cmd.action != Targets && l.cmd.action != Release
    ensures if v.Found? then DrivenBy(s, Sender(s, l), l.cmd, v.exec) else RefusedWith(s, Sender(s, l), l.cmd, v.code)
    ensures Apply(s, l).out == Causes(s, Sender(s, l), l.cmd, Asker(l), IsAborted(l), l.dead, v)
    ensures Apply(s, l).s.pending == WaitsAfter(s, Sender(s, l), Asker(l), IsAborted(l), l.dead, v)
    ensures ClaimsGroup(s, Apply(s, l).s, Sender(s, l), l.cmd, v)
  {
    hide Route, Causes, WaitsAfter, ClaimsGroup, DrivenBy, RefusedWith;
    v := RoutesExactly(s, Sender(s, l), l.cmd, Asker(l), IsAborted(l), l.dead);
  }
}
