/** Who is let in. A handshake is told by the token it presents, the broker's token, and what a reload of
    the token file brings; nothing here speaks of the broker's own test. */
module BrokerAdmission {
  import opened Prelude
  import opened Broker
  import opened BrokerSafety
  import opened BrokerOwnership

  // The token file holds a token.
  predicate Reloaded(latest: Option<string>) { latest.Some? && latest.value != "" }

  // The handshake presents the broker's token, or the one a reload brings.
  predicate Presents(token: string, h: Hello, latest: Option<string>) {
    h.token == token || (Reloaded(latest) && h.token == latest.value)
  }

  // The broker's token after a handshake: a reload counts only after a mismatch.
  function TokenThen(token: string, h: Hello, latest: Option<string>): string {
    if h.token != token && Reloaded(latest) then latest.value else token
  }

  lemma AcceptsExactly(s: State, h: Hello, latest: Option<string>)
    ensures Accepts(s, h, latest) <==> Presents(s.token, h, latest)
    ensures TokenAfter(s, h, latest) == TokenThen(s.token, h, latest)
  {
  }

  // The connection is entered, as what it says it is.
  ghost predicate Registers(s: State, t: State, conn: Conn, h: Hello) {
    if h.agent then
      && t.agents == s.agents[conn := Remote(s.agentSeq + 1)] && t.agentSeq == s.agentSeq + 1
      && t.executors == s.executors && t.byId == s.byId && t.primary == s.primary
    else
      && t.agents == s.agents && EntersAs(s, t, conn, if h.id != "" then h.id else "exec:" + Decimal(s.execSeq + 1), h.name)
  }

  // It replaces the connection that had its id, if there was one, and is primary if nobody is.
  ghost predicate EntersAs(s: State, t: State, conn: Conn, id: ExecId, name: string) {
    && conn in t.executors && t.executors[conn].conn == conn && t.executors[conn].name == name && t.executors[conn].id == id
    && t.executors == (if id in s.byId then s.executors - {s.byId[id].conn} else s.executors)[conn := t.executors[conn]]
    && t.byId == s.byId[id := t.executors[conn]]
    && t.primary == if s.primary.Some? && s.primary.value in t.byId then s.primary else Some(id)
  }

  lemma EntersExecutor(s: State, conn: Conn, id: ExecId, name: string)
    ensures var t := JoinExecutor(s, conn, id, name).s;
      EntersAs(s, t, conn, id, name) && t.agents == s.agents && t.token == s.token && t.nextReq == s.nextReq
    ensures JoinExecutor(s, conn, id, name).out[Ready(conn)] == 1
    ensures JoinExecutor(s, conn, id, name).out[Rejected(conn)] == 0
  {
  }

  lemma SendingGreetsNobody(s: State, exec: Exec, agent: AgentId, cmd: Command, waiter: Waiter, dead: set<Conn>, conn: Conn)
    ensures var st := SendToExecutor(s, exec, agent, cmd, waiter, dead);
      && SameConnections(s, st.s) && st.s.token == s.token && st.out[Ready(conn)] == st.out[Rejected(conn)] == 0
      && (exec.conn !in dead ==> Dispatched(s.nextReq, agent, exec.id, exec.conn, cmd) in st.out)
  {
  }

  lemma ExecutorEnters(s: State, conn: Conn, h: Hello, latest: Option<string>, dead: set<Conn>)
    requires Accepts(s, h, latest) && !h.agent
    ensures var st := HandleHello(s, conn, h, latest, dead);
      && Registers(s, st.s, conn, h) && st.s.token == TokenAfter(s, h, latest)
      && st.out[Ready(conn)] == 1 && st.out[Rejected(conn)] == 0
      && (conn !in dead ==> Dispatched(s.nextReq, Self, st.s.executors[conn].id, conn, Command(Tabs, "", "")) in st.out)
  {
    hide JoinExecutor, SendToExecutor, TokenAfter, Accepts, Decimal;
    var i, id := Introduced(s, h, latest), IdOf(s, h);
    EntersExecutor(i, conn, id, h.name);
    var joined := JoinExecutor(i, conn, id, h.name);
    SendingGreetsNobody(joined.s, joined.s.byId[id], Self, ListTabs, Rebuild, dead, conn);
  }

  /** A handshake that presents the broker's token, or the one a reload brings, is greeted and entered, an
      executor being asked for its tabs; any other is rejected and hung up on, and changes nothing but the
      token the reload brought. */
  lemma AdmittedExactly(s: State, conn: Conn, h: Hello, latest: Option<string>, dead: set<Conn>)
    ensures var st := Apply(s, HelloFrame(conn, h, latest, dead));
      && st.s.token == TokenThen(s.token, h, latest)
      && (Ready(conn) in st.out <==> Presents(s.token, h, latest))
      && (Rejected(conn) in st.out <==> !Presents(s.token, h, latest))
      && (Presents(s.token, h, latest) ==> Registers(s, st.s, conn, h) && st.out[Ready(conn)] == 1)
      && (Presents(s.token, h, latest) && !h.agent && conn !in dead ==>
            Dispatched(s.nextReq, Self, st.s.executors[conn].id, conn, Command(Tabs, "", "")) in st.out)
      && (!Presents(s.token, h, latest) ==>
            st.out == multiset{Rejected(conn), HungUp(conn)} && st.s == s.(token := TokenThen(s.token, h, latest)))
  {
    hide JoinExecutor, SendToExecutor, TokenAfter, Accepts, IdOf;
    AcceptsExactly(s, h, latest);
    if Accepts(s, h, latest) && !h.agent { ExecutorEnters(s, conn, h, latest, dead); }
  }

  // ---- Along a run ------------------------------------------------------------------------

  // At step k the connection presented, in the role given, the token that was the broker's from then on.
  ghost predicate CameIn(tr: seq<State>, ls: seq<Label>, k: nat, conn: Conn, agent: bool)
    requires |tr| == |ls| + 1
  {
    && k < |ls| && ls[k].HelloFrame? && ls[k].conn == conn && ls[k].h.agent == agent
    && ls[k].h.token == tr[k + 1].token && Presents(tr[k].token, ls[k].h, ls[k].latest)
  }

  predicate Entered(s: State, conn: Conn, agent: bool) { if agent then conn in s.agents else conn in s.executors }

  lemma RoutingEntersNobody(s: State, agent: AgentId, cmd: Command, waiter: Waiter, aborted: bool, dead: set<Conn>, conn: Conn, role: bool)
    requires !waiter.Rebuild? && Entered(Route(s, agent, cmd, waiter, aborted, dead).s, conn, role)
    ensures Entered(s, conn, role)
  {
    hide Route;
    RoutingKeepsConnections(s, agent, cmd, waiter, aborted, dead);
  }

  lemma HelloEntersItself(s: State, l: Label, conn: Conn, role: bool)
    requires l.HelloFrame? && Entered(Apply(s, l).s, conn, role)
    ensures Entered(s, conn, role) ||
      (l.conn == conn && l.h.agent == role && Presents(s.token, l.h, l.latest) && l.h.token == Apply(s, l).s.token)
  {
    hide HandleHello;
    AdmittedExactly(s, l.conn, l.h, l.latest, l.dead);
    if Presents(s.token, l.h, l.latest) && !l.h.agent && !role { ExecutorEntersItself(s, l, conn); }
  }

  lemma ExecutorEntersItself(s: State, l: Label, conn: Conn)
    requires l.HelloFrame? && !l.h.agent && conn in Apply(s, l).s.executors
    ensures conn in s.executors || l.conn == conn
  {
    hide SendToExecutor, IdOf, TokenAfter, JoinExecutor, Accepts;
    if Accepts(s, l.h, l.latest) {
      var i, id := Introduced(s, l.h, l.latest), IdOf(s, l.h);
      JoinedUnder(i, l.conn, id, l.h.name);
      JoiningAddsOnlyItself(i, l.conn, id, l.h.name);
      var joined := JoinExecutor(i, l.conn, id, l.h.name);
      SendingKeepsConnections(joined.s, joined.s.byId[id], Self, ListTabs, Rebuild, l.dead);
    }
  }

  lemma StepEntersByHello(s: State, l: Label, conn: Conn, role: bool)
    requires Enabled(s, l) && Entered(Apply(s, l).s, conn, role) && !Entered(s, conn, role)
    ensures l.HelloFrame? && l.conn == conn && l.h.agent == role
    ensures Presents(s.token, l.h, l.latest) && l.h.token == Apply(s, l).s.token
  {
    hide Route, HandleHello, CloseExecutor, CloseAgent, Settle, Abandon, Stop, ReleaseForAgent, Presents;
    match l {
      case HelloFrame(_, _, _, _) => HelloEntersItself(s, l, conn, role);
      case AgentCommand(c, frame, cmd, dead) =>
        RoutingEntersNobody(s, s.agents[c], cmd, ForAgent(c, frame), false, dead, conn, role);
      case LocalCommand(n, call, cmd, aborted, dead) =>
        RoutingEntersNobody(s, Local(n), cmd, ForLocal(call), aborted, dead, conn, role);
      case Closed(c) => ClosingAddsNothing(s, c);
      case _ => QuietStepsAddNothing(s, l);
    }
  }

  /** Over a run from an idle broker, every connection entered as an executor or as an agent presented, as
      such, the token that was the broker's as it came in. */
  lemma {:induction false} OnlyTokenHoldersComeIn(tr: seq<State>, ls: seq<Label>, i: nat, conn: Conn, role: bool) returns (k: nat)
    requires IsRun(tr, ls) && i < |tr| && tr[0].executors == map[] && tr[0].agents == map[]
    requires Entered(tr[i], conn, role)
    ensures k < i && CameIn(tr, ls, k, conn, role)
  {
    hide Apply, Enabled, Presents;
    assert i > 0;
    if Entered(tr[i - 1], conn, role) {
      k := OnlyTokenHoldersComeIn(tr, ls, i - 1, conn, role);
    } else {
      k := i - 1;
      assert Enabled(tr[k], ls[k]) && tr[i] == Apply(tr[k], ls[k]).s;
      StepEntersByHello(tr[k], ls[k], conn, role);
    }
  }
}
