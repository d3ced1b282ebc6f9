/** Who answers. The broker completes a command with the data of any connected executor that names its
    id; it does not check that the frame comes from the executor the command was dispatched to. */
module BridgeSenders {
  import opened Prelude
  import opened Broker
  import opened BrokerOwnership
  import opened BrokerSettlement
  import opened Bridge
  import AC = AgentClient

  // The broker step a move takes, if it takes one.
  function BrokerStep(w: World, m: Move): Option<Label>
    requires Possible(w, m)
  {
    match m
    case Host(l) => Some(l)
    case Carry(u, dead) => if Enabled(w.broker, AsCommand(u, dead)) then Some(AsCommand(u, dead)) else None
    case _ => None
  }

  // The move sends command r to executor e.
  ghost predicate Sends(w: World, m: Move, r: ReqId, e: ExecId) {
    && Possible(w, m) && BrokerStep(w, m).Some?
    && exists ev :: ev in Apply(w.broker, BrokerStep(w, m).value).out && ev.Dispatched? && ev.req == r && ev.exec == e
  }

  // The move is a result frame that settles command r.
  predicate Handles(w: World, m: Move, r: ReqId) {
    Possible(w, m) && m.Host? && m.l.ResultFrame? && m.l.req == r && r in w.broker.pending
  }

  // The executor the frame came from.
  function Sender(w: World, m: Move): ExecId
    requires Possible(w, m) && m.Host? && m.l.ResultFrame?
  {
    w.broker.executors[m.l.conn].id
  }

  // The check that handling a result does not make.
  predicate FromAddressee(w: World, m: Move)
    requires Possible(w, m) && m.Host? && m.l.ResultFrame? && m.l.req in w.broker.pending
  {
    Sender(w, m) == w.broker.pending[m.l.req].exec
  }

  // ---- Dispatches -----------------------------------------------------------------------

  lemma SendingDispatches(s: State, exec: Exec, agent: AgentId, cmd: Command, waiter: Waiter, dead: set<Conn>)
    ensures var st := SendToExecutor(s, exec, agent, cmd, waiter, dead);
      && (forall ev | ev in st.out && ev.Dispatched? ::
            ev.req == s.nextReq && ev.exec == exec.id && ev.req in st.s.pending && st.s.pending[ev.req].exec == ev.exec)
      && (forall r | r in st.s.pending && r !in s.pending ::
            r == s.nextReq && Dispatched(r, agent, st.s.pending[r].exec, exec.conn, cmd) in st.out)
  {
    hide SendToExecutor;
    SendingInFull(s, exec, agent, cmd, waiter, dead);
  }

  // A dispatch mints the id, and a new pending command is a dispatched one.
  ghost predicate Dispatches(s: State, st: Step) {
    && (forall ev | ev in st.out && ev.Dispatched? ::
          ev.req == s.nextReq && ev.req in st.s.pending && st.s.pending[ev.req].exec == ev.exec)
    && (forall r | r in st.s.pending && r !in s.pending ::
          exists ev :: ev in st.out && ev.Dispatched? && ev.req == r && ev.exec == st.s.pending[r].exec)
  }

  lemma RoutingDispatches(s: State, agent: AgentId, cmd: Command, waiter: Waiter, aborted: bool, dead: set<Conn>)
    requires !waiter.Rebuild?
    ensures Dispatches(s, Route(s, agent, cmd, waiter, aborted, dead))
  {
    hide SendToExecutor, PickExecutor, ResolveExecutor;
    if cmd.action != Targets && cmd.action != Release {
      var t, p := s, PickExecutor(s, cmd.target);
      if cmd.action != Cookies {
        t, p := ResolveExecutor(s, agent, cmd).0, ResolveExecutor(s, agent, cmd).1;
        ResolvingKeepsPending(s, agent, cmd);
      }
      if p.Found? { SendingDispatches(t, p.exec, agent, cmd, waiter, dead); }
    }
  }

  lemma HelloDispatches(s: State, l: Label)
    requires l.HelloFrame?
    ensures Dispatches(s, Apply(s, l))
  {
    hide SendToExecutor, JoinExecutor, HandleHello;
    HelloInFull(s, l);
    if Accepts(s, l.h, l.latest) && !l.h.agent {
      var joined := JoinExecutor(Introduced(s, l.h, l.latest), l.conn, IdOf(s, l.h), l.h.name);
      JoiningInFull(Introduced(s, l.h, l.latest), l.conn, IdOf(s, l.h), l.h.name);
      var st := SendToExecutor(joined.s, joined.s.byId[IdOf(s, l.h)], Self, ListTabs, Rebuild, l.dead);
      SendingDispatches(joined.s, joined.s.byId[IdOf(s, l.h)], Self, ListTabs, Rebuild, l.dead);
      assert forall ev: Event | ev.Dispatched? :: ev in Apply(s, l).out <==> ev in st.out;
    }
  }

  lemma StepDispatches(s: State, l: Label)
    requires Enabled(s, l)
    ensures Dispatches(s, Apply(s, l))
  {
    hide Dispatches, Route, HandleHello;
    match l {
      case HelloFrame(_, _, _, _) => HelloDispatches(s, l);
      case AgentCommand(conn, frame, cmd, dead) => RoutingDispatches(s, s.agents[conn], cmd, ForAgent(conn, frame), false, dead);
      case LocalCommand(n, call, cmd, aborted, dead) => RoutingDispatches(s, Local(n), cmd, ForLocal(call), aborted, dead);
      case _ => OtherStepsDispatch(s, l);
    }
  }

  lemma OtherStepsDispatch(s: State, l: Label)
    requires Enabled(s, l) && !l.HelloFrame? && !l.AgentCommand? && !l.LocalCommand?
    ensures Dispatches(s, Apply(s, l))
  {
    hide Apply;
    forall ev: Event | ev.Dispatched? ensures ev !in Apply(s, l).out {
      if l.Closed? { ClosingDispatchesNothing(s, l.conn, ev); } else { QuietStepsDispatchNothing(s, l, ev); }
    }
    NothingNewPending(s, l);
  }

  lemma NothingNewPending(s: State, l: Label)
    requires Enabled(s, l) && !l.HelloFrame? && !l.AgentCommand? && !l.LocalCommand?
    ensures Apply(s, l).s.pending.Keys <= s.pending.Keys
  {
  }

  // ---- Along a run ----------------------------------------------------------------------

  lemma MoveOfBroker(w: World, m: Move)
    requires Possible(w, m) && PendingNumbered(w.broker)
    ensures BrokerStep(w, m).None? ==> Perform(w, m).broker == w.broker
    ensures BrokerStep(w, m).Some? ==>
      && Enabled(w.broker, BrokerStep(w, m).value)
      && Perform(w, m).broker == Apply(w.broker, BrokerStep(w, m).value).s
      && AccountedStep(w.broker, Apply(w.broker, BrokerStep(w, m).value), Answered(w.broker, BrokerStep(w, m).value))
      && Dispatches(w.broker, Apply(w.broker, BrokerStep(w, m).value))
  {
    hide Apply, Enabled, AccountedStep, Dispatches;
    if BrokerStep(w, m).Some? {
      StepIsAccounted(w.broker, BrokerStep(w, m).value);
      StepDispatches(w.broker, BrokerStep(w, m).value);
    }
  }

  // What a move does to the pending commands.
  lemma MoveOfPending(w: World, m: Move, r: ReqId)
    requires Possible(w, m) && PendingNumbered(w.broker)
    ensures w.broker.nextReq <= Perform(w, m).broker.nextReq
    ensures r in Perform(w, m).broker.pending && r in w.broker.pending ==>
      Perform(w, m).broker.pending[r] == w.broker.pending[r]
    ensures r in Perform(w, m).broker.pending && r !in w.broker.pending ==>
      r >= w.broker.nextReq && Sends(w, m, r, Perform(w, m).broker.pending[r].exec)
    ensures Handles(w, m, r) ==> r !in Perform(w, m).broker.pending
    ensures forall e | Sends(w, m, r, e) ::
      r == w.broker.nextReq && r in Perform(w, m).broker.pending && Perform(w, m).broker.pending[r].exec == e
  {
    hide Apply, Enabled, Perform;
    MoveOfBroker(w, m);
  }

  ghost predicate RunsFromIdle(ws: seq<World>, ms: seq<Move>) {
    IsRun(ws, ms) && exists token :: ws[0] == Idle(token)
  }

  lemma RunHasInv(ws: seq<World>, ms: seq<Move>, i: nat)
    requires RunsFromIdle(ws, ms) && i < |ws|
    ensures Inv(ws[i]) && PendingNumbered(ws[i].broker) && ws[0].broker.pending == map[] && ws[0].answered == map[]
    ensures ws[0].broker.nextReq == 0
  {
    var token :| ws[0] == Idle(token);
    IdleIsFine(token);
    InvAlways(ws, ms, i);
  }

  // A command that is not pending any more never comes back.
  lemma {:induction false} GoneStaysGone(ws: seq<World>, ms: seq<Move>, r: ReqId, i: nat, j: nat)
    requires RunsFromIdle(ws, ms) && i <= j < |ws|
    requires r < ws[i].broker.nextReq && r !in ws[i].broker.pending
    ensures r < ws[j].broker.nextReq && r !in ws[j].broker.pending
    decreases j - i
  {
    hide Perform, Inv, PendingNumbered, Sends;
    if i < j {
      GoneStaysGone(ws, ms, r, i, j - 1);
      RunHasInv(ws, ms, j - 1);
      assert Possible(ws[j - 1], ms[j - 1]);
      MoveOfPending(ws[j - 1], ms[j - 1], r);
    }
  }

  // A pending command was sent, at some earlier move, to the executor its entry names.
  lemma {:induction false} PendingWasSent(ws: seq<World>, ms: seq<Move>, r: ReqId, i: nat) returns (d: nat)
    requires RunsFromIdle(ws, ms) && i < |ws| && r in ws[i].broker.pending
    ensures d < i && Sends(ws[d], ms[d], r, ws[i].broker.pending[r].exec)
  {
    hide Perform, Inv, PendingNumbered, Sends;
    RunHasInv(ws, ms, i);
    var w, m := ws[i - 1], ms[i - 1];
    RunHasInv(ws, ms, i - 1);
    assert Possible(w, m);
    MoveOfPending(w, m, r);
    if r in w.broker.pending {
      d := PendingWasSent(ws, ms, r, i - 1);
    } else {
      d := i - 1;
    }
  }

  lemma SentOnce(ws: seq<World>, ms: seq<Move>, r: ReqId, d: nat, d': nat, e: ExecId, e': ExecId)
    requires RunsFromIdle(ws, ms) && d < |ms| && d' < |ms|
    requires Sends(ws[d], ms[d], r, e) && Sends(ws[d'], ms[d'], r, e')
    ensures d == d' && e == e'
  {
    hide Perform, Inv, PendingNumbered, Sends;
    RunHasInv(ws, ms, d);
    RunHasInv(ws, ms, d');
    assert Possible(ws[d], ms[d]) && Possible(ws[d'], ms[d']);
    MoveOfPending(ws[d], ms[d], r);
    MoveOfPending(ws[d'], ms[d'], r);
    RunHasInv(ws, ms, d + 1);
    RunHasInv(ws, ms, d' + 1);
    if d < d' { NextReqGrows(ws, ms, d + 1, d'); MintedIsBelow(ws[d + 1], r); }
    if d' < d { NextReqGrows(ws, ms, d' + 1, d); MintedIsBelow(ws[d' + 1], r); }
  }

  lemma MintedIsBelow(w: World, r: ReqId)
    requires PendingNumbered(w.broker) && r in w.broker.pending
    ensures r < w.broker.nextReq
  {
  }

  lemma {:induction false} NextReqGrows(ws: seq<World>, ms: seq<Move>, i: nat, j: nat)
    requires RunsFromIdle(ws, ms) && i <= j < |ws|
    ensures ws[i].broker.nextReq <= ws[j].broker.nextReq
    decreases j - i
  {
    hide Perform, Inv, PendingNumbered, Sends;
    if i < j {
      NextReqGrows(ws, ms, i, j - 1);
      RunHasInv(ws, ms, j - 1);
      assert Possible(ws[j - 1], ms[j - 1]);
      MoveOfPending(ws[j - 1], ms[j - 1], 0);
    }
  }

  lemma HandledOnce(ws: seq<World>, ms: seq<Move>, r: ReqId, a: nat, a': nat)
    requires RunsFromIdle(ws, ms) && a <= a' < |ms|
    requires Handles(ws[a], ms[a], r) && Handles(ws[a'], ms[a'], r)
    ensures a == a'
  {
    hide Perform, Inv, PendingNumbered, Sends;
    if a < a' {
      RunHasInv(ws, ms, a);
      MoveOfPending(ws[a], ms[a], r);
      MintedIsBelow(ws[a], r);
      GoneStaysGone(ws, ms, r, a + 1, a');
    }
  }

  lemma {:induction false} AnswerWasHandled(ws: seq<World>, ms: seq<Move>, r: ReqId, i: nat) returns (a: nat)
    requires RunsFromIdle(ws, ms) && i < |ws| && r in ws[i].answered
    ensures a < i && Handles(ws[a], ms[a], r) && ms[a].l.outcome == ws[i].answered[r]
  {
    hide Inv, PendingNumbered, Apply;
    RunHasInv(ws, ms, i);
    var w, m := ws[i - 1], ms[i - 1];
    assert Possible(w, m) && ws[i] == Perform(w, m);
    if Handles(w, m, r) {
      a := i - 1;
    } else {
      a := AnswerWasHandled(ws, ms, r, i - 1);
    }
  }

  // ---- Who answered whom ----------------------------------------------------------------

  // The history of a guest's request that ended with data: command r was sent to executor e at move d,
  // and settled by a result frame of executor x at move a, whose data is what the guest got.
  ghost predicate Story(ws: seq<World>, ms: seq<Move>, i: nat, k: Key, r: ReqId, d: nat, a: nat, e: ExecId, x: ExecId)
    requires i < |ws| == |ms| + 1 && DoneByAnswer(ws[i], k)
  {
    var end := ws[i].guests[k.conn].done[k.frame];
    && end.via == Some(r) && r in ws[i].minted && ws[i].minted[r] == k
    && d < a < i
    && Sends(ws[d], ms[d], r, e) && (forall d', e' | 0 <= d' < |ms| && Sends(ws[d'], ms[d'], r, e') :: d' == d && e' == e)
    && Handles(ws[a], ms[a], r) && (forall a' | 0 <= a' < |ms| && Handles(ws[a'], ms[a'], r) :: a' == a)
    && ms[a].l.outcome == end.outcome && x == Sender(ws[a], ms[a])
  }

  /** End to end, a guest's request that ended with data was sent once, to one executor, and settled once,
      by one result frame that carried that data; and the executor the frame came from is the one the
      command was sent to if and only if the frame would have passed the check that is not made. */
  lemma AnswererIsAddresseeExactly(ws: seq<World>, ms: seq<Move>, i: nat, k: Key)
    returns (r: ReqId, d: nat, a: nat, e: ExecId, x: ExecId)
    requires RunsFromIdle(ws, ms) && i < |ws|
    requires DoneByAnswer(ws[i], k) && ws[i].guests[k.conn].done[k.frame].outcome.Data?
    ensures Story(ws, ms, i, k, r, d, a, e, x)
    ensures x == e <==> FromAddressee(ws[a], ms[a])
  {
    hide Perform, Sends, PendingNumbered, Handles;
    RunHasInv(ws, ms, i);
    var end := ws[i].guests[k.conn].done[k.frame];
    assert Genuine(ws[i], k, end.outcome, end.via);
    r := end.via.value;
    a := AnswerWasHandled(ws, ms, r, i);
    HandledMeansPending(ws[a], ms[a], r);
    d := PendingWasSent(ws, ms, r, a);
    e, x := ws[a].broker.pending[r].exec, Sender(ws[a], ms[a]);
    forall d', e' | 0 <= d' < |ms| && Sends(ws[d'], ms[d'], r, e') ensures d' == d && e' == e { SentOnce(ws, ms, r, d, d', e, e'); }
    forall a' | 0 <= a' < |ms| && Handles(ws[a'], ms[a'], r) ensures a' == a {
      if a <= a' { HandledOnce(ws, ms, r, a, a'); } else { HandledOnce(ws, ms, r, a', a); }
    }
  }

  lemma HandledMeansPending(w: World, m: Move, r: ReqId)
    requires Handles(w, m, r)
    ensures Possible(w, m) && m.Host? && m.l.ResultFrame? && m.l.req == r && r in w.broker.pending
  {
  }

  // Executors answer only commands that were sent to them, under whatever connection.
  ghost predicate AnswersOnlyItsOwn(ws: seq<World>, ms: seq<Move>)
    requires |ws| == |ms| + 1
  {
    forall j, q | 0 <= j < |ms| && Handles(ws[j], ms[j], q) ::
      exists f :: 0 <= f < j && Sends(ws[f], ms[f], q, Sender(ws[j], ms[j]))
  }

  /** If executors answer only commands that were sent to them, a guest's request is completed with data
      only by the executor its command was sent to. */
  lemma AnswererIsAddressee(ws: seq<World>, ms: seq<Move>, i: nat, k: Key)
    returns (r: ReqId, d: nat, a: nat, e: ExecId)
    requires RunsFromIdle(ws, ms) && i < |ws| && AnswersOnlyItsOwn(ws, ms)
    requires DoneByAnswer(ws[i], k) && ws[i].guests[k.conn].done[k.frame].outcome.Data?
    ensures Story(ws, ms, i, k, r, d, a, e, e)
  {
    hide Perform, Sends;
    var x;
    r, d, a, e, x := AnswererIsAddresseeExactly(ws, ms, i, k);
    assert Handles(ws[a], ms[a], r);
    var f :| 0 <= f < a && Sends(ws[f], ms[f], r, Sender(ws[a], ms[a]));
    assert f == d && x == e;
  }

  // ---- A wrong answerer -----------------------------------------------------------------

  function Misanswer(conn: Conn, r: ReqId, value: nat): Move { Host(ResultFrame(conn, r, Data(value, {}))) }

  /** Whenever a guest waits for command r, any other connected executor can complete it: its frame is
      taken, and its data is what the guest gets. */
  lemma AnyExecutorCanAnswer(w: World, k: Key, r: ReqId, conn: Conn, value: nat)
    requires r in w.broker.pending && w.broker.pending[r].waiter == ForAgent(k.conn, k.frame)
    requires k.conn in w.guests && k.frame in w.guests[k.conn].pending
    requires conn in w.broker.executors && w.broker.executors[conn].id != w.broker.pending[r].exec
    ensures var m := Misanswer(conn, r, value);
      && Possible(w, m) && Handles(w, m, r) && !FromAddressee(w, m)
      && var t := Perform(w, m);
         && Possible(t, Receive(Down(k, Data(value, {}), Some(r))))
         && var u := Perform(t, Receive(Down(k, Data(value, {}), Some(r))));
            DoneByAnswer(u, k) && u.guests[k.conn].done[k.frame] == AC.Answer(Data(value, {}), Some(r))
  {
    var st := Settle(w.broker, r, Data(value, {}));
    var ev := Replied(ForAgent(k.conn, k.frame), Data(value, {}), Some(r));
    assert ev in st.out;
    assert Down(k, Data(value, {}), Some(r)) == Down(Key(ev.waiter.conn, ev.waiter.frame), ev.outcome, ev.answers);
    assert Down(k, Data(value, {}), Some(r)) in Frames(st.out);
  }

  lemma Extend(ws: seq<World>, ms: seq<Move>, m: Move) returns (ws': seq<World>, ms': seq<Move>, w: World)
    requires RunsFromIdle(ws, ms) && Possible(ws[|ms|], m)
    ensures RunsFromIdle(ws', ms') && ms' == ms + [m] && ws <= ws' && w == ws'[|ms'|] == Perform(ws[|ms|], m)
  {
    w := Perform(ws[|ms|], m);
    ws', ms' := ws + [w], ms + [m];
  }

  // An executor introduces itself to an otherwise quiet broker.
  lemma Introduce(ws: seq<World>, ms: seq<Move>, conn: Conn, id: ExecId) returns (ws': seq<World>, ms': seq<Move>, w: World)
    requires RunsFromIdle(ws, ms) && ws[|ms|].broker.token == "t" && id != "" && id !in ws[|ms|].broker.byId
    requires forall c | c in ws[|ms|].broker.executors :: c != conn
    ensures RunsFromIdle(ws', ms') && |ws'| == |ms'| + 1 && w == ws'[|ms'|]
    ensures w.broker.executors.Keys == ws[|ms|].broker.executors.Keys + {conn} && w.broker.executors[conn].id == id
    ensures forall c | c in ws[|ms|].broker.executors :: w.broker.executors[c] == ws[|ms|].broker.executors[c]
    ensures w.broker.byId == ws[|ms|].broker.byId[id := w.broker.executors[conn]] && w.broker.executors[conn].conn == conn
    ensures w.broker.token == "t" && w.broker.agents == ws[|ms|].broker.agents && w.broker.agentSeq == ws[|ms|].broker.agentSeq
    ensures w.guests == ws[|ms|].guests && w.up == ws[|ms|].up
  {
    ws', ms', w := Extend(ws, ms, Host(HelloFrame(conn, Hello(false, "t", id, "x"), None, {})));
  }

  // Two browsers and a guest; the guest asks for cookies of browser "a".
  lemma GuestWaits() returns (ws: seq<World>, ms: seq<Move>, w: World, r: ReqId)
    ensures RunsFromIdle(ws, ms) && |ws| == |ms| + 1 && w == ws[|ms|]
    ensures r in w.broker.pending && w.broker.pending[r] == Pending(Remote(1), "a", ForAgent(3, 0))
    ensures 3 in w.guests && 0 in w.guests[3].pending
    ensures 2 in w.broker.executors && w.broker.executors[2].id == "b"
  {
    hide Perform, Possible, RunsFromIdle;
    var cmd := Command(Cookies, "", "a");
    ws, ms, w := BrowsersConnect();
    ws, ms, w := AgentConnects(ws, ms);
    ws, ms, w := GuestAsks(ws, ms, cmd);
    r := w.broker.nextReq;
    ws, ms, w := CarryIt(ws, ms, cmd);
  }

  lemma BrowsersConnect() returns (ws: seq<World>, ms: seq<Move>, w: World)
    ensures RunsFromIdle(ws, ms) && |ws| == |ms| + 1 && w == ws[|ms|]
    ensures w.broker.executors.Keys == {1, 2} && w.broker.executors[2].id == "b" && w.broker.token == "t"
    ensures "a" in w.broker.byId && w.broker.byId["a"].id == "a"
    ensures w.broker.agents == map[] && w.broker.agentSeq == 0 && w.guests == map[] && w.up == {}
  {
    hide Perform, Possible;
    w := Idle("t");
    ws, ms := [w], [];
    ws, ms, w := Introduce(ws, ms, 1, "a");
    ws, ms, w := Introduce(ws, ms, 2, "b");
  }

  lemma AgentConnects(ws: seq<World>, ms: seq<Move>) returns (ws': seq<World>, ms': seq<Move>, w: World)
    requires RunsFromIdle(ws, ms) && ws[|ms|].broker.token == "t" && ws[|ms|].broker.agentSeq == 0
    ensures RunsFromIdle(ws', ms') && |ws'| == |ms'| + 1 && w == ws'[|ms'|]
    ensures w.broker.agents == ws[|ms|].broker.agents[3 := Remote(1)] && w.guests == ws[|ms|].guests && w.up == ws[|ms|].up
    ensures w.broker.executors == ws[|ms|].broker.executors && w.broker.byId == ws[|ms|].broker.byId
  {
    ws', ms', w := Extend(ws, ms, Host(HelloFrame(3, Hello(true, "t", "", ""), None, {})));
  }

  lemma GuestAsks(ws: seq<World>, ms: seq<Move>, cmd: Command) returns (ws': seq<World>, ms': seq<Move>, w: World)
    requires RunsFromIdle(ws, ms) && ws[|ms|].guests == map[] && ws[|ms|].up == {} && Routable(cmd)
    ensures RunsFromIdle(ws', ms') && |ws'| == |ms'| + 1 && w == ws'[|ms'|] && w.broker == ws[|ms|].broker
    ensures Up(Key(3, 0), cmd) in w.up && 3 in w.guests && 0 in w.guests[3].pending
  {
    hide RunsFromIdle;
    RunsAlign(ws, ms);
    ws', ms', w := Extend(ws, ms, Dial(3));
    RunsAlign(ws', ms');
    ws', ms', w := Extend(ws', ms', Guest(3, AC.BecomeReady));
    RunsAlign(ws', ms');
    ws', ms', w := Extend(ws', ms', Ask(3, cmd, true));
    RunsAlign(ws', ms');
  }

  lemma RunsAlign(ws: seq<World>, ms: seq<Move>)
    requires RunsFromIdle(ws, ms)
    ensures |ws| == |ms| + 1
  {
  }

  lemma CarryIt(ws: seq<World>, ms: seq<Move>, cmd: Command) returns (ws': seq<World>, ms': seq<Move>, w: World)
    requires RunsFromIdle(ws, ms) && cmd == Command(Cookies, "", "a")
    requires Up(Key(3, 0), cmd) in ws[|ms|].up
    requires var b := ws[|ms|].broker; 3 in b.agents && 3 !in b.executors && b.agents[3] == Remote(1) && "a" in b.byId && b.byId["a"].id == "a"
    ensures RunsFromIdle(ws', ms') && |ws'| == |ms'| + 1 && w == ws'[|ms'|]
    ensures var r := ws[|ms|].broker.nextReq;
      r in w.broker.pending && w.broker.pending[r] == Pending(Remote(1), "a", ForAgent(3, 0))
    ensures w.guests == ws[|ms|].guests && w.broker.executors == ws[|ms|].broker.executors
  {
    ws', ms', w := Extend(ws, ms, Carry(Up(Key(3, 0), cmd), {}));
  }

  /** It does happen: with two browsers connected, a guest's request for cookies of the one is completed
      with the data of the other. */
  lemma WrongBrowserAnswers(value: nat) returns (ws: seq<World>, ms: seq<Move>, r: ReqId)
    ensures RunsFromIdle(ws, ms) && |ms| >= 2
    ensures var w := ws[|ms| - 2];
      && r in w.broker.pending && w.broker.pending[r].exec == "a"
      && Handles(w, ms[|ms| - 2], r) && Sender(w, ms[|ms| - 2]) == "b"
    ensures DoneByAnswer(ws[|ms|], Key(3, 0)) && ws[|ms|].guests[3].done[0] == AC.Answer(Data(value, {}), Some(r))
  {
    var w;
    ws, ms, w, r := GuestWaits();
    AnyExecutorCanAnswer(w, Key(3, 0), r, 2, value);
    ws, ms, w := Extend(ws, ms, Misanswer(2, r, value));
    ws, ms, w := Extend(ws, ms, Receive(Down(Key(3, 0), Data(value, {}), Some(r))));
  }
}
