/** How the broker accounts for the commands it dispatched: every one is settled once, answered to
    the agent that asked, and cancelled at most once, at the moment it is given up. */
module BrokerSettlement {
  import opened Prelude
  import opened Broker
  import opened BrokerSafety
  import opened BrokerOwnership

  // The request this step finishes, whether it was pending or was minted by the step itself.
  predicate Finishes(s: State, t: State, r: ReqId) {
    (r in s.pending || s.nextReq <= r < t.nextReq) && r !in t.pending
  }

  predicate PendingSide(s: State, t: State) {
    && s.nextReq <= t.nextReq <= s.nextReq + 1
    && (forall r | r in t.pending :: r in s.pending || s.nextReq <= r < t.nextReq)
    && (forall r | r in t.pending && r in s.pending :: t.pending[r] == s.pending[r])
  }

  ghost predicate SettledSide(s: State, st: Step) {
    forall r :: st.out[Settled(r)] == if Finishes(s, st.s, r) then 1 else 0
  }

  // Cancel frames go, once, to the executor of a command that is being given up.
  ghost predicate CancelSide(s: State, st: Step, answered: Option<(ReqId, Outcome)>) {
    forall r, c | Cancelled(r, c) in st.out ::
      && st.out[Cancelled(r, c)] == 1 && answered.None?
      && r in s.pending && r !in st.s.pending && HasExecutor(s, s.pending[r].exec, c)
  }

  // One reply: to whom, with what. `asking` is who issues a command in this step, `own` whether the
  // broker may answer it itself, `answered` the result frame being handled.
  predicate ReplyFits(s: State, t: State, asking: Option<Waiter>, own: bool, answered: Option<(ReqId, Outcome)>, ev: Event)
    requires ev.Replied?
  {
    && (match ev.answers
        case Some(r) =>
          && Finishes(s, t, r)
          && (if r in s.pending then ev.waiter == s.pending[r].waiter else asking == Some(ev.waiter) && ev.outcome.Error?)
        case None => asking == Some(ev.waiter) && t.nextReq == s.nextReq)
    && (ev.outcome.Data? ==> ev.answers.Some? && answered == Some((ev.answers.value, ev.outcome)))
    && (ev.outcome.Own? ==> own && ev.answers.None?)
  }

  ghost predicate ReplySide(s: State, st: Step, asking: Option<Waiter>, own: bool, answered: Option<(ReqId, Outcome)>) {
    && (forall ev | ev in st.out && ev.Replied? :: st.out[ev] == 1 && ReplyFits(s, st.s, asking, own, answered, ev))
    && (forall ev, ev' | ev in st.out && ev' in st.out && ev.Replied? && ev'.Replied? && ev.waiter == ev'.waiter &&
                         ev.answers == ev'.answers :: ev == ev')
    && (forall r | r in s.pending && r !in st.s.pending && s.pending[r].waiter != Rebuild ::
          exists o :: Replied(s.pending[r].waiter, o, Some(r)) in st.out)
    && (forall r | r in st.s.pending && r !in s.pending :: asking == Some(st.s.pending[r].waiter))
  }

  ghost predicate Accounts(s: State, st: Step, asking: Option<Waiter>, own: bool, answered: Option<(ReqId, Outcome)>) {
    PendingSide(s, st.s) && SettledSide(s, st) && CancelSide(s, st, answered) &&
    ReplySide(s, st, asking, own, answered)
  }

  ghost predicate PendingNumbered(s: State) { forall r | r in s.pending :: r < s.nextReq }

  lemma SendSettles(s: State, exec: Exec, agent: AgentId, cmd: Command, waiter: Waiter, dead: set<Conn>)
    requires PendingNumbered(s)
    ensures var st := SendToExecutor(s, exec, agent, cmd, waiter, dead);
      PendingSide(s, st.s) && SettledSide(s, st) && CancelSide(s, st, None)
  {
    hide SendToExecutor;
    SendingInFull(s, exec, agent, cmd, waiter, dead);
  }

  lemma SendReplies(s: State, exec: Exec, agent: AgentId, cmd: Command, waiter: Waiter, dead: set<Conn>)
    requires PendingNumbered(s)
    ensures ReplySide(s, SendToExecutor(s, exec, agent, cmd, waiter, dead), Some(waiter), false, None)
  {
    hide SendToExecutor;
    SendingInFull(s, exec, agent, cmd, waiter, dead);
  }

  lemma SendAccounts(s: State, exec: Exec, agent: AgentId, cmd: Command, waiter: Waiter, dead: set<Conn>)
    requires PendingNumbered(s)
    ensures Accounts(s, SendToExecutor(s, exec, agent, cmd, waiter, dead), Some(waiter), false, None)
  {
    hide SendToExecutor, PendingSide, SettledSide, CancelSide, ReplySide, PendingNumbered;
    SendSettles(s, exec, agent, cmd, waiter, dead);
    SendReplies(s, exec, agent, cmd, waiter, dead);
  }

  lemma SettlingInFull(s: State, r: ReqId, outcome: Outcome)
    requires r in s.pending
    ensures var (st, waiter) := (Settle(s, r, outcome), s.pending[r].waiter);
      && st.s.pending == s.pending - {r} && st.s.nextReq == s.nextReq
      && st.out == multiset{Settled(r)} + (if waiter.Rebuild? then multiset{} else multiset{Replied(waiter, outcome, Some(r))})
  {
  }

  lemma SettlingSettles(s: State, r: ReqId, outcome: Outcome)
    requires r in s.pending && PendingNumbered(s)
    ensures var st := Settle(s, r, outcome);
      PendingSide(s, st.s) && SettledSide(s, st) && CancelSide(s, st, Some((r, outcome)))
  {
    hide Settle;
    SettlingInFull(s, r, outcome);
  }

  lemma SettlingReplies(s: State, r: ReqId, outcome: Outcome)
    requires r in s.pending && !outcome.Own? && PendingNumbered(s)
    ensures ReplySide(s, Settle(s, r, outcome), None, false, Some((r, outcome)))
  {
    hide Settle;
    SettlingInFull(s, r, outcome);
    assert s.pending[r].waiter != Rebuild ==> Replied(s.pending[r].waiter, outcome, Some(r)) in Settle(s, r, outcome).out;
  }

  lemma SettleAccounts(s: State, r: ReqId, outcome: Outcome)
    requires r in s.pending && !outcome.Own? && PendingNumbered(s)
    ensures Accounts(s, Settle(s, r, outcome), None, false, Some((r, outcome)))
  {
    hide Settle, PendingSide, SettledSide, CancelSide, ReplySide, PendingNumbered;
    SettlingSettles(s, r, outcome);
    SettlingReplies(s, r, outcome);
  }

  lemma RejectionsSettle(s: State, gone: set<ReqId>, code: string)
    requires gone <= s.pending.Keys && PendingNumbered(s)
    ensures SettledSide(s, RejectAll(s, gone, code))
  {
  }

  lemma RejectAllAccounts(s: State, gone: set<ReqId>, code: string)
    requires gone <= s.pending.Keys && PendingNumbered(s)
    ensures Accounts(s, RejectAll(s, gone, code), None, false, None)
  {
    RejectionsSettle(s, gone, code);
    RejectionsReply(s, gone, code);
    hide SettledSide, ReplySide;
  }

  // The only replies are the rejections, one for each command somebody waits for.
  lemma RejectionsInFull(s: State, gone: set<ReqId>, code: string, ev: Event)
    requires gone <= s.pending.Keys && ev.Replied?
    ensures RejectAll(s, gone, code).out[ev] ==
      if ev.answers.Some? && ev.answers.value in gone && s.pending[ev.answers.value].waiter == ev.waiter != Rebuild
         && ev.outcome == Error(code) then 1 else 0
  {
  }

  lemma RejectionsReply(s: State, gone: set<ReqId>, code: string)
    requires gone <= s.pending.Keys && PendingNumbered(s)
    ensures ReplySide(s, RejectAll(s, gone, code), None, false, None)
  {
    hide RejectAll;
    RejectingState(s, gone, code);
    var st := RejectAll(s, gone, code);
    forall ev | ev in st.out && ev.Replied?
      ensures st.out[ev] == 1 && ReplyFits(s, st.s, None, false, None, ev)
      ensures ev.outcome == Error(code)
    {
      RejectionsInFull(s, gone, code, ev);
    }
    forall r | r in s.pending && r !in st.s.pending && s.pending[r].waiter != Rebuild
      ensures exists o :: Replied(s.pending[r].waiter, o, Some(r)) in st.out
    {
      RejectionsInFull(s, gone, code, Replied(s.pending[r].waiter, Error(code), Some(r)));
      assert Replied(s.pending[r].waiter, Error(code), Some(r)) in st.out;
    }
  }

  lemma SameReplies(s: State, st: Step, st': Step, asking: Option<Waiter>, own: bool, answered: Option<(ReqId, Outcome)>)
    requires ReplySide(s, st, asking, own, answered)
    requires st'.s.pending == st.s.pending && st'.s.nextReq == st.s.nextReq
    requires forall ev: Event | ev.Replied? :: st'.out[ev] == st.out[ev]
    ensures ReplySide(s, st', asking, own, answered)
  {
    forall r | r in s.pending && r !in st'.s.pending && s.pending[r].waiter != Rebuild
      ensures exists o :: Replied(s.pending[r].waiter, o, Some(r)) in st'.out
    {
      var o :| Replied(s.pending[r].waiter, o, Some(r)) in st.out;
      assert st'.out[Replied(s.pending[r].waiter, o, Some(r))] > 0;
    }
  }

  // Accounting looks at the pending commands and at these events only.
  lemma AccountsForMore(s: State, st: Step, st': Step, asking: Option<Waiter>, own: bool, answered: Option<(ReqId, Outcome)>)
    requires Accounts(s, st, asking, own, answered)
    requires st'.s.pending == st.s.pending && st'.s.nextReq == st.s.nextReq
    requires forall ev: Event | ev.Settled? || ev.Cancelled? || ev.Replied? :: st'.out[ev] == st.out[ev]
    ensures Accounts(s, st', asking, own, answered)
  {
    hide PendingSide, SettledSide, CancelSide, ReplySide;
    SameReplies(s, st, st', asking, own, answered);
    SameSettlements(s, st, st');
    SameCancels(s, st, st', answered);
  }

  lemma SameSettlements(s: State, st: Step, st': Step)
    requires SettledSide(s, st) && PendingSide(s, st.s)
    requires st'.s.pending == st.s.pending && st'.s.nextReq == st.s.nextReq
    requires forall ev: Event | ev.Settled? :: st'.out[ev] == st.out[ev]
    ensures SettledSide(s, st') && PendingSide(s, st'.s)
  {
    forall r ensures st'.out[Settled(r)] == if Finishes(s, st'.s, r) then 1 else 0 {
      assert st.out[Settled(r)] == if Finishes(s, st.s, r) then 1 else 0;
    }
  }

  lemma SameCancels(s: State, st: Step, st': Step, answered: Option<(ReqId, Outcome)>)
    requires CancelSide(s, st, answered) && st'.s.pending == st.s.pending
    requires forall ev: Event | ev.Cancelled? :: st'.out[ev] == st.out[ev]
    ensures CancelSide(s, st', answered)
  {
    forall r, c | Cancelled(r, c) in st'.out ensures Cancelled(r, c) in st.out {
      assert st'.out[Cancelled(r, c)] > 0;
    }
  }

  function GivenUpOn(s: State, gone: set<ReqId>, r: ReqId, c: Conn): nat
    requires gone <= s.pending.Keys
  {
    if r in gone && HasExecutor(s, s.pending[r].exec, c) then 1 else 0
  }

  lemma AbandoningInFull(s: State, gone: set<ReqId>, code: string)
    requires gone <= s.pending.Keys
    ensures Abandon(s, gone, code).s == RejectAll(s, gone, code).s
    ensures forall ev: Event | !ev.Cancelled? :: Abandon(s, gone, code).out[ev] == RejectAll(s, gone, code).out[ev]
    ensures forall r, c :: Abandon(s, gone, code).out[Cancelled(r, c)] == GivenUpOn(s, gone, r, c)
  {
    assert forall r, c :: RejectAll(s, gone, code).out[Cancelled(r, c)] == 0;
  }

  lemma AbandonAccounts(s: State, gone: set<ReqId>, code: string)
    requires gone <= s.pending.Keys && PendingNumbered(s)
    ensures Accounts(s, Abandon(s, gone, code), None, false, None)
  {
    hide RejectAll, Abandon, PendingNumbered, HasExecutor;
    var st, all := RejectAll(s, gone, code), Abandon(s, gone, code);
    RejectAllAccounts(s, gone, code);
    RejectingState(s, gone, code);
    AbandoningInFull(s, gone, code);
    SameReplies(s, st, all, None, false, None);
    hide ReplySide;
    forall r ensures all.out[Settled(r)] == if Finishes(s, all.s, r) then 1 else 0 {
      assert st.out[Settled(r)] == if Finishes(s, st.s, r) then 1 else 0;
    }
  }

  // The broker answers by itself, without touching the pending commands.
  lemma DirectReplyAccounts(s: State, st: Step, waiter: Waiter, outcome: Outcome, own: bool)
    requires st.s.pending == s.pending && st.s.nextReq == s.nextReq && PendingNumbered(s)
    requires outcome.Error? || (outcome.Own? && own)
    requires forall ev: Event | ev.Settled? || ev.Cancelled? || ev.Replied? ::
      st.out[ev] == if ev == Replied(waiter, outcome, None) then 1 else 0
    ensures Accounts(s, st, Some(waiter), own, None)
  {
  }

  lemma WeakerAccounts(s: State, st: Step, asking: Option<Waiter>, own: bool)
    requires Accounts(s, st, asking, false, None)
    ensures Accounts(s, st, asking, own, None)
  {
  }

  // Steps that cancel nothing are accounted for by the pending commands alone.
  lemma TransferAccounts(t: State, s: State, st: Step, asking: Option<Waiter>, own: bool)
    requires Accounts(t, st, asking, own, None) && t.pending == s.pending && t.nextReq == s.nextReq
    requires forall r, c :: Cancelled(r, c) !in st.out
    ensures Accounts(s, st, asking, own, None)
  {
    forall r ensures st.out[Settled(r)] == if Finishes(s, st.s, r) then 1 else 0 {
      assert st.out[Settled(r)] == if Finishes(t, st.s, r) then 1 else 0;
    }
  }

  // A dispatch from a state that differs from s off the pending commands only.
  lemma DispatchAccounts(s: State, t: State, exec: Exec, agent: AgentId, cmd: Command, waiter: Waiter, dead: set<Conn>)
    requires PendingNumbered(s) && t.pending == s.pending && t.nextReq == s.nextReq
    ensures Accounts(s, SendToExecutor(t, exec, agent, cmd, waiter, dead), Some(waiter), false, None)
  {
    SendingInFull(t, exec, agent, cmd, waiter, dead);
    SendAccounts(t, exec, agent, cmd, waiter, dead);
    TransferAccounts(t, s, SendToExecutor(t, exec, agent, cmd, waiter, dead), Some(waiter), false);
  }

  lemma RefusalAccounts(s: State, t: State, waiter: Waiter, code: string)
    requires PendingNumbered(s) && t.pending == s.pending && t.nextReq == s.nextReq
    ensures Accounts(s, Step(t, multiset{Replied(waiter, Error(code), None)}), Some(waiter), false, None)
  {
    DirectReplyAccounts(s, Step(t, multiset{Replied(waiter, Error(code), None)}), waiter, Error(code), false);
  }

  lemma RouteAccounts(s: State, agent: AgentId, cmd: Command, waiter: Waiter, aborted: bool, dead: set<Conn>)
    requires PendingNumbered(s) && !waiter.Rebuild?
    ensures Accounts(s, Route(s, agent, cmd, waiter, aborted, dead), Some(waiter), cmd.action in {Targets, Release}, None)
  {
    if cmd.action == Targets {
      DirectReplyAccounts(s, Step(s, multiset{Replied(waiter, Own, None)}), waiter, Own, true);
    } else if cmd.action == Release {
      DirectReplyAccounts(s, ReleaseForAgent(s, agent).Plus(multiset{Replied(waiter, Own, None)}), waiter, Own, true);
    } else {
      var t, p := s, PickExecutor(s, cmd.target);
      if cmd.action != Cookies {
        t, p := ResolveExecutor(s, agent, cmd).0, ResolveExecutor(s, agent, cmd).1;
        ResolvingKeepsPending(s, agent, cmd);
      }
      if p.Refused? { RefusalAccounts(s, t, waiter, p.code); }
      else if aborted { RefusalAccounts(s, t, waiter, "aborted"); }
      else { DispatchAccounts(s, t, p.exec, agent, cmd, waiter, dead); }
    }
  }

  lemma ResolvingKeepsPending(s: State, agent: AgentId, cmd: Command)
    ensures ResolveExecutor(s, agent, cmd).0.pending == s.pending
    ensures ResolveExecutor(s, agent, cmd).0.nextReq == s.nextReq
  {
  }

  lemma HelloAccounts(s: State, l: Label)
    requires PendingNumbered(s) && l.HelloFrame? && Enabled(s, l)
    ensures Accounts(s, Apply(s, l), Some(Rebuild), false, None)
  {
    HelloInFull(s, l);
    if Accepts(s, l.h, l.latest) && !l.h.agent {
      var joined := JoinExecutor(Introduced(s, l.h, l.latest), l.conn, IdOf(s, l.h), l.h.name);
      var st := SendToExecutor(joined.s, joined.s.byId[IdOf(s, l.h)], Self, ListTabs, Rebuild, l.dead);
      DispatchAccounts(s, joined.s, joined.s.byId[IdOf(s, l.h)], Self, ListTabs, Rebuild, l.dead);
      PlusGreetings(s, st, joined.out);
    } else {
      NothingAccounts(s, Apply(s, l));
      NobodyAsked(s, Apply(s, l));
    }
  }

  lemma PlusGreetings(s: State, st: Step, more: multiset<Event>)
    requires Accounts(s, st, Some(Rebuild), false, None)
    requires forall ev: Event | ev in more :: ev.Ready? || ev.HungUp?
    ensures Accounts(s, st.Plus(more), Some(Rebuild), false, None)
  {
    AccountsForMore(s, st, st.Plus(more), Some(Rebuild), false, None);
  }

  lemma NobodyAsked(s: State, st: Step)
    requires Accounts(s, st, None, false, None)
    ensures Accounts(s, st, Some(Rebuild), false, None)
  {
  }

  lemma CloseExecutorInFull(s: State, conn: Conn) returns (gone: set<ReqId>)
    requires conn in s.executors
    ensures gone == set r | r in s.pending && s.pending[r].exec == s.executors[conn].id
    ensures var (id, st) := (s.executors[conn].id, CloseExecutor(s, conn));
      && st.s.nextReq == s.nextReq
      && st.s.pending == (if HasExecutor(s, id, conn) then s.pending - gone else s.pending)
      && st.out == (if HasExecutor(s, id, conn) then RejectAll(s, gone, "executor_gone").out else multiset{})
  {
    gone := set r | r in s.pending && s.pending[r].exec == s.executors[conn].id;
  }

  lemma CloseExecutorAccounts(s: State, conn: Conn)
    requires PendingNumbered(s) && conn in s.executors
    ensures Accounts(s, CloseExecutor(s, conn), None, false, None)
  {
    hide CloseExecutor, RejectAll, Accounts;
    var gone := CloseExecutorInFull(s, conn);
    if HasExecutor(s, s.executors[conn].id, conn) {
      RejectAllAccounts(s, gone, "executor_gone");
      RejectingState(s, gone, "executor_gone");
      AccountsForMore(s, RejectAll(s, gone, "executor_gone"), CloseExecutor(s, conn), None, false, None);
    } else {
      NothingAccounts(s, CloseExecutor(s, conn));
    }
  }

  lemma CloseAgentAccounts(s: State, conn: Conn)
    requires PendingNumbered(s) && conn in s.agents
    ensures Accounts(s, CloseAgent(s, conn), None, false, None)
  {
    hide Abandon, CloseAgent, Accounts, HeldBy;
    var gone := AfterAgentCloses(s, conn);
    RejectingState(s, gone, "agent_gone");
    AbandonAccounts(s, gone, "agent_gone");
    forall ev: Event | ev.Settled? || ev.Cancelled? || ev.Replied?
      ensures CloseAgent(s, conn).out[ev] == Abandon(s, gone, "agent_gone").out[ev]
    {
      AgentCloseAbandons(s, conn, gone, ev);
    }
    AccountsForMore(s, Abandon(s, gone, "agent_gone"), CloseAgent(s, conn), None, false, None);
  }

  lemma AgentCloseAbandons(s: State, conn: Conn, gone: set<ReqId>, ev: Event)
    requires conn in s.agents && gone == (set r | r in s.pending && s.pending[r].agent == s.agents[conn])
    requires ev.Settled? || ev.Cancelled? || ev.Replied?
    ensures CloseAgent(s, conn).out[ev] == Abandon(s, gone, "agent_gone").out[ev]
  {
    hide Abandon, HeldBy;
    var released := ReleaseForAgent(s.(agents := s.agents - {conn}), s.agents[conn]);
    SameAbandoned(s, released.s, gone, "agent_gone");
    assert released.out[ev] == 0;
    var gone' := set r | r in s.pending && s.pending[r].agent == s.agents[conn];
    assert gone' == gone && released.s.pending == s.pending;
    assert CloseAgent(s, conn).out == Abandon(released.s, gone', "agent_gone").out + released.out;
    assert Abandon(released.s, gone', "agent_gone").out == Abandon(released.s, gone, "agent_gone").out;
  }

  lemma SameAbandoned(s: State, t: State, gone: set<ReqId>, code: string)
    requires gone <= s.pending.Keys && t.pending == s.pending && t.byId == s.byId
    ensures Abandon(t, gone, code).out == Abandon(s, gone, code).out
  {
  }

  lemma StopAccounts(s: State)
    requires PendingNumbered(s)
    ensures Accounts(s, Stop(s), None, false, None)
  {
    RejectAllAccounts(s, s.pending.Keys, "stopped");
    assert s.pending - s.pending.Keys == map[];
    AccountsForMore(s, RejectAll(s, s.pending.Keys, "stopped"), Stop(s), None, false, None);
  }

  // ---- Any step -------------------------------------------------------------------------

  function Asking(l: Label): Option<Waiter> {
    match l
    case HelloFrame(_, _, _, _) => Some(Rebuild)
    case AgentCommand(conn, frame, _, _) => Some(ForAgent(conn, frame))
    case LocalCommand(_, call, _, _, _) => Some(ForLocal(call))
    case _ => None
  }

  // Listing targets and releasing are the broker's own to answer.
  predicate MayAnswerItself(l: Label) {
    (l.AgentCommand? || l.LocalCommand?) && l.cmd.action in {Targets, Release}
  }

  function Answered(s: State, l: Label): Option<(ReqId, Outcome)> {
    if l.ResultFrame? && l.req in s.pending then Some((l.req, l.outcome)) else None
  }

  lemma NothingAccounts(s: State, st: Step)
    requires st.s.pending == s.pending && st.s.nextReq == s.nextReq && PendingNumbered(s)
    requires forall ev: Event | ev.Settled? || ev.Cancelled? || ev.Replied? :: ev !in st.out
    ensures Accounts(s, st, None, false, None)
  {
  }

  lemma StepAccounts(s: State, l: Label)
    requires PendingNumbered(s) && Enabled(s, l)
    ensures Accounts(s, Apply(s, l), Asking(l), MayAnswerItself(l), Answered(s, l))
  {
    hide Accounts, PendingNumbered, Route, HandleHello, CloseExecutor, CloseAgent, Settle, Abandon, Stop;
    match l {
      case HelloFrame(_, _, _, _) => HelloAccounts(s, l);
      case AgentCommand(conn, frame, cmd, dead) => RouteAccounts(s, s.agents[conn], cmd, ForAgent(conn, frame), false, dead);
      case LocalCommand(n, call, cmd, aborted, dead) => RouteAccounts(s, Local(n), cmd, ForLocal(call), aborted, dead);
      case ResultFrame(_, req, outcome) =>
        if req in s.pending { SettleAccounts(s, req, outcome); }
        else { NothingAccounts(s, Apply(s, l)); }
      case GiveUp(req, code) => AbandonAccounts(s, {req}, code);
      case NewLocalAgent => NothingAccounts(s, Apply(s, l));
      case LocalRelease(n) => NothingAccounts(s, ReleaseForAgent(s, Local(n)));
      case Closed(conn) =>
        if conn in s.executors { CloseExecutorAccounts(s, conn); }
        else if conn in s.agents { CloseAgentAccounts(s, conn); }
        else { NothingAccounts(s, Apply(s, l)); }
      case Stopped => StopAccounts(s);
    }
  }

  // ---- Whole runs -----------------------------------------------------------------------

  // A run together with what each step caused.
  ghost predicate IsLoggedRun(tr: seq<State>, ls: seq<Label>, outs: seq<multiset<Event>>) {
    IsRun(tr, ls) && |outs| == |ls| && forall k | 0 <= k < |ls| :: Logged(tr[k], ls[k], outs[k])
  }

  ghost predicate Logged(s: State, l: Label, out: multiset<Event>) { Enabled(s, l) && out == Apply(s, l).out }

  // The same run, with only its accounts left.
  ghost predicate IsAccounted(tr: seq<State>, outs: seq<multiset<Event>>, answers: seq<Option<(ReqId, Outcome)>>) {
    && |tr| == |outs| + 1 == |answers| + 1
    && (forall k | 0 <= k < |tr| :: PendingNumbered(tr[k]))
    && (forall k | 0 <= k < |outs| :: AccountedStep(tr[k], Step(tr[k + 1], outs[k]), answers[k]))
  }

  ghost predicate AccountedStep(s: State, st: Step, answered: Option<(ReqId, Outcome)>) {
    && PendingSide(s, st.s) && SettledSide(s, st) && CancelSide(s, st, answered)
    && (answered.Some? ==> answered.value.0 in s.pending && answered.value.0 !in st.s.pending)
  }

  lemma StepIsAccounted(s: State, l: Label)
    requires PendingNumbered(s) && Enabled(s, l)
    ensures AccountedStep(s, Apply(s, l), Answered(s, l)) && PendingNumbered(Apply(s, l).s)
  {
    StepAccounts(s, l);
    if Answered(s, l).Some? { assert l.req !in Settle(s, l.req, l.outcome).s.pending; }
  }

  lemma {:induction false} PendingIsNumbered(tr: seq<State>, ls: seq<Label>, i: nat)
    requires IsRun(tr, ls) && tr[0].pending == map[] && i < |tr|
    ensures PendingNumbered(tr[i])
  {
    if i > 0 {
      PendingIsNumbered(tr, ls, i - 1);
      assert Enabled(tr[i - 1], ls[i - 1]);
      StepIsAccounted(tr[i - 1], ls[i - 1]);
    }
  }

  lemma RunsAreAccounted(tr: seq<State>, ls: seq<Label>, outs: seq<multiset<Event>>)
    returns (answers: seq<Option<(ReqId, Outcome)>>)
    requires IsLoggedRun(tr, ls, outs) && tr[0].pending == map[]
    ensures IsAccounted(tr, outs, answers)
    ensures forall k | 0 <= k < |ls| :: answers[k] == Answered(tr[k], ls[k])
  {
    answers := seq(|ls|, k requires 0 <= k < |ls| => Answered(tr[k], ls[k]));
    forall k | 0 <= k < |tr| ensures PendingNumbered(tr[k]) { PendingIsNumbered(tr, ls, k); }
    forall k | 0 <= k < |outs| ensures AccountedStep(tr[k], Step(tr[k + 1], outs[k]), answers[k]) {
      assert Logged(tr[k], ls[k], outs[k]);
      StepIsAccounted(tr[k], ls[k]);
      assert Apply(tr[k], ls[k]) == Step(tr[k + 1], outs[k]);
    }
  }

  // A request that is not pending any more never comes back.
  lemma {:induction false} FinishedStaysFinished(tr: seq<State>, outs: seq<multiset<Event>>,
                                                 answers: seq<Option<(ReqId, Outcome)>>, r: ReqId, i: nat, j: nat)
    requires IsAccounted(tr, outs, answers) && i <= j < |tr|
    requires r < tr[i].nextReq && r !in tr[i].pending
    ensures r < tr[j].nextReq && r !in tr[j].pending
    decreases j - i
  {
    if i < j {
      FinishedStaysFinished(tr, outs, answers, r, i, j - 1);
      assert AccountedStep(tr[j - 1], Step(tr[j], outs[j - 1]), answers[j - 1]);
    }
  }

  ghost predicate SettledOnlyAt(outs: seq<multiset<Event>>, r: ReqId, n: nat, k: nat)
    requires n <= |outs|
  {
    k < n && outs[k][Settled(r)] == 1 && forall j | 0 <= j < n && j != k :: outs[j][Settled(r)] == 0
  }

  lemma {:induction false} NotYetSettled(tr: seq<State>, outs: seq<multiset<Event>>,
                                         answers: seq<Option<(ReqId, Outcome)>>, r: ReqId, n: nat)
    requires IsAccounted(tr, outs, answers) && n < |tr|
    requires tr[n].nextReq <= r || (r in tr[n].pending && tr[0].nextReq <= r)
    ensures forall k | 0 <= k < n :: outs[k][Settled(r)] == 0
  {
    if n > 0 {
      assert AccountedStep(tr[n - 1], Step(tr[n], outs[n - 1]), answers[n - 1]);
      assert PendingNumbered(tr[n]) && PendingNumbered(tr[n - 1]);
      assert !Finishes(tr[n - 1], tr[n], r);
      NotYetSettled(tr, outs, answers, r, n - 1);
    }
  }

  lemma {:induction false} AccountedOnce(tr: seq<State>, outs: seq<multiset<Event>>,
                                         answers: seq<Option<(ReqId, Outcome)>>, r: ReqId, n: nat) returns (k: nat)
    requires IsAccounted(tr, outs, answers) && n < |tr|
    requires tr[0].nextReq <= r < tr[n].nextReq && r !in tr[n].pending
    ensures SettledOnlyAt(outs, r, n, k)
  {
    assert AccountedStep(tr[n - 1], Step(tr[n], outs[n - 1]), answers[n - 1]);
    if r < tr[n - 1].nextReq && r !in tr[n - 1].pending {
      k := AccountedOnce(tr, outs, answers, r, n - 1);
      assert !Finishes(tr[n - 1], tr[n], r);
    } else {
      k := n - 1;
      assert Finishes(tr[n - 1], tr[n], r);
      NotYetSettled(tr, outs, answers, r, n - 1);
    }
  }

  /** Every command the broker ever minted an id for is either still pending and never settled, or
      was settled at exactly one step of the run, exactly once. */
  lemma SettledExactlyOnce(tr: seq<State>, ls: seq<Label>, outs: seq<multiset<Event>>, r: ReqId, n: nat)
    requires IsLoggedRun(tr, ls, outs) && tr[0].pending == map[] && n < |tr|
    requires tr[0].nextReq <= r < tr[n].nextReq
    ensures r in tr[n].pending ==> forall k | 0 <= k < n :: outs[k][Settled(r)] == 0
    ensures r !in tr[n].pending ==> exists k :: SettledOnlyAt(outs, r, n, k)
  {
    var answers := RunsAreAccounted(tr, ls, outs);
    if r in tr[n].pending {
      NotYetSettled(tr, outs, answers, r, n);
    } else {
      var k := AccountedOnce(tr, outs, answers, r, n);
    }
  }

  /** A cancel frame for a command is sent at most once in a run, over the connection of its own
      executor, and the command's result is not handled before or after it. */
  lemma CancelledAtMostOnce(tr: seq<State>, ls: seq<Label>, outs: seq<multiset<Event>>,
                            r: ReqId, i: nat, c: Conn, j: nat, d: Conn)
    requires IsLoggedRun(tr, ls, outs) && tr[0].pending == map[] && i < |ls| && j < |ls|
    requires Cancelled(r, c) in outs[i]
    ensures outs[i][Cancelled(r, c)] == 1
    ensures r in tr[i].pending && HasExecutor(tr[i], tr[i].pending[r].exec, c)
    ensures Cancelled(r, d) in outs[j] ==> i == j && c == d
    ensures Answered(tr[j], ls[j]).Some? ==> Answered(tr[j], ls[j]).value.0 != r
  {
    var answers := RunsAreAccounted(tr, ls, outs);
    assert AccountedStep(tr[i], Step(tr[i + 1], outs[i]), answers[i]);
    assert AccountedStep(tr[j], Step(tr[j + 1], outs[j]), answers[j]);
    assert PendingNumbered(tr[i]) && PendingNumbered(tr[j]);
    assert answers[j] == Answered(tr[j], ls[j]);
    if i < j { FinishedStaysFinished(tr, outs, answers, r, i + 1, j); }
    if j < i && r in tr[j].pending && r !in tr[j + 1].pending { FinishedStaysFinished(tr, outs, answers, r, j + 1, i); }
  }
}
