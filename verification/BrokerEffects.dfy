/** What the other handlers do, told by the maps they find: results, giving up, releasing, and leaving. */
module BrokerEffects {
  import opened Prelude
  import opened Broker
  import opened BrokerSafety
  import opened BrokerOwnership
  import opened BrokerSettlement

  // Whoever waits is told; nobody waits for a listing the broker asked for itself.
  function Told(p: Pending, r: ReqId, outcome: Outcome): multiset<Event> {
    if p.waiter.Rebuild? then multiset{} else multiset{Replied(p.waiter, outcome, Some(r))}
  }

  function CancelTo(s: State, r: ReqId): multiset<Event>
    requires r in s.pending
  {
    var e := s.pending[r].exec;
    if e in s.byId then multiset{Cancelled(r, s.byId[e].conn)} else multiset{}
  }

  lemma RejectingOne(s: State, r: ReqId, code: string)
    requires r in s.pending
    ensures RejectAll(s, {r}, code).out == multiset{Settled(r)} + Told(s.pending[r], r, Error(code))
  {
    var settled := set q | q in {r} :: Settled(q);
    assert settled == {Settled(r)};
    var told := set q | q in {r} && s.pending[q].waiter != Rebuild :: Replied(s.pending[q].waiter, Error(code), Some(q));
    if s.pending[r].waiter.Rebuild? { assert told == {}; } else { assert told == {Replied(s.pending[r].waiter, Error(code), Some(r))}; }
  }

  lemma CancellingOne(s: State, r: ReqId)
    requires r in s.pending
    ensures Cancels(s, {r}) == CancelTo(s, r)
  {
    var cancelled := set q | q in {r} && s.pending[q].exec in s.byId :: Cancelled(q, s.byId[s.pending[q].exec].conn);
    var e := s.pending[r].exec;
    if e in s.byId { assert cancelled == {Cancelled(r, s.byId[e].conn)}; } else { assert cancelled == {}; }
  }

  /** A command that times out or is aborted is settled at once: its entry goes, whoever waits is told the
      code, and its executor, if connected, is sent one cancel frame. */
  lemma GivingUpSettles(s: State, r: ReqId, code: string)
    requires Enabled(s, GiveUp(r, code))
    ensures var st := Apply(s, GiveUp(r, code));
      && st.s == s.(pending := s.pending - {r})
      && st.out == multiset{Settled(r)} + Told(s.pending[r], r, Error(code)) + CancelTo(s, r)
  {
    hide RejectAll, Cancels, Told, CancelTo;
    RejectingState(s, {r}, code);
    RejectingOne(s, r, code);
    CancellingOne(s, r);
  }

  // The groups an executor lists that nobody knew are its own and nobody's; the rest stay as they were.
  ghost predicate Adopts(was: map<Group, Owner>, now: map<Group, Owner>, exec: ExecId, listed: set<Group>) {
    && (forall g :: g in now <==> g in was || (g in listed && g != ""))
    && (forall g | g in now :: now[g] == if g in was then was[g] else Owner(exec, None))
  }

  /** A result frame settles the command it names with what it holds, and the listing the broker asked an
      executor for adopts the groups nobody knew. A frame that names no pending command does nothing. */
  lemma ResultsSettle(s: State, conn: Conn, r: ReqId, outcome: Outcome)
    requires Enabled(s, ResultFrame(conn, r, outcome))
    ensures var st := Apply(s, ResultFrame(conn, r, outcome));
      if r in s.pending then
        && st.out == multiset{Settled(r)} + Told(s.pending[r], r, outcome)
        && st.s == s.(pending := s.pending - {r}, groups := st.s.groups)
        && (if s.pending[r].waiter.Rebuild? && outcome.Data?
            then Adopts(s.groups, st.s.groups, s.pending[r].exec, outcome.groups) else st.s.groups == s.groups)
      else st == Step(s, multiset{})
  {
  }

  // The agent's groups stay on their executors and belong to nobody.
  ghost predicate Orphans(was: map<Group, Owner>, now: map<Group, Owner>, agent: AgentId) {
    && now.Keys == was.Keys
    && forall g | g in was :: now[g] == if was[g].agent == Some(agent) then Owner(was[g].exec, None) else was[g]
  }

  lemma ReleaseOrphans(s: State, agent: AgentId)
    ensures var st := ReleaseForAgent(s, agent);
      && st.s == s.(groups := st.s.groups) && Orphans(s.groups, st.s.groups, agent)
      && forall ev: Event | ev in st.out :: ev.Released?
  {
  }

  /** Releasing leaves the agent's groups with their executors, and answers a command that asked for it. */
  lemma ReleasingSettles(s: State, l: Label)
    requires Enabled(s, l) && Releasing(s, l).Some? && !l.Closed?
    ensures var st := Apply(s, l);
      && st.s == s.(groups := st.s.groups) && Orphans(s.groups, st.s.groups, Releasing(s, l).value)
      && (forall ev | ev in st.out && !ev.Released? :: Asking(l).Some? && ev == Replied(Asking(l).value, Own, None))
      && (Asking(l).Some? ==> st.out[Replied(Asking(l).value, Own, None)] == 1)
  {
    hide ReleaseForAgent, Orphans;
    ReleaseOrphans(s, Releasing(s, l).value);
  }

  // ---- Leaving --------------------------------------------------------------------------------

  // Of the commands in `gone` each is settled and told the code, once, and no other.
  ghost predicate Rejects(s: State, out: multiset<Event>, gone: set<ReqId>, code: string)
    requires gone <= s.pending.Keys
  {
    && (forall r :: out[Settled(r)] == if r in gone then 1 else 0)
    && (forall ev: Event | ev.Replied? ::
          out[ev] == if ev.answers.Some? && ev.answers.value in gone && ev == Replied(s.pending[ev.answers.value].waiter, Error(code), ev.answers)
                        && !ev.waiter.Rebuild? then 1 else 0)
  }

  lemma RejectionsAre(s: State, gone: set<ReqId>, code: string)
    requires gone <= s.pending.Keys
    ensures Rejects(s, RejectAll(s, gone, code).out, gone, code)
    ensures forall r, c :: RejectAll(s, gone, code).out[Cancelled(r, c)] == 0
  {
    forall ev: Event | ev.Replied?
      ensures RejectAll(s, gone, code).out[ev] ==
        if ev.answers.Some? && ev.answers.value in gone && ev == Replied(s.pending[ev.answers.value].waiter, Error(code), ev.answers)
           && !ev.waiter.Rebuild? then 1 else 0
    {
      RejectionsInFull(s, gone, code, ev);
    }
  }

  ghost predicate LongestConnected(s: State, e: Option<ExecId>) {
    if s.byId == map[] then e.None?
    else e.Some? && e.value in s.byId && forall j | j in s.byId :: s.byId[e.value].serial <= s.byId[j].serial
  }

  /** When an executor leaves, it goes with its groups, its commands are rejected, and the one connected
      longest becomes primary if it was. */
  lemma ExecutorLeaves(s: State, conn: Conn, id: ExecId, gone: set<ReqId>)
    requires conn in s.executors && s.executors[conn].id == id && id in s.byId && s.byId[id].conn == conn
    requires gone == set r | r in s.pending && s.pending[r].exec == id
    ensures var st := Apply(s, Closed(conn));
      && st.s == s.(executors := s.executors - {conn}, byId := s.byId - {id}, groups := st.s.groups,
                    pending := s.pending - gone, primary := st.s.primary)
      && (forall g :: g in st.s.groups <==> g in s.groups && s.groups[g].exec != id)
      && (forall g | g in st.s.groups :: st.s.groups[g] == s.groups[g])
      && Rejects(s, st.out, gone, "executor_gone") && (forall r, c :: st.out[Cancelled(r, c)] == 0)
      && (if s.primary == Some(id) then LongestConnected(st.s, st.s.primary) else st.s.primary == s.primary)
  {
    hide CloseExecutor, RejectAll, Rejects, Oldest;
    var gone' := AfterClosing(s, conn, id);
    gone' := CloseExecutorInFull(s, conn);
    assert gone' == gone;
    RejectionsAre(s, gone, "executor_gone");
  }

  /** When an agent leaves, its groups are nobody's, its commands are rejected, and the executors still
      connected are told to cancel them. */
  lemma AgentLeaves(s: State, conn: Conn, gone: set<ReqId>)
    requires conn in s.agents && conn !in s.executors
    requires gone == set r | r in s.pending && s.pending[r].agent == s.agents[conn]
    ensures var st := Apply(s, Closed(conn));
      && st.s == s.(agents := s.agents - {conn}, groups := st.s.groups, pending := s.pending - gone)
      && Orphans(s.groups, st.s.groups, s.agents[conn]) && Rejects(s, st.out, gone, "agent_gone")
      && forall r, c :: st.out[Cancelled(r, c)] == if r in gone && HasExecutor(s, s.pending[r].exec, c) then 1 else 0
  {
    hide CloseAgent, RejectAll, Abandon, Rejects, HeldBy;
    var gone' := AfterAgentCloses(s, conn);
    assert gone' == gone;
    RejectionsAre(s, gone, "agent_gone");
    AbandoningInFull(s, gone, "agent_gone");
    forall ev: Event | ev.Settled? || ev.Cancelled? || ev.Replied?
      ensures CloseAgent(s, conn).out[ev] == Abandon(s, gone, "agent_gone").out[ev]
    {
      AgentCloseAbandons(s, conn, gone, ev);
    }
    SameRejections(s, RejectAll(s, gone, "agent_gone").out, CloseAgent(s, conn).out, gone, "agent_gone");
  }

  lemma SameRejections(s: State, a: multiset<Event>, b: multiset<Event>, gone: set<ReqId>, code: string)
    requires gone <= s.pending.Keys && Rejects(s, a, gone, code)
    requires forall ev: Event | ev.Settled? || ev.Replied? :: b[ev] == a[ev]
    ensures Rejects(s, b, gone, code)
  {
  }

  /** Stopping rejects everything that waits. */
  lemma StoppingSettles(s: State)
    ensures var st := Apply(s, Stopped);
      && st.s == s.(executors := map[], byId := map[], agents := map[], groups := map[], pending := map[], primary := None)
      && Rejects(s, st.out, s.pending.Keys, "stopped")
  {
    hide RejectAll, Rejects;
    RejectionsAre(s, s.pending.Keys, "stopped");
  }
}
