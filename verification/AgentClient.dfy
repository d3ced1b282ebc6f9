/** The guest side of the bridge, packages/opencode-browser/src/agent-client.ts: requests with local
    ids, each waiting for a result frame, a timer, an abort, or the end of the connection. */
module AgentClient {
  import opened Prelude
  import opened Broker

  // How a request ended. `via` tells through which broker command an answer came.
  datatype Ending = Answer(outcome: Outcome, via: Option<ReqId>) | GaveUp(code: string)

  // `done` is the history of endings.
  datatype Guest = Guest(ready: bool, connected: bool, next: FrameId, pending: set<FrameId>, done: map<FrameId, Ending>)

  const Connecting := Guest(false, true, 0, {}, map[])

  datatype Input =
    | BecomeReady
    | Send(sendOk: bool)
    | Result(frame: FrameId, outcome: Outcome, via: Option<ReqId>)
    | GiveUpOn(frame: FrameId, code: string)     // its timer or its abort signal
    | Disconnect(code: string)                   // onClose, or stop

  // A request is sent once the client is ready and still has a socket.
  predicate Takes(g: Guest, i: Input) { i.Send? ==> g.ready && g.connected }

  function End(g: Guest, frame: FrameId, e: Ending): Guest {
    if frame in g.pending then g.(pending := g.pending - {frame}, done := g.done[frame := e]) else g
  }

  function Handle(g: Guest, i: Input): Guest
    requires Takes(g, i)
  {
    match i
    case BecomeReady => g.(ready := true)
    case Send(sendOk) =>
      var h := g.(next := g.next + 1, pending := g.pending + {g.next});
      if sendOk then h else End(h, g.next, GaveUp("send_failed"))
    case Result(frame, outcome, via) => End(g, frame, Answer(outcome, via))
    case GiveUpOn(frame, code) => End(g, frame, GaveUp(code))
    case Disconnect(code) =>
      Guest(false, false, g.next, {}, g.done + (map f | f in g.pending :: GaveUp(code)))
  }

  // Every id ever minted is either waiting or has ended, never both.
  ghost predicate Partitioned(g: Guest) {
    && (forall f | f in g.pending || f in g.done :: f < g.next)
    && (forall f | 0 <= f < g.next :: f in g.pending <==> f !in g.done)
  }

  /** Every request ends exactly once: a step moves requests from waiting to ended, and what has
      ended keeps its ending. */
  lemma EndsOnce(g: Guest, i: Input)
    requires Partitioned(g) && Takes(g, i)
    ensures Partitioned(Handle(g, i))
    ensures forall f | f in g.done :: f in Handle(g, i).done && Handle(g, i).done[f] == g.done[f]
    ensures forall f | f in Handle(g, i).done && f !in g.done && Handle(g, i).done[f].Answer? ::
              i == Result(f, Handle(g, i).done[f].outcome, Handle(g, i).done[f].via) && f in g.pending
  {
    if i.Disconnect? {
      assert forall f | f in g.done :: f !in g.pending;
    }
  }

  // How the input ends request f, if it does: its answer, its timer or abort, or the end of the connection.
  function EndingBy(i: Input, f: FrameId): Option<Ending> {
    match i
    case Result(frame, outcome, via) => if frame == f then Some(Answer(outcome, via)) else None
    case GiveUpOn(frame, code) => if frame == f then Some(GaveUp(code)) else None
    case Disconnect(code) => Some(GaveUp(code))
    case _ => None
  }

  /** A waiting request ends exactly by its own answer, its own timer or abort, or the end of the
      connection, and as that says; and a request that is sent waits exactly when sending succeeds. */
  lemma WaitingEndsExactly(g: Guest, i: Input, f: FrameId)
    requires Partitioned(g) && Takes(g, i)
    ensures f in g.pending ==>
      if EndingBy(i, f).Some? then f !in Handle(g, i).pending && f in Handle(g, i).done && Handle(g, i).done[f] == EndingBy(i, f).value
      else f in Handle(g, i).pending && f !in Handle(g, i).done
    ensures f !in g.pending ==> (f in Handle(g, i).pending <==> i == Send(true) && f == g.next)
    ensures i == Send(false) ==> Handle(g, i).done == g.done[g.next := GaveUp("send_failed")]
    ensures Handle(g, i).next == if i.Send? then g.next + 1 else g.next
    ensures Handle(g, i).ready <==> i.BecomeReady? || (g.ready && !i.Disconnect?)
    ensures Handle(g, i).connected <==> g.connected && !i.Disconnect?
  {
  }

  ghost predicate IsGuestRun(gs: seq<Guest>, ins: seq<Input>) {
    |gs| == |ins| + 1 && forall k | 0 <= k < |ins| :: Takes(gs[k], ins[k]) && gs[k + 1] == Handle(gs[k], ins[k])
  }

  lemma {:induction false} EndingsAreFinal(gs: seq<Guest>, ins: seq<Input>, j: nat, k: nat, f: FrameId)
    requires IsGuestRun(gs, ins) && Partitioned(gs[0]) && j <= k < |gs|
    ensures Partitioned(gs[k])
    ensures j < |gs| && f in gs[j].done ==> f in gs[k].done && gs[k].done[f] == gs[j].done[f]
    decreases k
  {
    if k > 0 {
      if j < k { EndingsAreFinal(gs, ins, j, k - 1, f); }
      else { EndingsAreFinal(gs, ins, k - 1, k - 1, f); }
      EndsOnce(gs[k - 1], ins[k - 1]);
    }
  }

  // The endings once the requests in `gone` have been given up.
  function EndedBy(g: Guest, gone: set<FrameId>, code: string): map<FrameId, Ending> {
    g.done + map f | f in gone :: GaveUp(code)
  }

  lemma NothingEnded(g: Guest, code: string)
    ensures EndedBy(g, {}, code) == g.done
  {
  }

  lemma OneMoreEnded(g: Guest, gone: set<FrameId>, f: FrameId, code: string)
    ensures EndedBy(g, gone + {f}, code) == EndedBy(g, gone, code)[f := GaveUp(code)]
  {
  }

  lemma EverythingEnded(g: Guest, code: string)
    ensures Handle(g, Disconnect(code)) == Guest(false, false, g.next, {}, EndedBy(g, g.pending, code))
  {
  }

  class Client {
    var ready: bool
    var connected: bool
    var next: FrameId
    var pending: set<FrameId>
    var done: map<FrameId, Ending>

    function View(): Guest reads this { Guest(ready, connected, next, pending, done) }

    constructor ()
      ensures View() == Connecting && Partitioned(View())
    {
      ready, connected, next, pending, done := false, true, 0, {}, map[];
    }

    method Settle(frame: FrameId, e: Ending)
      modifies this`pending, this`done
      ensures View() == End(old(View()), frame, e)
    {
      if frame in pending {
        pending := pending - {frame};
        done := done[frame := e];
      }
    }

    method SendCommand(sendOk: bool) returns (id: FrameId)
      requires Partitioned(View()) && Takes(View(), Send(sendOk))
      modifies this
      ensures View() == Handle(old(View()), Send(sendOk)) && Partitioned(View()) && id == old(next)
    {
      EndsOnce(View(), Send(sendOk));
      id := next;
      next := next + 1;
      pending := pending + {id};
      if !sendOk { Settle(id, GaveUp("send_failed")); }
    }

    method HandleResult(frame: FrameId, outcome: Outcome, via: Option<ReqId>)
      requires Partitioned(View())
      modifies this
      ensures View() == Handle(old(View()), Result(frame, outcome, via)) && Partitioned(View())
    {
      EndsOnce(View(), Result(frame, outcome, via));
      Settle(frame, Answer(outcome, via));
    }

    // onClose and stop: everything still waiting is rejected.
    method RejectAllPending(code: string)
      requires Partitioned(View())
      modifies this
      ensures View() == Handle(old(View()), Disconnect(code)) && Partitioned(View())
    {
      hide Partitioned, EndedBy, Handle, Ended;
      EndsOnce(View(), Disconnect(code));
      ghost var was, gone := View(), {};
      NobodyEnded(code);
      ready, connected := false, false;
      while pending != {}
        invariant !ready && !connected && next == was.next
        invariant Ended(was, gone, code)
        decreases |pending|
      {
        var f :| f in pending;
        EndOne(was, gone, f, code);
        gone := gone + {f};
      }
      EverybodyEnded(was, gone, code);
      EverythingEnded(was, code);
    }

    // The requests in `gone` have been given up, the others wait.
    ghost predicate Ended(was: Guest, gone: set<FrameId>, code: string) reads this`pending, this`done {
      gone !! pending && gone + pending == was.pending && done == EndedBy(was, gone, code)
    }

    lemma NobodyEnded(code: string)
      ensures Ended(View(), {}, code)
    {
      NothingEnded(View(), code);
    }

    lemma EverybodyEnded(was: Guest, gone: set<FrameId>, code: string)
      requires Ended(was, gone, code) && pending == {}
      ensures done == EndedBy(was, was.pending, code)
    {
      assert gone == was.pending;
    }

    method EndOne(ghost was: Guest, ghost gone: set<FrameId>, f: FrameId, code: string)
      requires f in pending && Ended(was, gone, code)
      modifies this`pending, this`done
      ensures Ended(was, gone + {f}, code) && |pending| < |old(pending)|
    {
      hide EndedBy;
      OneMoreEnded(was, gone, f, code);
      assert pending == (pending - {f}) + {f};
      Settle(f, GaveUp(code));
    }
  }
}
