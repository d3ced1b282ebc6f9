/** Guests and broker together: a guest's request travels up, is routed under an id the broker mints
    for it, and the executor's answer travels down again. Frames on the wire are sets, so any order
    and any loss is allowed; nothing is delivered twice. */
module Bridge {
  import opened Prelude
  import opened Broker
  import opened BrokerSettlement
  import AC = AgentClient

  datatype Key = Key(conn: Conn, frame: FrameId)

  datatype Up = Up(key: Key, cmd: Command)
  datatype Down = Down(key: Key, outcome: Outcome, via: Option<ReqId>)

  datatype World = World(
    broker: State,
    guests: map<Conn, AC.Guest>,
    up: set<Up>,
    down: set<Down>,
    asked: map<Key, Command>,          // every request a guest ever sent
    minted: map<ReqId, Key>,           // the request each routed command id was minted for
    answered: map<ReqId, Outcome>)     // what executors answered

  datatype Move =
    | Dial(conn: Conn)
    | Ask(conn: Conn, cmd: Command, sendOk: bool)
    | Carry(u: Up, dead: set<Conn>)
    | Host(l: Label)                   // anything else that happens to the broker
    | Receive(d: Down)
    | LoseUp(u: Up)
    | LoseDown(d: Down)
    | Guest(conn: Conn, i: AC.Input)   // ready, give up, disconnect

  predicate Possible(w: World, m: Move) {
    match m
    case Dial(conn) => conn !in w.guests
    case Ask(conn, cmd, sendOk) => conn in w.guests && AC.Takes(w.guests[conn], AC.Send(sendOk)) && Routable(cmd)
    case Carry(u, dead) => u in w.up && Routable(u.cmd)
    case Host(l) => !l.AgentCommand? && Enabled(w.broker, l)
    case Receive(d) => d in w.down && d.key.conn in w.guests
    case LoseUp(u) => u in w.up
    case LoseDown(d) => d in w.down
    case Guest(conn, i) => conn in w.guests && !i.Send? && !i.Result?
  }

  // The result frames among what a step caused.
  function Frames(out: multiset<Event>): set<Down> {
    set ev | ev in out && ev.Replied? && ev.waiter.ForAgent? ::
      Down(Key(ev.waiter.conn, ev.waiter.frame), ev.outcome, ev.answers)
  }

  // The broker command a carried frame turns into, if its connection is an agent's.
  function AsCommand(u: Up, dead: set<Conn>): Label { AgentCommand(u.key.conn, u.key.frame, u.cmd, dead) }

  ghost function Perform(w: World, m: Move): World
    requires Possible(w, m)
  {
    match m
    case Dial(conn) => w.(guests := w.guests[conn := AC.Connecting])
    case Ask(conn, cmd, sendOk) =>
      var k := Key(conn, w.guests[conn].next);
      w.(guests := w.guests[conn := AC.Handle(w.guests[conn], AC.Send(sendOk))],
         up := w.up + (if sendOk then {Up(k, cmd)} else {}),
         asked := w.asked[k := cmd])
    case Carry(u, dead) =>
      var w' := w.(up := w.up - {u});
      if !Enabled(w.broker, AsCommand(u, dead)) then w'
      else
        var st := Apply(w.broker, AsCommand(u, dead));
        w'.(broker := st.s, down := w.down + Frames(st.out),
            minted := if st.s.nextReq > w.broker.nextReq then w.minted[w.broker.nextReq := u.key] else w.minted)
    case Host(l) =>
      var st := Apply(w.broker, l);
      w.(broker := st.s, down := w.down + Frames(st.out),
         answered := if Answered(w.broker, l).Some? then w.answered[Answered(w.broker, l).value.0 := Answered(w.broker, l).value.1]
                     else w.answered)
    case Receive(d) =>
      w.(down := w.down - {d},
         guests := w.guests[d.key.conn := AC.Handle(w.guests[d.key.conn], AC.Result(d.key.frame, d.outcome, d.via))])
    case LoseUp(u) => w.(up := w.up - {u})
    case LoseDown(d) => w.(down := w.down - {d})
    case Guest(conn, i) => w.(guests := w.guests[conn := AC.Handle(w.guests[conn], i)])
  }

  function Idle(token: string): World { World(Initial(token), map[], {}, {}, map[], map[], map[]) }

  ghost predicate IsRun(ws: seq<World>, ms: seq<Move>) {
    |ws| == |ms| + 1 && forall k | 0 <= k < |ms| :: Possible(ws[k], ms[k]) && ws[k + 1] == Perform(ws[k], ms[k])
  }

  // ---- The invariant --------------------------------------------------------------------

  predicate Minted(w: World, k: Key) { k in w.minted.Values }

  // An answer for request k is genuine: it is the executor's own answer to the command minted for
  // k, or the broker's to a request it answers itself, or an error.
  predicate Genuine(w: World, k: Key, outcome: Outcome, via: Option<ReqId>) {
    && k in w.asked
    && (match via
        case Some(r) => r in w.minted && w.minted[r] == k && r !in w.broker.pending
        case None => !Minted(w, k))
    && (outcome.Data? ==> via.Some? && via.value in w.answered && w.answered[via.value] == outcome)
    && (outcome.Own? ==> via.None? && w.asked[k].action in {Targets, Release})
  }

  predicate DownFor(w: World, k: Key) { exists d :: d in w.down && d.key == k }

  predicate DoneByAnswer(w: World, k: Key) {
    k.conn in w.guests && k.frame in w.guests[k.conn].done && w.guests[k.conn].done[k.frame].Answer?
  }

  ghost predicate GuestSide(w: World) {
    && (forall c | c in w.guests :: AC.Partitioned(w.guests[c]))
    && (forall k :: k in w.asked <==> k.conn in w.guests && 0 <= k.frame < w.guests[k.conn].next)
    && (forall k | DoneByAnswer(w, k) ::
          Genuine(w, k, w.guests[k.conn].done[k.frame].outcome, w.guests[k.conn].done[k.frame].via) && !DownFor(w, k))
  }

  ghost predicate WireSide(w: World) {
    && (forall u | u in w.up ::
          && u.key in w.asked && w.asked[u.key] == u.cmd
          && !Minted(w, u.key) && !DownFor(w, u.key) && !DoneByAnswer(w, u.key))
    && (forall d | d in w.down :: Genuine(w, d.key, d.outcome, d.via))
    && (forall d, d' | d in w.down && d' in w.down && d.key == d'.key :: d == d')
  }

  ghost predicate BrokerSide(w: World) {
    && PendingNumbered(w.broker)
    && (forall r | r in w.minted :: r < w.broker.nextReq && w.minted[r] in w.asked)
    && (forall r, q | r in w.minted && q in w.minted && w.minted[r] == w.minted[q] :: r == q)
    && (forall r | r in w.broker.pending && w.broker.pending[r].waiter.ForAgent? ::
          r in w.minted && w.minted[r] == Key(w.broker.pending[r].waiter.conn, w.broker.pending[r].waiter.frame))
    && (forall r | r in w.answered :: r < w.broker.nextReq && r !in w.broker.pending)
  }

  ghost predicate Inv(w: World) { GuestSide(w) && WireSide(w) && BrokerSide(w) }

  function KeyOf(waiter: Waiter): Key
    requires waiter.ForAgent?
  {
    Key(waiter.conn, waiter.frame)
  }

  // Each result frame of a step goes back to whoever asked.
  lemma FramesFit(s: State, st: Step, asking: Option<Waiter>, own: bool, answered: Option<(ReqId, Outcome)>, d: Down)
    requires Accounts(s, st, asking, own, answered) && d in Frames(st.out)
    ensures match d.via
      case Some(r) =>
        && Finishes(s, st.s, r)
        && (if r in s.pending then s.pending[r].waiter == ForAgent(d.key.conn, d.key.frame)
            else asking == Some(ForAgent(d.key.conn, d.key.frame)) && d.outcome.Error?)
      case None => asking == Some(ForAgent(d.key.conn, d.key.frame)) && st.s.nextReq == s.nextReq
    ensures d.outcome.Data? ==> d.via.Some? && answered == Some((d.via.value, d.outcome))
    ensures d.outcome.Own? ==> own && d.via.None?
  {
    var ev :| ev in st.out && ev.Replied? && ev.waiter.ForAgent? &&
      d == Down(KeyOf(ev.waiter), ev.outcome, ev.answers);
    assert ReplyFits(s, st.s, asking, own, answered, ev);
  }

  lemma FramesDiffer(s: State, st: Step, asking: Option<Waiter>, own: bool, answered: Option<(ReqId, Outcome)>, d: Down, d': Down)
    requires Accounts(s, st, asking, own, answered)
    requires d in Frames(st.out) && d' in Frames(st.out) && d.key == d'.key && d.via == d'.via
    ensures d == d'
  {
    var ev :| ev in st.out && ev.Replied? && ev.waiter.ForAgent? && d == Down(KeyOf(ev.waiter), ev.outcome, ev.answers);
    var ev' :| ev' in st.out && ev'.Replied? && ev'.waiter.ForAgent? && d' == Down(KeyOf(ev'.waiter), ev'.outcome, ev'.answers);
    assert ev == ev';
  }

  // The broker takes step st; `w` and `t` agree on everything a broker step leaves alone.
  ghost predicate BrokerMoves(w: World, t: World, st: Step, asking: Option<Waiter>, own: bool,
                              answered: Option<(ReqId, Outcome)>, asker: Option<Key>) {
    && Inv(w) && Accounts(w.broker, st, asking, own, answered)
    && t.broker == st.s && t.down == w.down + Frames(st.out) && t.guests == w.guests && t.asked == w.asked
    && t.up == (if asker.Some? then w.up - (set u | u in w.up && u.key == asker.value) else w.up)
    && t.minted == (if asker.Some? && st.s.nextReq > w.broker.nextReq then w.minted[w.broker.nextReq := asker.value] else w.minted)
    && t.answered == (if answered.Some? then w.answered[answered.value.0 := answered.value.1] else w.answered)
    && (asking.Some? && asking.value.ForAgent? <==> asker.Some?)
    && (asker.Some? ==>
          && asking == Some(ForAgent(asker.value.conn, asker.value.frame))
          && asker.value in w.asked && !Minted(w, asker.value) && !DownFor(w, asker.value) && !DoneByAnswer(w, asker.value)
          && (own ==> w.asked[asker.value].action in {Targets, Release}))
    && (answered.Some? ==> answered.value.0 in w.broker.pending && answered.value.0 !in st.s.pending)
  }

  lemma BrokerSideKept(w: World, t: World, st: Step, asking: Option<Waiter>, own: bool,
                       answered: Option<(ReqId, Outcome)>, asker: Option<Key>)
    requires BrokerMoves(w, t, st, asking, own, answered, asker)
    ensures BrokerSide(t)
  {
    MintedKept(w, t, st, asking, own, answered, asker);
    forall r | r in t.broker.pending && t.broker.pending[r].waiter.ForAgent?
      ensures r in t.minted && t.minted[r] == KeyOf(t.broker.pending[r].waiter)
    {
      PendingKept(w, t, st, asking, own, answered, asker, r);
    }
    forall r | r in t.answered ensures r < t.broker.nextReq && r !in t.broker.pending {
      AnsweredKept(w, t, st, asking, own, answered, asker, r);
    }
  }

  lemma PendingKept(w: World, t: World, st: Step, asking: Option<Waiter>, own: bool,
                    answered: Option<(ReqId, Outcome)>, asker: Option<Key>, r: ReqId)
    requires BrokerMoves(w, t, st, asking, own, answered, asker)
    requires r in t.broker.pending && t.broker.pending[r].waiter.ForAgent?
    ensures r in t.minted && t.minted[r] == KeyOf(t.broker.pending[r].waiter)
  {
    hide Frames, GuestSide, WireSide, SettledSide, CancelSide, DownFor, DoneByAnswer;
    if r in w.broker.pending {
      assert BrokerSide(w);
      assert r < w.broker.nextReq;
    } else {
      assert asking == Some(t.broker.pending[r].waiter);
    }
  }

  lemma AnsweredKept(w: World, t: World, st: Step, asking: Option<Waiter>, own: bool,
                     answered: Option<(ReqId, Outcome)>, asker: Option<Key>, r: ReqId)
    requires BrokerMoves(w, t, st, asking, own, answered, asker) && r in t.answered
    ensures r < t.broker.nextReq && r !in t.broker.pending
  {
    assert BrokerSide(w);
    if r !in w.answered { assert r in w.broker.pending; }
  }

  // The only request that gets a broker command in this step is the one being carried.
  lemma MintedGrows(w: World, t: World, st: Step, asking: Option<Waiter>, own: bool,
                    answered: Option<(ReqId, Outcome)>, asker: Option<Key>, k: Key)
    requires BrokerMoves(w, t, st, asking, own, answered, asker) && Minted(t, k)
    ensures Minted(w, k) || Some(k) == asker
  {
  }

  lemma MintedKept(w: World, t: World, st: Step, asking: Option<Waiter>, own: bool,
                   answered: Option<(ReqId, Outcome)>, asker: Option<Key>)
    requires BrokerMoves(w, t, st, asking, own, answered, asker)
    ensures PendingNumbered(t.broker)
    ensures forall r | r in t.minted :: r < t.broker.nextReq && t.minted[r] in t.asked
    ensures forall r, q | r in t.minted && q in t.minted && t.minted[r] == t.minted[q] :: r == q
  {
    hide Frames, GuestSide, WireSide, SettledSide, CancelSide, ReplySide, DownFor, DoneByAnswer;
    forall r | r in t.broker.pending ensures r < t.broker.nextReq {
      if r in w.broker.pending { assert PendingNumbered(w.broker); }
    }
    forall r | r in w.minted ensures w.minted[r] in w.minted.Values { }
  }

  lemma GenuineKept(w: World, t: World, st: Step, asking: Option<Waiter>, own: bool,
                    answered: Option<(ReqId, Outcome)>, asker: Option<Key>, k: Key, outcome: Outcome, via: Option<ReqId>)
    requires BrokerMoves(w, t, st, asking, own, answered, asker)
    requires Genuine(w, k, outcome, via) && Some(k) != asker
    ensures Genuine(t, k, outcome, via)
  {
    hide Frames, GuestSide, WireSide, SettledSide, CancelSide, ReplySide, DownFor, DoneByAnswer;
    if Minted(t, k) { MintedGrows(w, t, st, asking, own, answered, asker, k); }
  }

  lemma PendingWasMinted(w: World, r: ReqId, k: Key)
    requires Inv(w) && r in w.broker.pending && w.broker.pending[r].waiter == ForAgent(k.conn, k.frame)
    ensures r in w.minted && w.minted[r] == k && Minted(w, k) && r < w.broker.nextReq && k in w.asked
    ensures !DownFor(w, k) && !DoneByAnswer(w, k)
  {
    assert r in w.minted && w.minted[r] == k;
    assert w.minted[r] in w.minted.Values;
  }

  lemma NewFramesGenuine(w: World, t: World, st: Step, asking: Option<Waiter>, own: bool,
                         answered: Option<(ReqId, Outcome)>, asker: Option<Key>, d: Down)
    requires BrokerMoves(w, t, st, asking, own, answered, asker) && d in Frames(st.out)
    ensures Genuine(t, d.key, d.outcome, d.via)
    ensures Some(d.key) == asker || Minted(w, d.key)
    ensures !DownFor(w, d.key) && !DoneByAnswer(w, d.key)
  {
    hide Frames, GuestSide, WireSide, BrokerSide, SettledSide, CancelSide, ReplySide, PendingNumbered, DownFor, DoneByAnswer;
    FramesFit(w.broker, st, asking, own, answered, d);
    if d.via.Some? && d.via.value in w.broker.pending {
      PendingWasMinted(w, d.via.value, d.key);
      assert t.minted[d.via.value] == d.key;
    }
  }

  lemma WaitingKept(w: World, t: World, st: Step, asking: Option<Waiter>, own: bool,
                    answered: Option<(ReqId, Outcome)>, asker: Option<Key>, u: Up)
    requires BrokerMoves(w, t, st, asking, own, answered, asker) && u in t.up
    ensures !Minted(t, u.key) && !DownFor(t, u.key)
  {
    assert u in w.up && Some(u.key) != asker;
    if Minted(t, u.key) { MintedGrows(w, t, st, asking, own, answered, asker, u.key); }
    if DownFor(t, u.key) {
      var d :| d in t.down && d.key == u.key;
      if d in Frames(st.out) { NewFramesGenuine(w, t, st, asking, own, answered, asker, d); }
    }
  }

  lemma DoneKept(w: World, t: World, st: Step, asking: Option<Waiter>, own: bool,
                 answered: Option<(ReqId, Outcome)>, asker: Option<Key>, k: Key)
    requires BrokerMoves(w, t, st, asking, own, answered, asker) && DoneByAnswer(t, k)
    ensures Genuine(t, k, t.guests[k.conn].done[k.frame].outcome, t.guests[k.conn].done[k.frame].via) && !DownFor(t, k)
  {
    assert DoneByAnswer(w, k);
    var e := w.guests[k.conn].done[k.frame];
    GenuineKept(w, t, st, asking, own, answered, asker, k, e.outcome, e.via);
    if DownFor(t, k) {
      var d :| d in t.down && d.key == k;
      if d in Frames(st.out) { NewFramesGenuine(w, t, st, asking, own, answered, asker, d); }
    }
  }

  lemma DownKept(w: World, t: World, st: Step, asking: Option<Waiter>, own: bool,
                 answered: Option<(ReqId, Outcome)>, asker: Option<Key>, d: Down, d': Down)
    requires BrokerMoves(w, t, st, asking, own, answered, asker) && d in t.down && d' in t.down
    ensures Genuine(t, d.key, d.outcome, d.via)
    ensures d.key == d'.key ==> d == d'
  {
    if d in Frames(st.out) { NewFramesGenuine(w, t, st, asking, own, answered, asker, d); }
    else {
      assert DownFor(w, d.key);
      GenuineKept(w, t, st, asking, own, answered, asker, d.key, d.outcome, d.via);
    }
    if d' in Frames(st.out) { NewFramesGenuine(w, t, st, asking, own, answered, asker, d'); }
    if d.key == d'.key && d in Frames(st.out) && d' in Frames(st.out) {
      OneFramePerKey(w, t, st, asking, own, answered, asker, d, d');
    }
  }

  lemma BrokerMoveKeepsInv(w: World, t: World, st: Step, asking: Option<Waiter>, own: bool,
                           answered: Option<(ReqId, Outcome)>, asker: Option<Key>)
    requires BrokerMoves(w, t, st, asking, own, answered, asker)
    ensures Inv(t)
  {
    BrokerSideKept(w, t, st, asking, own, answered, asker);
    forall d, d' | d in t.down && d' in t.down ensures Genuine(t, d.key, d.outcome, d.via) && (d.key == d'.key ==> d == d') {
      DownKept(w, t, st, asking, own, answered, asker, d, d');
    }
    forall u | u in t.up ensures !Minted(t, u.key) && !DownFor(t, u.key) {
      WaitingKept(w, t, st, asking, own, answered, asker, u);
    }
    forall k | DoneByAnswer(t, k)
      ensures Genuine(t, k, t.guests[k.conn].done[k.frame].outcome, t.guests[k.conn].done[k.frame].via) && !DownFor(t, k)
    {
      DoneKept(w, t, st, asking, own, answered, asker, k);
    }
  }

  lemma OneFramePerKey(w: World, t: World, st: Step, asking: Option<Waiter>, own: bool,
                       answered: Option<(ReqId, Outcome)>, asker: Option<Key>, d: Down, d': Down)
    requires BrokerMoves(w, t, st, asking, own, answered, asker)
    requires d in Frames(st.out) && d' in Frames(st.out) && d.key == d'.key
    ensures d == d'
  {
    FramesFit(w.broker, st, asking, own, answered, d);
    FramesFit(w.broker, st, asking, own, answered, d');
    NewFramesGenuine(w, t, st, asking, own, answered, asker, d);
    NewFramesGenuine(w, t, st, asking, own, answered, asker, d');
    BrokerSideKept(w, t, st, asking, own, answered, asker);
    assert d.via == d'.via;
    FramesDiffer(w.broker, st, asking, own, answered, d, d');
  }

  lemma CarryKeepsInv(w: World, u: Up, dead: set<Conn>)
    requires Inv(w) && Possible(w, Carry(u, dead))
    ensures Inv(Perform(w, Carry(u, dead)))
  {
    if Enabled(w.broker, AsCommand(u, dead)) {
      DeliveryKeepsInv(w, u, dead);
    } else {
      LosingKeepsInv(w, Perform(w, Carry(u, dead)));
    }
  }

  lemma NumberedHere(w: World)
    requires Inv(w)
    ensures PendingNumbered(w.broker)
  {
  }

  lemma CarriedIsNew(w: World, u: Up)
    requires Inv(w) && u in w.up
    ensures u.key in w.asked && w.asked[u.key] == u.cmd
    ensures !Minted(w, u.key) && !DownFor(w, u.key) && !DoneByAnswer(w, u.key)
    ensures forall v | v in w.up && v.key == u.key :: v == u
  {
  }

  lemma DeliveryKeepsInv(w: World, u: Up, dead: set<Conn>)
    requires Inv(w) && Possible(w, Carry(u, dead)) && Enabled(w.broker, AsCommand(u, dead))
    ensures Inv(Perform(w, Carry(u, dead)))
  {
    hide Accounts, Apply, PendingNumbered, BrokerSide, AC.Partitioned;
    var l := AsCommand(u, dead);
    NumberedHere(w);
    CarriedIsNew(w, u);
    StepAccounts(w.broker, l);
    hide GuestSide, WireSide, DownFor, DoneByAnswer, Minted;
    assert w.up - {u} == w.up - (set v | v in w.up && v.key == u.key);
    BrokerMoveKeepsInv(w, Perform(w, Carry(u, dead)), Apply(w.broker, l), Asking(l), MayAnswerItself(l), None, Some(u.key));
  }

  lemma HostKeepsInv(w: World, l: Label)
    requires Inv(w) && Possible(w, Host(l))
    ensures Inv(Perform(w, Host(l)))
  {
    hide Accounts, Apply, PendingNumbered, Inv;
    NumberedHere(w);
    StepAccounts(w.broker, l);
    StepIsAccounted(w.broker, l);
    BrokerMoveKeepsInv(w, Perform(w, Host(l)), Apply(w.broker, l), Asking(l), MayAnswerItself(l), Answered(w.broker, l), None);
  }

  // The ending of request k in t, if it has one, is one it may have in w, and nothing is on the wire for it.
  ghost predicate EndsFine(w: World, t: World, k: Key) {
    DoneByAnswer(t, k) ==>
      && Genuine(w, k, t.guests[k.conn].done[k.frame].outcome, t.guests[k.conn].done[k.frame].via)
      && !DownFor(t, k) && forall u | u in t.up :: u.key != k
  }

  lemma OldEndsFine(w: World, t: World, k: Key)
    requires GuestSide(w) && WireSide(w) && t.up <= w.up && t.down <= w.down && SameEnd(w, t, k)
    ensures EndsFine(w, t, k)
  {
    hide Genuine;
    assert DownFor(t, k) ==> DownFor(w, k);
  }

  lemma SameRecords(w: World, t: World)
    requires t.broker == w.broker && t.asked == w.asked && t.minted == w.minted && t.answered == w.answered
    ensures forall k :: Minted(t, k) <==> Minted(w, k)
    ensures forall k, o, v :: Genuine(t, k, o, v) <==> Genuine(w, k, o, v)
  {
  }

  ghost predicate GuestsNumbered(w: World, t: World) {
    && (forall c | c in t.guests :: AC.Partitioned(t.guests[c]))
    && (forall k :: k in w.asked <==> k.conn in t.guests && 0 <= k.frame < t.guests[k.conn].next)
  }

  // A move that leaves the broker and its records alone.
  lemma OffBroker(w: World, t: World)
    requires Inv(w) && t == w.(guests := t.guests, up := t.up, down := t.down) && t.up <= w.up && t.down <= w.down
    requires GuestsNumbered(w, t) && forall k :: EndsFine(w, t, k)
    ensures Inv(t)
  {
    SameRecords(w, t);
    hide Genuine, Minted, PendingNumbered, AC.Partitioned;
    assert BrokerSide(t);
    hide BrokerSide;
    assert GuestSide(t) by {
      forall k | DoneByAnswer(t, k)
        ensures Genuine(t, k, t.guests[k.conn].done[k.frame].outcome, t.guests[k.conn].done[k.frame].via) && !DownFor(t, k)
      {
        assert EndsFine(w, t, k);
      }
    }
    hide GuestSide;
    forall u | u in t.up ensures !DownFor(t, u.key) && !DoneByAnswer(t, u.key) {
      assert DownFor(t, u.key) ==> DownFor(w, u.key);
      assert EndsFine(w, t, u.key);
    }
  }

  // Frames vanish, and nothing else changes.
  lemma LosingKeepsInv(w: World, t: World)
    requires Inv(w) && t == w.(up := t.up, down := t.down) && t.up <= w.up && t.down <= w.down
    ensures Inv(t)
  {
    hide Genuine, BrokerSide, AC.Partitioned;
    forall k ensures EndsFine(w, t, k) {
      if DoneByAnswer(t, k) { OldEndsFine(w, t, k); }
    }
    assert GuestsNumbered(w, t);
    OffBroker(w, t);
  }

  lemma GuestMoveKeepsInv(w: World, t: World, conn: Conn, i: AC.Input)
    requires Inv(w) && conn in w.guests && !i.Send? && !i.Result?
    requires t == w.(guests := w.guests[conn := AC.Handle(w.guests[conn], i)])
    ensures Inv(t)
  {
    hide Genuine, BrokerSide;
    AC.EndsOnce(w.guests[conn], i);
    forall k ensures EndsFine(w, t, k) {
      if DoneByAnswer(t, k) { OldEndsFine(w, t, k); }
    }
    assert GuestsNumbered(w, t) by { hide WireSide; }
    hide AC.Handle, GuestsNumbered;
    OffBroker(w, t);
  }

  lemma AskedIsNew(w: World, conn: Conn)
    requires Inv(w) && conn in w.guests
    ensures var k := Key(conn, w.guests[conn].next); k !in w.asked && !Minted(w, k) && !DownFor(w, k) && !DoneByAnswer(w, k)
  {
  }

  lemma AskKeepsInv(w: World, conn: Conn, cmd: Command, sendOk: bool)
    requires Inv(w) && Possible(w, Ask(conn, cmd, sendOk))
    ensures Inv(Perform(w, Ask(conn, cmd, sendOk)))
  {
    var t, k := Perform(w, Ask(conn, cmd, sendOk)), Key(conn, w.guests[conn].next);
    hide Perform, GuestSide, Genuine, PendingNumbered;
    AskedInFull(w, conn, cmd, sendOk);
    AskedIsNew(w, conn);
    AskEndsNothing(w, conn, cmd, sendOk);
    AskKeepsGuests(w, conn, cmd, sendOk);
    AskKeepsWire(w, t, k, cmd);
    hide WireSide;
  }

  lemma GenuineAfterAsk(w: World, t: World, k: Key, cmd: Command, q: Key, outcome: Outcome, via: Option<ReqId>)
    requires Genuine(w, q, outcome, via) && k !in w.asked
    requires t == w.(guests := t.guests, up := t.up, asked := w.asked[k := cmd])
    ensures Genuine(t, q, outcome, via)
  {
  }

  lemma AskKeepsGuests(w: World, conn: Conn, cmd: Command, sendOk: bool)
    requires Inv(w) && Possible(w, Ask(conn, cmd, sendOk))
    ensures GuestSide(Perform(w, Ask(conn, cmd, sendOk)))
  {
    hide Genuine, WireSide, BrokerSide, Perform;
    var t, k := Perform(w, Ask(conn, cmd, sendOk)), Key(conn, w.guests[conn].next);
    AskedIsNew(w, conn);
    AskEndsNothing(w, conn, cmd, sendOk);
    AskedInFull(w, conn, cmd, sendOk);
    forall q | DoneByAnswer(t, q)
      ensures Genuine(t, q, t.guests[q.conn].done[q.frame].outcome, t.guests[q.conn].done[q.frame].via) && !DownFor(t, q)
    {
      assert SameEnd(w, t, q);
      assert DownFor(t, q) ==> DownFor(w, q);
      GenuineAfterAsk(w, t, k, cmd, q, w.guests[q.conn].done[q.frame].outcome, w.guests[q.conn].done[q.frame].via);
    }
    hide AC.Partitioned, DoneByAnswer;
  }

  lemma AskedInFull(w: World, conn: Conn, cmd: Command, sendOk: bool)
    requires Possible(w, Ask(conn, cmd, sendOk))
    ensures var (t, k) := (Perform(w, Ask(conn, cmd, sendOk)), Key(conn, w.guests[conn].next));
      && t == w.(guests := w.guests[conn := t.guests[conn]], up := t.up, asked := w.asked[k := cmd])
      && t.up <= w.up + {Up(k, cmd)} && t.guests[conn].next == w.guests[conn].next + 1
  {
  }

  lemma AskEndsNothing(w: World, conn: Conn, cmd: Command, sendOk: bool)
    requires Inv(w) && Possible(w, Ask(conn, cmd, sendOk))
    ensures AC.Partitioned(Perform(w, Ask(conn, cmd, sendOk)).guests[conn])
    ensures forall q | DoneByAnswer(Perform(w, Ask(conn, cmd, sendOk)), q) ::
      SameEnd(w, Perform(w, Ask(conn, cmd, sendOk)), q) && q != Key(conn, w.guests[conn].next)
  {
    hide Genuine, WireSide, BrokerSide;
    AskedIsNew(w, conn);
    AC.EndsOnce(w.guests[conn], AC.Send(sendOk));
  }

  ghost predicate SameEnd(w: World, t: World, q: Key) {
    && DoneByAnswer(w, q) && DoneByAnswer(t, q)
    && t.guests[q.conn].done[q.frame] == w.guests[q.conn].done[q.frame]
  }

  lemma AskKeepsWire(w: World, t: World, k: Key, cmd: Command)
    requires WireSide(w) && k !in w.asked && !Minted(w, k) && !DownFor(w, k) && !DoneByAnswer(w, k)
    requires t == w.(guests := t.guests, up := t.up, asked := w.asked[k := cmd]) && t.up <= w.up + {Up(k, cmd)}
    requires forall q | DoneByAnswer(t, q) :: DoneByAnswer(w, q)
    ensures WireSide(t)
  {
    forall d | d in t.down ensures Genuine(t, d.key, d.outcome, d.via) { assert Genuine(w, d.key, d.outcome, d.via); }
  }

  lemma ReceivedEndsFine(w: World, d: Down, k: Key)
    requires Inv(w) && Possible(w, Receive(d))
    ensures EndsFine(w, Perform(w, Receive(d)), k)
  {
    hide Genuine, BrokerSide;
    var t := Perform(w, Receive(d));
    AC.EndsOnce(w.guests[d.key.conn], AC.Result(d.key.frame, d.outcome, d.via));
    if DoneByAnswer(t, k) {
      if DoneByAnswer(w, k) {
        OldEndsFine(w, t, k);
      } else {
        assert k == d.key && DownFor(w, d.key);
      }
    }
  }

  lemma ReceiveKeepsInv(w: World, d: Down)
    requires Inv(w) && Possible(w, Receive(d))
    ensures Inv(Perform(w, Receive(d)))
  {
    hide Genuine, BrokerSide, WireSide, EndsFine;
    var t := Perform(w, Receive(d));
    forall k ensures EndsFine(w, t, k) { ReceivedEndsFine(w, d, k); }
    AC.EndsOnce(w.guests[d.key.conn], AC.Result(d.key.frame, d.outcome, d.via));
    assert GuestsNumbered(w, t);
    hide GuestSide, GuestsNumbered;
    OffBroker(w, t);
  }

  lemma DialKeepsInv(w: World, conn: Conn)
    requires Inv(w) && conn !in w.guests
    ensures Inv(Perform(w, Dial(conn)))
  {
    hide Genuine, BrokerSide;
    var t := Perform(w, Dial(conn));
    forall k ensures EndsFine(w, t, k) {
      if DoneByAnswer(t, k) { OldEndsFine(w, t, k); }
    }
    assert GuestsNumbered(w, t) by { hide WireSide; }
    hide GuestSide, GuestsNumbered, EndsFine;
    OffBroker(w, t);
  }

  lemma GuestInputKeepsInv(w: World, m: Move)
    requires Inv(w) && m.Guest? && Possible(w, m)
    ensures Inv(Perform(w, m))
  {
    hide Inv;
    GuestMoveKeepsInv(w, Perform(w, m), m.conn, m.i);
  }

  lemma LossKeepsInv(w: World, m: Move)
    requires Inv(w) && (m.LoseUp? || m.LoseDown?) && Possible(w, m)
    ensures Inv(Perform(w, m))
  {
    hide Inv;
    LosingKeepsInv(w, Perform(w, m));
  }

  lemma {:induction false} InvAlways(ws: seq<World>, ms: seq<Move>, i: nat)
    requires IsRun(ws, ms) && Inv(ws[0]) && i < |ws|
    ensures Inv(ws[i])
  {
    hide Inv, Perform;
    if i > 0 {
      InvAlways(ws, ms, i - 1);
      var w, m := ws[i - 1], ms[i - 1];
      assert Possible(w, m);
      match m {
        case Dial(conn) => DialKeepsInv(w, conn);
        case Ask(conn, cmd, sendOk) => AskKeepsInv(w, conn, cmd, sendOk);
        case Carry(u, dead) => CarryKeepsInv(w, u, dead);
        case Host(l) => HostKeepsInv(w, l);
        case Receive(d) => ReceiveKeepsInv(w, d);
        case Guest(conn, input) => GuestInputKeepsInv(w, m);
        case _ => LossKeepsInv(w, m);
      }
    }
  }

  /** End to end: when a guest's request has ended with data, that data is what an executor answered
      to the one broker command minted for that very request, and the command is settled; when it
      ended with the broker's own answer, it was a request the broker answers itself. */
  lemma AnswersReachTheirAsker(ws: seq<World>, ms: seq<Move>, token: string, i: nat, k: Key)
    requires IsRun(ws, ms) && ws[0] == Idle(token) && i < |ws|
    requires DoneByAnswer(ws[i], k)
    ensures k in ws[i].asked
    ensures var e := ws[i].guests[k.conn].done[k.frame];
      && (e.outcome.Data? ==> exists r ::
            && e.via == Some(r) && r in ws[i].minted && ws[i].minted[r] == k
            && (forall q | q in ws[i].minted && ws[i].minted[q] == k :: q == r)
            && r in ws[i].answered && ws[i].answered[r] == e.outcome && r !in ws[i].broker.pending)
      && (e.outcome.Own? ==> ws[i].asked[k].action in {Targets, Release})
  {
    IdleIsFine(token);
    InvAlways(ws, ms, i);
    assert Genuine(ws[i], k, ws[i].guests[k.conn].done[k.frame].outcome, ws[i].guests[k.conn].done[k.frame].via);
  }

  lemma IdleIsFine(token: string)
    ensures Inv(Idle(token))
  {
  }

  // A move leaves a guest alone or makes it take one input.
  lemma MoveIsGuestInput(w: World, m: Move, c: Conn) returns (i: AC.Input)
    requires Possible(w, m) && c in w.guests
    ensures c in Perform(w, m).guests
    ensures Perform(w, m).guests[c] == w.guests[c] ||
            (AC.Takes(w.guests[c], i) && Perform(w, m).guests[c] == AC.Handle(w.guests[c], i))
    ensures w.asked.Keys <= Perform(w, m).asked.Keys
  {
    i := match m
      case Ask(_, _, sendOk) => AC.Send(sendOk)
      case Receive(d) => AC.Result(d.key.frame, d.outcome, d.via)
      case Guest(_, input) => input
      case _ => AC.BecomeReady;
  }

  // Request k is known in both worlds; in the later one it is waiting or ended, never both, and
  // with the ending it already had, if it had one.
  ghost predicate EndingKept(w: World, t: World, k: Key) {
    && k in w.asked && k in t.asked && k.conn in w.guests && k.conn in t.guests
    && (k.frame in t.guests[k.conn].pending <==> k.frame !in t.guests[k.conn].done)
    && (k.frame in w.guests[k.conn].done ==>
          k.frame in t.guests[k.conn].done && t.guests[k.conn].done[k.frame] == w.guests[k.conn].done[k.frame])
  }

  lemma MoveKeepsEnding(w: World, m: Move, k: Key)
    requires Inv(w) && Possible(w, m) && k in w.asked
    ensures EndingKept(w, Perform(w, m), k)
  {
    hide WireSide, BrokerSide, Genuine;
    var g := w.guests[k.conn];
    assert AC.Partitioned(g);
    var input := MoveIsGuestInput(w, m, k.conn);
    if Perform(w, m).guests[k.conn] != g { AC.EndsOnce(g, input); }
  }

  lemma EndingKeptOn(w: World, u: World, t: World, k: Key)
    requires EndingKept(w, u, k) && EndingKept(u, t, k)
    ensures EndingKept(w, t, k)
  {
  }

  lemma KeptIsAsked(w: World, t: World, k: Key)
    requires EndingKept(w, t, k)
    ensures k in t.asked
  {
  }

  /** Every request of every guest is either waiting or has ended, never both, and an ending never
      changes: it is settled exactly once. */
  lemma {:induction false} RequestsEndOnce(ws: seq<World>, ms: seq<Move>, token: string, i: nat, j: nat, k: Key)
    requires IsRun(ws, ms) && ws[0] == Idle(token) && i <= j < |ws|
    requires k in ws[i].asked
    ensures EndingKept(ws[i], ws[j], k)
    decreases j - i
  {
    hide Inv, Perform, EndingKept;
    IdleIsFine(token);
    if i < j {
      assert Possible(ws[j - 1], ms[j - 1]) && ws[j] == Perform(ws[j - 1], ms[j - 1]);
      RequestsEndOnce(ws, ms, token, i, j - 1, k);
      InvAlways(ws, ms, j - 1);
      KeptIsAsked(ws[i], ws[j - 1], k);
      MoveKeepsEnding(ws[j - 1], ms[j - 1], k);
      EndingKeptOn(ws[i], ws[j - 1], ws[j], k);
    } else {
      InvAlways(ws, ms, i);
      KnownRequest(ws[i], k);
    }
  }

  lemma KnownRequest(w: World, k: Key)
    requires Inv(w) && k in w.asked
    ensures EndingKept(w, w, k)
  {
    assert AC.Partitioned(w.guests[k.conn]);
  }
}
