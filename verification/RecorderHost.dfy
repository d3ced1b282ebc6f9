/** The recorder class: its maps updated in place by each handler, proved to do what the steps of module
    Recorder say. The ghost fields are what the tracer and the meters received. */
module RecorderHost {
  import opened Prelude
  import R = Recorder

  // ---- The spans at a set of entries, map by map ----------------------------------------

  function SessionEndings(m: map<R.SessionId, R.Session>, ids: set<R.SessionId>): set<R.Ended> {
    set id | id in ids && id in m && m[id].span.Some? :: R.Ended(R.InSession(id), m[id].span.value)
  }

  function ChatEndings(m: map<R.MessageId, R.Chat>, ids: set<R.MessageId>): set<R.Ended> {
    set id | id in ids && id in m && m[id].span.Some? :: R.Ended(R.InChat(id), m[id].span.value)
  }

  function PendingEndings(m: map<R.SessionId, R.Chat>, ids: set<R.SessionId>): set<R.Ended> {
    set id | id in ids && id in m && m[id].span.Some? :: R.Ended(R.InPending(id), m[id].span.value)
  }

  function ToolEndings(m: map<R.CallId, R.Tool>, ids: set<R.CallId>): set<R.Ended> {
    set id | id in ids && id in m && m[id].span.Some? :: R.Ended(R.InTool(id), m[id].span.value)
  }

  // Ending what a place holds, if it holds something.
  function Ending(p: R.Place, span: Option<R.SpanId>): multiset<R.Ended> {
    if span.Some? then multiset{R.Ended(p, span.value)} else multiset{}
  }

  lemma SessionEndingsGrow(m: map<R.SessionId, R.Session>, done: set<R.SessionId>, id: R.SessionId, before: multiset<R.Ended>)
    requires id in m && id !in done
    ensures before + multiset(SessionEndings(m, done)) + Ending(R.InSession(id), m[id].span) == before + multiset(SessionEndings(m, done + {id}))
  {
    if m[id].span.Some? {
      assert SessionEndings(m, done + {id}) == SessionEndings(m, done) + {R.Ended(R.InSession(id), m[id].span.value)};
    } else {
      assert SessionEndings(m, done + {id}) == SessionEndings(m, done);
    }
  }

  lemma ChatEndingsGrow(m: map<R.MessageId, R.Chat>, done: set<R.MessageId>, id: R.MessageId, before: multiset<R.Ended>)
    requires id in m && id !in done
    ensures before + multiset(ChatEndings(m, done)) + Ending(R.InChat(id), m[id].span) == before + multiset(ChatEndings(m, done + {id}))
  {
    if m[id].span.Some? {
      assert ChatEndings(m, done + {id}) == ChatEndings(m, done) + {R.Ended(R.InChat(id), m[id].span.value)};
    } else {
      assert ChatEndings(m, done + {id}) == ChatEndings(m, done);
    }
  }

  lemma PendingEndingsGrow(m: map<R.SessionId, R.Chat>, done: set<R.SessionId>, id: R.SessionId, before: multiset<R.Ended>)
    requires id in m && id !in done
    ensures before + multiset(PendingEndings(m, done)) + Ending(R.InPending(id), m[id].span) == before + multiset(PendingEndings(m, done + {id}))
  {
    if m[id].span.Some? {
      assert PendingEndings(m, done + {id}) == PendingEndings(m, done) + {R.Ended(R.InPending(id), m[id].span.value)};
    } else {
      assert PendingEndings(m, done + {id}) == PendingEndings(m, done);
    }
  }

  lemma ToolEndingsGrow(m: map<R.CallId, R.Tool>, done: set<R.CallId>, id: R.CallId, before: multiset<R.Ended>)
    requires id in m && id !in done
    ensures before + multiset(ToolEndings(m, done)) + Ending(R.InTool(id), m[id].span) == before + multiset(ToolEndings(m, done + {id}))
  {
    if m[id].span.Some? {
      assert ToolEndings(m, done + {id}) == ToolEndings(m, done) + {R.Ended(R.InTool(id), m[id].span.value)};
    } else {
      assert ToolEndings(m, done + {id}) == ToolEndings(m, done);
    }
  }

  lemma NothingSessionEndings(m: map<R.SessionId, R.Session>, which: set<R.SessionId>, before: multiset<R.Ended>)
    ensures before == before + multiset(SessionEndings(m, {})) && SessionEndings(m, m.Keys * which) == SessionEndings(m, which)
    ensures m - m.Keys * which == m - which
  {
  }

  lemma NothingChatEndings(m: map<R.MessageId, R.Chat>, which: set<R.MessageId>, before: multiset<R.Ended>)
    ensures before == before + multiset(ChatEndings(m, {})) && ChatEndings(m, m.Keys * which) == ChatEndings(m, which)
    ensures m - m.Keys * which == m - which
  {
  }

  lemma NothingPendingEndings(m: map<R.SessionId, R.Chat>, which: set<R.SessionId>, before: multiset<R.Ended>)
    ensures before == before + multiset(PendingEndings(m, {})) && PendingEndings(m, m.Keys * which) == PendingEndings(m, which)
    ensures m - m.Keys * which == m - which
  {
  }

  lemma NothingToolEndings(m: map<R.CallId, R.Tool>, which: set<R.CallId>, before: multiset<R.Ended>)
    ensures before == before + multiset(ToolEndings(m, {})) && ToolEndings(m, m.Keys * which) == ToolEndings(m, which)
    ensures m - m.Keys * which == m - which
  {
  }

  lemma MinusOneMore<K, V>(m: map<K, V>, done: set<K>, k: K)
    ensures m - done - {k} == m - (done + {k})
  {
  }

  // The places of four sets of keys.
  function Places(ids: set<R.SessionId>, ms: set<R.MessageId>, ps: set<R.SessionId>, cs: set<R.CallId>): set<R.Place> {
    (set id | id in ids :: R.InSession(id)) + (set m | m in ms :: R.InChat(m))
      + (set p | p in ps :: R.InPending(p)) + (set c | c in cs :: R.InTool(c))
  }

  lemma EndingsInParts(s: R.State, ids: set<R.SessionId>, ms: set<R.MessageId>, ps: set<R.SessionId>, cs: set<R.CallId>)
    ensures multiset(R.Endings(s, Places(ids, ms, ps, cs))) ==
      multiset(SessionEndings(s.sessions, ids)) + multiset(ChatEndings(s.chats, ms))
        + multiset(PendingEndings(s.pendingChats, ps)) + multiset(ToolEndings(s.tools, cs))
  {
    var a, b, c, d := SessionEndings(s.sessions, ids), ChatEndings(s.chats, ms), PendingEndings(s.pendingChats, ps), ToolEndings(s.tools, cs);
    var all := R.Endings(s, Places(ids, ms, ps, cs));
    forall e ensures e in all <==> e in a || e in b || e in c || e in d {
      if e in all { assert e.place in Places(ids, ms, ps, cs); }
      if e in a || e in b || e in c || e in d { assert e.place in Places(ids, ms, ps, cs) && R.Held(s, e.place) == Some(e.span); }
    }
    assert all == a + b + c + d;
    DisjointSum(a, b);
    DisjointSum(a + b, c);
    DisjointSum(a + b + c, d);
  }

  lemma DisjointSum(a: set<R.Ended>, b: set<R.Ended>)
    requires a !! b
    ensures multiset(a + b) == multiset(a) + multiset(b)
  {
  }

  // Clearing, spelled out as the handlers do it.
  lemma ClearInParts(s: R.State, ids: set<R.SessionId>, ms: set<R.MessageId>, ps: set<R.SessionId>, cs: set<R.CallId>)
    ensures R.Clear(s, Places(ids, ms, ps, cs)) ==
      s.(sessions := s.sessions - ids, chats := s.chats - ms, pendingChats := s.pendingChats - ps, tools := s.tools - cs,
         ended := s.ended + (multiset(SessionEndings(s.sessions, ids)) + multiset(ChatEndings(s.chats, ms))
                             + multiset(PendingEndings(s.pendingChats, ps)) + multiset(ToolEndings(s.tools, cs))))
  {
    hide Places, R.Endings, SessionEndings, ChatEndings, PendingEndings, ToolEndings;
    EndingsInParts(s, ids, ms, ps, cs);
    InPlaces(ids, ms, ps, cs);
    assert R.Clear(s, Places(ids, ms, ps, cs)).sessions == s.sessions - ids;
    assert R.Clear(s, Places(ids, ms, ps, cs)).chats == s.chats - ms;
    assert R.Clear(s, Places(ids, ms, ps, cs)).pendingChats == s.pendingChats - ps;
    assert R.Clear(s, Places(ids, ms, ps, cs)).tools == s.tools - cs;
  }

  lemma InPlaces(ids: set<R.SessionId>, ms: set<R.MessageId>, ps: set<R.SessionId>, cs: set<R.CallId>)
    ensures forall id :: R.InSession(id) in Places(ids, ms, ps, cs) <==> id in ids
    ensures forall m :: R.InChat(m) in Places(ids, ms, ps, cs) <==> m in ms
    ensures forall p :: R.InPending(p) in Places(ids, ms, ps, cs) <==> p in ps
    ensures forall c :: R.InTool(c) in Places(ids, ms, ps, cs) <==> c in cs
  {
  }

  lemma NoEndings(s: R.State)
    ensures SessionEndings(s.sessions, {}) == {} && ChatEndings(s.chats, {}) == {}
    ensures PendingEndings(s.pendingChats, {}) == {} && ToolEndings(s.tools, {}) == {}
    ensures s.sessions - {} == s.sessions && s.chats - {} == s.chats && s.pendingChats - {} == s.pendingChats && s.tools - {} == s.tools
  {
  }

  lemma ClearSession(s: R.State, id: R.SessionId)
    ensures R.Clear(s, {R.InSession(id)}) ==
      s.(sessions := s.sessions - {id}, ended := s.ended + multiset(SessionEndings(s.sessions, {id})))
  {
    hide R.Clear, SessionEndings, ChatEndings, PendingEndings, ToolEndings;
    assert Places({id}, {}, {}, {}) == {R.InSession(id)};
    hide Places;
    NoEndings(s);
    ClearInParts(s, {id}, {}, {}, {});
  }

  lemma ClearChat(s: R.State, m: R.MessageId)
    ensures R.Clear(s, {R.InChat(m)}) == s.(chats := s.chats - {m}, ended := s.ended + multiset(ChatEndings(s.chats, {m})))
  {
    hide R.Clear, SessionEndings, ChatEndings, PendingEndings, ToolEndings;
    assert Places({}, {m}, {}, {}) == {R.InChat(m)};
    hide Places;
    NoEndings(s);
    ClearInParts(s, {}, {m}, {}, {});
  }

  lemma ClearPending(s: R.State, id: R.SessionId)
    ensures R.Clear(s, {R.InPending(id)}) ==
      s.(pendingChats := s.pendingChats - {id}, ended := s.ended + multiset(PendingEndings(s.pendingChats, {id})))
  {
    hide R.Clear, SessionEndings, ChatEndings, PendingEndings, ToolEndings;
    assert Places({}, {}, {id}, {}) == {R.InPending(id)};
    hide Places;
    NoEndings(s);
    ClearInParts(s, {}, {}, {id}, {});
  }

  lemma ClearTool(s: R.State, c: R.CallId)
    ensures R.Clear(s, {R.InTool(c)}) == s.(tools := s.tools - {c}, ended := s.ended + multiset(ToolEndings(s.tools, {c})))
  {
    hide R.Clear, SessionEndings, ChatEndings, PendingEndings, ToolEndings;
    assert Places({}, {}, {}, {c}) == {R.InTool(c)};
    hide Places;
    NoEndings(s);
    ClearInParts(s, {}, {}, {}, {c});
  }

  class Recorder {
    const cfg: R.Config
    var sessions: map<R.SessionId, R.Session>
    var chats: map<R.MessageId, R.Chat>
    var pendingChats: map<R.SessionId, R.Chat>
    var tools: map<R.CallId, R.Tool>
    var finishedTools: map<R.CallId, R.SessionId>
    var finalizedMessages: map<R.MessageId, R.SessionId>
    var diffs: map<(R.SessionId, string), R.Lines>
    var nextSpan: R.SpanId                        // the tracer's
    ghost var ended: multiset<R.Ended>
    ghost var counted: multiset<R.Key>
    ghost var lines: map<(R.SessionId, string), R.Lines>

    ghost function View(): R.State reads this {
      R.State(sessions, chats, pendingChats, tools, finishedTools, finalizedMessages, diffs, nextSpan, ended, counted, lines)
    }

    constructor (cfg: R.Config)
      ensures View() == R.START && this.cfg == cfg
    {
      this.cfg := cfg;
      sessions, chats, pendingChats, tools, finishedTools, finalizedMessages := map[], map[], map[], map[], map[], map[];
      diffs, nextSpan, ended, counted, lines := map[], 0, multiset{}, multiset{}, map[];
    }

    method StartSpan() returns (span: Option<R.SpanId>)
      modifies this`nextSpan
      ensures span == R.Opened(cfg, old(View()))
      ensures View() == old(View()).(nextSpan := R.AfterOpening(cfg, old(View())))
    {
      span := None;
      if cfg.tracing { span, nextSpan := Some(nextSpan), nextSpan + 1; }
    }

    // The session's state, made up if it was never seen created.
    method LookUp(id: R.SessionId)
      modifies this`sessions
      ensures View() == R.Touch(old(View()), id)
    {
      if id !in sessions { sessions := sessions[id := R.Session(None, 0)]; }
    }

    method OnSessionCreated(id: R.SessionId)
      modifies this
      ensures View() == R.Apply(cfg, old(View()), R.SessionCreated(id))
    {
      var span := StartSpan();
      sessions := sessions[id := R.Session(span, 0)];
    }

    method EndSession(id: R.SessionId)
      modifies this`sessions, this`ended
      ensures View() == R.Clear(old(View()), {R.InSession(id)})
    {
      hide R.Clear, SessionEndings;
      ClearSession(View(), id);
      EndSessions({id});
    }

    method OnSessionIdle(id: R.SessionId)
      modifies this
      ensures View() == R.Apply(cfg, old(View()), R.SessionIdle(id))
    {
      if id !in sessions { return; }
      EndSession(id);
      PruneCompleted(id);
    }

    method PruneCompleted(id: R.SessionId)
      modifies this`finalizedMessages, this`finishedTools
      ensures View() == R.Prune(old(View()), id)
    {
      PruneMessages(id);
      PruneTools(id);
    }

    method PruneMessages(id: R.SessionId)
      modifies this`finalizedMessages
      ensures finalizedMessages == map m | m in old(finalizedMessages) && old(finalizedMessages)[m] != id :: old(finalizedMessages)[m]
    {
      var all, todo := finalizedMessages, finalizedMessages.Keys;
      while todo != {}
        modifies this`finalizedMessages
        invariant todo <= all.Keys
        invariant finalizedMessages == map m | m in all && (m in todo || all[m] != id) :: all[m]
        decreases |todo|
      {
        var m :| m in todo;
        if finalizedMessages[m] == id { finalizedMessages := finalizedMessages - {m}; }
        todo := todo - {m};
      }
    }

    method PruneTools(id: R.SessionId)
      modifies this`finishedTools
      ensures finishedTools == map c | c in old(finishedTools) && old(finishedTools)[c] != id :: old(finishedTools)[c]
    {
      var all, todo := finishedTools, finishedTools.Keys;
      while todo != {}
        modifies this`finishedTools
        invariant todo <= all.Keys
        invariant finishedTools == map c | c in all && (c in todo || all[c] != id) :: all[c]
        decreases |todo|
      {
        var c :| c in todo;
        if finishedTools[c] == id { finishedTools := finishedTools - {c}; }
        todo := todo - {c};
      }
    }

    // Ends the spans of these chats and drops them.
    method EndChats(which: set<R.MessageId>)
      modifies this`chats, this`ended
      ensures View() == old(View()).(chats := old(chats) - which, ended := old(ended) + multiset(ChatEndings(old(chats), which)))
    {
      hide ChatEndings, ChatsEnded;
      EndEachOfChats(chats.Keys * which);
      AllChatsEnded(old(chats), old(ended), which);
    }

    method EndEachOfChats(target: set<R.MessageId>)
      requires target <= chats.Keys
      modifies this`chats, this`ended
      ensures ChatsEnded(old(chats), old(ended), target)
    {
      hide ChatEndings, ChatsEnded;
      ghost var all, before, done: set<R.MessageId> := chats, ended, {};
      var todo := target;
      NoChatsEnded();
      while todo != {}
        modifies this`chats, this`ended
        invariant done !! todo && done + todo == target && ChatsEnded(all, before, done)
        decreases |todo|
      {
        var m :| m in todo;
        EndNextOfChats(all, before, done, m);
        done, todo := done + {m}, todo - {m};
      }
      assert done == target;
    }

    ghost predicate ChatsEnded(all: map<R.MessageId, R.Chat>, before: multiset<R.Ended>, done: set<R.MessageId>) reads this`chats, this`ended {
      chats == all - done && ended == before + multiset(ChatEndings(all, done))
    }

    lemma NoChatsEnded()
      ensures ChatsEnded(chats, ended, {})
    {
      NothingChatEndings(chats, {}, ended);
    }

    lemma AllChatsEnded(all: map<R.MessageId, R.Chat>, before: multiset<R.Ended>, which: set<R.MessageId>)
      requires ChatsEnded(all, before, all.Keys * which)
      ensures chats == all - which && ended == before + multiset(ChatEndings(all, which))
    {
      NothingChatEndings(all, which, before);
    }

    method EndNextOfChats(ghost all: map<R.MessageId, R.Chat>, ghost before: multiset<R.Ended>, ghost done: set<R.MessageId>, m: R.MessageId)
      requires ChatsEnded(all, before, done) && m in all && m !in done
      modifies this`chats, this`ended
      ensures ChatsEnded(all, before, done + {m})
    {
      hide ChatEndings, Ending;
      ChatEndingsGrow(all, done, m, before);
      MinusOneMore(all, done, m);
      EndChat(m);
    }

    method EndChat(m: R.MessageId)
      requires m in chats
      modifies this`chats, this`ended
      ensures chats == old(chats) - {m}
      ensures ended == old(ended) + Ending(R.InChat(m), old(chats)[m].span)
    {
      var span := chats[m].span;
      if span.Some? { ended := ended + multiset{R.Ended(R.InChat(m), span.value)}; }
      chats := chats - {m};
    }

    method EndTools(which: set<R.CallId>)
      modifies this`tools, this`ended
      ensures View() == old(View()).(tools := old(tools) - which, ended := old(ended) + multiset(ToolEndings(old(tools), which)))
    {
      hide ToolEndings, ToolsEnded;
      EndEachOfTools(tools.Keys * which);
      AllToolsEnded(old(tools), old(ended), which);
    }

    method EndEachOfTools(target: set<R.CallId>)
      requires target <= tools.Keys
      modifies this`tools, this`ended
      ensures ToolsEnded(old(tools), old(ended), target)
    {
      hide ToolEndings, ToolsEnded;
      ghost var all, before, done: set<R.CallId> := tools, ended, {};
      var todo := target;
      NoToolsEnded();
      while todo != {}
        modifies this`tools, this`ended
        invariant done !! todo && done + todo == target && ToolsEnded(all, before, done)
        decreases |todo|
      {
        var c :| c in todo;
        EndNextOfTools(all, before, done, c);
        done, todo := done + {c}, todo - {c};
      }
      assert done == target;
    }

    ghost predicate ToolsEnded(all: map<R.CallId, R.Tool>, before: multiset<R.Ended>, done: set<R.CallId>) reads this`tools, this`ended {
      tools == all - done && ended == before + multiset(ToolEndings(all, done))
    }

    lemma NoToolsEnded()
      ensures ToolsEnded(tools, ended, {})
    {
      NothingToolEndings(tools, {}, ended);
    }

    lemma AllToolsEnded(all: map<R.CallId, R.Tool>, before: multiset<R.Ended>, which: set<R.CallId>)
      requires ToolsEnded(all, before, all.Keys * which)
      ensures tools == all - which && ended == before + multiset(ToolEndings(all, which))
    {
      NothingToolEndings(all, which, before);
    }

    method EndNextOfTools(ghost all: map<R.CallId, R.Tool>, ghost before: multiset<R.Ended>, ghost done: set<R.CallId>, c: R.CallId)
      requires ToolsEnded(all, before, done) && c in all && c !in done
      modifies this`tools, this`ended
      ensures ToolsEnded(all, before, done + {c})
    {
      hide ToolEndings, Ending;
      ToolEndingsGrow(all, done, c, before);
      MinusOneMore(all, done, c);
      EndOneTool(c);
    }

    method EndOneTool(c: R.CallId)
      requires c in tools
      modifies this`tools, this`ended
      ensures tools == old(tools) - {c}
      ensures ended == old(ended) + Ending(R.InTool(c), old(tools)[c].span)
    {
      var span := tools[c].span;
      if span.Some? { ended := ended + multiset{R.Ended(R.InTool(c), span.value)}; }
      tools := tools - {c};
    }

    method EndPending(which: set<R.SessionId>)
      modifies this`pendingChats, this`ended
      ensures View() == old(View()).(pendingChats := old(pendingChats) - which, ended := old(ended) + multiset(PendingEndings(old(pendingChats), which)))
    {
      hide PendingEndings, PendingEnded;
      EndEachOfPending(pendingChats.Keys * which);
      AllPendingEnded(old(pendingChats), old(ended), which);
    }

    method EndEachOfPending(target: set<R.SessionId>)
      requires target <= pendingChats.Keys
      modifies this`pendingChats, this`ended
      ensures PendingEnded(old(pendingChats), old(ended), target)
    {
      hide PendingEndings, PendingEnded;
      ghost var all, before, done: set<R.SessionId> := pendingChats, ended, {};
      var todo := target;
      NoPendingEnded();
      while todo != {}
        modifies this`pendingChats, this`ended
        invariant done !! todo && done + todo == target && PendingEnded(all, before, done)
        decreases |todo|
      {
        var id :| id in todo;
        EndNextOfPending(all, before, done, id);
        done, todo := done + {id}, todo - {id};
      }
      assert done == target;
    }

    ghost predicate PendingEnded(all: map<R.SessionId, R.Chat>, before: multiset<R.Ended>, done: set<R.SessionId>) reads this`pendingChats, this`ended {
      pendingChats == all - done && ended == before + multiset(PendingEndings(all, done))
    }

    lemma NoPendingEnded()
      ensures PendingEnded(pendingChats, ended, {})
    {
      NothingPendingEndings(pendingChats, {}, ended);
    }

    lemma AllPendingEnded(all: map<R.SessionId, R.Chat>, before: multiset<R.Ended>, which: set<R.SessionId>)
      requires PendingEnded(all, before, all.Keys * which)
      ensures pendingChats == all - which && ended == before + multiset(PendingEndings(all, which))
    {
      NothingPendingEndings(all, which, before);
    }

    method EndNextOfPending(ghost all: map<R.SessionId, R.Chat>, ghost before: multiset<R.Ended>, ghost done: set<R.SessionId>, id: R.SessionId)
      requires PendingEnded(all, before, done) && id in all && id !in done
      modifies this`pendingChats, this`ended
      ensures PendingEnded(all, before, done + {id})
    {
      hide PendingEndings, Ending;
      PendingEndingsGrow(all, done, id, before);
      MinusOneMore(all, done, id);
      EndOnePending(id);
    }

    method EndOnePending(id: R.SessionId)
      requires id in pendingChats
      modifies this`pendingChats, this`ended
      ensures pendingChats == old(pendingChats) - {id}
      ensures ended == old(ended) + Ending(R.InPending(id), old(pendingChats)[id].span)
    {
      var span := pendingChats[id].span;
      if span.Some? { ended := ended + multiset{R.Ended(R.InPending(id), span.value)}; }
      pendingChats := pendingChats - {id};
    }

    method EndSessions(which: set<R.SessionId>)
      modifies this`sessions, this`ended
      ensures View() == old(View()).(sessions := old(sessions) - which, ended := old(ended) + multiset(SessionEndings(old(sessions), which)))
    {
      hide SessionEndings, SessionsEnded;
      EndEachOfSessions(sessions.Keys * which);
      AllSessionsEnded(old(sessions), old(ended), which);
    }

    method EndEachOfSessions(target: set<R.SessionId>)
      requires target <= sessions.Keys
      modifies this`sessions, this`ended
      ensures SessionsEnded(old(sessions), old(ended), target)
    {
      hide SessionEndings, SessionsEnded;
      ghost var all, before, done: set<R.SessionId> := sessions, ended, {};
      var todo := target;
      NoSessionsEnded();
      while todo != {}
        modifies this`sessions, this`ended
        invariant done !! todo && done + todo == target && SessionsEnded(all, before, done)
        decreases |todo|
      {
        var id :| id in todo;
        EndNextOfSessions(all, before, done, id);
        done, todo := done + {id}, todo - {id};
      }
      assert done == target;
    }

    ghost predicate SessionsEnded(all: map<R.SessionId, R.Session>, before: multiset<R.Ended>, done: set<R.SessionId>) reads this`sessions, this`ended {
      sessions == all - done && ended == before + multiset(SessionEndings(all, done))
    }

    lemma NoSessionsEnded()
      ensures SessionsEnded(sessions, ended, {})
    {
      NothingSessionEndings(sessions, {}, ended);
    }

    lemma AllSessionsEnded(all: map<R.SessionId, R.Session>, before: multiset<R.Ended>, which: set<R.SessionId>)
      requires SessionsEnded(all, before, all.Keys * which)
      ensures sessions == all - which && ended == before + multiset(SessionEndings(all, which))
    {
      NothingSessionEndings(all, which, before);
    }

    method EndNextOfSessions(ghost all: map<R.SessionId, R.Session>, ghost before: multiset<R.Ended>, ghost done: set<R.SessionId>, id: R.SessionId)
      requires SessionsEnded(all, before, done) && id in all && id !in done
      modifies this`sessions, this`ended
      ensures SessionsEnded(all, before, done + {id})
    {
      hide SessionEndings, Ending;
      SessionEndingsGrow(all, done, id, before);
      MinusOneMore(all, done, id);
      EndOneSession(id);
    }

    method EndOneSession(id: R.SessionId)
      requires id in sessions
      modifies this`sessions, this`ended
      ensures sessions == old(sessions) - {id}
      ensures ended == old(ended) + Ending(R.InSession(id), old(sessions)[id].span)
    {
      var span := sessions[id].span;
      if span.Some? { ended := ended + multiset{R.Ended(R.InSession(id), span.value)}; }
      sessions := sessions - {id};
    }

    // Ends and drops entries of all four maps.
    method DropAll(ids: set<R.SessionId>, ms: set<R.MessageId>, ps: set<R.SessionId>, cs: set<R.CallId>)
      modifies this`sessions, this`chats, this`pendingChats, this`tools, this`ended
      ensures View() == R.Clear(old(View()), Places(ids, ms, ps, cs))
    {
      hide R.Clear, Places, SessionEndings, ChatEndings, PendingEndings, ToolEndings;
      ClearInParts(View(), ids, ms, ps, cs);
      ghost var before, a, b, c, d := ended, multiset(SessionEndings(sessions, ids)), multiset(ChatEndings(chats, ms)),
        multiset(PendingEndings(pendingChats, ps)), multiset(ToolEndings(tools, cs));
      EndSessions(ids);
      EndChats(ms);
      EndPending(ps);
      EndTools(cs);
      SumUp(before, a, b, c, d);
    }

    method ForgetDiffs(id: R.SessionId)
      modifies this`diffs
      ensures View() == old(View()).(diffs := map k | k in old(diffs) && k.0 != id :: old(diffs)[k])
    {
      diffs := map k | k in diffs && k.0 != id :: diffs[k];
    }

    method ForgetSession(id: R.SessionId)
      modifies this
      ensures View() == R.Apply(cfg, old(View()), R.SessionDeleted(id))
    {
      hide R.Clear, R.PlacesOf, Places, R.Prune;
      var ms, cs := set m | m in chats && chats[m].session == id, set c | c in tools && tools[c].session == id;
      ForgottenPlaces(View(), id);
      DropAll({id}, ms, {id}, cs);
      ForgetDiffs(id);
      PruneCompleted(id);
    }

    method Shutdown()
      modifies this
      ensures View() == R.Apply(cfg, old(View()), R.Shutdown)
    {
      hide R.Clear, Places, R.AllPlaces;
      AllPlacesAre(View());
      DropAll(sessions.Keys, chats.Keys, pendingChats.Keys, tools.Keys);
    }

    method OnCompacted(id: R.SessionId)
      modifies this
      ensures View() == R.Apply(cfg, old(View()), R.Compacted(id))
    {
      LookUp(id);
      var span := StartSpan();
      if span.Some? { ended := ended + multiset{R.Ended(R.Instant, span.value)}; }
    }

    method OnSessionDiff(id: R.SessionId, diff: seq<R.FileDiff>)
      modifies this
      ensures View() == R.Apply(cfg, old(View()), R.SessionDiff(id, diff))
    {
      hide R.Report, R.ReportFile;
      LookUp(id);
      ghost var was := View();
      NothingReported(was, id, diff);
      for i := 0 to |diff|
        invariant View() == R.Report(was, id, diff[..i])
      {
        OneFileMore(was, id, diff, i);
        OnFileDiff(id, diff[i]);
      }
      assert diff[..|diff|] == diff;
    }

    method OnFileDiff(id: R.SessionId, d: R.FileDiff)
      modifies this`diffs, this`lines
      ensures View() == R.ReportFile(old(View()), id, d)
    {
      var k := (id, d.file);
      var previous := if k in diffs then diffs[k] else R.Lines(0, 0);
      var added, removed := Max(0, d.additions - previous.additions), Max(0, d.deletions - previous.deletions);
      diffs := diffs[k := R.Lines(d.additions, d.deletions)];
      lines := lines[k := R.Lines(R.At(lines, k).additions + added, R.At(lines, k).deletions + removed)];
    }

    method OnMessageUpdated(m: R.MessageId, id: R.SessionId, assistant: bool, completed: bool)
      modifies this
      ensures View() == R.Apply(cfg, old(View()), R.MessageUpdated(m, id, assistant, completed))
    {
      if !assistant || m in finalizedMessages { return; }
      LookUp(id);
      FindChat(m, id);
      if completed { FinalizeMessage(m, id); }
    }

    method FindChat(m: R.MessageId, id: R.SessionId)
      modifies this`chats, this`pendingChats, this`nextSpan
      ensures View() == R.EnsureChat(cfg, old(View()), m, id)
    {
      if m in chats { return; }
      var chat;
      if id in pendingChats {
        chat := pendingChats[id];
        pendingChats := pendingChats - {id};
      } else {
        var span := StartSpan();
        chat := R.Chat(id, span);
      }
      chats := chats[m := chat];
    }

    method FinalizeMessage(m: R.MessageId, id: R.SessionId)
      requires id in sessions
      modifies this
      ensures View() == R.Finalize(old(View()), m, id)
    {
      hide R.Clear, ChatEndings;
      ClearChat(View(), m);
      EndChats({m});
      CountMessage(m, id);
    }

    method CountMessage(m: R.MessageId, id: R.SessionId)
      requires id in sessions
      modifies this`finalizedMessages, this`counted, this`sessions
      ensures View() == old(View()).(
        finalizedMessages := old(finalizedMessages)[m := id], counted := old(counted) + multiset{R.Message(m)},
        sessions := old(sessions)[id := old(sessions)[id].(requests := old(sessions)[id].requests + 1)])
    {
      finalizedMessages := finalizedMessages[m := id];
      counted := counted + multiset{R.Message(m)};
      sessions := sessions[id := sessions[id].(requests := sessions[id].requests + 1)];
    }

    method DropPending(id: R.SessionId)
      modifies this`pendingChats, this`ended
      ensures View() == R.Clear(old(View()), {R.InPending(id)})
    {
      hide R.Clear, PendingEndings;
      ClearPending(View(), id);
      EndPending({id});
    }

    method OnChatParams(id: R.SessionId)
      modifies this
      ensures View() == R.Apply(cfg, old(View()), R.ChatParams(id))
    {
      hide R.Clear, R.Touch;
      LookUp(id);
      DropPending(id);
      OpenChat(id);
    }

    method OpenChat(id: R.SessionId)
      modifies this`pendingChats, this`nextSpan
      ensures var was := old(View());
        View() == was.(pendingChats := was.pendingChats[id := R.Chat(id, R.Opened(cfg, was))], nextSpan := R.AfterOpening(cfg, was))
    {
      hide R.Opened, R.AfterOpening;
      var span := StartSpan();
      pendingChats := pendingChats[id := R.Chat(id, span)];
    }

    method OnToolBefore(c: R.CallId, id: R.SessionId, tool: string)
      modifies this
      ensures View() == R.Apply(cfg, old(View()), R.ToolBefore(c, id, tool))
    {
      hide R.Touch;
      LookUp(id);
      var span := None;
      if tool !in cfg.filtered { span := StartSpan(); }
      tools := tools[c := R.Tool(id, tool, span)];
    }

    method EndTool(c: R.CallId)
      modifies this`tools, this`ended
      ensures View() == R.Clear(old(View()), {R.InTool(c)})
    {
      hide R.Clear, ToolEndings;
      ClearTool(View(), c);
      EndTools({c});
    }

    method Charge(c: R.CallId, owner: R.SessionId)
      modifies this`finishedTools, this`counted
      ensures View() == old(View()).(finishedTools := old(finishedTools)[c := owner], counted := old(counted) + multiset{R.Call(c)})
    {
      finishedTools := finishedTools[c := owner];
      counted := counted + multiset{R.Call(c)};
    }

    // First writer wins, whichever hook it is.
    method FinishTool(c: R.CallId, id: R.SessionId)
      modifies this
      ensures View() == R.Apply(cfg, old(View()), R.ToolReported(c, id))
    {
      hide R.Clear, R.Touch;
      if c in finishedTools { return; }
      var owner := if c in tools && tools[c].session != "" then tools[c].session else id;
      EndTool(c);
      Charge(c, owner);
      if owner != "" { LookUp(owner); }
    }
  }

  lemma SumUp(before: multiset<R.Ended>, a: multiset<R.Ended>, b: multiset<R.Ended>, c: multiset<R.Ended>, d: multiset<R.Ended>)
    ensures before + a + b + c + d == before + (a + b + c + d)
  {
  }

  lemma NothingReported(s: R.State, id: R.SessionId, diff: seq<R.FileDiff>)
    ensures R.Report(s, id, diff[..0]) == s
  {
  }

  lemma OneFileMore(s: R.State, id: R.SessionId, diff: seq<R.FileDiff>, i: nat)
    requires i < |diff|
    ensures R.Report(s, id, diff[..i + 1]) == R.ReportFile(R.Report(s, id, diff[..i]), id, diff[i])
  {
    assert diff[..i + 1][..i] == diff[..i];
  }

  lemma AllPlacesAre(s: R.State)
    ensures Places(s.sessions.Keys, s.chats.Keys, s.pendingChats.Keys, s.tools.Keys) == R.AllPlaces(s)
  {
  }

  lemma ForgottenPlaces(s: R.State, id: R.SessionId)
    ensures R.PlacesOf(s, id) ==
      Places({id}, set m | m in s.chats && s.chats[m].session == id, {id}, set c | c in s.tools && s.tools[c].session == id)
  {
  }
}
