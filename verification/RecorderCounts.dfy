/** What the recorder counts: each assistant message and tool call once, and per file the lines that the
    session's cumulative diff gained. */
module RecorderCounts {
  import opened Prelude
  import opened Recorder

  // ---- Once per message and call --------------------------------------------------------

  // The session a finished message or call is remembered under.
  function Done(s: State, k: Key): Option<SessionId> {
    match k
    case Message(m) => if m in s.finalizedMessages then Some(s.finalizedMessages[m]) else None
    case Call(c) => if c in s.finishedTools then Some(s.finishedTools[c]) else None
  }

  // The step reports that k has finished.
  predicate Finishes(st: Step, k: Key) {
    match k
    case Message(m) => st.MessageUpdated? && st.message == m && st.assistant && st.completed
    case Call(c) => st.ToolReported? && st.call == c
  }

  function Owner(s: State, st: Step): SessionId
    requires st.MessageUpdated? || st.ToolReported?
  {
    if st.MessageUpdated? then st.id else OwnerOf(s, st.call, st.id)
  }

  // The step ends the session, so that what finished in it is forgotten.
  predicate EndsSession(s: State, st: Step, id: SessionId) {
    (st.SessionIdle? && st.id == id && id in s.sessions) || (st.SessionDeleted? && st.id == id)
  }

  ghost predicate SameLedger(s: State, t: State) {
    t.finalizedMessages == s.finalizedMessages && t.finishedTools == s.finishedTools && t.counted == s.counted
  }

  lemma {:induction false} ReportKeepsLedger(s: State, id: SessionId, diff: seq<FileDiff>)
    ensures SameLedger(s, Report(s, id, diff))
  {
    if diff != [] { ReportKeepsLedger(s, id, diff[..|diff| - 1]); }
  }

  lemma FinishedMessageIsCounted(cfg: Config, s: State, m: MessageId, id: SessionId)
    requires m !in s.finalizedMessages
    ensures var t := Update(cfg, s, m, id, true, true);
      && t.finalizedMessages == s.finalizedMessages[m := id] && t.finishedTools == s.finishedTools
      && t.counted == s.counted + multiset{Message(m)} && id in t.sessions
  {
    hide Clear, EnsureChat, Touch, Finalize;
    var t := EnsureChat(cfg, Touch(s, id), m, id);
    TouchKeepsLedger(s, id);
    EnsureChatKeepsLedger(cfg, Touch(s, id), m, id);
    FinalizeLedger(t, m, id);
  }

  lemma TouchKeepsLedger(s: State, id: SessionId)
    ensures SameLedger(s, Touch(s, id))
  {
    hide Touch;
  }

  lemma EnsureChatKeepsLedger(cfg: Config, s: State, m: MessageId, id: SessionId)
    ensures SameLedger(s, EnsureChat(cfg, s, m, id))
  {
    hide EnsureChat;
  }

  lemma FinalizeLedger(s: State, m: MessageId, id: SessionId)
    requires id in s.sessions
    ensures var t := Finalize(s, m, id);
      && t.finalizedMessages == s.finalizedMessages[m := id] && t.finishedTools == s.finishedTools
      && t.counted == s.counted + multiset{Message(m)} && id in t.sessions
  {
    hide Clear;
    ClearKeepsLedger(s, {InChat(m)});
  }

  lemma FinishedCallIsCounted(s: State, c: CallId, id: SessionId)
    requires c !in s.finishedTools
    ensures var t := FinishTool(s, c, id);
      && t.finishedTools == s.finishedTools[c := OwnerOf(s, c, id)] && t.finalizedMessages == s.finalizedMessages
      && t.counted == s.counted + multiset{Call(c)}
  {
    hide Clear;
    ClearKeepsLedger(s, {InTool(c)});
  }

  lemma FinishingIsCounted(cfg: Config, s: State, st: Step, k: Key)
    requires Finishes(st, k) && Done(s, k).None?
    ensures Done(Apply(cfg, s, st), k) == Some(Owner(s, st))
    ensures Apply(cfg, s, st).counted[k] == s.counted[k] + 1
  {
    hide Update, FinishTool;
    match k {
      case Message(m) => FinishedMessageIsCounted(cfg, s, m, st.id);
      case Call(c) => FinishedCallIsCounted(s, c, st.id);
    }
  }

  lemma ClearKeepsLedger(s: State, places: set<Place>)
    ensures SameLedger(s, Clear(s, places)) && Clear(s, places).diffs == s.diffs && Clear(s, places).lines == s.lines
  {
  }

  lemma EndingForgets(cfg: Config, s: State, st: Step, k: Key)
    requires st.SessionIdle? || st.SessionDeleted?
    ensures var t := Apply(cfg, s, st);
      && t.counted == s.counted
      && Done(t, k) == if Done(s, k).Some? && EndsSession(s, st, Done(s, k).value) then None else Done(s, k)
  {
    hide Idle, Forget;
    if st.SessionDeleted? { AfterForgetting(s, st.id); }
    else if st.id in s.sessions { AfterIdling(s, st.id); }
    else { AfterNothing(s, st.id); }
  }

  lemma AfterNothing(s: State, id: SessionId)
    requires id !in s.sessions
    ensures Idle(s, id) == s
  {
  }

  lemma AfterIdling(s: State, id: SessionId)
    requires id in s.sessions
    ensures Idle(s, id).counted == s.counted
    ensures Idle(s, id).finalizedMessages == Prune(s, id).finalizedMessages
    ensures Idle(s, id).finishedTools == Prune(s, id).finishedTools
  {
    hide Clear;
    ClearKeepsLedger(s, {InSession(id)});
  }

  lemma AfterForgetting(s: State, id: SessionId)
    ensures Forget(s, id).counted == s.counted
    ensures Forget(s, id).finalizedMessages == Prune(s, id).finalizedMessages
    ensures Forget(s, id).finishedTools == Prune(s, id).finishedTools
  {
    hide Clear, PlacesOf;
    ClearKeepsLedger(s, PlacesOf(s, id));
  }

  lemma UnfinishedUpdateKeepsLedger(cfg: Config, s: State, m: MessageId, id: SessionId, assistant: bool, completed: bool)
    requires !assistant || !completed || m in s.finalizedMessages
    ensures SameLedger(s, Update(cfg, s, m, id, assistant, completed))
  {
    hide EnsureChat, Touch, Finalize;
    TouchKeepsLedger(s, id);
    EnsureChatKeepsLedger(cfg, Touch(s, id), m, id);
  }

  lemma QuietStepsKeepLedger(cfg: Config, s: State, st: Step)
    requires !st.SessionIdle? && !st.SessionDeleted? && !st.MessageUpdated? && !st.ToolReported?
    ensures SameLedger(s, Apply(cfg, s, st))
  {
    hide Clear, Report, Touch, Begin, Create, OpenPending, EndInstantly, SameLedger;
    match st {
      case SessionCreated(id) => SmallStepsKeepLedger(cfg, s, id, "", "");
      case Compacted(id) => SmallStepsKeepLedger(cfg, s, id, "", "");
      case Noted(id) => TouchKeepsLedger(s, id);
      case SessionDiff(id, diff) =>
        TouchKeepsLedger(s, id);
        ReportKeepsLedger(Touch(s, id), id, diff);
        SameLedgerTwice(s, Touch(s, id), Report(Touch(s, id), id, diff));
      case ChatParams(id) => OpenPendingKeepsLedger(cfg, s, id);
      case ToolBefore(c, id, tool) => SmallStepsKeepLedger(cfg, s, id, c, tool);
      case Shutdown => ClearKeepsLedger(s, AllPlaces(s));
    }
  }

  lemma SameLedgerTwice(s: State, t: State, u: State)
    requires SameLedger(s, t) && SameLedger(t, u)
    ensures SameLedger(s, u)
  {
  }

  lemma SmallStepsKeepLedger(cfg: Config, s: State, id: SessionId, c: CallId, tool: string)
    ensures SameLedger(s, Create(cfg, s, id)) && SameLedger(s, EndInstantly(cfg, Touch(s, id)))
    ensures SameLedger(s, Begin(cfg, s, c, id, tool))
  {
    hide Touch;
    TouchKeepsLedger(s, id);
    BeginKeepsLedger(cfg, s, id, c, tool);
  }

  lemma BeginKeepsLedger(cfg: Config, s: State, id: SessionId, c: CallId, tool: string)
    ensures SameLedger(Touch(s, id), Begin(cfg, s, c, id, tool))
  {
    hide Touch;
  }

  lemma OpenPendingKeepsLedger(cfg: Config, s: State, id: SessionId)
    ensures SameLedger(s, OpenPending(cfg, s, id))
  {
    hide Clear, Touch;
    TouchKeepsLedger(s, id);
    ClearKeepsLedger(Touch(s, id), {InPending(id)});
  }

  lemma OthersKeepLedger(cfg: Config, s: State, st: Step, k: Key)
    requires !st.SessionIdle? && !st.SessionDeleted?
    requires !Finishes(st, k) || Done(s, k).Some?
    ensures Done(Apply(cfg, s, st), k) == Done(s, k) && Apply(cfg, s, st).counted[k] == s.counted[k]
  {
    hide Update, FinishTool, Report, Clear;
    if st.MessageUpdated? {
      if st.assistant && st.completed && st.message !in s.finalizedMessages {
        FinishedMessageIsCounted(cfg, s, st.message, st.id);
      } else {
        UnfinishedUpdateKeepsLedger(cfg, s, st.message, st.id, st.assistant, st.completed);
      }
    } else if st.ToolReported? {
      if st.call in s.finishedTools { AgainChangesNothing(s, st.call, st.id); } else { FinishedCallIsCounted(s, st.call, st.id); }
    } else {
      QuietStepsKeepLedger(cfg, s, st);
    }
  }

  lemma AgainChangesNothing(s: State, c: CallId, id: SessionId)
    requires c in s.finishedTools
    ensures FinishTool(s, c, id) == s
  {
  }

  // A key is counted exactly by a step that reports it finished while it is not remembered as such, and
  // forgotten exactly by the end of the session it is remembered under.
  ghost predicate LedgerLaw(s: State, st: Step, t: State, k: Key) {
    && t.counted[k] == s.counted[k] + (if Finishes(st, k) && Done(s, k).None? then 1 else 0)
    && Done(t, k) == (if Finishes(st, k) && Done(s, k).None? then Some(Owner(s, st))
                      else if Done(s, k).Some? && EndsSession(s, st, Done(s, k).value) then None
                      else Done(s, k))
  }

  /** Every step obeys the ledger's law for every message and call. */
  lemma LedgerStep(cfg: Config, s: State, st: Step, k: Key)
    ensures LedgerLaw(s, st, Apply(cfg, s, st), k)
  {
    hide Apply;
    if Finishes(st, k) && Done(s, k).None? {
      FinishingIsCounted(cfg, s, st, k);
    } else if st.SessionIdle? || st.SessionDeleted? {
      EndingForgets(cfg, s, st, k);
    } else {
      OthersKeepLedger(cfg, s, st, k);
    }
  }

  // The session has ended strictly between step i and state n.
  ghost predicate EndedSince(tr: seq<State>, steps: seq<Step>, id: SessionId, i: nat, n: nat)
    requires n < |tr| == |steps| + 1
  {
    exists j :: i < j < n && EndsSession(tr[j], steps[j], id)
  }

  // Nobody reports a message or call again once the session it finished in has ended.
  ghost predicate NoLateReports(tr: seq<State>, steps: seq<Step>, k: Key)
    requires |tr| == |steps| + 1
  {
    forall i, l | 0 <= i < l < |steps| && Finishes(steps[i], k) && Done(tr[i + 1], k).Some? &&
                  EndedSince(tr, steps, Done(tr[i + 1], k).value, i, l) :: !Finishes(steps[l], k)
  }

  // `first` is the first report of k before state n, or n if there was none.
  ghost predicate Ledger(tr: seq<State>, steps: seq<Step>, k: Key, n: nat, first: nat)
    requires n < |tr| == |steps| + 1
  {
    && first <= n && (forall i | 0 <= i < first :: !Finishes(steps[i], k))
    && (first == n ==> tr[n].counted[k] == 0 && Done(tr[n], k).None?)
    && (first < n ==>
          && tr[n].counted[k] == 1 && Finishes(steps[first], k) && Done(tr[first + 1], k).Some?
          && (Done(tr[n], k) == Done(tr[first + 1], k) || EndedSince(tr, steps, Done(tr[first + 1], k).value, first, n)))
  }

  lemma {:induction false} LedgerHolds(cfg: Config, tr: seq<State>, steps: seq<Step>, k: Key, n: nat) returns (first: nat)
    requires IsRun(cfg, tr, steps) && n < |tr| && NoLateReports(tr, steps, k)
    ensures Ledger(tr, steps, k, n, first)
  {
    hide Apply, Done, LedgerLaw, Finishes, NoLateReports;
    if n == 0 {
      NothingDone(k);
      first := 0;
    } else {
      var before := LedgerHolds(cfg, tr, steps, k, n - 1);
      LedgerStep(cfg, tr[n - 1], steps[n - 1], k);
      first := LedgerGoesOn(tr, steps, k, n, before);
    }
  }

  lemma NothingDone(k: Key)
    ensures Done(START, k).None? && START.counted[k] == 0
  {
  }

  lemma LedgerGoesOn(tr: seq<State>, steps: seq<Step>, k: Key, n: nat, before: nat) returns (first: nat)
    requires 0 < n < |tr| == |steps| + 1 && NoLateReports(tr, steps, k) && Ledger(tr, steps, k, n - 1, before)
    requires LedgerLaw(tr[n - 1], steps[n - 1], tr[n], k)
    ensures Ledger(tr, steps, k, n, first)
  {
    hide Done, EndsSession, Finishes, EndedSince;
    first := if before < n - 1 || Finishes(steps[n - 1], k) then before else n;
    if before < n - 1 {
      var id := Done(tr[before + 1], k).value;
      EndsLater(tr, steps, id, before, n);
    }
  }

  lemma EndsLater(tr: seq<State>, steps: seq<Step>, id: SessionId, i: nat, n: nat)
    requires i + 1 < n < |tr| == |steps| + 1
    ensures EndedSince(tr, steps, id, i, n) <==> EndedSince(tr, steps, id, i, n - 1) || EndsSession(tr[n - 1], steps[n - 1], id)
  {
  }

  // From a state that remembers k on, or that has forgotten it once.
  lemma {:induction false} CountsOnlyGrow(cfg: Config, tr: seq<State>, steps: seq<Step>, k: Key, i: nat, n: nat)
    requires IsRun(cfg, tr, steps) && i <= n < |tr|
    ensures tr[i].counted[k] <= tr[n].counted[k]
    ensures Done(tr[n], k).Some? ==> tr[n].counted[k] >= 1
    ensures tr[i].counted[k] >= 1 && Done(tr[i], k).None? && Done(tr[n], k).Some? ==> tr[n].counted[k] >= 2
    decreases n
  {
    hide Apply, Done, Finishes, EndsSession;
    if n == 0 {
      NothingDone(k);
    } else {
      LedgerStep(cfg, tr[n - 1], steps[n - 1], k);
      if i < n {
        CountsOnlyGrow(cfg, tr, steps, k, i, n - 1);
      } else {
        CountsOnlyGrow(cfg, tr, steps, k, n - 1, n - 1);
      }
    }
  }

  // While nothing forgets k it stays remembered under the same session.
  lemma {:induction false} RememberedOrForgotten(cfg: Config, tr: seq<State>, steps: seq<Step>, k: Key, i: nat, n: nat) returns (m: nat)
    requires IsRun(cfg, tr, steps) && i <= n < |tr| && Done(tr[i], k).Some?
    ensures i <= m <= n
    ensures if Done(tr[n], k) == Done(tr[i], k) then m == n else Done(tr[m], k).None?
    decreases n - i
  {
    hide Apply, Done, Finishes, EndsSession;
    if n == i {
      m := n;
    } else {
      m := RememberedOrForgotten(cfg, tr, steps, k, i, n - 1);
      LedgerStep(cfg, tr[n - 1], steps[n - 1], k);
      if Done(tr[n], k) == Done(tr[i], k) || Done(tr[n - 1], k) == Done(tr[i], k) { m := n; }
    }
  }

  // A report after the session it finished in has ended finds k forgotten or counted again.
  lemma LateReportIsCounted(cfg: Config, tr: seq<State>, steps: seq<Step>, k: Key, i: nat, l: nat)
    requires IsRun(cfg, tr, steps) && i < l < |steps|
    requires Finishes(steps[i], k) && Finishes(steps[l], k) && Done(tr[i + 1], k).Some?
    requires EndedSince(tr, steps, Done(tr[i + 1], k).value, i, l)
    ensures tr[l + 1].counted[k] >= 2
  {
    hide Apply, Done, Finishes, EndsSession;
    var j :| i < j < l && EndsSession(tr[j], steps[j], Done(tr[i + 1], k).value);
    var m := RememberedOrForgotten(cfg, tr, steps, k, i + 1, j);
    LedgerStep(cfg, tr[j], steps[j], k);
    EndingIsNoReport(tr[j], steps[j], Done(tr[i + 1], k).value, k);
    if Done(tr[j], k) == Done(tr[i + 1], k) { m := j + 1; }
    CountsOnlyGrow(cfg, tr, steps, k, i + 1, i + 1);
    CountsOnlyGrow(cfg, tr, steps, k, i + 1, m);
    CountsOnlyGrow(cfg, tr, steps, k, m, l);
    LedgerStep(cfg, tr[l], steps[l], k);
  }

  lemma EndingIsNoReport(s: State, st: Step, id: SessionId, k: Key)
    requires EndsSession(s, st, id)
    ensures !Finishes(st, k)
  {
  }

  lemma NoneUpToOne(cfg: Config, tr: seq<State>, steps: seq<Step>, k: Key)
    requires IsRun(cfg, tr, steps) && tr[|steps|].counted[k] <= 1
    ensures NoLateReports(tr, steps, k)
  {
    hide Apply, Done, Finishes, EndedSince;
    forall i, l | 0 <= i < l < |steps| && Finishes(steps[i], k) && Done(tr[i + 1], k).Some? &&
                  EndedSince(tr, steps, Done(tr[i + 1], k).value, i, l) ensures !Finishes(steps[l], k) {
      if Finishes(steps[l], k) {
        LateReportIsCounted(cfg, tr, steps, k, i, l);
        CountsOnlyGrow(cfg, tr, steps, k, l + 1, |steps|);
      }
    }
  }

  /** Over any event sequence, whichever report comes first and however many follow, each assistant message
      and each tool call that is reported is counted exactly once if and only if none is reported again
      after the session it finished in has ended; it is then counted more often. */
  lemma CountedExactlyOnce(cfg: Config, tr: seq<State>, steps: seq<Step>, k: Key)
    requires IsRun(cfg, tr, steps)
    ensures tr[|steps|].counted[k] == (if exists i :: 0 <= i < |steps| && Finishes(steps[i], k) then 1 else 0)
            <==> NoLateReports(tr, steps, k)
    ensures !NoLateReports(tr, steps, k) ==> tr[|steps|].counted[k] >= 2
  {
    hide Apply, Done, Finishes, NoLateReports;
    if NoLateReports(tr, steps, k) {
      var first := LedgerHolds(cfg, tr, steps, k, |steps|);
    }
    if tr[|steps|].counted[k] <= 1 { NoneUpToOne(cfg, tr, steps, k); }
  }

  /** Such a run: a message reported again after its session idled is counted again. */
  lemma LateReportCountsTwice(cfg: Config, m: MessageId, id: SessionId)
    ensures var update := MessageUpdated(m, id, true, true);
      Apply(cfg, Apply(cfg, Apply(cfg, START, update), SessionIdle(id)), update).counted[Message(m)] == 2
  {
    hide Apply, Clear;
    var update, k := MessageUpdated(m, id, true, true), Message(m);
    var s1 := Apply(cfg, START, update);
    var s2 := Apply(cfg, s1, SessionIdle(id));
    NothingDone(k);
    LedgerStep(cfg, START, update, k);
    UpdatedSessionLives(cfg, m, id);
    LedgerStep(cfg, s1, SessionIdle(id), k);
    LedgerStep(cfg, s2, update, k);
  }

  lemma UpdatedSessionLives(cfg: Config, m: MessageId, id: SessionId)
    ensures id in Apply(cfg, START, MessageUpdated(m, id, true, true)).sessions
  {
    FinishedMessageIsCounted(cfg, START, m, id);
  }

  // ---- Lines ----------------------------------------------------------------------------

  type FileKey = (SessionId, string)

  // What a step reports for a file, in order; the same file may come twice in one report.
  function ReportsIn(diff: seq<FileDiff>, file: string): seq<Lines> {
    if diff == [] then []
    else
      var d := diff[|diff| - 1];
      ReportsIn(diff[..|diff| - 1], file) + if d.file == file then [Lines(d.additions, d.deletions)] else []
  }

  function Reports(st: Step, k: FileKey): seq<Lines> {
    if st.SessionDiff? && st.id == k.0 then ReportsIn(st.diff, k.1) else []
  }

  function AllReports(steps: seq<Step>, k: FileKey): seq<Lines> {
    if steps == [] then [] else AllReports(steps[..|steps| - 1], k) + Reports(steps[|steps| - 1], k)
  }

  function Last(rs: seq<Lines>): Lines { if rs == [] then Lines(0, 0) else rs[|rs| - 1] }

  // How much the reported totals went down, in all.
  function Shrunk(rs: seq<Lines>): Lines {
    if rs == [] then Lines(0, 0)
    else
      var before, prev, last := Shrunk(rs[..|rs| - 1]), Last(rs[..|rs| - 1]), rs[|rs| - 1];
      Lines(before.additions + Max(0, prev.additions - last.additions), before.deletions + Max(0, prev.deletions - last.deletions))
  }

  predicate NeverShrinks(rs: seq<Lines>) {
    forall i | 0 <= i < |rs| - 1 :: rs[i].additions <= rs[i + 1].additions && rs[i].deletions <= rs[i + 1].deletions
  }

  // The lines counted are the last total plus everything the totals lost on the way.
  ghost predicate CountedLines(s: State, k: FileKey, rs: seq<Lines>) {
    && At(s.diffs, k) == Last(rs)
    && At(s.lines, k) == Lines(Last(rs).additions + Shrunk(rs).additions, Last(rs).deletions + Shrunk(rs).deletions)
  }

  lemma OneReportCounts(s: State, id: SessionId, d: FileDiff, k: FileKey, rs: seq<Lines>)
    requires CountedLines(s, k, rs)
    ensures CountedLines(ReportFile(s, id, d), k, rs + if k == (id, d.file) then [Lines(d.additions, d.deletions)] else [])
  {
    if k == (id, d.file) {
      assert (rs + [Lines(d.additions, d.deletions)])[..|rs|] == rs;
    } else {
      assert rs + [] == rs;
    }
  }

  lemma {:induction false} DiffCounts(s: State, id: SessionId, diff: seq<FileDiff>, k: FileKey, rs: seq<Lines>)
    requires CountedLines(s, k, rs)
    ensures CountedLines(Report(s, id, diff), k, rs + if k.0 == id then ReportsIn(diff, k.1) else [])
  {
    hide CountedLines;
    if diff == [] {
      assert rs + [] == rs;
    } else {
      var before, d := diff[..|diff| - 1], diff[|diff| - 1];
      DiffCounts(s, id, before, k, rs);
      var more := if k.0 == id then ReportsIn(before, k.1) else [];
      OneReportCounts(Report(s, id, before), id, d, k, rs + more);
      assert k == (id, d.file) <==> k.0 == id && k.1 == d.file;
      assert rs + more + [] == rs + more && rs + more + [Lines(d.additions, d.deletions)] == rs + (more + [Lines(d.additions, d.deletions)]);
      assert rs + (more + []) == rs + more;
    }
  }

  ghost predicate SameLines(s: State, t: State) { t.diffs == s.diffs && t.lines == s.lines }

  lemma TouchKeepsLines(s: State, id: SessionId)
    ensures SameLines(s, Touch(s, id))
  {
    hide Touch;
  }

  lemma UpdateKeepsLines(cfg: Config, s: State, m: MessageId, id: SessionId, assistant: bool, completed: bool)
    ensures SameLines(s, Update(cfg, s, m, id, assistant, completed))
  {
    hide Clear, EnsureChat, Touch;
    var t := EnsureChat(cfg, Touch(s, id), m, id);
    TouchKeepsLines(s, id);
    ChatKeepsLines(cfg, Touch(s, id), m, id);
    ClearKeepsLedger(t, {InChat(m)});
  }

  lemma ChatKeepsLines(cfg: Config, s: State, m: MessageId, id: SessionId)
    ensures SameLines(s, EnsureChat(cfg, s, m, id))
  {
    hide EnsureChat;
  }

  lemma OpeningKeepsLines(cfg: Config, s: State, id: SessionId, c: CallId, tool: string)
    ensures SameLines(s, OpenPending(cfg, s, id)) && SameLines(s, Begin(cfg, s, c, id, tool))
  {
    hide Clear, Touch;
    TouchKeepsLines(s, id);
    ClearKeepsLedger(Touch(s, id), {InPending(id)});
  }

  lemma FinishToolKeepsLines(s: State, c: CallId, id: SessionId)
    ensures SameLines(s, FinishTool(s, c, id))
  {
    hide Clear, Touch, OwnerOf;
    ClearKeepsLedger(s, {InTool(c)});
    if c !in s.finishedTools {
      var owner := OwnerOf(s, c, id);
      TouchKeepsLines(Clear(s, {InTool(c)}).(finishedTools := s.finishedTools[c := owner], counted := s.counted + multiset{Call(c)}), owner);
    }
  }

  lemma OtherStepsKeepLines(cfg: Config, s: State, st: Step)
    requires !st.SessionDiff? && !st.SessionDeleted?
    ensures SameLines(s, Apply(cfg, s, st))
  {
    hide Clear, Update, OpenPending, Begin, FinishTool, Touch;
    match st {
      case SessionIdle(id) => ClearKeepsLedger(s, {InSession(id)});
      case Compacted(id) => TouchKeepsLines(s, id);
      case Noted(id) => TouchKeepsLines(s, id);
      case MessageUpdated(m, id, assistant, completed) => UpdateKeepsLines(cfg, s, m, id, assistant, completed);
      case ChatParams(id) => OpeningKeepsLines(cfg, s, id, "", "");
      case ToolBefore(c, id, tool) => OpeningKeepsLines(cfg, s, id, c, tool);
      case ToolReported(c, id) => FinishToolKeepsLines(s, c, id);
      case Shutdown => ClearKeepsLedger(s, AllPlaces(s));
      case _ =>
    }
  }

  lemma DeletingOthersKeepsLines(cfg: Config, s: State, id: SessionId, k: FileKey)
    requires k.0 != id
    ensures At(Apply(cfg, s, SessionDeleted(id)).diffs, k) == At(s.diffs, k)
    ensures Apply(cfg, s, SessionDeleted(id)).lines == s.lines
  {
    hide Clear;
    ClearKeepsLedger(s, PlacesOf(s, id));
  }

  /** While its session is not deleted, the lines counted for a file exceed the last reported total by
      exactly what the reported totals went down on the way, across any number of idles. */
  lemma {:induction false} LinesCounted(cfg: Config, tr: seq<State>, steps: seq<Step>, k: FileKey, n: nat)
    requires IsRun(cfg, tr, steps) && n < |tr|
    requires forall i | 0 <= i < n :: steps[i] != SessionDeleted(k.0)
    ensures CountedLines(tr[n], k, AllReports(steps[..n], k))
  {
    if n > 0 {
      var s, st, rs := tr[n - 1], steps[n - 1], AllReports(steps[..n - 1], k);
      LinesCounted(cfg, tr, steps, k, n - 1);
      assert steps[..n][..n - 1] == steps[..n - 1];
      LineStep(cfg, s, st, k, rs);
    }
  }

  lemma LineStep(cfg: Config, s: State, st: Step, k: FileKey, rs: seq<Lines>)
    requires CountedLines(s, k, rs) && st != SessionDeleted(k.0)
    ensures CountedLines(Apply(cfg, s, st), k, rs + Reports(st, k))
  {
    hide Report, Clear, EnsureChat;
    assert rs + [] == rs;
    if st.SessionDiff? {
      DiffCounts(Touch(s, st.id), st.id, st.diff, k, rs);
    } else if st.SessionDeleted? {
      DeletingOthersKeepsLines(cfg, s, st.id, k);
    } else {
      OtherStepsKeepLines(cfg, s, st);
    }
  }

  lemma NeverShrinksOneMore(rs: seq<Lines>, last: Lines)
    ensures NeverShrinks(rs + [last]) <==>
      NeverShrinks(rs) && (rs == [] || (Last(rs).additions <= last.additions && Last(rs).deletions <= last.deletions))
  {
    var all := rs + [last];
    if NeverShrinks(all) {
      forall i | 0 <= i < |rs| - 1 ensures rs[i].additions <= rs[i + 1].additions && rs[i].deletions <= rs[i + 1].deletions {
        assert all[i] == rs[i] && all[i + 1] == rs[i + 1];
      }
      if rs != [] { assert all[|rs| - 1] == Last(rs) && all[|rs| - 1 + 1] == last; }
    }
  }

  lemma {:induction false} ShrinksExactly(rs: seq<Lines>)
    ensures NeverShrinks(rs) <==> Shrunk(rs) == Lines(0, 0)
  {
    hide NeverShrinks;
    if rs == [] {
      NothingShrinks();
    } else {
      var before, last := rs[..|rs| - 1], rs[|rs| - 1];
      ShrinksExactly(before);
      NeverShrinksOneMore(before, last);
      assert before + [last] == rs;
    }
  }

  lemma NothingShrinks()
    ensures NeverShrinks([])
  {
  }

  /** The lines counted for a file equal its last reported total exactly when the totals never shrank. */
  lemma LinesEqualLastReportExactly(cfg: Config, tr: seq<State>, steps: seq<Step>, k: FileKey, n: nat)
    requires IsRun(cfg, tr, steps) && n < |tr|
    requires forall i | 0 <= i < n :: steps[i] != SessionDeleted(k.0)
    ensures At(tr[n].lines, k) == Last(AllReports(steps[..n], k)) <==> NeverShrinks(AllReports(steps[..n], k))
  {
    LinesCounted(cfg, tr, steps, k, n);
    ShrinksExactly(AllReports(steps[..n], k));
  }

  // ---- The keys of the diff map ---------------------------------------------------------

  const NUL := 0 as char

  function DiffKey(id: string, file: string): string { id + [NUL] + file }

  function DiffKeyPrefix(id: string): string { id + [NUL] }

  /** Session ids hold no NUL, so a key names one session and one file, and a session's prefix finds
      exactly its own keys: the map may as well be keyed by pairs. */
  lemma DiffKeysArePairs(id: string, file: string, id': string, file': string)
    requires NUL !in id && NUL !in id'
    ensures DiffKey(id, file) == DiffKey(id', file') <==> id == id' && file == file'
    ensures DiffKeyPrefix(id') <= DiffKey(id, file) <==> id == id'
  {
    if DiffKeyPrefix(id') <= DiffKey(id, file) { PrefixNamesSession(id, file, id'); }
    if DiffKey(id, file) == DiffKey(id', file') {
      assert DiffKeyPrefix(id') <= DiffKey(id', file');
      PrefixNamesSession(id, file, id');
      assert DiffKey(id, file)[|id| + 1..] == file && DiffKey(id, file')[|id| + 1..] == file';
    }
  }

  lemma PrefixNamesSession(id: string, file: string, id': string)
    requires NUL !in id && NUL !in id' && DiffKeyPrefix(id') <= DiffKey(id, file)
    ensures id == id'
  {
    var key := DiffKey(id, file);
    assert key[|id'|] == DiffKeyPrefix(id')[|id'|] == NUL && key[|id|] == NUL;
    forall i | 0 <= i < |id| ensures key[i] != NUL { assert key[i] == id[i] && id[i] in id; }
    forall i | 0 <= i < |id'| ensures DiffKeyPrefix(id')[i] != NUL { assert DiffKeyPrefix(id')[i] == id'[i] && id'[i] in id'; }
    assert key[..|id|] == id && DiffKeyPrefix(id')[..|id'|] == id';
  }
}
