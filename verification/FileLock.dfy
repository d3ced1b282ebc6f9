/** The advisory lock file of packages/opencode-auth-core/src/lock.ts.

    Any number of attempts run `acquireFileLock` on one path. A state holds the clock, the
    file, and where each attempt stands; a label is one system call (or one clock tick)
    together with what the operating system answered. The file remembers which attempt
    created it only so that properties can be stated: no branch of `Apply` that the source
    also has reads it, except that a late payload write reaches the path only while the
    path still names the writer's own file. */
module FileLock {
  import opened Prelude

  type Attempt = nat

  datatype LockFile = LockFile(creator: Attempt, stamp: int)

  datatype Reason = Unwritable | Timeout

  datatype Phase =
    | Idle
    | Creating(deadline: int)                // about to open(path, "wx")
    | Stamping(deadline: int)                // file created, payload not written yet
    | Holding
    | Contended(deadline: int)               // EEXIST, about to read the age
    | Breaking(deadline: int)                // the age was over staleMs, about to unlink
    | Sleeping(deadline: int, until: int)
    | Unlocked(reason: Reason)               // acquired: false, the caller proceeds anyway
    | Crashed

  // positiveOr makes every setting positive.
  datatype Settings = Settings(staleMs: int, pollMs: int, maxWaitMs: int) {
    predicate Valid() { staleMs > 0 && pollMs > 0 && maxWaitMs > 0 }
  }

  datatype State = State(now: int, file: Option<LockFile>, phase: map<Attempt, Phase>) {
    function At(p: Attempt): Phase { if p in phase then phase[p] else Idle }
    function Goto(p: Attempt, ph: Phase): State { this.(phase := phase[p := ph]) }
  }

  datatype Label =
    | Start(p: Attempt, mkdirOk: bool)
    | Create(p: Attempt, writable: bool)
    | Stamp(p: Attempt, written: bool)
    | ReadAge(p: Attempt, readable: bool)
    | Break(p: Attempt, permitted: bool)
    | Wake(p: Attempt)
    | Release(p: Attempt)
    | Crash(p: Attempt)
    | Tick(ms: nat)

  predicate Enabled(s: State, l: Label) {
    match l
    case Start(p, _) => s.At(p).Idle?
    case Create(p, _) => s.At(p).Creating?
    case Stamp(p, _) => s.At(p).Stamping?
    case ReadAge(p, _) => s.At(p).Contended?
    case Break(p, _) => s.At(p).Breaking?
    case Wake(p) => s.At(p).Sleeping? && s.At(p).until <= s.now
    case Release(p) => s.At(p).Holding?
    case Crash(p) => !s.At(p).Crashed?
    case Tick(_) => true
  }

  // The tail shared by every unsuccessful round: give up at the deadline, else go on.
  function OrTimeout(s: State, p: Attempt, deadline: int, otherwise: Phase): State {
    s.Goto(p, if s.now >= deadline then Unlocked(Timeout) else otherwise)
  }

  function Apply(c: Settings, s: State, l: Label): State
    requires Enabled(s, l)
  {
    match l
    case Start(p, mkdirOk) =>
      s.Goto(p, if mkdirOk then Creating(s.now + c.maxWaitMs) else Unlocked(Unwritable))
    case Create(p, writable) =>
      if !writable then s.Goto(p, Unlocked(Unwritable))
      else if s.file.None? then
        s.(file := Some(LockFile(p, s.now))).Goto(p, Stamping(s.At(p).deadline))
      else s.Goto(p, Contended(s.At(p).deadline))
    case Stamp(p, written) =>
      if !written then s.Goto(p, Unlocked(Unwritable))
      else
        var own := s.file.Some? && s.file.value.creator == p;
        s.(file := if own then Some(LockFile(p, s.now)) else s.file).Goto(p, Holding)
    case ReadAge(p, readable) =>
      var d := s.At(p).deadline;
      if s.file.None? then OrTimeout(s, p, d, Creating(d))
      else if !readable || s.now - s.file.value.stamp > c.staleMs then s.Goto(p, Breaking(d))
      else OrTimeout(s, p, d, Sleeping(d, s.now + c.pollMs))
    case Break(p, permitted) =>
      var d := s.At(p).deadline;
      var removed := permitted && s.file.Some?;
      OrTimeout(if removed then s.(file := None) else s, p, d,
                if removed then Creating(d) else Sleeping(d, s.now + c.pollMs))
    case Wake(p) => s.Goto(p, Creating(s.At(p).deadline))
    case Release(p) => s.(file := None).Goto(p, Idle)
    case Crash(p) => s.Goto(p, Crashed)
    case Tick(ms) => s.(now := s.now + ms)
  }

  ghost predicate IsRun(c: Settings, tr: seq<State>, ls: seq<Label>) {
    && c.Valid()
    && |tr| == |ls| + 1
    && forall i | 0 <= i < |ls| :: Enabled(tr[i], ls[i]) && tr[i + 1] == Apply(c, tr[i], ls[i])
  }

  ghost predicate Initial(s: State) { s.file.None? && s.phase == map[] }

  predicate Holds(s: State, p: Attempt) { s.At(p).Stamping? || s.At(p).Holding? }

  ghost predicate Exclusive(s: State) {
    forall p, q | Holds(s, p) && Holds(s, q) :: p == q
  }

  // The path names the file of whoever holds the lock.
  ghost predicate HolderOwnsFile(s: State) {
    forall p | Holds(s, p) :: s.file.Some? && s.file.value.creator == p
  }

  // A Break that unlinks the file of an attempt that still holds the lock.
  predicate Robs(s: State, l: Label) {
    l.Break? && l.permitted && s.file.Some? && Holds(s, s.file.value.creator)
  }

  // ---- Getting the lock -----------------------------------------------------------------

  predicate Favours(l: Label, p: Attempt) {
    l in {Create(p, true), Stamp(p, true), ReadAge(p, true), Break(p, true), Wake(p)}
  }

  // Only p takes steps, the file system lets it, and no time passes.
  predicate Undisturbed(ls: seq<Label>, p: Attempt) { forall i | 0 <= i < |ls| :: Favours(ls[i], p) }

  predicate Old(c: Settings, s: State) { s.file.Some? && s.now > s.file.value.stamp + c.staleMs }

  lemma OneStep(c: Settings, tr: seq<State>, ls: seq<Label>, p: Attempt, i: nat)
    requires IsRun(c, tr, ls) && Undisturbed(ls, p) && i < |ls|
    ensures Enabled(tr[i], ls[i]) && tr[i + 1] == Apply(c, tr[i], ls[i])
    ensures Favours(ls[i], p)
  {
  }

  lemma Creates(c: Settings, tr: seq<State>, ls: seq<Label>, p: Attempt, i: nat)
    requires IsRun(c, tr, ls) && Undisturbed(ls, p) && i + 2 <= |ls| && tr[i].At(p).Creating? && tr[i].file.None?
    ensures tr[i + 2].At(p).Holding? && tr[i + 2].file == Some(LockFile(p, tr[i].now))
  {
    OneStep(c, tr, ls, p, i);
    OneStep(c, tr, ls, p, i + 1);
  }

  /** Left to itself before its deadline, an attempt holds a free path after two steps, and one whose file is
      older than staleMs after five; a younger file it leaves alone, and sleeps. */
  lemma TakesFreeAndStaleExactly(c: Settings, tr: seq<State>, ls: seq<Label>, p: Attempt)
    requires IsRun(c, tr, ls) && Undisturbed(ls, p)
    requires tr[0].At(p).Creating? && tr[0].now < tr[0].At(p).deadline
    ensures tr[0].file.None? && |ls| >= 2 ==> tr[2].At(p).Holding? && tr[2].file == Some(LockFile(p, tr[0].now))
    ensures Old(c, tr[0]) && |ls| >= 5 ==> tr[5].At(p).Holding? && tr[5].file == Some(LockFile(p, tr[0].now))
    ensures tr[0].file.Some? && !Old(c, tr[0]) && |ls| >= 2 ==>
      tr[2].At(p) == Sleeping(tr[0].At(p).deadline, tr[0].now + c.pollMs) && tr[2].file == tr[0].file
  {
    if tr[0].file.None? {
      if |ls| >= 2 { Creates(c, tr, ls, p, 0); }
    } else if |ls| >= 2 {
      OneStep(c, tr, ls, p, 0);
      OneStep(c, tr, ls, p, 1);
      if Old(c, tr[0]) && |ls| >= 5 {
        OneStep(c, tr, ls, p, 2);
        Creates(c, tr, ls, p, 3);
      }
    }
  }

  // ---- Exclusion ------------------------------------------------------------------------

  /** One step takes the path away from a holder exactly when it is a break that hits a held
      file. `Release`, which unlinks without looking, is among the steps that never do. */
  lemma OwnershipLostExactlyByRobbing(c: Settings, s: State, l: Label)
    requires HolderOwnsFile(s) && Enabled(s, l)
    ensures HolderOwnsFile(Apply(c, s, l)) <==> !Robs(s, l)
  {
    var t := Apply(c, s, l);
    if Robs(s, l) {
      assert Holds(t, s.file.value.creator);
    } else {
      forall p | Holds(t, p) ensures t.file.Some? && t.file.value.creator == p {
        if l.Release? || l.Stamp? { assert Holds(s, l.p); }
        assert Holds(s, p) || l == Create(p, true);
      }
    }
  }

  /** Whatever crashes, stalls or refused writes happen, the lock is exclusive for as long as
      no held file has been broken. */
  lemma {:induction false} ExclusiveUntilRobbed(c: Settings, tr: seq<State>, ls: seq<Label>, i: nat)
    requires IsRun(c, tr, ls) && Initial(tr[0])
    requires i < |tr|
    requires forall k | 0 <= k < i :: !Robs(tr[k], ls[k])
    ensures Exclusive(tr[i]) && HolderOwnsFile(tr[i])
  {
    if i > 0 {
      ExclusiveUntilRobbed(c, tr, ls, i - 1);
      OwnershipLostExactlyByRobbing(c, tr[i - 1], ls[i - 1]);
    }
  }

  // Every holder releases before its file is older than staleMs.
  ghost predicate Timely(c: Settings, s: State) {
    forall p | Holds(s, p) && s.file.Some? && s.file.value.creator == p
      :: s.now - s.file.value.stamp <= c.staleMs
  }

  // No crash, and the file system neither refuses a payload write nor a read of the age.
  predicate Orderly(l: Label) {
    && !l.Crash?
    && (l.Stamp? ==> l.written)
    && (l.ReadAge? ==> l.readable)
  }

  // Attempts that hold nothing may crash at any time.
  predicate OrderlyAt(s: State, l: Label) { Orderly(l) || (l.Crash? && !Holds(s, l.p)) }

  ghost predicate NothingAbandoned(s: State) {
    && (s.file.Some? ==> Holds(s, s.file.value.creator))
    && forall p :: !s.At(p).Breaking?
  }

  lemma OrderlyStepAbandonsNothing(c: Settings, s: State, l: Label)
    requires c.Valid() && Enabled(s, l) && OrderlyAt(s, l) && Timely(c, s)
    requires HolderOwnsFile(s) && NothingAbandoned(s)
    ensures NothingAbandoned(Apply(c, s, l))
  {
    var t := Apply(c, s, l);
    forall p ensures !t.At(p).Breaking? {
      assert !s.At(p).Breaking?;
    }
    if t.file.Some? && s.file.Some? {
      assert Holds(s, s.file.value.creator);
    }
  }

  /** In orderly, timely runs no attempt ever decides to break a file, and exclusion is
      unconditional. */
  lemma {:induction false} ExclusiveWhenTimely(c: Settings, tr: seq<State>, ls: seq<Label>, i: nat)
    requires IsRun(c, tr, ls) && Initial(tr[0])
    requires i < |tr|
    requires forall k | 0 <= k < |tr| :: Timely(c, tr[k])
    requires forall k | 0 <= k < |ls| :: OrderlyAt(tr[k], ls[k])
    ensures Exclusive(tr[i]) && HolderOwnsFile(tr[i]) && NothingAbandoned(tr[i])
    ensures i < |ls| ==> !ls[i].Break?
  {
    if i > 0 {
      ExclusiveWhenTimely(c, tr, ls, i - 1);
      OwnershipLostExactlyByRobbing(c, tr[i - 1], ls[i - 1]);
      OrderlyStepAbandonsNothing(c, tr[i - 1], ls[i - 1]);
    }
    if i < |ls| { assert Enabled(tr[i], ls[i]); }
  }

  // A run that keeps one of the two hypotheses: timely with a crash, or orderly without.
  ghost predicate Demonstrates(c: Settings, crash: bool, tr: seq<State>, ls: seq<Label>) {
    && IsRun(c, tr, ls) && Initial(tr[0])
    && (crash ==> forall k | 0 <= k < |tr| :: Timely(c, tr[k]))
    && (!crash ==> forall k | 0 <= k < |ls| :: Orderly(ls[k]))
  }

  lemma Extend(c: Settings, crash: bool, tr: seq<State>, ls: seq<Label>, l: Label)
    returns (tr': seq<State>, ls': seq<Label>, s: State)
    requires Demonstrates(c, crash, tr, ls) && |tr| == |ls| + 1
    requires Enabled(tr[|ls|], l)
    requires if crash then Timely(c, Apply(c, tr[|ls|], l)) else Orderly(l)
    ensures Demonstrates(c, crash, tr', ls') && |tr'| == |ls'| + 1
    ensures |ls'| == |ls| + 1 && s == tr'[|ls'|] == Apply(c, tr[|ls|], l)
  {
    hide Enabled, Apply, Orderly, Timely;
    s := Apply(c, tr[|ls|], l);
    tr', ls' := tr + [s], ls + [l];
  }

  // The first holder stops releasing, and its file grows old.
  lemma OneStalls(c: Settings, crash: bool) returns (tr: seq<State>, ls: seq<Label>, s: State)
    requires c == Settings(10, 1, 100)
    ensures Demonstrates(c, crash, tr, ls) && |tr| == |ls| + 1 && s == tr[|ls|]
    ensures s.now == 11 && s.file == Some(LockFile(0, 0))
    ensures s.phase == map[0 := if crash then Crashed else Holding]
  {
    s := State(0, None, map[]);
    tr, ls := [s], [];
    assert Demonstrates(c, crash, tr, ls);
    hide Demonstrates;
    tr, ls, s := Extend(c, crash, tr, ls, Start(0, true));
    tr, ls, s := Extend(c, crash, tr, ls, Create(0, true));
    tr, ls, s := Extend(c, crash, tr, ls, Stamp(0, true));
    tr, ls, s := Extend(c, crash, tr, ls, if crash then Crash(0) else Tick(0));
    tr, ls, s := Extend(c, crash, tr, ls, Tick(11));
  }

  // A newcomer meets the old file and makes up its mind to break it.
  lemma OneDecidesToBreak(c: Settings, crash: bool, tr: seq<State>, ls: seq<Label>, p: Attempt)
    returns (tr': seq<State>, ls': seq<Label>, s: State)
    requires c == Settings(10, 1, 100)
    requires Demonstrates(c, crash, tr, ls) && |tr| == |ls| + 1
    requires tr[|ls|].now == 11 && tr[|ls|].file == Some(LockFile(0, 0)) && tr[|ls|].At(p).Idle?
    requires crash ==> !Holds(tr[|ls|], 0) && p != 0
    ensures Demonstrates(c, crash, tr', ls') && |tr'| == |ls'| + 1 && s == tr'[|ls'|]
    ensures s == tr[|ls|].Goto(p, Breaking(111))
  {
    hide Demonstrates;
    tr', ls', s := Extend(c, crash, tr, ls, Start(p, true));
    tr', ls', s := Extend(c, crash, tr', ls', Create(p, true));
    tr', ls', s := Extend(c, crash, tr', ls', ReadAge(p, true));
    assert s.phase == tr[|ls|].phase[p := Breaking(111)];
  }

  // It breaks whatever file is there now and takes the lock.
  lemma OneBreaksAndTakes(c: Settings, crash: bool, tr: seq<State>, ls: seq<Label>, p: Attempt)
    returns (tr': seq<State>, ls': seq<Label>, s: State)
    requires c == Settings(10, 1, 100)
    requires Demonstrates(c, crash, tr, ls) && |tr| == |ls| + 1
    requires tr[|ls|].now == 11 && tr[|ls|].file.Some? && tr[|ls|].At(p) == Breaking(111)
    ensures Demonstrates(c, crash, tr', ls') && |tr'| == |ls'| + 1 && s == tr'[|ls'|]
    ensures s == State(11, Some(LockFile(p, 11)), tr[|ls|].phase[p := Holding])
  {
    hide Demonstrates;
    tr', ls', s := Extend(c, crash, tr, ls, Break(p, true));
    tr', ls', s := Extend(c, crash, tr', ls', Create(p, true));
    tr', ls', s := Extend(c, crash, tr', ls', Stamp(p, true));
    assert s.phase == tr[|ls|].phase[p := Holding];
  }

  /** Neither hypothesis can be dropped: after one crash (in a timely run), or one holder slower
      than staleMs (in an orderly run), two waiters that both read the old file's age end up
      holding the lock together. */
  lemma TwoBreakersBothHold(crash: bool) returns (c: Settings, tr: seq<State>, ls: seq<Label>)
    ensures Demonstrates(c, crash, tr, ls) && |tr| == |ls| + 1
    ensures Holds(tr[|ls|], 1) && Holds(tr[|ls|], 2)
  {
    hide Demonstrates;
    var s;
    c := Settings(10, 1, 100);
    tr, ls, s := OneStalls(c, crash);
    tr, ls, s := OneDecidesToBreak(c, crash, tr, ls, 1);
    tr, ls, s := OneDecidesToBreak(c, crash, tr, ls, 2);
    tr, ls, s := OneBreaksAndTakes(c, crash, tr, ls, 1);
    tr, ls, s := OneBreaksAndTakes(c, crash, tr, ls, 2);
  }

  // ---- Time bounds ----------------------------------------------------------------------

  predicate Trying(ph: Phase) {
    ph.Creating? || ph.Stamping? || ph.Contended? || ph.Breaking? || ph.Sleeping?
  }

  function Actor(l: Label): Option<Attempt> { if l.Tick? then None else Some(l.p) }

  // For attempt p only sleeping takes time: while it is trying the clock moves only when it is
  // asleep, and not past the end of its sleep. The others may be as slow as they like.
  predicate Prompt(s: State, l: Label, p: Attempt) {
    l.Tick? && Trying(s.At(p)) ==> s.At(p).Sleeping? && s.now + l.ms <= s.At(p).until
  }

  predicate OnTime(c: Settings, s: State, p: Attempt, deadline: int) {
    Trying(s.At(p)) ==>
      && s.At(p).deadline == deadline
      && s.now <= deadline + c.pollMs
      && (s.At(p).Sleeping? ==> s.now <= s.At(p).until <= deadline + c.pollMs)
  }

  /** An attempt whose own calls take no time is over by t + maxWaitMs + pollMs when it starts at
      time t, however slow the others are and whether or not the file it finds was abandoned. */
  lemma {:induction false} OverByDeadline(c: Settings, tr: seq<State>, ls: seq<Label>, p: Attempt, i: nat)
    requires IsRun(c, tr, ls) && |ls| > 0 && ls[0] == Start(p, true)
    requires forall k | 0 <= k < |ls| :: Prompt(tr[k], ls[k], p)
    requires forall k | 0 < k < |ls| :: !(ls[k].Start? && ls[k].p == p)
    requires 0 < i < |tr|
    ensures OnTime(c, tr[i], p, tr[0].now + c.maxWaitMs)
    ensures Trying(tr[i].At(p)) ==> tr[i].now <= tr[0].now + c.maxWaitMs + c.pollMs
  {
    assert Enabled(tr[0], ls[0]) && tr[1] == Apply(c, tr[0], ls[0]);
    if i > 1 {
      OverByDeadline(c, tr, ls, p, i - 1);
      var s, l := tr[i - 1], ls[i - 1];
      assert Enabled(s, l) && tr[i] == Apply(c, s, l) && Prompt(s, l, p);
    }
  }

  // Own steps left once the deadline has passed.
  function Rounds(ph: Phase): nat {
    match ph
    case Sleeping(_, _) => 4
    case Creating(_) => 3
    case Contended(_) => 2
    case Breaking(_) => 1
    case Stamping(_) => 1
    case _ => 0
  }

  function OwnSteps(ls: seq<Label>, p: Attempt): nat {
    if ls == [] then 0
    else (if Actor(ls[0]) == Some(p) then 1 else 0) + OwnSteps(ls[1..], p)
  }

  /** Past its deadline an attempt is over after at most four more steps of its own, however
      the steps of the others fall between them. */
  lemma {:induction false} FewStepsAfterDeadline(c: Settings, tr: seq<State>, ls: seq<Label>, p: Attempt)
    requires IsRun(c, tr, ls)
    requires Trying(tr[0].At(p)) && tr[0].now >= tr[0].At(p).deadline
    requires forall k | 0 <= k < |ls| :: Trying(tr[k].At(p))
    ensures OwnSteps(ls, p) <= Rounds(tr[0].At(p)) <= 4
    decreases |ls|
  {
    if |ls| > 1 {
      var s, l := tr[0], ls[0];
      assert Enabled(s, l) && tr[1] == Apply(c, s, l);
      assert Trying(tr[1].At(p));
      forall k | 0 <= k < |ls| - 1
        ensures Enabled(tr[1..][k], ls[1..][k]) && tr[1..][k + 1] == Apply(c, tr[1..][k], ls[1..][k])
      {
        assert Enabled(tr[k + 1], ls[k + 1]);
      }
      FewStepsAfterDeadline(c, tr[1..], ls[1..], p);
    } else if |ls| == 1 {
      assert ls[1..] == [];
    }
  }

  // ---- The retry loop -------------------------------------------------------------------

  datatype Lock = Acquired | Unavailable(reason: Reason) | StillWaiting

  // What an awaited call brings: the steps others took meanwhile, and whether the operating
  // system let the call itself through.
  datatype Moment = Moment(others: seq<Label>, ok: bool)

  datatype Found = Opened | Exists | Refused

  /** The lock directory, the clock every process reads, and where each attempt stands. `tr`
      and `ls` record the history, which is a run of the machine above. */
  class Directory {
    const c: Settings
    var now: int
    var file: Option<LockFile>
    var phase: map<Attempt, Phase>
    ghost var tr: seq<State>
    ghost var ls: seq<Label>

    function View(): State reads this { State(now, file, phase) }

    ghost predicate Valid() reads this {
      IsRun(c, tr, ls) && Initial(tr[0]) && tr[|ls|] == View()
    }

    constructor (c: Settings)
      requires c.Valid()
      ensures Valid() && this.c == c && View() == State(0, None, map[]) && ls == []
    {
      this.c, now, file, phase := c, 0, None, map[];
      tr, ls := [State(0, None, map[])], [];
    }

    // Puts a step just taken on record.
    ghost method Record(was: State, l: Label)
      requires IsRun(c, tr, ls) && Initial(tr[0]) && tr[|ls|] == was
      requires Enabled(was, l) && View() == Apply(c, was, l)
      modifies this`tr, this`ls
      ensures Valid() && ls == old(ls) + [l] && tr == old(tr) + [View()] && Met() == was
    {
      tr, ls := tr + [View()], ls + [l];
    }

    // What the last call found when it took effect, after whatever the others did before it.
    ghost function Met(): State
      requires Valid() && ls != []
      reads this
    {
      tr[|ls| - 1]
    }

    // The other processes run; what is not possible for them does not happen.
    method Others(p: Attempt, steps: seq<Label>)
      requires Valid()
      modifies this
      ensures Valid() && View().At(p) == old(View().At(p))
      ensures old(ls) <= ls
    {
      for i := 0 to |steps|
        invariant Valid() && View().At(p) == old(View().At(p))
        invariant old(ls) <= ls
      {
        var was := View();
        if Actor(steps[i]) != Some(p) && Enabled(was, steps[i]) {
          var t := Apply(c, was, steps[i]);
          now, file, phase := t.now, t.file, t.phase;
          Record(was, steps[i]);
        }
      }
    }

    method Open(p: Attempt, deadline: int, m: Moment) returns (found: Found)
      requires Valid() && View().At(p) == Creating(deadline)
      modifies this
      ensures Valid() && old(ls) <= ls
      ensures View().At(p) == match found
        case Opened => Stamping(deadline)
        case Exists => Contended(deadline)
        case Refused => Unlocked(Unwritable)
      ensures ls != [] && ls[|ls| - 1] == Create(p, m.ok)
      ensures found == if !m.ok then Refused else if Met().file.None? then Opened else Exists
      ensures file == if found == Opened then Some(LockFile(p, now)) else Met().file
    {
      Others(p, m.others);
      ghost var was := View();
      if !m.ok {
        found, phase := Refused, phase[p := Unlocked(Unwritable)];
      } else if file.None? {
        found, file, phase := Opened, Some(LockFile(p, now)), phase[p := Stamping(deadline)];
      } else {
        found, phase := Exists, phase[p := Contended(deadline)];
      }
      Record(was, Create(p, m.ok));
    }

    method WritePayload(p: Attempt, m: Moment)
      requires Valid() && View().At(p).Stamping?
      modifies this
      ensures Valid() && old(ls) <= ls
      ensures View().At(p) == if m.ok then Holding else Unlocked(Unwritable)
      ensures ls != [] && ls[|ls| - 1] == Stamp(p, m.ok)
      ensures file == if m.ok && Met().file.Some? && Met().file.value.creator == p then Some(LockFile(p, now)) else Met().file
    {
      Others(p, m.others);
      ghost var was := View();
      if m.ok && file.Some? && file.value.creator == p {
        file := Some(LockFile(p, now));
      }
      phase := phase[p := if m.ok then Holding else Unlocked(Unwritable)];
      Record(was, Stamp(p, m.ok));
    }

    // lockAgeMs and the decision taken on its answer; None means infinitely old.
    method Age(p: Attempt, deadline: int, m: Moment) returns (vanished: bool, age: Option<int>)
      requires Valid() && View().At(p) == Contended(deadline)
      modifies this
      ensures Valid() && old(ls) <= ls
      ensures vanished <==> file.None?
      ensures !vanished ==> age == if m.ok then Some(now - file.value.stamp) else None
      ensures View().At(p) ==
        if !vanished && (age.None? || age.value > c.staleMs) then Breaking(deadline)
        else if now >= deadline then Unlocked(Timeout)
        else if vanished then Creating(deadline) else Sleeping(deadline, now + c.pollMs)
    {
      Others(p, m.others);
      ghost var was := View();
      vanished, age := file.None?, None;
      if !vanished && m.ok {
        age := Some(now - file.value.stamp);
      }
      var next :=
        if !vanished && (age.None? || age.value > c.staleMs) then Breaking(deadline)
        else if now >= deadline then Unlocked(Timeout)
        else if vanished then Creating(deadline) else Sleeping(deadline, now + c.pollMs);
      phase := phase[p := next];
      Record(was, ReadAge(p, m.ok));
    }

    method Unlink(p: Attempt, deadline: int, m: Moment) returns (removed: bool)
      requires Valid() && View().At(p) == Breaking(deadline)
      modifies this
      ensures Valid() && old(ls) <= ls
      ensures View().At(p) ==
        if now >= deadline then Unlocked(Timeout)
        else if removed then Creating(deadline) else Sleeping(deadline, now + c.pollMs)
      ensures ls != [] && ls[|ls| - 1] == Break(p, m.ok)
      ensures removed == (m.ok && Met().file.Some?) && file == if removed then None else Met().file
    {
      hide IsRun, Initial;
      Others(p, m.others);
      ghost var was := View();
      removed := m.ok && file.Some?;
      if removed { file := None; }
      phase := phase[p := if now >= deadline then Unlocked(Timeout)
                          else if removed then Creating(deadline)
                          else Sleeping(deadline, now + c.pollMs)];
      Record(was, Break(p, m.ok));
    }

    // Sleeps until the poll interval is over, then lets others run on.
    method Sleep(p: Attempt, deadline: int, m: Moment)
      requires Valid() && View().At(p).Sleeping? && View().At(p).deadline == deadline
      modifies this
      ensures Valid() && old(ls) <= ls
      ensures View().At(p) == Creating(deadline)
    {
      Others(p, m.others);
      var was := View();
      var until := was.At(p).until;
      if now < until {
        now := until;
        Record(was, Tick(until - was.now));
      }
      was := View();
      phase := phase[p := Creating(deadline)];
      Record(was, Wake(p));
    }
  }

  // One round of the loop: None means go round again.
  method Round(dir: Directory, p: Attempt, deadline: int, ms: seq<Moment>) returns (lock: Option<Lock>)
    requires dir.Valid() && dir.View().At(p) == Creating(deadline) && |ms| == 4
    modifies dir
    ensures dir.Valid() && old(dir.ls) <= dir.ls
    ensures match lock
      case None => dir.View().At(p) == Creating(deadline)
      case Some(Acquired) => dir.View().At(p).Holding?
      case Some(Unavailable(reason)) => dir.View().At(p) == Unlocked(reason)
      case Some(StillWaiting) => false
  {
    hide IsRun, Initial;
    var found := dir.Open(p, deadline, ms[0]);
    if found == Refused { return Some(Unavailable(Unwritable)); }
    if found == Opened {
      dir.WritePayload(p, ms[1]);
      return Some(if ms[1].ok then Acquired else Unavailable(Unwritable));
    }
    var vanished, age := dir.Age(p, deadline, ms[1]);
    if vanished {
      return if dir.now >= deadline then Some(Unavailable(Timeout)) else None;
    }
    if age.None? || age.value > dir.c.staleMs {
      var removed := dir.Unlink(p, deadline, ms[2]);
      if dir.now >= deadline { return Some(Unavailable(Timeout)); }
      if !removed { dir.Sleep(p, deadline, ms[3]); }
      return None;
    }
    if dir.now >= deadline { return Some(Unavailable(Timeout)); }
    dir.Sleep(p, deadline, ms[3]);
    return None;
  }

  /** acquireFileLock. Whatever the others do between its calls, the loop only ever takes steps
      of the machine, so every property of runs holds of it; it reports exactly where the
      attempt ended, or that `script` ran out while it was still trying. */
  method AcquireFileLock(dir: Directory, p: Attempt, mkdirOk: bool, script: seq<Moment>)
    returns (lock: Lock)
    requires dir.Valid() && dir.View().At(p).Idle?
    modifies dir
    ensures dir.Valid() && old(dir.ls) + [Start(p, mkdirOk)] <= dir.ls
    ensures match lock
      case Acquired => dir.View().At(p).Holding?
      case Unavailable(reason) => dir.View().At(p) == Unlocked(reason)
      case StillWaiting => dir.View().At(p).Creating?
  {
    ghost var was := dir.View();
    var deadline := dir.now + dir.c.maxWaitMs;
    dir.phase := dir.phase[p := if mkdirOk then Creating(deadline) else Unlocked(Unwritable)];
    dir.Record(was, Start(p, mkdirOk));
    if !mkdirOk { return Unavailable(Unwritable); }

    var i := 0;
    while i + 4 <= |script|
      invariant dir.Valid() && dir.View().At(p) == Creating(deadline)
      invariant old(dir.ls) + [Start(p, mkdirOk)] <= dir.ls
    {
      var end := Round(dir, p, deadline, script[i..i + 4]);
      if end.Some? { return end.value; }
      i := i + 4;
    }
    return StillWaiting;
  }
}
