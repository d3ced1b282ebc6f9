/** Indexing: blobs already stored under any branch are skipped, the branch's manifest is replaced. */
module CodeIndexer {
  import opened Prelude
  import opened CodeIndex

  // The language of a path, and what parsing a blob as a language gives, if parsing succeeds.
  datatype Oracle = Oracle(lang: Path -> Lang, extract: (Sha, Lang) -> Option<Extraction>)

  // One run of the indexer; `readable` tells which blobs can be read this time.
  datatype Run = Run(branch: string, root: string, tree: seq<Entry>, exts: set<Lang>, readable: Sha -> bool)

  function Truth(o: Oracle, blob: Sha, lang: Lang): Extraction {
    if o.extract(blob, lang).Some? then o.extract(blob, lang).value else NOTHING
  }

  function Indexable(o: Oracle, exts: set<Lang>, tree: seq<Entry>): seq<Entry> {
    if tree == [] then []
    else (if o.lang(tree[0].path) in exts then [tree[0]] else []) + Indexable(o, exts, tree[1..])
  }

  /** The indexable entries are the tree's entries with a wanted extension, each as often as in the tree. */
  lemma {:induction false} IndexableExactly(o: Oracle, exts: set<Lang>, tree: seq<Entry>, e: Entry)
    ensures multiset(Indexable(o, exts, tree))[e] == if o.lang(e.path) in exts then multiset(tree)[e] else 0
  {
    if tree != [] {
      IndexableExactly(o, exts, tree[1..], e);
      assert tree == [tree[0]] + tree[1..];
    }
  }

  function Entries(o: Oracle, run: Run): seq<Entry> { Indexable(o, run.exts, run.tree) }

  // ---- The tables after each write ------------------------------------------------------

  function SymbolRows(blob: Sha, defs: seq<Def>): seq<SymbolRow> { seq(|defs|, i requires 0 <= i < |defs| => SymbolRow(blob, defs[i])) }

  function RefRows(blob: Sha, refs: seq<Edge>): seq<RefRow> { seq(|refs|, i requires 0 <= i < |refs| => RefRow(blob, refs[i])) }

  function ManifestRows(branch: string, root: string, es: seq<Entry>): seq<ManifestRow> {
    seq(|es|, i requires 0 <= i < |es| => ManifestRow(branch, root, es[i]))
  }

  function Without(rows: seq<ManifestRow>, branch: string, root: string): seq<ManifestRow> {
    if rows == [] then []
    else (if rows[0].branch == branch && rows[0].root == root then [] else [rows[0]]) + Without(rows[1..], branch, root)
  }

  function WithBlob(t: Tables, blob: Sha, lang: Lang, x: Extraction): Tables {
    t.(blobs := t.blobs[blob := lang], symbols := t.symbols + SymbolRows(blob, x.defs), refs := t.refs + RefRows(blob, x.refs))
  }

  function WithManifest(t: Tables, branch: string, root: string, es: seq<Entry>): Tables {
    t.(manifest := Without(t.manifest, branch, root) + ManifestRows(branch, root, es))
  }

  // A blob that cannot be read or parsed is stored empty, so that it is not tried again.
  function Stored(o: Oracle, readable: Sha -> bool, e: Entry): Extraction {
    if readable(e.blob) then Truth(o, e.blob, o.lang(e.path)) else NOTHING
  }

  function WithEntry(o: Oracle, readable: Sha -> bool, t: Tables, e: Entry): Tables {
    if e.blob in t.blobs then t else WithBlob(t, e.blob, o.lang(e.path), Stored(o, readable, e))
  }

  function WithEntries(o: Oracle, readable: Sha -> bool, t: Tables, es: seq<Entry>): Tables {
    if es == [] then t else WithEntry(o, readable, WithEntries(o, readable, t, es[..|es| - 1]), es[|es| - 1])
  }

  function AfterRun(o: Oracle, run: Run, t: Tables): Tables {
    WithManifest(WithEntries(o, run.readable, t, Entries(o, run)), run.branch, run.root, Entries(o, run))
  }

  const EMPTY := Tables(map[], [], [], [])

  function Replay(o: Oracle, runs: seq<Run>): Tables {
    if runs == [] then EMPTY else AfterRun(o, runs[|runs| - 1], Replay(o, runs[..|runs| - 1]))
  }

  // ---- What the tables hold -------------------------------------------------------------

  lemma WithoutKeeps(rows: seq<ManifestRow>, branch: string, root: string, m: ManifestRow)
    ensures m in Without(rows, branch, root) <==> m in rows && !(m.branch == branch && m.root == root)
  {
    if rows != [] {
      WithoutKeeps(rows[1..], branch, root, m);
      assert rows == [rows[0]] + rows[1..];
    }
  }

  lemma {:induction false} WithoutOfConcat(a: seq<ManifestRow>, b: seq<ManifestRow>, branch: string, root: string)
    ensures Without(a + b, branch, root) == Without(a, branch, root) + Without(b, branch, root)
  {
    if a == [] {
      assert a + b == b;
    } else {
      var head := if a[0].branch == branch && a[0].root == root then [] else [a[0]];
      assert (a + b)[1..] == a[1..] + b;
      WithoutOfConcat(a[1..], b, branch, root);
      assert Without(a + b, branch, root) == head + (Without(a[1..], branch, root) + Without(b, branch, root));
    }
  }

  lemma {:induction false} AllStay(rows: seq<ManifestRow>, branch: string, root: string)
    requires forall m | m in rows :: !(m.branch == branch && m.root == root)
    ensures Without(rows, branch, root) == rows
  {
    if rows != [] {
      assert rows[0] in rows;
      AllStay(rows[1..], branch, root);
      assert rows == [rows[0]] + rows[1..];
    }
  }

  lemma WithoutTwice(rows: seq<ManifestRow>, branch: string, root: string, more: seq<Entry>)
    ensures Without(Without(rows, branch, root) + ManifestRows(branch, root, more), branch, root) == Without(rows, branch, root)
  {
    var rest, extra := Without(rows, branch, root), ManifestRows(branch, root, more);
    forall m | m in rest ensures !(m.branch == branch && m.root == root) { WithoutKeeps(rows, branch, root, m); }
    WithoutOfConcat(rest, extra, branch, root);
    AllStay(rest, branch, root);
    NothingLeft(extra, branch, root);
    assert rest + [] == rest;
  }

  lemma {:induction false} NothingLeft(rows: seq<ManifestRow>, branch: string, root: string)
    requires forall m | m in rows :: m.branch == branch && m.root == root
    ensures Without(rows, branch, root) == []
  {
    if rows != [] {
      assert rows[0] in rows;
      NothingLeft(rows[1..], branch, root);
    }
  }

  // What was meant for the tables: the trees last indexed, per branch and root, and the blobs that
  // could not be read when they were first seen.
  datatype History = History(trees: map<(string, string), seq<Entry>>, missed: set<Sha>)

  function AfterRunHistory(o: Oracle, run: Run, t: Tables, h: History): History {
    History(h.trees[(run.branch, run.root) := Entries(o, run)],
            h.missed + set e | e in Entries(o, run) && e.blob !in t.blobs && !run.readable(e.blob) :: e.blob)
  }

  function HistoryOf(o: Oracle, runs: seq<Run>): History {
    if runs == [] then History(map[], {})
    else
      var before := runs[..|runs| - 1];
      AfterRunHistory(o, runs[|runs| - 1], Replay(o, before), HistoryOf(o, before))
  }

  function InStore(o: Oracle, t: Tables, missed: set<Sha>, blob: Sha): Extraction
    requires blob in t.blobs
  {
    if blob in missed then NOTHING else Truth(o, blob, t.blobs[blob])
  }

  ghost predicate BlobsHold(o: Oracle, t: Tables, missed: set<Sha>) {
    && (forall s :: s in t.symbols <==> s.blob in t.blobs && s.def in InStore(o, t, missed, s.blob).defs)
    && (forall r :: r in t.refs <==> r.blob in t.blobs && r.edge in InStore(o, t, missed, r.blob).refs)
    && missed <= t.blobs.Keys
  }

  ghost predicate ManifestHolds(t: Tables, trees: map<(string, string), seq<Entry>>) {
    && (forall m :: m in t.manifest <==> (m.branch, m.root) in trees && m.entry in trees[(m.branch, m.root)])
    && (forall m | m in t.manifest :: m.entry.blob in t.blobs)
  }

  ghost predicate Inv(o: Oracle, t: Tables, h: History) { BlobsHold(o, t, h.missed) && ManifestHolds(t, h.trees) }

  lemma RowsAre(blob: Sha, x: Extraction)
    ensures forall s :: s in SymbolRows(blob, x.defs) <==> s.blob == blob && s.def in x.defs
    ensures forall r :: r in RefRows(blob, x.refs) <==> r.blob == blob && r.edge in x.refs
  {
    forall s: SymbolRow | s.blob == blob && s.def in x.defs ensures s in SymbolRows(blob, x.defs) {
      var i :| 0 <= i < |x.defs| && x.defs[i] == s.def;
      assert SymbolRows(blob, x.defs)[i] == s;
    }
    forall r: RefRow | r.blob == blob && r.edge in x.refs ensures r in RefRows(blob, x.refs) {
      var i :| 0 <= i < |x.refs| && x.refs[i] == r.edge;
      assert RefRows(blob, x.refs)[i] == r;
    }
  }

  function Missed(t: Tables, readable: Sha -> bool, es: seq<Entry>): set<Sha> {
    set e | e in es && e.blob !in t.blobs && !readable(e.blob) :: e.blob
  }

  lemma EntryHolds(o: Oracle, readable: Sha -> bool, t: Tables, missed: set<Sha>, e: Entry)
    requires BlobsHold(o, t, missed)
    ensures BlobsHold(o, WithEntry(o, readable, t, e), missed + Missed(t, readable, [e]))
  {
    if e.blob !in t.blobs {
      RowsAre(e.blob, Stored(o, readable, e));
    }
  }

  function BlobsOf(es: seq<Entry>): set<Sha> { set e | e in es :: e.blob }

  lemma {:induction false} EntriesGetKnown(o: Oracle, readable: Sha -> bool, t: Tables, es: seq<Entry>)
    ensures var t' := WithEntries(o, readable, t, es);
      t'.blobs.Keys == t.blobs.Keys + BlobsOf(es) && t'.manifest == t.manifest
  {
    if es != [] {
      EntriesGetKnown(o, readable, t, es[..|es| - 1]);
      assert es == es[..|es| - 1] + [es[|es| - 1]];
    }
  }

  lemma {:induction false} LanguagesStay(o: Oracle, readable: Sha -> bool, t: Tables, es: seq<Entry>)
    ensures forall b | b in t.blobs :: b in WithEntries(o, readable, t, es).blobs && WithEntries(o, readable, t, es).blobs[b] == t.blobs[b]
  {
    if es != [] { LanguagesStay(o, readable, t, es[..|es| - 1]); }
  }

  lemma EntriesHold(o: Oracle, readable: Sha -> bool, t: Tables, missed: set<Sha>, es: seq<Entry>)
    requires BlobsHold(o, t, missed)
    ensures var t' := WithEntries(o, readable, t, es);
      && BlobsHold(o, t', missed + Missed(t, readable, es))
      && t'.blobs.Keys == t.blobs.Keys + (set e | e in es :: e.blob)
      && (forall b | b in t.blobs :: t'.blobs[b] == t.blobs[b])
      && t'.manifest == t.manifest
  {
    hide BlobsHold, WithEntries, Missed;
    EntriesGetKnown(o, readable, t, es);
    LanguagesStay(o, readable, t, es);
    RowsHold(o, readable, t, missed, es);
  }

  lemma {:induction false} RowsHold(o: Oracle, readable: Sha -> bool, t: Tables, missed: set<Sha>, es: seq<Entry>)
    requires BlobsHold(o, t, missed)
    ensures BlobsHold(o, WithEntries(o, readable, t, es), missed + Missed(t, readable, es))
  {
    hide BlobsHold, WithEntry;
    if es == [] {
      assert missed + Missed(t, readable, es) == missed;
    } else {
      var before, e := es[..|es| - 1], es[|es| - 1];
      var u := WithEntries(o, readable, t, before);
      RowsHold(o, readable, t, missed, before);
      EntryHolds(o, readable, u, missed + Missed(t, readable, before), e);
      EntriesGetKnown(o, readable, t, before);
      MissedOneMore(t, u, readable, before, e);
      assert es == before + [e];
      assert missed + Missed(t, readable, before) + Missed(u, readable, [e]) == missed + Missed(t, readable, es);
    }
  }

  lemma MissedOneMore(t: Tables, u: Tables, readable: Sha -> bool, es: seq<Entry>, e: Entry)
    requires u.blobs.Keys == t.blobs.Keys + BlobsOf(es)
    ensures Missed(t, readable, es + [e]) == Missed(t, readable, es) + Missed(u, readable, [e])
  {
    var all := es + [e];
    forall b ensures b in Missed(t, readable, all) <==> b in Missed(t, readable, es) || b in Missed(u, readable, [e]) {
      if b in Missed(t, readable, all) {
        var f :| f in all && f.blob == b && b !in t.blobs && !readable(b);
        if f in es { assert b in Missed(t, readable, es); } else { assert f == e && f in [e]; }
      }
      if b in Missed(t, readable, es) {
        var f :| f in es && f.blob == b && b !in t.blobs && !readable(b);
        assert f in all;
      }
      if b in Missed(u, readable, [e]) { assert e in all; }
    }
  }

  lemma ManifestRowsAre(branch: string, root: string, es: seq<Entry>)
    ensures forall m :: m in ManifestRows(branch, root, es) <==> m.branch == branch && m.root == root && m.entry in es
  {
    forall m: ManifestRow | m.branch == branch && m.root == root && m.entry in es ensures m in ManifestRows(branch, root, es) {
      var i :| 0 <= i < |es| && es[i] == m.entry;
      assert ManifestRows(branch, root, es)[i] == m;
    }
  }

  lemma RunHolds(o: Oracle, run: Run, t: Tables, h: History)
    requires Inv(o, t, h)
    ensures Inv(o, AfterRun(o, run, t), AfterRunHistory(o, run, t, h))
  {
    var es := Entries(o, run);
    EntriesHold(o, run.readable, t, h.missed, es);
    ManifestRowsAre(run.branch, run.root, es);
    var t', h' := AfterRun(o, run, t), AfterRunHistory(o, run, t, h);
    assert h'.missed == h.missed + Missed(t, run.readable, es);
    assert BlobsHold(o, t', h'.missed) by { BlobsIgnoreManifest(o, WithEntries(o, run.readable, t, es), t', h'.missed); }
    forall m ensures m in t'.manifest <==> (m.branch, m.root) in h'.trees && m.entry in h'.trees[(m.branch, m.root)] {
      WithoutKeeps(t.manifest, run.branch, run.root, m);
    }
    forall m | m in t'.manifest ensures m.entry.blob in t'.blobs {
      WithoutKeeps(t.manifest, run.branch, run.root, m);
    }
  }

  lemma BlobsIgnoreManifest(o: Oracle, t: Tables, t': Tables, missed: set<Sha>)
    requires BlobsHold(o, t, missed) && t' == t.(manifest := t'.manifest)
    ensures BlobsHold(o, t', missed)
  {
    forall b | b in t.blobs ensures InStore(o, t', missed, b) == InStore(o, t, missed, b) {}
  }

  /** After any runs on any branches, the tables hold exactly the extractions of the blobs seen, each
      under its first language, and for every branch and root the tree last indexed. */
  lemma {:induction false} TablesHold(o: Oracle, runs: seq<Run>)
    ensures Inv(o, Replay(o, runs), HistoryOf(o, runs))
  {
    if runs != [] {
      var before := runs[..|runs| - 1];
      TablesHold(o, before);
      RunHolds(o, runs[|runs| - 1], Replay(o, before), HistoryOf(o, before));
    }
  }

  // ---- Agreement with direct extraction -------------------------------------------------

  // What extracting every file of the branch's trees directly gives.
  function DirectFiles(o: Oracle, trees: map<(string, string), seq<Entry>>, branch: string): set<File> {
    set k, e | k in trees && k.0 == branch && e in trees[k] :: FileOf(e.path, Truth(o, e.blob, o.lang(e.path)))
  }

  // The file is stored as it would be extracted now.
  ghost predicate Faithful(o: Oracle, t: Tables, missed: set<Sha>, e: Entry)
    requires e.blob in t.blobs
  {
    FileOf(e.path, InStore(o, t, missed, e.blob)) == FileOf(e.path, Truth(o, e.blob, o.lang(e.path)))
  }

  lemma StoredFile(o: Oracle, t: Tables, h: History, m: ManifestRow)
    requires Inv(o, t, h) && m in t.manifest
    ensures FileAt(t, m) == FileOf(m.entry.path, InStore(o, t, h.missed, m.entry.blob))
  {
    var x := InStore(o, t, h.missed, m.entry.blob);
    forall d ensures d in DefsOf(t, m.entry.blob) <==> d in x.defs {
      assert SymbolRow(m.entry.blob, d) in t.symbols <==> d in x.defs;
    }
    forall e ensures e in RefsOf(t, m.entry.blob) <==> e in x.refs {
      assert RefRow(m.entry.blob, e) in t.refs <==> e in x.refs;
    }
    assert DefsOf(t, m.entry.blob) == set d | d in x.defs;
    assert RefsOf(t, m.entry.blob) == set e | e in x.refs;
  }

  ghost predicate PathsDiffer(t: Tables, branch: string) {
    forall m, m' | m in t.manifest && m' in t.manifest && m.branch == branch && m'.branch == branch &&
                   m.entry.path == m'.entry.path :: m.entry == m'.entry
  }

  lemma FaithfulFilesAreDirect(o: Oracle, t: Tables, h: History, branch: string)
    requires Inv(o, t, h)
    requires forall m | m in t.manifest && m.branch == branch :: Faithful(o, t, h.missed, m.entry)
    ensures Files(t, branch) == DirectFiles(o, h.trees, branch)
  {
    hide FileOf, Truth, InStore, BlobsHold, FileAt;
    forall f | f in Files(t, branch) ensures f in DirectFiles(o, h.trees, branch) {
      var m := FileOnBranch(t, branch, f);
      StoredFile(o, t, h, m);
      assert (m.branch, m.root) in h.trees && m.entry in h.trees[(m.branch, m.root)];
    }
    forall f | f in DirectFiles(o, h.trees, branch) ensures f in Files(t, branch) {
      var k, e :| k in h.trees && k.0 == branch && e in h.trees[k] && f == FileOf(e.path, Truth(o, e.blob, o.lang(e.path)));
      var m := ManifestRow(branch, k.1, e);
      assert (m.branch, m.root) == k;
      assert m in t.manifest;
      StoredFile(o, t, h, m);
      RowsOnBranch(t, branch, m);
    }
  }

  /** The branch's files are what direct extraction gives exactly when each of them was read when its
      blob was first seen and extracts the same under its own language as under the blob's first. */
  lemma FilesAreDirectExactly(o: Oracle, t: Tables, h: History, branch: string)
    requires Inv(o, t, h) && PathsDiffer(t, branch)
    ensures Files(t, branch) == DirectFiles(o, h.trees, branch) <==>
            forall m | m in t.manifest && m.branch == branch :: Faithful(o, t, h.missed, m.entry)
  {
    if forall m | m in t.manifest && m.branch == branch :: Faithful(o, t, h.missed, m.entry) {
      FaithfulFilesAreDirect(o, t, h, branch);
    }
    if Files(t, branch) == DirectFiles(o, h.trees, branch) {
      forall m | m in t.manifest && m.branch == branch ensures Faithful(o, t, h.missed, m.entry) {
        DirectFileIsFaithful(o, t, h, branch, m);
      }
    }
  }

  lemma DirectFileIsFaithful(o: Oracle, t: Tables, h: History, branch: string, m: ManifestRow)
    requires Inv(o, t, h) && PathsDiffer(t, branch) && m in t.manifest && m.branch == branch
    requires Files(t, branch) == DirectFiles(o, h.trees, branch)
    ensures Faithful(o, t, h.missed, m.entry)
  {
    hide Truth, InStore, BlobsHold;
    StoredFile(o, t, h, m);
    RowsOnBranch(t, branch, m);
    var k, e :| k in h.trees && k.0 == branch && e in h.trees[k] && FileAt(t, m) == FileOf(e.path, Truth(o, e.blob, o.lang(e.path)));
    assert (ManifestRow(branch, k.1, e).branch, ManifestRow(branch, k.1, e).root) == k;
    assert ManifestRow(branch, k.1, e) in t.manifest;
  }

  // ---- Over whole histories -------------------------------------------------------------

  function Members(es: seq<Entry>): set<Entry> { set e | e in es }

  function Seen(o: Oracle, runs: seq<Run>): set<Entry> {
    if runs == [] then {} else Seen(o, runs[..|runs| - 1]) + Members(Entries(o, runs[|runs| - 1]))
  }

  // Every blob occurs under extensions of one grammar only.
  ghost predicate OneGrammarEach(o: Oracle, seen: set<Entry>) {
    forall e, e' | e in seen && e' in seen && e.blob == e'.blob :: o.extract(e.blob, o.lang(e.path)) == o.extract(e.blob, o.lang(e'.path))
  }

  predicate ReadsAll(o: Oracle, run: Run) { forall e | e in Entries(o, run) :: run.readable(e.blob) }

  ghost predicate FromSeen(o: Oracle, t: Tables, seen: set<Entry>) {
    && (forall b | b in t.blobs :: exists e :: e in seen && e.blob == b && o.lang(e.path) == t.blobs[b])
    && (forall m | m in t.manifest :: m.entry in seen)
  }

  lemma {:induction false} EntriesComeFromSeen(o: Oracle, readable: Sha -> bool, t: Tables, es: seq<Entry>, seen: set<Entry>)
    requires FromSeen(o, t, seen) && (forall e | e in es :: e in seen)
    ensures FromSeen(o, WithEntries(o, readable, t, es), seen)
  {
    if es != [] {
      EntriesComeFromSeen(o, readable, t, es[..|es| - 1], seen);
      assert es[|es| - 1] in es;
    }
  }

  lemma {:induction false} TablesComeFromSeen(o: Oracle, runs: seq<Run>)
    requires forall i | 0 <= i < |runs| :: ReadsAll(o, runs[i])
    ensures FromSeen(o, Replay(o, runs), Seen(o, runs)) && HistoryOf(o, runs).missed == {}
  {
    if runs != [] {
      var before, run := runs[..|runs| - 1], runs[|runs| - 1];
      TablesComeFromSeen(o, before);
      var t, es := Replay(o, before), Entries(o, run);
      assert FromSeen(o, t, Seen(o, runs));
      EntriesComeFromSeen(o, run.readable, t, es, Seen(o, runs));
      ManifestRowsAre(run.branch, run.root, es);
      forall m | m in Replay(o, runs).manifest ensures m.entry in Seen(o, runs) {
        WithoutKeeps(WithEntries(o, run.readable, t, es).manifest, run.branch, run.root, m);
      }
      assert ReadsAll(o, run);
    }
  }

  lemma SeenIsFaithful(o: Oracle, runs: seq<Run>, m: ManifestRow)
    requires forall i | 0 <= i < |runs| :: ReadsAll(o, runs[i])
    requires OneGrammarEach(o, Seen(o, runs)) && m in Replay(o, runs).manifest && m.entry.blob in Replay(o, runs).blobs
    ensures Faithful(o, Replay(o, runs), HistoryOf(o, runs).missed, m.entry)
  {
    var t := Replay(o, runs);
    TablesComeFromSeen(o, runs);
    var e :| e in Seen(o, runs) && e.blob == m.entry.blob && o.lang(e.path) == t.blobs[m.entry.blob];
    assert m.entry in Seen(o, runs);
  }

  /** After any history of runs, on any branches, in which every blob could be read and occurs under one
      grammar, every query on a branch answers as extracting the trees last indexed there would. */
  lemma QueriesAnswerDirectly(o: Oracle, runs: seq<Run>, name: Name, branch: string)
    requires forall i | 0 <= i < |runs| :: ReadsAll(o, runs[i])
    requires OneGrammarEach(o, Seen(o, runs))
    ensures var t, files := Replay(o, runs), DirectFiles(o, HistoryOf(o, runs).trees, branch);
      && Files(t, branch) == files
      && (forall hit :: IsSymbol(t, name, branch, hit) <==> HasSymbol(files, name, hit))
      && (forall hit :: IsCaller(t, name, branch, hit) <==> HasCaller(files, name, hit))
      && (forall hit :: IsCallee(t, name, branch, hit) <==> HasCallee(files, name, hit))
      && (forall hit :: IsReference(t, name, branch, hit) <==> HasReference(files, name, hit))
      && (forall caller, callee :: IsActive(t, branch, caller, callee) <==> Calls(files, caller, callee))
  {
    hide *;
    var t, h := Replay(o, runs), HistoryOf(o, runs);
    TablesHold(o, runs);
    AllFaithful(o, runs, branch);
    FaithfulFilesAreDirect(o, t, h, branch);
    QueriesReadTheFiles(t, name, branch);
  }

  lemma AllFaithful(o: Oracle, runs: seq<Run>, branch: string)
    requires forall i | 0 <= i < |runs| :: ReadsAll(o, runs[i])
    requires OneGrammarEach(o, Seen(o, runs)) && Inv(o, Replay(o, runs), HistoryOf(o, runs))
    ensures forall m | m in Replay(o, runs).manifest && m.branch == branch ::
      Faithful(o, Replay(o, runs), HistoryOf(o, runs).missed, m.entry)
  {
    forall m | m in Replay(o, runs).manifest && m.branch == branch
      ensures Faithful(o, Replay(o, runs), HistoryOf(o, runs).missed, m.entry)
    {
      SeenIsFaithful(o, runs, m);
    }
  }

  /** Indexing another branch changes no answer on this one. */
  lemma OtherBranchesDoNotMatter(o: Oracle, run: Run, t: Tables, h: History, branch: string)
    requires Inv(o, t, h) && run.branch != branch
    ensures Files(AfterRun(o, run, t), branch) == Files(t, branch)
  {
    var t' := AfterRun(o, run, t);
    RunHolds(o, run, t, h);
    forall m | m in t.manifest && m.branch == branch ensures m in t'.manifest && FileAt(t', m) == FileAt(t, m) {
      WithoutKeeps(t.manifest, run.branch, run.root, m);
      EntriesHold(o, run.readable, t, h.missed, Entries(o, run));
      KnownFileKept(o, run, t, h, m);
    }
    forall m | m in t'.manifest && m.branch == branch ensures m in t.manifest {
      ManifestRowsAre(run.branch, run.root, Entries(o, run));
      EntriesHold(o, run.readable, t, h.missed, Entries(o, run));
      WithoutKeeps(t.manifest, run.branch, run.root, m);
    }
    SameFiles(t, t', branch);
  }

  lemma KnownFileKept(o: Oracle, run: Run, t: Tables, h: History, m: ManifestRow)
    requires Inv(o, t, h) && m in t.manifest && m in AfterRun(o, run, t).manifest
    ensures FileAt(AfterRun(o, run, t), m) == FileAt(t, m)
  {
    RunHolds(o, run, t, h);
    StoredFile(o, t, h, m);
    StoredFile(o, AfterRun(o, run, t), AfterRunHistory(o, run, t, h), m);
    EntriesHold(o, run.readable, t, h.missed, Entries(o, run));
  }

  lemma SameFiles(t: Tables, t': Tables, branch: string)
    requires forall m | m in t.manifest && m.branch == branch :: m in t'.manifest && FileAt(t', m) == FileAt(t, m)
    requires forall m | m in t'.manifest && m.branch == branch :: m in t.manifest
    ensures Files(t', branch) == Files(t, branch)
  {
    hide DefsOf, RefsOf;
    forall f | f in Files(t, branch) ensures f in Files(t', branch) { var m := FileOnBranch(t, branch, f); }
    forall f | f in Files(t', branch) ensures f in Files(t, branch) { var m := FileOnBranch(t', branch, f); }
  }

  lemma {:induction false} KnownEntriesAddNothing(o: Oracle, readable: Sha -> bool, t: Tables, es: seq<Entry>)
    requires forall e | e in es :: e.blob in t.blobs
    ensures WithEntries(o, readable, t, es) == t
  {
    if es != [] { KnownEntriesAddNothing(o, readable, t, es[..|es| - 1]); }
  }

  /** Indexing the same tree again adds no row to any table, whatever can be read this time. */
  lemma ReindexingAddsNothing(o: Oracle, run: Run, again: Run, t: Tables)
    requires again == run.(readable := again.readable)
    ensures AfterRun(o, again, AfterRun(o, run, t)) == AfterRun(o, run, t)
  {
    var es := Entries(o, run);
    assert Entries(o, again) == es;
    EntriesGetKnown(o, run.readable, t, es);
    KnownEntriesAddNothing(o, again.readable, AfterRun(o, run, t), es);
    WithoutTwice(t.manifest, run.branch, run.root, es);
  }

  /** The hypothesis on grammars is needed: a blob that extracts differently under two languages answers
      wrongly on the branch where it has the language seen second. */
  lemma FirstLanguageWins(o: Oracle, exts: set<Lang>, p: Path, q: Path, blob: Sha, readable: Sha -> bool)
    requires o.lang(p) in exts && o.lang(q) in exts && readable(blob)
    requires FileOf(q, Truth(o, blob, o.lang(p))) != FileOf(q, Truth(o, blob, o.lang(q)))
    ensures var runs := [Run("a", ".", [Entry(p, blob)], exts, readable), Run("b", ".", [Entry(q, blob)], exts, readable)];
      Files(Replay(o, runs), "b") != DirectFiles(o, HistoryOf(o, runs).trees, "b")
  {
    var first, second := Run("a", ".", [Entry(p, blob)], exts, readable), Run("b", ".", [Entry(q, blob)], exts, readable);
    var runs := [first, second];
    assert runs[..1] == [first] && [first][..0] == [];
    var t, h := Replay(o, runs), HistoryOf(o, runs);
    TablesHold(o, runs);
    OneFile(o, first, p, blob, EMPTY, HistoryOf(o, []));
    OneFile(o, second, q, blob, Replay(o, [first]), HistoryOf(o, [first]));
    var m := ManifestRow("b", ".", Entry(q, blob));
    assert !Faithful(o, t, h.missed, m.entry);
    assert m in t.manifest;
    forall k | k in t.manifest && k.branch == "b" ensures k == m { assert k in Replay(o, [first]).manifest || k == m; }
    FilesAreDirectExactly(o, t, h, "b");
  }

  // A run over a tree of one readable file.
  lemma OneFile(o: Oracle, run: Run, p: Path, blob: Sha, t: Tables, h: History)
    requires run.tree == [Entry(p, blob)] && o.lang(p) in run.exts && run.readable(blob)
    ensures var t', h' := AfterRun(o, run, t), AfterRunHistory(o, run, t, h);
      && t'.blobs == (if blob in t.blobs then t.blobs else t.blobs[blob := o.lang(p)]) && h'.missed == h.missed
      && forall m :: m in t'.manifest <==>
           m == ManifestRow(run.branch, run.root, Entry(p, blob)) || (m in t.manifest && !(m.branch == run.branch && m.root == run.root))
  {
    assert run.tree[1..] == [] && Indexable(o, run.exts, []) == [];
    var es := [Entry(p, blob)];
    assert Entries(o, run) == es;
    assert es[..0] == [] && WithEntries(o, run.readable, t, []) == t;
    assert WithEntries(o, run.readable, t, es) == WithEntry(o, run.readable, t, es[0]);
    ManifestRowsAre(run.branch, run.root, es);
    forall m ensures m in AfterRun(o, run, t).manifest <==>
      m == ManifestRow(run.branch, run.root, es[0]) || (m in t.manifest && !(m.branch == run.branch && m.root == run.root))
    {
      WithoutKeeps(t.manifest, run.branch, run.root, m);
    }
  }
}
