/** The store and the indexer as they run: tables written row by row, the blob-delta loop, and the
    recursive query for everything that depends on a symbol. */
module CodeIndexStore {
  import opened Prelude
  import opened CodeIndex
  import opened CodeIndexer

  // ---- Everything that depends on a symbol ----------------------------------------------

  type Edges = set<(Name, Name)>          // caller, callee

  // p[0] calls `name`, every later one calls the one before, and none is the module scope.
  predicate CallChain(active: Edges, name: Name, p: seq<Name>) {
    && |p| > 0 && (p[0], name) in active
    && (forall i | 0 <= i < |p| - 1 :: (p[i + 1], p[i]) in active)
    && (forall i | 0 <= i < |p| :: p[i] != MODULE)
  }

  ghost predicate DependsOn(active: Edges, name: Name, x: Name) {
    exists p :: CallChain(active, name, p) && p[|p| - 1] == x
  }

  function CallersOf(active: Edges, callees: set<Name>): set<Name> {
    set e | e in active && e.1 in callees && e.0 != MODULE :: e.0
  }

  lemma DirectCallersDepend(active: Edges, name: Name)
    ensures forall x | x in CallersOf(active, {name}) :: DependsOn(active, name, x)
  {
    forall x | x in CallersOf(active, {name}) ensures DependsOn(active, name, x) {
      assert CallChain(active, name, [x]);
    }
  }

  lemma CallersOfDependentsDepend(active: Edges, name: Name, callees: set<Name>)
    requires forall x | x in callees :: DependsOn(active, name, x)
    ensures forall x | x in CallersOf(active, callees) :: DependsOn(active, name, x)
  {
    forall x | x in CallersOf(active, callees) ensures DependsOn(active, name, x) {
      var e :| e in active && e.1 in callees && e.0 != MODULE && e.0 == x;
      var p :| CallChain(active, name, p) && p[|p| - 1] == e.1;
      assert CallChain(active, name, p + [x]);
      assert (p + [x])[|p + [x]| - 1] == x;
    }
  }

  lemma {:induction false} ClosedSetsHoldDependents(active: Edges, name: Name, deps: set<Name>, p: seq<Name>)
    requires CallersOf(active, {name}) <= deps && CallersOf(active, deps) <= deps
    requires CallChain(active, name, p)
    ensures p[|p| - 1] in deps
    decreases |p|
  {
    var e := if |p| == 1 then (p[0], name) else (p[|p| - 1], p[|p| - 2]);
    if |p| == 1 {
      assert e.0 in CallersOf(active, {name});
    } else {
      assert CallChain(active, name, p[..|p| - 1]);
      ClosedSetsHoldDependents(active, name, deps, p[..|p| - 1]);
      assert e in active && e.0 in CallersOf(active, deps);
    }
  }

  /** The recursive query: it ends on cyclic call graphs, and finds exactly the symbols from which a
      chain of calls through named symbols leads to `name`. */
  method Dependents(active: Edges, name: Name) returns (deps: set<Name>)
    ensures forall x :: x in deps <==> DependsOn(active, name, x)
  {
    hide *;
    deps := CallersOf(active, {name});
    DirectCallersDepend(active, name);
    var frontier := deps;
    ghost var all, expanded: set<Name> := Callers(active), {};
    AllCallers(active, {name});
    NobodyCallsNobody(active);
    while frontier != {}
      invariant CallersOf(active, {name}) <= deps <= all && expanded + frontier == deps
      invariant forall x | x in deps :: DependsOn(active, name, x)
      invariant CallersOf(active, expanded) <= deps
      decreases |all - deps|, |frontier|
    {
      CallersOfDependentsDepend(active, name, frontier);
      AllCallers(active, frontier);
      CallersOfUnion(active, expanded, frontier);
      var found := CallersOf(active, frontier) - deps;
      if found != {} { Shrinks(all, deps, found); } else { assert deps + found == deps; }
      expanded, deps, frontier := deps, deps + found, found;
    }
    AllDependentsInside(active, name, deps);
  }

  function Callers(active: Edges): set<Name> { set e | e in active :: e.0 }

  lemma AllCallers(active: Edges, callees: set<Name>)
    ensures CallersOf(active, callees) <= Callers(active)
  {
  }

  lemma NobodyCallsNobody(active: Edges)
    ensures CallersOf(active, {}) == {}
  {
  }

  lemma CallersOfUnion(active: Edges, a: set<Name>, b: set<Name>)
    ensures CallersOf(active, a + b) == CallersOf(active, a) + CallersOf(active, b)
  {
  }

  lemma AllDependentsInside(active: Edges, name: Name, deps: set<Name>)
    requires CallersOf(active, {name}) <= deps && CallersOf(active, deps) <= deps
    ensures forall x | DependsOn(active, name, x) :: x in deps
  {
    forall x | DependsOn(active, name, x) ensures x in deps {
      var p :| CallChain(active, name, p) && p[|p| - 1] == x;
      ClosedSetsHoldDependents(active, name, deps, p);
    }
  }

  lemma Shrinks(all: set<Name>, deps: set<Name>, found: set<Name>)
    requires found <= all && found != {} && found !! deps
    ensures |all - (deps + found)| < |all - deps|
  {
    assert all - deps == (all - (deps + found)) + found;
  }

  function ActiveEdges(t: Tables, branch: string): Edges {
    set r, m | r in t.refs && m in t.manifest && m.branch == branch && m.entry.blob == r.blob && DefinedOn(t, r.edge.dst, branch)
      :: (r.edge.caller, r.edge.dst)
  }

  predicate DefinedOn(t: Tables, name: Name, branch: string) {
    exists sd | sd in t.symbols :: sd.def.name == name && exists m | m in t.manifest :: m.branch == branch && m.entry.blob == sd.blob
  }

  lemma ActiveEdgesExactly(t: Tables, branch: string)
    ensures forall a, b :: (a, b) in ActiveEdges(t, branch) <==> IsActive(t, branch, a, b)
  {
    forall name ensures DefinedOn(t, name, branch) <==> Resolves(t, name, branch) {}
  }

  // The same chains, read off the files.
  ghost predicate FileChain(files: set<File>, name: Name, p: seq<Name>) {
    && |p| > 0 && Calls(files, p[0], name)
    && (forall i | 0 <= i < |p| - 1 :: Calls(files, p[i + 1], p[i]))
    && (forall i | 0 <= i < |p| :: p[i] != MODULE)
  }

  ghost predicate DependsInFiles(files: set<File>, name: Name, x: Name) {
    exists p :: FileChain(files, name, p) && p[|p| - 1] == x
  }

  lemma ChainsAgree(active: Edges, files: set<File>, name: Name)
    requires forall a, b :: (a, b) in active <==> Calls(files, a, b)
    ensures forall x :: DependsOn(active, name, x) <==> DependsInFiles(files, name, x)
  {
    hide Calls;
    forall p ensures CallChain(active, name, p) <==> FileChain(files, name, p) {}
    forall x ensures DependsOn(active, name, x) <==> DependsInFiles(files, name, x) {
      if DependsOn(active, name, x) {
        var p :| CallChain(active, name, p) && p[|p| - 1] == x;
        assert FileChain(files, name, p);
      }
      if DependsInFiles(files, name, x) {
        var p :| FileChain(files, name, p) && p[|p| - 1] == x;
        assert CallChain(active, name, p);
      }
    }
  }

  /** On a history where every blob could be read and has one grammar, the blast radius of `name` is the
      set of symbols from which a chain of calls in the files themselves leads to it. */
  lemma BlastRadiusIsReachability(o: Oracle, runs: seq<Run>, name: Name, branch: string)
    requires forall i | 0 <= i < |runs| :: ReadsAll(o, runs[i])
    requires OneGrammarEach(o, Seen(o, runs))
    ensures forall x :: DependsOn(ActiveEdges(Replay(o, runs), branch), name, x) <==>
                        DependsInFiles(DirectFiles(o, HistoryOf(o, runs).trees, branch), name, x)
  {
    hide *;
    ActiveEdgesExactly(Replay(o, runs), branch);
    QueriesAnswerDirectly(o, runs, name, branch);
    ChainsAgree(ActiveEdges(Replay(o, runs), branch), DirectFiles(o, HistoryOf(o, runs).trees, branch), name);
  }

  // ---- The store ------------------------------------------------------------------------

  // The distinct blobs that this run parses: not stored before, first seen here, read and parsed.
  ghost function Parsed(o: Oracle, readable: Sha -> bool, t: Tables, es: seq<Entry>): set<Sha> {
    set i | 0 <= i < |es| && es[i].blob !in t.blobs && es[i].blob !in BlobsOf(es[..i]) &&
            readable(es[i].blob) && o.extract(es[i].blob, o.lang(es[i].path)).Some? :: es[i].blob
  }

  lemma ParsedOneMore(o: Oracle, readable: Sha -> bool, t: Tables, es: seq<Entry>, k: nat)
    requires k < |es|
    ensures Parsed(o, readable, t, es[..k + 1]) == Parsed(o, readable, t, es[..k]) +
      if es[k].blob !in t.blobs && es[k].blob !in BlobsOf(es[..k]) && readable(es[k].blob) && o.extract(es[k].blob, o.lang(es[k].path)).Some?
      then {es[k].blob} else {}
    ensures BlobsOf(es[..k + 1]) == BlobsOf(es[..k]) + {es[k].blob}
    ensures Parsed(o, readable, t, es[..k]) <= BlobsOf(es[..k])
  {
    var more := es[..k + 1];
    assert more == es[..k] + [es[k]];
    assert forall i | 0 <= i <= k :: more[..i] == es[..i];
    assert forall i | 0 <= i < k :: es[..k][..i] == es[..i];
    assert Parsed(o, readable, t, es[..k]) <= BlobsOf(es[..k]) by {
      forall b | b in Parsed(o, readable, t, es[..k]) ensures b in BlobsOf(es[..k]) {
        var i :| 0 <= i < k && es[..k][i].blob == b;
        assert es[..k][i] in es[..k];
      }
    }
  }

  class Store {
    var blobs: map<Sha, Lang>
    var symbols: seq<SymbolRow>
    var refs: seq<RefRow>
    var manifest: seq<ManifestRow>

    function View(): Tables reads this { Tables(blobs, symbols, refs, manifest) }

    constructor ()
      ensures View() == EMPTY
    {
      blobs, symbols, refs, manifest := map[], [], [], [];
    }

    // Rows go in one by one; the primary key admits a blob once.
    method InsertBlob(blob: Sha, lang: Lang, x: Extraction)
      requires blob !in blobs
      modifies this
      ensures View() == WithBlob(old(View()), blob, lang, x)
    {
      blobs := blobs[blob := lang];
      for i := 0 to |x.defs|
        invariant symbols == old(symbols) + SymbolRows(blob, x.defs)[..i]
        invariant blobs == old(blobs)[blob := lang] && refs == old(refs) && manifest == old(manifest)
      {
        symbols := symbols + [SymbolRow(blob, x.defs[i])];
      }
      for i := 0 to |x.refs|
        invariant refs == old(refs) + RefRows(blob, x.refs)[..i]
        invariant blobs == old(blobs)[blob := lang] && symbols == old(symbols) + SymbolRows(blob, x.defs) && manifest == old(manifest)
      {
        refs := refs + [RefRow(blob, x.refs[i])];
      }
    }

    method ReplaceManifest(branch: string, root: string, es: seq<Entry>)
      modifies this`manifest
      ensures View() == WithManifest(old(View()), branch, root, es)
    {
      manifest := Without(manifest, branch, root);
      for i := 0 to |es|
        invariant manifest == Without(old(manifest), branch, root) + ManifestRows(branch, root, es)[..i]
      {
        manifest := manifest + [ManifestRow(branch, root, es[i])];
      }
    }

    method BlastRadius(name: Name, branch: string) returns (deps: set<Name>)
      ensures forall x :: x in deps <==> DependsOn(ActiveEdges(View(), branch), name, x)
    {
      deps := Dependents(ActiveEdges(View(), branch), name);
    }
  }

  // One entry whose blob is not in the store yet: true when it was parsed.
  method AddBlob(store: Store, o: Oracle, readable: Sha -> bool, e: Entry) returns (parsed: bool)
    requires e.blob !in store.blobs
    modifies store
    ensures store.View() == WithEntry(o, readable, old(store.View()), e)
    ensures parsed == (readable(e.blob) && o.extract(e.blob, o.lang(e.path)).Some?)
  {
    var extraction := if readable(e.blob) then o.extract(e.blob, o.lang(e.path)) else None;
    if extraction.None? {
      store.InsertBlob(e.blob, o.lang(e.path), NOTHING);
      return false;
    }
    store.InsertBlob(e.blob, o.lang(e.path), extraction.value);
    parsed := true;
  }

  // The body of the loop: skip what this run has handled, skip what is stored, else read and parse.
  method VisitEntry(store: Store, o: Oracle, readable: Sha -> bool, entry: Entry, processed: set<Sha>)
    returns (parsed: bool, skip: bool)
    requires processed <= store.View().blobs.Keys
    modifies store
    ensures store.View() == WithEntry(o, readable, old(store.View()), entry)
    ensures skip == (entry.blob !in processed && entry.blob in old(store.View()).blobs)
    ensures parsed == (entry.blob !in old(store.View()).blobs && readable(entry.blob) && o.extract(entry.blob, o.lang(entry.path)).Some?)
  {
    if entry.blob in processed { return false, false; }
    if entry.blob in store.blobs { return false, true; }
    parsed := AddBlob(store, o, readable, entry);
    skip := false;
  }

  /** The blob-delta loop leaves what indexing every entry would, and reports how many distinct blobs it
      parsed and how many were already there. */
  method IndexRepo(store: Store, o: Oracle, run: Run) returns (indexed: nat, skipped: nat, files: nat)
    modifies store
    ensures store.View() == AfterRun(o, run, old(store.View()))
    ensures indexed == |Parsed(o, run.readable, old(store.View()), Entries(o, run))|
    ensures skipped == |BlobsOf(Entries(o, run)) * old(store.View()).blobs.Keys|
    ensures files == |Entries(o, run)|
  {
    hide *;
    var es := Entries(o, run);
    ghost var was := store.View();
    indexed, skipped := 0, 0;
    var processed: set<Sha> := {};
    NothingParsed(o, run.readable, was, es);
    for k := 0 to |es|
      invariant Progress(o, run.readable, was, es[..k], store.View(), processed, indexed, skipped)
    {
      ProgressOneMore(o, run.readable, was, es, k, store.View(), processed, indexed, skipped);
      var parsed, skip := VisitEntry(store, o, run.readable, es[k], processed);
      processed := processed + {es[k].blob};
      if parsed { indexed := indexed + 1; }
      if skip { skipped := skipped + 1; }
    }
    assert es[..|es|] == es;
    ProgressIs(o, run.readable, was, es, store.View(), processed, indexed, skipped);
    store.ReplaceManifest(run.branch, run.root, es);
    files := |es|;
    AfterRunIs(o, run, was);
  }

  // Where the loop is after the entries `done`.
  ghost predicate Progress(o: Oracle, readable: Sha -> bool, was: Tables, done: seq<Entry>, now: Tables,
                           processed: set<Sha>, indexed: nat, skipped: nat) {
    && now == WithEntries(o, readable, was, done) && processed == BlobsOf(done)
    && indexed == |Parsed(o, readable, was, done)| && skipped == |BlobsOf(done) * was.blobs.Keys|
  }

  lemma ProgressIs(o: Oracle, readable: Sha -> bool, was: Tables, done: seq<Entry>, now: Tables,
                   processed: set<Sha>, indexed: nat, skipped: nat)
    requires Progress(o, readable, was, done, now, processed, indexed, skipped)
    ensures now == WithEntries(o, readable, was, done)
    ensures indexed == |Parsed(o, readable, was, done)| && skipped == |BlobsOf(done) * was.blobs.Keys|
  {
  }

  lemma ProgressOneMore(o: Oracle, readable: Sha -> bool, was: Tables, es: seq<Entry>, k: nat, now: Tables,
                        processed: set<Sha>, indexed: nat, skipped: nat)
    requires k < |es| && Progress(o, readable, was, es[..k], now, processed, indexed, skipped)
    ensures processed <= now.blobs.Keys
    ensures var e := es[k];
      Progress(o, readable, was, es[..k + 1], WithEntry(o, readable, now, e), processed + {e.blob},
        indexed + (if e.blob !in now.blobs && readable(e.blob) && o.extract(e.blob, o.lang(e.path)).Some? then 1 else 0),
        skipped + (if e.blob !in processed && e.blob in now.blobs then 1 else 0))
  {
    hide WithEntry, WithEntries, Parsed, BlobsOf;
    EntriesGetKnown(o, readable, was, es[..k]);
    OneEntryMore(o, readable, was, es, k);
    CountOneMore(o, readable, was, es, k);
  }

  lemma CountOneMore(o: Oracle, readable: Sha -> bool, t: Tables, es: seq<Entry>, k: nat)
    requires k < |es|
    ensures BlobsOf(es[..k + 1]) == BlobsOf(es[..k]) + {es[k].blob}
    ensures |Parsed(o, readable, t, es[..k + 1])| == |Parsed(o, readable, t, es[..k])| +
      if es[k].blob !in t.blobs.Keys + BlobsOf(es[..k]) && readable(es[k].blob) && o.extract(es[k].blob, o.lang(es[k].path)).Some? then 1 else 0
    ensures |BlobsOf(es[..k + 1]) * t.blobs.Keys| == |BlobsOf(es[..k]) * t.blobs.Keys| +
      if es[k].blob !in BlobsOf(es[..k]) && es[k].blob in t.blobs.Keys + BlobsOf(es[..k]) then 1 else 0
  {
    hide Parsed, BlobsOf;
    ParsedOneMore(o, readable, t, es, k);
    if es[k].blob in BlobsOf(es[..k]) {
      assert BlobsOf(es[..k + 1]) == BlobsOf(es[..k]);
    } else {
      SkippedOneMore(BlobsOf(es[..k]), t.blobs.Keys, es[k].blob);
    }
  }

  lemma NothingParsed(o: Oracle, readable: Sha -> bool, t: Tables, es: seq<Entry>)
    ensures Parsed(o, readable, t, es[..0]) == {} && BlobsOf(es[..0]) == {} && WithEntries(o, readable, t, es[..0]) == t
    ensures Progress(o, readable, t, es[..0], t, {}, 0, 0)
  {
  }

  lemma AfterRunIs(o: Oracle, run: Run, t: Tables)
    ensures AfterRun(o, run, t) ==
      WithManifest(WithEntries(o, run.readable, t, Entries(o, run)), run.branch, run.root, Entries(o, run))
  {
  }

  lemma OneEntryMore(o: Oracle, readable: Sha -> bool, t: Tables, es: seq<Entry>, k: nat)
    requires k < |es|
    ensures var t' := WithEntries(o, readable, t, es[..k]);
      && WithEntries(o, readable, t, es[..k + 1]) == WithEntry(o, readable, t', es[k])
      && (es[k].blob in t'.blobs ==> WithEntries(o, readable, t, es[..k + 1]) == t')
  {
    assert es[..k + 1][..k] == es[..k];
  }

  lemma SkippedOneMore(processed: set<Sha>, known: set<Sha>, blob: Sha)
    requires blob !in processed
    ensures |(processed + {blob}) * known| == |processed * known| + if blob in known then 1 else 0
  {
    if blob in known {
      assert (processed + {blob}) * known == processed * known + {blob};
    } else {
      assert (processed + {blob}) * known == processed * known;
    }
  }
}
