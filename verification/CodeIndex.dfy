/** The content-addressed code index: tables of rows, the blob-delta indexing of a branch, and the
    structural queries. Reading a blob and extracting its symbols are oracles. */
module CodeIndex {
  import opened Prelude

  type Sha = string
  type Path = string
  type Lang = string
  type Name = string

  const MODULE := "<module>"

  datatype Def = Def(name: Name, kind: string, line: int)
  datatype Edge = Edge(caller: Name, dst: Name, kind: string, line: int, confidence: string)
  datatype Extraction = Extraction(defs: seq<Def>, refs: seq<Edge>)

  const NOTHING := Extraction([], [])

  datatype Entry = Entry(path: Path, blob: Sha)

  datatype SymbolRow = SymbolRow(blob: Sha, def: Def)
  datatype RefRow = RefRow(blob: Sha, edge: Edge)
  datatype ManifestRow = ManifestRow(branch: string, root: string, entry: Entry)

  datatype Tables = Tables(
    blobs: map<Sha, Lang>,                // blob_sha is the primary key
    symbols: seq<SymbolRow>,
    refs: seq<RefRow>,
    manifest: seq<ManifestRow>)

  // ---- Queries, as sets of hits ---------------------------------------------------------

  datatype SymbolHit = SymbolHit(name: Name, kind: string, path: Path, line: int)
  datatype RefHit = RefHit(caller: Name, path: Path, line: int, kind: string, confidence: string)

  function Hit(d: Def, path: Path): SymbolHit { SymbolHit(d.name, d.kind, path, d.line) }

  // Some definition of `name` sits on the branch.
  ghost predicate Resolves(t: Tables, name: Name, branch: string) {
    exists sd, m :: sd in t.symbols && m in t.manifest && sd.def.name == name && m.branch == branch && m.entry.blob == sd.blob
  }

  ghost predicate IsSymbol(t: Tables, name: Name, branch: string, hit: SymbolHit) {
    exists s, m :: s in t.symbols && m in t.manifest && m.branch == branch && m.entry.blob == s.blob &&
      s.def.name == name && hit == Hit(s.def, m.entry.path)
  }

  ghost predicate IsCaller(t: Tables, name: Name, branch: string, hit: SymbolHit) {
    exists r, m, s :: r in t.refs && m in t.manifest && s in t.symbols &&
      m.branch == branch && m.entry.blob == r.blob && s.blob == r.blob && s.def.name == r.edge.caller &&
      Resolves(t, r.edge.dst, branch) && r.edge.dst == name && r.edge.caller != MODULE && hit == Hit(s.def, m.entry.path)
  }

  ghost predicate IsCallee(t: Tables, name: Name, branch: string, hit: SymbolHit) {
    exists r, m, sd, md :: r in t.refs && m in t.manifest && sd in t.symbols && md in t.manifest &&
      m.branch == branch && m.entry.blob == r.blob && sd.def.name == r.edge.dst &&
      md.branch == branch && md.entry.blob == sd.blob && r.edge.caller == name && hit == Hit(sd.def, md.entry.path)
  }

  ghost predicate IsReference(t: Tables, name: Name, branch: string, hit: RefHit) {
    exists r, m :: r in t.refs && m in t.manifest && m.branch == branch && m.entry.blob == r.blob &&
      Resolves(t, r.edge.dst, branch) && r.edge.dst == name &&
      hit == RefHit(r.edge.caller, m.entry.path, r.edge.line, r.edge.kind, r.edge.confidence)
  }

  // The call edges whose both ends are on the branch.
  ghost predicate IsActive(t: Tables, branch: string, caller: Name, callee: Name) {
    exists r, m :: r in t.refs && m in t.manifest && m.branch == branch && m.entry.blob == r.blob &&
      Resolves(t, r.edge.dst, branch) && r.edge.caller == caller && r.edge.dst == callee
  }

  // ---- The same questions asked of the files themselves ---------------------------------

  datatype File = File(path: Path, defs: set<Def>, refs: set<Edge>)

  function FileOf(path: Path, x: Extraction): File {
    File(path, set d | d in x.defs, set e | e in x.refs)
  }

  ghost predicate Defined(files: set<File>, name: Name) { exists f, d :: f in files && d in f.defs && d.name == name }

  ghost predicate HasSymbol(files: set<File>, name: Name, hit: SymbolHit) {
    exists f, d :: f in files && d in f.defs && d.name == name && hit == Hit(d, f.path)
  }

  // A definition in the file of a call to `name`, named as the caller.
  ghost predicate HasCaller(files: set<File>, name: Name, hit: SymbolHit) {
    Defined(files, name) &&
    exists f, e, d :: f in files && e in f.refs && d in f.defs && e.dst == name && e.caller != MODULE &&
      d.name == e.caller && hit == Hit(d, f.path)
  }

  ghost predicate HasCallee(files: set<File>, name: Name, hit: SymbolHit) {
    exists f, e, g, d :: f in files && e in f.refs && e.caller == name && g in files && d in g.defs &&
      d.name == e.dst && hit == Hit(d, g.path)
  }

  ghost predicate HasReference(files: set<File>, name: Name, hit: RefHit) {
    Defined(files, name) &&
    exists f, e :: f in files && e in f.refs && e.dst == name && hit == RefHit(e.caller, f.path, e.line, e.kind, e.confidence)
  }

  ghost predicate Calls(files: set<File>, caller: Name, callee: Name) {
    Defined(files, callee) && exists f, e :: f in files && e in f.refs && e.caller == caller && e.dst == callee
  }

  // What the tables say about the files of a branch.
  function DefsOf(t: Tables, blob: Sha): set<Def> { set s | s in t.symbols && s.blob == blob :: s.def }

  function RefsOf(t: Tables, blob: Sha): set<Edge> { set r | r in t.refs && r.blob == blob :: r.edge }

  function Files(t: Tables, branch: string): set<File> {
    set m | m in t.manifest && m.branch == branch :: File(m.entry.path, DefsOf(t, m.entry.blob), RefsOf(t, m.entry.blob))
  }

  function FileAt(t: Tables, m: ManifestRow): File { File(m.entry.path, DefsOf(t, m.entry.blob), RefsOf(t, m.entry.blob)) }

  lemma FileOnBranch(t: Tables, branch: string, f: File) returns (m: ManifestRow)
    requires f in Files(t, branch)
    ensures m in t.manifest && m.branch == branch && f == FileAt(t, m)
  {
    m :| m in t.manifest && m.branch == branch && f == File(m.entry.path, DefsOf(t, m.entry.blob), RefsOf(t, m.entry.blob));
  }

  lemma RowsOnBranch(t: Tables, branch: string, m: ManifestRow)
    requires m in t.manifest && m.branch == branch
    ensures FileAt(t, m) in Files(t, branch) && FileAt(t, m).path == m.entry.path
    ensures forall s | s in t.symbols && s.blob == m.entry.blob :: s.def in FileAt(t, m).defs
    ensures forall r | r in t.refs && r.blob == m.entry.blob :: r.edge in FileAt(t, m).refs
    ensures forall d | d in FileAt(t, m).defs :: SymbolRow(m.entry.blob, d) in t.symbols
    ensures forall e | e in FileAt(t, m).refs :: RefRow(m.entry.blob, e) in t.refs
  {
    forall d | d in FileAt(t, m).defs ensures SymbolRow(m.entry.blob, d) in t.symbols {
      var s :| s in t.symbols && s.blob == m.entry.blob && s.def == d;
      assert s == SymbolRow(m.entry.blob, d);
    }
    forall e | e in FileAt(t, m).refs ensures RefRow(m.entry.blob, e) in t.refs {
      var r :| r in t.refs && r.blob == m.entry.blob && r.edge == e;
      assert r == RefRow(m.entry.blob, e);
    }
  }

  lemma ResolvesExactly(t: Tables, name: Name, branch: string)
    ensures Resolves(t, name, branch) <==> Defined(Files(t, branch), name)
  {
    if Resolves(t, name, branch) {
      var sd, m :| sd in t.symbols && m in t.manifest && sd.def.name == name && m.branch == branch && m.entry.blob == sd.blob;
      RowsOnBranch(t, branch, m);
      assert FileAt(t, m) in Files(t, branch) && sd.def in FileAt(t, m).defs;
    }
    if Defined(Files(t, branch), name) {
      var f, d :| f in Files(t, branch) && d in f.defs && d.name == name;
      var m := FileOnBranch(t, branch, f);
      RowsOnBranch(t, branch, m);
      assert SymbolRow(m.entry.blob, d) in t.symbols;
    }
  }

  lemma SymbolExactly(t: Tables, name: Name, branch: string, hit: SymbolHit)
    ensures IsSymbol(t, name, branch, hit) <==> HasSymbol(Files(t, branch), name, hit)
  {
    if IsSymbol(t, name, branch, hit) {
      var s, m :| s in t.symbols && m in t.manifest && m.branch == branch && m.entry.blob == s.blob &&
        s.def.name == name && hit == Hit(s.def, m.entry.path);
      RowsOnBranch(t, branch, m);
      assert FileAt(t, m) in Files(t, branch) && s.def in FileAt(t, m).defs;
    }
    if HasSymbol(Files(t, branch), name, hit) {
      var f, d :| f in Files(t, branch) && d in f.defs && d.name == name && hit == Hit(d, f.path);
      var m := FileOnBranch(t, branch, f);
      RowsOnBranch(t, branch, m);
      assert SymbolRow(m.entry.blob, d) in t.symbols;
    }
  }

  lemma CallerExactly(t: Tables, name: Name, branch: string, hit: SymbolHit)
    ensures IsCaller(t, name, branch, hit) <==> HasCaller(Files(t, branch), name, hit)
  {
    hide Resolves, Defined, Files, DefsOf, RefsOf, FileAt;
    ResolvesExactly(t, name, branch);
    if IsCaller(t, name, branch, hit) {
      var r, m, s :| r in t.refs && m in t.manifest && s in t.symbols &&
        m.branch == branch && m.entry.blob == r.blob && s.blob == r.blob && s.def.name == r.edge.caller &&
        Resolves(t, r.edge.dst, branch) && r.edge.dst == name && r.edge.caller != MODULE && hit == Hit(s.def, m.entry.path);
      RowsOnBranch(t, branch, m);
      assert FileAt(t, m) in Files(t, branch) && r.edge in FileAt(t, m).refs && s.def in FileAt(t, m).defs;
    }
    if HasCaller(Files(t, branch), name, hit) {
      var f, e, d :| f in Files(t, branch) && e in f.refs && d in f.defs && e.dst == name && e.caller != MODULE &&
        d.name == e.caller && hit == Hit(d, f.path);
      var m := FileOnBranch(t, branch, f);
      RowsOnBranch(t, branch, m);
      assert RefRow(m.entry.blob, e) in t.refs && SymbolRow(m.entry.blob, d) in t.symbols;
    }
  }

  lemma CalleeExactly(t: Tables, name: Name, branch: string, hit: SymbolHit)
    ensures IsCallee(t, name, branch, hit) <==> HasCallee(Files(t, branch), name, hit)
  {
    if IsCallee(t, name, branch, hit) { CalleeIsInFiles(t, name, branch, hit); }
    if HasCallee(Files(t, branch), name, hit) { CalleeIsInTables(t, name, branch, hit); }
  }

  lemma CalleeIsInFiles(t: Tables, name: Name, branch: string, hit: SymbolHit)
    requires IsCallee(t, name, branch, hit)
    ensures HasCallee(Files(t, branch), name, hit)
  {
    hide Files, DefsOf, RefsOf, FileAt;
    var r, m, sd, md :| r in t.refs && m in t.manifest && sd in t.symbols && md in t.manifest &&
      m.branch == branch && m.entry.blob == r.blob && sd.def.name == r.edge.dst &&
      md.branch == branch && md.entry.blob == sd.blob && r.edge.caller == name && hit == Hit(sd.def, md.entry.path);
    RowsOnBranch(t, branch, m);
    RowsOnBranch(t, branch, md);
    assert r.edge in FileAt(t, m).refs && sd.def in FileAt(t, md).defs;
  }

  lemma CalleeIsInTables(t: Tables, name: Name, branch: string, hit: SymbolHit)
    requires HasCallee(Files(t, branch), name, hit)
    ensures IsCallee(t, name, branch, hit)
  {
    hide Files, DefsOf, RefsOf, FileAt;
    var f, e, g, d :| f in Files(t, branch) && e in f.refs && e.caller == name && g in Files(t, branch) && d in g.defs &&
      d.name == e.dst && hit == Hit(d, g.path);
    var m := FileOnBranch(t, branch, f);
    var md := FileOnBranch(t, branch, g);
    RowsOnBranch(t, branch, m);
    RowsOnBranch(t, branch, md);
    assert RefRow(m.entry.blob, e) in t.refs && SymbolRow(md.entry.blob, d) in t.symbols;
  }

  lemma ReferenceExactly(t: Tables, name: Name, branch: string, hit: RefHit)
    ensures IsReference(t, name, branch, hit) <==> HasReference(Files(t, branch), name, hit)
  {
    ResolvesExactly(t, name, branch);
    if IsReference(t, name, branch, hit) {
      var r, m :| r in t.refs && m in t.manifest && m.branch == branch && m.entry.blob == r.blob &&
        Resolves(t, r.edge.dst, branch) && r.edge.dst == name &&
        hit == RefHit(r.edge.caller, m.entry.path, r.edge.line, r.edge.kind, r.edge.confidence);
      RowsOnBranch(t, branch, m);
      assert FileAt(t, m) in Files(t, branch) && r.edge in FileAt(t, m).refs;
    }
    if HasReference(Files(t, branch), name, hit) {
      var f, e :| f in Files(t, branch) && e in f.refs && e.dst == name &&
        hit == RefHit(e.caller, f.path, e.line, e.kind, e.confidence);
      var m := FileOnBranch(t, branch, f);
      RowsOnBranch(t, branch, m);
      assert RefRow(m.entry.blob, e) in t.refs;
    }
  }

  lemma ActiveExactly(t: Tables, branch: string, caller: Name, callee: Name)
    ensures IsActive(t, branch, caller, callee) <==> Calls(Files(t, branch), caller, callee)
  {
    ResolvesExactly(t, callee, branch);
    if IsActive(t, branch, caller, callee) {
      var r, m :| r in t.refs && m in t.manifest && m.branch == branch && m.entry.blob == r.blob &&
        Resolves(t, r.edge.dst, branch) && r.edge.caller == caller && r.edge.dst == callee;
      RowsOnBranch(t, branch, m);
      assert FileAt(t, m) in Files(t, branch) && r.edge in FileAt(t, m).refs;
    }
    if Calls(Files(t, branch), caller, callee) {
      var f, e :| f in Files(t, branch) && e in f.refs && e.caller == caller && e.dst == callee;
      var m := FileOnBranch(t, branch, f);
      RowsOnBranch(t, branch, m);
      assert RefRow(m.entry.blob, e) in t.refs;
    }
  }

  /** The answer of every query depends on the tables only through the files of the branch, and is the
      answer those files give. */
  lemma QueriesReadTheFiles(t: Tables, name: Name, branch: string)
    ensures forall hit :: IsSymbol(t, name, branch, hit) <==> HasSymbol(Files(t, branch), name, hit)
    ensures forall hit :: IsCaller(t, name, branch, hit) <==> HasCaller(Files(t, branch), name, hit)
    ensures forall hit :: IsCallee(t, name, branch, hit) <==> HasCallee(Files(t, branch), name, hit)
    ensures forall hit :: IsReference(t, name, branch, hit) <==> HasReference(Files(t, branch), name, hit)
    ensures forall caller, callee :: IsActive(t, branch, caller, callee) <==> Calls(Files(t, branch), caller, callee)
  {
    hide *;
    forall hit ensures IsSymbol(t, name, branch, hit) <==> HasSymbol(Files(t, branch), name, hit) {
      SymbolExactly(t, name, branch, hit);
    }
    forall hit ensures IsCaller(t, name, branch, hit) <==> HasCaller(Files(t, branch), name, hit) {
      CallerExactly(t, name, branch, hit);
    }
    forall hit ensures IsCallee(t, name, branch, hit) <==> HasCallee(Files(t, branch), name, hit) {
      CalleeExactly(t, name, branch, hit);
    }
    forall hit ensures IsReference(t, name, branch, hit) <==> HasReference(Files(t, branch), name, hit) {
      ReferenceExactly(t, name, branch, hit);
    }
    forall caller, callee ensures IsActive(t, branch, caller, callee) <==> Calls(Files(t, branch), caller, callee) {
      ActiveExactly(t, branch, caller, callee);
    }
  }
}
