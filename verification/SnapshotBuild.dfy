/**
  Building the rows of a snapshot from the files of one commit, with and without
  the cache of parsed-file facts.
*/
module SnapshotBuild {
  import opened Prelude
  import opened PyAst
  import F = FileFacts
  import I = ImportTargets
  import P = PythonChunks
  import R = Relations
  import T = TextEdges

  type Bytes = seq<Byte>

  /** The scope files are parsed under before they belong to a snapshot. */
  const SCOPE := "file-facts"

  datatype Parsed = Parsed(path: string, errors: bool, encoding: string, data: Bytes, hash: string,
                           facts: F.Facts, tree: Option<seq<Node>>)

  /** parse_file for a parser revision, the content hash, the supported file names, and what text patterns find. */
  datatype Toolchain = Toolchain(
    parse: (string, string, Bytes) -> Parsed,
    sha: Bytes -> string,
    supported: string -> bool,
    text: Parsed -> (seq<T.Extension>, seq<T.Mention>, set<(NodeId, string)>))

  ghost predicate Injective(tc: Toolchain) {
    forall a, b :: tc.sha(a) == tc.sha(b) ==> a == b
  }

  /** How a file is cut: _chunks_for on its lines, for some pair of limits. */
  datatype Cutting = Cutting(cut: (nat, nat) -> seq<P.Chunk>, offsets: seq<nat>, maxBytes: int, maxLines: nat)

  ghost predicate LineCut(p: Parsed, how: Cutting) {
    forall s :: s in p.facts.symbols ==>
      P.SymbolChunks(how.offsets, p.data, s.startLine, s.endLine, how.maxBytes, how.maxLines, how.cut(s.startLine, s.endLine))
  }

  function ContextOf(p: Parsed, scope: string, how: Cutting): F.Context { F.Context(scope, p.path, how.cut) }

  ghost predicate ReadFromTree(p: Parsed, scope: string, how: Cutting)
    requires p.tree.Some?
  {
    p.facts == F.FileFactsOf(ContextOf(p, scope, how), p.tree.value) && LineCut(p, how)
  }

  /** The file has the facts of its tree under a scope, its symbols cut along the lines of its data. */
  ghost predicate FactsOfTree(p: Parsed, scope: string)
    requires p.tree.Some?
  {
    exists how :: ReadFromTree(p, scope, how)
  }

  ghost predicate ChunksInside(p: Parsed) {
    forall c :: c in p.facts.chunks ==> c.path == p.path && c.piece.start <= c.piece.end <= |p.data|
  }

  /** Facts name their own symbols and ranges of the data; a file with a tree has the facts of that tree. */
  ghost predicate SoundFile(p: Parsed) {
    && F.WellFormed(p.facts, SCOPE) && F.ParentsKnown(p.facts, None)
    && if p.tree.Some? then FactsOfTree(p, SCOPE) else ChunksInside(p) && F.PathsAre(p.facts, p.path)
  }

  ghost predicate Describes(tc: Toolchain, p: Parsed, path: string, data: Bytes) {
    p.path == path && p.data == data && p.hash == tc.sha(data)
  }

  ghost predicate Sound(tc: Toolchain) {
    && Injective(tc)
    && forall revision, path, data ::
         SoundFile(tc.parse(revision, path, data)) && Describes(tc, tc.parse(revision, path, data), path, data)
  }

  datatype Entry = Entry(path: string, object_: string, included: bool)

  /** One build: its lease, the snapshot id, the tree listing and the contents behind the object ids. */
  datatype Request = Request(revision: string, rules: string, snapshot: string, entries: seq<Entry>, blob: string -> Bytes)

  datatype Key = Key(hash: string, path: string, revision: string, rules: string)

  function KeyOf(tc: Toolchain, r: Request, e: Entry): Key {
    Key(tc.sha(r.blob(e.object_)), e.path, r.revision, r.rules)
  }

  /** What the loop over the entries accumulates; `parsed` holds the rebound files that had no errors. */
  datatype Progress = Progress(parsed: seq<(Entry, Parsed)>, failed: seq<string>, included: nat, unsupported: nat)

  const START := Progress([], [], 0, 0)

  predicate Wanted(tc: Toolchain, r: Request, e: Entry) {
    e.included && (R.EndsWith(e.path, ".py") || (!("python" <= r.revision) && tc.supported(e.path)))
  }

  ghost function ReboundFile(p: Parsed, to: string): Parsed
    requires SoundFile(p)
  {
    p.(facts := F.Rebound(p.facts, SCOPE, to))
  }

  /** The effect of one entry, given its parse. */
  ghost function Advance(tc: Toolchain, r: Request, e: Entry, p: Parsed, was: Progress): Progress
    requires SoundFile(p)
  {
    if !Wanted(tc, r, e) then
      if e.included && !tc.supported(e.path) then was.(unsupported := was.unsupported + 1) else was
    else if p.errors then was.(included := was.included + 1, failed := was.failed + [e.path])
    else was.(included := was.included + 1, parsed := was.parsed + [(e, ReboundFile(p, r.snapshot))])
  }

  function Parse(tc: Toolchain, r: Request, e: Entry): Parsed {
    tc.parse(r.revision, e.path, r.blob(e.object_))
  }

  /** A build without the cache, after n entries. */
  ghost function Fresh(tc: Toolchain, r: Request, n: nat): Progress
    requires Sound(tc) && n <= |r.entries|
  {
    if n == 0 then START
    else Advance(tc, r, r.entries[n - 1], Parse(tc, r, r.entries[n - 1]), Fresh(tc, r, n - 1))
  }

  /* ---------- the cache ---------- */

  type Cache = map<Key, Parsed>

  /** An entry is what parsing any blob with the entry's hash would give. */
  ghost predicate Agrees(tc: Toolchain, cache: Cache) {
    && (forall k :: k in cache ==> SoundFile(cache[k]))
    && (forall k, data :: k in cache && tc.sha(data) == k.hash ==> cache[k] == tc.parse(k.revision, k.path, data))
  }

  /** A build with the cache, after n entries: progress, cache and hits. */
  ghost function Cached(tc: Toolchain, r: Request, n: nat, cache: Cache): (result: (Progress, Cache, nat))
    requires Sound(tc) && n <= |r.entries| && Agrees(tc, cache)
    ensures Agrees(tc, result.1)
  {
    if n == 0 then (START, cache, 0)
    else
      var (was, c, hits) := Cached(tc, r, n - 1, cache);
      var e := r.entries[n - 1];
      if !Wanted(tc, r, e) then (Advance(tc, r, e, Parse(tc, r, e), was), c, hits)
      else
        var key := KeyOf(tc, r, e);
        if key in c then (Advance(tc, r, e, c[key], was), c, hits + 1)
        else
          PutAgrees(tc, r, e, c);
          (Advance(tc, r, e, Parse(tc, r, e), was), c[key := Parse(tc, r, e)], hits)
  }

  lemma PutAgrees(tc: Toolchain, r: Request, e: Entry, c: Cache)
    requires Sound(tc) && Agrees(tc, c)
    ensures Agrees(tc, c[KeyOf(tc, r, e) := Parse(tc, r, e)])
  {
  }

  /** The cache changes nothing but the number of hits. */
  lemma {:induction false} CachedIsFresh(tc: Toolchain, r: Request, n: nat, cache: Cache)
    requires Sound(tc) && n <= |r.entries| && Agrees(tc, cache)
    ensures Cached(tc, r, n, cache).0 == Fresh(tc, r, n)
  {
    if n > 0 {
      CachedIsFresh(tc, r, n - 1, cache);
    }
  }

  /** The progress of each build in a sequence that shares one cache. */
  ghost function CachedBuilds(tc: Toolchain, rs: seq<Request>, cache: Cache): (result: (seq<Progress>, Cache))
    requires Sound(tc) && Agrees(tc, cache)
    ensures Agrees(tc, result.1)
  {
    if rs == [] then ([], cache)
    else
      var (done, c) := CachedBuilds(tc, rs[..|rs| - 1], cache);
      var r := rs[|rs| - 1];
      var built := Cached(tc, r, |r.entries|, c);
      (done + [built.0], built.1)
  }

  /** The last of a sequence of builds gives the result of a fresh one, whatever the others left in the cache. */
  lemma LastBuildIsFresh(tc: Toolchain, rs: seq<Request>, cache: Cache)
    requires Sound(tc) && Agrees(tc, cache) && rs != []
    ensures var n := |rs| - 1;
      CachedBuilds(tc, rs, cache).0 == CachedBuilds(tc, rs[..n], cache).0 + [Fresh(tc, rs[n], |rs[n].entries|)]
  {
    var last, c := rs[|rs| - 1], CachedBuilds(tc, rs[..|rs| - 1], cache).1;
    CachedIsFresh(tc, last, |last.entries|, c);
  }

  /** Each build on its own. */
  ghost function FreshBuilds(tc: Toolchain, rs: seq<Request>): seq<Progress>
    requires Sound(tc)
  {
    seq(|rs|, i requires 0 <= i < |rs| => Fresh(tc, rs[i], |rs[i].entries|))
  }

  lemma FreshBuildsGrow(tc: Toolchain, rs: seq<Request>)
    requires Sound(tc) && rs != []
    ensures var n := |rs| - 1; FreshBuilds(tc, rs) == FreshBuilds(tc, rs[..n]) + [Fresh(tc, rs[n], |rs[n].entries|)]
  {
  }

  /** Over any sequence of builds, sharing the cache gives every build the result of a fresh one. */
  lemma {:induction false} EveryCachedBuildIsFresh(tc: Toolchain, rs: seq<Request>, cache: Cache)
    requires Sound(tc) && Agrees(tc, cache)
    ensures CachedBuilds(tc, rs, cache).0 == FreshBuilds(tc, rs)
  {
    if rs != [] {
      EveryCachedBuildIsFresh(tc, rs[..|rs| - 1], cache);
      LastBuildIsFresh(tc, rs, cache);
      FreshBuildsGrow(tc, rs);
    }
  }

  class FactCache {
    var facts: Cache

    constructor ()
      ensures facts == map[]
    {
      facts := map[];
    }

    method Get(key: Key) returns (value: Option<Parsed>)
      ensures value == if key in facts then Some(facts[key]) else None
    {
      value := if key in facts then Some(facts[key]) else None;
    }

    method Put(key: Key, value: Parsed)
      modifies this
      ensures facts == old(facts)[key := value]
    {
      facts := facts[key := value];
    }
  }

  method RebindFile(p: Parsed, to: string) returns (q: Parsed)
    requires SoundFile(p)
    ensures q == ReboundFile(p, to)
  {
    var facts := F.Rebind(p.facts, SCOPE, to);
    q := p.(facts := facts);
  }

  /** One turn of the loop: cache lookup, parse, put, rebind, record. */
  method BuildEntry(tc: Toolchain, r: Request, e: Entry, cache: FactCache?, was: Progress) returns (next: Progress, hit: bool)
    requires Sound(tc) && (cache != null ==> Agrees(tc, cache.facts))
    modifies cache
    ensures next == Advance(tc, r, e, Parse(tc, r, e), was)
    ensures cache != null ==> Agrees(tc, cache.facts)
    ensures cache != null && Wanted(tc, r, e) ==>
      cache.facts == old(cache.facts)[KeyOf(tc, r, e) := Parse(tc, r, e)] && (hit <==> KeyOf(tc, r, e) in old(cache.facts))
    ensures cache != null && !Wanted(tc, r, e) ==> cache.facts == old(cache.facts) && !hit
    ensures cache != null ==> old(cache.facts).Keys <= cache.facts.Keys
  {
    hit, next := false, was;
    if !Wanted(tc, r, e) {
      if e.included && !tc.supported(e.path) {
        next := was.(unsupported := was.unsupported + 1);
      }
      return;
    }
    var data := r.blob(e.object_);
    var key := Key(tc.sha(data), e.path, r.revision, r.rules);
    var found: Option<Parsed> := None;
    if cache != null {
      found := cache.Get(key);
    }
    var parsed: Parsed;
    if found.Some? {
      hit, parsed := true, found.value;
    } else {
      parsed := tc.parse(r.revision, e.path, data);
      if cache != null {
        PutAgrees(tc, r, e, cache.facts);
        cache.Put(key, parsed);
      }
    }
    next := was.(included := was.included + 1);
    if parsed.errors {
      next := next.(failed := was.failed + [e.path]);
    } else {
      var rebound := RebindFile(parsed, r.snapshot);
      next := next.(parsed := was.parsed + [(e, rebound)]);
    }
  }

  /** The turn for entry i, seen from the whole build. */
  method BuildNext(tc: Toolchain, r: Request, i: nat, cache: FactCache?, was: Progress) returns (next: Progress, hit: bool)
    requires Sound(tc) && (cache != null ==> Agrees(tc, cache.facts))
    requires i < |r.entries| && was == Fresh(tc, r, i)
    modifies cache
    ensures next == Fresh(tc, r, i + 1) && (cache == null ==> !hit)
    ensures cache != null ==> Agrees(tc, cache.facts) && old(cache.facts).Keys <= cache.facts.Keys
  {
    var found;
    next, found := BuildEntry(tc, r, r.entries[i], cache, was);
    hit := found && cache != null;
  }

  /** SnapshotBuilder.build up to the rows: the result never depends on the cache. */
  method Build(tc: Toolchain, r: Request, cache: FactCache?) returns (progress: Progress, hits: nat)
    requires Sound(tc) && (cache != null ==> Agrees(tc, cache.facts))
    modifies cache
    ensures progress == Fresh(tc, r, |r.entries|)
    ensures cache != null ==> Agrees(tc, cache.facts) && old(cache.facts).Keys <= cache.facts.Keys
    ensures hits <= |r.entries| && (cache == null ==> hits == 0)
  {
    progress, hits := START, 0;
    var i := 0;
    while i < |r.entries|
      invariant 0 <= i <= |r.entries| && hits <= i && (cache == null ==> hits == 0)
      invariant progress == Fresh(tc, r, i)
      invariant cache != null ==> Agrees(tc, cache.facts) && old(cache.facts).Keys <= cache.facts.Keys
    {
      var hit;
      progress, hit := BuildNext(tc, r, i, cache, progress);
      hits := if hit then hits + 1 else hits;
      i := i + 1;
    }
  }

  lemma ReboundHasFactsOfTree(p: Parsed, to: string)
    requires SoundFile(p) && p.tree.Some?
    ensures FactsOfTree(ReboundFile(p, to), to)
  {
    var how :| ReadFromTree(p, SCOPE, how);
    F.RebindIsReparse(ContextOf(p, SCOPE, how), to, p.tree.value);
    var q := ReboundFile(p, to);
    forall s | s in q.facts.symbols
      ensures P.SymbolChunks(how.offsets, q.data, s.startLine, s.endLine, how.maxBytes, how.maxLines, how.cut(s.startLine, s.endLine))
    {
      var i :| 0 <= i < |q.facts.symbols| && q.facts.symbols[i] == s;
      assert p.facts.symbols[i] in p.facts.symbols;
    }
    assert ReadFromTree(q, to, how);
  }

  /** The chunks of a tree are non-empty ranges of the data. */
  lemma TreeChunksInside(p: Parsed, scope: string)
    requires p.tree.Some? && FactsOfTree(p, scope)
    ensures forall c :: c in p.facts.chunks ==> c.path == p.path && c.piece.start < c.piece.end <= |p.data|
    ensures F.PathsAre(p.facts, p.path)
  {
    var how :| ReadFromTree(p, scope, how);
    var context := ContextOf(p, scope, how);
    F.ChunksComeFromCut(context, p.tree.value, "", None);
    F.CutsAreKept(context, p.tree.value, "", None);
    forall c | c in p.facts.chunks ensures c.path == p.path && c.piece.start < c.piece.end <= |p.data| {
      var s, j: nat :| s in p.facts.symbols && F.CutFor(context, c, s, j);
      P.ChunkInData(how.offsets, p.data, s.startLine, s.endLine, how.maxBytes, how.maxLines, how.cut(s.startLine, s.endLine), j);
    }
  }

  /** What a file of a build carries under the snapshot: facts, data and ranges. */
  ghost predicate InPlace(tc: Toolchain, r: Request, e: Entry, p: Parsed) {
    && F.WellFormed(p.facts, r.snapshot) && F.ParentsKnown(p.facts, None)
    && (p.tree.Some? ==> FactsOfTree(p, r.snapshot))
    && ChunksInside(p) && F.PathsAre(p.facts, p.path) && F.ChunkIdsSpelled(p.facts)
    && Describes(tc, p, e.path, r.blob(e.object_))
  }

  lemma ReboundIsInPlace(tc: Toolchain, r: Request, e: Entry)
    requires Sound(tc)
    ensures InPlace(tc, r, e, ReboundFile(Parse(tc, r, e), r.snapshot))
  {
    var p := Parse(tc, r, e);
    var q := ReboundFile(p, r.snapshot);
    F.ReboundWellFormed(p.facts, SCOPE, r.snapshot);
    F.MovedSpellsIds(p.facts, q.facts, SCOPE, r.snapshot);
    if p.tree.Some? {
      ReboundHasFactsOfTree(p, r.snapshot);
      TreeChunksInside(q, r.snapshot);
    } else {
      forall c | c in q.facts.chunks ensures c.path == q.path && c.piece.start <= c.piece.end <= |q.data| {
        var i :| 0 <= i < |q.facts.chunks| && q.facts.chunks[i] == c;
        assert p.facts.chunks[i] in p.facts.chunks;
      }
      forall s | s in q.facts.symbols ensures s.path == q.path {
        var i :| 0 <= i < |q.facts.symbols| && q.facts.symbols[i] == s;
        assert p.facts.symbols[i] in p.facts.symbols;
      }
    }
  }

  /**
    Every file of a build carries its own data and, if it is Python, the facts of
    a parse made directly under the snapshot.
  */
  lemma {:induction false} FilesAreParsedInPlace(tc: Toolchain, r: Request, n: nat, i: nat)
    requires Sound(tc) && n <= |r.entries| && i < |Fresh(tc, r, n).parsed|
    ensures InPlace(tc, r, Fresh(tc, r, n).parsed[i].0, Fresh(tc, r, n).parsed[i].1)
    decreases n
  {
    if i < |Fresh(tc, r, n - 1).parsed| {
      FilesAreParsedInPlace(tc, r, n - 1, i);
    } else {
      ReboundIsInPlace(tc, r, r.entries[n - 1]);
    }
  }

  /* ---------- the edges of a build ---------- */

  function RelationSymbols(symbols: seq<F.Symbol>): seq<R.Symbol> {
    seq(|symbols|, i requires 0 <= i < |symbols| => R.Symbol(symbols[i].id, symbols[i].name, symbols[i].endLine))
  }

  function RelationFile(p: Parsed): R.File {
    R.File(p.path, p.errors, if p.tree.Some? then p.tree.value else [], RelationSymbols(p.facts.symbols))
  }

  function RelationFiles(w: Progress): seq<R.File> {
    seq(|w.parsed|, i requires 0 <= i < |w.parsed| => RelationFile(w.parsed[i].1))
  }

  predicate AllTrees(w: Progress) {
    forall i | 0 <= i < |w.parsed| :: w.parsed[i].1.tree.Some?
  }

  /** The call, inheritance, import and test edges of a build of Python files only. */
  function RelationEdges(w: Progress): seq<R.Edge> {
    if AllTrees(w) then R.ResolveAll(RelationFiles(w), RelationFiles(w)) else []
  }

  function TextFile(tc: Toolchain, p: Parsed): T.File {
    var (extensions, mentions, parameters) := tc.text(p);
    T.File(p.facts.symbols, extensions, mentions, parameters)
  }

  function TextFiles(tc: Toolchain, w: Progress): seq<T.File> {
    seq(|w.parsed|, i requires 0 <= i < |w.parsed| => TextFile(tc, w.parsed[i].1))
  }

  /** The edges of a build with files of other languages. */
  function TextEdges(tc: Toolchain, w: Progress): seq<T.Edge> {
    if AllTrees(w) then [] else T.Resolve(TextFiles(tc, w))
  }

  ghost predicate Consistent(w: Progress, snapshot: string) {
    forall i :: 0 <= i < |w.parsed| ==> F.WellFormed(w.parsed[i].1.facts, snapshot) && F.ParentsKnown(w.parsed[i].1.facts, None)
  }

  ghost predicate IsNode(w: Progress, snapshot: string, id: NodeId) {
    id.scope == snapshot && exists i :: 0 <= i < |w.parsed| && F.HasSymbol(w.parsed[i].1.facts, id)
  }

  ghost predicate ChunkNodesKnown(w: Progress, snapshot: string) {
    forall i, c :: 0 <= i < |w.parsed| && c in w.parsed[i].1.facts.chunks ==> c.scope == snapshot && IsNode(w, snapshot, c.node)
  }

  /** Both ends of a contains edge. */
  ghost predicate ParentsAreNodes(w: Progress, snapshot: string) {
    forall i, k :: 0 <= i < |w.parsed| && k in w.parsed[i].1.facts.parents ==>
      IsNode(w, snapshot, k) && IsNode(w, snapshot, w.parsed[i].1.facts.parents[k])
  }

  ghost predicate EdgesJoinNodes(w: Progress, snapshot: string) {
    forall e :: e in RelationEdges(w) ==> IsNode(w, snapshot, e.source) && (e.target.Some? ==> IsNode(w, snapshot, e.target.value))
  }

  ghost predicate TextEdgesJoinNodes(tc: Toolchain, w: Progress, snapshot: string) {
    forall e :: e in TextEdges(tc, w) ==> IsNode(w, snapshot, e.source) && (e.target.Some? ==> IsNode(w, snapshot, e.target.value))
  }

  lemma KnownIsNode(tc: Toolchain, w: Progress, snapshot: string, id: NodeId)
    requires Consistent(w, snapshot)
    requires T.Known(TextFiles(tc, w), id)
    ensures IsNode(w, snapshot, id)
  {
    var files := TextFiles(tc, w);
    var f, s :| f in files && s in f.symbols && s.id == id;
    var i :| 0 <= i < |files| && files[i] == f;
    assert s in w.parsed[i].1.facts.symbols;
  }

  lemma EmittedIsNode(w: Progress, snapshot: string, id: NodeId)
    requires Consistent(w, snapshot)
    requires R.Emitted(RelationFiles(w), id)
    ensures IsNode(w, snapshot, id)
  {
    var files := RelationFiles(w);
    var f, s :| f in files && !f.errors && s in f.symbols && s.id == id;
    var i :| 0 <= i < |files| && files[i] == f;
    var symbols := w.parsed[i].1.facts.symbols;
    var j :| 0 <= j < |f.symbols| && f.symbols[j] == s;
    assert symbols[j] in symbols && symbols[j].id == id;
  }

  lemma BuildIsConsistent(tc: Toolchain, r: Request)
    requires Sound(tc)
    ensures Consistent(Fresh(tc, r, |r.entries|), r.snapshot)
  {
    var w := Fresh(tc, r, |r.entries|);
    forall i | 0 <= i < |w.parsed|
      ensures F.WellFormed(w.parsed[i].1.facts, r.snapshot) && F.ParentsKnown(w.parsed[i].1.facts, None)
    {
      FilesAreParsedInPlace(tc, r, |r.entries|, i);
    }
  }

  /** The files of a build carry symbols of their own path, so a symbol belongs to one module. */
  lemma SymbolsOfOwnFile(tc: Toolchain, r: Request)
    requires Sound(tc)
    ensures I.OwnSymbols(RelationFiles(Fresh(tc, r, |r.entries|)))
  {
    var w := Fresh(tc, r, |r.entries|);
    forall f, s | f in RelationFiles(w) && s in f.symbols ensures s.id.key.path == f.path {
      var i :| 0 <= i < |w.parsed| && f == RelationFile(w.parsed[i].1);
      var symbols := w.parsed[i].1.facts.symbols;
      var j :| 0 <= j < |symbols| && s == RelationSymbols(symbols)[j];
      FilesAreParsedInPlace(tc, r, |r.entries|, i);
      assert symbols[j] in symbols;
    }
  }

  lemma FactsAreClosed(w: Progress, snapshot: string)
    requires Consistent(w, snapshot)
    ensures ChunkNodesKnown(w, snapshot) && ParentsAreNodes(w, snapshot)
  {
    forall i, id | 0 <= i < |w.parsed| && F.HasSymbol(w.parsed[i].1.facts, id) ensures IsNode(w, snapshot, id) {
    }
  }

  /**
    Staged rows are closed: chunks, parents and both ends of every edge name
    nodes emitted by the same build under the same snapshot.
  */
  lemma RowsAreClosed(tc: Toolchain, r: Request)
    requires Sound(tc)
    ensures var w := Fresh(tc, r, |r.entries|);
      && ChunkNodesKnown(w, r.snapshot) && ParentsAreNodes(w, r.snapshot)
      && EdgesJoinNodes(w, r.snapshot) && TextEdgesJoinNodes(tc, w, r.snapshot)
  {
    var w := Fresh(tc, r, |r.entries|);
    BuildIsConsistent(tc, r);
    FactsAreClosed(w, r.snapshot);
    R.ResolveAllIsGood(RelationFiles(w), RelationFiles(w));
    forall e | e in RelationEdges(w)
      ensures IsNode(w, r.snapshot, e.source) && (e.target.Some? ==> IsNode(w, r.snapshot, e.target.value))
    {
      assert R.Closed(RelationFiles(w), e);
      EmittedIsNode(w, r.snapshot, e.source);
      if e.target.Some? {
        EmittedIsNode(w, r.snapshot, e.target.value);
      }
    }
    T.ResolveJoins(TextFiles(tc, w));
    forall e | e in TextEdges(tc, w)
      ensures IsNode(w, r.snapshot, e.source) && (e.target.Some? ==> IsNode(w, r.snapshot, e.target.value))
    {
      assert T.Joins(TextFiles(tc, w), e);
      KnownIsNode(tc, w, r.snapshot, e.source);
      if e.target.Some? {
        KnownIsNode(tc, w, r.snapshot, e.target.value);
      }
    }
  }
}
