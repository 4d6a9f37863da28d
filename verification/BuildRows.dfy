/**
  The rows a build stages: one per file, symbol, edge and chunk, each under a
  digest of what identifies it, and the snapshot they belong to.
*/
module BuildRows {
  import opened Prelude
  import opened PyAst
  import B = SnapshotBuild
  import F = FileFacts
  import G = Generations
  import L = JobLeases
  import R = Relations
  import T = TextEdges

  /** What the primary keys of the four row tables digest. */
  datatype Digested =
    | OfFile(snapshot: string, path: string)
    | OfNode(node: NodeId)
    | OfChunk(chunk: F.ChunkId)
    | OfContains(parent: NodeId, child: NodeId)
    | OfRelation(snapshot: string, source: NodeId, relation: R.Relation, target: Option<NodeId>, written: Option<Node>,
                 line: nat, col: nat)
    | OfText(source: NodeId, relation: R.Relation, target: Option<NodeId>, text: Option<string>, line: nat)

  /** The digests of rows and of snapshots. */
  datatype Digests = Digests(row: Digested -> string, snapshot: L.Identity -> string)

  ghost predicate Injective(d: Digests) {
    && (forall a, b :: d.row(a) == d.row(b) ==> a == b)
    && (forall a, b :: d.snapshot(a) == d.snapshot(b) ==> a == b)
  }

  /** One build as the worker runs it: the lease's identity, the tree listing, the contents and two times. */
  datatype Build = Build(identity: L.Identity, entries: seq<B.Entry>, blob: string -> B.Bytes, created: L.Time, now: L.Time)

  function SnapshotOf(d: Digests, b: Build): string { d.snapshot(b.identity) }

  function BuildRequest(d: Digests, b: Build): B.Request {
    B.Request(b.identity.parser, b.identity.rules, SnapshotOf(d, b), b.entries, b.blob)
  }

  ghost function Work(tc: B.Toolchain, d: Digests, b: Build): B.Progress
    requires B.Sound(tc)
  {
    B.Fresh(tc, BuildRequest(d, b), |b.entries|)
  }

  /* ---------- single rows ---------- */

  type Staged = (G.RowKey, G.Row)

  function NodeColumn(d: Digests, id: NodeId): string { d.row(OfNode(id)) }

  function KindName(k: Kind): string {
    match k
    case Class => "class"
    case Function => "function"
    case AsyncFunction => "async_function"
    case WholeFile => "module"
  }

  function RelationName(r: R.Relation): string {
    match r
    case Calls => "calls"
    case Inherits => "inherits"
    case ImportsSymbol => "imports"
    case TestedBy => "tested_by"
    case Contains => "contains"
  }

  /** data[start:end] for start <= end. */
  function Octets(data: B.Bytes, start: nat, end: nat): B.Bytes {
    if start <= end <= |data| then data[start..end] else if start <= end && start <= |data| then data[start..] else []
  }

  function FileRow(d: Digests, s: string, e: B.Entry, p: B.Parsed): Staged {
    (G.RowKey(G.Files, d.row(OfFile(s, e.path))), G.FileRow(s, e.path, p.hash))
  }

  function NodeRow(d: Digests, n: F.Symbol): Staged {
    (G.RowKey(G.Nodes, NodeColumn(d, n.id)),
     G.NodeRow(n.scope, "unbound", "unbound", KindName(n.kind), n.name, n.path, n.startLine, n.endLine))
  }

  function ChunkRow(tc: B.Toolchain, d: Digests, p: B.Parsed, c: F.Chunk): Staged {
    (G.RowKey(G.Chunks, d.row(OfChunk(c.id))),
     G.ChunkRow(c.scope, NodeColumn(d, c.node), c.path, c.piece.start, c.piece.end,
                tc.sha(Octets(p.data, c.piece.start, c.piece.end)), "unbound", p.encoding))
  }

  function EdgeRow(d: Digests, s: string, id: Digested, source: NodeId, relation: R.Relation, target: Option<NodeId>): Staged {
    (G.RowKey(G.Edges, d.row(id)),
     G.EdgeRow(s, NodeColumn(d, source), RelationName(relation),
               if target.Some? then Some(NodeColumn(d, target.value)) else None))
  }

  function ContainsRow(d: Digests, s: string, parent: NodeId, child: NodeId): Staged {
    EdgeRow(d, s, OfContains(parent, child), parent, R.Contains, Some(child))
  }

  function RelationRow(d: Digests, s: string, e: R.Edge): Staged {
    EdgeRow(d, s, OfRelation(s, e.source, e.relation, e.target, e.written, e.at.line, e.at.col), e.source, e.relation, e.target)
  }

  function TextRow(d: Digests, s: string, e: T.Edge): Staged {
    EdgeRow(d, s, OfText(e.source, e.relation, e.target, e.expression, e.line), e.source, e.relation, e.target)
  }

  /* ---------- all rows, in the order they are written ---------- */

  type Files = seq<(B.Entry, B.Parsed)>

  function FileRows(d: Digests, s: string, files: Files): seq<Staged> {
    seq(|files|, i requires 0 <= i < |files| => FileRow(d, s, files[i].0, files[i].1))
  }

  function NodeRows(d: Digests, files: Files): seq<Staged> {
    if files == [] then []
    else
      var symbols := files[|files| - 1].1.facts.symbols;
      NodeRows(d, files[..|files| - 1]) + seq(|symbols|, i requires 0 <= i < |symbols| => NodeRow(d, symbols[i]))
  }

  function ChunkRows(tc: B.Toolchain, d: Digests, files: Files): seq<Staged> {
    if files == [] then []
    else
      var p := files[|files| - 1].1;
      ChunkRows(tc, d, files[..|files| - 1])
      + seq(|p.facts.chunks|, i requires 0 <= i < |p.facts.chunks| => ChunkRow(tc, d, p, p.facts.chunks[i]))
  }

  /** The items of a parents dictionary: keys in the order of their first symbol. */
  function Children(symbols: seq<F.Symbol>, parents: map<NodeId, NodeId>): seq<NodeId> {
    if symbols == [] then []
    else
      var before, id := Children(symbols[..|symbols| - 1], parents), symbols[|symbols| - 1].id;
      if id in parents && id !in before then before + [id] else before
  }

  function ContainsRows(d: Digests, s: string, files: Files): seq<Staged> {
    if files == [] then []
    else
      var f := files[|files| - 1].1.facts;
      var ids := Children(f.symbols, f.parents);
      ContainsRows(d, s, files[..|files| - 1])
      + seq(|ids|, i requires 0 <= i < |ids| =>
          ContainsRow(d, s, if ids[i] in f.parents then f.parents[ids[i]] else ids[i], ids[i]))
  }

  function EdgeRows(tc: B.Toolchain, d: Digests, s: string, w: B.Progress): seq<Staged> {
    var found, texts := B.RelationEdges(w), B.TextEdges(tc, w);
    ContainsRows(d, s, w.parsed)
    + seq(|found|, i requires 0 <= i < |found| => RelationRow(d, s, found[i]))
    + seq(|texts|, i requires 0 <= i < |texts| => TextRow(d, s, texts[i]))
  }

  function Rows(tc: B.Toolchain, d: Digests, s: string, w: B.Progress): seq<Staged> {
    FileRows(d, s, w.parsed) + NodeRows(d, w.parsed) + EdgeRows(tc, d, s, w) + ChunkRows(tc, d, w.parsed)
  }

  function Blobs(files: Files, blob: string -> B.Bytes): seq<(G.Hash, G.Bytes)> {
    seq(|files|, i requires 0 <= i < |files| => (files[i].1.hash, blob(files[i].0.object_)))
  }

  function TotalBytes(files: Files, blob: string -> B.Bytes): nat {
    if files == [] then 0
    else TotalBytes(files[..|files| - 1], blob) + |blob(files[|files| - 1].0.object_)|
  }

  /** The status "partial" of MapSnapshot. */
  predicate IsPartial(w: B.Progress) {
    w.failed != [] || w.parsed == [] || forall i | 0 <= i < |w.parsed| :: w.parsed[i].1.facts.symbols == []
  }

  /** What build hands to publish under the lease it was built for. */
  ghost function Output(tc: B.Toolchain, d: Digests, b: Build): G.Request
    requires B.Sound(tc)
  {
    var w, s := Work(tc, d, b), SnapshotOf(d, b);
    G.Request(b.identity,
              G.Snapshot(s, b.identity, IsPartial(w), |w.parsed|, w.failed, [], TotalBytes(w.parsed, b.blob), b.created),
              Rows(tc, d, s, w), Blobs(w.parsed, b.blob), b.now)
  }

  ghost function Mapped<X(!new), Y>(f: X --> Y, xs: seq<X>): seq<Y>
    requires forall x :: f.requires(x)
  {
    if xs == [] then [] else Mapped(f, xs[..|xs| - 1]) + [f(xs[|xs| - 1])]
  }

  lemma {:induction false} MappedSum<X(!new), Y>(f: X --> Y, xs: seq<X>, more: seq<X>)
    requires forall x :: f.requires(x)
    ensures Mapped(f, xs + more) == Mapped(f, xs) + Mapped(f, more)
  {
    if more == [] {
      assert xs + more == xs;
    } else {
      var n := |more| - 1;
      MappedSum(f, xs, more[..n]);
      assert (xs + more)[..|xs + more| - 1] == xs + more[..n];
    }
  }

  /** What holds of every image holds of every element of the mapped sequence. */
  lemma {:induction false} MappedAll<X(!new), Y>(f: X --> Y, P: Y -> bool, xs: seq<X>)
    requires forall x :: f.requires(x) && P(f(x))
    ensures forall i :: 0 <= i < |Mapped(f, xs)| ==> P(Mapped(f, xs)[i])
  {
    if xs != [] {
      MappedAll(f, P, xs[..|xs| - 1]);
    }
  }

  lemma {:induction false} MappedComesFrom<X(!new), Y>(f: X --> Y, xs: seq<X>, y: Y) returns (x: X)
    requires (forall x :: f.requires(x)) && y in Mapped(f, xs)
    ensures x in xs && f(x) == y
  {
    var last := xs[|xs| - 1];
    if y in Mapped(f, xs[..|xs| - 1]) {
      x := MappedComesFrom(f, xs[..|xs| - 1], y);
    } else {
      x := last;
    }
  }

  ghost function Builder(tc: B.Toolchain, d: Digests): (f: Build --> G.Request)
    requires B.Sound(tc)
    ensures forall b :: f.requires(b) && f(b) == Output(tc, d, b)
  {
    (b: Build) requires B.Sound(tc) => Output(tc, d, b)
  }

  ghost function Outputs(tc: B.Toolchain, d: Digests, bs: seq<Build>): seq<G.Request>
    requires B.Sound(tc)
  {
    Mapped(Builder(tc, d), bs)
  }

  /* ---------- which rows there are ---------- */

  ghost predicate OfSomeFile(d: Digests, s: string, files: Files, x: Staged) {
    exists i :: 0 <= i < |files| && x == FileRow(d, s, files[i].0, files[i].1)
  }

  ghost predicate OfSomeSymbol(d: Digests, files: Files, x: Staged) {
    exists i, n :: 0 <= i < |files| && n in files[i].1.facts.symbols && x == NodeRow(d, n)
  }

  ghost predicate OfSomeChunk(tc: B.Toolchain, d: Digests, files: Files, x: Staged) {
    exists i, c :: 0 <= i < |files| && c in files[i].1.facts.chunks && x == ChunkRow(tc, d, files[i].1, c)
  }

  ghost predicate OfSomeParent(d: Digests, s: string, files: Files, x: Staged) {
    exists i, k :: 0 <= i < |files| && k in files[i].1.facts.parents && x == ContainsRow(d, s, files[i].1.facts.parents[k], k)
  }

  lemma {:induction false} NodeRowsAre(d: Digests, files: Files, x: Staged)
    ensures x in NodeRows(d, files) <==> OfSomeSymbol(d, files, x)
  {
    if files != [] {
      var n := |files| - 1;
      NodeRowsAre(d, files[..n], x);
      var symbols := files[n].1.facts.symbols;
      if OfSomeSymbol(d, files[..n], x) {
        var i, m :| 0 <= i < n && m in files[..n][i].1.facts.symbols && x == NodeRow(d, m);
        assert files[..n][i] == files[i];
      }
      if OfSomeSymbol(d, files, x) {
        var i, m :| 0 <= i < |files| && m in files[i].1.facts.symbols && x == NodeRow(d, m);
        if i < n {
          assert files[..n][i] == files[i];
        } else {
          var j :| 0 <= j < |symbols| && symbols[j] == m;
          assert seq(|symbols|, i requires 0 <= i < |symbols| => NodeRow(d, symbols[i]))[j] == x;
        }
      }
    }
  }

  lemma {:induction false} ChunkRowsAre(tc: B.Toolchain, d: Digests, files: Files, x: Staged)
    requires x in ChunkRows(tc, d, files)
    ensures OfSomeChunk(tc, d, files, x)
  {
    var n := |files| - 1;
    if x in ChunkRows(tc, d, files[..n]) {
      ChunkRowsAre(tc, d, files[..n], x);
      var i, c :| 0 <= i < n && c in files[..n][i].1.facts.chunks && x == ChunkRow(tc, d, files[..n][i].1, c);
      assert files[..n][i] == files[i];
    } else {
      var chunks := files[n].1.facts.chunks;
      var j :| 0 <= j < |chunks| && x == ChunkRow(tc, d, files[n].1, chunks[j]);
      assert chunks[j] in chunks;
    }
  }

  /** Every chunk of every parsed file has its row. */
  lemma {:induction false} ChunksHaveRows(tc: B.Toolchain, d: Digests, files: Files, i: nat, c: F.Chunk)
    requires i < |files| && c in files[i].1.facts.chunks
    ensures ChunkRow(tc, d, files[i].1, c) in ChunkRows(tc, d, files)
  {
    var n := |files| - 1;
    if i < n {
      ChunksHaveRows(tc, d, files[..n], i, c);
    } else {
      var chunks := files[n].1.facts.chunks;
      var j :| 0 <= j < |chunks| && chunks[j] == c;
      var before, rows := ChunkRows(tc, d, files[..n]), ChunkRows(tc, d, files);
      assert rows[|before| + j] == ChunkRow(tc, d, files[n].1, chunks[j]);
    }
  }

  lemma {:induction false} ChildrenAreKeys(symbols: seq<F.Symbol>, parents: map<NodeId, NodeId>)
    ensures forall id :: id in Children(symbols, parents) ==> id in parents
  {
    if symbols != [] {
      ChildrenAreKeys(symbols[..|symbols| - 1], parents);
    }
  }

  lemma {:induction false} ContainsRowsAre(d: Digests, s: string, files: Files, x: Staged)
    requires x in ContainsRows(d, s, files)
    ensures OfSomeParent(d, s, files, x)
  {
    var n := |files| - 1;
    if x in ContainsRows(d, s, files[..n]) {
      ContainsRowsAre(d, s, files[..n], x);
      var i, k :| 0 <= i < n && k in files[..n][i].1.facts.parents && x == ContainsRow(d, s, files[..n][i].1.facts.parents[k], k);
      assert files[..n][i] == files[i];
    } else {
      var f := files[n].1.facts;
      var ids := Children(f.symbols, f.parents);
      ChildrenAreKeys(f.symbols, f.parents);
      var j :| 0 <= j < |ids| && x == ContainsRow(d, s, if ids[j] in f.parents then f.parents[ids[j]] else ids[j], ids[j]);
      assert ids[j] in ids;
    }
  }

  lemma FileRowsAre(d: Digests, s: string, files: Files, x: Staged)
    requires x in FileRows(d, s, files)
    ensures OfSomeFile(d, s, files, x)
  {
  }

  lemma InParts<X>(a: seq<X>, b: seq<X>, c: seq<X>, d: seq<X>, x: X)
    ensures x in a + b + c + d <==> x in a || x in b || x in c || x in d
  {
  }

  lemma EdgeRowsAre(tc: B.Toolchain, d: Digests, s: string, w: B.Progress, x: Staged)
    requires x in EdgeRows(tc, d, s, w)
    ensures || x in ContainsRows(d, s, w.parsed)
            || (exists e :: e in B.RelationEdges(w) && x == RelationRow(d, s, e))
            || (exists e :: e in B.TextEdges(tc, w) && x == TextRow(d, s, e))
  {
    var found, texts := B.RelationEdges(w), B.TextEdges(tc, w);
    var relations := seq(|found|, i requires 0 <= i < |found| => RelationRow(d, s, found[i]));
    var others := seq(|texts|, i requires 0 <= i < |texts| => TextRow(d, s, texts[i]));
    InParts(ContainsRows(d, s, w.parsed), relations, others, [], x);
    assert EdgeRows(tc, d, s, w) == ContainsRows(d, s, w.parsed) + relations + others + [];
    if x in relations {
      var i :| 0 <= i < |found| && x == RelationRow(d, s, found[i]);
      assert found[i] in found;
    } else if x in others {
      var i :| 0 <= i < |texts| && x == TextRow(d, s, texts[i]);
      assert texts[i] in texts;
    }
  }

  /* ---------- each table holds its own kind of row ---------- */

  lemma RowKinds(tc: B.Toolchain, d: Digests, s: string, w: B.Progress, x: Staged)
    requires x in Rows(tc, d, s, w)
    ensures x.1.ChunkRow? ==> OfSomeChunk(tc, d, w.parsed, x)
    ensures x.1.FileRow? ==> OfSomeFile(d, s, w.parsed, x)
  {
    InParts(FileRows(d, s, w.parsed), NodeRows(d, w.parsed), EdgeRows(tc, d, s, w), ChunkRows(tc, d, w.parsed), x);
    if x in FileRows(d, s, w.parsed) {
      FileRowsAre(d, s, w.parsed, x);
    } else if x in NodeRows(d, w.parsed) {
      NodeRowsAre(d, w.parsed, x);
    } else if x in EdgeRows(tc, d, s, w) {
      EdgeRowIsEdge(tc, d, s, w, x);
    } else {
      ChunkRowsAre(tc, d, w.parsed, x);
    }
  }

  lemma EdgeRowIsEdge(tc: B.Toolchain, d: Digests, s: string, w: B.Progress, x: Staged)
    requires x in EdgeRows(tc, d, s, w)
    ensures x.1.EdgeRow?
  {
    EdgeRowsAre(tc, d, s, w, x);
    if x in ContainsRows(d, s, w.parsed) {
      ContainsRowsAre(d, s, w.parsed, x);
    }
  }
}
