/**
  Why what the builder stages can be published safely: every primary key is a
  digest that covers the snapshot and the secondary key of its row, and every
  reference is to a node staged with it. So builds of different snapshots never
  touch each other's rows, and only a ready snapshot refuses a build.
*/
module Staging {
  import opened Prelude
  import opened PyAst
  import opened BuildRows
  import B = SnapshotBuild
  import F = FileFacts
  import G = Generations
  import R = Relations
  import T = TextEdges

  /* ---------- keys ---------- */

  function TableOf(row: G.Row): G.Table {
    match row
    case FileRow(_, _, _) => G.Files
    case NodeRow(_, _, _, _, _, _, _, _) => G.Nodes
    case EdgeRow(_, _, _, _) => G.Edges
    case ChunkRow(_, _, _, _, _, _, _, _) => G.Chunks
  }

  function EdgeScope(x: Digested): Option<string> {
    match x
    case OfContains(parent, _) => Some(parent.scope)
    case OfRelation(snapshot, _, _, _, _, _, _) => Some(snapshot)
    case OfText(source, _, _, _, _) => Some(source.scope)
    case _ => None
  }

  /** What is digested repeats the snapshot of the row and, for files and nodes, its secondary key. */
  predicate Spells(x: Digested, row: G.Row) {
    match row
    case FileRow(s, path, _) => x == OfFile(s, path)
    case NodeRow(s, _, _, kind, name, path, startLine, endLine) =>
      x.OfNode? && x.node.scope == s && KindName(x.node.key.kind) == kind
      && x.node.key == NodeKey(path, x.node.key.kind, name, x.node.key.startLine, x.node.key.endLine)
      && x.node.key.startLine == startLine && x.node.key.endLine == endLine
    case EdgeRow(s, _, _, _) => EdgeScope(x) == Some(s)
    case ChunkRow(s, _, _, _, _, _, _, _) => x.OfChunk? && x.chunk.node.scope == s
  }

  ghost predicate Keyed(d: Digests, k: G.RowKey, row: G.Row) {
    k.table == TableOf(row) && exists x :: k.id == d.row(x) && Spells(x, row)
  }

  ghost predicate RowsKeyed(d: Digests, rows: map<G.RowKey, G.Row>) {
    forall k :: k in rows ==> Keyed(d, k, rows[k])
  }

  /** UNIQUE(snapshot_id, path) and UNIQUE(snapshot_id, path, kind, qualified_name, start_line, end_line). */
  predicate SameSecondaryKey(a: G.Row, b: G.Row) {
    match (a, b)
    case (FileRow(s, path, _), FileRow(t, other, _)) => (s, path) == (t, other)
    case (NodeRow(s, _, _, kind, name, path, first, last), NodeRow(t, _, _, kind2, name2, path2, first2, last2)) =>
      (s, kind, name, path, first, last) == (t, kind2, name2, path2, first2, last2)
    case _ => false
  }

  /** A colliding secondary key means the same primary key: REPLACE deletes no row of another key. */
  lemma SecondaryKeysFollow(d: Digests, k: G.RowKey, row: G.Row, l: G.RowKey, other: G.Row)
    requires Keyed(d, k, row) && Keyed(d, l, other) && SameSecondaryKey(row, other)
    ensures k == l
  {
    var x :| k.id == d.row(x) && Spells(x, row);
    var y :| l.id == d.row(y) && Spells(y, other);
    if row.NodeRow? {
      assert x.node.key.kind == y.node.key.kind;
    }
    assert x == y;
  }

  /** Under injective digests a key belongs to the rows of one snapshot. */
  lemma KeysNameTheirSnapshot(d: Digests, k: G.RowKey, row: G.Row, other: G.Row)
    requires Injective(d) && Keyed(d, k, row) && Keyed(d, k, other)
    ensures row.snapshot == other.snapshot
  {
    var x :| k.id == d.row(x) && Spells(x, row);
    var y :| k.id == d.row(y) && Spells(y, other);
    assert x == y;
  }

  /* ---------- what a build stages ---------- */

  ghost predicate RequestKeyed(d: Digests, r: G.Request) {
    && r.lease == r.snapshot.identity && r.snapshot.id == d.snapshot(r.snapshot.identity)
    && forall i :: 0 <= i < |r.rows| ==> r.rows[i].1.snapshot == r.snapshot.id && Keyed(d, r.rows[i].0, r.rows[i].1)
  }

  /** The node rows a row refers to by foreign key. */
  function References(row: G.Row): set<G.RowKey> {
    match row
    case EdgeRow(_, source, _, target) =>
      {G.RowKey(G.Nodes, source)} + if target.Some? then {G.RowKey(G.Nodes, target.value)} else {}
    case ChunkRow(_, node, _, _, _, _, _, _) => {G.RowKey(G.Nodes, node)}
    case _ => {}
  }

  ghost predicate StagedNode(d: Digests, w: B.Progress, s: string, k: G.RowKey) {
    exists id :: B.IsNode(w, s, id) && k == G.RowKey(G.Nodes, NodeColumn(d, id))
  }

  /** What every staged row of snapshot s satisfies. */
  ghost predicate RowOk(d: Digests, w: B.Progress, s: string, x: Staged) {
    && x.1.snapshot == s && Keyed(d, x.0, x.1)
    && forall k :: k in References(x.1) ==> StagedNode(d, w, s, k)
  }

  lemma FileRowOk(d: Digests, w: B.Progress, s: string, e: B.Entry, p: B.Parsed)
    ensures RowOk(d, w, s, FileRow(d, s, e, p))
  {
    assert Spells(OfFile(s, e.path), FileRow(d, s, e, p).1);
  }

  lemma NodeRowOk(d: Digests, w: B.Progress, s: string, n: F.Symbol)
    requires n.scope == s && n.id == NodeId(s, F.KeyOf(n))
    ensures RowOk(d, w, s, NodeRow(d, n))
  {
    assert Spells(OfNode(n.id), NodeRow(d, n).1);
  }

  lemma ChunkRowOk(tc: B.Toolchain, d: Digests, w: B.Progress, s: string, p: B.Parsed, c: F.Chunk)
    requires c.scope == s && B.IsNode(w, s, c.node) && c.id.node == c.node
    ensures RowOk(d, w, s, ChunkRow(tc, d, p, c))
  {
    assert Spells(OfChunk(c.id), ChunkRow(tc, d, p, c).1);
    assert StagedNode(d, w, s, G.RowKey(G.Nodes, NodeColumn(d, c.node)));
  }

  lemma EdgeRowOk(d: Digests, w: B.Progress, s: string, id: Digested, source: NodeId, relation: R.Relation, target: Option<NodeId>)
    requires EdgeScope(id) == Some(s) && B.IsNode(w, s, source) && (target.Some? ==> B.IsNode(w, s, target.value))
    ensures RowOk(d, w, s, EdgeRow(d, s, id, source, relation, target))
  {
    var x := EdgeRow(d, s, id, source, relation, target);
    assert Spells(id, x.1);
    forall k | k in References(x.1) ensures StagedNode(d, w, s, k) {
      if k == G.RowKey(G.Nodes, NodeColumn(d, source)) {
      } else {
        assert k == G.RowKey(G.Nodes, NodeColumn(d, target.value));
      }
    }
  }

  /** What the rows of one build come from. */
  ghost predicate Ready(tc: B.Toolchain, w: B.Progress, s: string) {
    && B.Consistent(w, s) && (forall i :: 0 <= i < |w.parsed| ==> F.ChunkIdsSpelled(w.parsed[i].1.facts))
    && B.ChunkNodesKnown(w, s) && B.ParentsAreNodes(w, s) && B.EdgesJoinNodes(w, s) && B.TextEdgesJoinNodes(tc, w, s)
  }

  lemma BuildIsReady(tc: B.Toolchain, d: Digests, b: Build)
    requires B.Sound(tc)
    ensures Ready(tc, Work(tc, d, b), SnapshotOf(d, b))
  {
    var r := BuildRequest(d, b);
    B.BuildIsConsistent(tc, r);
    B.RowsAreClosed(tc, r);
    forall i | 0 <= i < |Work(tc, d, b).parsed| ensures F.ChunkIdsSpelled(Work(tc, d, b).parsed[i].1.facts) {
      B.FilesAreParsedInPlace(tc, r, |r.entries|, i);
    }
  }

  lemma NodeAndChunkRowsOk(tc: B.Toolchain, d: Digests, w: B.Progress, s: string, x: Staged)
    requires Ready(tc, w, s) && (x in NodeRows(d, w.parsed) || x in ChunkRows(tc, d, w.parsed))
    ensures RowOk(d, w, s, x)
  {
    if x in NodeRows(d, w.parsed) {
      NodeRowsAre(d, w.parsed, x);
      var i, n :| 0 <= i < |w.parsed| && n in w.parsed[i].1.facts.symbols && x == NodeRow(d, n);
      NodeRowOk(d, w, s, n);
    } else {
      ChunkRowsAre(tc, d, w.parsed, x);
      var i, c :| 0 <= i < |w.parsed| && c in w.parsed[i].1.facts.chunks && x == ChunkRow(tc, d, w.parsed[i].1, c);
      ChunkRowOk(tc, d, w, s, w.parsed[i].1, c);
    }
  }

  lemma ParentRowOk(d: Digests, w: B.Progress, s: string, parent: NodeId, child: NodeId)
    requires B.IsNode(w, s, parent) && B.IsNode(w, s, child)
    ensures RowOk(d, w, s, ContainsRow(d, s, parent, child))
  {
    EdgeRowOk(d, w, s, OfContains(parent, child), parent, R.Contains, Some(child));
  }

  lemma ContainsRowOk(d: Digests, w: B.Progress, s: string, x: Staged)
    requires B.ParentsAreNodes(w, s) && x in ContainsRows(d, s, w.parsed)
    ensures RowOk(d, w, s, x)
  {
    ContainsRowsAre(d, s, w.parsed, x);
    assert OfSomeParent(d, s, w.parsed, x);
    var i, k :| 0 <= i < |w.parsed| && k in w.parsed[i].1.facts.parents
      && x == ContainsRow(d, s, w.parsed[i].1.facts.parents[k], k);
    ParentRowOk(d, w, s, w.parsed[i].1.facts.parents[k], k);
  }

  lemma RelationRowOk(tc: B.Toolchain, d: Digests, w: B.Progress, s: string, e: R.Edge)
    requires Ready(tc, w, s) && e in B.RelationEdges(w)
    ensures RowOk(d, w, s, RelationRow(d, s, e))
  {
    EdgeRowOk(d, w, s, OfRelation(s, e.source, e.relation, e.target, e.written, e.at.line, e.at.col), e.source, e.relation, e.target);
  }

  lemma TextRowOk(tc: B.Toolchain, d: Digests, w: B.Progress, s: string, e: T.Edge)
    requires Ready(tc, w, s) && e in B.TextEdges(tc, w)
    ensures RowOk(d, w, s, TextRow(d, s, e))
  {
    EdgeRowOk(d, w, s, OfText(e.source, e.relation, e.target, e.expression, e.line), e.source, e.relation, e.target);
  }

  lemma EdgeRowsOk(tc: B.Toolchain, d: Digests, w: B.Progress, s: string, x: Staged)
    requires Ready(tc, w, s) && x in EdgeRows(tc, d, s, w)
    ensures RowOk(d, w, s, x)
  {
    EdgeRowsAre(tc, d, s, w, x);
    if x in ContainsRows(d, s, w.parsed) {
      ContainsRowOk(d, w, s, x);
    } else if e :| e in B.RelationEdges(w) && x == RelationRow(d, s, e) {
      RelationRowOk(tc, d, w, s, e);
    } else {
      var e :| e in B.TextEdges(tc, w) && x == TextRow(d, s, e);
      TextRowOk(tc, d, w, s, e);
    }
  }

  lemma RowsAreOk(tc: B.Toolchain, d: Digests, w: B.Progress, s: string, x: Staged)
    requires Ready(tc, w, s) && x in Rows(tc, d, s, w)
    ensures RowOk(d, w, s, x)
  {
    InParts(FileRows(d, s, w.parsed), NodeRows(d, w.parsed), EdgeRows(tc, d, s, w), ChunkRows(tc, d, w.parsed), x);
    if x in FileRows(d, s, w.parsed) {
      FileRowsAre(d, s, w.parsed, x);
      var i :| 0 <= i < |w.parsed| && x == FileRow(d, s, w.parsed[i].0, w.parsed[i].1);
      FileRowOk(d, w, s, w.parsed[i].0, w.parsed[i].1);
    } else if x in EdgeRows(tc, d, s, w) {
      EdgeRowsOk(tc, d, w, s, x);
    } else {
      NodeAndChunkRowsOk(tc, d, w, s, x);
    }
  }

  /** Every row of a build is tagged with its snapshot, keyed by its digest, and refers to nodes of the same build only. */
  lemma BuildRowsAreOk(tc: B.Toolchain, d: Digests, b: Build, i: nat)
    requires B.Sound(tc) && i < |Output(tc, d, b).rows|
    ensures RowOk(d, Work(tc, d, b), SnapshotOf(d, b), Output(tc, d, b).rows[i])
  {
    BuildIsReady(tc, d, b);
    RowsAreOk(tc, d, Work(tc, d, b), SnapshotOf(d, b), Output(tc, d, b).rows[i]);
  }

  /** The digests of a build cover what they must. */
  lemma BuildIsKeyed(tc: B.Toolchain, d: Digests, b: Build)
    requires B.Sound(tc)
    ensures RequestKeyed(d, Output(tc, d, b))
  {
    var r := Output(tc, d, b);
    forall i | 0 <= i < |r.rows| ensures r.rows[i].1.snapshot == r.snapshot.id && Keyed(d, r.rows[i].0, r.rows[i].1) {
      BuildRowsAreOk(tc, d, b, i);
    }
  }

  ghost predicate StagedKey(r: G.Request, k: G.RowKey) {
    exists i :: 0 <= i < |r.rows| && r.rows[i].0 == k
  }

  ghost predicate SelfContained(r: G.Request) {
    forall i, k :: 0 <= i < |r.rows| && k in References(r.rows[i].1) ==> StagedKey(r, k)
  }

  lemma NodesAreStaged(tc: B.Toolchain, d: Digests, b: Build, k: G.RowKey)
    requires B.Sound(tc) && StagedNode(d, Work(tc, d, b), SnapshotOf(d, b), k)
    ensures StagedKey(Output(tc, d, b), k)
  {
    var w, s := Work(tc, d, b), SnapshotOf(d, b);
    var id :| B.IsNode(w, s, id) && k == G.RowKey(G.Nodes, NodeColumn(d, id));
    var i :| 0 <= i < |w.parsed| && F.HasSymbol(w.parsed[i].1.facts, id);
    var n :| n in w.parsed[i].1.facts.symbols && n.id == id;
    var x := NodeRow(d, n);
    assert OfSomeSymbol(d, w.parsed, x);
    NodeRowsAre(d, w.parsed, x);
    assert x in Rows(tc, d, s, w);
    var j :| 0 <= j < |Rows(tc, d, s, w)| && Rows(tc, d, s, w)[j] == x;
    assert Output(tc, d, b).rows[j].0 == k;
  }

  /** Every node a staged row refers to is staged with it. */
  lemma BuildIsSelfContained(tc: B.Toolchain, d: Digests, b: Build)
    requires B.Sound(tc)
    ensures SelfContained(Output(tc, d, b))
  {
    var r := Output(tc, d, b);
    forall i, k | 0 <= i < |r.rows| && k in References(r.rows[i].1) ensures StagedKey(r, k) {
      BuildRowsAreOk(tc, d, b, i);
      NodesAreStaged(tc, d, b, k);
    }
  }
}
