/**
  Symbols, chunks and parents of one parsed Python file, and moving them from the
  scope they were parsed under to the scope of a snapshot.
*/
module FileFacts {
  import opened Prelude
  import opened PyAst
  import P = PythonChunks

  datatype Symbol = Symbol(id: NodeId, scope: string, kind: Kind, name: string, path: string, startLine: nat, endLine: nat)

  /** The chunk digest covers the node id and the byte range. */
  datatype ChunkId = ChunkId(node: NodeId, start: nat, end: nat)
  datatype Chunk = Chunk(id: ChunkId, node: NodeId, scope: string, path: string, piece: P.Chunk)

  datatype Facts = Facts(symbols: seq<Symbol>, chunks: seq<Chunk>, parents: map<NodeId, NodeId>)

  /** What one parse_file call works with; `cut` is _chunks_for on the lines of a definition. */
  datatype Context = Context(scope: string, path: string, cut: (nat, nat) -> seq<P.Chunk>)

  const NONE := Facts([], [], map[])

  function Plus(a: Facts, b: Facts): Facts {
    Facts(a.symbols + b.symbols, a.chunks + b.chunks, a.parents + b.parents)
  }

  function Qualified(prefix: string, name: string): string {
    if prefix == "" then name else prefix + "." + name
  }

  function SymbolOf(c: Context, def: Node, prefix: string): Symbol
    requires def.Def?
  {
    var name := Qualified(prefix, def.name);
    Symbol(NodeId(c.scope, NodeKey(c.path, def.kind, name, def.line, def.endLine)), c.scope, def.kind, name, c.path, def.line, def.endLine)
  }

  function KeyOf(s: Symbol): NodeKey { NodeKey(s.path, s.kind, s.name, s.startLine, s.endLine) }

  function ChunksOf(c: Context, s: Symbol, pieces: seq<P.Chunk>): seq<Chunk> {
    seq(|pieces|, i requires 0 <= i < |pieces| =>
      Chunk(ChunkId(s.id, pieces[i].start, pieces[i].end), s.id, c.scope, c.path, pieces[i]))
  }

  /** Facts of a body in source order, a definition before what it contains. */
  function BodyFacts(c: Context, body: seq<Node>, prefix: string, parent: Option<NodeId>): Facts
    decreases body, 0
  {
    if body == [] then NONE
    else Plus(NodeFacts(c, body[0], prefix, parent), BodyFacts(c, body[1..], prefix, parent))
  }

  /** The facts of a definition without its body. */
  function Head(c: Context, s: Symbol, parent: Option<NodeId>): Facts {
    Facts([s], ChunksOf(c, s, c.cut(s.startLine, s.endLine)), if parent.Some? then map[s.id := parent.value] else map[])
  }

  /** Only definitions that stand directly in a body are recorded. */
  function NodeFacts(c: Context, n: Node, prefix: string, parent: Option<NodeId>): Facts
    decreases n, 1
  {
    if !n.Def? then NONE
    else
      var s := SymbolOf(c, n, prefix);
      Plus(Head(c, s, parent), BodyFacts(c, n.body, s.name, Some(s.id)))
  }

  function FileFactsOf(c: Context, body: seq<Node>): Facts { BodyFacts(c, body, "", None) }

  /** The visitor with its lists and its stack of enclosing symbols. */
  class Visitor {
    const context: Context
    var symbols: seq<Symbol>
    var chunks: seq<Chunk>
    var parents: map<NodeId, NodeId>
    var stack: seq<Symbol>

    constructor (c: Context)
      ensures context == c && Recorded() == NONE && stack == []
    {
      context, symbols, chunks, parents, stack := c, [], [], map[], [];
    }

    function Recorded(): Facts
      reads this
    {
      Facts(symbols, chunks, parents)
    }

    function Prefix(): string
      reads this
    {
      if stack == [] then "" else stack[|stack| - 1].name
    }

    function Parent(): Option<NodeId>
      reads this
    {
      if stack == [] then None else Some(stack[|stack| - 1].id)
    }

    method VisitBody(body: seq<Node>)
      modifies this
      ensures Recorded() == Plus(old(Recorded()), BodyFacts(context, body, old(Prefix()), old(Parent())))
      ensures stack == old(stack)
      decreases body, 0
    {
      var i := 0;
      ghost var done := NONE;
      while i < |body|
        invariant 0 <= i <= |body| && stack == old(stack)
        invariant Recorded() == Plus(old(Recorded()), done)
        invariant Plus(done, BodyFacts(context, body[i..], old(Prefix()), old(Parent())))
               == BodyFacts(context, body, old(Prefix()), old(Parent()))
      {
        assert body[i..][1..] == body[i + 1..];
        ghost var here := NodeFacts(context, body[i], old(Prefix()), old(Parent()));
        ghost var rest := BodyFacts(context, body[i + 1..], old(Prefix()), old(Parent()));
        PlusAssociates(done, here, rest);
        PlusAssociates(old(Recorded()), done, here);
        assert BodyFacts(context, body[i..], old(Prefix()), old(Parent())) == Plus(here, rest);
        VisitNode(body[i]);
        done := Plus(done, here);
        i := i + 1;
      }
      assert Plus(done, NONE) == done;
    }

    method VisitNode(n: Node)
      modifies this
      ensures Recorded() == Plus(old(Recorded()), NodeFacts(context, n, old(Prefix()), old(Parent())))
      ensures stack == old(stack)
      decreases n, 2
    {
      if n.Def? {
        Add(n);
      } else {
        assert Plus(Recorded(), NONE) == Recorded();
      }
    }

    method Add(def: Node)
      requires def.Def?
      modifies this
      ensures Recorded() == Plus(old(Recorded()), NodeFacts(context, def, old(Prefix()), old(Parent())))
      ensures stack == old(stack)
      decreases def, 1
    {
      ghost var prefix, parent := Prefix(), Parent();
      var s := SymbolOf(context, def, Prefix());
      var own := ChunksOf(context, s, context.cut(s.startLine, s.endLine));
      symbols := symbols + [s];
      if stack != [] {
        parents := parents[s.id := stack[|stack| - 1].id];
      }
      chunks := chunks + own;
      ghost var head := Head(context, s, parent);
      assert Recorded() == Plus(old(Recorded()), head);
      stack := stack + [s];
      VisitBody(def.body);
      PlusAssociates(old(Recorded()), head, BodyFacts(context, def.body, s.name, Some(s.id)));
      stack := stack[..|stack| - 1];
    }
  }

  lemma PlusAssociates(a: Facts, b: Facts, c: Facts)
    ensures Plus(Plus(a, b), c) == Plus(a, Plus(b, c))
  {
  }

  /* ---------- closedness ---------- */

  ghost predicate HasSymbol(f: Facts, id: NodeId) {
    exists s :: s in f.symbols && s.id == id
  }

  /** Ids spell out the fields they digest, and chunks and parents name emitted symbols. */
  ghost predicate WellFormed(f: Facts, scope: string) {
    && (forall s :: s in f.symbols ==>
          s.scope == scope && s.id == NodeId(scope, KeyOf(s)))
    && (forall c :: c in f.chunks ==>
          c.scope == scope && HasSymbol(f, c.node))
    && (forall k :: k in f.parents ==> HasSymbol(f, k))
  }

  /** Parents are emitted too, or are the symbol the body belongs to. */
  ghost predicate ParentsKnown(f: Facts, outer: Option<NodeId>) {
    forall k :: k in f.parents ==> HasSymbol(f, f.parents[k]) || Some(f.parents[k]) == outer
  }

  lemma PlusWellFormed(a: Facts, b: Facts, scope: string, outer: Option<NodeId>)
    requires WellFormed(a, scope) && WellFormed(b, scope) && ParentsKnown(a, outer) && ParentsKnown(b, outer)
    ensures WellFormed(Plus(a, b), scope) && ParentsKnown(Plus(a, b), outer)
  {
    assert forall id :: HasSymbol(a, id) || HasSymbol(b, id) ==> HasSymbol(Plus(a, b), id);
  }

  lemma {:induction false} BodyFactsWellFormed(c: Context, body: seq<Node>, prefix: string, parent: Option<NodeId>)
    ensures WellFormed(BodyFacts(c, body, prefix, parent), c.scope) && ParentsKnown(BodyFacts(c, body, prefix, parent), parent)
    decreases body, 0
  {
    if body != [] {
      NodeFactsWellFormed(c, body[0], prefix, parent);
      BodyFactsWellFormed(c, body[1..], prefix, parent);
      PlusWellFormed(NodeFacts(c, body[0], prefix, parent), BodyFacts(c, body[1..], prefix, parent), c.scope, parent);
    }
  }

  lemma {:induction false} NodeFactsWellFormed(c: Context, n: Node, prefix: string, parent: Option<NodeId>)
    ensures WellFormed(NodeFacts(c, n, prefix, parent), c.scope) && ParentsKnown(NodeFacts(c, n, prefix, parent), parent)
    decreases n, 1
  {
    if n.Def? {
      var s := SymbolOf(c, n, prefix);
      var head := Head(c, s, parent);
      var inner := BodyFacts(c, n.body, s.name, Some(s.id));
      BodyFactsWellFormed(c, n.body, s.name, Some(s.id));
      assert s in head.symbols && HasSymbol(head, s.id);
      var all := Plus(head, inner);
      assert forall id :: HasSymbol(head, id) || HasSymbol(inner, id) ==> HasSymbol(all, id);
    }
  }

  /* ---------- where chunks come from ---------- */

  /** Chunk c is piece j of what was cut for symbol s. */
  ghost predicate CutFor(context: Context, c: Chunk, s: Symbol, j: nat) {
    && j < |context.cut(s.startLine, s.endLine)|
    && c.path == context.path && c.node == s.id && c.piece == context.cut(s.startLine, s.endLine)[j]
  }

  ghost predicate FromCut(context: Context, f: Facts) {
    forall c :: c in f.chunks ==> exists s, j: nat :: s in f.symbols && CutFor(context, c, s, j)
  }

  ghost predicate PieceKept(context: Context, f: Facts, s: Symbol, j: nat) {
    exists c :: c in f.chunks && CutFor(context, c, s, j)
  }

  ghost predicate PiecesKept(context: Context, f: Facts, s: Symbol) {
    forall j: nat :: j < |context.cut(s.startLine, s.endLine)| ==> PieceKept(context, f, s, j)
  }

  /** Nothing that was cut for a symbol is missing. */
  ghost predicate CutIsKept(context: Context, f: Facts) {
    forall s :: s in f.symbols ==> PiecesKept(context, f, s)
  }

  ghost predicate PathsAre(f: Facts, path: string) { forall s :: s in f.symbols ==> s.path == path }

  lemma PiecesStayKept(context: Context, a: Facts, b: Facts, s: Symbol)
    requires PiecesKept(context, a, s) && forall c :: c in a.chunks ==> c in b.chunks
    ensures PiecesKept(context, b, s)
  {
    forall j: nat | j < |context.cut(s.startLine, s.endLine)| ensures PieceKept(context, b, s, j) {
      assert PieceKept(context, a, s, j);
      var c :| c in a.chunks && CutFor(context, c, s, j);
      assert c in b.chunks;
    }
  }

  lemma PlusCutIsKept(context: Context, a: Facts, b: Facts)
    requires CutIsKept(context, a) && CutIsKept(context, b)
    ensures CutIsKept(context, Plus(a, b))
  {
    forall s | s in Plus(a, b).symbols ensures PiecesKept(context, Plus(a, b), s) {
      if s in a.symbols {
        PiecesStayKept(context, a, Plus(a, b), s);
      } else {
        PiecesStayKept(context, b, Plus(a, b), s);
      }
    }
  }

  /** Every piece cut for a symbol of a file is one of its chunks, and every symbol carries the file's path. */
  lemma {:induction false} CutsAreKept(context: Context, body: seq<Node>, prefix: string, parent: Option<NodeId>)
    ensures CutIsKept(context, BodyFacts(context, body, prefix, parent))
    ensures PathsAre(BodyFacts(context, body, prefix, parent), context.path)
    decreases body, 0
  {
    if body != [] {
      NodeCutsAreKept(context, body[0], prefix, parent);
      CutsAreKept(context, body[1..], prefix, parent);
      PlusCutIsKept(context, NodeFacts(context, body[0], prefix, parent), BodyFacts(context, body[1..], prefix, parent));
    }
  }

  lemma {:induction false} NodeCutsAreKept(context: Context, n: Node, prefix: string, parent: Option<NodeId>)
    ensures CutIsKept(context, NodeFacts(context, n, prefix, parent))
    ensures PathsAre(NodeFacts(context, n, prefix, parent), context.path)
    decreases n, 1
  {
    if n.Def? {
      var s := SymbolOf(context, n, prefix);
      CutsAreKept(context, n.body, s.name, Some(s.id));
      HeadCutIsKept(context, s, parent);
      PlusCutIsKept(context, Head(context, s, parent), BodyFacts(context, n.body, s.name, Some(s.id)));
    }
  }

  lemma HeadCutIsKept(context: Context, s: Symbol, parent: Option<NodeId>)
    ensures CutIsKept(context, Head(context, s, parent))
  {
    var head := Head(context, s, parent);
    forall j: nat | j < |context.cut(s.startLine, s.endLine)| ensures PieceKept(context, head, s, j) {
      assert head.chunks[j] in head.chunks && CutFor(context, head.chunks[j], s, j);
    }
  }

  lemma PlusFromCut(context: Context, a: Facts, b: Facts)
    requires FromCut(context, a) && FromCut(context, b)
    ensures FromCut(context, Plus(a, b))
  {
    forall c | c in Plus(a, b).chunks ensures exists s, j: nat :: s in Plus(a, b).symbols && CutFor(context, c, s, j) {
      if c in a.chunks {
        var s, j: nat :| s in a.symbols && CutFor(context, c, s, j);
        assert s in Plus(a, b).symbols;
      } else {
        var s, j: nat :| s in b.symbols && CutFor(context, c, s, j);
        assert s in Plus(a, b).symbols;
      }
    }
  }

  /** Every chunk of a file is a piece of what was cut for one of its symbols. */
  lemma {:induction false} ChunksComeFromCut(context: Context, body: seq<Node>, prefix: string, parent: Option<NodeId>)
    ensures FromCut(context, BodyFacts(context, body, prefix, parent))
    decreases body, 0
  {
    if body != [] {
      NodeChunksComeFromCut(context, body[0], prefix, parent);
      ChunksComeFromCut(context, body[1..], prefix, parent);
      PlusFromCut(context, NodeFacts(context, body[0], prefix, parent), BodyFacts(context, body[1..], prefix, parent));
    }
  }

  lemma {:induction false} NodeChunksComeFromCut(context: Context, n: Node, prefix: string, parent: Option<NodeId>)
    ensures FromCut(context, NodeFacts(context, n, prefix, parent))
    decreases n, 1
  {
    if n.Def? {
      var s := SymbolOf(context, n, prefix);
      ChunksComeFromCut(context, n.body, s.name, Some(s.id));
      HeadFromCut(context, s, parent);
      PlusFromCut(context, Head(context, s, parent), BodyFacts(context, n.body, s.name, Some(s.id)));
    }
  }

  lemma HeadFromCut(context: Context, s: Symbol, parent: Option<NodeId>)
    ensures FromCut(context, Head(context, s, parent))
  {
    var head := Head(context, s, parent);
    forall c | c in head.chunks ensures exists t, j: nat :: t in head.symbols && CutFor(context, c, t, j) {
      var j: nat :| j < |head.chunks| && head.chunks[j] == c;
      assert s in head.symbols && CutFor(context, c, s, j);
    }
  }

  /* ---------- rebinding ---------- */

  function MoveId(id: NodeId, to: string): NodeId { id.(scope := to) }

  function MoveSymbol(s: Symbol, to: string): Symbol { s.(id := MoveId(s.id, to), scope := to) }

  function MoveChunk(c: Chunk, to: string): Chunk {
    c.(id := ChunkId(MoveId(c.node, to), c.piece.start, c.piece.end), node := MoveId(c.node, to), scope := to)
  }

  ghost predicate ChunkIdsSpelled(f: Facts) {
    forall c :: c in f.chunks ==> c.id == ChunkId(c.node, c.piece.start, c.piece.end)
  }

  /** m2 is m with keys and values moved. */
  ghost predicate MovedMap(m: map<NodeId, NodeId>, m2: map<NodeId, NodeId>, from: string, to: string) {
    && (forall k :: k in m ==> k.scope == from)
    && (forall p :: p in m2 ==> p.scope == to)
    && (forall key :: NodeId(from, key) in m <==> NodeId(to, key) in m2)
    && (forall key :: NodeId(from, key) in m ==> m2[NodeId(to, key)] == MoveId(m[NodeId(from, key)], to))
  }

  /** g is f with every id and scope moved, and nothing else changed. */
  ghost predicate Moved(f: Facts, g: Facts, from: string, to: string) {
    && |g.symbols| == |f.symbols| && |g.chunks| == |f.chunks|
    && (forall i :: 0 <= i < |f.symbols| ==> g.symbols[i] == MoveSymbol(f.symbols[i], to))
    && (forall i :: 0 <= i < |f.chunks| ==> g.chunks[i] == MoveChunk(f.chunks[i], to))
    && MovedMap(f.parents, g.parents, from, to)
  }

  lemma MovedSpellsIds(f: Facts, g: Facts, from: string, to: string)
    requires Moved(f, g, from, to)
    ensures ChunkIdsSpelled(g)
  {
  }

  /** Moving leaves no choice. */
  lemma MovedIsUnique(f: Facts, g: Facts, h: Facts, from: string, to: string)
    requires Moved(f, g, from, to) && Moved(f, h, from, to)
    ensures g == h
  {
    MovedMapIsUnique(f.parents, g.parents, h.parents, from, to);
    assert g.symbols == h.symbols && g.chunks == h.chunks;
  }

  lemma MovedMapIsUnique(m: map<NodeId, NodeId>, a: map<NodeId, NodeId>, b: map<NodeId, NodeId>, from: string, to: string)
    requires MovedMap(m, a, from, to) && MovedMap(m, b, from, to)
    ensures a == b
  {
    forall p ensures p in a <==> p in b {
      assert p.scope == to ==> p == NodeId(to, p.key);
    }
    forall p | p in a ensures a[p] == b[p] {
      assert p == NodeId(to, p.key);
    }
  }

  function MoveParent(p: Option<NodeId>, to: string): Option<NodeId> {
    if p.Some? then Some(MoveId(p.value, to)) else None
  }

  lemma MovePlus(a: Facts, b: Facts, a2: Facts, b2: Facts, from: string, to: string)
    requires Moved(a, a2, from, to) && Moved(b, b2, from, to)
    ensures Moved(Plus(a, b), Plus(a2, b2), from, to)
  {
    MovePlusMap(a.parents, b.parents, a2.parents, b2.parents, from, to);
  }

  lemma MovePlusMap(a: map<NodeId, NodeId>, b: map<NodeId, NodeId>, a2: map<NodeId, NodeId>, b2: map<NodeId, NodeId>,
                    from: string, to: string)
    requires MovedMap(a, a2, from, to) && MovedMap(b, b2, from, to)
    ensures MovedMap(a + b, a2 + b2, from, to)
  {
  }

  /** Parsing under another scope is parsing and then moving. */
  lemma {:induction false} BodyFactsMove(c: Context, to: string, body: seq<Node>, prefix: string, parent: Option<NodeId>)
    ensures Moved(BodyFacts(c, body, prefix, parent), BodyFacts(c.(scope := to), body, prefix, MoveParent(parent, to)), c.scope, to)
    decreases body, 0
  {
    if body != [] {
      NodeFactsMove(c, to, body[0], prefix, parent);
      BodyFactsMove(c, to, body[1..], prefix, parent);
      MovePlus(NodeFacts(c, body[0], prefix, parent), BodyFacts(c, body[1..], prefix, parent),
               NodeFacts(c.(scope := to), body[0], prefix, MoveParent(parent, to)),
               BodyFacts(c.(scope := to), body[1..], prefix, MoveParent(parent, to)), c.scope, to);
    }
  }

  lemma {:induction false} NodeFactsMove(c: Context, to: string, n: Node, prefix: string, parent: Option<NodeId>)
    ensures Moved(NodeFacts(c, n, prefix, parent), NodeFacts(c.(scope := to), n, prefix, MoveParent(parent, to)), c.scope, to)
    decreases n, 1
  {
    if n.Def? {
      var s, t := SymbolOf(c, n, prefix), SymbolOf(c.(scope := to), n, prefix);
      BodyFactsMove(c, to, n.body, s.name, Some(s.id));
      HeadMoves(c, to, s, parent);
      MovePlus(Head(c, s, parent), BodyFacts(c, n.body, s.name, Some(s.id)),
               Head(c.(scope := to), t, MoveParent(parent, to)), BodyFacts(c.(scope := to), n.body, t.name, Some(t.id)), c.scope, to);
    }
  }

  lemma HeadMoves(c: Context, to: string, s: Symbol, parent: Option<NodeId>)
    requires s.id.scope == c.scope == s.scope
    ensures Moved(Head(c, s, parent), Head(c.(scope := to), MoveSymbol(s, to), MoveParent(parent, to)), c.scope, to)
  {
    assert s.id == NodeId(c.scope, s.id.key);
  }

  /** _rebind: rename symbols, then chunks and parents through the table of renamed ids. */
  method Rebind(f: Facts, ghost from: string, to: string) returns (r: Facts)
    requires WellFormed(f, from) && ParentsKnown(f, None)
    ensures r == Rebound(f, from, to)
  {
    var nodes, identifiers := RebindSymbols(f.symbols, from, to);
    forall id | HasSymbol(f, id) ensures id in identifiers {
      var i :| 0 <= i < |f.symbols| && f.symbols[i].id == id;
    }
    var chunks := RebindChunks(f.chunks, identifiers, to);
    var parents := RebindParents(f.parents, identifiers, from, to);
    r := Facts(nodes, chunks, parents);
    MovedIsUnique(f, r, Rebound(f, from, to), from, to);
  }

  method RebindSymbols(symbols: seq<Symbol>, ghost from: string, to: string)
    returns (nodes: seq<Symbol>, identifiers: map<NodeId, NodeId>)
    requires forall s :: s in symbols ==> s.id == NodeId(from, KeyOf(s))
    ensures |nodes| == |symbols| && forall i :: 0 <= i < |symbols| ==> nodes[i] == MoveSymbol(symbols[i], to)
    ensures forall i :: 0 <= i < |symbols| ==> symbols[i].id in identifiers
    ensures forall k :: k in identifiers ==> identifiers[k] == MoveId(k, to)
  {
    identifiers, nodes := map[], [];
    var i := 0;
    while i < |symbols|
      invariant 0 <= i <= |symbols| && |nodes| == i
      invariant forall j :: 0 <= j < i ==> nodes[j] == MoveSymbol(symbols[j], to)
      invariant forall j :: 0 <= j < i ==> symbols[j].id in identifiers
      invariant forall k :: k in identifiers ==> identifiers[k] == MoveId(k, to)
    {
      var s := symbols[i];
      assert s in symbols;
      var id := NodeId(to, KeyOf(s));
      identifiers := identifiers[s.id := id];
      nodes := nodes + [s.(id := id, scope := to)];
      i := i + 1;
    }
  }

  method RebindChunks(old_: seq<Chunk>, identifiers: map<NodeId, NodeId>, to: string) returns (chunks: seq<Chunk>)
    requires forall i :: 0 <= i < |old_| ==> old_[i].node in identifiers
    requires forall k :: k in identifiers ==> identifiers[k] == MoveId(k, to)
    ensures |chunks| == |old_| && forall i :: 0 <= i < |old_| ==> chunks[i] == MoveChunk(old_[i], to)
  {
    chunks := [];
    var i := 0;
    while i < |old_|
      invariant 0 <= i <= |old_| && |chunks| == i
      invariant forall j :: 0 <= j < i ==> chunks[j] == MoveChunk(old_[j], to)
    {
      var c := old_[i];
      var node := identifiers[c.node];
      chunks := chunks + [c.(id := ChunkId(node, c.piece.start, c.piece.end), node := node, scope := to)];
      i := i + 1;
    }
  }

  method RebindParents(m: map<NodeId, NodeId>, identifiers: map<NodeId, NodeId>, ghost from: string, to: string)
    returns (parents: map<NodeId, NodeId>)
    requires forall k :: k in m ==> k.scope == from && k in identifiers && m[k] in identifiers
    requires forall k :: k in identifiers ==> identifiers[k] == MoveId(k, to)
    ensures MovedMap(m, parents, from, to)
  {
    parents := map[];
    var rest := m.Keys;
    ghost var done: map<NodeId, NodeId> := map[];
    while rest != {}
      invariant rest <= m.Keys && done.Keys == m.Keys - rest
      invariant forall k :: k in done ==> done[k] == m[k]
      invariant MovedMap(done, parents, from, to)
      decreases rest
    {
      var k :| k in rest;
      MovedInsert(done, parents, k, m[k], from, to);
      rest := rest - {k};
      done := done[k := m[k]];
      parents := parents[identifiers[k] := identifiers[m[k]]];
    }
    assert done == m;
  }

  lemma MovedInsert(m: map<NodeId, NodeId>, m2: map<NodeId, NodeId>, k: NodeId, v: NodeId, from: string, to: string)
    requires MovedMap(m, m2, from, to) && k.scope == from
    ensures MovedMap(m[k := v], m2[MoveId(k, to) := MoveId(v, to)], from, to)
  {
    assert k == NodeId(from, k.key);
  }

  lemma {:induction false} MovedMapExists(m: map<NodeId, NodeId>, from: string, to: string) returns (m2: map<NodeId, NodeId>)
    requires forall k :: k in m ==> k.scope == from
    ensures MovedMap(m, m2, from, to)
    decreases m.Keys
  {
    if m == map[] {
      m2 := map[];
    } else {
      var k :| k in m;
      var rest := MovedMapExists(m - {k}, from, to);
      MovedInsert(m - {k}, rest, k, m[k], from, to);
      assert (m - {k})[k := m[k]] == m;
      m2 := rest[MoveId(k, to) := MoveId(m[k], to)];
    }
  }

  lemma MovedExists(f: Facts, from: string, to: string)
    requires WellFormed(f, from)
    ensures exists g :: Moved(f, g, from, to)
  {
    var parents := MovedMapExists(f.parents, from, to);
    var g := Facts(
      seq(|f.symbols|, i requires 0 <= i < |f.symbols| => MoveSymbol(f.symbols[i], to)),
      seq(|f.chunks|, i requires 0 <= i < |f.chunks| => MoveChunk(f.chunks[i], to)), parents);
    assert Moved(f, g, from, to);
  }

  /** The result of _rebind. */
  ghost function Rebound(f: Facts, from: string, to: string): (g: Facts)
    requires WellFormed(f, from)
    ensures Moved(f, g, from, to)
  {
    MovedExists(f, from, to);
    var g :| Moved(f, g, from, to); g
  }

  lemma ReboundWellFormed(f: Facts, from: string, to: string)
    requires WellFormed(f, from) && ParentsKnown(f, None)
    ensures WellFormed(Rebound(f, from, to), to) && ParentsKnown(Rebound(f, from, to), None)
  {
    var g := Rebound(f, from, to);
    forall id | HasSymbol(f, id) ensures HasSymbol(g, MoveId(id, to)) {
      var i :| 0 <= i < |f.symbols| && f.symbols[i].id == id;
      assert g.symbols[i] in g.symbols;
    }
    forall s | s in g.symbols ensures s.scope == to && s.id == NodeId(to, KeyOf(s)) {
      var i :| 0 <= i < |g.symbols| && g.symbols[i] == s;
      assert f.symbols[i] in f.symbols;
    }
    forall c | c in g.chunks ensures c.scope == to && HasSymbol(g, c.node) {
      var i :| 0 <= i < |g.chunks| && g.chunks[i] == c;
      assert f.chunks[i] in f.chunks;
    }
    forall p | p in g.parents ensures HasSymbol(g, p) && HasSymbol(g, g.parents[p]) {
      assert p == NodeId(to, p.key);
      assert NodeId(from, p.key) in f.parents;
      assert p == MoveId(NodeId(from, p.key), to);
    }
  }

  /**
    Rebinding facts parsed under one scope gives exactly the facts of a parse
    under the other.
  */
  lemma RebindIsReparse(c: Context, to: string, body: seq<Node>)
    ensures WellFormed(FileFactsOf(c, body), c.scope) && ParentsKnown(FileFactsOf(c, body), None)
    ensures Rebound(FileFactsOf(c, body), c.scope, to) == FileFactsOf(c.(scope := to), body)
  {
    BodyFactsWellFormed(c, body, "", None);
    BodyFactsMove(c, to, body, "", None);
    MovedIsUnique(FileFactsOf(c, body), Rebound(FileFactsOf(c, body), c.scope, to), FileFactsOf(c.(scope := to), body), c.scope, to);
  }
}
