/**
  From a symbol of a built file to its source: the chunk rows that name its node
  are exactly the pieces cut for it, each of them loads, and joined they give the
  octets of its lines.
*/
module SymbolSources {
  import opened Prelude
  import opened BuildRows
  import opened Staging
  import opened BuildHistories
  import opened BuiltSources
  import B = SnapshotBuild
  import F = FileFacts
  import G = Generations
  import L = JobLeases
  import P = PythonChunks
  import S = SourceContext

  /* ---------- the chunk table of a generation ---------- */

  /** What chunk ids depend on, file by file. */
  ghost predicate FilesOk(s: string, files: Files) {
    && ParsedOnce(files)
    && forall i :: 0 <= i < |files| ==> FileOk(s, files[i].0, files[i].1)
  }

  ghost predicate FileOk(s: string, e: B.Entry, p: B.Parsed) {
    && p.path == e.path && F.WellFormed(p.facts, s) && F.PathsAre(p.facts, p.path)
    && F.ChunkIdsSpelled(p.facts) && B.ChunksInside(p) && (p.tree.Some? ==> B.FactsOfTree(p, s))
  }

  ghost predicate ChunkRowIs(tc: B.Toolchain, d: Digests, identity: L.Identity, rows: map<G.RowKey, G.Row>, p: B.Parsed, c: F.Chunk) {
    var x := ChunkRow(tc, d, p, c);
    x.0 in rows && rows[x.0] == G.Stamp(x.1, identity)
  }

  ghost predicate ChunkOfKey(tc: B.Toolchain, d: Digests, files: Files, k: G.RowKey, i: nat, c: F.Chunk) {
    i < |files| && c in files[i].1.facts.chunks && k == ChunkRow(tc, d, files[i].1, c).0
  }

  /** The chunk rows are those of the chunks of the files: every one of them, and no others. */
  ghost predicate ChunkTable(tc: B.Toolchain, d: Digests, identity: L.Identity, files: Files, rows: map<G.RowKey, G.Row>) {
    && (forall i, c :: 0 <= i < |files| && c in files[i].1.facts.chunks ==> ChunkRowIs(tc, d, identity, rows, files[i].1, c))
    && (forall k :: k in rows && rows[k].ChunkRow? ==> exists i: nat, c :: ChunkOfKey(tc, d, files, k, i, c))
  }

  lemma ChunkNamesItsFile(s: string, files: Files, i: nat, c: F.Chunk)
    requires FilesOk(s, files) && i < |files| && c in files[i].1.facts.chunks
    ensures c.scope == s && c.node.scope == s && c.node.key.path == files[i].0.path && c.path == files[i].0.path
    ensures c.id == F.ChunkId(c.node, c.piece.start, c.piece.end)
  {
    assert FileOk(s, files[i].0, files[i].1);
  }

  /** Chunks with one id have one row. */
  lemma SameIdSameRow(tc: B.Toolchain, d: Digests, s: string, files: Files, i: nat, c: F.Chunk, j: nat, e: F.Chunk)
    requires FilesOk(s, files) && i < |files| && c in files[i].1.facts.chunks && j < |files| && e in files[j].1.facts.chunks
    requires c.id == e.id
    ensures ChunkRow(tc, d, files[i].1, c) == ChunkRow(tc, d, files[j].1, e)
  {
    ChunkNamesItsFile(s, files, i, c);
    ChunkNamesItsFile(s, files, j, e);
    assert i == j;
  }

  lemma BuildFilesOk(tc: B.Toolchain, d: Digests, b: Build)
    requires B.Sound(tc) && ListedOnce(b.entries)
    ensures FilesOk(SnapshotOf(d, b), Work(tc, d, b).parsed)
  {
    var r, files := BuildRequest(d, b), Work(tc, d, b).parsed;
    ListedOnceIsParsedOnce(tc, r, |b.entries|);
    forall i | 0 <= i < |files| ensures FileOk(SnapshotOf(d, b), files[i].0, files[i].1) {
      B.FilesAreParsedInPlace(tc, r, |b.entries|, i);
    }
  }

  /** Every chunk of every parsed file is stored under its id. */
  lemma ChunkIsStored(tc: B.Toolchain, d: Digests, b: Build, i: nat, c: F.Chunk)
    requires B.Sound(tc) && Injective(d) && FilesOk(SnapshotOf(d, b), Work(tc, d, b).parsed)
    requires i < |Work(tc, d, b).parsed| && c in Work(tc, d, b).parsed[i].1.facts.chunks
    ensures ChunkRowIs(tc, d, b.identity, G.Stored(Output(tc, d, b)), Work(tc, d, b).parsed[i].1, c)
  {
    var r, files := Output(tc, d, b), Work(tc, d, b).parsed;
    var x := ChunkRow(tc, d, files[i].1, c);
    ChunksHaveRows(tc, d, files, i, c);
    assert x in r.rows;
    var n :| 0 <= n < |r.rows| && r.rows[n] == x;
    G.StoredIsStaged(r.rows, b.identity, x.0);
    StoredAreKeyedChunks(tc, d, b, x.0);
    var j, e := StoredChunk(tc, d, b, x.0);
    SameKeySameId(tc, d, files[i].1, c, files[j].1, e);
    SameIdSameRow(tc, d, SnapshotOf(d, b), files, i, c, j, e);
  }

  lemma SameKeySameId(tc: B.Toolchain, d: Digests, p: B.Parsed, c: F.Chunk, q: B.Parsed, e: F.Chunk)
    requires Injective(d) && ChunkRow(tc, d, p, c).0 == ChunkRow(tc, d, q, e).0
    ensures c.id == e.id
  {
    assert OfChunk(c.id) == OfChunk(e.id);
  }

  lemma StoredAreKeyedChunks(tc: B.Toolchain, d: Digests, b: Build, k: G.RowKey)
    requires B.Sound(tc) && k in G.Stored(Output(tc, d, b)) && k.table.Chunks?
    ensures G.Stored(Output(tc, d, b))[k].ChunkRow?
  {
    BuildIsKeyed(tc, d, b);
    StoredAreKeyed(d, Output(tc, d, b));
    assert Keyed(d, k, G.Stored(Output(tc, d, b))[k]);
  }

  lemma BuildChunkTable(tc: B.Toolchain, d: Digests, b: Build)
    requires B.Sound(tc) && Injective(d) && ListedOnce(b.entries)
    ensures ChunkTable(tc, d, b.identity, Work(tc, d, b).parsed, G.Stored(Output(tc, d, b)))
  {
    var files, rows := Work(tc, d, b).parsed, G.Stored(Output(tc, d, b));
    BuildFilesOk(tc, d, b);
    forall i, c | 0 <= i < |files| && c in files[i].1.facts.chunks ensures ChunkRowIs(tc, d, b.identity, rows, files[i].1, c) {
      ChunkIsStored(tc, d, b, i, c);
    }
    forall k | k in rows && rows[k].ChunkRow? ensures exists i: nat, c :: ChunkOfKey(tc, d, files, k, i, c) {
      var i, c := StoredChunk(tc, d, b, k);
      assert ChunkOfKey(tc, d, files, k, i, c);
    }
  }

  /* ---------- every chunk that is not empty loads its octets ---------- */

  /** Where chunks are read from: the platform, the database and one generation in it. */
  datatype Place = Place(platform: S.Platform, m: G.MapTables, repository: string, s: string, g: nat)

  ghost predicate Loads(at: Place, id: string, octets: B.Bytes) {
    var loaded := S.GenerationChunk(at.platform, at.m, at.repository, at.s, at.g, id);
    loaded.Ok? && loaded.value.data == octets
  }

  ghost predicate ChunksLoad(d: Digests, at: Place, files: Files) {
    forall i, c :: 0 <= i < |files| && c in files[i].1.facts.chunks && c.piece.start < c.piece.end <= |files[i].1.data| ==>
      Loads(at, d.row(OfChunk(c.id)), files[i].1.data[c.piece.start..c.piece.end])
  }

  function PlaceOf(platform: S.Platform, m: G.MapTables, payload: G.Payload, s: string, g: nat): Place {
    Place(platform, m, payload.snapshot.identity.repository, s, g)
  }

  lemma StoredChunkLoads(tc: B.Toolchain, d: Digests, platform: S.Platform, m: G.MapTables, b: Build, g: nat, payload: G.Payload, k: G.RowKey)
    returns (e: B.Entry)
    requires B.Sound(tc) && Injective(d) && SameHash(tc, platform) && ListedOnce(b.entries) && Holds(tc, d, m, b, g, payload)
    requires k.table.Chunks? && k in payload.rows && payload.rows[k].ChunkRow? && payload.rows[k].byteStart < payload.rows[k].byteEnd
    ensures e in b.entries && ChunkOfFile(tc, payload.rows[k], b.identity.commit, e, b.blob(e.object_))
    ensures Loads(PlaceOf(platform, m, payload, SnapshotOf(d, b), g), k.id,
                  b.blob(e.object_)[payload.rows[k].byteStart..payload.rows[k].byteEnd])
  {
    e := ChunkAndFileAgree(tc, d, m, b, g, payload, k);
    assert k == G.RowKey(G.Chunks, k.id);
    AgreedChunkLoads(tc, platform, m, SnapshotOf(d, b), g, payload, k.id, e, b.blob(e.object_));
  }

  lemma BuildChunkLoads(tc: B.Toolchain, d: Digests, platform: S.Platform, m: G.MapTables, b: Build, g: nat, payload: G.Payload, i: nat, c: F.Chunk)
    requires B.Sound(tc) && Injective(d) && SameHash(tc, platform) && ListedOnce(b.entries) && Holds(tc, d, m, b, g, payload)
    requires ChunkTable(tc, d, b.identity, Work(tc, d, b).parsed, payload.rows)
    requires i < |Work(tc, d, b).parsed| && c in Work(tc, d, b).parsed[i].1.facts.chunks
    requires c.piece.start < c.piece.end <= |Work(tc, d, b).parsed[i].1.data|
    ensures Loads(PlaceOf(platform, m, payload, SnapshotOf(d, b), g), d.row(OfChunk(c.id)),
                  Work(tc, d, b).parsed[i].1.data[c.piece.start..c.piece.end])
  {
    var (e, p) := Work(tc, d, b).parsed[i];
    var k := ChunkRow(tc, d, p, c).0;
    assert ChunkRowIs(tc, d, b.identity, payload.rows, p, c);
    var found := StoredChunkLoads(tc, d, platform, m, b, g, payload, k);
    EntryOfFile(tc, d, b, i, c, found);
  }

  /** The entry with the path of a chunk is the entry its file was parsed from. */
  lemma EntryOfFile(tc: B.Toolchain, d: Digests, b: Build, i: nat, c: F.Chunk, found: B.Entry)
    requires B.Sound(tc) && ListedOnce(b.entries) && i < |Work(tc, d, b).parsed|
    requires c in Work(tc, d, b).parsed[i].1.facts.chunks && found in b.entries && found.path == c.path
    ensures b.blob(found.object_) == Work(tc, d, b).parsed[i].1.data
  {
    var (e, p) := Work(tc, d, b).parsed[i];
    B.FilesAreParsedInPlace(tc, BuildRequest(d, b), |b.entries|, i);
    ListedOnceIsParsedOnce(tc, BuildRequest(d, b), |b.entries|);
    assert B.ChunksInside(p);
    assert e in b.entries && e.path == found.path;
    OneEntryPerPath(b.entries, e, found);
  }

  lemma OneEntryPerPath(entries: seq<B.Entry>, e: B.Entry, f: B.Entry)
    requires ListedOnce(entries) && e in entries && f in entries && e.path == f.path
    ensures e == f
  {
    var i :| 0 <= i < |entries| && entries[i] == e;
    var j :| 0 <= j < |entries| && entries[j] == f;
  }

  lemma BuildChunksLoad(tc: B.Toolchain, d: Digests, platform: S.Platform, m: G.MapTables, b: Build, g: nat, payload: G.Payload)
    requires B.Sound(tc) && Injective(d) && SameHash(tc, platform) && ListedOnce(b.entries) && Holds(tc, d, m, b, g, payload)
    requires ChunkTable(tc, d, b.identity, Work(tc, d, b).parsed, payload.rows)
    ensures ChunksLoad(d, PlaceOf(platform, m, payload, SnapshotOf(d, b), g), Work(tc, d, b).parsed)
  {
    var files := Work(tc, d, b).parsed;
    forall i, c | 0 <= i < |files| && c in files[i].1.facts.chunks && c.piece.start < c.piece.end <= |files[i].1.data|
      ensures Loads(PlaceOf(platform, m, payload, SnapshotOf(d, b), g), d.row(OfChunk(c.id)), files[i].1.data[c.piece.start..c.piece.end])
    {
      BuildChunkLoads(tc, d, platform, m, b, g, payload, i, c);
    }
  }

  /* ---------- the chunks of one symbol ---------- */

  /** The octets that chunks load, one after the other. */
  ghost function Loaded(at: Place, ids: seq<string>): Option<B.Bytes> {
    if ids == [] then Some([])
    else
      var n := |ids| - 1;
      var before, last := Loaded(at, ids[..n]), S.GenerationChunk(at.platform, at.m, at.repository, at.s, at.g, ids[n]);
      if before.Some? && last.Ok? then Some(before.value + last.value.data) else None
  }

  lemma {:induction false} LoadedIsJoined(at: Place, ids: seq<string>, data: B.Bytes, pieces: seq<P.Piece>)
    requires |ids| == |pieces| && forall k :: 0 <= k < |pieces| ==> pieces[k].start <= pieces[k].end <= |data|
    requires forall k :: 0 <= k < |ids| ==> Loads(at, ids[k], data[pieces[k].start..pieces[k].end])
    ensures Loaded(at, ids) == Some(P.Joined(data, pieces))
  {
    if ids != [] {
      var n := |ids| - 1;
      LoadedIsJoined(at, ids[..n], data, pieces[..n]);
      assert Loads(at, ids[n], data[pieces[n].start..pieces[n].end]);
    }
  }

  /** The chunk rows that name a node. */
  predicate NamesNode(rows: map<G.RowKey, G.Row>, column: string, id: string) {
    var k := G.RowKey(G.Chunks, id);
    k in rows && rows[k].ChunkRow? && rows[k].node == column
  }

  /** The range of a chunk row. */
  predicate HasRange(rows: map<G.RowKey, G.Row>, id: string, piece: P.Piece) {
    var k := G.RowKey(G.Chunks, id);
    k in rows && rows[k].ChunkRow? && rows[k].byteStart == piece.start && rows[k].byteEnd == piece.end
  }

  /** Where the lines of a symbol end. */
  function EndOf(offsets: seq<nat>, length: nat, endLine: nat): nat {
    if endLine < |offsets| then offsets[endLine] else length
  }

  /**
    The rows `ids` are exactly the chunks of a node; their ranges tile the lines of
    the symbol, and loaded one after the other they give its source.
  */
  ghost predicate ReadsBackBy(at: Place, rows: map<G.RowKey, G.Row>, column: string, data: B.Bytes, n: F.Symbol,
                              offsets: seq<nat>, ids: seq<string>, pieces: seq<P.Piece>)
  {
    && P.SymbolLines(offsets, data, n.startLine, n.endLine)
    && (forall id :: id in ids <==> NamesNode(rows, column, id))
    && |pieces| == |ids| && (forall k :: 0 <= k < |ids| ==> HasRange(rows, ids[k], pieces[k]))
    && var start, end := offsets[n.startLine - 1], EndOf(offsets, |data|, n.endLine);
      && P.Tiles(pieces, start, end) && start <= end <= |data|
      && Loaded(at, ids) == Some(data[start..end])
  }

  ghost predicate ReadsBack(at: Place, rows: map<G.RowKey, G.Row>, column: string, data: B.Bytes, n: F.Symbol) {
    exists offsets, ids, pieces :: ReadsBackBy(at, rows, column, data, n, offsets, ids, pieces)
  }

  function IdOf(d: Digests, n: F.Symbol, c: P.Chunk): string { d.row(OfChunk(F.ChunkId(n.id, c.start, c.end))) }

  function Ids(d: Digests, n: F.Symbol, cut: seq<P.Chunk>): seq<string> {
    seq(|cut|, j requires 0 <= j < |cut| => IdOf(d, n, cut[j]))
  }

  /** Every piece cut for a symbol is a chunk of its file. */
  lemma PieceIsChunk(s: string, files: Files, i: nat, how: B.Cutting, n: F.Symbol, j: nat) returns (c: F.Chunk)
    requires FilesOk(s, files) && i < |files| && files[i].1.tree.Some? && B.ReadFromTree(files[i].1, s, how)
    requires n in files[i].1.facts.symbols && j < |how.cut(n.startLine, n.endLine)|
    ensures c in files[i].1.facts.chunks && c.node == n.id && c.piece == how.cut(n.startLine, n.endLine)[j]
    ensures c.id == F.ChunkId(n.id, c.piece.start, c.piece.end)
  {
    var p := files[i].1;
    var context := B.ContextOf(p, s, how);
    F.CutsAreKept(context, p.tree.value, "", None);
    assert F.PiecesKept(context, p.facts, n);
    assert F.PieceKept(context, p.facts, n, j);
    c :| c in p.facts.chunks && F.CutFor(context, c, n, j);
    ChunkNamesItsFile(s, files, i, c);
  }

  /** Every chunk that names a symbol's node is a piece cut for it, in its own file. */
  lemma ChunkIsPiece(s: string, files: Files, i: nat, how: B.Cutting, n: F.Symbol, j: nat, c: F.Chunk) returns (k: nat)
    requires FilesOk(s, files) && i < |files| && files[i].1.tree.Some? && B.ReadFromTree(files[i].1, s, how)
    requires n in files[i].1.facts.symbols && j < |files| && c in files[j].1.facts.chunks && c.node == n.id
    ensures k < |how.cut(n.startLine, n.endLine)| && c.piece == how.cut(n.startLine, n.endLine)[k]
    ensures c.id == F.ChunkId(n.id, c.piece.start, c.piece.end)
  {
    ChunkNamesItsFile(s, files, j, c);
    assert FileOk(s, files[i].0, files[i].1);
    assert n.id.key.path == files[i].0.path;
    assert i == j;
    var p := files[i].1;
    var context := B.ContextOf(p, s, how);
    F.ChunksComeFromCut(context, p.tree.value, "", None);
    var t, l: nat :| t in p.facts.symbols && F.CutFor(context, c, t, l);
    assert t.startLine == n.startLine && t.endLine == n.endLine;
    k := l;
  }

  lemma PiecesOfSymbol(s: string, files: Files, i: nat, how: B.Cutting, n: F.Symbol)
    requires FilesOk(s, files) && i < |files| && files[i].1.tree.Some? && B.ReadFromTree(files[i].1, s, how)
    requires n in files[i].1.facts.symbols
    ensures var data, pieces := files[i].1.data, P.PiecesOf(how.cut(n.startLine, n.endLine));
      && P.SymbolLines(how.offsets, data, n.startLine, n.endLine)
      && var start, end := how.offsets[n.startLine - 1], EndOf(how.offsets, |data|, n.endLine);
        && start <= end <= |data| && P.Tiles(pieces, start, end)
        && (forall k :: 0 <= k < |pieces| ==> pieces[k].start < pieces[k].end <= |data|)
        && P.Joined(data, pieces) == data[start..end]
  {
    var data, cut := files[i].1.data, how.cut(n.startLine, n.endLine);
    assert P.SymbolChunks(how.offsets, data, n.startLine, n.endLine, how.maxBytes, how.maxLines, cut);
    P.SpanOrdered(how.offsets, data, n.startLine, n.endLine, how.maxBytes, how.maxLines);
    var start, end := how.offsets[n.startLine - 1], EndOf(how.offsets, |data|, n.endLine);
    forall k | 0 <= k < |cut| ensures P.PiecesOf(cut)[k].start < P.PiecesOf(cut)[k].end <= |data| {
      P.ChunkInData(how.offsets, data, n.startLine, n.endLine, how.maxBytes, how.maxLines, cut, k);
    }
    P.TilesJoin(data, P.PiecesOf(cut), start, end);
  }

  /** One piece of a symbol: its row, its range and its octets. */
  lemma PieceIsFound(tc: B.Toolchain, d: Digests, identity: L.Identity, at: Place, files: Files, rows: map<G.RowKey, G.Row>,
                     i: nat, how: B.Cutting, n: F.Symbol, j: nat)
    requires FilesOk(at.s, files) && ChunkTable(tc, d, identity, files, rows) && ChunksLoad(d, at, files)
    requires i < |files| && files[i].1.tree.Some? && B.ReadFromTree(files[i].1, at.s, how)
    requires n in files[i].1.facts.symbols && j < |how.cut(n.startLine, n.endLine)|
    ensures var piece, id := how.cut(n.startLine, n.endLine)[j], IdOf(d, n, how.cut(n.startLine, n.endLine)[j]);
      && NamesNode(rows, NodeColumn(d, n.id), id) && HasRange(rows, id, P.PieceOf(piece))
      && piece.start < piece.end <= |files[i].1.data| && Loads(at, id, files[i].1.data[piece.start..piece.end])
  {
    var c := PieceIsChunk(at.s, files, i, how, n, j);
    assert ChunkRowIs(tc, d, identity, rows, files[i].1, c);
    PiecesOfSymbol(at.s, files, i, how, n);
    assert P.PiecesOf(how.cut(n.startLine, n.endLine))[j].start < P.PiecesOf(how.cut(n.startLine, n.endLine))[j].end;
  }

  /** No other chunk row names the node. */
  lemma NamedIsPiece(tc: B.Toolchain, d: Digests, identity: L.Identity, s: string, files: Files, rows: map<G.RowKey, G.Row>,
                     i: nat, how: B.Cutting, n: F.Symbol, id: string)
    requires Injective(d) && FilesOk(s, files) && ChunkTable(tc, d, identity, files, rows)
    requires i < |files| && files[i].1.tree.Some? && B.ReadFromTree(files[i].1, s, how) && n in files[i].1.facts.symbols
    requires NamesNode(rows, NodeColumn(d, n.id), id)
    ensures id in Ids(d, n, how.cut(n.startLine, n.endLine))
  {
    var k := G.RowKey(G.Chunks, id);
    var j: nat, c :| ChunkOfKey(tc, d, files, k, j, c);
    assert ChunkRowIs(tc, d, identity, rows, files[j].1, c);
    assert OfNode(c.node) == OfNode(n.id);
    var l := ChunkIsPiece(s, files, i, how, n, j, c);
    assert Ids(d, n, how.cut(n.startLine, n.endLine))[l] == id;
  }

  lemma SymbolReadsBack(tc: B.Toolchain, d: Digests, identity: L.Identity, at: Place, files: Files, rows: map<G.RowKey, G.Row>,
                        i: nat, n: F.Symbol)
    requires Injective(d) && FilesOk(at.s, files) && ChunkTable(tc, d, identity, files, rows) && ChunksLoad(d, at, files)
    requires i < |files| && files[i].1.tree.Some? && n in files[i].1.facts.symbols
    ensures ReadsBack(at, rows, NodeColumn(d, n.id), files[i].1.data, n)
  {
    var p := files[i].1;
    assert FileOk(at.s, files[i].0, p);
    var how :| B.ReadFromTree(p, at.s, how);
    var cut := how.cut(n.startLine, n.endLine);
    var ids, pieces := Ids(d, n, cut), P.PiecesOf(cut);
    PiecesOfSymbol(at.s, files, i, how, n);
    forall j | 0 <= j < |ids|
      ensures NamesNode(rows, NodeColumn(d, n.id), ids[j]) && HasRange(rows, ids[j], pieces[j])
      ensures Loads(at, ids[j], p.data[pieces[j].start..pieces[j].end])
    {
      PieceIsFound(tc, d, identity, at, files, rows, i, how, n, j);
    }
    forall id ensures id in ids <==> NamesNode(rows, NodeColumn(d, n.id), id) {
      if NamesNode(rows, NodeColumn(d, n.id), id) {
        NamedIsPiece(tc, d, identity, at.s, files, rows, i, how, n, id);
      }
    }
    LoadedIsJoined(at, ids, p.data, pieces);
    assert ReadsBackBy(at, rows, NodeColumn(d, n.id), p.data, n, how.offsets, ids, pieces);
  }

  /**
    In every generation that builds have published, every symbol of every Python
    file of the build behind it reads back: its chunks load, tile its lines, and
    joined they are its source.
  */
  lemma SymbolsReadBack(tc: B.Toolchain, d: Digests, platform: S.Platform, bs: seq<Build>, s: string, g: nat) returns (b: Build)
    requires B.Sound(tc) && Injective(d) && SameHash(tc, platform)
    requires forall b :: b in bs ==> ListedOnce(b.entries)
    requires G.Read(After(tc, d, bs), s, g).Some?
    ensures b in bs && s == SnapshotOf(d, b)
    ensures var m, payload := After(tc, d, bs), G.Read(After(tc, d, bs), s, g).value;
      forall i, n :: 0 <= i < |Work(tc, d, b).parsed| && Work(tc, d, b).parsed[i].1.tree.Some?
                     && n in Work(tc, d, b).parsed[i].1.facts.symbols ==>
        ReadsBack(PlaceOf(platform, m, payload, s, g), payload.rows, NodeColumn(d, n.id), Work(tc, d, b).parsed[i].1.data, n)
  {
    var m, payload := After(tc, d, bs), G.Read(After(tc, d, bs), s, g).value;
    b := ReadableIsBuilt(tc, d, bs, s, g);
    var files := Work(tc, d, b).parsed;
    BuildFilesOk(tc, d, b);
    BuildChunkTable(tc, d, b);
    BuildChunksLoad(tc, d, platform, m, b, g, payload);
    forall i, n | 0 <= i < |files| && files[i].1.tree.Some? && n in files[i].1.facts.symbols
      ensures ReadsBack(PlaceOf(platform, m, payload, s, g), payload.rows, NodeColumn(d, n.id), files[i].1.data, n)
    {
      SymbolReadsBack(tc, d, b.identity, PlaceOf(platform, m, payload, s, g), files, payload.rows, i, n);
    }
  }
}
