/**
  Files of other languages that are empty: the parser still gives them a symbol
  with one chunk, the chunk is stored, and no reader accepts it. A small
  toolchain shows that such builds exist.
*/
module EmptyFiles {
  import opened Prelude
  import opened BuildRows
  import opened BuildHistories
  import opened BuiltSources
  import B = SnapshotBuild
  import F = FileFacts
  import G = Generations
  import S = SourceContext
  import Staging
  import SymbolSources

  /* ---------- the newest generation of a build ---------- */

  /** The snapshot may still be published: it is not there yet, or not ready. */
  ghost predicate Open(m: G.MapTables, s: string) { s in m.snapshots ==> !m.snapshots[s].status.Ready? }

  /** Publishing one more build whose snapshot is not ready makes a generation of exactly its rows. */
  lemma BuildIsPublished(tc: B.Toolchain, d: Digests, bs: seq<Build>, b: Build) returns (g: nat)
    requires B.Sound(tc) && Injective(d) && Open(After(tc, d, bs), SnapshotOf(d, b))
    ensures var read := G.Read(After(tc, d, bs + [b]), SnapshotOf(d, b), g);
      read.Some? && read.value.rows == G.Stored(Output(tc, d, b))
  {
    var m, r := After(tc, d, bs), Output(tc, d, b);
    BuildRefusedIffReady(tc, d, bs, b);
    BuildsKeepHistory(tc, d, bs);
    Staging.BuildIsKeyed(tc, d, b);
    G.NewGenerationReadsBack(m, r);
    g := G.NextGeneration(m, SnapshotOf(d, b));
    AfterOneMore(tc, d, bs, b);
  }

  lemma AfterOneMore(tc: B.Toolchain, d: Digests, bs: seq<Build>, b: Build)
    requires B.Sound(tc)
    ensures After(tc, d, bs + [b]) == G.Apply(After(tc, d, bs), Output(tc, d, b))
  {
    var f := Builder(tc, d);
    assert (bs + [b])[..|bs + [b]| - 1] == bs;
    assert Mapped(f, bs + [b]) == Mapped(f, bs) + [f(b)];
    ApplyLast(G.EmptyMap(), Outputs(tc, d, bs), f(b));
  }

  lemma ApplyLast(m: G.MapTables, rs: seq<G.Request>, r: G.Request)
    ensures G.ApplyAll(m, rs + [r]) == G.Apply(G.ApplyAll(m, rs), r)
  {
    assert (rs + [r])[..|rs + [r]| - 1] == rs;
  }

  /* ---------- an empty file ---------- */

  /** An entry that is wanted and parses without errors is among the parsed files. */
  lemma {:induction false} EntryIsParsed(tc: B.Toolchain, r: B.Request, n: nat, k: nat) returns (i: nat)
    requires B.Sound(tc) && k < n <= |r.entries|
    requires B.Wanted(tc, r, r.entries[k]) && !B.Parse(tc, r, r.entries[k]).errors
    ensures i < |B.Fresh(tc, r, n).parsed|
    ensures B.Fresh(tc, r, n).parsed[i] == (r.entries[k], B.ReboundFile(B.Parse(tc, r, r.entries[k]), r.snapshot))
  {
    if k < n - 1 {
      i := EntryIsParsed(tc, r, n - 1, k);
    } else {
      i := |B.Fresh(tc, r, n - 1).parsed|;
    }
  }

  /** A listed file that is wanted, has no octets, and parses without errors to at least one chunk. */
  ghost predicate EmptyWithChunk(tc: B.Toolchain, d: Digests, b: Build, e: B.Entry) {
    && e in b.entries && B.Wanted(tc, BuildRequest(d, b), e) && b.blob(e.object_) == []
    && !B.Parse(tc, BuildRequest(d, b), e).errors && B.Parse(tc, BuildRequest(d, b), e).facts.chunks != []
  }

  /** The empty file among the parsed ones, with a chunk that has nothing to hold. */
  lemma EmptyFileIsParsed(tc: B.Toolchain, d: Digests, b: Build, e: B.Entry) returns (i: nat, c: F.Chunk)
    requires B.Sound(tc) && EmptyWithChunk(tc, d, b, e)
    ensures i < |Work(tc, d, b).parsed| && c in Work(tc, d, b).parsed[i].1.facts.chunks
    ensures c.piece.start == c.piece.end == 0 && c.path == e.path
  {
    var r := BuildRequest(d, b);
    var n :| 0 <= n < |b.entries| && b.entries[n] == e;
    i := EntryIsParsed(tc, r, |b.entries|, n);
    var p := Work(tc, d, b).parsed[i].1;
    B.FilesAreParsedInPlace(tc, r, |b.entries|, i);
    assert B.ChunksInside(p);
    c := p.facts.chunks[0];
    assert c in p.facts.chunks;
  }

  /** Its row. */
  lemma EmptyChunk(tc: B.Toolchain, d: Digests, b: Build, e: B.Entry) returns (k: G.RowKey)
    requires B.Sound(tc) && Injective(d) && ListedOnce(b.entries) && EmptyWithChunk(tc, d, b, e)
    ensures k.table.Chunks? && k in G.Stored(Output(tc, d, b))
    ensures var row := G.Stored(Output(tc, d, b))[k]; row.ChunkRow? && row.byteStart == row.byteEnd == 0 && row.path == e.path
  {
    var i, c := EmptyFileIsParsed(tc, d, b, e);
    SymbolSources.BuildFilesOk(tc, d, b);
    SymbolSources.ChunkIsStored(tc, d, b, i, c);
    k := ChunkRow(tc, d, Work(tc, d, b).parsed[i].1, c).0;
  }

  /** A generation holds the chunk, with its path, and the readers refuse it. */
  ghost predicate StoredButRefused(platform: S.Platform, m: G.MapTables, s: string, g: nat, id: string, path: string) {
    var read, k := G.Read(m, s, g), G.RowKey(G.Chunks, id);
    && read.Some? && k in read.value.rows && read.value.rows[k].ChunkRow? && read.value.rows[k].path == path
    && S.GenerationChunk(platform, m, read.value.snapshot.identity.repository, s, g, id) == Err("source_range_mismatch")
  }

  /**
    Whatever was built before: after a build that lists an empty file of this kind,
    its newest generation holds a chunk that no reader accepts.
  */
  lemma EmptyFileNeverLoads(tc: B.Toolchain, d: Digests, platform: S.Platform, bs: seq<Build>, b: Build, e: B.Entry)
    returns (g: nat, id: string)
    requires B.Sound(tc) && Injective(d) && SameHash(tc, platform) && Open(After(tc, d, bs), SnapshotOf(d, b))
    requires (forall x :: x in bs + [b] ==> ListedOnce(x.entries)) && EmptyWithChunk(tc, d, b, e)
    ensures StoredButRefused(platform, After(tc, d, bs + [b]), SnapshotOf(d, b), g, id, e.path)
  {
    g := BuildIsPublished(tc, d, bs, b);
    assert b in bs + [b];
    var k := EmptyChunk(tc, d, b, e);
    id := k.id;
    assert k == G.RowKey(G.Chunks, id);
    BuiltChunksLoad(tc, d, platform, bs + [b], SnapshotOf(d, b), g, id);
  }
}
