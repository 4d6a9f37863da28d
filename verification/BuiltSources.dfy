/**
  Reading source from databases that only builds wrote: the file of a chunk is
  unique, and what the builder stored passes every check of the readers.
*/
module BuiltSources {
  import opened Prelude
  import opened BuildRows
  import opened Staging
  import opened BuildHistories
  import B = SnapshotBuild
  import F = FileFacts
  import G = Generations
  import S = SourceContext

  /* ---------- one file per path ---------- */

  lemma KeyedPathsAreUnique(d: Digests, s: G.SnapshotId, rows: map<G.RowKey, G.Row>)
    requires TaggedAndKeyed(d, s, rows)
    ensures S.UniquePaths(rows)
  {
    forall k, l, path | S.IsFileOf(rows, path, k) && S.IsFileOf(rows, path, l) ensures k == l {
      SecondaryKeysFollow(d, k, rows[k], l, rows[l]);
    }
  }

  /** In every generation that builds have published, a path names at most one file row. */
  lemma PublishedPathsAreUnique(tc: B.Toolchain, d: Digests, bs: seq<Build>, s: string, g: nat)
    requires B.Sound(tc) && Injective(d) && G.Read(After(tc, d, bs), s, g).Some?
    ensures S.UniquePaths(G.Read(After(tc, d, bs), s, g).value.rows)
  {
    ReadableRowsAreKeyed(tc, d, bs, s, g);
    KeyedPathsAreUnique(d, s, G.Read(After(tc, d, bs), s, g).value.rows);
  }

  /** So the evidence service can read from any store that builds alone have written. */
  lemma BuiltStoreHasUniquePaths(tc: B.Toolchain, d: Digests, bs: seq<Build>, service: S.EvidenceService, s: string)
    requires B.Sound(tc) && Injective(d) && service.store.Map() == After(tc, d, bs)
    ensures service.PathsUnique(s)
  {
    forall g: nat | G.Read(service.store.Map(), s, g).Some?
      ensures S.UniquePaths(G.Read(service.store.Map(), s, g).value.rows)
    {
      PublishedPathsAreUnique(tc, d, bs, s, g);
    }
  }

  /* ---------- blobs ---------- */

  ghost predicate BlobsHashed(tc: B.Toolchain, blobs: map<G.Hash, G.Bytes>) {
    forall h :: h in blobs ==> tc.sha(blobs[h]) == h
  }

  ghost predicate AddedHashed(tc: B.Toolchain, added: seq<(G.Hash, G.Bytes)>) {
    forall i :: 0 <= i < |added| ==> tc.sha(added[i].1) == added[i].0
  }

  lemma {:induction false} InsertKeepsHashes(tc: B.Toolchain, blobs: map<G.Hash, G.Bytes>, added: seq<(G.Hash, G.Bytes)>)
    requires BlobsHashed(tc, blobs) && AddedHashed(tc, added)
    ensures BlobsHashed(tc, G.InsertBlobs(blobs, added))
    ensures forall i :: 0 <= i < |added| ==> added[i].0 in G.InsertBlobs(blobs, added)
    decreases |added|
  {
    if added != [] {
      var next := if added[0].0 in blobs then blobs else blobs[added[0].0 := added[0].1];
      InsertKeepsHashes(tc, next, added[1..]);
      G.BlobsKeepContent(next, added[1..]);
      forall i | 0 <= i < |added| ensures added[i].0 in G.InsertBlobs(blobs, added) {
        if i > 0 {
          assert added[1..][i - 1] == added[i];
        }
      }
    }
  }

  /** A blob's digest is its content hash. */
  lemma BuildBlobsHashed(tc: B.Toolchain, d: Digests, b: Build)
    requires B.Sound(tc)
    ensures AddedHashed(tc, Output(tc, d, b).blobs)
  {
    var r, w := BuildRequest(d, b), Work(tc, d, b);
    forall i | 0 <= i < |w.parsed|
      ensures tc.sha(Blobs(w.parsed, b.blob)[i].1) == Blobs(w.parsed, b.blob)[i].0
    {
      B.FilesAreParsedInPlace(tc, r, |r.entries|, i);
    }
  }

  lemma {:induction false} HistoryBlobsHashed(tc: B.Toolchain, rs: seq<G.Request>)
    requires forall i :: 0 <= i < |rs| ==> AddedHashed(tc, rs[i].blobs)
    ensures BlobsHashed(tc, G.ApplyAll(G.EmptyMap(), rs).blobs)
  {
    if rs != [] {
      var n := |rs| - 1;
      HistoryBlobsHashed(tc, rs[..n]);
      InsertKeepsHashes(tc, G.ApplyAll(G.EmptyMap(), rs[..n]).blobs, rs[n].blobs);
    }
  }

  lemma OutputBlobsHashed(tc: B.Toolchain, d: Digests, bs: seq<Build>)
    requires B.Sound(tc)
    ensures forall i :: 0 <= i < |Outputs(tc, d, bs)| ==> AddedHashed(tc, Outputs(tc, d, bs)[i].blobs)
  {
    var f := Builder(tc, d);
    forall b ensures AddedHashed(tc, f(b).blobs) {
      BuildBlobsHashed(tc, d, b);
    }
    MappedAll(f, (r: G.Request) => AddedHashed(tc, r.blobs), bs);
  }

  lemma BlobsAreHashed(tc: B.Toolchain, d: Digests, bs: seq<Build>)
    requires B.Sound(tc)
    ensures BlobsHashed(tc, After(tc, d, bs).blobs)
  {
    OutputBlobsHashed(tc, d, bs);
    HistoryBlobsHashed(tc, Outputs(tc, d, bs));
  }

  /* ---------- every readable generation is what one request stored ---------- */

  ghost predicate StoredBy(m: G.MapTables, s: G.SnapshotId, rows: map<G.RowKey, G.Row>, r: G.Request) {
    s == r.snapshot.id && rows == G.Stored(r) && forall i :: 0 <= i < |r.blobs| ==> r.blobs[i].0 in m.blobs
  }

  ghost predicate ArchiveStored(m: G.MapTables, rs: seq<G.Request>) {
    forall key :: key in m.archive ==> exists r :: r in rs && StoredBy(m, key.0, m.archive[key].rows, r)
  }

  lemma WriteStores(tc: B.Toolchain, m: G.MapTables, r: G.Request)
    requires G.Inv(m) && G.OwnTags(r) && BlobsHashed(tc, m.blobs) && AddedHashed(tc, r.blobs)
    ensures StoredBy(G.Write(m, r), r.snapshot.id, G.RowsOf(G.Write(m, r).live, r.snapshot.id), r)
    ensures m.blobs.Keys <= G.Write(m, r).blobs.Keys
  {
    G.RowsAfterWrite(m, r);
    InsertKeepsHashes(tc, m.blobs, r.blobs);
    G.BlobsKeepContent(m.blobs, r.blobs);
  }

  lemma StillStored(m: G.MapTables, m': G.MapTables, key: (G.SnapshotId, nat), rs: seq<G.Request>, r: G.Request)
    requires ArchiveStored(m, rs) && key in m.archive && m.blobs.Keys <= m'.blobs.Keys
    ensures exists q :: q in rs + [r] && StoredBy(m', key.0, m.archive[key].rows, q)
  {
    var q :| q in rs && StoredBy(m, key.0, m.archive[key].rows, q);
    assert q in rs + [r] && StoredBy(m', key.0, m.archive[key].rows, q);
  }

  lemma WriteKeepsStored(tc: B.Toolchain, m: G.MapTables, rs: seq<G.Request>, r: G.Request)
    requires G.Inv(m) && G.OwnTags(r) && BlobsHashed(tc, m.blobs) && AddedHashed(tc, r.blobs)
    requires G.CurrentArchived(m) && ArchiveStored(m, rs) && G.Refusal(m, r) == None
    ensures ArchiveStored(G.Write(m, r), rs + [r])
  {
    WriteStores(tc, m, r);
    G.WriteArchivesItself(m, r);
    G.ArchiveIsWriteOnce(m, r);
    StoredStep(m, G.Write(m, r), rs, r);
  }

  lemma StoredStep(m: G.MapTables, m': G.MapTables, rs: seq<G.Request>, r: G.Request)
    requires ArchiveStored(m, rs) && m.blobs.Keys <= m'.blobs.Keys
    requires forall key :: key in m.archive ==> key in m'.archive && m'.archive[key] == m.archive[key]
    requires forall key :: key in m'.archive && key !in m.archive ==> StoredBy(m', key.0, m'.archive[key].rows, r)
    ensures ArchiveStored(m', rs + [r])
  {
    forall key | key in m'.archive
      ensures exists q :: q in rs + [r] && StoredBy(m', key.0, m'.archive[key].rows, q)
    {
      if key in m.archive {
        StillStored(m, m', key, rs, r);
      } else {
        assert r in rs + [r];
      }
    }
  }

  lemma {:induction false} HistoryIsStored(tc: B.Toolchain, rs: seq<G.Request>)
    requires G.AllWellStaged(G.EmptyMap(), rs) && forall i :: 0 <= i < |rs| ==> AddedHashed(tc, rs[i].blobs)
    ensures ArchiveStored(G.ApplyAll(G.EmptyMap(), rs), rs) && G.CurrentArchived(G.ApplyAll(G.EmptyMap(), rs))
  {
    if rs != [] {
      var n := |rs| - 1;
      var m := G.ApplyAll(G.EmptyMap(), rs[..n]);
      G.Prefix(G.EmptyMap(), rs);
      HistoryIsStored(tc, rs[..n]);
      HistoryBlobsHashed(tc, rs[..n]);
      G.HistoryKeepsInv(G.EmptyMap(), rs[..n]);
      assert rs[..n] + [rs[n]] == rs;
      if G.Refusal(m, rs[n]) == None {
        G.WriteArchivesItself(m, rs[n]);
        WriteKeepsStored(tc, m, rs[..n], rs[n]);
      } else {
        StoredStep(m, m, rs[..n], rs[n]);
      }
    }
  }

  /** From an empty database, a generation that can be read holds exactly the rows of one request, with its blobs. */
  lemma ReadableIsStored(tc: B.Toolchain, d: Digests, bs: seq<Build>, s: string, g: nat) returns (r: G.Request)
    requires B.Sound(tc) && Injective(d) && G.Read(After(tc, d, bs), s, g).Some?
    ensures r in Outputs(tc, d, bs) && StoredBy(After(tc, d, bs), s, G.Read(After(tc, d, bs), s, g).value.rows, r)
  {
    var rs, m := Outputs(tc, d, bs), After(tc, d, bs);
    BuildsKeepHistory(tc, d, bs);
    OutputBlobsHashed(tc, d, bs);
    HistoryIsStored(tc, rs);
    assert (s, g) in m.archive;
    r :| r in rs && StoredBy(m, s, m.archive[(s, g)].rows, r);
  }

  /* ---------- what a build stored ---------- */

  /** A tree listing names a path once. */
  ghost predicate ListedOnce(entries: seq<B.Entry>) {
    forall i, j :: 0 <= i < j < |entries| ==> entries[i].path != entries[j].path
  }

  ghost predicate ParsedOnce(files: Files) {
    forall i, j :: 0 <= i < j < |files| ==> files[i].0.path != files[j].0.path
  }

  lemma {:induction false} ListedOnceIsParsedOnce(tc: B.Toolchain, r: B.Request, n: nat)
    requires B.Sound(tc) && n <= |r.entries| && ListedOnce(r.entries)
    ensures ParsedOnce(B.Fresh(tc, r, n).parsed)
    ensures forall i :: 0 <= i < |B.Fresh(tc, r, n).parsed| ==> B.Fresh(tc, r, n).parsed[i].0 in r.entries[..n]
  {
    if n > 0 {
      ListedOnceIsParsedOnce(tc, r, n - 1);
      assert r.entries[..n] == r.entries[..n - 1] + [r.entries[n - 1]];
    }
  }

  /** The staged row behind a stored one. */
  lemma StoredRow(r: G.Request, k: G.RowKey) returns (x: Staged)
    requires k in G.Stored(r)
    ensures x in r.rows && x.0 == k && G.Stored(r)[k] == G.Stamp(x.1, r.snapshot.identity)
  {
    G.StoredIsStaged(r.rows, r.snapshot.identity, k);
    var j :| 0 <= j < |r.rows| && r.rows[j].0 == k && G.Stored(r)[k] == G.Stamp(r.rows[j].1, r.snapshot.identity);
    x := r.rows[j];
  }

  lemma StoredChunk(tc: B.Toolchain, d: Digests, b: Build, k: G.RowKey) returns (i: nat, c: F.Chunk)
    requires B.Sound(tc) && k in G.Stored(Output(tc, d, b)) && G.Stored(Output(tc, d, b))[k].ChunkRow?
    ensures i < |Work(tc, d, b).parsed| && c in Work(tc, d, b).parsed[i].1.facts.chunks
    ensures var x := ChunkRow(tc, d, Work(tc, d, b).parsed[i].1, c);
      k == x.0 && G.Stored(Output(tc, d, b))[k] == G.Stamp(x.1, b.identity)
  {
    var w := Work(tc, d, b);
    var x := StoredRow(Output(tc, d, b), k);
    RowKinds(tc, d, SnapshotOf(d, b), w, x);
    i, c :| i < |w.parsed| && c in w.parsed[i].1.facts.chunks && x == ChunkRow(tc, d, w.parsed[i].1, c);
  }

  lemma StoredFile(tc: B.Toolchain, d: Digests, b: Build, i: nat)
    requires B.Sound(tc) && Injective(d) && i < |Work(tc, d, b).parsed| && ParsedOnce(Work(tc, d, b).parsed)
    ensures var (e, p) := Work(tc, d, b).parsed[i];
      var x := FileRow(d, SnapshotOf(d, b), e, p);
      x.0 in G.Stored(Output(tc, d, b)) && G.Stored(Output(tc, d, b))[x.0] == x.1
  {
    var r, w, s := Output(tc, d, b), Work(tc, d, b), SnapshotOf(d, b);
    var x := FileRow(d, s, w.parsed[i].0, w.parsed[i].1);
    assert r.rows[i] == x;
    G.StoredIsStaged(r.rows, b.identity, x.0);
    var j :| 0 <= j < |r.rows| && r.rows[j].0 == x.0 && G.Stored(r)[x.0] == G.Stamp(r.rows[j].1, b.identity);
    BuildRowsAreOk(tc, d, b, j);
    RowKinds(tc, d, s, w, r.rows[j]);
    SamePathSameFile(d, s, w.parsed, i, r.rows[j]);
  }

  lemma SamePathSameFile(d: Digests, s: string, files: Files, i: nat, y: Staged)
    requires Injective(d) && ParsedOnce(files) && i < |files| && OfSomeFile(d, s, files, y)
    requires y.0 == FileRow(d, s, files[i].0, files[i].1).0
    ensures y == FileRow(d, s, files[i].0, files[i].1)
  {
    var j :| 0 <= j < |files| && y == FileRow(d, s, files[j].0, files[j].1);
    assert OfFile(s, files[j].0.path) == OfFile(s, files[i].0.path);
  }

  /* ---------- and what the readers make of it ---------- */

  /** A generation that holds exactly what build b stored, with its blobs. */
  ghost predicate Holds(tc: B.Toolchain, d: Digests, m: G.MapTables, b: Build, g: nat, payload: G.Payload)
    requires B.Sound(tc)
  {
    && G.Read(m, SnapshotOf(d, b), g) == Some(payload) && S.ArchivedGeneration(payload.snapshot) == g
    && payload.snapshot.identity == b.identity && StoredBy(m, SnapshotOf(d, b), payload.rows, Output(tc, d, b))
    && TaggedAndKeyed(d, SnapshotOf(d, b), payload.rows) && BlobsHashed(tc, m.blobs)
  }

  lemma ReadableIsBuilt(tc: B.Toolchain, d: Digests, bs: seq<Build>, s: string, g: nat) returns (b: Build)
    requires B.Sound(tc) && Injective(d) && G.Read(After(tc, d, bs), s, g).Some?
    ensures b in bs && s == SnapshotOf(d, b)
    ensures Holds(tc, d, After(tc, d, bs), b, g, G.Read(After(tc, d, bs), s, g).value)
  {
    var r := ReadableIsStored(tc, d, bs, s, g);
    b := MappedComesFrom(Builder(tc, d), bs, r);
    BuildsKeepHistory(tc, d, bs);
    ReadableRowsAreKeyed(tc, d, bs, s, g);
    BlobsAreHashed(tc, d, bs);
  }

  /** The file behind a stored chunk: its row, its range and its digest. */
  ghost predicate ChunkOfFile(tc: B.Toolchain, row: G.Row, commit: string, e: B.Entry, data: B.Bytes) {
    && row.ChunkRow? && row.path == e.path && row.commit == commit
    && 0 <= row.byteStart <= row.byteEnd <= |data| && row.contentHash == tc.sha(data[row.byteStart..row.byteEnd])
  }

  lemma StoredChunkOfFile(tc: B.Toolchain, d: Digests, b: Build, k: G.RowKey) returns (i: nat)
    requires B.Sound(tc) && k in G.Stored(Output(tc, d, b)) && G.Stored(Output(tc, d, b))[k].ChunkRow?
    ensures i < |Work(tc, d, b).parsed|
    ensures var (e, p) := Work(tc, d, b).parsed[i];
      B.Describes(tc, p, e.path, b.blob(e.object_))
      && ChunkOfFile(tc, G.Stored(Output(tc, d, b))[k], b.identity.commit, e, b.blob(e.object_))
  {
    var c;
    i, c := StoredChunk(tc, d, b, k);
    var (e, p) := Work(tc, d, b).parsed[i];
    B.FilesAreParsedInPlace(tc, BuildRequest(d, b), |b.entries|, i);
    assert B.ChunksInside(p);
  }

  lemma FileOfPath(rows: map<G.RowKey, G.Row>, k: G.RowKey)
    requires S.UniquePaths(rows) && k in rows && k.table.Files? && rows[k].FileRow?
    ensures S.FileOf(rows, rows[k].path) == Some(rows[k])
  {
    assert S.IsFileOf(rows, rows[k].path, k);
  }

  lemma BlobOfFile(tc: B.Toolchain, m: G.MapTables, data: B.Bytes)
    requires B.Sound(tc) && BlobsHashed(tc, m.blobs) && tc.sha(data) in m.blobs
    ensures m.blobs[tc.sha(data)] == data
  {
  }

  lemma FileIsFound(tc: B.Toolchain, d: Digests, m: G.MapTables, b: Build, g: nat, payload: G.Payload, i: nat)
    requires B.Sound(tc) && Injective(d) && ListedOnce(b.entries) && Holds(tc, d, m, b, g, payload)
    requires i < |Work(tc, d, b).parsed|
    ensures var (e, p) := Work(tc, d, b).parsed[i];
      e in b.entries && S.FileOf(payload.rows, e.path) == Some(G.FileRow(SnapshotOf(d, b), e.path, p.hash)) && p.hash in m.blobs
  {
    var (e, p) := Work(tc, d, b).parsed[i];
    ListedOnceIsParsedOnce(tc, BuildRequest(d, b), |b.entries|);
    StoredFile(tc, d, b, i);
    KeyedPathsAreUnique(d, SnapshotOf(d, b), payload.rows);
    FileOfPath(payload.rows, FileRow(d, SnapshotOf(d, b), e, p).0);
    assert Output(tc, d, b).blobs[i].0 == p.hash;
  }

  ghost predicate SameHash(tc: B.Toolchain, platform: S.Platform) {
    forall data :: platform.sha(data) == tc.sha(data)
  }

  /** The readers' checks, once chunk, file row and blob agree on the data of a file. */
  lemma AgreedChunkLoads(tc: B.Toolchain, platform: S.Platform, m: G.MapTables, s: string, g: nat, payload: G.Payload, id: string,
                         e: B.Entry, data: B.Bytes)
    requires SameHash(tc, platform) && G.Read(m, s, g) == Some(payload) && S.ArchivedGeneration(payload.snapshot) == g
    requires var k := G.RowKey(G.Chunks, id);
      && k in payload.rows && payload.rows[k].snapshot == s
      && ChunkOfFile(tc, payload.rows[k], payload.snapshot.identity.commit, e, data)
    requires S.FileOf(payload.rows, e.path) == Some(G.FileRow(s, e.path, tc.sha(data)))
    requires tc.sha(data) in m.blobs && m.blobs[tc.sha(data)] == data
    ensures var row := payload.rows[G.RowKey(G.Chunks, id)];
      var loaded := S.GenerationChunk(platform, m, payload.snapshot.identity.repository, s, g, id);
      && (loaded.Ok? <==> row.byteStart < row.byteEnd)
      && (loaded.Ok? ==> loaded.value.blob == data && loaded.value.data == data[row.byteStart..row.byteEnd])
      && (loaded.Err? ==> loaded.error == "source_range_mismatch")
  {
  }

  /**
    Every chunk row of a generation that builds published passes all checks of the
    readers if and only if its range is not empty, and what is read is the file of
    that path as the build saw it.
  */
  lemma BuiltChunksLoad(tc: B.Toolchain, d: Digests, platform: S.Platform, bs: seq<Build>, s: string, g: nat, id: string)
    requires B.Sound(tc) && Injective(d) && SameHash(tc, platform)
    requires forall b :: b in bs ==> ListedOnce(b.entries)
    requires G.Read(After(tc, d, bs), s, g).Some?
    requires G.RowKey(G.Chunks, id) in G.Read(After(tc, d, bs), s, g).value.rows
    ensures var m := After(tc, d, bs);
      var payload := G.Read(m, s, g).value;
      var row := payload.rows[G.RowKey(G.Chunks, id)];
      var loaded := S.GenerationChunk(platform, m, payload.snapshot.identity.repository, s, g, id);
      && row.ChunkRow? && (loaded.Ok? <==> row.byteStart < row.byteEnd)
      && (loaded.Err? ==> loaded.error == "source_range_mismatch")
      && (loaded.Ok? ==> exists b, e :: b in bs && SnapshotOf(d, b) == s && e in b.entries && e.path == row.path
                                        && loaded.value.blob == b.blob(e.object_))
  {
    var m := After(tc, d, bs);
    var payload := G.Read(m, s, g).value;
    var b := ReadableIsBuilt(tc, d, bs, s, g);
    ChunkLoads(tc, d, platform, m, b, g, payload, id);
  }

  lemma ChunkLoads(tc: B.Toolchain, d: Digests, platform: S.Platform, m: G.MapTables, b: Build, g: nat, payload: G.Payload, id: string)
    requires B.Sound(tc) && Injective(d) && SameHash(tc, platform) && ListedOnce(b.entries) && Holds(tc, d, m, b, g, payload)
    requires G.RowKey(G.Chunks, id) in payload.rows
    ensures var row := payload.rows[G.RowKey(G.Chunks, id)];
      var loaded := S.GenerationChunk(platform, m, payload.snapshot.identity.repository, SnapshotOf(d, b), g, id);
      && row.ChunkRow? && (loaded.Ok? <==> row.byteStart < row.byteEnd)
      && (loaded.Err? ==> loaded.error == "source_range_mismatch")
      && (loaded.Ok? ==> exists e :: e in b.entries && e.path == row.path && loaded.value.blob == b.blob(e.object_))
  {
    var k := G.RowKey(G.Chunks, id);
    assert Keyed(d, k, payload.rows[k]);
    var e := ChunkAndFileAgree(tc, d, m, b, g, payload, k);
    AgreedChunkLoads(tc, platform, m, SnapshotOf(d, b), g, payload, id, e, b.blob(e.object_));
  }

  lemma ChunkAndFileAgree(tc: B.Toolchain, d: Digests, m: G.MapTables, b: Build, g: nat, payload: G.Payload, k: G.RowKey)
    returns (e: B.Entry)
    requires B.Sound(tc) && Injective(d) && ListedOnce(b.entries) && Holds(tc, d, m, b, g, payload)
    requires k in payload.rows && payload.rows[k].ChunkRow?
    ensures e in b.entries && ChunkOfFile(tc, payload.rows[k], b.identity.commit, e, b.blob(e.object_))
    ensures S.FileOf(payload.rows, e.path) == Some(G.FileRow(SnapshotOf(d, b), e.path, tc.sha(b.blob(e.object_))))
    ensures var h := tc.sha(b.blob(e.object_)); h in m.blobs && m.blobs[h] == b.blob(e.object_)
  {
    var i := StoredChunkOfFile(tc, d, b, k);
    e := Work(tc, d, b).parsed[i].0;
    FileIsFound(tc, d, m, b, g, payload, i);
    BlobOfFile(tc, m, b.blob(e.object_));
  }
}
