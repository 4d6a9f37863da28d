/**
  Verified source reads: chunks of an archived generation, UTF-8 boundaries and
  sub-slices derived from them, and evidence that can be rehydrated later.
*/
module SourceContext {
  import opened Prelude
  import U = Utf8
  import G = Generations
  import S = CodeMapStore

  /** Hashing and codecs of the platform: `canonical` is codecs.lookup(name).name. */
  datatype Platform = Platform(
    sha: U.Bytes -> G.Hash,
    canonical: string -> Option<string>,
    decode: (string, U.Bytes) -> Option<U.Text>)

  /** A chunk as the readers return it. */
  datatype Item = Item(
    node: string, path: string, commit: string, byteStart: int, byteEnd: int,
    contentHash: G.Hash, parentHash: Option<G.Hash>, content: U.Text)

  datatype ChunkBytes = ChunkBytes(chunk: G.Row, blob: U.Bytes, data: U.Bytes, commit: string)

  /* ---------- reading a chunk of a generation ---------- */

  ghost predicate IsFileOf(rows: map<G.RowKey, G.Row>, path: string, k: G.RowKey) {
    k in rows && k.table.Files? && rows[k].FileRow? && rows[k].path == path
  }

  /** UNIQUE(snapshot_id, path) on the files table. */
  ghost predicate UniquePaths(rows: map<G.RowKey, G.Row>) {
    forall k, l, path :: IsFileOf(rows, path, k) && IsFileOf(rows, path, l) ==> k == l
  }

  ghost function FileOf(rows: map<G.RowKey, G.Row>, path: string): Option<G.Row> {
    if exists k :: IsFileOf(rows, path, k)
    then var k :| IsFileOf(rows, path, k); Some(rows[k])
    else None
  }

  function ArchivedGeneration(row: G.SnapshotRow): nat {
    if row.published != 0 then row.published else row.generation
  }

  /** The checks on chunk, file and blob once the file row is known. */
  function CheckedBytes(p: Platform, m: G.MapTables, s: G.SnapshotId, commit: string, chunk: G.Row, file: Option<G.Row>)
    : Result<ChunkBytes, string>
    requires chunk.ChunkRow? && (file.Some? ==> file.value.FileRow?)
  {
    if file.None? then Err("StopIteration")
    else if file.value.snapshot != s then Err("scope_mismatch")
    else if file.value.contentHash !in m.blobs then Err("source_not_found")
    else
      var blob := m.blobs[file.value.contentHash];
      if !(0 <= chunk.byteStart < chunk.byteEnd <= |blob|) then Err("source_range_mismatch")
      else
        var data := blob[chunk.byteStart..chunk.byteEnd];
        if p.sha(blob) != file.value.contentHash || p.sha(data) != chunk.contentHash then Err("hash_mismatch")
        else Ok(ChunkBytes(chunk, blob, data, commit))
  }

  /** _generation_chunk_bytes */
  ghost function GenerationChunk(p: Platform, m: G.MapTables, repository: string, s: G.SnapshotId, g: nat, id: string)
    : Result<ChunkBytes, string>
  {
    var payload := G.Read(m, s, g);
    if payload.None? then Err("generation_missing")
    else
      var row, rows, key := payload.value.snapshot, payload.value.rows, G.RowKey(G.Chunks, id);
      if row.identity.repository != repository || ArchivedGeneration(row) != g then Err("scope_mismatch")
      else if key !in rows || !rows[key].ChunkRow? then Err("source_not_found")
      else if rows[key].snapshot != s || rows[key].commit != row.identity.commit then Err("scope_mismatch")
      else CheckedBytes(p, m, s, row.identity.commit, rows[key], FileOf(rows, rows[key].path))
  }

  /** read_generation_chunk */
  function PlainItem(p: Platform, c: ChunkBytes): Result<Item, string>
    requires c.chunk.ChunkRow?
  {
    match p.decode(c.chunk.encoding, c.data)
    case None => Err("UnicodeDecodeError")
    case Some(text) =>
      Ok(Item(c.chunk.node, c.chunk.path, c.commit, c.chunk.byteStart, c.chunk.byteEnd, c.chunk.contentHash, None, text))
  }

  predicate Ascii(blob: U.Bytes) {
    forall i | 0 <= i < |blob| :: blob[i] < 0x80
  }

  /** The encoding gate of read_generation_utf8_chunk. */
  predicate Utf8Source(p: Platform, encoding: string, blob: U.Bytes) {
    match p.canonical(encoding)
    case None => false
    case Some(name) =>
      && name in {"utf-8", "utf-8-sig", "ascii"}
      && (name == "ascii" ==> Ascii(blob))
      && U.Valid(blob)
  }

  /** read_generation_utf8_chunk: both ends snapped forward, hash recomputed. */
  function Utf8Item(p: Platform, c: ChunkBytes): (r: Result<Item, string>)
    requires c.chunk.ChunkRow? && 0 <= c.chunk.byteStart <= c.chunk.byteEnd <= |c.blob|
  {
    if !Utf8Source(p, c.chunk.encoding, c.blob) then Err("unsupported_source_encoding")
    else
      U.SnappedSliceIsValid(c.blob, c.chunk.byteStart, c.chunk.byteEnd);
      var start, end := U.Snap(c.blob, c.chunk.byteStart), U.Snap(c.blob, c.chunk.byteEnd);
      var data := c.blob[start..end];
      Ok(Item(c.chunk.node, c.chunk.path, c.commit, start, end, p.sha(data),
              Some(c.chunk.contentHash), U.Decode(data).value))
  }

  /** The bytes a slice selects from its parent's bytes, or why it is refused. */
  function Selection(p: Platform, parent: Item, raw: U.Bytes, start: Option<int>, end: Option<int>, parentHash: G.Hash): Result<U.Bytes, string> {
    var claimed := if parent.parentHash.Some? then parent.parentHash.value else parent.contentHash;
    if claimed != parentHash then Err("parent_hash_mismatch")
    else if p.sha(raw) != parent.contentHash then Err("unsupported_source_encoding")
    else if !(start.Some? && end.Some? && 0 <= parent.byteStart <= start.value < end.value <= parent.byteEnd
              && |raw| == parent.byteEnd - parent.byteStart) then Err("source_range_mismatch")
    else Ok(raw[start.value - parent.byteStart..end.value - parent.byteStart])
  }

  /** _source_slice */
  function SourceSlice(p: Platform, parent: Item, start: Option<int>, end: Option<int>, parentHash: G.Hash): Result<Item, string> {
    match Selection(p, parent, U.EncodeAll(parent.content), start, end, parentHash)
    case Err(e) => Err(e)
    case Ok(selected) =>
      match U.Decode(selected)
      case None => Err("source_range_encoding_mismatch")
      case Some(text) =>
        Ok(parent.(content := text, contentHash := p.sha(selected),
                   byteStart := if start.Some? then start.value else 0, byteEnd := if end.Some? then end.value else 0))
  }

  /** The item read_source and rehydrate build; a parent hash selects the UTF-8 reader and a sub-slice. */
  function ItemOf(p: Platform, c: ChunkBytes, parent: Option<G.Hash>, start: Option<int>, end: Option<int>): Result<Item, string>
    requires c.chunk.ChunkRow? && 0 <= c.chunk.byteStart <= c.chunk.byteEnd <= |c.blob|
  {
    if parent.None? then PlainItem(p, c)
    else
      match Utf8Item(p, c)
      case Err(e) => Err(e)
      case Ok(whole) => SourceSlice(p, whole, start, end, parent.value)
  }

  /* ---------- what an accepted slice is ---------- */

  lemma SliceValidIffCuts(s: U.Bytes, i: nat, j: nat)
    requires U.Valid(s) && i < j <= |s|
    ensures U.Valid(s[i..j]) <==> U.Cut(s, i) && U.Cut(s, j)
  {
    if U.Tail(s[i]) {
      assert s[i..j][0] == s[i];
    } else {
      U.CutsSplit(s, i);
      U.CutsSplit(s[i..], j - i);
      assert s[i..][..j - i] == s[i..j];
    }
  }

  /** A UTF-8 chunk carries exactly the blob bytes between its snapped ends. */
  lemma Utf8ItemIsBlobRange(p: Platform, c: ChunkBytes)
    requires c.chunk.ChunkRow? && 0 <= c.chunk.byteStart <= c.chunk.byteEnd <= |c.blob| && Utf8Item(p, c).Ok?
    ensures var item := Utf8Item(p, c).value;
      && 0 <= item.byteStart <= item.byteEnd <= |c.blob| && U.Cut(c.blob, item.byteStart) && U.Cut(c.blob, item.byteEnd)
      && U.EncodeAll(item.content) == c.blob[item.byteStart..item.byteEnd]
      && item.contentHash == p.sha(c.blob[item.byteStart..item.byteEnd])
  {
    U.SnappedSliceIsValid(c.blob, c.chunk.byteStart, c.chunk.byteEnd);
    U.EncodeDecode(c.blob[U.Snap(c.blob, c.chunk.byteStart)..U.Snap(c.blob, c.chunk.byteEnd)]);
  }

  /** What the slice is made from, once the parent's bytes are known to be a range of the blob. */
  lemma SelectionOfRange(p: Platform, parent: Item, raw: U.Bytes, blob: U.Bytes, start: int, end: int, parentHash: G.Hash)
    requires 0 <= parent.byteStart <= parent.byteEnd <= |blob| && raw == blob[parent.byteStart..parent.byteEnd]
    requires p.sha(raw) == parent.contentHash && parent.parentHash.Some?
    ensures var r := Selection(p, parent, raw, Some(start), Some(end), parentHash);
      if parentHash == parent.parentHash.value && parent.byteStart <= start < end <= parent.byteEnd then r == Ok(blob[start..end]) else r.Err?
  {
    if parent.byteStart <= start < end <= parent.byteEnd {
      SubSlice(blob, parent.byteStart, parent.byteEnd, start, end);
    }
  }

  lemma SubSlice(blob: U.Bytes, a: nat, b: nat, start: nat, end: nat)
    requires a <= start <= end <= b <= |blob|
    ensures |blob[a..b]| == b - a && blob[a..b][start - a..end - a] == blob[start..end]
  {
    assert forall i :: 0 <= i < end - start ==> blob[a..b][start - a..end - a][i] == blob[start..end][i];
  }

  predicate Selects(c: ChunkBytes, parent: Item, start: int, end: int, parentHash: G.Hash)
    requires c.chunk.ChunkRow?
  {
    && parentHash == c.chunk.contentHash && parent.byteStart <= start < end <= parent.byteEnd
    && 0 <= start && end <= |c.blob| && U.Cut(c.blob, start) && U.Cut(c.blob, end)
  }

  lemma SliceOfChunk(p: Platform, c: ChunkBytes, start: int, end: int, parentHash: G.Hash)
    requires c.chunk.ChunkRow? && 0 <= c.chunk.byteStart <= c.chunk.byteEnd <= |c.blob| && Utf8Item(p, c).Ok?
    ensures var r := Selection(p, Utf8Item(p, c).value, U.EncodeAll(Utf8Item(p, c).value.content), Some(start), Some(end), parentHash);
      if r.Ok? && U.Valid(r.value)
      then Selects(c, Utf8Item(p, c).value, start, end, parentHash) && r.value == c.blob[start..end]
      else !Selects(c, Utf8Item(p, c).value, start, end, parentHash)
  {
    Utf8ItemIsBlobRange(p, c);
    var parent := Utf8Item(p, c).value;
    SelectionOfRange(p, parent, U.EncodeAll(parent.content), c.blob, start, end, parentHash);
    if parent.byteStart <= start < end <= parent.byteEnd {
      SliceValidIffCuts(c.blob, start, end);
    }
  }

  /**
    A sub-slice of a UTF-8 chunk is accepted exactly when it names the parent,
    lies inside it, is not empty and cuts no character; it then equals blob[start:end].
  */
  lemma SliceAcceptedIff(p: Platform, c: ChunkBytes, start: int, end: int, parentHash: G.Hash)
    requires c.chunk.ChunkRow? && 0 <= c.chunk.byteStart <= c.chunk.byteEnd <= |c.blob| && Utf8Item(p, c).Ok?
    ensures var parent := Utf8Item(p, c).value;
      var r := SourceSlice(p, parent, Some(start), Some(end), parentHash);
      && (r.Ok? <==> parentHash == c.chunk.contentHash && parent.byteStart <= start < end <= parent.byteEnd
                     && U.Cut(c.blob, start) && U.Cut(c.blob, end))
      && (r.Ok? ==> U.EncodeAll(r.value.content) == c.blob[start..end] && r.value.contentHash == p.sha(c.blob[start..end])
                    && r.value.byteStart == start && r.value.byteEnd == end)
  {
    Utf8ItemIsBlobRange(p, c);
    SliceOfChunk(p, c, start, end, parentHash);
    var r := SourceSlice(p, Utf8Item(p, c).value, Some(start), Some(end), parentHash);
    if r.Ok? {
      U.EncodeDecode(c.blob[start..end]);
    }
  }

  /* ---------- evidence ---------- */

  datatype Binding = Binding(incident: string, session: Option<string>, repository: string,
                             snapshot: G.SnapshotId, generation: nat, commit: string)

  /** SELECT DISTINCT published_generation, requested_commit ... */
  function DistinctIdentities(bindings: seq<Binding>, incident: string, repository: string, s: G.SnapshotId): seq<(nat, string)> {
    if bindings == [] then []
    else
      var rest := DistinctIdentities(bindings[..|bindings| - 1], incident, repository, s);
      var b := bindings[|bindings| - 1];
      if b.incident == incident && b.repository == repository && b.snapshot == s && (b.generation, b.commit) !in rest
      then rest + [(b.generation, b.commit)] else rest
  }

  /** _bound_identity */
  function BoundIdentity(bindings: seq<Binding>, incident: string, repository: string, s: G.SnapshotId)
    : Result<(nat, string), string>
  {
    var found := DistinctIdentities(bindings, incident, repository, s);
    if found == [] then Err("scope_mismatch")
    else if |found| != 1 then Err("ambiguous_binding")
    else Ok(found[0])
  }

  datatype Metadata = Metadata(incident: string, repository: string, snapshot: G.SnapshotId, generation: nat, commit: string,
                               path: string, node: string, chunk: string, byteStart: int, byteEnd: int, parentHash: Option<G.Hash>)
  datatype Evidence = Evidence(kind: string, contentHash: G.Hash, metadata: Metadata)

  datatype Slice = Slice(incident: string, evidence: string, repository: string, snapshot: G.SnapshotId, commit: string,
                         path: string, content: U.Text, contentHash: G.Hash, byteStart: int, byteEnd: int, generation: nat)

  /** The caller's optional expectations. */
  datatype Expected = Expected(generation: Option<nat>, commit: Option<string>, hash: Option<G.Hash>, node: Option<string>,
                               path: Option<string>, start: Option<int>, end: Option<int>, parent: Option<G.Hash>)

  datatype Source = Source(incident: string, repository: string, snapshot: G.SnapshotId, chunk: string)

  predicate Agrees<T(==)>(expected: Option<T>, actual: T) {
    expected.None? || expected.value == actual
  }

  /** The checks of read_source on the item it built. */
  function Vet(item: Item, commit: string, e: Expected, maxBytes: int): Option<string> {
    if item.commit != commit then Some("scope_mismatch")
    else if !Agrees(e.hash, item.contentHash) then Some("hash_mismatch")
    else if !(Agrees(e.node, item.node) && Agrees(e.path, item.path) && Agrees(e.start, item.byteStart) && Agrees(e.end, item.byteEnd))
      then Some("source_identity_mismatch")
    else if |U.EncodeAll(item.content)| > maxBytes then Some("source_budget_exceeded")
    else None
  }

  function EvidenceOf(src: Source, g: nat, item: Item, parent: Option<G.Hash>): Evidence {
    Evidence("source_code", item.contentHash,
             Metadata(src.incident, src.repository, src.snapshot, g, item.commit, item.path, item.node, src.chunk,
                      item.byteStart, item.byteEnd, parent))
  }

  function SliceOf(src: Source, id: string, g: nat, item: Item): Slice {
    Slice(src.incident, id, src.repository, src.snapshot, item.commit, item.path, item.content,
          item.contentHash, item.byteStart, item.byteEnd, g)
  }

  /** read_source up to the evidence write: the item and the bound generation. */
  ghost function Verified(p: Platform, m: G.MapTables, bindings: seq<Binding>, src: Source, e: Expected, maxBytes: int)
    : Result<(nat, Item), string>
  {
    match BoundIdentity(bindings, src.incident, src.repository, src.snapshot)
    case Err(error) => Err(error)
    case Ok((g, commit)) =>
      if !Agrees(e.generation, g) || !Agrees(e.commit, commit) then Err("scope_mismatch")
      else
        match GenerationChunk(p, m, src.repository, src.snapshot, g, src.chunk)
        case Err(error) => Err(error)
        case Ok(c) => VerifiedItem(p, c, g, commit, e, maxBytes)
  }

  function VerifiedItem(p: Platform, c: ChunkBytes, g: nat, commit: string, e: Expected, maxBytes: int): Result<(nat, Item), string>
    requires c.chunk.ChunkRow? && 0 <= c.chunk.byteStart <= c.chunk.byteEnd <= |c.blob|
  {
    if e.parent.Some? && e.hash.None? && Utf8Item(p, c).Ok? then Err("source_identity_missing")
    else
      match ItemOf(p, c, e.parent, e.start, e.end)
      case Err(error) => Err(error)
      case Ok(item) =>
        match Vet(item, commit, e, maxBytes)
        case Some(error) => Err(error)
        case None => Ok((g, item))
  }

  /** rehydrate for one evidence record of kind source_code. */
  ghost function Restored(p: Platform, m: G.MapTables, bindings: seq<Binding>, id: string, evidence: Evidence): Result<Slice, string> {
    var d := evidence.metadata;
    match BoundIdentity(bindings, d.incident, d.repository, d.snapshot)
    case Err(error) => Err(error)
    case Ok((g, commit)) =>
      if (d.generation, d.commit) != (g, commit) then Err("scope_mismatch")
      else
        match GenerationChunk(p, m, d.repository, d.snapshot, g, d.chunk)
        case Err(error) => Err(error)
        case Ok(c) => RestoredItem(p, c, g, id, evidence)
  }

  function RestoredItem(p: Platform, c: ChunkBytes, g: nat, id: string, evidence: Evidence): Result<Slice, string>
    requires c.chunk.ChunkRow? && 0 <= c.chunk.byteStart <= c.chunk.byteEnd <= |c.blob|
  {
    var d := evidence.metadata;
    match ItemOf(p, c, d.parentHash, Some(d.byteStart), Some(d.byteEnd))
    case Err(error) => Err(error)
    case Ok(item) =>
      if item.contentHash != evidence.contentHash then Err("hash_mismatch")
      else if (d.commit, d.byteStart, d.byteEnd, d.path, d.node) != (item.commit, item.byteStart, item.byteEnd, item.path, item.node)
        then Err("source_identity_mismatch")
      else Ok(SliceOf(Source(d.incident, d.repository, d.snapshot, d.chunk), id, g, item))
  }

  /* ---------- the round trip ---------- */

  /** A chunk that could be read keeps reading the same after any later publications. */
  lemma ChunkForever(p: Platform, m: G.MapTables, rs: seq<G.Request>, repository: string, s: G.SnapshotId, g: nat, id: string)
    requires G.Inv(m) && G.LiveIsArchived(m) && G.AllWellStaged(m, rs)
    requires GenerationChunk(p, m, repository, s, g, id).Ok?
    ensures GenerationChunk(p, G.ApplyAll(m, rs), repository, s, g, id) == GenerationChunk(p, m, repository, s, g, id)
  {
    G.ReadForever(m, rs, s, g);
    var rows := G.Read(m, s, g).value.rows;
    var file := FileOf(rows, rows[G.RowKey(G.Chunks, id)].path);
    G.BlobForever(m, rs, file.value.contentHash);
  }

  /** Reading the recorded range of an item again gives the item again. */
  lemma ItemReadsBack(p: Platform, c: ChunkBytes, parent: Option<G.Hash>, start: Option<int>, end: Option<int>)
    requires c.chunk.ChunkRow? && 0 <= c.chunk.byteStart <= c.chunk.byteEnd <= |c.blob|
    requires ItemOf(p, c, parent, start, end).Ok?
    ensures var item := ItemOf(p, c, parent, start, end).value;
      && ItemOf(p, c, parent, Some(item.byteStart), Some(item.byteEnd)) == Ok(item) && item.commit == c.commit
  {
  }

  /** What was accepted for an item is what its evidence restores, from the same chunk. */
  lemma ItemIsRestored(p: Platform, c: ChunkBytes, g: nat, commit: string, src: Source, e: Expected, maxBytes: int, id: string)
    requires c.chunk.ChunkRow? && 0 <= c.chunk.byteStart <= c.chunk.byteEnd <= |c.blob|
    requires VerifiedItem(p, c, g, commit, e, maxBytes).Ok?
    ensures var (h, item) := VerifiedItem(p, c, g, commit, e, maxBytes).value;
      && h == g && item.commit == commit
      && RestoredItem(p, c, g, id, EvidenceOf(src, g, item, e.parent)) == Ok(SliceOf(src, id, g, item))
  {
    ItemReadsBack(p, c, e.parent, e.start, e.end);
  }

  /**
    Evidence round trip: whatever is published later, rehydrating gives back the
    very slice read_source returned, exactly when the incident's binding still
    names the generation and commit it was read from.
  */
  lemma EvidenceRoundTrip(p: Platform, m: G.MapTables, rs: seq<G.Request>, before: seq<Binding>, after: seq<Binding>,
                          src: Source, e: Expected, maxBytes: int, id: string)
    requires G.Inv(m) && G.LiveIsArchived(m) && G.AllWellStaged(m, rs)
    requires Verified(p, m, before, src, e, maxBytes).Ok?
    ensures var (g, item) := Verified(p, m, before, src, e, maxBytes).value;
      (Restored(p, G.ApplyAll(m, rs), after, id, EvidenceOf(src, g, item, e.parent)) == Ok(SliceOf(src, id, g, item)))
      <==> (BoundIdentity(after, src.incident, src.repository, src.snapshot)
            == BoundIdentity(before, src.incident, src.repository, src.snapshot))
  {
    var (g, commit) := BoundIdentity(before, src.incident, src.repository, src.snapshot).value;
    ChunkForever(p, m, rs, src.repository, src.snapshot, g, src.chunk);
    var c := GenerationChunk(p, m, src.repository, src.snapshot, g, src.chunk).value;
    ItemIsRestored(p, c, g, commit, src, e, maxBytes, id);
  }

  /* ---------- the service ---------- */

  /** rehydrate over a list of references: unknown ids are skipped, the first error ends it. */
  ghost function RestoreAll(p: Platform, m: G.MapTables, bindings: seq<Binding>, records: map<string, Evidence>, refs: seq<string>)
    : Result<seq<Slice>, string>
  {
    if refs == [] then Ok([])
    else
      match RestoreAll(p, m, bindings, records, refs[..|refs| - 1])
      case Err(e) => Err(e)
      case Ok(done) =>
        var id := refs[|refs| - 1];
        if id !in records || records[id].kind != "source_code" then Ok(done)
        else
          match Restored(p, m, bindings, id, records[id])
          case Err(e) => Err(e)
          case Ok(slice) => Ok(done + [slice])
  }

  /** The boundary loop. */
  method SnapForward(blob: U.Bytes, i: nat) returns (j: nat)
    requires i <= |blob|
    ensures j == U.Snap(blob, i)
  {
    j := i;
    while j < |blob| && U.Tail(blob[j])
      invariant i <= j <= |blob| && U.Snap(blob, j) == U.Snap(blob, i)
    {
      j := j + 1;
    }
  }

  class EvidenceService {
    const platform: Platform
    const store: S.Store
    var bindings: seq<Binding>
    var records: map<string, Evidence>

    constructor (p: Platform, s: S.Store, bound: seq<Binding>)
      ensures platform == p && store == s && bindings == bound && records == map[]
    {
      platform, store, bindings, records := p, s, bound, map[];
    }

    /** UNIQUE(snapshot_id, path) for the generations of a snapshot; it holds of whatever builds have published. */
    ghost predicate PathsUnique(s: G.SnapshotId)
      reads this, store
    {
      forall g: nat :: G.Read(store.Map(), s, g).Some? ==> UniquePaths(G.Read(store.Map(), s, g).value.rows)
    }

    method FindFile(rows: map<G.RowKey, G.Row>, path: string) returns (file: Option<G.Row>)
      requires UniquePaths(rows)
      ensures file == FileOf(rows, path)
    {
      var rest := rows.Keys;
      while rest != {}
        invariant rest <= rows.Keys
        invariant forall k :: k in rows && k !in rest ==> !IsFileOf(rows, path, k)
        decreases rest
      {
        var k :| k in rest;
        rest := rest - {k};
        if k.table.Files? && rows[k].FileRow? && rows[k].path == path {
          assert IsFileOf(rows, path, k);
          return Some(rows[k]);
        }
      }
      return None;
    }

    method LoadChunk(repository: string, s: G.SnapshotId, g: nat, id: string) returns (r: Result<ChunkBytes, string>)
      requires PathsUnique(s)
      ensures r == GenerationChunk(platform, store.Map(), repository, s, g, id)
    {
      var payload := store.ReadGeneration(s, g);
      if payload.None? {
        return Err("generation_missing");
      }
      var row, rows, key := payload.value.snapshot, payload.value.rows, G.RowKey(G.Chunks, id);
      if row.identity.repository != repository || ArchivedGeneration(row) != g {
        return Err("scope_mismatch");
      }
      if key !in rows || !rows[key].ChunkRow? {
        return Err("source_not_found");
      }
      if rows[key].snapshot != s || rows[key].commit != row.identity.commit {
        return Err("scope_mismatch");
      }
      var file := FindFile(rows, rows[key].path);
      r := CheckedBytes(platform, store.Map(), s, row.identity.commit, rows[key], file);
    }

    method ReadUtf8(c: ChunkBytes) returns (r: Result<Item, string>)
      requires c.chunk.ChunkRow? && 0 <= c.chunk.byteStart <= c.chunk.byteEnd <= |c.blob|
      ensures r == Utf8Item(platform, c)
    {
      if !Utf8Source(platform, c.chunk.encoding, c.blob) {
        return Err("unsupported_source_encoding");
      }
      var start := SnapForward(c.blob, c.chunk.byteStart);
      var end := SnapForward(c.blob, c.chunk.byteEnd);
      U.SnappedSliceIsValid(c.blob, c.chunk.byteStart, c.chunk.byteEnd);
      var data := c.blob[start..end];
      r := Ok(Item(c.chunk.node, c.chunk.path, c.commit, start, end, platform.sha(data),
                   Some(c.chunk.contentHash), U.Decode(data).value));
    }

    /** read_source; `id` is the fresh evidence id. Nothing is recorded unless every check passed. */
    method ReadSource(src: Source, e: Expected, maxBytes: int, id: string) returns (r: Result<Slice, string>)
      requires PathsUnique(src.snapshot) && id !in records
      modifies this`records
      ensures match Verified(platform, store.Map(), bindings, src, e, maxBytes)
        case Err(error) => r == Err(error) && records == old(records)
        case Ok((g, item)) =>
          r == Ok(SliceOf(src, id, g, item)) && records == old(records)[id := EvidenceOf(src, g, item, e.parent)]
    {
      var bound := BoundIdentity(bindings, src.incident, src.repository, src.snapshot);
      if bound.Err? {
        return Err(bound.error);
      }
      var (g, commit) := bound.value;
      if !Agrees(e.generation, g) || !Agrees(e.commit, commit) {
        return Err("scope_mismatch");
      }
      var chunk := LoadChunk(src.repository, src.snapshot, g, src.chunk);
      if chunk.Err? {
        return Err(chunk.error);
      }
      var item: Result<Item, string>;
      if e.parent.Some? {
        item := ReadUtf8(chunk.value);
        if item.Ok? {
          if e.hash.None? {
            return Err("source_identity_missing");
          }
          item := SourceSlice(platform, item.value, e.start, e.end, e.parent.value);
        }
      } else {
        item := PlainItem(platform, chunk.value);
      }
      if item.Err? {
        return Err(item.error);
      }
      var refusal := Vet(item.value, commit, e, maxBytes);
      if refusal.Some? {
        return Err(refusal.value);
      }
      records := records[id := EvidenceOf(src, g, item.value, e.parent)];
      r := Ok(SliceOf(src, id, g, item.value));
    }

    method RestoreOne(id: string, evidence: Evidence) returns (r: Result<Slice, string>)
      requires PathsUnique(evidence.metadata.snapshot)
      ensures r == Restored(platform, store.Map(), bindings, id, evidence)
    {
      var d := evidence.metadata;
      var bound := BoundIdentity(bindings, d.incident, d.repository, d.snapshot);
      if bound.Err? {
        return Err(bound.error);
      }
      if (d.generation, d.commit) != bound.value {
        return Err("scope_mismatch");
      }
      var chunk := LoadChunk(d.repository, d.snapshot, bound.value.0, d.chunk);
      if chunk.Err? {
        return Err(chunk.error);
      }
      r := RestoredItem(platform, chunk.value, bound.value.0, id, evidence);
    }

    method Rehydrate(refs: seq<string>) returns (r: Result<seq<Slice>, string>)
      requires forall id :: id in refs && id in records ==> PathsUnique(records[id].metadata.snapshot)
      ensures r == RestoreAll(platform, store.Map(), bindings, records, refs)
    {
      var restored: seq<Slice> := [];
      var i := 0;
      while i < |refs|
        invariant 0 <= i <= |refs|
        invariant RestoreAll(platform, store.Map(), bindings, records, refs[..i]) == Ok(restored)
      {
        assert refs[..i + 1][..i] == refs[..i];
        var id := refs[i];
        if id in records && records[id].kind == "source_code" {
          var one := RestoreOne(id, records[id]);
          if one.Err? {
            FirstErrorStays(platform, store.Map(), bindings, records, refs, i + 1);
            return Err(one.error);
          }
          restored := restored + [one.value];
        }
        i := i + 1;
      }
      assert refs[..i] == refs;
      r := Ok(restored);
    }
  }

  lemma {:induction false} FirstErrorStays(p: Platform, m: G.MapTables, bindings: seq<Binding>, records: map<string, Evidence>,
                                           refs: seq<string>, n: nat)
    requires n <= |refs| && RestoreAll(p, m, bindings, records, refs[..n]).Err?
    ensures RestoreAll(p, m, bindings, records, refs) == RestoreAll(p, m, bindings, records, refs[..n])
    decreases |refs|
  {
    if n == |refs| {
      assert refs[..n] == refs;
    } else {
      assert refs[..|refs| - 1][..n] == refs[..n];
      FirstErrorStays(p, m, bindings, records, refs[..|refs| - 1], n);
    }
  }
}
