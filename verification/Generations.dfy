/**
  The versioned snapshot store: live tables for the newest generation of every
  snapshot, an archive of whole generations, and content-addressed blobs.
  The four row tables get identical treatment, so one map keyed by table and
  primary key holds them all.
*/
module Generations {
  import opened Prelude
  import opened JobLeases

  type SnapshotId = string
  type Hash = string
  type Bytes = seq<Byte>

  datatype Table = Files | Nodes | Edges | Chunks
  datatype RowKey = RowKey(table: Table, id: string)

  datatype Row =
    | FileRow(snapshot: SnapshotId, path: string, contentHash: Hash)
    | NodeRow(snapshot: SnapshotId, repository: string, commit: string, kind: string, name: string, path: string,
              startLine: int, endLine: int)
    | EdgeRow(snapshot: SnapshotId, source: string, relation: string, target: Option<string>)
    | ChunkRow(snapshot: SnapshotId, node: string, path: string, byteStart: int, byteEnd: int,
               contentHash: Hash, commit: string, encoding: string)

  datatype Readiness = Ready | Incomplete

  datatype SnapshotRow = SnapshotRow(
    identity: Identity, status: Readiness, generation: nat, published: nat,
    counts: map<Table, nat>, failed: seq<string>, excluded: seq<string>, logicalBytes: nat,
    created: Time, publishedAt: Time)

  /** One archived generation: the snapshot row and every row tagged with it. */
  datatype Payload = Payload(snapshot: SnapshotRow, rows: map<RowKey, Row>)

  datatype MapTables = MapTables(
    snapshots: map<SnapshotId, SnapshotRow>,
    live: map<RowKey, Row>,
    archive: map<(SnapshotId, nat), Payload>,
    blobs: map<Hash, Bytes>)

  /** What a builder hands over: the snapshot facts, the rows in insertion order and the blobs. */
  datatype Snapshot = Snapshot(id: SnapshotId, identity: Identity, partial: bool, fileCount: nat,
                               failed: seq<string>, excluded: seq<string>, logicalBytes: nat, created: Time)
  datatype Request = Request(lease: Identity, snapshot: Snapshot, rows: seq<(RowKey, Row)>,
                             blobs: seq<(Hash, Bytes)>, now: Time)

  datatype PublishError = ScopeMismatch | SnapshotImmutable | IntegrityError

  /* ---------- the statements ---------- */

  function RowsOf(live: map<RowKey, Row>, s: SnapshotId): map<RowKey, Row> {
    map k | k in live && live[k].snapshot == s :: live[k]
  }

  function Without(live: map<RowKey, Row>, s: SnapshotId): map<RowKey, Row> {
    map k | k in live && live[k].snapshot != s :: live[k]
  }

  /** publish writes repository and commit of the snapshot into node and chunk rows. */
  function Stamp(row: Row, identity: Identity): Row {
    match row
    case NodeRow(_, _, _, _, _, _, _, _) => row.(repository := identity.repository, commit := identity.commit)
    case ChunkRow(_, _, _, _, _, _, _, _) => row.(commit := identity.commit)
    case _ => row
  }

  /** INSERT OR REPLACE, row by row: on equal keys the last one stays. */
  function InsertRows(live: map<RowKey, Row>, rows: seq<(RowKey, Row)>, identity: Identity): map<RowKey, Row>
    decreases |rows|
  {
    if rows == [] then live
    else InsertRows(live[rows[0].0 := Stamp(rows[0].1, identity)], rows[1..], identity)
  }

  /** INSERT OR IGNORE: the first content stored under a hash stays. */
  function InsertBlobs(blobs: map<Hash, Bytes>, added: seq<(Hash, Bytes)>): map<Hash, Bytes>
    decreases |added|
  {
    if added == [] then blobs
    else InsertBlobs(if added[0].0 in blobs then blobs else blobs[added[0].0 := added[0].1], added[1..])
  }

  /** DELETE of the rows of a snapshot that is being replaced. */
  function Cleared(m: MapTables, s: SnapshotId): map<RowKey, Row> {
    if s in m.snapshots then Without(m.live, s) else m.live
  }

  /** The rows a request stores when nothing else is there. */
  function Stored(r: Request): map<RowKey, Row> {
    InsertRows(map[], r.rows, r.snapshot.identity)
  }

  function CurrentPayload(m: MapTables, s: SnapshotId): Payload
    requires s in m.snapshots
  {
    Payload(m.snapshots[s], RowsOf(m.live, s))
  }

  /** _archive_generation: INSERT OR IGNORE of the current generation. */
  function ArchiveCurrent(m: MapTables, s: SnapshotId): MapTables
    requires s in m.snapshots
  {
    var key := (s, m.snapshots[s].generation);
    if key in m.archive then m else m.(archive := m.archive[key := CurrentPayload(m, s)])
  }

  function CountTable(rows: seq<(RowKey, Row)>, table: Table): nat {
    if rows == [] then 0 else (if rows[0].0.table == table then 1 else 0) + CountTable(rows[1..], table)
  }

  function NextGeneration(m: MapTables, s: SnapshotId): nat {
    if s in m.snapshots then m.snapshots[s].generation + 1 else 1
  }

  function StoredStatus(snap: Snapshot): Readiness {
    if snap.failed != [] || snap.partial then Incomplete else Ready
  }

  /** The snapshot row after the upsert; identity and creation time of an existing row are kept. */
  function UpsertedRow(m: MapTables, r: Request): SnapshotRow {
    var s := r.snapshot;
    var generation := NextGeneration(m, s.id);
    SnapshotRow(
      if s.id in m.snapshots then m.snapshots[s.id].identity else s.identity,
      StoredStatus(s), generation, generation,
      map[Files := s.fileCount, Nodes := CountTable(r.rows, Nodes),
          Edges := CountTable(r.rows, Edges), Chunks := CountTable(r.rows, Chunks)],
      s.failed, s.excluded, s.logicalBytes,
      if s.id in m.snapshots then m.snapshots[s.id].created else s.created,
      r.now)
  }

  predicate IdentityUsedElsewhere(m: MapTables, r: Request) {
    exists other | other in m.snapshots :: other != r.snapshot.id && m.snapshots[other].identity == r.snapshot.identity
  }

  /** Foreign key: a staged row names a snapshot that exists once this one is upserted. */
  predicate TagsKnown(m: MapTables, r: Request) {
    forall i | 0 <= i < |r.rows| :: r.rows[i].1.snapshot == r.snapshot.id || r.rows[i].1.snapshot in m.snapshots
  }

  function Refusal(m: MapTables, r: Request): Option<PublishError> {
    if r.snapshot.identity != r.lease then Some(ScopeMismatch)
    else if r.snapshot.id in m.snapshots && m.snapshots[r.snapshot.id].status.Ready? then Some(SnapshotImmutable)
    else if IdentityUsedElsewhere(m, r) || !TagsKnown(m, r) then Some(IntegrityError)
    else None
  }

  /** The map side of an accepted publication, statement by statement. */
  function Write(m: MapTables, r: Request): MapTables {
    var s := r.snapshot.id;
    var archived := if s in m.snapshots then ArchiveCurrent(m, s) else m;
    var written := MapTables(
      m.snapshots[s := UpsertedRow(m, r)],
      InsertRows(Cleared(m, s), r.rows, r.snapshot.identity),
      archived.archive,
      InsertBlobs(m.blobs, r.blobs));
    ArchiveCurrent(written, s)
  }

  function Publish(m: MapTables, r: Request): Result<MapTables, PublishError> {
    match Refusal(m, r)
    case Some(error) => Err(error)
    case None => Ok(Write(m, r))
  }

  /** read_generation: the archive first, then the live tables for a snapshot that predates the archive. */
  function Read(m: MapTables, s: SnapshotId, g: nat): Option<Payload> {
    if (s, g) in m.archive then Some(m.archive[(s, g)])
    else if s in m.snapshots && m.snapshots[s].published == g then Some(CurrentPayload(m, s))
    else None
  }

  /* ---------- what the builder must respect ---------- */

  /** Every staged row is tagged with the snapshot being published. */
  ghost predicate OwnTags(r: Request) {
    forall i :: 0 <= i < |r.rows| ==> r.rows[i].1.snapshot == r.snapshot.id
  }

  /** No staged key is in use by a live row of snapshot `other`. */
  ghost predicate Disjoint(m: MapTables, r: Request, other: SnapshotId) {
    forall i :: 0 <= i < |r.rows| ==> r.rows[i].0 !in RowsOf(m.live, other)
  }

  ghost predicate WellStaged(m: MapTables, r: Request) {
    OwnTags(r) && forall other :: other in m.snapshots && other != r.snapshot.id ==> Disjoint(m, r, other)
  }

  /* ---------- invariant ---------- */

  ghost predicate Inv(m: MapTables) {
    && (forall s :: s in m.snapshots ==> 1 <= m.snapshots[s].generation == m.snapshots[s].published)
    && (forall s, g :: (s, g) in m.archive ==>
          s in m.snapshots && 1 <= g <= m.snapshots[s].generation
          && m.archive[(s, g)].snapshot.generation == g && m.archive[(s, g)].snapshot.published == g
          && m.archive[(s, g)].snapshot.identity == m.snapshots[s].identity)
    && (forall k :: k in m.live ==> m.live[k].snapshot in m.snapshots)
  }

  /** Where the current generation is archived, the live tables still show it. */
  ghost predicate LiveIsArchived(m: MapTables) {
    forall s :: s in m.snapshots && (s, m.snapshots[s].generation) in m.archive
      ==> m.archive[(s, m.snapshots[s].generation)] == CurrentPayload(m, s)
  }

  /** Row-by-row insertion is a map union in which the staged rows win. */
  lemma {:induction false} InsertIsUnion(live: map<RowKey, Row>, rows: seq<(RowKey, Row)>, identity: Identity)
    ensures InsertRows(live, rows, identity) == live + InsertRows(map[], rows, identity)
    decreases |rows|
  {
    if rows != [] {
      var row := Stamp(rows[0].1, identity);
      InsertIsUnion(live[rows[0].0 := row], rows[1..], identity);
      InsertIsUnion(map[rows[0].0 := row], rows[1..], identity);
    }
  }

  lemma {:induction false} StoredIsStaged(rows: seq<(RowKey, Row)>, identity: Identity, k: RowKey)
    ensures k in InsertRows(map[], rows, identity) <==> exists i :: 0 <= i < |rows| && rows[i].0 == k
    ensures k in InsertRows(map[], rows, identity) ==>
      exists i :: 0 <= i < |rows| && rows[i].0 == k && InsertRows(map[], rows, identity)[k] == Stamp(rows[i].1, identity)
    decreases |rows|
  {
    if rows != [] {
      InsertIsUnion(map[rows[0].0 := Stamp(rows[0].1, identity)], rows[1..], identity);
      StoredIsStaged(rows[1..], identity, k);
      if k in InsertRows(map[], rows[1..], identity) {
        var i :| 0 <= i < |rows[1..]| && rows[1..][i].0 == k
          && InsertRows(map[], rows[1..], identity)[k] == Stamp(rows[1..][i].1, identity);
        assert rows[i + 1] == rows[1..][i];
      }
      forall i | 0 <= i < |rows| && rows[i].0 == k ensures k in InsertRows(map[], rows, identity) {
        assert i > 0 ==> rows[1..][i - 1] == rows[i];
      }
    }
  }

  lemma StoredTags(r: Request)
    requires OwnTags(r)
    ensures forall k :: k in Stored(r) ==> Stored(r)[k].snapshot == r.snapshot.id
  {
    forall k | k in Stored(r) ensures Stored(r)[k].snapshot == r.snapshot.id {
      StoredIsStaged(r.rows, r.snapshot.identity, k);
    }
  }

  lemma LiveAfterWrite(m: MapTables, r: Request)
    ensures Write(m, r).live == Cleared(m, r.snapshot.id) + Stored(r)
  {
    InsertIsUnion(Cleared(m, r.snapshot.id), r.rows, r.snapshot.identity);
  }

  /** Rows stored for a snapshot are exactly what was staged for it. */
  lemma RowsAfterWrite(m: MapTables, r: Request)
    requires Inv(m) && OwnTags(r)
    ensures RowsOf(Write(m, r).live, r.snapshot.id) == Stored(r)
  {
    LiveAfterWrite(m, r);
    StoredTags(r);
    OwnRowsOfUnion(Cleared(m, r.snapshot.id), Stored(r), r.snapshot.id);
  }

  lemma OwnRowsOfUnion(a: map<RowKey, Row>, b: map<RowKey, Row>, s: SnapshotId)
    requires forall k :: k in a ==> a[k].snapshot != s
    requires forall k :: k in b ==> b[k].snapshot == s
    ensures RowsOf(a + b, s) == b
  {
  }

  lemma OtherRowsOfUnion(a: map<RowKey, Row>, b: map<RowKey, Row>, s: SnapshotId)
    requires forall k :: k in b ==> b[k].snapshot != s
    ensures RowsOf(a + b, s) == RowsOf(a, s) - b.Keys
  {
  }

  lemma WriteKeepsTags(m: MapTables, r: Request)
    requires Inv(m) && Refusal(m, r) == None
    ensures forall k :: k in Write(m, r).live ==> Write(m, r).live[k].snapshot in Write(m, r).snapshots
  {
    LiveAfterWrite(m, r);
    forall k | k in Stored(r) ensures Stored(r)[k].snapshot in Write(m, r).snapshots {
      StoredIsStaged(r.rows, r.snapshot.identity, k);
    }
  }

  lemma WriteArchives(m: MapTables, r: Request)
    requires Inv(m)
    ensures var m', s := Write(m, r), r.snapshot.id;
      forall key :: key in m'.archive ==>
        || (key in m.archive && m'.archive[key] == m.archive[key])
        || (s in m.snapshots && key == (s, m.snapshots[s].generation) && m'.archive[key].snapshot == m.snapshots[s])
        || (key == (s, NextGeneration(m, s)) && m'.archive[key].snapshot == UpsertedRow(m, r))
  {
  }

  lemma WriteKeepsInv(m: MapTables, r: Request)
    requires Inv(m) && Refusal(m, r) == None
    ensures Inv(Write(m, r))
  {
    WriteKeepsTags(m, r);
    WriteArchives(m, r);
    var m' := Write(m, r);
    assert m'.snapshots == m.snapshots[r.snapshot.id := UpsertedRow(m, r)];
    forall s, g | (s, g) in m'.archive
      ensures s in m'.snapshots && 1 <= g <= m'.snapshots[s].generation
        && m'.archive[(s, g)].snapshot.generation == g && m'.archive[(s, g)].snapshot.published == g
        && m'.archive[(s, g)].snapshot.identity == m'.snapshots[s].identity
    {
    }
  }

  /* ---------- the live tables of other snapshots ---------- */

  lemma StoredKeysAreStaged(r: Request)
    ensures forall i :: 0 <= i < |r.rows| ==> r.rows[i].0 in Stored(r)
    ensures forall k :: k in Stored(r) ==> exists i :: 0 <= i < |r.rows| && r.rows[i].0 == k
  {
    forall i | 0 <= i < |r.rows| ensures r.rows[i].0 in Stored(r) {
      StoredIsStaged(r.rows, r.snapshot.identity, r.rows[i].0);
    }
    forall k | k in Stored(r) ensures exists i :: 0 <= i < |r.rows| && r.rows[i].0 == k {
      StoredIsStaged(r.rows, r.snapshot.identity, k);
    }
  }

  lemma OtherRowsAfterWrite(m: MapTables, r: Request, other: SnapshotId)
    requires OwnTags(r) && other != r.snapshot.id
    ensures RowsOf(Write(m, r).live, other) == RowsOf(m.live, other) - Stored(r).Keys
  {
    LiveAfterWrite(m, r);
    StoredTags(r);
    OtherRowsOfUnion(Cleared(m, r.snapshot.id), Stored(r), other);
    assert RowsOf(Cleared(m, r.snapshot.id), other) == RowsOf(m.live, other);
  }

  lemma NothingRemovedIff<K, V>(a: map<K, V>, keys: set<K>)
    ensures a - keys == a <==> a.Keys !! keys
  {
    if k :| k in a && k in keys {
      assert k !in a - keys;
    }
  }

  /**
    Exactly when a publication leaves another snapshot's live rows alone: rows are
    written with INSERT OR REPLACE, so a shared primary key takes the row away.
  */
  lemma LiveRowsUndisturbed(m: MapTables, r: Request, other: SnapshotId)
    requires Inv(m) && OwnTags(r) && Refusal(m, r) == None && other != r.snapshot.id
    ensures RowsOf(Write(m, r).live, other) == RowsOf(m.live, other) <==> Disjoint(m, r, other)
  {
    OtherRowsAfterWrite(m, r, other);
    NothingRemovedIff(RowsOf(m.live, other), Stored(r).Keys);
    StoredKeysAreStaged(r);
  }

  lemma CurrentPayloadAfterWrite(m: MapTables, r: Request, s: SnapshotId)
    requires Inv(m) && WellStaged(m, r) && Refusal(m, r) == None && s in m.snapshots && s != r.snapshot.id
    ensures s in Write(m, r).snapshots && CurrentPayload(Write(m, r), s) == CurrentPayload(m, s)
  {
    assert Disjoint(m, r, s);
    LiveRowsUndisturbed(m, r, s);
  }

  lemma WriteKeepsLiveIsArchived(m: MapTables, r: Request)
    requires Inv(m) && LiveIsArchived(m) && WellStaged(m, r) && Refusal(m, r) == None
    ensures LiveIsArchived(Write(m, r))
  {
    var m' := Write(m, r);
    forall s | s in m'.snapshots && (s, m'.snapshots[s].generation) in m'.archive
      ensures m'.archive[(s, m'.snapshots[s].generation)] == CurrentPayload(m', s)
    {
      if s == r.snapshot.id {
        NewGenerationReadsBack(m, r);
        RowsAfterWrite(m, r);
      } else {
        CurrentPayloadAfterWrite(m, r, s);
        ArchiveIsWriteOnce(m, r);
        OthersKeepArchive(m, r, s);
      }
    }
  }

  lemma OthersKeepArchive(m: MapTables, r: Request, s: SnapshotId)
    requires s in m.snapshots && s != r.snapshot.id
    ensures Write(m, r).snapshots[s] == m.snapshots[s]
    ensures forall g :: (s, g) in Write(m, r).archive <==> (s, g) in m.archive
  {
  }

  /* ---------- generations are an append-only log ---------- */

  /** A readable generation stays readable, with the same content, whatever is published next. */
  lemma ReadIsStable(m: MapTables, r: Request, s: SnapshotId, g: nat)
    requires Inv(m) && WellStaged(m, r) && Refusal(m, r) == None && Read(m, s, g).Some?
    ensures Read(Write(m, r), s, g) == Read(m, s, g)
  {
    if s != r.snapshot.id {
      LiveRowsUndisturbed(m, r, s);
    }
  }

  /** Archived content survives even a badly staged publication. */
  lemma ArchiveIsWriteOnce(m: MapTables, r: Request)
    requires Inv(m) && Refusal(m, r) == None
    ensures forall key :: key in m.archive ==> key in Write(m, r).archive && Write(m, r).archive[key] == m.archive[key]
  {
  }

  /** The current generation of every snapshot is in the archive. */
  ghost predicate CurrentArchived(m: MapTables) {
    forall s :: s in m.snapshots ==> (s, m.snapshots[s].generation) in m.archive
  }

  /** A publication archives its own generation and nothing else. */
  lemma WriteArchivesItself(m: MapTables, r: Request)
    requires CurrentArchived(m)
    ensures CurrentArchived(Write(m, r))
    ensures forall key :: key in Write(m, r).archive && key !in m.archive ==>
      key.0 == r.snapshot.id && Write(m, r).archive[key].rows == RowsOf(Write(m, r).live, r.snapshot.id)
  {
    var m' := Write(m, r);
    forall s | s in m'.snapshots ensures (s, m'.snapshots[s].generation) in m'.archive {
      if s != r.snapshot.id {
        assert s in m.snapshots && m'.snapshots[s] == m.snapshots[s];
      }
    }
  }

  /** A new generation reads back as exactly the snapshot row and the staged rows. */
  lemma NewGenerationReadsBack(m: MapTables, r: Request)
    requires Inv(m) && OwnTags(r) && Refusal(m, r) == None
    ensures Read(m, r.snapshot.id, NextGeneration(m, r.snapshot.id)) == None
    ensures Read(Write(m, r), r.snapshot.id, NextGeneration(m, r.snapshot.id))
         == Some(Payload(UpsertedRow(m, r), Stored(r)))
  {
    RowsAfterWrite(m, r);
  }

  /** Generations b, b+1, ..., current are all readable, and none above. */
  ghost predicate Contiguous(m: MapTables, s: SnapshotId, b: nat) {
    && s in m.snapshots
    && 1 <= b <= m.snapshots[s].generation
    && forall g: nat :: b <= g ==> (Read(m, s, g).Some? <==> g <= m.snapshots[s].generation)
  }

  lemma NothingBeforeOne(m: MapTables, s: SnapshotId)
    requires Inv(m)
    ensures Read(m, s, 0) == None
  {
  }

  function Log(m: MapTables, s: SnapshotId, b: nat): seq<Option<Payload>>
    requires s in m.snapshots && b <= m.snapshots[s].generation + 1
  {
    seq(m.snapshots[s].generation + 1 - b, i requires 0 <= i => Read(m, s, b + i))
  }

  lemma ReadsAfterWrite(m: MapTables, r: Request, s: SnapshotId, b: nat)
    requires Inv(m) && WellStaged(m, r) && Refusal(m, r) == None && Contiguous(m, s, b)
    ensures Contiguous(Write(m, r), s, b)
    ensures forall g: nat :: b <= g <= m.snapshots[s].generation ==> Read(Write(m, r), s, g) == Read(m, s, g)
  {
    var m' := Write(m, r);
    forall g: nat | b <= g
      ensures g <= m.snapshots[s].generation ==> Read(m', s, g) == Read(m, s, g)
      ensures Read(m', s, g).Some? <==> g <= m'.snapshots[s].generation
    {
      if g <= m.snapshots[s].generation {
        ReadIsStable(m, r, s, g);
      }
    }
    NewGenerationReadsBack(m, r);
  }

  /** Publishing appends one entry to the log of its own snapshot and touches no other log. */
  lemma PublishAppends(m: MapTables, r: Request, s: SnapshotId, b: nat)
    requires Inv(m) && WellStaged(m, r) && Refusal(m, r) == None && Contiguous(m, s, b)
    ensures Contiguous(Write(m, r), s, b)
    ensures Log(Write(m, r), s, b) ==
      Log(m, s, b) + if s == r.snapshot.id then [Some(Payload(UpsertedRow(m, r), Stored(r)))] else []
  {
    ReadsAfterWrite(m, r, s, b);
    if s == r.snapshot.id {
      NewGenerationReadsBack(m, r);
    }
    OthersKeepRow(m, r, s);
  }

  lemma OthersKeepRow(m: MapTables, r: Request, s: SnapshotId)
    requires s in m.snapshots
    ensures s in Write(m, r).snapshots
    ensures Write(m, r).snapshots[s] == if s == r.snapshot.id then UpsertedRow(m, r) else m.snapshots[s]
  {
  }

  /** The first publication of a snapshot starts its log at generation 1. */
  lemma FirstPublish(m: MapTables, r: Request)
    requires Inv(m) && OwnTags(r) && Refusal(m, r) == None && r.snapshot.id !in m.snapshots
    ensures Contiguous(Write(m, r), r.snapshot.id, 1) && Write(m, r).snapshots[r.snapshot.id].generation == 1
  {
    NewGenerationReadsBack(m, r);
  }

  /* ---------- whole histories ---------- */

  function Apply(m: MapTables, r: Request): MapTables {
    match Publish(m, r)
    case Ok(m') => m'
    case Err(_) => m
  }

  function ApplyAll(m: MapTables, rs: seq<Request>): MapTables {
    if rs == [] then m else Apply(ApplyAll(m, rs[..|rs| - 1]), rs[|rs| - 1])
  }

  /** Every request is well staged at the moment it is made. */
  ghost predicate AllWellStaged(m: MapTables, rs: seq<Request>) {
    forall i :: 0 <= i < |rs| ==> WellStaged(ApplyAll(m, rs[..i]), rs[i])
  }

  lemma Prefix(m: MapTables, rs: seq<Request>)
    requires rs != [] && AllWellStaged(m, rs)
    ensures AllWellStaged(m, rs[..|rs| - 1]) && WellStaged(ApplyAll(m, rs[..|rs| - 1]), rs[|rs| - 1])
  {
    var p := rs[..|rs| - 1];
    forall i | 0 <= i < |p| ensures WellStaged(ApplyAll(m, p[..i]), p[i]) {
      assert p[..i] == rs[..i] && p[i] == rs[i];
    }
  }

  lemma {:induction false} HistoryKeepsInv(m: MapTables, rs: seq<Request>)
    requires Inv(m) && LiveIsArchived(m) && AllWellStaged(m, rs)
    ensures Inv(ApplyAll(m, rs)) && LiveIsArchived(ApplyAll(m, rs))
  {
    if rs != [] {
      Prefix(m, rs);
      HistoryKeepsInv(m, rs[..|rs| - 1]);
      var before, r := ApplyAll(m, rs[..|rs| - 1]), rs[|rs| - 1];
      if Refusal(before, r) == None {
        WriteKeepsInv(before, r);
        WriteKeepsLiveIsArchived(before, r);
      }
    }
  }

  /** Over any history of publications a generation, once readable, reads the same for ever. */
  lemma {:induction false} ReadForever(m: MapTables, rs: seq<Request>, s: SnapshotId, g: nat)
    requires Inv(m) && LiveIsArchived(m) && AllWellStaged(m, rs) && Read(m, s, g).Some?
    ensures Read(ApplyAll(m, rs), s, g) == Read(m, s, g)
  {
    if rs != [] {
      Prefix(m, rs);
      ReadForever(m, rs[..|rs| - 1], s, g);
      HistoryKeepsInv(m, rs[..|rs| - 1]);
      var before, r := ApplyAll(m, rs[..|rs| - 1]), rs[|rs| - 1];
      if Refusal(before, r) == None {
        ReadIsStable(before, r, s, g);
      }
    }
  }

  /** From an empty database, every snapshot's readable generations are exactly 1 up to its current one. */
  lemma {:induction false} GenerationsFromOne(rs: seq<Request>, s: SnapshotId)
    requires AllWellStaged(EmptyMap(), rs) && s in ApplyAll(EmptyMap(), rs).snapshots
    ensures Contiguous(ApplyAll(EmptyMap(), rs), s, 1)
  {
    if rs != [] {
      Prefix(EmptyMap(), rs);
      var before, r := ApplyAll(EmptyMap(), rs[..|rs| - 1]), rs[|rs| - 1];
      HistoryKeepsInv(EmptyMap(), rs[..|rs| - 1]);
      if s in before.snapshots {
        GenerationsFromOne(rs[..|rs| - 1], s);
        if Refusal(before, r) == None {
          PublishAppends(before, r, s, 1);
        }
      } else {
        FirstPublish(before, r);
      }
    }
  }

  function EmptyMap(): MapTables {
    MapTables(map[], map[], map[], map[])
  }

  /** A ready snapshot is frozen: its row, its live rows and what every generation number reads never change again. */
  lemma {:induction false} ReadyIsFrozen(m: MapTables, rs: seq<Request>, s: SnapshotId)
    requires Inv(m) && LiveIsArchived(m) && AllWellStaged(m, rs)
    requires s in m.snapshots && m.snapshots[s].status.Ready?
    ensures s in ApplyAll(m, rs).snapshots && CurrentPayload(ApplyAll(m, rs), s) == CurrentPayload(m, s)
    ensures forall g: nat :: Read(ApplyAll(m, rs), s, g) == Read(m, s, g)
  {
    if rs != [] {
      Prefix(m, rs);
      ReadyIsFrozen(m, rs[..|rs| - 1], s);
      HistoryKeepsInv(m, rs[..|rs| - 1]);
      var before, r := ApplyAll(m, rs[..|rs| - 1]), rs[|rs| - 1];
      if Refusal(before, r) == None {
        LiveRowsUndisturbed(before, r, s);
        OthersKeepArchive(before, r, s);
        ArchiveIsWriteOnce(before, r);
      }
    }
  }

  /* ---------- blobs ---------- */

  lemma {:induction false} BlobsKeepContent(blobs: map<Hash, Bytes>, added: seq<(Hash, Bytes)>)
    ensures forall h :: h in blobs ==> h in InsertBlobs(blobs, added) && InsertBlobs(blobs, added)[h] == blobs[h]
    decreases |added|
  {
    if added != [] {
      BlobsKeepContent(if added[0].0 in blobs then blobs else blobs[added[0].0 := added[0].1], added[1..]);
    }
  }

  lemma {:induction false} BlobForever(m: MapTables, rs: seq<Request>, h: Hash)
    requires h in m.blobs
    ensures h in ApplyAll(m, rs).blobs && ApplyAll(m, rs).blobs[h] == m.blobs[h]
  {
    if rs != [] {
      var before, r := ApplyAll(m, rs[..|rs| - 1]), rs[|rs| - 1];
      BlobForever(m, rs[..|rs| - 1], h);
      BlobsKeepContent(before.blobs, r.blobs);
    }
  }
}
