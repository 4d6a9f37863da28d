/**
  What holds of a database that only builds write to, from the empty one on:
  keys, names, references and generation logs.
*/
module BuildHistories {
  import opened Prelude
  import opened BuildRows
  import opened Staging
  import B = SnapshotBuild
  import G = Generations
  import L = JobLeases

  /* ---------- invariants ---------- */

  /** A snapshot id is the digest of the snapshot's identity. */
  ghost predicate Named(d: Digests, snapshots: map<G.SnapshotId, G.SnapshotRow>) {
    forall s :: s in snapshots ==> s == d.snapshot(snapshots[s].identity)
  }

  ghost predicate ArchiveKeyed(d: Digests, archive: map<(G.SnapshotId, nat), G.Payload>) {
    forall key :: key in archive ==> TaggedAndKeyed(d, key.0, archive[key].rows)
  }

  ghost predicate TaggedAndKeyed(d: Digests, s: G.SnapshotId, rows: map<G.RowKey, G.Row>) {
    RowsKeyed(d, rows) && forall k :: k in rows ==> rows[k].snapshot == s
  }

  /** Foreign keys on nodes: what a row refers to is there and belongs to the same snapshot. */
  ghost predicate NodesAreThere(rows: map<G.RowKey, G.Row>) {
    forall k, n :: k in rows && n in References(rows[k]) ==> n in rows && rows[n].snapshot == rows[k].snapshot
  }

  ghost predicate History(d: Digests, m: G.MapTables) {
    Named(d, m.snapshots) && RowsKeyed(d, m.live) && ArchiveKeyed(d, m.archive) && NodesAreThere(m.live)
  }

  /** What publications of builds have in common. */
  ghost predicate FromBuild(d: Digests, r: G.Request) {
    RequestKeyed(d, r) && SelfContained(r)
  }

  lemma BuildsQualify(tc: B.Toolchain, d: Digests, b: Build)
    requires B.Sound(tc)
    ensures FromBuild(d, Output(tc, d, b))
  {
    BuildIsKeyed(tc, d, b);
    BuildIsSelfContained(tc, d, b);
  }

  /* ---------- one publication ---------- */

  /** Rows keyed by injective digests collide with no other snapshot's rows. */
  lemma KeyedIsWellStaged(d: Digests, m: G.MapTables, r: G.Request)
    requires Injective(d) && RowsKeyed(d, m.live) && RequestKeyed(d, r)
    ensures G.WellStaged(m, r)
  {
    forall other, i | other in m.snapshots && other != r.snapshot.id && 0 <= i < |r.rows|
      ensures r.rows[i].0 !in G.RowsOf(m.live, other)
    {
      var k := r.rows[i].0;
      if k in m.live {
        KeysNameTheirSnapshot(d, k, r.rows[i].1, m.live[k]);
      }
    }
  }

  /** Stamping changes neither the snapshot nor what a row's key spells. */
  lemma StampKeepsKey(d: Digests, k: G.RowKey, row: G.Row, identity: L.Identity)
    requires Keyed(d, k, row)
    ensures Keyed(d, k, G.Stamp(row, identity)) && G.Stamp(row, identity).snapshot == row.snapshot
    ensures References(G.Stamp(row, identity)) == References(row)
  {
    var x :| k.id == d.row(x) && Spells(x, row);
    assert Spells(x, G.Stamp(row, identity));
  }

  lemma StoredAreKeyed(d: Digests, r: G.Request)
    requires RequestKeyed(d, r)
    ensures TaggedAndKeyed(d, r.snapshot.id, G.Stored(r))
  {
    forall k | k in G.Stored(r) ensures Keyed(d, k, G.Stored(r)[k]) && G.Stored(r)[k].snapshot == r.snapshot.id {
      G.StoredIsStaged(r.rows, r.snapshot.identity, k);
      var i :| 0 <= i < |r.rows| && r.rows[i].0 == k && G.Stored(r)[k] == G.Stamp(r.rows[i].1, r.snapshot.identity);
      StampKeepsKey(d, k, r.rows[i].1, r.snapshot.identity);
    }
  }

  lemma WriteKeepsKeys(d: Digests, m: G.MapTables, r: G.Request)
    requires RowsKeyed(d, m.live) && RequestKeyed(d, r)
    ensures RowsKeyed(d, G.Write(m, r).live)
  {
    G.LiveAfterWrite(m, r);
    StoredAreKeyed(d, r);
  }

  lemma WriteKeepsArchive(d: Digests, m: G.MapTables, r: G.Request)
    requires RowsKeyed(d, m.live) && ArchiveKeyed(d, m.archive) && RequestKeyed(d, r)
    ensures ArchiveKeyed(d, G.Write(m, r).archive)
  {
    WriteKeepsKeys(d, m, r);
    var s, m' := r.snapshot.id, G.Write(m, r);
    forall key | key in m'.archive ensures TaggedAndKeyed(d, key.0, m'.archive[key].rows) {
      var rows := m'.archive[key].rows;
      if key !in m.archive || rows != m.archive[key].rows {
        assert key.0 == s && (rows == G.RowsOf(m.live, s) || rows == G.RowsOf(m'.live, s));
      }
    }
  }

  lemma StoredReferences(d: Digests, r: G.Request, k: G.RowKey)
    requires FromBuild(d, r) && k in G.Stored(r)
    ensures References(G.Stored(r)[k]) <= G.Stored(r).Keys
  {
    G.StoredIsStaged(r.rows, r.snapshot.identity, k);
    var i :| 0 <= i < |r.rows| && r.rows[i].0 == k && G.Stored(r)[k] == G.Stamp(r.rows[i].1, r.snapshot.identity);
    StampKeepsKey(d, k, r.rows[i].1, r.snapshot.identity);
    forall n | n in References(r.rows[i].1) ensures n in G.Stored(r) {
      assert StagedKey(r, n);
      G.StoredIsStaged(r.rows, r.snapshot.identity, n);
    }
  }

  lemma StoredNodesAreThere(d: Digests, r: G.Request)
    requires FromBuild(d, r)
    ensures NodesAreThere(G.Stored(r))
  {
    StoredAreKeyed(d, r);
    forall k | k in G.Stored(r) ensures References(G.Stored(r)[k]) <= G.Stored(r).Keys {
      StoredReferences(d, r, k);
    }
  }

  /** A live row of another snapshot is not overwritten. */
  lemma OthersAreNotStaged(m: G.MapTables, r: G.Request, n: G.RowKey)
    requires G.Inv(m) && G.WellStaged(m, r) && n in G.Cleared(m, r.snapshot.id)
    ensures n !in G.Stored(r)
  {
    G.StoredIsStaged(r.rows, r.snapshot.identity, n);
    var other := m.live[n].snapshot;
    assert n in G.RowsOf(m.live, other) && other != r.snapshot.id;
    forall i | 0 <= i < |r.rows| ensures r.rows[i].0 != n {
      assert G.Disjoint(m, r, other);
    }
  }

  lemma ReferencesOfUnion(a: map<G.RowKey, G.Row>, b: map<G.RowKey, G.Row>)
    requires NodesAreThere(a) && NodesAreThere(b) && a.Keys !! b.Keys
    ensures NodesAreThere(a + b)
  {
  }

  /** The rows of a snapshot are replaced as a whole, so no row is left referring to a node that is gone. */
  lemma WriteKeepsReferences(d: Digests, m: G.MapTables, r: G.Request)
    requires G.Inv(m) && G.WellStaged(m, r) && NodesAreThere(m.live) && FromBuild(d, r)
    ensures NodesAreThere(G.Write(m, r).live)
  {
    G.LiveAfterWrite(m, r);
    StoredNodesAreThere(d, r);
    forall n | n in G.Cleared(m, r.snapshot.id) ensures n !in G.Stored(r) {
      OthersAreNotStaged(m, r, n);
    }
    ReferencesOfUnion(G.Cleared(m, r.snapshot.id), G.Stored(r));
  }

  lemma WriteKeepsHistory(d: Digests, m: G.MapTables, r: G.Request)
    requires Injective(d) && G.Inv(m) && History(d, m) && FromBuild(d, r)
    ensures History(d, G.Write(m, r))
  {
    KeyedIsWellStaged(d, m, r);
    WriteKeepsKeys(d, m, r);
    WriteKeepsArchive(d, m, r);
    WriteKeepsReferences(d, m, r);
  }

  /** Only a ready snapshot refuses a build: no other identity, tag or reference is in the way. */
  lemma RefusedIffReady(d: Digests, m: G.MapTables, r: G.Request)
    requires Injective(d) && History(d, m) && FromBuild(d, r)
    ensures G.Refusal(m, r) ==
      if r.snapshot.id in m.snapshots && m.snapshots[r.snapshot.id].status.Ready? then Some(G.SnapshotImmutable) else None
  {
    assert !G.IdentityUsedElsewhere(m, r);
  }

  /* ---------- whole histories ---------- */

  lemma {:induction false} RequestsKeepHistory(d: Digests, rs: seq<G.Request>)
    requires Injective(d) && forall i :: 0 <= i < |rs| ==> FromBuild(d, rs[i])
    ensures G.AllWellStaged(G.EmptyMap(), rs)
    ensures G.Inv(G.ApplyAll(G.EmptyMap(), rs)) && G.LiveIsArchived(G.ApplyAll(G.EmptyMap(), rs))
    ensures History(d, G.ApplyAll(G.EmptyMap(), rs))
  {
    if rs != [] {
      var n := |rs| - 1;
      RequestsKeepHistory(d, rs[..n]);
      var before := G.ApplyAll(G.EmptyMap(), rs[..n]);
      KeyedIsWellStaged(d, before, rs[n]);
      LastIsWellStaged(rs);
      G.HistoryKeepsInv(G.EmptyMap(), rs);
      if G.Refusal(before, rs[n]) == None {
        WriteKeepsHistory(d, before, rs[n]);
      }
    }
  }

  lemma LastIsWellStaged(rs: seq<G.Request>)
    requires rs != [] && G.AllWellStaged(G.EmptyMap(), rs[..|rs| - 1])
    requires G.WellStaged(G.ApplyAll(G.EmptyMap(), rs[..|rs| - 1]), rs[|rs| - 1])
    ensures G.AllWellStaged(G.EmptyMap(), rs)
  {
    var n := |rs| - 1;
    forall i | 0 <= i < |rs| ensures G.WellStaged(G.ApplyAll(G.EmptyMap(), rs[..i]), rs[i]) {
      if i < n {
        assert rs[..n][..i] == rs[..i] && rs[..n][i] == rs[i];
      }
    }
  }

  /** The database after a sequence of builds, each published under its own lease. */
  ghost function After(tc: B.Toolchain, d: Digests, bs: seq<Build>): G.MapTables
    requires B.Sound(tc)
  {
    G.ApplyAll(G.EmptyMap(), Outputs(tc, d, bs))
  }

  /**
    Whatever is built and published, every build is well staged when it is
    published, and the database keeps its generations, keys and references.
  */
  lemma BuildsKeepHistory(tc: B.Toolchain, d: Digests, bs: seq<Build>)
    requires B.Sound(tc) && Injective(d)
    ensures G.AllWellStaged(G.EmptyMap(), Outputs(tc, d, bs))
    ensures G.Inv(After(tc, d, bs)) && G.LiveIsArchived(After(tc, d, bs)) && History(d, After(tc, d, bs))
  {
    OutputsQualify(tc, d, bs);
    RequestsKeepHistory(d, Outputs(tc, d, bs));
  }

  lemma OutputsQualify(tc: B.Toolchain, d: Digests, bs: seq<Build>)
    requires B.Sound(tc)
    ensures forall i :: 0 <= i < |Outputs(tc, d, bs)| ==> FromBuild(d, Outputs(tc, d, bs)[i])
  {
    var f := Builder(tc, d);
    forall b ensures FromBuild(d, f(b)) {
      BuildsQualify(tc, d, b);
    }
    MappedAll(f, r => FromBuild(d, r), bs);
  }

  /** Publishing one more build is refused if and only if its snapshot is ready. */
  lemma BuildRefusedIffReady(tc: B.Toolchain, d: Digests, bs: seq<Build>, b: Build)
    requires B.Sound(tc) && Injective(d)
    ensures var m, s := After(tc, d, bs), SnapshotOf(d, b);
      G.Publish(m, Output(tc, d, b)) ==
        if s in m.snapshots && m.snapshots[s].status.Ready? then Err(G.SnapshotImmutable) else Ok(G.Write(m, Output(tc, d, b)))
  {
    BuildsKeepHistory(tc, d, bs);
    BuildsQualify(tc, d, b);
    RefusedIffReady(d, After(tc, d, bs), Output(tc, d, b));
  }

  /** From an empty database, builds alone yield gapless logs that never change. */
  lemma BuilderLogs(tc: B.Toolchain, d: Digests, bs: seq<Build>, more: seq<Build>, s: string, g: nat)
    requires B.Sound(tc) && Injective(d) && s in After(tc, d, bs).snapshots
    ensures G.Read(After(tc, d, bs), s, g).Some? <==> 1 <= g <= After(tc, d, bs).snapshots[s].generation
    ensures G.Read(After(tc, d, bs), s, g).Some? ==> G.Read(After(tc, d, bs + more), s, g) == G.Read(After(tc, d, bs), s, g)
  {
    BuildsKeepHistory(tc, d, bs);
    BuildsKeepHistory(tc, d, bs + more);
    MappedSum(Builder(tc, d), bs, more);
    LogsOfRequests(Outputs(tc, d, bs), Outputs(tc, d, more), s, g);
  }

  lemma LogsOfRequests(rs: seq<G.Request>, more: seq<G.Request>, s: string, g: nat)
    requires G.AllWellStaged(G.EmptyMap(), rs + more) && s in G.ApplyAll(G.EmptyMap(), rs).snapshots
    ensures var m := G.ApplyAll(G.EmptyMap(), rs);
      && (G.Read(m, s, g).Some? <==> 1 <= g <= m.snapshots[s].generation)
      && (G.Read(m, s, g).Some? ==> G.Read(G.ApplyAll(G.EmptyMap(), rs + more), s, g) == G.Read(m, s, g))
  {
    var m := G.ApplyAll(G.EmptyMap(), rs);
    WellStagedParts(G.EmptyMap(), rs, more);
    G.HistoryKeepsInv(G.EmptyMap(), rs);
    G.GenerationsFromOne(rs, s);
    if g == 0 {
      G.NothingBeforeOne(m, s);
    }
    if G.Read(m, s, g).Some? {
      G.ReadForever(m, more, s, g);
    }
    ApplySum(G.EmptyMap(), rs, more);
  }

  lemma {:induction false} ApplySum(m: G.MapTables, rs: seq<G.Request>, more: seq<G.Request>)
    ensures G.ApplyAll(m, rs + more) == G.ApplyAll(G.ApplyAll(m, rs), more)
  {
    if more == [] {
      assert rs + more == rs;
    } else {
      var n := |more| - 1;
      ApplySum(m, rs, more[..n]);
      assert (rs + more)[..|rs + more| - 1] == rs + more[..n];
    }
  }

  lemma WellStagedParts(m: G.MapTables, rs: seq<G.Request>, more: seq<G.Request>)
    requires G.AllWellStaged(m, rs + more)
    ensures G.AllWellStaged(m, rs) && G.AllWellStaged(G.ApplyAll(m, rs), more)
  {
    forall i | 0 <= i < |rs| ensures G.WellStaged(G.ApplyAll(m, rs[..i]), rs[i]) {
      assert (rs + more)[..i] == rs[..i] && (rs + more)[i] == rs[i];
    }
    forall i | 0 <= i < |more| ensures G.WellStaged(G.ApplyAll(G.ApplyAll(m, rs), more[..i]), more[i]) {
      ApplySum(m, rs, more[..i]);
      assert (rs + more)[..|rs| + i] == rs + more[..i] && (rs + more)[|rs| + i] == more[i];
    }
  }

  /** Over any history of builds, live rows that agree on a secondary key have the same primary key. */
  lemma LiveSecondaryKeysUnique(tc: B.Toolchain, d: Digests, bs: seq<Build>, k: G.RowKey, l: G.RowKey)
    requires B.Sound(tc) && Injective(d)
    requires k in After(tc, d, bs).live && l in After(tc, d, bs).live
    requires SameSecondaryKey(After(tc, d, bs).live[k], After(tc, d, bs).live[l])
    ensures k == l
  {
    BuildsKeepHistory(tc, d, bs);
    SecondaryKeysFollow(d, k, After(tc, d, bs).live[k], l, After(tc, d, bs).live[l]);
  }

  /** Nor does a staged row ever collide with a live one on a secondary key alone: REPLACE deletes nothing else. */
  lemma StagedSecondaryKeysFollow(tc: B.Toolchain, d: Digests, bs: seq<Build>, b: Build, i: nat, k: G.RowKey)
    requires B.Sound(tc) && Injective(d) && i < |Output(tc, d, b).rows| && k in After(tc, d, bs).live
    requires SameSecondaryKey(Output(tc, d, b).rows[i].1, After(tc, d, bs).live[k])
    ensures k == Output(tc, d, b).rows[i].0
  {
    BuildsKeepHistory(tc, d, bs);
    BuildIsKeyed(tc, d, b);
    SecondaryKeysFollow(d, Output(tc, d, b).rows[i].0, Output(tc, d, b).rows[i].1, k, After(tc, d, bs).live[k]);
  }

  /** The rows of any generation that can be read. */
  lemma ReadableRowsAreKeyed(tc: B.Toolchain, d: Digests, bs: seq<Build>, s: string, g: nat)
    requires B.Sound(tc) && Injective(d) && G.Read(After(tc, d, bs), s, g).Some?
    ensures TaggedAndKeyed(d, s, G.Read(After(tc, d, bs), s, g).value.rows)
  {
    BuildsKeepHistory(tc, d, bs);
  }
}
