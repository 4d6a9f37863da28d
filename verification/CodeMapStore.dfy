/**
  The store object whose methods are the transactions, and the worker that
  drives them. Every method is tied to one step of the lease protocol and,
  for publish, to one entry of the generation log.
*/
module CodeMapStore {
  import opened Prelude
  import L = JobLeases
  import G = Generations
  import C = CheckSchedule

  datatype PublishResult = Published(row: G.SnapshotRow) | LeaseLost | Rejected(error: G.PublishError)

  datatype CheckLease = CheckLease(repository: string, token: C.Token)

  class Store {
    var repositories: map<string, C.Registration>
    var jobs: map<L.JobId, L.Job>
    var slot: Option<L.Holder>
    var attempts: map<(L.JobId, nat), L.Status>
    var snapshots: map<G.SnapshotId, G.SnapshotRow>
    var live: map<G.RowKey, G.Row>
    var archive: map<(G.SnapshotId, nat), G.Payload>
    var blobs: map<G.Hash, G.Bytes>
    const leaseSeconds: int
    ghost var clock: L.Time
    ghost var issued: set<L.Token>
    ghost var leases: set<L.Lease>

    function Tables(): L.Tables
      reads this
    {
      L.Tables(jobs, slot, attempts)
    }

    function Map(): G.MapTables
      reads this
    {
      G.MapTables(snapshots, live, archive, blobs)
    }

    ghost function World(): L.World
      reads this
    {
      L.World(Tables(), clock, issued, leases)
    }

    ghost predicate Valid()
      reads this
    {
      L.Inv(World()) && G.Inv(Map())
    }

    constructor (seconds: int, start: L.Time)
      ensures Valid() && leaseSeconds == seconds && clock == start
      ensures Map() == G.EmptyMap() && Tables() == L.Tables(map[], None, map[])
      ensures issued == {} && leases == {}
    {
      repositories := map[];
      jobs, slot, attempts := map[], None, map[];
      snapshots, live, archive, blobs := map[], map[], map[], map[];
      leaseSeconds, clock, issued, leases := seconds, start, {}, {};
    }

    /* ---------- repository checks ---------- */

    ghost predicate CheckedBefore(a: string, b: string)
      reads this
    {
      a in repositories && b in repositories
      && repositories[a].nextCheck.Some? && repositories[b].nextCheck.Some?
      && repositories[a].nextCheck.value <= repositories[b].nextCheck.value
    }

    /** claim_check: the due repository whose next check is earliest gets the check lease. */
    method ClaimCheck(now: C.Time, token: C.Token) returns (lease: Option<CheckLease>)
      modifies this`repositories
      ensures lease.None? ==> repositories == old(repositories)
      ensures lease.None? ==> forall r :: r in repositories ==> !C.Due(repositories[r], now)
      ensures lease.Some? ==> var r := lease.value.repository;
        && lease.value.token == token && r in old(repositories) && C.Due(old(repositories)[r], now)
        && repositories == old(repositories)[r := C.Step(old(repositories)[r], C.Claimed(now, token, leaseSeconds))]
        && forall o :: o in old(repositories) && C.Due(old(repositories)[o], now) ==> old(CheckedBefore(r, o))
    {
      var best: Option<string> := None;
      var rest := repositories.Keys;
      while rest != {}
        invariant rest <= repositories.Keys
        invariant best.Some? ==> best.value in repositories && C.Due(repositories[best.value], now)
        invariant forall o :: o in repositories && o !in rest && C.Due(repositories[o], now)
                    ==> best.Some? && CheckedBefore(best.value, o)
        decreases rest
      {
        var r :| r in rest;
        rest := rest - {r};
        if C.Due(repositories[r], now)
           && (best.None? || repositories[r].nextCheck.value < repositories[best.value].nextCheck.value) {
          best := Some(r);
        }
      }
      if best.None? {
        return None;
      }
      var r := best.value;
      repositories := repositories[r := C.Claim(repositories[r], now, token, leaseSeconds)];
      lease := Some(CheckLease(r, token));
    }

    /**
      _insert_or_get_job. `id` stands for the digest of the identity: a row that
      already has this id is the row of this identity.
    */
    method InsertOrGetJob(id: L.JobId, identity: L.Identity, now: L.Time) returns (row: L.Job)
      requires Valid() && clock <= now
      requires id in jobs ==> jobs[id].identity == identity
      modifies this`jobs, this`clock
      ensures L.Next(old(World()), L.EnqueueStep(now, id, identity), World())
      ensures row.identity == identity && exists found :: found in jobs && jobs[found] == row
      ensures Valid() && Map() == old(Map())
    {
      ghost var before := World();
      clock := now;
      var found: Option<L.JobId> := None;
      var rest := jobs.Keys;
      while rest != {}
        invariant rest <= jobs.Keys
        invariant found.Some? ==> found.value in jobs && jobs[found.value].identity == identity
        invariant found.None? ==> forall o :: o in jobs && o !in rest ==> jobs[o].identity != identity
        decreases rest
      {
        var o :| o in rest;
        rest := rest - {o};
        if jobs[o].identity == identity {
          found := Some(o);
        }
      }
      if found.Some? {
        row := jobs[found.value];
      } else {
        row := L.Job(identity, now, L.Queued, 0, None);
        jobs := jobs[id := row];
        assert id in jobs && jobs[id] == row;
      }
      L.NextKeepsInv(before, L.EnqueueStep(now, id, identity), World());
    }

    /** complete_check: Err for a lost lease or a success without a commit; a changed commit enqueues its build in the same transaction. */
    method CompleteCheck(lease: CheckLease, result: C.CheckResult, now: L.Time, id: L.JobId)
      returns (answer: Result<Option<L.Job>, string>)
      requires Valid() && clock <= now
      requires result.Success? && lease.repository in repositories && id in jobs ==>
        jobs[id].identity == BuildIdentity(lease.repository, repositories[lease.repository], result.commit)
      modifies this`repositories, this`jobs, this`clock
      ensures Valid() && Map() == old(Map())
      ensures var held := lease.repository in old(repositories) && C.Holds(old(repositories)[lease.repository], lease.token, now);
        && (answer == Err("lease_lost") <==> !held)
        && (answer == Err("InvalidInputError") <==> held && !C.Acceptable(result))
        && (answer.Ok? <==> held && C.Acceptable(result))
      ensures answer.Err? ==> repositories == old(repositories) && jobs == old(jobs)
      ensures answer.Ok? ==>
        repositories == old(repositories)[lease.repository :=
          C.Step(old(repositories)[lease.repository], C.Completed(now, lease.token, result))]
      ensures answer.Ok? && (result.Failure? || !C.Changed(old(repositories)[lease.repository], result.commit))
        ==> answer.value.None? && jobs == old(jobs)
      ensures answer.Ok? && result.Success? && C.Changed(old(repositories)[lease.repository], result.commit)
        ==> && answer.value.Some?
            && answer.value.value.identity == BuildIdentity(lease.repository, old(repositories)[lease.repository], result.commit)
            && L.EnqueueEffect(old(Tables()), now, id, answer.value.value.identity, Tables())
    {
      var r := lease.repository;
      if !(r in repositories && C.Holds(repositories[r], lease.token, now)) {
        return Err("lease_lost");
      }
      if result.Success? && result.commit == "" {
        return Err("InvalidInputError");
      }
      var row := repositories[r];
      repositories := repositories[r := C.Complete(row, result, now)];
      if result.Failure? || !C.Changed(row, result.commit) {
        return Ok(None);
      }
      var job := InsertOrGetJob(id, BuildIdentity(r, row, result.commit), now);
      answer := Ok(Some(job));
    }

    /* ---------- the job lease ---------- */

    /** SELECT ... WHERE claimable ORDER BY created_at, job_id LIMIT 1 */
    method SelectClaimable(now: L.Time) returns (found: Option<L.JobId>)
      ensures found.Some? ==> L.IsNext(jobs, now, found.value)
      ensures found.None? ==> forall id :: id in jobs ==> !L.Claimable(jobs[id], now)
    {
      found := None;
      var rest := jobs.Keys;
      while rest != {}
        invariant rest <= jobs.Keys
        invariant found.Some? ==> found.value in jobs && L.Claimable(jobs[found.value], now)
        invariant forall id :: id in jobs && id !in rest && L.Claimable(jobs[id], now)
                    ==> found.Some? && L.Before(jobs, found.value, id)
        decreases rest
      {
        var id :| id in rest;
        rest := rest - {id};
        if L.Claimable(jobs[id], now) && (found.None? || L.Before(jobs, id, found.value)) {
          found := Some(id);
        }
      }
    }

    /** The three writes of a successful claim. */
    method Take(id: L.JobId, owner: L.Owner, token: L.Token, expires: L.Time) returns (lease: L.Lease)
      requires id in jobs
      modifies this`jobs, this`slot, this`attempts
      ensures Tables() == L.Claim(old(Tables()), id, owner, token, expires)
      ensures lease == L.ClaimedLease(old(Tables()), id, owner, token, expires)
    {
      var job := jobs[id];
      var attempt := job.attempt + 1;
      var holder := L.Holder(owner, token, expires);
      slot := Some(holder);
      jobs := jobs[id := job.(status := L.Running, attempt := attempt, holder := Some(holder))];
      attempts := attempts[(id, attempt) := L.Running];
      lease := L.Lease(id, job.identity, owner, token, expires, attempt);
    }

    /** The claim transaction: nothing while the slot is busy, else the next claimable row. */
    method ClaimRows(owner: L.Owner, now: L.Time, token: L.Token) returns (got: Option<L.Lease>)
      modifies this`jobs, this`slot, this`attempts
      ensures L.ClaimEffect(old(Tables()), now, owner, token, leaseSeconds, got, Tables())
    {
      got := None;
      if !(slot.Some? && slot.value.expires > now) {
        var found := SelectClaimable(now);
        if found.Some? {
          var lease := Take(found.value, owner, token, now + leaseSeconds);
          got := Some(lease);
        }
      }
    }

    method ClaimJob(owner: L.Owner, now: L.Time, token: L.Token) returns (got: Option<L.Lease>)
      requires Valid() && clock <= now && token !in issued
      modifies this
      ensures L.Next(old(World()), L.ClaimStep(now, owner, token, leaseSeconds, got), World())
      ensures Valid() && Map() == old(Map())
    {
      ghost var before := World();
      got := ClaimRows(owner, now, token);
      ghost var step := L.ClaimStep(now, owner, token, leaseSeconds, got);
      clock, issued, leases := now, issued + {token}, leases + L.Granted(step);
      L.NextKeepsInv(before, step, World());
    }

    method Heartbeat(lease: L.Lease, now: L.Time) returns (alive: bool)
      requires Valid() && clock <= now && lease in leases
      modifies this
      ensures L.Next(old(World()), L.HeartbeatStep(now, lease, leaseSeconds, alive), World())
      ensures Valid() && Map() == old(Map())
    {
      ghost var before := World();
      clock := now;
      var expires := now + leaseSeconds;
      var updated, slotUpdated := false, false;
      if L.LiveJob(Tables(), lease, now) {
        var job := jobs[lease.job];
        jobs := jobs[lease.job := job.(holder := Some(job.holder.value.(expires := expires)))];
        updated := true;
      }
      if L.LiveSlot(Tables(), lease, now) {
        slot := Some(slot.value.(expires := expires));
        slotUpdated := true;
      }
      alive := updated && slotUpdated;
      L.NextKeepsInv(before, L.HeartbeatStep(now, lease, leaseSeconds, alive), World());
    }

    /** The three updates with which both fail_job and publish give a lease back. */
    method Close(lease: L.Lease, status: L.Status) returns (hit: bool)
      modifies this`jobs, this`slot, this`attempts
      ensures Tables() == L.CloseJob(old(Tables()), lease, status)
      ensures hit == L.HoldsJob(old(Tables()), lease)
    {
      hit := lease.job in jobs && L.Matches(jobs[lease.job].holder, lease);
      if hit {
        jobs := jobs[lease.job := jobs[lease.job].(status := status, holder := None)];
      }
      if (lease.job, lease.attempt) in attempts {
        attempts := attempts[(lease.job, lease.attempt) := status];
      }
      if L.Matches(slot, lease) {
        slot := None;
      }
    }

    method FailJob(lease: L.Lease, now: L.Time) returns (hit: bool)
      requires Valid() && clock <= now && lease in leases
      modifies this
      ensures L.Next(old(World()), L.FailStep(now, lease, hit), World())
      ensures Valid() && Map() == old(Map())
    {
      ghost var before := World();
      hit := Close(lease, L.Failed);
      clock := now;
      assert World() == L.World(L.CloseJob(before.t, lease, L.Failed), now, before.issued, before.leases);
      L.NextKeepsInv(before, L.FailStep(now, lease, hit), World());
    }

    method RetryJob(id: L.JobId, now: L.Time) returns (ok: bool)
      requires Valid() && clock <= now
      modifies this
      ensures ok == L.MayRetry(old(Tables()), id)
      ensures L.Next(old(World()), L.RetryStep(now, id), World())
      ensures Valid() && Map() == old(Map())
    {
      ghost var before := World();
      clock := now;
      ok := id in jobs && (jobs[id].status.Partial? || jobs[id].status.Failed?);
      if ok {
        jobs := jobs[id := jobs[id].(status := L.Queued)];
      }
      L.NextKeepsInv(before, L.RetryStep(now, id), World());
    }

    /** _archive_generation */
    method ArchiveGeneration(s: G.SnapshotId)
      requires s in snapshots
      modifies this`archive
      ensures Map() == G.ArchiveCurrent(old(Map()), s)
    {
      var key := (s, snapshots[s].generation);
      if key !in archive {
        archive := archive[key := G.Payload(snapshots[s], G.RowsOf(live, s))];
      }
    }

    method StoreBlobs(added: seq<(G.Hash, G.Bytes)>)
      modifies this`blobs
      ensures blobs == G.InsertBlobs(old(blobs), added)
    {
      var i := 0;
      while i < |added|
        invariant 0 <= i <= |added|
        invariant G.InsertBlobs(blobs, added[i..]) == G.InsertBlobs(old(blobs), added)
      {
        assert added[i..][1..] == added[i + 1..];
        if added[i].0 !in blobs {
          blobs := blobs[added[i].0 := added[i].1];
        }
        i := i + 1;
      }
    }

    method StoreRows(rows: seq<(G.RowKey, G.Row)>, identity: L.Identity)
      modifies this`live
      ensures live == G.InsertRows(old(live), rows, identity)
    {
      var i := 0;
      while i < |rows|
        invariant 0 <= i <= |rows|
        invariant G.InsertRows(live, rows[i..], identity) == G.InsertRows(old(live), rows, identity)
      {
        assert rows[i..][1..] == rows[i + 1..];
        live := live[rows[i].0 := G.Stamp(rows[i].1, identity)];
        i := i + 1;
      }
    }

    /** Replace the snapshot's rows by the staged ones and archive both generations. */
    method WriteSnapshot(r: G.Request)
      modifies this`snapshots, this`live, this`archive, this`blobs
      ensures Map() == G.Write(old(Map()), r)
    {
      var row := G.UpsertedRow(Map(), r);
      if r.snapshot.id in snapshots {
        ArchiveGeneration(r.snapshot.id);
        live := G.Without(live, r.snapshot.id);
      }
      snapshots := snapshots[r.snapshot.id := row];
      StoreBlobs(r.blobs);
      StoreRows(r.rows, r.snapshot.identity);
      ArchiveGeneration(r.snapshot.id);
    }

    /** The publication transaction; an integrity error of the database rolls everything back. */
    method PublishRows(lease: L.Lease, r: G.Request) returns (result: PublishResult)
      requires r.lease == lease.identity
      modifies this`jobs, this`slot, this`attempts, this`snapshots, this`live, this`archive, this`blobs
      ensures L.PublishEffect(old(Tables()), r.now, lease, VerdictOf(result), Tables())
      ensures PublishedAs(old(Map()), r, result, Map())
    {
      if !(L.LiveJob(Tables(), lease, r.now) && L.LiveSlot(Tables(), lease, r.now)) {
        return LeaseLost;
      }
      var refusal := G.Refusal(Map(), r);
      if refusal.Some? {
        return Rejected(refusal.value);
      }
      WriteSnapshot(r);
      var row := snapshots[r.snapshot.id];
      var _ := Close(lease, if row.status.Incomplete? then L.Partial else L.Succeeded);
      result := Published(row);
    }

    /** publish: lease checks, snapshot checks, archive, replace, archive again. */
    method Publish(lease: L.Lease, snapshot: G.Snapshot, rows: seq<(G.RowKey, G.Row)>,
                   added: seq<(G.Hash, G.Bytes)>, now: L.Time) returns (result: PublishResult)
      requires Valid() && clock <= now && lease in leases
      modifies this
      ensures L.Next(old(World()), L.PublishStep(now, lease, VerdictOf(result)), World())
      ensures PublishedAs(old(Map()), G.Request(lease.identity, snapshot, rows, added, now), result, Map())
      ensures Valid()
    {
      ghost var before, mapBefore := World(), Map();
      var r := G.Request(lease.identity, snapshot, rows, added, now);
      result := PublishRows(lease, r);
      clock := now;
      L.NextKeepsInv(before, L.PublishStep(now, lease, VerdictOf(result)), World());
      PublishKeepsMapInv(mapBefore, r, result, Map());
    }

    /** read_generation */
    method ReadGeneration(s: G.SnapshotId, g: nat) returns (payload: Option<G.Payload>)
      ensures payload == G.Read(Map(), s, g)
    {
      if (s, g) in archive {
        return Some(archive[(s, g)]);
      }
      if s in snapshots && snapshots[s].published == g {
        return Some(G.Payload(snapshots[s], G.RowsOf(live, s)));
      }
      return None;
    }
  }

  function BuildIdentity(repository: string, row: C.Registration, commit: string): L.Identity {
    L.Identity(repository, commit, row.parser, row.rules)
  }

  /** What publish does to the map tables, by its answer. */
  ghost predicate PublishedAs(m: G.MapTables, r: G.Request, result: PublishResult, m': G.MapTables) {
    match result
    case LeaseLost => m' == m
    case Rejected(error) => G.Publish(m, r) == Err(error) && m' == m
    case Published(row) => G.Publish(m, r) == Ok(m') && row == m'.snapshots[r.snapshot.id]
  }

  lemma PublishKeepsMapInv(m: G.MapTables, r: G.Request, result: PublishResult, m': G.MapTables)
    requires G.Inv(m) && PublishedAs(m, r, result, m')
    ensures G.Inv(m')
  {
    if result.Published? {
      G.WriteKeepsInv(m, r);
    }
  }

  function VerdictOf(result: PublishResult): L.Verdict {
    match result
    case LeaseLost => L.LeaseLost
    case Rejected(_) => L.Refused
    case Published(row) => L.Accepted(row.status.Incomplete?)
  }

  /* ---------- the worker ---------- */

  /** How the forked build process ended. */
  datatype BuildOutcome =
    | Stuck
    | TimedOut
    | NoMessage
    | Raised(code: string)
    | Built(snapshot: G.Snapshot, rows: seq<(G.RowKey, G.Row)>, blobs: seq<(G.Hash, G.Bytes)>)

  datatype WorkerResult = Idle | Failed(job: L.JobId, code: string) | Succeeded(job: L.JobId)

  class Worker {
    const store: Store
    const owner: L.Owner

    constructor (s: Store, name: L.Owner)
      ensures store == s && owner == name
    {
      store, owner := s, name;
    }

    /** What happens to a claimed lease once the build process is over. */
    method Conclude(lease: L.Lease, outcome: BuildOutcome, later: L.Time) returns (result: WorkerResult)
      requires store.Valid() && store.clock <= later && lease in store.leases
      modifies store
      ensures store.Valid() && L.TokenGone(store.Tables(), lease.token)
      ensures result != Idle && result.job == lease.job
      ensures result.Succeeded? ==> outcome.Built? && old(L.MayPublish(store.Tables(), lease, later))
      ensures result.Succeeded? ==>
        G.Publish(old(store.Map()), G.Request(lease.identity, outcome.snapshot, outcome.rows, outcome.blobs, later)) == Ok(store.Map())
      ensures result.Failed? ==> store.Map() == old(store.Map())
      ensures result.Failed? && old(L.HoldsJob(store.Tables(), lease)) 
        ==> lease.job in store.jobs && store.jobs[lease.job].status == L.Failed
    {
      ghost var before := store.World();
      var code: string;
      match outcome {
        case Stuck => code := "build_process_stuck";
        case TimedOut => code := "build_timeout";
        case NoMessage => code := "builder_exit";
        case Raised(c) => code := c;
        case Built(snapshot, rows, blobs) =>
          var published := store.Publish(lease, snapshot, rows, blobs, later);
          match published {
            case Published(row) =>
              L.ClosingReleases(before, L.PublishStep(later, lease, L.Accepted(row.status.Incomplete?)), store.World());
              return Succeeded(lease.job);
            case LeaseLost => code := "lease_lost";
            case Rejected(error) => code := ErrorCode(error);
          }
      }
      ghost var middle := store.World();
      var hit := store.FailJob(lease, later);
      L.ClosingReleases(middle, L.FailStep(later, lease, hit), store.World());
      return Failed(lease.job, code);
    }

    method RunOnce(now: L.Time, token: L.Token, outcome: BuildOutcome, later: L.Time) returns (result: WorkerResult)
      requires store.Valid() && store.clock <= now <= later && token !in store.issued
      modifies store
      ensures store.Valid() && L.TokenGone(store.Tables(), token)
      ensures result == Idle ==> store.Map() == old(store.Map()) && store.Tables() == old(store.Tables())
      ensures result == Idle <==> (old(L.Unexpired(store.slot, now)) || forall id :: id in old(store.jobs) ==> !L.Claimable(old(store.jobs)[id], now))
    {
      var got := store.ClaimJob(owner, now, token);
      if got.None? {
        return Idle;
      }
      result := Conclude(got.value, outcome, later);
    }
  }

  function ErrorCode(error: G.PublishError): string {
    match error
    case ScopeMismatch => "scope_mismatch"
    case SnapshotImmutable => "snapshot_immutable"
    case IntegrityError => "IntegrityError"
  }
}
