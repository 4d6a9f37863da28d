/**
  The scan-job lease protocol of the code-map store: the jobs table, the single
  worker slot and the attempts table, with every statement that touches them.
  A transaction is one atomic step; several workers interleave their steps under
  a monotone clock.
*/
module JobLeases {
  import opened Prelude

  type JobId = nat
  type Token = nat
  type Owner = string
  type Time = int

  /** What a build is determined by; the jobs table has one row per identity. */
  datatype Identity = Identity(repository: string, commit: string, parser: string, rules: string)

  datatype Status = Queued | RetryWait | Running | Succeeded | Partial | Failed | Cancelled

  /** The three nullable lease columns, which the source always writes together. */
  datatype Holder = Holder(owner: Owner, token: Token, expires: Time)

  datatype Job = Job(identity: Identity, created: Time, status: Status, attempt: nat, holder: Option<Holder>)

  /** The lease a worker keeps in memory after a successful claim. */
  datatype Lease = Lease(job: JobId, identity: Identity, owner: Owner, token: Token, expires: Time, attempt: nat)

  datatype Tables = Tables(
    jobs: map<JobId, Job>,
    slot: Option<Holder>,
    attempts: map<(JobId, nat), Status>)

  /* ---------- the statements ---------- */

  predicate Matches(holder: Option<Holder>, lease: Lease) {
    holder.Some? && holder.value.owner == lease.owner && holder.value.token == lease.token
  }

  predicate Unexpired(holder: Option<Holder>, now: Time) {
    holder.Some? && holder.value.expires > now
  }

  predicate Claimable(job: Job, now: Time) {
    || job.status.Queued?
    || job.status.RetryWait?
    || (job.status.Running? && job.holder.Some? && job.holder.value.expires <= now)
  }

  /** ORDER BY created_at, job_id */
  predicate Before(jobs: map<JobId, Job>, a: JobId, b: JobId)
    requires a in jobs && b in jobs
  {
    jobs[a].created < jobs[b].created || (jobs[a].created == jobs[b].created && a <= b)
  }

  /** The row the claim's SELECT ... LIMIT 1 returns. */
  ghost predicate IsNext(jobs: map<JobId, Job>, now: Time, id: JobId) {
    && id in jobs
    && Claimable(jobs[id], now)
    && forall other :: other in jobs && Claimable(jobs[other], now) ==> Before(jobs, id, other)
  }

  function Claim(t: Tables, id: JobId, owner: Owner, token: Token, expires: Time): Tables
    requires id in t.jobs
  {
    var job := t.jobs[id];
    var holder := Holder(owner, token, expires);
    Tables(
      t.jobs[id := job.(status := Running, attempt := job.attempt + 1, holder := Some(holder))],
      Some(holder),
      t.attempts[(id, job.attempt + 1) := Running])
  }

  function ClaimedLease(t: Tables, id: JobId, owner: Owner, token: Token, expires: Time): Lease
    requires id in t.jobs
  {
    Lease(id, t.jobs[id].identity, owner, token, expires, t.jobs[id].attempt + 1)
  }

  predicate HoldsJob(t: Tables, lease: Lease) {
    lease.job in t.jobs && Matches(t.jobs[lease.job].holder, lease)
  }

  /** The condition heartbeat and publish put on the jobs row. */
  predicate LiveJob(t: Tables, lease: Lease, now: Time) {
    && HoldsJob(t, lease)
    && t.jobs[lease.job].status.Running?
    && Unexpired(t.jobs[lease.job].holder, now)
  }

  predicate LiveSlot(t: Tables, lease: Lease, now: Time) {
    Matches(t.slot, lease) && Unexpired(t.slot, now)
  }

  function Extend(holder: Option<Holder>, expires: Time): Option<Holder> {
    match holder
    case None => None
    case Some(h) => Some(h.(expires := expires))
  }

  /** Two independent updates; the answer says whether both hit a row. */
  function Heartbeat(t: Tables, lease: Lease, now: Time, expires: Time): (Tables, bool) {
    var jobs :=
      if LiveJob(t, lease, now) then
        t.jobs[lease.job := t.jobs[lease.job].(holder := Extend(t.jobs[lease.job].holder, expires))]
      else t.jobs;
    var slot := if LiveSlot(t, lease, now) then Extend(t.slot, expires) else t.slot;
    (t.(jobs := jobs, slot := slot), LiveJob(t, lease, now) && LiveSlot(t, lease, now))
  }

  function CloseAttempt(t: Tables, lease: Lease, status: Status): map<(JobId, nat), Status> {
    if (lease.job, lease.attempt) in t.attempts then t.attempts[(lease.job, lease.attempt) := status] else t.attempts
  }

  function FreeSlot(t: Tables, lease: Lease): Option<Holder> {
    if Matches(t.slot, lease) then None else t.slot
  }

  function CloseJob(t: Tables, lease: Lease, status: Status): Tables {
    Tables(
      if HoldsJob(t, lease)
      then t.jobs[lease.job := t.jobs[lease.job].(status := status, holder := None)]
      else t.jobs,
      FreeSlot(t, lease),
      CloseAttempt(t, lease, status))
  }

  /** fail_job checks owner and token only: an expired worker may still fail its own job. */
  function Fail(t: Tables, lease: Lease): (Tables, bool) {
    (CloseJob(t, lease, Failed), HoldsJob(t, lease))
  }

  predicate MayPublish(t: Tables, lease: Lease, now: Time) {
    LiveJob(t, lease, now) && LiveSlot(t, lease, now)
  }

  /** The lease side of an accepted publication. */
  function Complete(t: Tables, lease: Lease, incomplete: bool): Tables {
    CloseJob(t, lease, if incomplete then Partial else Succeeded)
  }

  predicate MayRetry(t: Tables, id: JobId) {
    id in t.jobs && (t.jobs[id].status.Partial? || t.jobs[id].status.Failed?)
  }

  function Retry(t: Tables, id: JobId): Tables
    requires id in t.jobs
  {
    t.(jobs := t.jobs[id := t.jobs[id].(status := Queued)])
  }

  predicate HasIdentity(t: Tables, identity: Identity) {
    exists id :: id in t.jobs && t.jobs[id].identity == identity
  }

  function Insert(t: Tables, id: JobId, identity: Identity, now: Time): Tables {
    t.(jobs := t.jobs[id := Job(identity, now, Queued, 0, None)])
  }

  function Pause(t: Tables, repository: string): Tables {
    t.(jobs := map id | id in t.jobs ::
        if t.jobs[id].identity.repository == repository && (t.jobs[id].status.Queued? || t.jobs[id].status.RetryWait?)
        then t.jobs[id].(status := Cancelled)
        else t.jobs[id])
  }

  /* ---------- the state machine ---------- */

  /**
    `issued` holds every token drawn so far: a drawn token (uuid4) is always new.
    `leases` holds every lease a claim ever returned; workers keep them for as long as they like.
  */
  datatype World = World(t: Tables, now: Time, issued: set<Token>, leases: set<Lease>)

  datatype Step =
    | ClaimStep(at: Time, owner: Owner, token: Token, ttl: int, got: Option<Lease>)
    | HeartbeatStep(at: Time, lease: Lease, ttl: int, alive: bool)
    | FailStep(at: Time, lease: Lease, hit: bool)
    | PublishStep(at: Time, lease: Lease, verdict: Verdict)
    | RetryStep(at: Time, job: JobId)
    | EnqueueStep(at: Time, job: JobId, identity: Identity)
    | PauseStep(at: Time, repository: string)

  /** What the publication transaction answers; `Refused` covers the checks on the snapshot itself. */
  datatype Verdict = LeaseLost | Refused | Accepted(incomplete: bool)

  ghost predicate ClaimEffect(t: Tables, at: Time, owner: Owner, token: Token, ttl: int, got: Option<Lease>, t': Tables) {
    if Unexpired(t.slot, at) then got == None && t' == t
    else if got.None? then t' == t && forall id :: id in t.jobs ==> !Claimable(t.jobs[id], at)
    else
      var id := got.value.job;
      && IsNext(t.jobs, at, id)
      && t' == Claim(t, id, owner, token, at + ttl)
      && got.value == ClaimedLease(t, id, owner, token, at + ttl)
  }

  ghost predicate PublishEffect(t: Tables, at: Time, lease: Lease, verdict: Verdict, t': Tables) {
    && (verdict.LeaseLost? <==> !MayPublish(t, lease, at))
    && t' == if verdict.Accepted? then Complete(t, lease, verdict.incomplete) else t
  }

  ghost predicate EnqueueEffect(t: Tables, at: Time, job: JobId, identity: Identity, t': Tables) {
    if HasIdentity(t, identity) then t' == t
    else job !in t.jobs && t' == Insert(t, job, identity, at)
  }

  ghost predicate Effect(t: Tables, step: Step, t': Tables) {
    match step
    case ClaimStep(at, owner, token, ttl, got) => ClaimEffect(t, at, owner, token, ttl, got, t')
    case HeartbeatStep(at, lease, ttl, alive) => (t', alive) == Heartbeat(t, lease, at, at + ttl)
    case FailStep(at, lease, hit) => (t', hit) == Fail(t, lease)
    case PublishStep(at, lease, verdict) => PublishEffect(t, at, lease, verdict, t')
    case RetryStep(at, job) => t' == if MayRetry(t, job) then Retry(t, job) else t
    case EnqueueStep(at, job, identity) => EnqueueEffect(t, at, job, identity, t')
    case PauseStep(at, repository) => t' == Pause(t, repository)
  }

  predicate UsesLease(step: Step) {
    step.HeartbeatStep? || step.FailStep? || step.PublishStep?
  }

  function Granted(step: Step): set<Lease> {
    if step.ClaimStep? && step.got.Some? then {step.got.value} else {}
  }

  ghost predicate Next(w: World, step: Step, w': World) {
    && w.now <= step.at == w'.now
    && Effect(w.t, step, w'.t)
    && (step.ClaimStep? ==> step.token !in w.issued)
    && (UsesLease(step) ==> step.lease in w.leases)
    && w'.issued == w.issued + (if step.ClaimStep? then {step.token} else {})
    && w'.leases == w.leases + Granted(step)
  }

  /** An execution: worlds[i] --steps[i]--> worlds[i+1]. */
  ghost predicate Run(worlds: seq<World>, steps: seq<Step>) {
    && |worlds| == |steps| + 1
    && forall i :: 0 <= i < |steps| ==> Next(worlds[i], steps[i], worlds[i + 1])
  }

  /* ---------- the invariant ---------- */

  ghost predicate HolderOnlyWhileRunning(t: Tables) {
    forall id :: id in t.jobs ==> (t.jobs[id].status.Running? <==> t.jobs[id].holder.Some?)
  }

  /** No running job has an unexpired lease unless the slot records exactly that lease. */
  ghost predicate UnexpiredOwnsSlot(t: Tables, now: Time) {
    forall id :: id in t.jobs && Unexpired(t.jobs[id].holder, now) ==> t.slot == t.jobs[id].holder
  }

  /** A filled slot always mirrors some running job, expiry included. */
  ghost predicate SlotHasJob(t: Tables) {
    t.slot.Some? ==> exists id :: id in t.jobs && t.jobs[id].holder == t.slot
  }

  /** Tokens identify the lease they were issued with, and no token guards two jobs. */
  ghost predicate TokensDistinct(t: Tables, issued: set<Token>, leases: set<Lease>) {
    && (forall id :: id in t.jobs && t.jobs[id].holder.Some? ==> t.jobs[id].holder.value.token in issued)
    && (forall l :: l in leases ==> l.token in issued)
    && (forall l, id :: l in leases && id in t.jobs && t.jobs[id].holder.Some? && t.jobs[id].holder.value.token == l.token
          ==> id == l.job && t.jobs[id].holder.value.owner == l.owner && t.jobs[id].attempt == l.attempt)
    && (forall a, b ::
          (a in t.jobs && b in t.jobs && t.jobs[a].holder.Some? && t.jobs[b].holder.Some?
           && t.jobs[a].holder.value.token == t.jobs[b].holder.value.token) ==> a == b)
  }

  ghost predicate AttemptsBounded(t: Tables) {
    forall id, n :: (id, n) in t.attempts ==> id in t.jobs && 1 <= n <= t.jobs[id].attempt
  }

  ghost predicate LeaseAttemptsBounded(t: Tables, leases: set<Lease>) {
    forall l :: l in leases ==> l.job in t.jobs && 1 <= l.attempt <= t.jobs[l.job].attempt
  }

  ghost predicate OneJobPerIdentity(t: Tables) {
    forall a, b :: a in t.jobs && b in t.jobs && t.jobs[a].identity == t.jobs[b].identity ==> a == b
  }

  ghost predicate HoldersInv(w: World) {
    && HolderOnlyWhileRunning(w.t)
    && UnexpiredOwnsSlot(w.t, w.now)
    && SlotHasJob(w.t)
    && TokensDistinct(w.t, w.issued, w.leases)
  }

  ghost predicate RowsInv(w: World) {
    && AttemptsBounded(w.t)
    && LeaseAttemptsBounded(w.t, w.leases)
    && OneJobPerIdentity(w.t)
  }

  ghost predicate Inv(w: World) {
    HoldersInv(w) && RowsInv(w)
  }

  lemma ClaimKeepsHolders(w: World, step: Step, w': World)
    requires Inv(w) && step.ClaimStep? && Next(w, step, w')
    ensures HoldersInv(w')
  {
    if !Unexpired(w.t.slot, step.at) && step.got.Some? {
      assert w'.t.jobs[step.got.value.job].holder == w'.t.slot;
    }
  }

  lemma ClaimKeepsRows(w: World, step: Step, w': World)
    requires RowsInv(w) && step.ClaimStep? && Next(w, step, w')
    ensures RowsInv(w')
  {
  }

  /** Under the invariant the two heartbeat updates hit together or not at all. */
  lemma SlotAndJobLiveTogether(w: World, lease: Lease, at: Time)
    requires HoldersInv(w) && w.now <= at && lease in w.leases
    ensures LiveJob(w.t, lease, at) <==> LiveSlot(w.t, lease, at)
  {
    if LiveSlot(w.t, lease, at) {
      var id :| id in w.t.jobs && w.t.jobs[id].holder == w.t.slot;
      assert id == lease.job;
    }
  }

  lemma HeartbeatKeepsHolders(w: World, step: Step, w': World)
    requires HoldersInv(w) && step.HeartbeatStep? && Next(w, step, w')
    ensures HoldersInv(w')
  {
    SlotAndJobLiveTogether(w, step.lease, step.at);
    if LiveJob(w.t, step.lease, step.at) {
      assert w'.t.jobs[step.lease.job].holder == w'.t.slot;
    }
  }

  lemma CloseJobKeepsHolders(w: World, lease: Lease, status: Status, at: Time)
    requires HoldersInv(w) && lease in w.leases && w.now <= at && !status.Running?
    ensures HoldersInv(World(CloseJob(w.t, lease, status), at, w.issued, w.leases))
  {
    var t' := CloseJob(w.t, lease, status);
    if t'.slot.Some? {
      var id :| id in w.t.jobs && w.t.jobs[id].holder == w.t.slot;
      assert t'.jobs[id].holder == t'.slot;
    }
  }

  /** A step that leaves slot, holders and running rows alone keeps the lease part of the invariant. */
  lemma HoldersUntouched(w: World, w': World)
    requires HoldersInv(w) && w.now <= w'.now && w'.t.slot == w.t.slot
    requires w'.issued == w.issued && w'.leases == w.leases && w.t.jobs.Keys <= w'.t.jobs.Keys
    requires forall id :: id in w.t.jobs ==>
      w'.t.jobs[id].holder == w.t.jobs[id].holder && w'.t.jobs[id].attempt == w.t.jobs[id].attempt
      && (w'.t.jobs[id].status.Running? <==> w.t.jobs[id].status.Running?)
    requires forall id :: id in w'.t.jobs && id !in w.t.jobs ==> w'.t.jobs[id].holder.None? && !w'.t.jobs[id].status.Running?
    ensures HoldersInv(w')
  {
    if w'.t.slot.Some? {
      var id :| id in w.t.jobs && w.t.jobs[id].holder == w.t.slot;
      assert w'.t.jobs[id].holder == w'.t.slot;
    }
  }

  lemma PauseRows(t: Tables, repository: string)
    ensures var t' := Pause(t, repository);
      t'.jobs.Keys == t.jobs.Keys && forall id :: id in t.jobs ==>
        t'.jobs[id].holder == t.jobs[id].holder && t'.jobs[id].identity == t.jobs[id].identity
        && t'.jobs[id].attempt == t.jobs[id].attempt && (t'.jobs[id].status.Running? <==> t.jobs[id].status.Running?)
  {
  }

  /** No step touches the identity of a row, and attempt numbers only grow. */
  lemma RowsKept(w: World, step: Step, w': World)
    requires Next(w, step, w')
    ensures forall id :: id in w.t.jobs ==>
      (&& id in w'.t.jobs && w'.t.jobs[id].identity == w.t.jobs[id].identity
       && w.t.jobs[id].attempt <= w'.t.jobs[id].attempt)
    ensures forall id :: id in w'.t.jobs && id !in w.t.jobs ==>
      (&& step.EnqueueStep? && id == step.job && w'.t.jobs[id].identity == step.identity
       && !HasIdentity(w.t, step.identity))
    ensures !step.ClaimStep? ==> w'.t.attempts.Keys == w.t.attempts.Keys
  {
  }

  lemma NextKeepsRows(w: World, step: Step, w': World)
    requires RowsInv(w) && Next(w, step, w')
    ensures RowsInv(w')
  {
    RowsKept(w, step, w');
    if step.ClaimStep? {
      ClaimKeepsRows(w, step, w');
    } else {
      assert forall id, n :: (id, n) in w'.t.attempts ==> (id, n) in w.t.attempts;
    }
  }

  lemma NextKeepsHolders(w: World, step: Step, w': World)
    requires Inv(w) && Next(w, step, w')
    ensures HoldersInv(w')
  {
    match step
    case ClaimStep(_, _, _, _, _) => ClaimKeepsHolders(w, step, w');
    case HeartbeatStep(_, _, _, _) => HeartbeatKeepsHolders(w, step, w');
    case FailStep(at, lease, _) => CloseJobKeepsHolders(w, lease, Failed, at);
    case PublishStep(at, lease, verdict) =>
      CloseJobKeepsHolders(w, lease, if verdict == Accepted(true) then Partial else Succeeded, at);
    case RetryStep(_, _) => HoldersUntouched(w, w');
    case EnqueueStep(_, _, _) => HoldersUntouched(w, w');
    case PauseStep(_, repository) =>
      PauseRows(w.t, repository);
      HoldersUntouched(w, w');
  }

  lemma NextKeepsInv(w: World, step: Step, w': World)
    requires Inv(w) && Next(w, step, w')
    ensures Inv(w')
  {
    NextKeepsHolders(w, step, w');
    NextKeepsRows(w, step, w');
  }

  lemma {:induction false} RunKeepsInv(worlds: seq<World>, steps: seq<Step>, i: nat)
    requires Run(worlds, steps) && i < |worlds| && Inv(worlds[0])
    ensures Inv(worlds[i])
  {
    if i > 0 {
      RunKeepsInv(worlds, steps, i - 1);
      NextKeepsInv(worlds[i - 1], steps[i - 1], worlds[i]);
    }
  }

  /* ---------- mutual exclusion ---------- */

  /** In every reachable world at most one job runs under an unexpired lease, and the slot shows it. */
  lemma OneUnexpiredJob(worlds: seq<World>, steps: seq<Step>, i: nat, a: JobId, b: JobId)
    requires Run(worlds, steps) && i < |worlds| && Inv(worlds[0])
    requires a in worlds[i].t.jobs && Unexpired(worlds[i].t.jobs[a].holder, worlds[i].now)
    requires b in worlds[i].t.jobs && Unexpired(worlds[i].t.jobs[b].holder, worlds[i].now)
    ensures a == b && worlds[i].t.jobs[a].status.Running? && worlds[i].t.slot == worlds[i].t.jobs[a].holder
  {
    RunKeepsInv(worlds, steps, i);
  }

  /** A filled slot is never an orphan: exactly one job, a running one, carries its owner, token and expiry. */
  lemma SlotNamesItsJob(worlds: seq<World>, steps: seq<Step>, i: nat)
    requires Run(worlds, steps) && i < |worlds| && Inv(worlds[0]) && worlds[i].t.slot.Some?
    ensures exists id :: id in worlds[i].t.jobs && worlds[i].t.jobs[id].status.Running?
                         && worlds[i].t.jobs[id].holder == worlds[i].t.slot
                         && forall o :: o in worlds[i].t.jobs && worlds[i].t.jobs[o].holder == worlds[i].t.slot ==> o == id
  {
    RunKeepsInv(worlds, steps, i);
    var t := worlds[i].t;
    var id :| id in t.jobs && t.jobs[id].holder == t.slot;
    assert t.jobs[id].status.Running?;
  }

  /* ---------- an expired or superseded lease is dead for good ---------- */

  lemma DeadStep(w: World, step: Step, w': World, lease: Lease)
    requires Inv(w) && Next(w, step, w') && lease in w.leases && !LiveJob(w.t, lease, w.now)
    ensures !LiveJob(w'.t, lease, w'.now)
  {
    if step.HeartbeatStep? && step.lease.job == lease.job && LiveJob(w.t, step.lease, step.at) {
      assert step.lease.token == w.t.jobs[lease.job].holder.value.token;
      assert step.lease.owner == w.t.jobs[lease.job].holder.value.owner;
    }
  }

  lemma LeasesAccumulate(worlds: seq<World>, steps: seq<Step>, i: nat, j: nat)
    requires Run(worlds, steps) && i <= j < |worlds|
    ensures worlds[i].leases <= worlds[j].leases && worlds[i].issued <= worlds[j].issued && worlds[i].now <= worlds[j].now
    decreases j
  {
    if i < j {
      LeasesAccumulate(worlds, steps, i, j - 1);
      assert Next(worlds[j - 1], steps[j - 1], worlds[j]);
    }
  }

  lemma {:induction false} DeadForever(worlds: seq<World>, steps: seq<Step>, i: nat, j: nat, lease: Lease)
    requires Run(worlds, steps) && i <= j < |worlds| && Inv(worlds[0])
    requires lease in worlds[i].leases && !LiveJob(worlds[i].t, lease, worlds[i].now)
    ensures !LiveJob(worlds[j].t, lease, worlds[j].now)
    decreases j
  {
    if i < j {
      DeadForever(worlds, steps, i, j - 1, lease);
      LeasesAccumulate(worlds, steps, i, j - 1);
      RunKeepsInv(worlds, steps, j - 1);
      DeadStep(worlds[j - 1], steps[j - 1], worlds[j], lease);
    }
  }

  /** Once expired, closed or superseded, a lease is never revived by a heartbeat and never publishes. */
  lemma DeadLeaseNeverActs(worlds: seq<World>, steps: seq<Step>, i: nat, j: nat, lease: Lease)
    requires Run(worlds, steps) && i <= j < |steps| && Inv(worlds[0])
    requires lease in worlds[i].leases && !LiveJob(worlds[i].t, lease, worlds[i].now)
    ensures steps[j].HeartbeatStep? && steps[j].lease == lease ==> !steps[j].alive && worlds[j + 1].t == worlds[j].t
    ensures steps[j].PublishStep? && steps[j].lease == lease ==> steps[j].verdict.LeaseLost? && worlds[j + 1].t == worlds[j].t
  {
    DeadForever(worlds, steps, i, j, lease);
    LeasesAccumulate(worlds, steps, i, j);
    RunKeepsInv(worlds, steps, j);
    assert Next(worlds[j], steps[j], worlds[j + 1]);
    SlotAndJobLiveTogether(worlds[j], lease, steps[j].at);
    assert !LiveJob(worlds[j].t, lease, steps[j].at);
  }

  /* ---------- fencing ---------- */

  /** While a lease stays live across a step, that step neither claims a job nor publishes for anyone else. */
  lemma LiveLeaseExcludes(w: World, step: Step, w': World, lease: Lease)
    requires Inv(w) && Next(w, step, w') && lease in w.leases && LiveJob(w'.t, lease, w'.now)
    ensures step.ClaimStep? ==> step.got.None?
    ensures !(step.PublishStep? && step.verdict.Accepted?)
  {
    NextKeepsInv(w, step, w');
    assert w'.t.slot == w'.t.jobs[lease.job].holder;
  }

  /**
    From the claim that issued a lease up to the publication it makes, no other
    claim succeeds and no other publication is accepted.
  */
  lemma PublishIsFenced(worlds: seq<World>, steps: seq<Step>, i: nat, k: nat, j: nat)
    requires Run(worlds, steps) && i < k < j < |steps| && Inv(worlds[0])
    requires steps[i].ClaimStep? && steps[i].got.Some?
    requires steps[j].PublishStep? && steps[j].lease == steps[i].got.value && steps[j].verdict.Accepted?
    ensures steps[k].ClaimStep? ==> steps[k].got.None?
    ensures !(steps[k].PublishStep? && steps[k].verdict.Accepted?)
  {
    var lease := steps[i].got.value;
    assert Next(worlds[i], steps[i], worlds[i + 1]);
    assert lease in worlds[i + 1].leases;
    LeasesAccumulate(worlds, steps, i + 1, k);
    LeasesAccumulate(worlds, steps, i + 1, k + 1);
    if !LiveJob(worlds[k + 1].t, lease, worlds[k + 1].now) {
      DeadLeaseNeverActs(worlds, steps, k + 1, j, lease);
    }
    RunKeepsInv(worlds, steps, k);
    LiveLeaseExcludes(worlds[k], steps[k], worlds[k + 1], lease);
  }

  /* ---------- attempts ---------- */

  lemma AttemptsNeverShrink(worlds: seq<World>, steps: seq<Step>, i: nat, j: nat, id: JobId)
    requires Run(worlds, steps) && i <= j < |worlds| && id in worlds[i].t.jobs
    ensures id in worlds[j].t.jobs && worlds[i].t.jobs[id].attempt <= worlds[j].t.jobs[id].attempt
    ensures worlds[i].t.jobs[id].identity == worlds[j].t.jobs[id].identity
    decreases j
  {
    if i < j {
      AttemptsNeverShrink(worlds, steps, i, j - 1, id);
      assert Next(worlds[j - 1], steps[j - 1], worlds[j]);
    }
  }

  /** Every later claim of the same job gets a strictly larger attempt number and another token. */
  lemma ClaimsAreNumbered(worlds: seq<World>, steps: seq<Step>, i: nat, j: nat)
    requires Run(worlds, steps) && i < j < |steps| && Inv(worlds[0])
    requires steps[i].ClaimStep? && steps[i].got.Some? && steps[j].ClaimStep? && steps[j].got.Some?
    ensures steps[i].got.value.token != steps[j].got.value.token
    ensures steps[i].got.value.job == steps[j].got.value.job ==> steps[i].got.value.attempt < steps[j].got.value.attempt
  {
    assert Next(worlds[i], steps[i], worlds[i + 1]);
    assert Next(worlds[j], steps[j], worlds[j + 1]);
    LeasesAccumulate(worlds, steps, i + 1, j);
    var id := steps[i].got.value.job;
    AttemptsNeverShrink(worlds, steps, i + 1, j, id);
  }

  /* ---------- releasing ---------- */

  ghost predicate TokenGone(t: Tables, token: Token) {
    && (t.slot.Some? ==> t.slot.value.token != token)
    && forall id :: id in t.jobs && t.jobs[id].holder.Some? ==> t.jobs[id].holder.value.token != token
  }

  lemma ClosingReleases(w: World, step: Step, w': World)
    requires Inv(w) && Next(w, step, w')
    requires step.FailStep? || (step.PublishStep? && step.verdict.Accepted?)
    ensures TokenGone(w'.t, step.lease.token)
  {
    if w.t.slot.Some? {
      var id :| id in w.t.jobs && w.t.jobs[id].holder == w.t.slot;
    }
  }

  lemma {:induction false} TokenStaysGone(worlds: seq<World>, steps: seq<Step>, i: nat, j: nat, token: Token)
    requires Run(worlds, steps) && i <= j < |worlds|
    requires token in worlds[i].issued && TokenGone(worlds[i].t, token)
    ensures TokenGone(worlds[j].t, token)
    decreases j
  {
    if i < j {
      TokenStaysGone(worlds, steps, i, j - 1, token);
      LeasesAccumulate(worlds, steps, i, j - 1);
      assert Next(worlds[j - 1], steps[j - 1], worlds[j]);
      GoneStep(worlds[j - 1], steps[j - 1], worlds[j], token);
    }
  }

  lemma GoneStep(w: World, step: Step, w': World, token: Token)
    requires Next(w, step, w') && token in w.issued && TokenGone(w.t, token)
    ensures TokenGone(w'.t, token)
  {
    if step.PauseStep? {
      assert forall id :: id in w.t.jobs ==> w'.t.jobs[id].holder == w.t.jobs[id].holder;
    }
  }

  /**
    A worker's run ends in an accepted publication or in fail_job. Whatever other
    workers did in between and do afterwards, its token is then held nowhere.
  */
  lemma FinishedWorkerHoldsNothing(worlds: seq<World>, steps: seq<Step>, j: nat, k: nat)
    requires Run(worlds, steps) && j < k < |worlds| && Inv(worlds[0])
    requires steps[j].FailStep? || (steps[j].PublishStep? && steps[j].verdict.Accepted?)
    ensures TokenGone(worlds[k].t, steps[j].lease.token)
    ensures !HoldsJob(worlds[k].t, steps[j].lease)
  {
    RunKeepsInv(worlds, steps, j);
    assert Next(worlds[j], steps[j], worlds[j + 1]);
    ClosingReleases(worlds[j], steps[j], worlds[j + 1]);
    TokenStaysGone(worlds, steps, j + 1, k, steps[j].lease.token);
  }

  /* ---------- one job per build identity ---------- */

  ghost function Identities(t: Tables): set<Identity> {
    set id | id in t.jobs :: t.jobs[id].identity
  }

  function Requested(steps: seq<Step>): set<Identity> {
    set i | 0 <= i < |steps| && steps[i].EnqueueStep? :: steps[i].identity
  }

  lemma IdentitiesStep(w: World, step: Step, w': World)
    requires Next(w, step, w')
    ensures Identities(w'.t) == Identities(w.t) + (if step.EnqueueStep? then {step.identity} else {})
  {
    var t, t' := w.t, w'.t;
    forall identity | identity in Identities(t) ensures identity in Identities(t') {
      var id :| id in t.jobs && t.jobs[id].identity == identity;
      assert id in t'.jobs && t'.jobs[id].identity == identity;
    }
    if step.EnqueueStep? {
      if HasIdentity(t, step.identity) {
        var id :| id in t.jobs && t.jobs[id].identity == step.identity;
      } else {
        assert t'.jobs[step.job].identity == step.identity;
      }
    }
  }

  /** Any history of enqueues creates exactly one job for each distinct identity, and no other job. */
  lemma {:induction false} OneJobPerRequestedIdentity(worlds: seq<World>, steps: seq<Step>)
    requires Run(worlds, steps) && Inv(worlds[0])
    ensures Identities(worlds[|steps|].t) == Identities(worlds[0].t) + Requested(steps)
    ensures OneJobPerIdentity(worlds[|steps|].t)
  {
    RunKeepsInv(worlds, steps, |steps|);
    if |steps| > 0 {
      var n := |steps| - 1;
      OneJobPerRequestedIdentity(worlds[..|steps|], steps[..n]);
      assert Next(worlds[n], steps[n], worlds[n + 1]);
      IdentitiesStep(worlds[n], steps[n], worlds[n + 1]);
      assert steps == steps[..n] + [steps[n]];
      assert Requested(steps) == Requested(steps[..n]) + (if steps[n].EnqueueStep? then {steps[n].identity} else {});
    }
  }
}
