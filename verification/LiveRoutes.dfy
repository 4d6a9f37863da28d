/**
  The receiving side of a handoff: deliveries, the plans they create, and the
  single execution a plan may be bound to. Each transaction is one step.
*/
module LiveRoutes {
  import opened Prelude

  datatype Ref = Ref(intent: string, revision: int, digest: string, session: string, incident: string)
  datatype Phase = Stop | Main

  /** The idempotency key: a hash of exactly these two, so equal keys mean equal contents. */
  datatype Key = Key(ref: Ref, phase: Phase)

  datatype Route = Answer | ToPlan | Control
  datatype Operation = ReadStatus | Cancel

  /** A bound task; the state version travels as the decimal text of the plan's version. */
  datatype Task = Task(id: string, version: int)
  datatype Request = Request(key: Key, ref: Ref, route: Route, phase: Phase, operation: Operation, task: Option<Task>)

  datatype Progress = Accepted | Completed | Failed
  datatype Receipt = Receipt(id: string, key: Key, ref: Ref, route: Route, phase: Phase, progress: Progress, downstream: string)
  datatype Delivery = Delivery(session: string, request: Request, receipt: Receipt)

  /** A generated plan as it is stored, with the status and the hash it claims for itself. */
  datatype Definition = Definition(status: string, claimed: string, content: string)
  datatype Plan = Plan(session: string, status: string, version: int, payload: Definition)

  /** A run's identity is a hash of the plan, the version it was requested at and the plan's content. */
  datatype RunId = RunId(plan: string, version: int, digest: string)
  datatype Execution = Execution(requested: int, run: RunId)

  datatype Routes = Routes(deliveries: map<Key, Delivery>, plans: map<string, Plan>, executions: map<string, Execution>)

  datatype Failure =
    | NotAccessible | TaskChanged | NoBinding | IdentityTaken | NotCurrent
    | PlanChanged | VersionMismatch | NotStartable | NoSuchPlan | NotAdmitted | BadVersion

  const DRAFT := "draft"
  const EXECUTING := "executing"
  const CANCELLED := "cancelled"
  const ENDED := {"completed", "failed", "cancelled"}

  predicate IsRun(task: Task) { "run:" <= task.id }

  /* ---------- the transactions as functions ---------- */

  predicate Refreshes(d: Delivery, runStatus: string) {
    && d.receipt.progress.Accepted? && d.receipt.route.Control?
    && d.request.task.Some? && IsRun(d.request.task.value) && runStatus in ENDED
  }

  /** lookup: an accepted run cancellation completes once the run has ended. */
  function Refreshed(r: Routes, key: Key, runStatus: string): Routes {
    if key in r.deliveries && Refreshes(r.deliveries[key], runStatus) then
      r.(deliveries := r.deliveries[key := r.deliveries[key].(receipt := r.deliveries[key].receipt.(progress := Completed))])
    else r
  }

  function Row(request: Request, receiptId: string, progress: Progress, downstream: string): Delivery {
    Delivery(request.ref.session, request,
             Receipt(receiptId, request.key, request.ref, request.route, request.phase, progress, downstream))
  }

  /** The plan rows after a control request on a plan of this session, or why it is refused. */
  function Controlled(plans: map<string, Plan>, request: Request, task: Task): Result<map<string, Plan>, Failure> {
    if task.id !in plans || plans[task.id].session != request.ref.session then Err(NotAccessible)
    else if plans[task.id].version != task.version then Err(TaskChanged)
    else if request.operation.Cancel? && plans[task.id].status != CANCELLED then
      Ok(plans[task.id := plans[task.id].(status := CANCELLED, version := plans[task.id].version + 1)])
    else Ok(plans)
  }

  /** The acceptance transaction of submit: one delivery row, with its plan insert or plan cancel. */
  function Accept(r: Routes, request: Request, generated: Definition, downstream: string, receiptId: string, runStatus: string)
    : Result<(Routes, Receipt), Failure>
  {
    if request.key in r.deliveries then Ok((r, r.deliveries[request.key].receipt))
    else match request.route
      case Answer =>
        var d := Row(request, receiptId, Completed, downstream);
        Ok((r.(deliveries := r.deliveries[request.key := d]), d.receipt))
      case ToPlan =>
        if downstream in r.plans then Err(IdentityTaken)
        else
          var d := Row(request, receiptId, Completed, downstream);
          Ok((r.(deliveries := r.deliveries[request.key := d],
                 plans := r.plans[downstream := Plan(request.ref.session, generated.status, 1, generated)]), d.receipt))
      case Control =>
        if request.task.None? then Err(NoBinding)
        else if IsRun(request.task.value) then
          var progress := if request.operation.Cancel? && runStatus !in ENDED then Accepted else Completed;
          var d := Row(request, receiptId, progress, downstream);
          Ok((r.(deliveries := r.deliveries[request.key := d]), d.receipt))
        else match Controlled(r.plans, request, request.task.value)
          case Err(f) => Err(f)
          case Ok(plans) =>
            var d := Row(request, receiptId, Completed, downstream);
            Ok((r.(deliveries := r.deliveries[request.key := d], plans := plans), d.receipt))
  }

  /** The first transaction of execute_plan, on a plan whose payload was read and admitted before. */
  function Begin(r: Routes, plan: string, session: string, expected: int, seen: Definition, digest: string): Result<(Routes, RunId), Failure> {
    if plan !in r.plans || r.plans[plan].session != session || r.plans[plan].payload != seen then Err(PlanChanged)
    else if plan in r.executions then
      if r.executions[plan].requested != expected then Err(VersionMismatch)
      else Ok((r, r.executions[plan].run))
    else if r.plans[plan].version != expected || r.plans[plan].status != DRAFT then Err(NotStartable)
    else
      var run := RunId(plan, expected, digest);
      Ok((r.(executions := r.executions[plan := Execution(expected, run)],
             plans := r.plans[plan := r.plans[plan].(status := EXECUTING, version := r.plans[plan].version + 1)]), run))
  }

  /** The last update of execute_plan. */
  function Finish(r: Routes, plan: string, status: string): Routes {
    if plan in r.plans && r.plans[plan].status != status && r.plans[plan].status != CANCELLED
    then r.(plans := r.plans[plan := r.plans[plan].(status := status, version := r.plans[plan].version + 1)])
    else r
  }

  datatype Step =
    | AcceptStep(request: Request, generated: Definition, downstream: string, receiptId: string, runStatus: string)
    | RefreshStep(key: Key, runState: string)
    | BeginStep(plan: string, session: string, expected: int, seen: Definition, digest: string)
    | FinishStep(finished: string, outcome: string)

  function Next(r: Routes, step: Step): Routes {
    match step
    case AcceptStep(request, generated, downstream, receiptId, runStatus) =>
      var after := Accept(r, request, generated, downstream, receiptId, runStatus);
      if after.Ok? then after.value.0 else r
    case RefreshStep(key, runState) => Refreshed(r, key, runState)
    case BeginStep(plan, session, expected, seen, digest) =>
      var after := Begin(r, plan, session, expected, seen, digest);
      if after.Ok? then after.value.0 else r
    case FinishStep(plan, outcome) => Finish(r, plan, outcome)
  }

  function Run(r: Routes, steps: seq<Step>): Routes
    decreases |steps|
  {
    if steps == [] then r else Run(Next(r, steps[0]), steps[1..])
  }

  /* ---------- one plan through one step ---------- */

  /** All that a step may do to a plan: nothing, or one status change that is counted in the version. */
  ghost predicate PlanEvolves(p: Plan, p': Plan) {
    && p'.session == p.session && p'.payload == p.payload
    && (p'.status == p.status ==> p' == p)
    && (p'.status != p.status ==> p.status != CANCELLED && p'.version == p.version + 1)
  }

  lemma PlanStep(r: Routes, step: Step, plan: string)
    requires plan in r.plans
    ensures plan in Next(r, step).plans && PlanEvolves(r.plans[plan], Next(r, step).plans[plan])
  {
  }

  lemma PlanBorn(r: Routes, step: Step, plan: string)
    requires plan !in r.plans && plan in Next(r, step).plans
    ensures Next(r, step).plans[plan].version == 1
    ensures step.AcceptStep? && step.request.route.ToPlan? && step.downstream == plan
    ensures step.request.key !in r.deliveries && step.request.key in Next(r, step).deliveries
    ensures Next(r, step).deliveries[step.request.key].receipt.downstream == plan
    ensures Next(r, step).plans[plan].payload == step.generated && Next(r, step).plans[plan].status == step.generated.status
  {
  }

  /** An execution row appears only when its plan is a draft at the requested version, which it leaves in the same step. */
  lemma FirstExecutionFromDraft(r: Routes, step: Step, plan: string)
    requires plan !in r.executions && plan in Next(r, step).executions
    ensures plan in r.plans && r.plans[plan].status == DRAFT
    ensures r.plans[plan].version == Next(r, step).executions[plan].requested
    ensures Next(r, step).plans[plan].status == EXECUTING && Next(r, step).plans[plan].version == r.plans[plan].version + 1
    ensures Next(r, step).executions[plan].run.plan == plan && Next(r, step).executions[plan].run.version == r.plans[plan].version
  {
  }

  /* ---------- whole runs ---------- */

  /** How often the plan's status changes along a run. */
  function StatusChanges(r: Routes, steps: seq<Step>, plan: string): nat
    decreases |steps|
  {
    if steps == [] then 0
    else
      var r' := Next(r, steps[0]);
      (if plan in r.plans && plan in r'.plans && r'.plans[plan].status != r.plans[plan].status then 1 else 0)
      + StatusChanges(r', steps[1..], plan)
  }

  lemma {:induction false} VersionGrowsByChanges(r: Routes, steps: seq<Step>, plan: string)
    requires plan in r.plans
    ensures plan in Run(r, steps).plans
    ensures Run(r, steps).plans[plan].version == r.plans[plan].version + StatusChanges(r, steps, plan)
    decreases |steps|
  {
    if steps != [] {
      PlanStep(r, steps[0], plan);
      VersionGrowsByChanges(Next(r, steps[0]), steps[1..], plan);
    }
  }

  /** A plan's version is one more than the number of times its status has changed since it was created. */
  lemma {:induction false} VersionCountsChanges(r: Routes, steps: seq<Step>, plan: string)
    requires plan !in r.plans && plan in Run(r, steps).plans
    ensures Run(r, steps).plans[plan].version == 1 + StatusChanges(r, steps, plan)
    decreases |steps|
  {
    if steps != [] {
      var r' := Next(r, steps[0]);
      if plan in r'.plans {
        PlanBorn(r, steps[0], plan);
        VersionGrowsByChanges(r', steps[1..], plan);
      } else {
        VersionCountsChanges(r', steps[1..], plan);
      }
    }
  }

  lemma {:induction false} PlanForever(r: Routes, steps: seq<Step>, plan: string)
    requires plan in r.plans
    ensures plan in Run(r, steps).plans
    ensures var p, p' := r.plans[plan], Run(r, steps).plans[plan];
      && p'.session == p.session && p'.payload == p.payload && p'.version >= p.version
      && (p.status == CANCELLED ==> p' == p)
      && (p'.version == p.version ==> p' == p)
    decreases |steps|
  {
    if steps != [] {
      PlanStep(r, steps[0], plan);
      PlanForever(Next(r, steps[0]), steps[1..], plan);
    }
  }

  /** An execution is bound to its plan for ever: same requested version, same run. */
  lemma {:induction false} BoundForever(r: Routes, steps: seq<Step>, plan: string)
    requires plan in r.executions
    ensures plan in Run(r, steps).executions && Run(r, steps).executions[plan] == r.executions[plan]
    decreases |steps|
  {
    if steps != [] {
      BoundForever(Next(r, steps[0]), steps[1..], plan);
    }
  }

  /** However many executions are requested, concurrently or later, a plan yields one run. */
  lemma OneRunPerPlan(r: Routes, steps: seq<Step>, first: Step, second: Step)
    requires first.BeginStep? && second.BeginStep? && first.plan == second.plan
    requires Begin(r, first.plan, first.session, first.expected, first.seen, first.digest).Ok?
    requires var r' := Run(Next(r, first), steps); Begin(r', second.plan, second.session, second.expected, second.seen, second.digest).Ok?
    ensures var r' := Run(Next(r, first), steps);
      && Begin(r', second.plan, second.session, second.expected, second.seen, second.digest).value
         == (r', Begin(r, first.plan, first.session, first.expected, first.seen, first.digest).value.1)
      && second.expected == first.expected
  {
    BoundForever(Next(r, first), steps, first.plan);
  }

  /** A draft that was cancelled before anyone executed it is never executed. */
  lemma {:induction false} CancelledNeverStarts(r: Routes, steps: seq<Step>, plan: string)
    requires plan in r.plans && r.plans[plan].status == CANCELLED && plan !in r.executions
    ensures plan !in Run(r, steps).executions
    decreases |steps|
  {
    if steps != [] {
      PlanStep(r, steps[0], plan);
      if plan in Next(r, steps[0]).executions {
        FirstExecutionFromDraft(r, steps[0], plan);
      }
      CancelledNeverStarts(Next(r, steps[0]), steps[1..], plan);
    }
  }

  /** Between reading a plan and beginning it, its payload cannot have changed: only a wrong session or an unknown plan is refused there. */
  lemma SeenIsStillThere(r: Routes, steps: seq<Step>, plan: string, session: string, expected: int, digest: string)
    requires plan in r.plans && r.plans[plan].session == session
    ensures Begin(Run(r, steps), plan, session, expected, r.plans[plan].payload, digest) != Err(PlanChanged)
  {
    PlanForever(r, steps, plan);
  }

  /* ---------- deliveries ---------- */

  /** A delivery keeps its request and its receipt; the only change is that an accepted one completes. */
  ghost predicate DeliveryEvolves(d: Delivery, d': Delivery) {
    d' == d || (d.receipt.progress.Accepted? && d' == d.(receipt := d.receipt.(progress := Completed)))
  }

  lemma {:induction false} DeliveredOnce(r: Routes, steps: seq<Step>, key: Key)
    requires key in r.deliveries
    ensures key in Run(r, steps).deliveries && DeliveryEvolves(r.deliveries[key], Run(r, steps).deliveries[key])
    decreases |steps|
  {
    if steps != [] {
      DeliveredOnce(Next(r, steps[0]), steps[1..], key);
    }
  }

  /** Rows agree with each other: a delivery repeats its request's key, and every plan was inserted with a delivery that names it. */
  ghost predicate RoutesInv(r: Routes) {
    && DeliveriesInv(r.deliveries, r.plans) && PlansInv(r.deliveries, r.plans)
    && ExecutionsInv(r.plans, r.executions) && CancelsInv(r.deliveries, r.plans)
  }

  /** A delivered request to cancel a plan. */
  predicate CancelsPlan(d: Delivery) {
    d.request.route.Control? && d.request.operation.Cancel? && d.request.task.Some? && !IsRun(d.request.task.value)
  }

  predicate IsCancelled(plans: map<string, Plan>, plan: string) { plan in plans && plans[plan].status == CANCELLED }

  /** Every delivered cancel has its plan cancelled. */
  ghost predicate CancelsInv(deliveries: map<Key, Delivery>, plans: map<string, Plan>) {
    forall key :: key in deliveries && CancelsPlan(deliveries[key]) ==> IsCancelled(plans, deliveries[key].request.task.value.id)
  }

  ghost predicate DeliveriesInv(deliveries: map<Key, Delivery>, plans: map<string, Plan>) {
    && (forall key :: key in deliveries ==> Consistent(deliveries[key], key))
    && (forall key :: Creates(deliveries, key) ==> Created(deliveries, key) in plans)
    && (forall k1, k2 :: Creates(deliveries, k1) && Creates(deliveries, k2) && Created(deliveries, k1) == Created(deliveries, k2) ==> k1 == k2)
  }

  ghost predicate PlansInv(deliveries: map<Key, Delivery>, plans: map<string, Plan>) {
    forall plan :: plan in plans ==> exists key :: Creates(deliveries, key) && Created(deliveries, key) == plan
  }

  ghost predicate ExecutionsInv(plans: map<string, Plan>, executions: map<string, Execution>) {
    forall plan :: plan in executions ==> plan in plans && executions[plan].requested < plans[plan].version
  }

  predicate Creates(deliveries: map<Key, Delivery>, key: Key) { key in deliveries && deliveries[key].request.route.ToPlan? }

  function Created(deliveries: map<Key, Delivery>, key: Key): string
    requires key in deliveries
  {
    deliveries[key].receipt.downstream
  }

  predicate Consistent(d: Delivery, key: Key) {
    && d.request.key == key && d.receipt.key == key
    && d.receipt.ref == d.request.ref && d.receipt.route == d.request.route && d.receipt.phase == d.request.phase
    && d.session == d.request.ref.session
    && (d.receipt.progress.Accepted? ==> d.request.route.Control? && d.request.operation.Cancel?)
  }

  lemma CreatorStays(r: Routes, step: Step, key: Key)
    requires Creates(r.deliveries, key)
    ensures Creates(Next(r, step).deliveries, key) && Created(Next(r, step).deliveries, key) == Created(r.deliveries, key)
  {
  }

  /** The converse: a step adds a creating delivery only together with the plan it names. */
  lemma CreatorBorn(r: Routes, step: Step, key: Key)
    requires !Creates(r.deliveries, key) && Creates(Next(r, step).deliveries, key)
    ensures step.AcceptStep? && step.request.key == key && step.downstream == Created(Next(r, step).deliveries, key)
    ensures step.downstream !in r.plans && step.downstream in Next(r, step).plans
  {
  }

  lemma EveryPlanHasACreator(r: Routes, step: Step, plan: string)
    requires RoutesInv(r) && plan in Next(r, step).plans
    ensures exists key :: Creates(Next(r, step).deliveries, key) && Created(Next(r, step).deliveries, key) == plan
  {
    if plan in r.plans {
      var key :| Creates(r.deliveries, key) && Created(r.deliveries, key) == plan;
      CreatorStays(r, step, key);
    } else {
      PlanBorn(r, step, plan);
      assert Creates(Next(r, step).deliveries, step.request.key);
    }
  }

  lemma OneCreator(r: Routes, step: Step, k1: Key, k2: Key)
    requires RoutesInv(r) && Creates(Next(r, step).deliveries, k1) && Creates(Next(r, step).deliveries, k2)
    requires Created(Next(r, step).deliveries, k1) == Created(Next(r, step).deliveries, k2)
    ensures k1 == k2
  {
    if Creates(r.deliveries, k1) {
      CreatorStays(r, step, k1);
    } else {
      CreatorBorn(r, step, k1);
    }
    if Creates(r.deliveries, k2) {
      CreatorStays(r, step, k2);
    } else {
      CreatorBorn(r, step, k2);
    }
  }

  lemma RowStep(r: Routes, step: Step, key: Key)
    requires key in Next(r, step).deliveries
    requires key in r.deliveries ==> Consistent(r.deliveries[key], key)
    ensures Consistent(Next(r, step).deliveries[key], key)
  {
  }

  /** Only the acceptance of its own request adds a delivery. */
  lemma NewDelivery(r: Routes, step: Step, key: Key)
    requires key !in r.deliveries && key in Next(r, step).deliveries
    ensures step.AcceptStep? && step.request.key == key && Next(r, step).deliveries[key].request == step.request
  {
  }

  lemma CreatedPlanStays(r: Routes, step: Step, key: Key)
    requires Creates(r.deliveries, key) ==> Created(r.deliveries, key) in r.plans
    requires Creates(Next(r, step).deliveries, key)
    ensures Created(Next(r, step).deliveries, key) in Next(r, step).plans
  {
    if Creates(r.deliveries, key) {
      CreatorStays(r, step, key);
      PlanStep(r, step, Created(r.deliveries, key));
    } else {
      CreatorBorn(r, step, key);
    }
  }

  lemma ExecutionStep(r: Routes, step: Step, plan: string)
    requires plan in Next(r, step).executions
    requires plan in r.executions ==> plan in r.plans && r.executions[plan].requested < r.plans[plan].version
    ensures plan in Next(r, step).plans && Next(r, step).executions[plan].requested < Next(r, step).plans[plan].version
  {
    if plan in r.executions {
      PlanStep(r, step, plan);
    } else {
      FirstExecutionFromDraft(r, step, plan);
    }
  }

  lemma CancelStep(r: Routes, step: Step, key: Key)
    requires CancelsInv(r.deliveries, r.plans) && key in Next(r, step).deliveries && CancelsPlan(Next(r, step).deliveries[key])
    ensures IsCancelled(Next(r, step).plans, Next(r, step).deliveries[key].request.task.value.id)
  {
    if key in r.deliveries {
      assert CancelsPlan(r.deliveries[key]) && Next(r, step).deliveries[key].request == r.deliveries[key].request;
      PlanStep(r, step, r.deliveries[key].request.task.value.id);
    }
  }

  lemma NextKeepsRoutes(r: Routes, step: Step)
    requires RoutesInv(r)
    ensures RoutesInv(Next(r, step))
  {
    forall key | key in Next(r, step).deliveries ensures Consistent(Next(r, step).deliveries[key], key) {
      RowStep(r, step, key);
    }
    forall key | Creates(Next(r, step).deliveries, key) ensures Created(Next(r, step).deliveries, key) in Next(r, step).plans {
      CreatedPlanStays(r, step, key);
    }
    forall key | key in Next(r, step).deliveries && CancelsPlan(Next(r, step).deliveries[key])
      ensures IsCancelled(Next(r, step).plans, Next(r, step).deliveries[key].request.task.value.id)
    {
      CancelStep(r, step, key);
    }
    forall plan | plan in Next(r, step).plans
      ensures exists key :: Creates(Next(r, step).deliveries, key) && Created(Next(r, step).deliveries, key) == plan
    {
      EveryPlanHasACreator(r, step, plan);
    }
    forall k1, k2 | Creates(Next(r, step).deliveries, k1) && Creates(Next(r, step).deliveries, k2)
                    && Created(Next(r, step).deliveries, k1) == Created(Next(r, step).deliveries, k2)
      ensures k1 == k2
    {
      OneCreator(r, step, k1, k2);
    }
    forall plan | plan in Next(r, step).executions
      ensures plan in Next(r, step).plans && Next(r, step).executions[plan].requested < Next(r, step).plans[plan].version
    {
      ExecutionStep(r, step, plan);
    }
  }

  /** From empty tables, plans and the deliveries that created them stay in one-to-one correspondence. */
  lemma {:induction false} RunKeepsRoutes(r: Routes, steps: seq<Step>)
    requires RoutesInv(r)
    ensures RoutesInv(Run(r, steps))
    decreases |steps|
  {
    if steps != [] {
      NextKeepsRoutes(r, steps[0]);
      RunKeepsRoutes(Next(r, steps[0]), steps[1..]);
    }
  }

  /** A delivered cancel of a plan: the plan is cancelled in that world and in every later one, and stays as it was then. */
  lemma CancelDelivered(r: Routes, steps: seq<Step>, more: seq<Step>, key: Key)
    requires RoutesInv(r) && key in Run(r, steps).deliveries && CancelsPlan(Run(r, steps).deliveries[key])
    ensures var r', r'' := Run(r, steps), Run(Run(r, steps), more);
      var plan := r'.deliveries[key].request.task.value.id;
      && IsCancelled(r'.plans, plan) && IsCancelled(r''.plans, plan) && r''.plans[plan] == r'.plans[plan]
  {
    RunKeepsRoutes(r, steps);
    PlanForever(Run(r, steps), more, Run(r, steps).deliveries[key].request.task.value.id);
  }

  /* ---------- the object ---------- */

  class Gateway {
    var deliveries: map<Key, Delivery>
    var plans: map<string, Plan>
    var executions: map<string, Execution>
    const hash: Definition -> string

    function State(): Routes
      reads this
    {
      Routes(deliveries, plans, executions)
    }

    ghost predicate Valid()
      reads this
    {
      RoutesInv(State())
    }

    constructor (hash: Definition -> string)
      ensures Valid() && State() == Routes(map[], map[], map[])
    {
      deliveries, plans, executions, this.hash := map[], map[], map[], hash;
    }

    /** lookup */
    method Lookup(key: Key, runStatus: string) returns (receipt: Option<Receipt>)
      modifies this
      ensures State() == Refreshed(old(State()), key, runStatus)
      ensures receipt == if key in deliveries then Some(deliveries[key].receipt) else None
    {
      if key !in deliveries {
        return None;
      }
      var d := deliveries[key];
      if d.receipt.progress.Accepted? && d.receipt.route.Control? {
        if d.request.task.Some? && IsRun(d.request.task.value) && runStatus in ENDED {
          d := d.(receipt := d.receipt.(progress := Completed));
          deliveries := deliveries[key := d];
        }
      }
      return Some(d.receipt);
    }

    /** The acceptance transaction, entered only while the caller's revision is guarded. */
    method AcceptRow(request: Request, generated: Definition, downstream: string, receiptId: string, runStatus: string)
      returns (r: Result<Receipt, Failure>)
      modifies this
      ensures match Accept(old(State()), request, generated, downstream, receiptId, runStatus)
        case Ok((after, receipt)) => State() == after && r == Ok(receipt)
        case Err(f) => State() == old(State()) && r == Err(f)
    {
      if request.key in deliveries {
        return Ok(deliveries[request.key].receipt);
      }
      var progress := Completed;
      if request.route.ToPlan? {
        if downstream in plans {
          return Err(IdentityTaken);
        }
        plans := plans[downstream := Plan(request.ref.session, generated.status, 1, generated)];
      } else if request.route.Control? {
        if request.task.None? {
          return Err(NoBinding);
        }
        var task := request.task.value;
        if IsRun(task) {
          if request.operation.Cancel? && runStatus !in ENDED {
            progress := Accepted;
          }
        } else if task.id !in plans || plans[task.id].session != request.ref.session {
          return Err(NotAccessible);
        } else if plans[task.id].version != task.version {
          return Err(TaskChanged);
        } else if request.operation.Cancel? && plans[task.id].status != CANCELLED {
          plans := plans[task.id := plans[task.id].(status := CANCELLED, version := plans[task.id].version + 1)];
        }
      }
      var row := Row(request, receiptId, progress, downstream);
      deliveries := deliveries[request.key := row];
      return Ok(row.receipt);
    }

    /** submit: an earlier delivery is returned as it is; otherwise the guarded acceptance decides. */
    method Submit(request: Request, generated: Definition, downstream: string, receiptId: string, runStatus: string, current: bool)
      returns (r: Result<Receipt, Failure>)
      requires Valid()
      modifies this
      ensures Valid()
      ensures r.Ok? ==> request.key in deliveries && deliveries[request.key].receipt == r.value
      ensures request.key in old(deliveries) ==> r.Ok? && State() == Next(old(State()), RefreshStep(request.key, runStatus))
      ensures request.key !in old(deliveries) && !current ==> r == Err(NotCurrent) && State() == old(State())
      ensures request.key !in old(deliveries) && current ==>
        State() == Next(old(State()), AcceptStep(request, generated, downstream, receiptId, runStatus))
    {
      NextKeepsRoutes(State(), RefreshStep(request.key, runStatus));
      var existing := Lookup(request.key, runStatus);
      if existing.Some? {
        return Ok(existing.value);
      }
      if !current {
        return Err(NotCurrent);
      }
      NextKeepsRoutes(State(), AcceptStep(request, generated, downstream, receiptId, runStatus));
      r := AcceptRow(request, generated, downstream, receiptId, runStatus);
    }

    /** The transaction that binds a run to a plan. */
    method BeginRow(plan: string, session: string, expected: int, seen: Definition, digest: string) returns (r: Result<RunId, Failure>)
      modifies this
      ensures match Begin(old(State()), plan, session, expected, seen, digest)
        case Ok((after, run)) => State() == after && r == Ok(run)
        case Err(f) => State() == old(State()) && r == Err(f)
    {
      if plan !in plans || plans[plan].session != session || plans[plan].payload != seen {
        return Err(PlanChanged);
      }
      if plan in executions {
        if executions[plan].requested != expected {
          return Err(VersionMismatch);
        }
        return Ok(executions[plan].run);
      }
      if plans[plan].version != expected || plans[plan].status != DRAFT {
        return Err(NotStartable);
      }
      var run := RunId(plan, expected, digest);
      executions := executions[plan := Execution(expected, run)];
      plans := plans[plan := plans[plan].(status := EXECUTING, version := plans[plan].version + 1)];
      return Ok(run);
    }

    /** execute_plan up to the start of the run: the stored plan is admitted, then begun. */
    method BeginExecution(plan: string, session: string, expected: int, admits: Definition -> bool) returns (r: Result<RunId, Failure>)
      requires Valid()
      modifies this
      ensures Valid()
      ensures r.Err? ==> State() == old(State())
      ensures r.Ok? ==> expected >= 1 && plan in old(plans) && old(plans)[plan].session == session && admits(old(plans)[plan].payload)
      ensures r.Ok? ==> plan in executions && executions[plan].requested == expected && executions[plan].run == r.value
      ensures r.Ok? && plan !in old(executions) ==> old(plans)[plan].status == DRAFT && old(plans)[plan].version == expected
    {
      if expected < 1 {
        return Err(BadVersion);
      }
      if plan !in plans || plans[plan].session != session {
        return Err(NoSuchPlan);
      }
      var definition := plans[plan].payload;
      if definition.claimed != hash(definition) || !admits(definition) {
        return Err(NotAdmitted);
      }
      NextKeepsRoutes(State(), BeginStep(plan, session, expected, definition, hash(definition)));
      r := BeginRow(plan, session, expected, definition, hash(definition));
    }

    method FinishRow(plan: string, status: string)
      modifies this
      ensures State() == Finish(old(State()), plan, status)
    {
      if plan in plans && plans[plan].status != status && plans[plan].status != CANCELLED {
        plans := plans[plan := plans[plan].(status := status, version := plans[plan].version + 1)];
      }
    }

    /** The status of the finished run, unless the plan was cancelled meanwhile. */
    method FinishExecution(plan: string, status: string)
      requires Valid()
      modifies this
      ensures Valid() && State() == Next(old(State()), FinishStep(plan, status))
    {
      NextKeepsRoutes(State(), FinishStep(plan, status));
      FinishRow(plan, status);
    }
  }
}
