/**
  Handing resolved revisions to the gateway: any number of dispatcher processes,
  crashing between any two steps, racing with new revisions of the same intent.
  One step is one transaction of one database.
*/
module Dispatch {
  import opened Prelude
  import opened LiveRoutes

  type Pid = nat

  /** What the dispatcher reads of a stored revision; no route when it was left for clarification. */
  datatype Stored = Stored(ref: Ref, correction: bool, readOnly: bool, route: Option<Route>, operation: Operation, task: Option<Task>)

  type Heads = map<string, int>
  type Revisions = map<(string, int), Stored>
  type Receipts = map<(string, int, Phase), Receipt>

  datatype Outcome = NothingToDeliver | Raised | WaitingForStop(stop: Receipt) | Delivered(main: Receipt)

  /** Where a dispatch stands; every phase runs through the same stages. */
  datatype Pc =
    | Started
    | Entering(phase: Phase)
    | Checked(phase: Phase, saved: Option<Receipt>)
    | Submitting(phase: Phase)
    | Accepting(phase: Phase)
    | Holding(phase: Phase, receipt: Receipt)
    | Saved(phase: Phase, receipt: Receipt)
    | Done(outcome: Outcome)

  /** `stop` is the active write task a read-only correction must stop first. */
  datatype Proc = Proc(stored: Stored, stop: Option<Task>, pc: Pc)
  type Procs = map<Pid, Proc>

  datatype World = World(heads: Heads, revisions: Revisions, routes: Routes, receipts: Receipts, procs: Procs)

  datatype Step =
    | Publish(stored: Stored)
    | RouteStep(route: LiveRoutes.Step)
    | Start(pid: Pid, intent: string, revision: int)
    | Enter(pid: Pid, active: Option<Task>)
    | Check(pid: Pid)
    | LookUp(pid: Pid, runStatus: string)
    | Submit(pid: Pid, runStatus: string)
    | AcceptNow(pid: Pid, generated: Definition, downstream: string, receiptId: string, runStatus: string)
    | Save(pid: Pid)
    | Return(pid: Pid)
    | Crash(pid: Pid)

  /* ---------- what one process does ---------- */

  function IdOf(s: Stored): (string, int) { (s.ref.intent, s.ref.revision) }

  predicate IsHead(heads: Heads, s: Stored) { s.ref.intent in heads && heads[s.ref.intent] == s.ref.revision }

  function RequestOf(p: Proc, phase: Phase): Request {
    if phase.Stop? then Request(Key(p.stored.ref, Stop), p.stored.ref, Control, Stop, Cancel, p.stop)
    else Request(Key(p.stored.ref, Main), p.stored.ref, if p.stored.route.Some? then p.stored.route.value else Answer, Main, p.stored.operation, p.stored.task)
  }

  function ReceiptKey(s: Stored, phase: Phase): (string, int, Phase) { (s.ref.intent, s.ref.revision, phase) }

  function SavedFor(receipts: Receipts, s: Stored, phase: Phase): Option<Receipt> {
    if ReceiptKey(s, phase) in receipts then Some(receipts[ReceiptKey(s, phase)]) else None
  }

  function Found(r: Routes, key: Key): Option<Receipt> { if key in r.deliveries then Some(r.deliveries[key].receipt) else None }

  /** save_receipt: a receipt may only leave `accepted`, and only its status may change. */
  function SaveReceipt(receipts: Receipts, s: Stored, phase: Phase, receipt: Receipt): Result<Receipts, Failure> {
    var old_ := SavedFor(receipts, s, phase);
    if old_.None? || old_.value == receipt
       || (old_.value == receipt.(progress := Accepted) && (receipt.progress.Completed? || receipt.progress.Failed?))
    then Ok(receipts[ReceiptKey(s, phase) := receipt])
    else Err(NotCurrent)
  }

  function Fail(p: Proc): Proc { p.(pc := Done(Raised)) }

  function Entered(heads: Heads, p: Proc, active: Option<Task>): Proc {
    if !IsHead(heads, p.stored) then Fail(p)
    else if p.stored.route.None? then p.(pc := Done(NothingToDeliver))
    else if p.stored.correction && p.stored.readOnly && active.Some? then p.(stop := active, pc := Entering(Stop))
    else p.(pc := Entering(Main))
  }

  function AfterLookup(r: Routes, p: Proc, phase: Phase, saved: Option<Receipt>): Proc {
    if saved.Some? && !saved.value.progress.Accepted? then p.(pc := Holding(phase, saved.value))
    else
      var found := Found(r, Key(p.stored.ref, phase));
      if found.Some? then p.(pc := Holding(phase, found.value))
      else if saved.Some? then Fail(p)
      else p.(pc := Submitting(phase))
  }

  function AfterSave(heads: Heads, p: Proc, phase: Phase, receipt: Receipt): Proc {
    if !IsHead(heads, p.stored) then Fail(p)
    else if phase.Main? then p.(pc := Done(Delivered(receipt)))
    else if receipt.progress.Completed? then p.(pc := Entering(Main))
    else p.(pc := Done(WaitingForStop(receipt)))
  }

  /** validate_receipt against the process's own request. */
  predicate Fits(receipt: Receipt, request: Request) {
    receipt.key == request.key && receipt.ref == request.ref && receipt.route == request.route && receipt.phase == request.phase
  }

  /* ---------- steps ---------- */

  predicate Enabled(w: World, step: Step) {
    match step
    case Publish(s) => s.ref.revision == (if s.ref.intent in w.heads then w.heads[s.ref.intent] else 0) + 1
    case RouteStep(route) => !route.AcceptStep?
    case Start(pid, intent, revision) => pid !in w.procs && (intent, revision) in w.revisions
    case Enter(pid, _) => pid in w.procs && w.procs[pid].pc.Started?
    case Check(pid) => pid in w.procs && w.procs[pid].pc.Entering?
    case LookUp(pid, _) => pid in w.procs && w.procs[pid].pc.Checked?
    case Submit(pid, _) => pid in w.procs && w.procs[pid].pc.Submitting?
    case AcceptNow(pid, _, _, _, _) => pid in w.procs && w.procs[pid].pc.Accepting?
    case Save(pid) => pid in w.procs && w.procs[pid].pc.Holding?
    case Return(pid) => pid in w.procs && w.procs[pid].pc.Saved?
    case Crash(pid) => pid in w.procs && !w.procs[pid].pc.Done?
  }

  /** The acceptance transaction, with the revision guard held around it. */
  function HandedOver(w: World, pid: Pid, generated: Definition, downstream: string, receiptId: string, runStatus: string): World
    requires pid in w.procs && w.procs[pid].pc.Accepting?
  {
    var p := w.procs[pid];
    var phase := p.pc.phase;
    if !IsHead(w.heads, p.stored) then w.(procs := w.procs[pid := Fail(p)])
    else match Accept(w.routes, RequestOf(p, phase), generated, downstream, receiptId, runStatus)
      case Err(_) => w.(procs := w.procs[pid := Fail(p)])
      case Ok((routes, receipt)) => w.(routes := routes, procs := w.procs[pid := p.(pc := Holding(phase, receipt))])
  }

  function SaveStep(w: World, pid: Pid): World
    requires pid in w.procs && w.procs[pid].pc.Holding?
  {
    var p := w.procs[pid];
    if !Fits(p.pc.receipt, RequestOf(p, p.pc.phase)) then w.(procs := w.procs[pid := Fail(p)])
    else match SaveReceipt(w.receipts, p.stored, p.pc.phase, p.pc.receipt)
      case Err(_) => w.(procs := w.procs[pid := Fail(p)])
      case Ok(receipts) => w.(receipts := receipts, procs := w.procs[pid := p.(pc := Saved(p.pc.phase, p.pc.receipt))])
  }

  function Next(w: World, step: Step): World
    requires Enabled(w, step)
  {
    match step
    case Publish(s) => w.(heads := w.heads[s.ref.intent := s.ref.revision], revisions := w.revisions[IdOf(s) := s])
    case RouteStep(route) => w.(routes := LiveRoutes.Next(w.routes, route))
    case Start(pid, intent, revision) => w.(procs := w.procs[pid := Proc(w.revisions[(intent, revision)], None, Started)])
    case Enter(pid, active) => w.(procs := w.procs[pid := Entered(w.heads, w.procs[pid], active)])
    case Check(pid) =>
      var p := w.procs[pid];
      var phase := p.pc.phase;
      w.(procs := w.procs[pid := if IsHead(w.heads, p.stored) then p.(pc := Checked(phase, SavedFor(w.receipts, p.stored, phase))) else Fail(p)])
    case LookUp(pid, runStatus) =>
      var p := w.procs[pid];
      var routes := if p.pc.saved.Some? && !p.pc.saved.value.progress.Accepted? then w.routes
                    else Refreshed(w.routes, Key(p.stored.ref, p.pc.phase), runStatus);
      w.(routes := routes, procs := w.procs[pid := AfterLookup(routes, p, p.pc.phase, p.pc.saved)])
    case Submit(pid, runStatus) =>
      var p := w.procs[pid];
      var phase := p.pc.phase;
      var routes := Refreshed(w.routes, Key(p.stored.ref, phase), runStatus);
      var found := Found(routes, Key(p.stored.ref, phase));
      w.(routes := routes, procs := w.procs[pid := p.(pc := if found.Some? then Holding(phase, found.value) else Accepting(phase))])
    case AcceptNow(pid, generated, downstream, receiptId, runStatus) => HandedOver(w, pid, generated, downstream, receiptId, runStatus)
    case Save(pid) => SaveStep(w, pid)
    case Return(pid) =>
      var p := w.procs[pid];
      w.(procs := w.procs[pid := AfterSave(w.heads, p, p.pc.phase, p.pc.receipt)])
    case Crash(pid) => w.(procs := w.procs[pid := Fail(w.procs[pid])])
  }

  /** What a step does to the route tables, as a step of theirs. */
  function RouteStepOf(w: World, step: Step): Option<LiveRoutes.Step>
    requires Enabled(w, step)
  {
    match step
    case RouteStep(route) => Some(route)
    case LookUp(pid, runStatus) =>
      var p := w.procs[pid];
      if p.pc.saved.Some? && !p.pc.saved.value.progress.Accepted? then None
      else Some(RefreshStep(Key(p.stored.ref, p.pc.phase), runStatus))
    case Submit(pid, runStatus) => Some(RefreshStep(Key(w.procs[pid].stored.ref, w.procs[pid].pc.phase), runStatus))
    case AcceptNow(pid, generated, downstream, receiptId, runStatus) =>
      var p := w.procs[pid];
      if IsHead(w.heads, p.stored) then Some(AcceptStep(RequestOf(p, p.pc.phase), generated, downstream, receiptId, runStatus)) else None
    case _ => None
  }

  lemma RoutesAfter(w: World, step: Step)
    requires Enabled(w, step)
    ensures Next(w, step).routes ==
      if RouteStepOf(w, step).Some? then LiveRoutes.Next(w.routes, RouteStepOf(w, step).value) else w.routes
  {
  }

  ghost predicate IsRun(run: seq<World>, steps: seq<Step>) {
    && |run| == |steps| + 1
    && forall i :: 0 <= i < |steps| ==> StepAt(run, steps, i)
  }

  ghost predicate StepAt(run: seq<World>, steps: seq<Step>, i: nat)
    requires i < |steps| < |run|
  {
    Enabled(run[i], steps[i]) && run[i + 1] == Next(run[i], steps[i])
  }

  /* ---------- invariants, one table at a time ---------- */

  /** Revisions are numbered up to their head and filed under their own reference. */
  ghost predicate RevisionsInv(heads: Heads, revisions: Revisions) {
    && (forall intent, r :: (intent, r) in revisions ==> intent in heads && 1 <= r <= heads[intent])
    && (forall intent :: intent in heads ==> 1 <= heads[intent])
    && (forall id :: id in revisions ==> IdOf(revisions[id]) == id)
  }

  /** Every delivery is for a published revision and carries that revision's reference. */
  ghost predicate DeliveriesKnown(revisions: Revisions, deliveries: map<Key, Delivery>) {
    forall key :: key in deliveries ==> KnownKey(revisions, key) && Consistent(deliveries[key], key)
  }

  predicate KnownKey(revisions: Revisions, key: Key) {
    var id := (key.ref.intent, key.ref.revision);
    id in revisions && revisions[id].ref == key.ref
  }

  /** A receipt in hand is that of a delivery row, which may have completed since. */
  predicate Backed(deliveries: map<Key, Delivery>, receipt: Receipt) {
    && receipt.key in deliveries
    && (deliveries[receipt.key].receipt == receipt
        || (receipt.progress.Accepted? && deliveries[receipt.key].receipt == receipt.(progress := Completed)))
  }

  ghost predicate ReceiptsInv(revisions: Revisions, deliveries: map<Key, Delivery>, receipts: Receipts) {
    forall k :: k in receipts ==>
      (k.0, k.1) in revisions && receipts[k].key == Key(revisions[(k.0, k.1)].ref, k.2) && Backed(deliveries, receipts[k])
  }

  /** What a process at this point of the code may rely on. */
  ghost predicate ProcOk(revisions: Revisions, deliveries: map<Key, Delivery>, receipts: Receipts, p: Proc) {
    && IdOf(p.stored) in revisions && revisions[IdOf(p.stored)] == p.stored
    && match p.pc
       case Started => p.stop.None?
       case Entering(phase) => StopIsOver(receipts, p, phase)
       case Checked(phase, saved) => StopIsOver(receipts, p, phase) && (saved.Some? ==> saved.value.key == Key(p.stored.ref, phase) && Backed(deliveries, saved.value))
       case Submitting(phase) => StopIsOver(receipts, p, phase)
       case Accepting(phase) => StopIsOver(receipts, p, phase)
       case Holding(phase, receipt) => StopIsOver(receipts, p, phase) && receipt.key == Key(p.stored.ref, phase) && Backed(deliveries, receipt)
       case Saved(phase, receipt) =>
         && StopIsOver(receipts, p, phase) && receipt.key == Key(p.stored.ref, phase) && Backed(deliveries, receipt)
         && IsSaved(receipts, p.stored, phase, receipt)
       case Done(Delivered(receipt)) =>
         StopIsOver(receipts, p, Main) && receipt.key == Key(p.stored.ref, Main) && Backed(deliveries, receipt)
       case Done(_) => true
  }

  /** A process that had to stop something reaches its main delivery only after the stop was recorded as completed. */
  predicate StopIsOver(receipts: Receipts, p: Proc, phase: Phase) {
    phase.Main? && p.stop.Some? ==> StopCompleted(receipts, p.stored)
  }

  predicate StopCompleted(receipts: Receipts, s: Stored) {
    ReceiptKey(s, Stop) in receipts && receipts[ReceiptKey(s, Stop)].progress.Completed?
  }

  predicate IsSaved(receipts: Receipts, s: Stored, phase: Phase, receipt: Receipt) {
    ReceiptKey(s, phase) in receipts && (receipt.progress.Completed? ==> receipts[ReceiptKey(s, phase)].progress.Completed?)
  }

  ghost predicate ProcsInv(revisions: Revisions, deliveries: map<Key, Delivery>, receipts: Receipts, procs: Procs) {
    forall pid :: pid in procs ==> ProcOk(revisions, deliveries, receipts, procs[pid])
  }

  ghost predicate Inv(w: World) {
    && RevisionsInv(w.heads, w.revisions)
    && DeliveriesKnown(w.revisions, w.routes.deliveries)
    && ReceiptsInv(w.revisions, w.routes.deliveries, w.receipts)
    && ProcsInv(w.revisions, w.routes.deliveries, w.receipts, w.procs)
  }

  /* ---------- how the tables grow ---------- */

  ghost predicate RevisionsGrow(a: Revisions, b: Revisions) { forall id :: id in a ==> id in b && b[id] == a[id] }

  ghost predicate DeliveriesGrow(a: map<Key, Delivery>, b: map<Key, Delivery>) {
    forall key :: key in a ==> key in b && DeliveryEvolves(a[key], b[key])
  }

  predicate ReceiptEvolves(a: Receipt, b: Receipt) {
    b == a || (a.progress.Accepted? && b == a.(progress := b.progress) && !b.progress.Accepted?)
  }

  ghost predicate ReceiptsGrow(a: Receipts, b: Receipts) { forall k :: k in a ==> k in b && ReceiptEvolves(a[k], b[k]) }

  lemma ProcStaysOk(revisions: Revisions, deliveries: map<Key, Delivery>, receipts: Receipts,
                    revisions': Revisions, deliveries': map<Key, Delivery>, receipts': Receipts, procs: Procs)
    requires RevisionsGrow(revisions, revisions') && DeliveriesGrow(deliveries, deliveries') && ReceiptsGrow(receipts, receipts')
    requires ProcsInv(revisions, deliveries, receipts, procs)
    ensures ProcsInv(revisions', deliveries', receipts', procs)
  {
  }

  lemma ReceiptsStayOk(revisions: Revisions, deliveries: map<Key, Delivery>, revisions': Revisions, deliveries': map<Key, Delivery>, receipts: Receipts)
    requires RevisionsGrow(revisions, revisions') && DeliveriesGrow(deliveries, deliveries') && ReceiptsInv(revisions, deliveries, receipts)
    ensures ReceiptsInv(revisions', deliveries', receipts)
  {
  }

  lemma RouteGrows(r: Routes, step: LiveRoutes.Step)
    ensures DeliveriesGrow(r.deliveries, LiveRoutes.Next(r, step).deliveries)
  {
    forall key | key in r.deliveries
      ensures key in LiveRoutes.Next(r, step).deliveries && DeliveryEvolves(r.deliveries[key], LiveRoutes.Next(r, step).deliveries[key])
    {
      DeliveredOnce(r, [step], key);
      assert [step][1..] == [];
    }
  }

  /** A route step adds no delivery other than the one a request asks for. */
  lemma RouteKeepsKnown(revisions: Revisions, r: Routes, step: LiveRoutes.Step)
    requires DeliveriesKnown(revisions, r.deliveries)
    requires step.AcceptStep? ==> KnownKey(revisions, step.request.key)
    ensures DeliveriesKnown(revisions, LiveRoutes.Next(r, step).deliveries)
  {
    var after := LiveRoutes.Next(r, step).deliveries;
    forall key | key in after ensures KnownKey(revisions, key) && Consistent(after[key], key) {
      assert key in r.deliveries ==> Consistent(r.deliveries[key], key);
      RowStep(r, step, key);
    }
  }

  lemma RoutesMove(w: World, routes: Routes, step: LiveRoutes.Step)
    requires Inv(w) && routes == LiveRoutes.Next(w.routes, step)
    requires step.AcceptStep? ==> KnownKey(w.revisions, step.request.key)
    ensures Inv(w.(routes := routes)) && DeliveriesGrow(w.routes.deliveries, routes.deliveries)
  {
    RouteGrows(w.routes, step);
    RouteKeepsKnown(w.revisions, w.routes, step);
    ReceiptsStayOk(w.revisions, w.routes.deliveries, w.revisions, routes.deliveries, w.receipts);
    ProcStaysOk(w.revisions, w.routes.deliveries, w.receipts, w.revisions, routes.deliveries, w.receipts, w.procs);
  }

  lemma PublishKeeps(w: World, s: Stored)
    requires Inv(w) && Enabled(w, Publish(s))
    ensures Inv(Next(w, Publish(s)))
  {
    var w' := Next(w, Publish(s));
    assert IdOf(s) !in w.revisions;
    assert RevisionsGrow(w.revisions, w'.revisions);
    ReceiptsStayOk(w.revisions, w.routes.deliveries, w'.revisions, w.routes.deliveries, w.receipts);
    ProcStaysOk(w.revisions, w.routes.deliveries, w.receipts, w'.revisions, w.routes.deliveries, w.receipts, w.procs);
  }

  /** One process moves and no table changes. */
  lemma MovedAlone(w: World, pid: Pid, p: Proc)
    requires Inv(w) && ProcOk(w.revisions, w.routes.deliveries, w.receipts, p)
    ensures Inv(w.(procs := w.procs[pid := p]))
  {
  }

  lemma SavedIsBacked(w: World, s: Stored, phase: Phase)
    requires Inv(w) && IdOf(s) in w.revisions && w.revisions[IdOf(s)] == s
    ensures var saved := SavedFor(w.receipts, s, phase);
      saved.Some? ==> saved.value.key == Key(s.ref, phase) && Backed(w.routes.deliveries, saved.value)
  {
  }

  /** Steps that only move a process on. */
  lemma LocalKeeps(w: World, step: Step)
    requires Inv(w) && Enabled(w, step)
    requires step.Start? || step.Enter? || step.Check? || step.Return? || step.Crash?
    ensures Inv(Next(w, step))
  {
    if !step.Start? {
      assert ProcOk(w.revisions, w.routes.deliveries, w.receipts, w.procs[step.pid]);
      if step.Check? {
        SavedIsBacked(w, w.procs[step.pid].stored, w.procs[step.pid].pc.phase);
      }
    }
    LocallyOk(w, step);
    MovedAlone(w, step.pid, Next(w, step).procs[step.pid]);
  }

  lemma ReturnedOk(w: World, p: Proc)
    requires p.pc.Saved? && ProcOk(w.revisions, w.routes.deliveries, w.receipts, p)
    ensures ProcOk(w.revisions, w.routes.deliveries, w.receipts, AfterSave(w.heads, p, p.pc.phase, p.pc.receipt))
  {
  }

  lemma EnteredOk(w: World, p: Proc, active: Option<Task>)
    requires p.pc.Started? && ProcOk(w.revisions, w.routes.deliveries, w.receipts, p)
    ensures ProcOk(w.revisions, w.routes.deliveries, w.receipts, Entered(w.heads, p, active))
  {
  }

  lemma LocallyOk(w: World, step: Step)
    requires Enabled(w, step) && RevisionsInv(w.heads, w.revisions)
    requires step.Start? || step.Enter? || step.Check? || step.Return? || step.Crash?
    requires !step.Start? ==> ProcOk(w.revisions, w.routes.deliveries, w.receipts, w.procs[step.pid])
    requires step.Check? ==>
      var saved := SavedFor(w.receipts, w.procs[step.pid].stored, w.procs[step.pid].pc.phase);
      saved.Some? ==> saved.value.key == Key(w.procs[step.pid].stored.ref, w.procs[step.pid].pc.phase) && Backed(w.routes.deliveries, saved.value)
    ensures ProcOk(w.revisions, w.routes.deliveries, w.receipts, Next(w, step).procs[step.pid])
  {
    if step.Return? {
      ReturnedOk(w, w.procs[step.pid]);
    } else if step.Enter? {
      EnteredOk(w, w.procs[step.pid], step.active);
    }
  }

  lemma HeldIsBacked(w: World, key: Key)
    requires Inv(w)
    ensures Found(w.routes, key).Some? ==> Found(w.routes, key).value.key == key && Backed(w.routes.deliveries, Found(w.routes, key).value)
  {
  }

  lemma LookedUpOk(w: World, p: Proc)
    requires Inv(w) && p.pc.Checked? && ProcOk(w.revisions, w.routes.deliveries, w.receipts, p)
    ensures ProcOk(w.revisions, w.routes.deliveries, w.receipts, AfterLookup(w.routes, p, p.pc.phase, p.pc.saved))
  {
    HeldIsBacked(w, Key(p.stored.ref, p.pc.phase));
  }

  lemma SubmittedOk(w: World, p: Proc)
    requires Inv(w) && p.pc.Submitting? && ProcOk(w.revisions, w.routes.deliveries, w.receipts, p)
    ensures var found := Found(w.routes, Key(p.stored.ref, p.pc.phase));
      ProcOk(w.revisions, w.routes.deliveries, w.receipts, p.(pc := if found.Some? then Holding(p.pc.phase, found.value) else Accepting(p.pc.phase)))
  {
    HeldIsBacked(w, Key(p.stored.ref, p.pc.phase));
  }

  /** The two lookups, before and inside submit. */
  lemma LookUpKeeps(w: World, step: Step)
    requires Inv(w) && Enabled(w, step) && (step.LookUp? || step.Submit?)
    ensures Inv(Next(w, step))
  {
    var p, w' := w.procs[step.pid], Next(w, step);
    var v := w.(routes := w'.routes);
    if w'.routes != w.routes {
      RoutesMove(w, w'.routes, RefreshStep(Key(p.stored.ref, p.pc.phase), step.runStatus));
    }
    assert ProcOk(v.revisions, v.routes.deliveries, v.receipts, v.procs[step.pid]);
    if step.LookUp? {
      LookedUpOk(v, p);
    } else {
      SubmittedOk(v, p);
    }
    MovedAlone(v, step.pid, w'.procs[step.pid]);
  }

  lemma AcceptKeeps(w: World, pid: Pid, generated: Definition, downstream: string, receiptId: string, runStatus: string)
    requires Inv(w) && Enabled(w, AcceptNow(pid, generated, downstream, receiptId, runStatus))
    ensures Inv(HandedOver(w, pid, generated, downstream, receiptId, runStatus))
  {
    var p := w.procs[pid];
    assert ProcOk(w.revisions, w.routes.deliveries, w.receipts, p);
    var step := AcceptStep(RequestOf(p, p.pc.phase), generated, downstream, receiptId, runStatus);
    var outcome := Accept(w.routes, RequestOf(p, p.pc.phase), generated, downstream, receiptId, runStatus);
    if IsHead(w.heads, p.stored) && outcome.Ok? {
      var v := w.(routes := outcome.value.0);
      RoutesMove(w, outcome.value.0, step);
      AcceptGives(w.routes, step);
      HeldIsBacked(v, step.request.key);
      MovedAlone(v, pid, p.(pc := Holding(p.pc.phase, outcome.value.1)));
    } else {
      MovedAlone(w, pid, Fail(p));
    }
  }

  lemma AcceptGives(r: Routes, step: LiveRoutes.Step)
    requires step.AcceptStep?
    ensures match Accept(r, step.request, step.generated, step.downstream, step.receiptId, step.runStatus)
      case Ok((r', receipt)) => Found(r', step.request.key) == Some(receipt) && r' == LiveRoutes.Next(r, step)
      case Err(_) => true
  {
  }

  lemma SaveKeeps(w: World, pid: Pid)
    requires Inv(w) && Enabled(w, Save(pid))
    ensures Inv(SaveStep(w, pid))
  {
    var p := w.procs[pid];
    assert ProcOk(w.revisions, w.routes.deliveries, w.receipts, p);
    var outcome := SaveReceipt(w.receipts, p.stored, p.pc.phase, p.pc.receipt);
    if Fits(p.pc.receipt, RequestOf(p, p.pc.phase)) && outcome.Ok? {
      SavedTable(w.revisions, w.routes.deliveries, w.receipts, p.stored, p.pc.phase, p.pc.receipt);
      ProcStaysOk(w.revisions, w.routes.deliveries, w.receipts, w.revisions, w.routes.deliveries, outcome.value, w.procs);
      assert ProcOk(w.revisions, w.routes.deliveries, outcome.value, p);
      MovedAlone(w.(receipts := outcome.value), pid, p.(pc := Saved(p.pc.phase, p.pc.receipt)));
    } else {
      MovedAlone(w, pid, Fail(p));
    }
  }

  lemma SavedTable(revisions: Revisions, deliveries: map<Key, Delivery>, receipts: Receipts, s: Stored, phase: Phase, receipt: Receipt)
    requires ReceiptsInv(revisions, deliveries, receipts) && SaveReceipt(receipts, s, phase, receipt).Ok?
    requires IdOf(s) in revisions && revisions[IdOf(s)] == s && receipt.key == Key(s.ref, phase) && Backed(deliveries, receipt)
    ensures var after := SaveReceipt(receipts, s, phase, receipt).value;
      ReceiptsInv(revisions, deliveries, after) && ReceiptsGrow(receipts, after) && IsSaved(after, s, phase, receipt)
  {
  }

  lemma NextKeepsInv(w: World, step: Step)
    requires Inv(w) && Enabled(w, step)
    ensures Inv(Next(w, step))
  {
    match step
    case Publish(s) => PublishKeeps(w, s);
    case RouteStep(route) => RoutesMove(w, Next(w, step).routes, route);
    case LookUp(_, _) => LookUpKeeps(w, step);
    case Submit(_, _) => LookUpKeeps(w, step);
    case AcceptNow(pid, generated, downstream, receiptId, runStatus) => AcceptKeeps(w, pid, generated, downstream, receiptId, runStatus);
    case Save(pid) => SaveKeeps(w, pid);
    case _ => LocalKeeps(w, step);
  }

  /* ---------- whole runs ---------- */

  const EMPTY := World(map[], map[], Routes(map[], map[], map[]), map[], map[])

  lemma {:induction false} RunKeepsInv(run: seq<World>, steps: seq<Step>, i: nat)
    requires IsRun(run, steps) && Inv(run[0]) && i < |run|
    ensures Inv(run[i])
  {
    if i > 0 {
      RunKeepsInv(run, steps, i - 1);
      assert StepAt(run, steps, i - 1);
      NextKeepsInv(run[i - 1], steps[i - 1]);
    }
  }

  /** However many dispatchers try, and wherever they crash, a revision has at most one delivery of each phase. */
  lemma AtMostOneDelivery(run: seq<World>, steps: seq<Step>, i: nat, k1: Key, k2: Key)
    requires IsRun(run, steps) && run[0] == EMPTY && i < |run|
    requires k1 in run[i].routes.deliveries && k2 in run[i].routes.deliveries
    requires k1.ref.intent == k2.ref.intent && k1.ref.revision == k2.ref.revision && k1.phase == k2.phase
    ensures k1 == k2
  {
    RunKeepsInv(run, steps, i);
    assert KnownKey(run[i].revisions, k1) && KnownKey(run[i].revisions, k2);
  }

  /** A delivery is added by the acceptance of its own request, for a revision that is the newest. */
  lemma OnlyAcceptDelivers(w: World, step: Step, key: Key)
    requires Enabled(w, step) && key !in w.routes.deliveries && key in Next(w, step).routes.deliveries
    ensures step.AcceptNow? && IsHead(w.heads, w.procs[step.pid].stored) && key == Key(w.procs[step.pid].stored.ref, w.procs[step.pid].pc.phase)
    ensures Next(w, step).routes.deliveries[key].request == RequestOf(w.procs[step.pid], w.procs[step.pid].pc.phase)
  {
    RoutesAfter(w, step);
    if RouteStepOf(w, step).Some? {
      NewDelivery(w.routes, RouteStepOf(w, step).value, key);
    }
  }

  /** An acceptance is for the newest revision, at the moment it is committed. */
  lemma AcceptedWhileNewest(w: World, step: Step, key: Key)
    requires Enabled(w, step) && key !in w.routes.deliveries && key in Next(w, step).routes.deliveries
    ensures key.ref.intent in w.heads && w.heads[key.ref.intent] == key.ref.revision
  {
    OnlyAcceptDelivers(w, step, key);
  }

  lemma HeadsRise(w: World, step: Step, intent: string)
    requires Enabled(w, step) && intent in w.heads
    ensures intent in Next(w, step).heads && w.heads[intent] <= Next(w, step).heads[intent]
  {
  }

  ghost predicate Quiet(w: World, key: Key) {
    key !in w.routes.deliveries && key.ref.intent in w.heads && w.heads[key.ref.intent] > key.ref.revision
  }

  lemma QuietStep(run: seq<World>, steps: seq<Step>, i: nat, key: Key)
    requires IsRun(run, steps) && i < |steps| && Quiet(run[i], key)
    ensures Quiet(run[i + 1], key)
  {
    assert StepAt(run, steps, i);
    HeadsRise(run[i], steps[i], key.ref.intent);
    if key in run[i + 1].routes.deliveries {
      AcceptedWhileNewest(run[i], steps[i], key);
    }
  }

  /** Once a newer revision is published, nothing more is ever delivered for an older one. */
  lemma {:induction false} SupersededStaysQuiet(run: seq<World>, steps: seq<Step>, i: nat, j: nat, key: Key)
    requires IsRun(run, steps) && i <= j < |run| && Quiet(run[i], key)
    ensures Quiet(run[j], key)
  {
    if i < j {
      SupersededStaysQuiet(run, steps, i, j - 1, key);
      QuietStep(run, steps, j - 1, key);
    }
  }

  /** At or past the acceptance of the main delivery. */
  predicate AtMain(pc: Pc) {
    match pc
    case Accepting(phase) => phase.Main?
    case Holding(phase, _) => phase.Main?
    case Saved(phase, _) => phase.Main?
    case Done(outcome) => outcome.Delivered?
    case _ => false
  }

  /**
    A read-only correction that saw an active write task comes to its main
    delivery only after the stop was recorded as completed.
  */
  lemma StopBeforeMain(run: seq<World>, steps: seq<Step>, i: nat, pid: Pid)
    requires IsRun(run, steps) && run[0] == EMPTY && i < |run|
    requires pid in run[i].procs && run[i].procs[pid].stop.Some? && AtMain(run[i].procs[pid].pc)
    ensures StopCompleted(run[i].receipts, run[i].procs[pid].stored)
  {
    RunKeepsInv(run, steps, i);
    assert ProcOk(run[i].revisions, run[i].routes.deliveries, run[i].receipts, run[i].procs[pid]);
  }

  /** The step at which a delivery was accepted, and the process that accepted it. */
  lemma {:induction false} AcceptedAt(run: seq<World>, steps: seq<Step>, j: nat, key: Key) returns (i: nat)
    requires IsRun(run, steps) && run[0] == EMPTY && j < |run| && key in run[j].routes.deliveries
    ensures i < j && StepAt(run, steps, i)
    ensures steps[i].AcceptNow? && key !in run[i].routes.deliveries && key in run[i + 1].routes.deliveries
    ensures run[i].procs[steps[i].pid].pc == Accepting(key.phase)
    ensures run[j].routes.deliveries[key].request == RequestOf(run[i].procs[steps[i].pid], key.phase)
  {
    assert StepAt(run, steps, j - 1);
    if key in run[j - 1].routes.deliveries {
      i := AcceptedAt(run, steps, j - 1, key);
      RequestStays(run[j - 1], steps[j - 1], key);
    } else {
      i := j - 1;
      OnlyAcceptDelivers(run[i], steps[i], key);
    }
  }

  /**
    What the completed stop of a dispatcher at its main delivery really stopped:
    the task of whichever dispatcher of that revision had its stop accepted first.
    It is the task this dispatcher saw exactly when the two saw the same one.
  */
  lemma StoppedTaskIff(run: seq<World>, steps: seq<Step>, j: nat, pid: Pid) returns (i: nat)
    requires IsRun(run, steps) && run[0] == EMPTY && j < |run|
    requires pid in run[j].procs && run[j].procs[pid].stop.Some? && AtMain(run[j].procs[pid].pc)
    ensures var key := Key(run[j].procs[pid].stored.ref, Stop);
      && i < j && StepAt(run, steps, i) && steps[i].AcceptNow? && key !in run[i].routes.deliveries && key in run[i + 1].routes.deliveries
      && key in run[j].routes.deliveries
      && run[j].routes.deliveries[key].request.task == run[i].procs[steps[i].pid].stop
      && (run[j].routes.deliveries[key].request.task == run[j].procs[pid].stop <==> run[i].procs[steps[i].pid].stop == run[j].procs[pid].stop)
  {
    StopBeforeMain(run, steps, j, pid);
    RunKeepsInv(run, steps, j);
    StopIsDelivered(run[j], pid);
    i := AcceptedAt(run, steps, j, Key(run[j].procs[pid].stored.ref, Stop));
  }

  lemma StopIsDelivered(w: World, pid: Pid)
    requires Inv(w) && pid in w.procs && StopCompleted(w.receipts, w.procs[pid].stored)
    ensures Key(w.procs[pid].stored.ref, Stop) in w.routes.deliveries
  {
    assert ProcOk(w.revisions, w.routes.deliveries, w.receipts, w.procs[pid]);
  }

  /** Which processes must stop: exactly the read-only corrections that saw an active write task. */
  lemma MustStopIff(w: World, pid: Pid, active: Option<Task>)
    requires Inv(w) && Enabled(w, Enter(pid, active))
    ensures var p, p' := w.procs[pid], Next(w, Enter(pid, active)).procs[pid];
      && (p'.pc == Entering(Stop) <==> IsHead(w.heads, p.stored) && p.stored.route.Some? && p.stored.correction && p.stored.readOnly && active.Some?)
      && (p'.pc == Entering(Stop) ==> p'.stop == active)
      && (p'.pc == Entering(Main) ==> p'.stop.None? && p.stored.route.Some?)
  {
    assert ProcOk(w.revisions, w.routes.deliveries, w.receipts, w.procs[pid]);
  }

  /** A completed stop stays completed. */
  lemma {:induction false} StopStaysCompleted(run: seq<World>, steps: seq<Step>, i: nat, j: nat, s: Stored)
    requires IsRun(run, steps) && Inv(run[0]) && i <= j < |run| && StopCompleted(run[i].receipts, s)
    ensures StopCompleted(run[j].receipts, s)
  {
    if i < j {
      StopStaysCompleted(run, steps, i, j - 1, s);
      assert StepAt(run, steps, j - 1);
      CompletedStays(run[j - 1], steps[j - 1], s);
    }
  }

  lemma CompletedStays(w: World, step: Step, s: Stored)
    requires Enabled(w, step) && StopCompleted(w.receipts, s)
    ensures StopCompleted(Next(w, step).receipts, s)
  {
  }

  /** Every dispatch that reports success for a revision reports the same delivery. */
  lemma OneReceipt(run: seq<World>, steps: seq<Step>, i: nat, p: Pid, q: Pid)
    requires IsRun(run, steps) && run[0] == EMPTY && i < |run|
    requires p in run[i].procs && q in run[i].procs && IdOf(run[i].procs[p].stored) == IdOf(run[i].procs[q].stored)
    requires run[i].procs[p].pc.Done? && run[i].procs[p].pc.outcome.Delivered?
    requires run[i].procs[q].pc.Done? && run[i].procs[q].pc.outcome.Delivered?
    ensures var a, b := run[i].procs[p].pc.outcome.main, run[i].procs[q].pc.outcome.main;
      a.id == b.id && a.downstream == b.downstream && a.key == b.key && a.key in run[i].routes.deliveries
  {
    RunKeepsInv(run, steps, i);
    DeliveredIsBacked(run[i], p);
    DeliveredIsBacked(run[i], q);
  }

  lemma DeliveredIsBacked(w: World, pid: Pid)
    requires Inv(w) && pid in w.procs && w.procs[pid].pc.Done? && w.procs[pid].pc.outcome.Delivered?
    ensures w.procs[pid].pc.outcome.main.key == Key(w.procs[pid].stored.ref, Main)
    ensures Backed(w.routes.deliveries, w.procs[pid].pc.outcome.main)
    ensures IdOf(w.procs[pid].stored) in w.revisions && w.revisions[IdOf(w.procs[pid].stored)] == w.procs[pid].stored
  {
    assert ProcOk(w.revisions, w.routes.deliveries, w.receipts, w.procs[pid]);
  }

  /** The gateway's own tables stay consistent too: every delivered plan is there, inserted by its one delivery. */
  lemma {:induction false} RunKeepsRouteTables(run: seq<World>, steps: seq<Step>, i: nat)
    requires IsRun(run, steps) && run[0] == EMPTY && i < |run|
    ensures RoutesInv(run[i].routes)
  {
    if i > 0 {
      RunKeepsRouteTables(run, steps, i - 1);
      assert StepAt(run, steps, i - 1);
      RouteTablesStep(run[i - 1], steps[i - 1]);
    }
  }

  /** In every run of dispatchers, a delivered cancel of a plan has that plan cancelled, then and later. */
  lemma DeliveredCancelHolds(run: seq<World>, steps: seq<Step>, i: nat, j: nat, key: Key)
    requires IsRun(run, steps) && run[0] == EMPTY && i <= j < |run|
    requires key in run[i].routes.deliveries && CancelsPlan(run[i].routes.deliveries[key])
    ensures key in run[j].routes.deliveries && run[j].routes.deliveries[key].request == run[i].routes.deliveries[key].request
    ensures IsCancelled(run[j].routes.plans, run[i].routes.deliveries[key].request.task.value.id)
  {
    DeliveryStays(run, steps, i, j, key);
    RunKeepsRouteTables(run, steps, j);
  }

  lemma {:induction false} DeliveryStays(run: seq<World>, steps: seq<Step>, i: nat, j: nat, key: Key)
    requires IsRun(run, steps) && i <= j < |run| && key in run[i].routes.deliveries
    ensures key in run[j].routes.deliveries && run[j].routes.deliveries[key].request == run[i].routes.deliveries[key].request
  {
    if i < j {
      DeliveryStays(run, steps, i, j - 1, key);
      assert StepAt(run, steps, j - 1);
      RequestStays(run[j - 1], steps[j - 1], key);
    }
  }

  lemma RequestStays(w: World, step: Step, key: Key)
    requires Enabled(w, step) && key in w.routes.deliveries
    ensures key in Next(w, step).routes.deliveries && Next(w, step).routes.deliveries[key].request == w.routes.deliveries[key].request
  {
    RoutesAfter(w, step);
    if RouteStepOf(w, step).Some? {
      RouteGrows(w.routes, RouteStepOf(w, step).value);
    }
  }

  lemma RouteTablesStep(w: World, step: Step)
    requires Enabled(w, step) && RoutesInv(w.routes)
    ensures RoutesInv(Next(w, step).routes)
  {
    RoutesAfter(w, step);
    if RouteStepOf(w, step).Some? {
      NextKeepsRoutes(w.routes, RouteStepOf(w, step).value);
    }
  }
}
