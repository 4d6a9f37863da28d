/**
  Deterministic resolution of a verified candidate: which gaps it has, which
  route it takes, and why the resulting envelope passes its validator.
*/
module IntentResolve {
  import opened Prelude
  import opened IntentModel

  /* ---------- gaps, in the order they are appended ---------- */

  function RequiredGap(p: Path): Gap { Gap(PathText(p), "required", "please provide " + PathText(p), []) }

  function BindingGap(key: string): Gap { Gap("/entities/" + key, "binding_required", "please confirm the binding of " + key, []) }

  const NO_PREVIOUS := Gap("/context_binding/previous_intent", "ambiguous_reference", "which request is meant?", [])
  const NO_TASK := Gap("/control/target", "ambiguous_reference", "please name one accessible task", [])
  const TASK_UNBOUND := Gap("/entities/task_target", "binding_required", "please confirm an accessible task", [])
  const UNCHECKABLE := Gap("/constraints", "unsupported_constraint", "please state a checkable limit", [])
  const CONFLICT := Gap("/control/target", "conflicting_target", "two different task targets", [])

  /** Extracted fields that can satisfy a requirement. */
  predicate Provides(c: Candidate, p: Path) {
    match p
    case Objective => true
    case Entity(key) => HasKey(c.entities, key)
    case _ => false
  }

  function RequiredGaps(c: Candidate, required: seq<Path>): seq<Gap> {
    if required == [] then []
    else
      var last := required[|required| - 1];
      RequiredGaps(c, required[..|required| - 1]) + if Provides(c, last) then [] else [RequiredGap(last)]
  }

  predicate Bound(ctx: Context, e: (string, string)) {
    e.0 == "task_target" || (Entity(e.0) in ctx.verified && ctx.verified[Entity(e.0)] == TextField(e.1))
  }

  function BindingGaps(ctx: Context, entities: seq<(string, string)>): seq<Gap> {
    if entities == [] then []
    else
      var last := entities[|entities| - 1];
      BindingGaps(ctx, entities[..|entities| - 1]) + if Bound(ctx, last) then [] else [BindingGap(last.0)]
  }

  function EntityValue(entities: seq<(string, string)>, key: string): Option<string> {
    if entities == [] then None
    else if entities[0].0 == key then Some(entities[0].1)
    else EntityValue(entities[1..], key)
  }

  /** The task a control request names: the control target, else the entity. */
  function Target(c: Candidate): Option<string> {
    var direct := if c.control.Some? then c.control.value.target else None;
    if direct.Some? then direct else EntityValue(c.entities, "task_target")
  }

  predicate Conflicting(c: Candidate) {
    && c.intentType.TaskControl? && c.control.Some?
    && c.control.value.target.Some? && EntityValue(c.entities, "task_target").Some?
    && c.control.value.target != EntityValue(c.entities, "task_target")
  }

  function Matches(tasks: seq<Task>, target: Option<string>): seq<Task> {
    if tasks == [] then []
    else (if target.None? || tasks[0].id == target.value then [tasks[0]] else []) + Matches(tasks[1..], target)
  }

  function TaskOf(c: Candidate, ctx: Context): Option<Task> {
    var matches := Matches(ctx.tasks, Target(c));
    if c.intentType.TaskControl? && |matches| == 1 then Some(matches[0]) else None
  }

  predicate KnownTask(ctx: Context, id: string) { exists i | 0 <= i < |ctx.tasks| :: ctx.tasks[i].id == id }

  function TaskGaps(c: Candidate, ctx: Context): seq<Gap> {
    if c.intentType.TaskControl? then (if TaskOf(c, ctx).None? then [NO_TASK] else [])
    else
      match EntityValue(c.entities, "task_target")
      case None => []
      case Some(id) => if KnownTask(ctx, id) then [] else [TASK_UNBOUND]
  }

  predicate HasOther(c: Candidate) { exists i | 0 <= i < |c.constraints| :: c.constraints[i].kind.OtherLimit? }

  function Missing(c: Candidate, ctx: Context): seq<Gap> {
    c.missing + RequiredGaps(c, ctx.required) + BindingGaps(ctx, c.entities)
    + (if !c.relation.NewRequest? && ctx.previous.None? then [NO_PREVIOUS] else [])
    + TaskGaps(c, ctx)
    + (if HasOther(c) then [UNCHECKABLE] else [])
  }

  function Ambiguities(c: Candidate): seq<Gap> {
    c.ambiguities + if Conflicting(c) then [CONFLICT] else []
  }

  /** require(previous matches identity, revision grows) */
  predicate Stale(c: Candidate, ctx: Context, ident: Identity) {
    && !c.relation.NewRequest? && ctx.previous.Some?
    && !(ctx.previous.value.intent == ident.intent && ident.revision > ctx.previous.value.revision)
  }

  /* ---------- the decision ---------- */

  function BusinessRoute(c: Candidate, ctx: Context): Route {
    if c.intentType.TaskControl? then ToTaskControl
    else if c.intentType.Question? && !ctx.needsEvidence then DirectAnswer
    else ToPlan
  }

  function Decide(c: Candidate, ctx: Context, gaps: seq<Gap>): (Status, Route) {
    if gaps != [] then (NeedsClarification, ToClarify)
    else if c.intentType.Unknown? then (Unsupported, ToUnsupported)
    else if BusinessRoute(c, ctx) !in ctx.routes then (Unsupported, ToUnsupported)
    else (Resolved, BusinessRoute(c, ctx))
  }

  /** The envelope for a candidate, its gaps and the task it is bound to. */
  function EnvelopeOf(digest: Body -> string, c: Candidate, ctx: Context, ident: Identity,
                      missing: seq<Gap>, ambiguities: seq<Gap>, task: Option<Task>): Envelope
  {
    var gaps := missing + ambiguities;
    var (status, route) := Decide(c, ctx, gaps);
    var body := Body(
      c.(missing := missing, ambiguities := ambiguities), ident, status, route,
      if status.NeedsClarification? && gaps != [] then Some(Clarification(gaps[0].reason, gaps[0].candidates, ident.revision)) else None,
      Binding(ctx.version, ctx.previous, task));
    Envelope(body, digest(body))
  }

  /** The envelope _resolve_verified builds. */
  function Resolution(digest: Body -> string, c: Candidate, ctx: Context, ident: Identity): Envelope {
    EnvelopeOf(digest, c, ctx, ident, Missing(c, ctx), Ambiguities(c), TaskOf(c, ctx))
  }

  /** The loop over the required paths. */
  method AddRequired(c: Candidate, required: seq<Path>, before: seq<Gap>) returns (missing: seq<Gap>)
    ensures missing == before + RequiredGaps(c, required)
  {
    missing := before;
    var i := 0;
    while i < |required|
      invariant 0 <= i <= |required|
      invariant missing == before + RequiredGaps(c, required[..i])
    {
      assert required[..i + 1][..i] == required[..i];
      if !Provides(c, required[i]) {
        missing := missing + [RequiredGap(required[i])];
      }
      i := i + 1;
    }
    assert required[..i] == required;
  }

  /** The loop over the entities. */
  method AddUnbound(ctx: Context, entities: seq<(string, string)>, before: seq<Gap>) returns (missing: seq<Gap>)
    ensures missing == before + BindingGaps(ctx, entities)
  {
    missing := before;
    var i := 0;
    while i < |entities|
      invariant 0 <= i <= |entities|
      invariant missing == before + BindingGaps(ctx, entities[..i])
    {
      assert entities[..i + 1][..i] == entities[..i];
      if !Bound(ctx, entities[i]) {
        missing := missing + [BindingGap(entities[i].0)];
      }
      i := i + 1;
    }
    assert entities[..i] == entities;
  }

  /** _resolve_verified: gap lists appended to in place, then the decision. */
  method ResolveVerified(digest: Body -> string, c: Candidate, ctx: Context, ident: Identity) returns (r: Result<Envelope, string>)
    ensures Stale(c, ctx, ident) ==> r == Err("stale intent revision")
    ensures !Stale(c, ctx, ident) ==> r == Ok(Resolution(digest, c, ctx, ident))
  {
    var missing := AddRequired(c, ctx.required, c.missing);
    missing := AddUnbound(ctx, c.entities, missing);
    var ambiguities := c.ambiguities;
    if !c.relation.NewRequest? {
      if ctx.previous.None? {
        missing := missing + [NO_PREVIOUS];
      } else if !(ctx.previous.value.intent == ident.intent && ident.revision > ctx.previous.value.revision) {
        return Err("stale intent revision");
      }
    }
    missing := missing + TaskGaps(c, ctx);
    if Conflicting(c) {
      ambiguities := ambiguities + [CONFLICT];
    }
    if HasOther(c) {
      missing := missing + [UNCHECKABLE];
    }
    assert missing == Missing(c, ctx);
    assert ambiguities == Ambiguities(c);
    var gaps := missing + ambiguities;
    var (status, route) := Decide(c, ctx, gaps);
    var body := Body(
      c.(missing := missing, ambiguities := ambiguities), ident, status, route,
      if status.NeedsClarification? && gaps != [] then Some(Clarification(gaps[0].reason, gaps[0].candidates, ident.revision)) else None,
      Binding(ctx.version, ctx.previous, TaskOf(c, ctx)));
    r := Ok(Envelope(body, digest(body)));
  }

  /* ---------- the envelope passes its validator ---------- */

  ghost predicate ValidGaps(gaps: seq<Gap>) { forall i :: 0 <= i < |gaps| ==> ValidGap(gaps[i]) }

  lemma TextAt(s: string, i: nat)
    requires i < |s| && !Blank(s[i])
    ensures Text(s)
  {
  }

  lemma {:induction false} RequiredGapsValid(c: Candidate, required: seq<Path>)
    requires forall i :: 0 <= i < |required| ==> Text(PathText(required[i])) && "/" <= PathText(required[i])
    ensures ValidGaps(RequiredGaps(c, required))
  {
    if required != [] {
      RequiredGapsValid(c, required[..|required| - 1]);
      TextAt(RequiredGap(required[|required| - 1]).code, 0);
      TextAt(RequiredGap(required[|required| - 1]).reason, 0);
    }
  }

  lemma {:induction false} BindingGapsValid(ctx: Context, entities: seq<(string, string)>)
    ensures ValidGaps(BindingGaps(ctx, entities))
  {
    if entities != [] {
      BindingGapsValid(ctx, entities[..|entities| - 1]);
      var g := BindingGap(entities[|entities| - 1].0);
      TextAt(g.path, 0);
      TextAt(g.code, 0);
      TextAt(g.reason, 0);
    }
  }

  lemma FixedGapsValid()
    ensures ValidGap(NO_PREVIOUS) && ValidGap(NO_TASK) && ValidGap(TASK_UNBOUND) && ValidGap(UNCHECKABLE) && ValidGap(CONFLICT)
  {
    TextAt(NO_PREVIOUS.path, 0); TextAt(NO_PREVIOUS.code, 0); TextAt(NO_PREVIOUS.reason, 0);
    TextAt(NO_TASK.path, 0); TextAt(NO_TASK.code, 0); TextAt(NO_TASK.reason, 0);
    TextAt(TASK_UNBOUND.path, 0); TextAt(TASK_UNBOUND.code, 0); TextAt(TASK_UNBOUND.reason, 0);
    TextAt(UNCHECKABLE.path, 0); TextAt(UNCHECKABLE.code, 0); TextAt(UNCHECKABLE.reason, 0);
    TextAt(CONFLICT.path, 0); TextAt(CONFLICT.code, 0); TextAt(CONFLICT.reason, 0);
  }

  lemma ConcatValid(a: seq<Gap>, b: seq<Gap>)
    requires ValidGaps(a) && ValidGaps(b)
    ensures ValidGaps(a + b)
  {
  }

  lemma OneValid(g: Gap)
    requires ValidGap(g)
    ensures ValidGaps([g])
  {
  }

  lemma OptionalGapsValid(c: Candidate, ctx: Context)
    ensures ValidGaps(TaskGaps(c, ctx)) && ValidGaps(if HasOther(c) then [UNCHECKABLE] else [])
    ensures ValidGaps(if !c.relation.NewRequest? && ctx.previous.None? then [NO_PREVIOUS] else [])
    ensures ValidGaps(if Conflicting(c) then [CONFLICT] else [])
  {
    FixedGapsValid();
    OneValid(NO_PREVIOUS);
    OneValid(NO_TASK);
    OneValid(TASK_UNBOUND);
    OneValid(UNCHECKABLE);
    OneValid(CONFLICT);
  }

  lemma GapsValid(c: Candidate, ctx: Context)
    requires ValidCandidate(c) && ValidContext(ctx)
    ensures ValidGaps(Missing(c, ctx)) && ValidGaps(Ambiguities(c))
  {
    RequiredGapsValid(c, ctx.required);
    BindingGapsValid(ctx, c.entities);
    OptionalGapsValid(c, ctx);
    var a := c.missing + RequiredGaps(c, ctx.required);
    var b := a + BindingGaps(ctx, c.entities);
    var p := if !c.relation.NewRequest? && ctx.previous.None? then [NO_PREVIOUS] else [];
    ConcatValid(c.missing, RequiredGaps(c, ctx.required));
    ConcatValid(a, BindingGaps(ctx, c.entities));
    ConcatValid(b, p);
    ConcatValid(b + p, TaskGaps(c, ctx));
    ConcatValid(b + p + TaskGaps(c, ctx), if HasOther(c) then [UNCHECKABLE] else []);
    ConcatValid(c.ambiguities, if Conflicting(c) then [CONFLICT] else []);
  }

  lemma {:induction false} MatchesAreTasks(tasks: seq<Task>, target: Option<string>)
    ensures forall t :: t in Matches(tasks, target) <==> t in tasks && (target.None? || t.id == target.value)
  {
    if tasks != [] {
      MatchesAreTasks(tasks[1..], target);
      assert forall t :: t in tasks <==> t == tasks[0] || t in tasks[1..];
    }
  }

  lemma TaskIsValid(c: Candidate, ctx: Context)
    requires ValidContext(ctx)
    ensures TaskOf(c, ctx).Some? ==> TaskOf(c, ctx).value in ctx.tasks && ValidTask(TaskOf(c, ctx).value)
  {
    MatchesAreTasks(ctx.tasks, Target(c));
    var matches := Matches(ctx.tasks, Target(c));
    if TaskOf(c, ctx).Some? {
      assert matches[0] in matches;
    }
  }

  lemma EnvelopeIsValid(digest: Body -> string, c: Candidate, ctx: Context, ident: Identity,
                        missing: seq<Gap>, ambiguities: seq<Gap>, task: Option<Task>)
    requires ValidCandidate(c) && ValidContext(ctx) && ValidIdentity(ident) && ValidGaps(missing) && ValidGaps(ambiguities)
    requires task.Some? ==> ValidTask(task.value)
    requires missing == [] && ambiguities == [] && c.intentType.TaskControl? ==> task.Some?
    ensures ValidEnvelope(digest, EnvelopeOf(digest, c, ctx, ident, missing, ambiguities, task))
  {
    var gaps := missing + ambiguities;
    if gaps != [] {
      ConcatValid(missing, ambiguities);
      assert ValidGap(gaps[0]);
    }
  }

  /** Whatever valid input arrives, the envelope built is one the validator accepts. */
  lemma ResolutionIsValid(digest: Body -> string, c: Candidate, ctx: Context, ident: Identity)
    requires ValidCandidate(c) && ValidContext(ctx) && ValidIdentity(ident)
    ensures ValidEnvelope(digest, Resolution(digest, c, ctx, ident))
  {
    GapsValid(c, ctx);
    TaskIsValid(c, ctx);
    UnboundControlIsMissing(c, ctx);
    EnvelopeIsValid(digest, c, ctx, ident, Missing(c, ctx), Ambiguities(c), TaskOf(c, ctx));
  }

  lemma UnboundControlIsMissing(c: Candidate, ctx: Context)
    ensures c.intentType.TaskControl? && TaskOf(c, ctx).None? ==> Missing(c, ctx) != []
  {
    assert c.intentType.TaskControl? && TaskOf(c, ctx).None? ==> NO_TASK in Missing(c, ctx);
  }

  /* ---------- when a request is resolved ---------- */

  /** Read off the request and the server's facts, without the gap lists. */
  ghost predicate Settled(c: Candidate, ctx: Context) {
    NothingOpen(c, ctx) && !c.intentType.Unknown? && BusinessRoute(c, ctx) in ctx.routes
  }

  /** Nothing is missing, ambiguous, unbound or uncheckable, and the target fits. */
  ghost predicate NothingOpen(c: Candidate, ctx: Context) {
    && c.missing == [] && c.ambiguities == []
    && (forall i :: 0 <= i < |ctx.required| ==> Provides(c, ctx.required[i]))
    && (forall i :: 0 <= i < |c.entities| ==> Bound(ctx, c.entities[i]))
    && (!c.relation.NewRequest? ==> ctx.previous.Some?)
    && (forall i :: 0 <= i < |c.constraints| ==> !c.constraints[i].kind.OtherLimit?)
    && !Conflicting(c)
    && TargetFits(c, ctx)
  }

  /** Task control needs exactly one task for its target; elsewhere a named task has to be known. */
  ghost predicate TargetFits(c: Candidate, ctx: Context) {
    if c.intentType.TaskControl? then exists t :: OnlyTask(ctx, Target(c), t)
    else EntityValue(c.entities, "task_target").Some? ==> KnownTask(ctx, EntityValue(c.entities, "task_target").value)
  }

  /** t is the one accessible task a target allows. */
  ghost predicate OnlyTask(ctx: Context, target: Option<string>, t: Task) {
    && t in ctx.tasks && (target.None? || t.id == target.value)
    && forall u :: u in ctx.tasks && (target.None? || u.id == target.value) ==> u == t
  }

  lemma {:induction false} RequiredGapsEmpty(c: Candidate, required: seq<Path>)
    ensures RequiredGaps(c, required) == [] <==> forall i :: 0 <= i < |required| ==> Provides(c, required[i])
  {
    if required != [] {
      var n := |required| - 1;
      RequiredGapsEmpty(c, required[..n]);
      assert forall i :: 0 <= i < n ==> required[..n][i] == required[i];
    }
  }

  lemma {:induction false} BindingGapsEmpty(ctx: Context, entities: seq<(string, string)>)
    ensures BindingGaps(ctx, entities) == [] <==> forall i :: 0 <= i < |entities| ==> Bound(ctx, entities[i])
  {
    if entities != [] {
      var n := |entities| - 1;
      BindingGapsEmpty(ctx, entities[..n]);
      assert forall i :: 0 <= i < n ==> entities[..n][i] == entities[i];
    }
  }

  lemma {:induction false} MatchesDistinct(tasks: seq<Task>, target: Option<string>)
    requires forall i, j :: 0 <= i < j < |tasks| ==> tasks[i].id != tasks[j].id
    ensures forall i, j :: 0 <= i < j < |Matches(tasks, target)| ==> Matches(tasks, target)[i] != Matches(tasks, target)[j]
  {
    if tasks != [] {
      MatchesDistinct(tasks[1..], target);
      MatchesAreTasks(tasks[1..], target);
      forall t | t in tasks[1..] ensures t != tasks[0] {
        var i :| 0 <= i < |tasks[1..]| && tasks[1..][i] == t;
        assert tasks[i + 1] == t;
      }
      var rest := Matches(tasks[1..], target);
      assert forall i :: 0 <= i < |rest| ==> rest[i] in rest;
    }
  }

  lemma TaskIffOnly(c: Candidate, ctx: Context)
    requires ValidContext(ctx) && c.intentType.TaskControl?
    ensures TaskOf(c, ctx).Some? <==> exists t :: OnlyTask(ctx, Target(c), t)
    ensures TaskOf(c, ctx).Some? ==> OnlyTask(ctx, Target(c), TaskOf(c, ctx).value)
  {
    var target := Target(c);
    var matches := Matches(ctx.tasks, target);
    MatchesAreTasks(ctx.tasks, target);
    MatchesDistinct(ctx.tasks, target);
    if |matches| == 1 {
      assert matches[0] in matches;
      forall u | u in ctx.tasks && (target.None? || u.id == target.value) ensures u == matches[0] {
        assert u in matches;
      }
      assert OnlyTask(ctx, target, matches[0]);
    } else {
      forall t ensures !OnlyTask(ctx, target, t) {
        NotOnly(ctx, target, matches, t);
      }
    }
  }

  lemma NotOnly(ctx: Context, target: Option<string>, matches: seq<Task>, t: Task)
    requires forall u :: u in matches <==> u in ctx.tasks && (target.None? || u.id == target.value)
    requires forall i, j :: 0 <= i < j < |matches| ==> matches[i] != matches[j]
    requires |matches| != 1
    ensures !OnlyTask(ctx, target, t)
  {
    if |matches| >= 2 {
      assert matches[0] in matches && matches[1] in matches && matches[0] != matches[1];
    } else {
      assert t !in matches;
    }
  }

  lemma NoTaskGapIff(c: Candidate, ctx: Context)
    requires ValidContext(ctx)
    ensures TaskGaps(c, ctx) == [] <==> TargetFits(c, ctx)
  {
    if c.intentType.TaskControl? {
      TaskIffOnly(c, ctx);
    }
  }

  /** No gap is reported exactly when nothing is open. */
  lemma NoGapsIffNothingOpen(c: Candidate, ctx: Context)
    requires ValidContext(ctx)
    ensures Missing(c, ctx) + Ambiguities(c) == [] <==> NothingOpen(c, ctx)
  {
    RequiredGapsEmpty(c, ctx.required);
    BindingGapsEmpty(ctx, c.entities);
    NoTaskGapIff(c, ctx);
    NoGapsIff(c, ctx);
  }

  /** With no gap the candidate is handed on unchanged. */
  lemma NoGapsKeepCandidate(c: Candidate, ctx: Context)
    requires Missing(c, ctx) + Ambiguities(c) == []
    ensures c.(missing := Missing(c, ctx), ambiguities := Ambiguities(c)) == c
  {
    NoGapsIff(c, ctx);
    assert Missing(c, ctx) == [] && Ambiguities(c) == [];
  }

  /** A request resolves exactly when it is settled, and then along its business route with its one task. */
  lemma ResolvedIffSettled(digest: Body -> string, c: Candidate, ctx: Context, ident: Identity)
    requires ValidCandidate(c) && ValidContext(ctx)
    ensures var b := Resolution(digest, c, ctx, ident).body;
      && (b.status.Resolved? <==> Settled(c, ctx))
      && (b.status.Resolved? ==> b.route == BusinessRoute(c, ctx) && b.candidate == c)
      && (b.status.Resolved? && c.intentType.TaskControl? ==>
            b.binding.task.Some? && OnlyTask(ctx, Target(c), b.binding.task.value))
      && (b.route.DirectAnswer? ==> c.intentType.Question? && !ctx.needsEvidence)
  {
    NoGapsIffNothingOpen(c, ctx);
    if Missing(c, ctx) + Ambiguities(c) == [] {
      NoGapsKeepCandidate(c, ctx);
      if c.intentType.TaskControl? {
        TaskIffOnly(c, ctx);
      }
    }
  }

  lemma NoGapsIff(c: Candidate, ctx: Context)
    ensures Missing(c, ctx) + Ambiguities(c) == [] <==>
      && c.missing == [] && c.ambiguities == [] && RequiredGaps(c, ctx.required) == [] && BindingGaps(ctx, c.entities) == []
      && (!c.relation.NewRequest? ==> ctx.previous.Some?) && TaskGaps(c, ctx) == [] && !HasOther(c) && !Conflicting(c)
  {
    var m := Missing(c, ctx);
    assert |m| == |c.missing| + |RequiredGaps(c, ctx.required)| + |BindingGaps(ctx, c.entities)|
      + (if !c.relation.NewRequest? && ctx.previous.None? then 1 else 0) + |TaskGaps(c, ctx)| + (if HasOther(c) then 1 else 0);
  }
}
