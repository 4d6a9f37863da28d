/**
  Intent candidates, server contexts and resolved envelopes as values, with the
  validators that guard each of them.
*/
module IntentModel {
  import opened Prelude

  datatype IntentType = Question | Diagnose | Execute | TaskControl | Unknown
  datatype Relation = NewRequest | Continuation | Correction
  datatype Status = NeedsClarification | Unsupported | Resolved
  datatype Route = DirectAnswer | ToPlan | ToTaskControl | ToClarify | ToUnsupported

  datatype Kind = ReadOnly | ForbidRestart | Deadline | AccessScope | OtherLimit
  datatype Value = Yes | Words(text: string)
  datatype Constraint = Constraint(kind: Kind, value: Value)

  /** A JSON pointer into a candidate; `Elsewhere` is any pointer that names no extracted field. */
  datatype Path = Objective | Entity(key: string) | ConstraintAt(index: nat) | ControlTarget | Elsewhere(text: string)

  /** What can stand at a path. */
  datatype Field = TextField(text: string) | LimitField(constraint: Constraint) | NullField

  datatype Origin = User(message: string, quote: string) | FromContext(version: string)
  datatype Source = Source(path: Path, origin: Origin)

  datatype Gap = Gap(path: string, code: string, reason: string, candidates: seq<string>)

  datatype Operation = ReadStatus | Cancel
  datatype Control = Control(operation: Operation, target: Option<string>)

  /** Entities are listed in key order, each key once. */
  datatype Candidate = Candidate(
    intentType: IntentType, relation: Relation, objective: string, entities: seq<(string, string)>,
    constraints: seq<Constraint>, provenance: seq<Source>, missing: seq<Gap>, ambiguities: seq<Gap>,
    control: Option<Control>, reason: string)

  datatype Task = Task(id: string, run: Option<string>, version: string)
  datatype Previous = Previous(intent: string, revision: int)

  datatype Context = Context(
    actor: string, session: string, incident: string, version: string, message: string,
    messages: map<string, string>, verified: map<Path, Field>, known: map<Path, Field>,
    required: seq<Path>, tasks: seq<Task>, routes: set<Route>, needsEvidence: bool, previous: Option<Previous>)

  datatype Identity = Identity(intent: string, revision: int, session: string, incident: string, message: string, created: string)

  datatype Clarification = Clarification(question: string, candidates: seq<string>, revision: int)
  datatype Binding = Binding(version: string, previous: Option<Previous>, task: Option<Task>)

  /** Everything of an envelope that its content hash covers. */
  datatype Body = Body(candidate: Candidate, identity: Identity, status: Status, route: Route,
                       clarification: Option<Clarification>, binding: Binding)
  datatype Envelope = Envelope(body: Body, hash: string)

  /* ---------- candidates ---------- */

  const ENTITY_NAMES := {"service", "interface", "environment", "repository", "commit", "time_window", "task_target"}

  predicate Blank(c: char) { c == ' ' || c == '\t' || c == '\n' || c == '\r' }

  /** A string that is not empty after stripping. */
  predicate Text(s: string) { exists i | 0 <= i < |s| :: !Blank(s[i]) }

  predicate HasKey(entities: seq<(string, string)>, key: string) {
    exists i | 0 <= i < |entities| :: entities[i].0 == key
  }

  ghost predicate DistinctKeys(entities: seq<(string, string)>) {
    forall i, j :: 0 <= i < j < |entities| ==> entities[i].0 != entities[j].0
  }

  predicate Prohibition(kind: Kind) { kind.ReadOnly? || kind.ForbidRestart? }

  predicate ValidConstraint(c: Constraint) {
    if Prohibition(c.kind) then c.value.Yes? else c.value.Words? && Text(c.value.text)
  }

  /** Kinds other than `other` occur at most once. */
  ghost predicate UniqueKinds(constraints: seq<Constraint>) {
    forall i, j :: 0 <= i < j < |constraints| && !constraints[i].kind.OtherLimit? ==> constraints[i].kind != constraints[j].kind
  }

  predicate ValidOrigin(o: Origin) {
    match o
    case User(message, quote) => Text(message) && Text(quote)
    case FromContext(version) => Text(version)
  }

  predicate ValidGap(g: Gap) {
    && Text(g.path) && Text(g.code) && Text(g.reason) && "/" <= g.path
    && forall i | 0 <= i < |g.candidates| :: Text(g.candidates[i])
  }

  /** validate_candidate */
  ghost predicate ValidCandidate(c: Candidate) {
    && Text(c.objective) && Text(c.reason)
    && DistinctKeys(c.entities)
    && (forall i :: 0 <= i < |c.entities| ==> c.entities[i].0 in ENTITY_NAMES && Text(c.entities[i].1))
    && (forall i :: 0 <= i < |c.constraints| ==> ValidConstraint(c.constraints[i]))
    && UniqueKinds(c.constraints)
    && (forall i :: 0 <= i < |c.provenance| ==> ValidOrigin(c.provenance[i].origin))
    && (forall i :: 0 <= i < |c.missing| ==> ValidGap(c.missing[i]))
    && (forall i :: 0 <= i < |c.ambiguities| ==> ValidGap(c.ambiguities[i]))
    && (c.intentType.TaskControl? <==> c.control.Some?)
    && (c.control.Some? && c.control.value.target.Some? ==> Text(c.control.value.target.value))
  }

  /* ---------- contexts and identities ---------- */

  predicate ValidTask(t: Task) {
    Text(t.id) && Text(t.version) && (t.run.Some? ==> Text(t.run.value))
  }

  predicate ValidPrevious(p: Option<Previous>) {
    p.Some? ==> Text(p.value.intent) && p.value.revision > 0
  }

  function PathText(p: Path): string {
    match p
    case Objective => "/objective"
    case Entity(key) => "/entities/" + key
    case ConstraintAt(_) => "/constraints"
    case ControlTarget => "/control/target"
    case Elsewhere(text) => text
  }

  const BUSINESS_ROUTES := {DirectAnswer, ToPlan, ToTaskControl}

  /** AuthorizedIntentContext.validate */
  ghost predicate ValidContext(ctx: Context) {
    && Text(ctx.actor) && Text(ctx.session) && Text(ctx.incident) && Text(ctx.version) && Text(ctx.message)
    && (forall m :: m in ctx.messages ==> Text(m) && Text(ctx.messages[m]))
    && ctx.message in ctx.messages
    && (forall i :: 0 <= i < |ctx.required| ==> Text(PathText(ctx.required[i])) && "/" <= PathText(ctx.required[i]))
    && ctx.routes <= BUSINESS_ROUTES
    && (forall i :: 0 <= i < |ctx.tasks| ==> ValidTask(ctx.tasks[i]))
    && (forall i, j :: 0 <= i < j < |ctx.tasks| ==> ctx.tasks[i].id != ctx.tasks[j].id)
    && ValidPrevious(ctx.previous)
  }

  /** validate_identity; the shape of the time stamp is part of the abstraction. */
  predicate ValidIdentity(ident: Identity) {
    && Text(ident.intent) && Text(ident.session) && Text(ident.incident) && Text(ident.message) && Text(ident.created)
    && ident.revision > 0
  }

  /* ---------- envelopes ---------- */

  /** ResolvedIntent.validate */
  ghost predicate ValidEnvelope(digest: Body -> string, e: Envelope) {
    var b := e.body;
    && ValidCandidate(b.candidate)
    && ValidIdentity(b.identity)
    && e.hash == digest(b)
    && match b.status {
         case NeedsClarification => b.route.ToClarify?
         case Unsupported => b.route.ToUnsupported?
         case Resolved => b.route in BUSINESS_ROUTES
       }
    && Text(b.binding.version) && ValidPrevious(b.binding.previous)
    && (b.binding.task.Some? ==> ValidTask(b.binding.task.value))
    && (b.status.Resolved? ==>
          && b.candidate.missing == [] && b.candidate.ambiguities == []
          && !b.candidate.intentType.Unknown?
          && (b.route.DirectAnswer? ==> b.candidate.intentType.Question?)
          && (b.route.ToTaskControl? <==> b.candidate.intentType.TaskControl?)
          && (b.route.ToTaskControl? ==> b.binding.task.Some?))
    && if b.status.NeedsClarification?
       then b.clarification.Some? && Text(b.clarification.value.question) && b.clarification.value.revision == b.identity.revision
       else b.clarification.None?
  }
}
