/**
  Carrying conversational facts from one revision of an intent to the next:
  source checks and the merge with its re-indexed provenance.
*/
module IntentMerge {
  import opened Prelude
  import opened IntentModel

  /** What the regular expressions recognise in a message or a constraint text. */
  datatype Lexicon = Lexicon(
    prohibits: (string, Kind) -> bool,  // an explicit prohibition of this kind opens a clause
    taskIds: string -> set<string>,     // task and plan ids named outright
    configAlias: string -> bool)        // "do not change the configuration"

  /* ---------- source checks ---------- */

  predicate HasSource(provenance: seq<Source>, p: Path) {
    exists i | 0 <= i < |provenance| :: provenance[i].path == p
  }

  /** The value extracted at a path, if the candidate has that field. */
  function FieldAt(c: Candidate, p: Path): Option<Field> {
    match p
    case Objective => Some(TextField(c.objective))
    case Entity(key) => Lookup(c.entities, key)
    case ConstraintAt(i) => if i < |c.constraints| then Some(LimitField(c.constraints[i])) else None
    case ControlTarget =>
      if c.control.Some? && (c.control.value.target.Some? || HasSource(c.provenance, ControlTarget))
      then Some(if c.control.value.target.Some? then TextField(c.control.value.target.value) else NullField)
      else None
    case Elsewhere(_) => None
  }

  function Lookup(entities: seq<(string, string)>, key: string): Option<Field> {
    if entities == [] then None
    else if entities[0].0 == key then Some(TextField(entities[0].1))
    else Lookup(entities[1..], key)
  }

  function Contains(text: string, part: string): bool {
    part <= text || (text != "" && Contains(text[1..], part))
  }

  /** One source claim against the messages and the server's facts; later facts override verified ones. */
  predicate Holds(ctx: Context, o: Origin, p: Path, f: Field) {
    match o
    case User(message, quote) => message in ctx.messages && Contains(ctx.messages[message], quote)
    case FromContext(version) =>
      version == ctx.version &&
      if p in ctx.known then ctx.known[p] == f else p in ctx.verified && ctx.verified[p] == f
  }

  ghost predicate UniquePaths(provenance: seq<Source>) {
    forall i, j :: 0 <= i < j < |provenance| ==> provenance[i].path != provenance[j].path
  }

  /** Provenance is a bijection onto the extracted fields and every claim holds. */
  ghost predicate Traced(c: Candidate, ctx: Context) {
    && UniquePaths(c.provenance)
    && (forall p :: FieldAt(c, p).Some? <==> HasSource(c.provenance, p))
    && (forall i :: 0 <= i < |c.provenance| ==>
          Holds(ctx, c.provenance[i].origin, c.provenance[i].path, FieldAt(c, c.provenance[i].path).value))
  }

  predicate HasKind(constraints: seq<Constraint>, kind: Kind) {
    exists i | 0 <= i < |constraints| :: constraints[i].kind == kind
  }

  /** Explicit prohibitions of the message survive extraction. */
  predicate KeepsProhibitions(lex: Lexicon, c: Candidate, ctx: Context)
    requires ctx.message in ctx.messages
  {
    c.intentType in {Diagnose, Execute, TaskControl} ==>
      && (lex.prohibits(ctx.messages[ctx.message], ReadOnly) ==> HasKind(c.constraints, ReadOnly))
      && (lex.prohibits(ctx.messages[ctx.message], ForbidRestart) ==> HasKind(c.constraints, ForbidRestart))
  }

  function Targets(c: Candidate): set<string> {
    (if c.control.Some? && c.control.value.target.Some? then {c.control.value.target.value} else {})
    + (match Lookup(c.entities, "task_target") case Some(TextField(id)) => {id} case _ => {})
  }

  /** Task ids named outright are the ones controlled. */
  predicate KeepsTaskIds(lex: Lexicon, c: Candidate, ctx: Context)
    requires ctx.message in ctx.messages
  {
    var named := lex.taskIds(ctx.messages[ctx.message]);
    c.intentType.TaskControl? && named != {} ==>
      Targets(c) != {} && Targets(c) <= named && (|named| == 1 || c.ambiguities != [])
  }

  /** validate_sources */
  ghost predicate SourcesOk(lex: Lexicon, c: Candidate, ctx: Context) {
    ctx.message in ctx.messages && KeepsProhibitions(lex, c, ctx) && KeepsTaskIds(lex, c, ctx) && Traced(c, ctx)
  }

  /* ---------- the merge ---------- */

  /** Previous constraints whose kind the new message does not mention. */
  function Carried(previous: seq<Constraint>, incoming: seq<Constraint>): seq<Constraint> {
    if previous == [] then []
    else
      var last := previous[|previous| - 1];
      Carried(previous[..|previous| - 1], incoming) + if HasKind(incoming, last.kind) then [] else [last]
  }

  function NewEntities(previous: seq<(string, string)>, current: seq<(string, string)>): seq<(string, string)> {
    if previous == [] then []
    else
      var last := previous[|previous| - 1];
      NewEntities(previous[..|previous| - 1], current) + if HasKey(current, last.0) then [] else [last]
  }

  function SourceOf(provenance: seq<Source>, p: Path): Option<Origin> {
    if provenance == [] then None
    else if provenance[|provenance| - 1].path == p then Some(provenance[|provenance| - 1].origin)
    else SourceOf(provenance[..|provenance| - 1], p)
  }

  /** Fields the merge takes over from the previous revision, with the value it declares known. */
  function Inherited(prev: Candidate, c: Candidate, p: Path): Option<Field> {
    match p
    case Objective => if c.relation.Continuation? then Some(TextField(prev.objective)) else None
    case ControlTarget =>
      if c.relation.Continuation? && prev.control.Some? && prev.control.value.target.Some?
      then Some(TextField(prev.control.value.target.value)) else None
    case Entity(key) => if HasKey(c.entities, key) then None else Lookup(prev.entities, key)
    case ConstraintAt(i) =>
      var carried := Carried(prev.constraints, c.constraints);
      if i < |carried| then Some(LimitField(carried[i])) else None
    case Elsewhere(_) => None
  }

  /** Where the origin of a merged field comes from: inherited, re-indexed, or kept. */
  function MergedOrigin(prev: Candidate, c: Candidate, ctx: Context, p: Path): Option<Origin> {
    if Inherited(prev, c, p).Some? then Some(FromContext(ctx.version))
    else if p.ConstraintAt? then
      var n := |Carried(prev.constraints, c.constraints)|;
      if p.index < n + |c.constraints| then SourceOf(c.provenance, ConstraintAt(p.index - n)) else None
    else SourceOf(c.provenance, p)
  }

  /** The merged candidate without its provenance. */
  function MergedFields(prev: Candidate, c: Candidate): Candidate {
    c.(objective := if c.relation.Continuation? then prev.objective else c.objective,
       intentType := if c.relation.Continuation? then prev.intentType else c.intentType,
       control := if c.relation.Continuation? then prev.control else c.control,
       entities := c.entities + NewEntities(prev.entities, c.entities),
       constraints := Carried(prev.constraints, c.constraints) + c.constraints,
       provenance := [])
  }

  /** m is what _merge returns: the merged fields and one source for every path that has an origin. */
  ghost predicate IsMerge(prev: Candidate, c: Candidate, ctx: Context, m: Candidate, ctx': Context) {
    && m.(provenance := []) == MergedFields(prev, c)
    && UniquePaths(m.provenance)
    && (forall p :: SourceOf(m.provenance, p) == MergedOrigin(prev, c, ctx, p))
    && ctx' == ctx.(known := ctx'.known)
    && (forall p :: Inherited(prev, c, p).Some? ==> p in ctx'.known && ctx'.known[p] == Inherited(prev, c, p).value)
    && (forall p :: Inherited(prev, c, p).None? ==> (p in ctx'.known <==> p in ctx.known))
    && (forall p :: Inherited(prev, c, p).None? && p in ctx.known ==> ctx'.known[p] == ctx.known[p])
  }

  /* ---------- lookups in provenance lists ---------- */

  lemma {:induction false} SourceOfHas(provenance: seq<Source>, p: Path)
    ensures SourceOf(provenance, p).Some? <==> HasSource(provenance, p)
  {
    if provenance != [] {
      var n := |provenance| - 1;
      SourceOfHas(provenance[..n], p);
      assert forall i :: 0 <= i < n ==> provenance[..n][i] == provenance[i];
    }
  }

  lemma {:induction false} SourceOfAt(provenance: seq<Source>, i: nat)
    requires UniquePaths(provenance) && i < |provenance|
    ensures SourceOf(provenance, provenance[i].path) == Some(provenance[i].origin)
    decreases |provenance|
  {
    var n := |provenance| - 1;
    if i < n {
      SourceOfAt(provenance[..n], i);
    }
  }

  /** Tracedness path by path. */
  ghost predicate TracedAt(c: Candidate, ctx: Context, p: Path) {
    && (FieldAt(c, p).Some? <==> SourceOf(c.provenance, p).Some?)
    && (FieldAt(c, p).Some? && SourceOf(c.provenance, p).Some? ==> Holds(ctx, SourceOf(c.provenance, p).value, p, FieldAt(c, p).value))
  }

  lemma TracedPathwise(c: Candidate, ctx: Context)
    requires UniquePaths(c.provenance)
    ensures Traced(c, ctx) <==> forall p :: TracedAt(c, ctx, p)
  {
    forall p ensures SourceOf(c.provenance, p).Some? <==> HasSource(c.provenance, p) {
      SourceOfHas(c.provenance, p);
    }
    forall i | 0 <= i < |c.provenance|
      ensures SourceOf(c.provenance, c.provenance[i].path) == Some(c.provenance[i].origin)
    {
      SourceOfAt(c.provenance, i);
    }
    if Traced(c, ctx) {
      forall p ensures TracedAt(c, ctx, p) {
        if HasSource(c.provenance, p) {
          var i :| 0 <= i < |c.provenance| && c.provenance[i].path == p;
        }
      }
    } else if forall p :: TracedAt(c, ctx, p) {
      forall i | 0 <= i < |c.provenance|
        ensures FieldAt(c, c.provenance[i].path).Some?
        ensures Holds(ctx, c.provenance[i].origin, c.provenance[i].path, FieldAt(c, c.provenance[i].path).value)
      {
        assert TracedAt(c, ctx, c.provenance[i].path);
      }
      forall p ensures FieldAt(c, p).Some? <==> HasSource(c.provenance, p) {
        assert TracedAt(c, ctx, p);
      }
      assert Traced(c, ctx);
    }
  }

  /* ---------- entities and constraints of a merge ---------- */

  lemma {:induction false} LookupHas(entities: seq<(string, string)>, key: string)
    ensures Lookup(entities, key).Some? <==> HasKey(entities, key)
  {
    if entities != [] {
      LookupHas(entities[1..], key);
      assert forall i :: 1 <= i < |entities| ==> entities[i] == entities[1..][i - 1];
      if HasKey(entities[1..], key) {
        var i :| 0 <= i < |entities[1..]| && entities[1..][i].0 == key;
        assert entities[i + 1].0 == key;
      }
    }
  }

  lemma {:induction false} LookupConcat(a: seq<(string, string)>, b: seq<(string, string)>, key: string)
    ensures Lookup(a + b, key) == if Lookup(a, key).Some? then Lookup(a, key) else Lookup(b, key)
  {
    if a == [] {
      assert a + b == b;
    } else {
      assert (a + b)[1..] == a[1..] + b;
      LookupConcat(a[1..], b, key);
    }
  }

  lemma {:induction false} LookupNew(previous: seq<(string, string)>, current: seq<(string, string)>, key: string)
    ensures Lookup(NewEntities(previous, current), key) == if HasKey(current, key) then None else Lookup(previous, key)
  {
    if previous != [] {
      var n := |previous| - 1;
      LookupNew(previous[..n], current, key);
      assert previous == previous[..n] + [previous[n]];
      LookupConcat(previous[..n], [previous[n]], key);
      if !HasKey(current, previous[n].0) {
        LookupConcat(NewEntities(previous[..n], current), [previous[n]], key);
      } else {
        assert NewEntities(previous, current) == NewEntities(previous[..n], current);
      }
    }
  }

  /** Every entity keeps its newest value. */
  lemma MergedEntity(prev: Candidate, c: Candidate, key: string)
    ensures Lookup(MergedFields(prev, c).entities, key)
         == if HasKey(c.entities, key) then Lookup(c.entities, key) else Lookup(prev.entities, key)
  {
    LookupConcat(c.entities, NewEntities(prev.entities, c.entities), key);
    LookupNew(prev.entities, c.entities, key);
    LookupHas(c.entities, key);
  }

  /* ---------- when the merged provenance passes ---------- */

  /** A continuation keeps the previous control, so a source for a control target must still have a field. */
  predicate ControlCarries(prev: Candidate, c: Candidate) {
    c.relation.Continuation? && HasSource(c.provenance, ControlTarget) ==>
      && prev.control.Some?
      && (prev.control.value.target.Some? || (c.control.Some? && c.control.value.target.None?)
          || !(SourceOf(c.provenance, ControlTarget).Some? && SourceOf(c.provenance, ControlTarget).value.FromContext?))
  }

  /** A context-sourced constraint changes its address; the server must know it at the new one. */
  ghost predicate ShiftedKnown(prev: Candidate, c: Candidate, ctx: Context) {
    var n := |Carried(prev.constraints, c.constraints)|;
    forall i :: 0 <= i < |c.constraints|
      && SourceOf(c.provenance, ConstraintAt(i)).Some? && SourceOf(c.provenance, ConstraintAt(i)).value.FromContext?
      ==> Holds(ctx, FromContext(ctx.version), ConstraintAt(n + i), LimitField(c.constraints[i]))
  }

  lemma MergedTracedElsewhere(prev: Candidate, c: Candidate, ctx: Context, m: Candidate, ctx': Context, p: Path)
    requires Traced(c, ctx) && IsMerge(prev, c, ctx, m, ctx') && !p.ConstraintAt? && !p.ControlTarget?
    ensures TracedAt(m, ctx', p)
  {
    TracedPathwise(c, ctx);
    assert TracedAt(c, ctx, p);
    if p.Entity? {
      MergedEntity(prev, c, p.key);
      assert m.entities == MergedFields(prev, c).entities;
      LookupHas(c.entities, p.key);
    }
  }

  lemma MergedTracedControl(prev: Candidate, c: Candidate, ctx: Context, m: Candidate, ctx': Context)
    requires Traced(c, ctx) && IsMerge(prev, c, ctx, m, ctx') && (c.intentType.TaskControl? <==> c.control.Some?)
    ensures TracedAt(m, ctx', ControlTarget) <==> ControlCarries(prev, c)
  {
    TracedPathwise(c, ctx);
    assert TracedAt(c, ctx, ControlTarget);
    SourceOfHas(c.provenance, ControlTarget);
    SourceOfHas(m.provenance, ControlTarget);
    assert m.control == MergedFields(prev, c).control;
  }

  lemma MergedTracedConstraint(prev: Candidate, c: Candidate, ctx: Context, m: Candidate, ctx': Context, i: nat)
    requires Traced(c, ctx) && IsMerge(prev, c, ctx, m, ctx')
    ensures var n := |Carried(prev.constraints, c.constraints)|;
      TracedAt(m, ctx', ConstraintAt(i)) <==>
        (n <= i < n + |c.constraints| && SourceOf(c.provenance, ConstraintAt(i - n)).Some?
          && SourceOf(c.provenance, ConstraintAt(i - n)).value.FromContext?
         ==> Holds(ctx, FromContext(ctx.version), ConstraintAt(i), LimitField(c.constraints[i - n])))
  {
    var n := |Carried(prev.constraints, c.constraints)|;
    assert m.constraints == Carried(prev.constraints, c.constraints) + c.constraints;
    TracedPathwise(c, ctx);
    if n <= i < n + |c.constraints| {
      assert TracedAt(c, ctx, ConstraintAt(i - n));
    }
  }

  lemma CarriesIsTraced(prev: Candidate, c: Candidate, ctx: Context, m: Candidate, ctx': Context)
    requires Traced(c, ctx) && IsMerge(prev, c, ctx, m, ctx') && (c.intentType.TaskControl? <==> c.control.Some?)
    requires ControlCarries(prev, c) && ShiftedKnown(prev, c, ctx)
    ensures Traced(m, ctx')
  {
    var n := |Carried(prev.constraints, c.constraints)|;
    forall p ensures TracedAt(m, ctx', p) {
      if p.ConstraintAt? {
        MergedTracedConstraint(prev, c, ctx, m, ctx', p.index);
        if n <= p.index < n + |c.constraints| {
          assert p == ConstraintAt(n + (p.index - n));
        }
      } else if p.ControlTarget? {
        MergedTracedControl(prev, c, ctx, m, ctx');
      } else {
        MergedTracedElsewhere(prev, c, ctx, m, ctx', p);
      }
    }
    TracedPathwise(m, ctx');
  }

  lemma TracedCarries(prev: Candidate, c: Candidate, ctx: Context, m: Candidate, ctx': Context)
    requires Traced(c, ctx) && IsMerge(prev, c, ctx, m, ctx') && (c.intentType.TaskControl? <==> c.control.Some?)
    requires Traced(m, ctx')
    ensures ControlCarries(prev, c) && ShiftedKnown(prev, c, ctx)
  {
    var n := |Carried(prev.constraints, c.constraints)|;
    TracedPathwise(m, ctx');
    assert TracedAt(m, ctx', ControlTarget);
    MergedTracedControl(prev, c, ctx, m, ctx');
    forall i | 0 <= i < |c.constraints|
      && SourceOf(c.provenance, ConstraintAt(i)).Some? && SourceOf(c.provenance, ConstraintAt(i)).value.FromContext?
      ensures Holds(ctx, FromContext(ctx.version), ConstraintAt(n + i), LimitField(c.constraints[i]))
    {
      MergedTracedConstraint(prev, c, ctx, m, ctx', n + i);
      assert TracedAt(m, ctx', ConstraintAt(n + i));
    }
  }

  /**
    The merged provenance is again a verified bijection onto the merged fields
    exactly when the control target carries over and every re-indexed
    context-sourced constraint is also known at its new address.
  */
  lemma MergeTracedIff(prev: Candidate, c: Candidate, ctx: Context, m: Candidate, ctx': Context)
    requires Traced(c, ctx) && IsMerge(prev, c, ctx, m, ctx') && (c.intentType.TaskControl? <==> c.control.Some?)
    ensures Traced(m, ctx') <==> ControlCarries(prev, c) && ShiftedKnown(prev, c, ctx)
  {
    if Traced(m, ctx') {
      TracedCarries(prev, c, ctx, m, ctx');
    }
    if ControlCarries(prev, c) && ShiftedKnown(prev, c, ctx) {
      CarriesIsTraced(prev, c, ctx, m, ctx');
    }
  }

  /** The usual case: constraints quoted from the user, and a correction or a continuation outside task control. */
  lemma UserSourcedMergeIsTraced(prev: Candidate, c: Candidate, ctx: Context, m: Candidate, ctx': Context)
    requires Traced(c, ctx) && IsMerge(prev, c, ctx, m, ctx') && (c.intentType.TaskControl? <==> c.control.Some?)
    requires forall i :: 0 <= i < |c.provenance| && c.provenance[i].path.ConstraintAt? ==> c.provenance[i].origin.User?
    requires c.relation.Correction? || (c.relation.Continuation? && c.control.None?)
    ensures Traced(m, ctx')
  {
    MergeTracedIff(prev, c, ctx, m, ctx');
    SourceOfHas(c.provenance, ControlTarget);
    assert FieldAt(c, ControlTarget).Some? <==> HasSource(c.provenance, ControlTarget);
    forall i | 0 <= i < |c.constraints| && SourceOf(c.provenance, ConstraintAt(i)).Some?
      ensures SourceOf(c.provenance, ConstraintAt(i)).value.User?
    {
      SourceOfHas(c.provenance, ConstraintAt(i));
      var k :| 0 <= k < |c.provenance| && c.provenance[k].path == ConstraintAt(i);
      SourceOfAt(c.provenance, k);
    }
  }
}
