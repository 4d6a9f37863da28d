/**
  The second source check of a revision: merging has replaced fields and moved
  constraints, so the merged candidate is checked again. Exactly when it passes.
*/
module IntentRecheck {
  import opened Prelude
  import opened IntentModel
  import opened IntentMerge
  import opened IntentNormalize

  /* ---------- kinds across a merge ---------- */

  lemma {:induction false} CarriedMembers(previous: seq<Constraint>, incoming: seq<Constraint>)
    ensures forall x :: x in Carried(previous, incoming) <==> x in previous && !HasKind(incoming, x.kind)
  {
    if previous != [] {
      var n := |previous| - 1;
      CarriedMembers(previous[..n], incoming);
      assert previous == previous[..n] + [previous[n]];
    }
  }

  lemma {:induction false} CarriedUnique(previous: seq<Constraint>, incoming: seq<Constraint>)
    requires UniqueKinds(previous)
    ensures UniqueKinds(Carried(previous, incoming))
  {
    if previous != [] {
      var n := |previous| - 1;
      CarriedUnique(previous[..n], incoming);
      CarriedMembers(previous[..n], incoming);
      var before := Carried(previous[..n], incoming);
      forall i | 0 <= i < |before| && !before[i].kind.OtherLimit? ensures before[i].kind != previous[n].kind {
        assert before[i] in previous[..n];
      }
    }
  }

  /** The merged constraints have exactly the kinds of both sides, and non-`other` kinds stay unique. */
  lemma MergedKinds(prev: Candidate, c: Candidate)
    requires UniqueKinds(prev.constraints) && UniqueKinds(c.constraints)
    ensures UniqueKinds(MergedFields(prev, c).constraints)
    ensures forall kind :: HasKind(MergedFields(prev, c).constraints, kind) <==> HasKind(prev.constraints, kind) || HasKind(c.constraints, kind)
  {
    var carried, all := Carried(prev.constraints, c.constraints), MergedFields(prev, c).constraints;
    CarriedMembers(prev.constraints, c.constraints);
    CarriedUnique(prev.constraints, c.constraints);
    forall i, j | 0 <= i < j < |all| && !all[i].kind.OtherLimit? ensures all[i].kind != all[j].kind {
      if i < |carried| <= j {
        assert carried[i] in carried;
        assert all[j] == c.constraints[j - |carried|];
      }
    }
    forall kind ensures HasKind(all, kind) <==> HasKind(prev.constraints, kind) || HasKind(c.constraints, kind) {
      HasKindMember(all, kind);
      HasKindMember(prev.constraints, kind);
      HasKindMember(c.constraints, kind);
    }
  }

  /* ---------- the carried fields against the message ---------- */

  function MergedType(prev: Candidate, c: Candidate): IntentType {
    if c.relation.Continuation? then prev.intentType else c.intentType
  }

  /** The tasks the merged candidate names: its control target and its task_target entity. */
  function MergedTargets(prev: Candidate, c: Candidate): set<string> {
    var control := if c.relation.Continuation? then prev.control else c.control;
    var entities := if HasKey(c.entities, "task_target") then c.entities else prev.entities;
    (if control.Some? && control.value.target.Some? then {control.value.target.value} else {})
    + (match Lookup(entities, "task_target") case Some(TextField(id)) => {id} case _ => {})
  }

  /** A revision that acts carries every prohibition its message opens with. */
  predicate ProhibitionsAgree(lex: Lexicon, prev: Candidate, c: Candidate, ctx: Context)
    requires ctx.message in ctx.messages
  {
    MergedType(prev, c) in {Diagnose, Execute, TaskControl} ==>
      && (lex.prohibits(ctx.messages[ctx.message], ReadOnly) ==> HasKind(prev.constraints, ReadOnly) || HasKind(c.constraints, ReadOnly))
      && (lex.prohibits(ctx.messages[ctx.message], ForbidRestart) ==> HasKind(prev.constraints, ForbidRestart) || HasKind(c.constraints, ForbidRestart))
  }

  /** A revision that controls a task targets none but the ids its message names outright. */
  predicate TargetsAgree(lex: Lexicon, prev: Candidate, c: Candidate, ctx: Context)
    requires ctx.message in ctx.messages
  {
    var named := lex.taskIds(ctx.messages[ctx.message]);
    MergedType(prev, c).TaskControl? && named != {} ==>
      MergedTargets(prev, c) != {} && MergedTargets(prev, c) <= named && (|named| == 1 || c.ambiguities != [])
  }

  predicate FieldsAgree(lex: Lexicon, prev: Candidate, c: Candidate, ctx: Context) {
    ctx.message in ctx.messages && ProhibitionsAgree(lex, prev, c, ctx) && TargetsAgree(lex, prev, c, ctx)
  }

  /** The part of the source check that compares a candidate with its message. */
  predicate MessageOk(lex: Lexicon, c: Candidate, ctx: Context) {
    ctx.message in ctx.messages && KeepsProhibitions(lex, c, ctx) && KeepsTaskIds(lex, c, ctx)
  }

  lemma MergedTargetsAre(prev: Candidate, c: Candidate, ctx: Context, m: Candidate, ctx': Context)
    requires IsMerge(prev, c, ctx, m, ctx')
    ensures Targets(m) == MergedTargets(prev, c)
  {
    MergedEntity(prev, c, "task_target");
    assert m.entities == MergedFields(prev, c).entities && m.control == MergedFields(prev, c).control;
  }

  lemma MergedKindsAre(prev: Candidate, c: Candidate, ctx: Context, m: Candidate, ctx': Context)
    requires UniqueKinds(prev.constraints) && UniqueKinds(c.constraints) && IsMerge(prev, c, ctx, m, ctx')
    ensures forall kind :: HasKind(m.constraints, kind) <==> HasKind(prev.constraints, kind) || HasKind(c.constraints, kind)
  {
    MergedKinds(prev, c);
    assert m.constraints == MergedFields(prev, c).constraints;
  }

  lemma MergedMessageOk(lex: Lexicon, prev: Candidate, c: Candidate, ctx: Context, m: Candidate, ctx': Context)
    requires UniqueKinds(prev.constraints) && UniqueKinds(c.constraints) && IsMerge(prev, c, ctx, m, ctx')
    ensures MessageOk(lex, m, ctx') <==> FieldsAgree(lex, prev, c, ctx)
  {
    MergedTargetsAre(prev, c, ctx, m, ctx');
    MergedKindsAre(prev, c, ctx, m, ctx');
    assert m.intentType == MergedFields(prev, c).intentType && m.ambiguities == MergedFields(prev, c).ambiguities;
  }

  /**
    The merged candidate passes the second source check exactly when the control
    target carries over, every context-sourced constraint is known at its new
    address, and the carried fields still agree with the message.
  */
  lemma RevisionAcceptedIff(lex: Lexicon, prev: Candidate, c: Candidate, ctx: Context, m: Candidate, ctx': Context)
    requires ValidCandidate(prev) && ValidCandidate(c) && Traced(c, ctx) && IsMerge(prev, c, ctx, m, ctx')
    ensures SourcesOk(lex, m, ctx') <==> ControlCarries(prev, c) && ShiftedKnown(prev, c, ctx) && FieldsAgree(lex, prev, c, ctx)
    ensures SourcesOk(lex, m, ctx') ==> SourcesOk(lex, Normalized(lex, m), ctx')
  {
    MergeTracedIff(prev, c, ctx, m, ctx');
    MergedMessageOk(lex, prev, c, ctx, m, ctx');
    if SourcesOk(lex, m, ctx') {
      NormalizeKeepsTraced(lex, m, ctx');
      NormalizedMessageOk(lex, m, ctx');
    }
  }

  /* ---------- the cases a caller meets ---------- */

  /** For a checked correction only a task carried over from before can disagree with the message. */
  lemma CorrectionAgreesIff(lex: Lexicon, prev: Candidate, c: Candidate, ctx: Context)
    requires ValidCandidate(prev) && ValidCandidate(c) && SourcesOk(lex, c, ctx) && c.relation.Correction?
    ensures var named := lex.taskIds(ctx.messages[ctx.message]);
      FieldsAgree(lex, prev, c, ctx) <==>
        (c.intentType.TaskControl? && named != {} && !HasKey(c.entities, "task_target")
         ==> match Lookup(prev.entities, "task_target") case Some(TextField(id)) => id in named case _ => true)
  {
    LookupHas(c.entities, "task_target");
  }

  /** Outside task control, a checked continuation can only miss a prohibition, and only when its type changes to one that acts. */
  lemma ContinuationAgreesIff(lex: Lexicon, prev: Candidate, c: Candidate, ctx: Context)
    requires SourcesOk(lex, c, ctx) && c.relation.Continuation? && !prev.intentType.TaskControl?
    ensures FieldsAgree(lex, prev, c, ctx) <==> prev.intentType == c.intentType || ProhibitionsAgree(lex, prev, c, ctx)
  {
  }

  /**
    With every constraint quoted from the user no address can move out of the
    server's knowledge; outside task control a correction, or a continuation of
    the same type, is then always accepted.
  */
  lemma RevisionAccepted(lex: Lexicon, prev: Candidate, c: Candidate, ctx: Context, m: Candidate, ctx': Context)
    requires ValidCandidate(prev) && ValidCandidate(c) && SourcesOk(lex, c, ctx) && IsMerge(prev, c, ctx, m, ctx')
    requires forall i :: 0 <= i < |c.provenance| && c.provenance[i].path.ConstraintAt? ==> c.provenance[i].origin.User?
    ensures SourcesOk(lex, m, ctx') <==> ControlCarries(prev, c) && FieldsAgree(lex, prev, c, ctx)
    ensures !c.intentType.TaskControl? && (c.relation.Correction? || (c.relation.Continuation? && prev.intentType == c.intentType)) ==> SourcesOk(lex, m, ctx')
    ensures SourcesOk(lex, m, ctx') ==> SourcesOk(lex, Normalized(lex, m), ctx')
  {
    RevisionAcceptedIff(lex, prev, c, ctx, m, ctx');
    UserSourcedAreKnown(prev, c, ctx);
    if !c.intentType.TaskControl? {
      assert FieldAt(c, ControlTarget).Some? <==> HasSource(c.provenance, ControlTarget);
    }
  }

  lemma UserSourcedAreKnown(prev: Candidate, c: Candidate, ctx: Context)
    requires UniquePaths(c.provenance)
    requires forall i :: 0 <= i < |c.provenance| && c.provenance[i].path.ConstraintAt? ==> c.provenance[i].origin.User?
    ensures ShiftedKnown(prev, c, ctx)
  {
    forall i: nat | i < |c.constraints| && SourceOf(c.provenance, ConstraintAt(i)).Some?
      ensures SourceOf(c.provenance, ConstraintAt(i)).value.User?
    {
      SourceOfHas(c.provenance, ConstraintAt(i));
      var k :| 0 <= k < |c.provenance| && c.provenance[k].path == ConstraintAt(i);
      SourceOfAt(c.provenance, k);
    }
  }

  /* ---------- the normalised candidate ---------- */

  lemma KeptKinds(lex: Lexicon, c: Candidate)
    ensures forall kind: Kind :: Prohibition(kind) && HasKind(c.constraints, kind) ==> HasKind(Normalized(lex, c).constraints, kind)
  {
    KeptMembers(lex, c.constraints);
    forall kind: Kind | Prohibition(kind) && HasKind(c.constraints, kind) ensures HasKind(Normalized(lex, c).constraints, kind) {
      HasKindMember(c.constraints, kind);
      HasKindMember(Normalized(lex, c).constraints, kind);
    }
  }

  lemma NormalizedMessageOk(lex: Lexicon, c: Candidate, ctx: Context)
    ensures MessageOk(lex, Normalized(lex, c), ctx) <==> MessageOk(lex, c, ctx)
  {
    KeptKinds(lex, c);
    KeptMembers(lex, c.constraints);
    forall kind: Kind | Prohibition(kind) && HasKind(Normalized(lex, c).constraints, kind) ensures HasKind(c.constraints, kind) {
      HasKindMember(c.constraints, kind);
      HasKindMember(Normalized(lex, c).constraints, kind);
    }
  }

  /** The merged candidate is one that normalisation really shortens. */
  predicate Shortened(lex: Lexicon, m: Candidate) { Redundant(m) && !Blocked(lex, m) }

  /** As ShiftedKnown, but only for the constraints that normalisation keeps. */
  ghost predicate KeptKnown(lex: Lexicon, prev: Candidate, c: Candidate, ctx: Context) {
    var n := |Carried(prev.constraints, c.constraints)|;
    forall i :: 0 <= i < |c.constraints| && !Alias(lex, c.constraints[i])
      && SourceOf(c.provenance, ConstraintAt(i)).Some? && SourceOf(c.provenance, ConstraintAt(i)).value.FromContext?
      ==> Holds(ctx, FromContext(ctx.version), ConstraintAt(n + i), LimitField(c.constraints[i]))
  }

  /** The context in which the server would also vouch for the aliases where they stand. */
  function Vouched(lex: Lexicon, m: Candidate, ctx: Context): Context {
    ctx.(known := ctx.known + map k: nat | k < |m.constraints| && Alias(lex, m.constraints[k]) :: ConstraintAt(k) := LimitField(m.constraints[k]))
  }

  /** Vouching for aliases changes nothing about the sources that normalisation keeps. */
  lemma VouchedIsEnough(lex: Lexicon, m: Candidate, ctx: Context)
    requires Shortened(lex, m) && Traced(m, Vouched(lex, m, ctx))
    ensures Traced(Normalized(lex, m), ctx)
  {
    var n, ctx2 := Normalized(lex, m), Vouched(lex, m, ctx);
    NormalizeKeepsTraced(lex, m, ctx2);
    forall k | 0 <= k < |n.provenance|
      ensures Holds(ctx, n.provenance[k].origin, n.provenance[k].path, FieldAt(n, n.provenance[k].path).value)
    {
      var i := ReaddressedFrom(lex, m.constraints, m.provenance, k);
      assert !Moves(lex, m.constraints, m.provenance[i]);
    }
  }

  lemma KeptIsVouched(lex: Lexicon, prev: Candidate, c: Candidate, ctx: Context, m: Candidate, ctx': Context)
    requires ValidCandidate(prev) && ValidCandidate(c) && Traced(c, ctx) && IsMerge(prev, c, ctx, m, ctx')
    requires ControlCarries(prev, c) && KeptKnown(lex, prev, c, ctx)
    ensures Traced(m, Vouched(lex, m, ctx'))
  {
    var n := |Carried(prev.constraints, c.constraints)|;
    var ctx2 := Vouched(lex, m, ctx');
    assert m.constraints == Carried(prev.constraints, c.constraints) + c.constraints;
    forall p ensures TracedAt(m, ctx2, p) {
      if p.ConstraintAt? {
        VouchedConstraint(lex, prev, c, ctx, m, ctx', p.index);
        assert p == ConstraintAt(p.index);
      } else if p.ControlTarget? {
        MergedTracedControl(prev, c, ctx, m, ctx');
      } else {
        MergedTracedElsewhere(prev, c, ctx, m, ctx', p);
      }
    }
    TracedPathwise(m, ctx2);
  }

  lemma VouchedConstraint(lex: Lexicon, prev: Candidate, c: Candidate, ctx: Context, m: Candidate, ctx': Context, k: nat)
    requires Traced(c, ctx) && IsMerge(prev, c, ctx, m, ctx') && KeptKnown(lex, prev, c, ctx)
    ensures TracedAt(m, Vouched(lex, m, ctx'), ConstraintAt(k))
  {
    if TracedAt(m, ctx', ConstraintAt(k)) {
      VouchingKeeps(lex, m, ctx', k);
    } else {
      MergedTracedConstraint(prev, c, ctx, m, ctx', k);
      UnknownIsAlias(lex, prev, c, ctx, m, ctx', k);
    }
  }

  lemma VouchingKeeps(lex: Lexicon, m: Candidate, ctx: Context, k: nat)
    requires TracedAt(m, ctx, ConstraintAt(k))
    ensures TracedAt(m, Vouched(lex, m, ctx), ConstraintAt(k))
  {
  }

  /** The only constraints of a merge without a valid source are aliases at addresses the server does not know. */
  lemma UnknownIsAlias(lex: Lexicon, prev: Candidate, c: Candidate, ctx: Context, m: Candidate, ctx': Context, k: nat)
    requires Traced(c, ctx) && IsMerge(prev, c, ctx, m, ctx') && KeptKnown(lex, prev, c, ctx)
    requires !TracedAt(m, ctx', ConstraintAt(k))
    ensures k < |m.constraints| && Alias(lex, m.constraints[k])
    ensures SourceOf(m.provenance, ConstraintAt(k)) == Some(FromContext(ctx'.version))
  {
    var n := |Carried(prev.constraints, c.constraints)|;
    MergedTracedConstraint(prev, c, ctx, m, ctx', k);
    assert m.constraints == Carried(prev.constraints, c.constraints) + c.constraints;
    TracedPathwise(c, ctx);
    assert TracedAt(c, ctx, ConstraintAt(k - n));
    assert SourceOf(m.provenance, ConstraintAt(k)) == MergedOrigin(prev, c, ctx, ConstraintAt(k));
    assert m.constraints[k] == c.constraints[k - n];
  }

  lemma NormalizedTells(lex: Lexicon, prev: Candidate, c: Candidate, ctx: Context, m: Candidate, ctx': Context)
    requires ValidCandidate(prev) && ValidCandidate(c) && Traced(c, ctx) && IsMerge(prev, c, ctx, m, ctx')
    requires Shortened(lex, m) && Traced(Normalized(lex, m), ctx')
    ensures ControlCarries(prev, c) && KeptKnown(lex, prev, c, ctx)
  {
    var n := |Carried(prev.constraints, c.constraints)|;
    NormalizedControl(lex, prev, c, ctx, m, ctx');
    forall i | 0 <= i < |c.constraints| && !Alias(lex, c.constraints[i])
      && SourceOf(c.provenance, ConstraintAt(i)).Some? && SourceOf(c.provenance, ConstraintAt(i)).value.FromContext?
      ensures Holds(ctx, FromContext(ctx.version), ConstraintAt(n + i), LimitField(c.constraints[i]))
    {
      KeptSourceHolds(lex, prev, c, ctx, m, ctx', i);
    }
  }

  lemma NormalizedControl(lex: Lexicon, prev: Candidate, c: Candidate, ctx: Context, m: Candidate, ctx': Context)
    requires Traced(c, ctx) && IsMerge(prev, c, ctx, m, ctx') && (c.intentType.TaskControl? <==> c.control.Some?)
    requires Shortened(lex, m) && Traced(Normalized(lex, m), ctx')
    ensures ControlCarries(prev, c)
  {
    ControlSourceStays(lex, m);
    TracedPathwise(Normalized(lex, m), ctx');
    assert TracedAt(Normalized(lex, m), ctx', ControlTarget);
    MergedTracedControl(prev, c, ctx, m, ctx');
  }

  /** Sources of anything but constraints stay as they are. */
  lemma {:induction false} SourceStays(lex: Lexicon, cs: seq<Constraint>, provenance: seq<Source>, p: Path)
    requires !p.ConstraintAt?
    ensures SourceOf(Readdressed(lex, cs, provenance), p) == SourceOf(provenance, p)
  {
    if provenance != [] {
      var n := |provenance| - 1;
      SourceStays(lex, cs, provenance[..n], p);
      var before, last := Readdressed(lex, cs, provenance[..n]), provenance[n];
      if !last.path.ConstraintAt? {
        SourceOfSum(before, last, p);
      } else if Survives(lex, cs, last.path.index) {
        SourceOfSum(before, Source(ConstraintAt(NewIndex(lex, cs, last.path.index)), last.origin), p);
      } else {
        assert Readdressed(lex, cs, provenance) == before;
      }
    }
  }

  lemma SourceOfSum(provenance: seq<Source>, s: Source, p: Path)
    ensures SourceOf(provenance + [s], p) == if s.path == p then Some(s.origin) else SourceOf(provenance, p)
  {
    assert (provenance + [s])[..|provenance|] == provenance;
  }

  lemma ControlSourceStays(lex: Lexicon, m: Candidate)
    requires Shortened(lex, m)
    ensures SourceOf(Normalized(lex, m).provenance, ControlTarget) == SourceOf(m.provenance, ControlTarget)
    ensures FieldAt(Normalized(lex, m), ControlTarget) == FieldAt(m, ControlTarget)
  {
    SourceStays(lex, m.constraints, m.provenance, ControlTarget);
    SourceOfHas(m.provenance, ControlTarget);
    SourceOfHas(Normalized(lex, m).provenance, ControlTarget);
  }

  /** A context source that normalisation keeps keeps its address, so it is checked where it stands. */
  lemma KeptSourceStays(lex: Lexicon, m: Candidate, ctx': Context, k: nat, o: Origin)
    requires Shortened(lex, m) && Traced(Normalized(lex, m), ctx') && UniquePaths(m.provenance)
    requires Survives(lex, m.constraints, k) && o.FromContext? && SourceOf(m.provenance, ConstraintAt(k)) == Some(o)
    ensures Holds(ctx', o, ConstraintAt(k), LimitField(m.constraints[k]))
  {
    var norm := Normalized(lex, m);
    SourceOfHas(m.provenance, ConstraintAt(k));
    var j :| 0 <= j < |m.provenance| && m.provenance[j].path == ConstraintAt(k);
    SourceOfAt(m.provenance, j);
    assert !Moves(lex, m.constraints, m.provenance[j]);
    ReaddressedTo(lex, m.constraints, m.provenance, j);
    AtNewIndex(lex, m.constraints, k);
    var l :| 0 <= l < |norm.provenance| && norm.provenance[l] == Source(ConstraintAt(k), o);
    assert Holds(ctx', o, ConstraintAt(k), FieldAt(norm, ConstraintAt(k)).value);
  }

  /** Where the i-th constraint of the correction and its source stand in the merge. */
  lemma OwnConstraintInMerge(prev: Candidate, c: Candidate, ctx: Context, m: Candidate, ctx': Context, i: nat)
    requires Traced(c, ctx) && IsMerge(prev, c, ctx, m, ctx') && i < |c.constraints|
    ensures var k := |Carried(prev.constraints, c.constraints)| + i;
      && k < |m.constraints| && m.constraints[k] == c.constraints[i] && Inherited(prev, c, ConstraintAt(k)).None?
      && SourceOf(m.provenance, ConstraintAt(k)) == SourceOf(c.provenance, ConstraintAt(i))
  {
    var k := |Carried(prev.constraints, c.constraints)| + i;
    assert m.constraints == Carried(prev.constraints, c.constraints) + c.constraints;
    assert SourceOf(m.provenance, ConstraintAt(k)) == MergedOrigin(prev, c, ctx, ConstraintAt(k));
  }

  lemma KeptSourceHolds(lex: Lexicon, prev: Candidate, c: Candidate, ctx: Context, m: Candidate, ctx': Context, i: nat)
    requires Traced(c, ctx) && IsMerge(prev, c, ctx, m, ctx') && Shortened(lex, m) && Traced(Normalized(lex, m), ctx')
    requires i < |c.constraints| && !Alias(lex, c.constraints[i])
    requires SourceOf(c.provenance, ConstraintAt(i)).Some? && SourceOf(c.provenance, ConstraintAt(i)).value.FromContext?
    ensures Holds(ctx, FromContext(ctx.version), ConstraintAt(|Carried(prev.constraints, c.constraints)| + i), LimitField(c.constraints[i]))
  {
    var k := |Carried(prev.constraints, c.constraints)| + i;
    OwnConstraintInMerge(prev, c, ctx, m, ctx', i);
    KeptSourceStays(lex, m, ctx', k, SourceOf(c.provenance, ConstraintAt(i)).value);
    TracedPathwise(c, ctx);
    assert TracedAt(c, ctx, ConstraintAt(i));
  }

  /**
    What is resolved in the end is the normalised candidate. It passes the source
    check under the same conditions, except that a redundant alias that is
    dropped need not be known at its new address.
  */
  lemma NormalizedAcceptedIff(lex: Lexicon, prev: Candidate, c: Candidate, ctx: Context, m: Candidate, ctx': Context)
    requires ValidCandidate(prev) && ValidCandidate(c) && Traced(c, ctx) && IsMerge(prev, c, ctx, m, ctx')
    ensures SourcesOk(lex, Normalized(lex, m), ctx') <==>
      ControlCarries(prev, c) && FieldsAgree(lex, prev, c, ctx)
      && if Shortened(lex, m) then KeptKnown(lex, prev, c, ctx) else ShiftedKnown(prev, c, ctx)
  {
    RevisionAcceptedIff(lex, prev, c, ctx, m, ctx');
    MergedMessageOk(lex, prev, c, ctx, m, ctx');
    NormalizedMessageOk(lex, m, ctx');
    if Shortened(lex, m) {
      if Traced(Normalized(lex, m), ctx') {
        NormalizedTells(lex, prev, c, ctx, m, ctx');
      }
      if ControlCarries(prev, c) && KeptKnown(lex, prev, c, ctx) {
        KeptIsVouched(lex, prev, c, ctx, m, ctx');
        VouchedIsEnough(lex, m, ctx');
      }
    }
  }

  /* ---------- two revisions that fail ---------- */

  /** A user-sourced correction of a task request: another task by its id, the old one still carried as an entity. */
  function ControllingA(): Candidate {
    Candidate(TaskControl, NewRequest, "stop it", [("task_target", "A")], [], [], [], [], Some(Control(Cancel, None)), "asked")
  }

  function ControllingB(): Candidate {
    Candidate(TaskControl, Correction, "task", [], [],
              [Source(Objective, User("m", "task")), Source(ControlTarget, User("m", "B"))], [], [], Some(Control(Cancel, Some("B"))), "asked")
  }

  function Saying(): Context {
    Context("a", "s", "i", "v", "m", map["m" := "task B"], map[], map[], [], [], {}, false, None)
  }

  lemma CarriedTaskRejected(lex: Lexicon, m: Candidate, ctx': Context)
    requires lex.taskIds("task B") == {"B"} && !lex.prohibits("task B", ReadOnly) && !lex.prohibits("task B", ForbidRestart)
    requires IsMerge(ControllingA(), ControllingB(), Saying(), m, ctx')
    ensures ValidCandidate(ControllingA()) && ValidCandidate(ControllingB())
    ensures SourcesOk(lex, ControllingB(), Saying())
    ensures !SourcesOk(lex, m, ctx')
  {
    var c, ctx := ControllingB(), Saying();
    BothAreValid();
    assert Lookup(c.entities, "task_target").None?;
    assert Targets(c) == {"B"};
    ControllingBIsTraced();
    assert Lookup(ControllingA().entities, "task_target") == Some(TextField("A"));
    MergedTargetsAre(ControllingA(), c, ctx, m, ctx');
    assert "A" in Targets(m) && "A"[0] != "B"[0];
    assert m.intentType == MergedFields(ControllingA(), c).intentType;
  }

  lemma BothAreValid()
    ensures ValidCandidate(ControllingA()) && ValidCandidate(ControllingB())
  {
    var a, b, e := "stop it", "task", "asked";
    assert !Blank(a[0]) && !Blank(b[0]) && !Blank(e[0]);
    var t, u, m := "A", "B", "m";
    assert !Blank(t[0]) && !Blank(u[0]) && !Blank(m[0]);
  }

  lemma ControllingBIsTraced()
    ensures Traced(ControllingB(), Saying())
  {
    var c, ctx := ControllingB(), Saying();
    assert HasSource(c.provenance, c.provenance[0].path) && HasSource(c.provenance, c.provenance[1].path);
    assert Contains("task B", "task");
    var text := "task B";
    assert text[1..][1..][1..][1..][1..] == "B";
    assert Contains(text[1..][1..][1..][1..][1..], "B");
    assert Contains(text[1..][1..][1..][1..], "B");
    assert Contains(text[1..][1..][1..], "B");
    assert Contains(text[1..][1..], "B");
    assert Contains(text[1..], "B");
    forall p ensures FieldAt(c, p).Some? <==> HasSource(c.provenance, p) {
      assert p.Entity? ==> Lookup(c.entities, p.key).None?;
    }
  }

  const DEADLINE := Constraint(Deadline, Words("today"))

  /** A previous revision that forbids changes, a correction whose deadline the server vouches for, and that server's context. */
  function Forbidding(): Candidate {
    Candidate(Diagnose, NewRequest, "look", [], [Constraint(ReadOnly, Yes)], [], [], [], None, "asked")
  }

  function Correcting(): Candidate {
    Candidate(Diagnose, Correction, "look", [], [DEADLINE],
              [Source(Objective, User("m", "look")), Source(ConstraintAt(0), FromContext("v"))], [], [], None, "asked")
  }

  function Vouching(): Context {
    Context("a", "s", "i", "v", "m", map["m" := "look"], map[ConstraintAt(0) := LimitField(DEADLINE)], map[], [], [], {}, false, None)
  }

  /** One carried constraint is enough to move a context-sourced one away from the address the server knows it by. */
  lemma ContextConstraintMoves(m: Candidate, ctx': Context)
    requires IsMerge(Forbidding(), Correcting(), Vouching(), m, ctx')
    ensures Traced(Correcting(), Vouching()) && !Traced(m, ctx')
  {
    var prev, c, ctx := Forbidding(), Correcting(), Vouching();
    CorrectingIsTraced();
    assert prev.constraints[..0] == [];
    assert Carried(prev.constraints, c.constraints) == prev.constraints;
    assert c.provenance[1].path == ConstraintAt(0);
    SourceOfAt(c.provenance, 1);
    MergeTracedIff(prev, c, ctx, m, ctx');
    assert !Holds(ctx, FromContext(ctx.version), ConstraintAt(1 + 0), LimitField(c.constraints[0]));
  }

  lemma CorrectingIsTraced()
    ensures Traced(Correcting(), Vouching())
  {
    var c := Correcting();
    assert HasSource(c.provenance, c.provenance[0].path) && HasSource(c.provenance, c.provenance[1].path);
    assert Contains("look", "look");
    forall p ensures FieldAt(c, p).Some? <==> HasSource(c.provenance, p) {
      assert p.Entity? ==> Lookup(c.entities, p.key).None?;
    }
  }
}
