/** The loops of the merge: provenance as an ordered dictionary, rewritten step by step. */
module IntentRevise {
  import opened Prelude
  import opened IntentModel
  import opened IntentMerge

  /* ---------- provenance as an ordered dictionary ---------- */

  function Put(provenance: seq<Source>, p: Path, o: Origin): seq<Source> {
    if provenance == [] then [Source(p, o)]
    else if provenance[0].path == p then [Source(p, o)] + provenance[1..]
    else [provenance[0]] + Put(provenance[1..], p, o)
  }

  lemma {:induction false} SourceOfCons(s: Source, rest: seq<Source>, q: Path)
    ensures SourceOf([s] + rest, q) == if SourceOf(rest, q).Some? then SourceOf(rest, q) else if s.path == q then Some(s.origin) else None
  {
    if rest == [] {
      assert [s] + rest == [s];
    } else {
      var n := |rest| - 1;
      assert ([s] + rest)[..n + 1] == [s] + rest[..n];
      SourceOfCons(s, rest[..n], q);
    }
  }

  lemma UniqueTail(provenance: seq<Source>)
    requires provenance != [] && UniquePaths(provenance)
    ensures UniquePaths(provenance[1..]) && !HasSource(provenance[1..], provenance[0].path)
  {
  }

  lemma {:induction false} PutSets(provenance: seq<Source>, p: Path, o: Origin)
    requires UniquePaths(provenance)
    ensures UniquePaths(Put(provenance, p, o))
    ensures forall q :: SourceOf(Put(provenance, p, o), q) == if q == p then Some(o) else SourceOf(provenance, q)
    ensures forall q :: HasSource(Put(provenance, p, o), q) <==> q == p || HasSource(provenance, q)
  {
    var after := Put(provenance, p, o);
    if provenance == [] {
      assert after[..0] == [];
    } else {
      var s, rest := provenance[0], provenance[1..];
      assert provenance == [s] + rest;
      UniqueTail(provenance);
      if s.path == p {
        forall q ensures SourceOf(after, q) == if q == p then Some(o) else SourceOf(provenance, q) {
          SourceOfCons(Source(p, o), rest, q);
          SourceOfCons(s, rest, q);
          SourceOfHas(rest, q);
        }
      } else {
        PutSets(rest, p, o);
        forall q ensures SourceOf(after, q) == if q == p then Some(o) else SourceOf(provenance, q) {
          SourceOfCons(s, Put(rest, p, o), q);
          SourceOfCons(s, rest, q);
          SourceOfHas(rest, q);
        }
        assert !HasSource(Put(rest, p, o), s.path);
      }
    }
    forall q ensures HasSource(after, q) <==> q == p || HasSource(provenance, q) {
      SourceOfHas(after, q);
      SourceOfHas(provenance, q);
    }
  }

  function WithoutConstraints(provenance: seq<Source>): seq<Source> {
    if provenance == [] then []
    else
      var last := provenance[|provenance| - 1];
      WithoutConstraints(provenance[..|provenance| - 1]) + if last.path.ConstraintAt? then [] else [last]
  }

  lemma {:induction false} WithoutConstraintsDrops(provenance: seq<Source>)
    requires UniquePaths(provenance)
    ensures UniquePaths(WithoutConstraints(provenance))
    ensures forall i :: 0 <= i < |WithoutConstraints(provenance)| ==> WithoutConstraints(provenance)[i] in provenance
    ensures forall q :: SourceOf(WithoutConstraints(provenance), q) == if q.ConstraintAt? then None else SourceOf(provenance, q)
  {
    if provenance != [] {
      var n := |provenance| - 1;
      var last := provenance[n];
      WithoutConstraintsDrops(provenance[..n]);
      var rest := WithoutConstraints(provenance[..n]);
      if !last.path.ConstraintAt? {
        assert (rest + [last])[..|rest|] == rest;
        forall i | 0 <= i < |rest| ensures rest[i].path != last.path {
          assert rest[i] in provenance[..n];
        }
      } else {
        assert rest + [] == rest;
      }
    }
  }

  /* ---------- _merge ---------- */

  /** What the merge has taken over so far: `inh` lists it, `base` gives the other origins. */
  ghost predicate MergeState(ctx: Context, sources: seq<Source>, known: map<Path, Field>, inh: map<Path, Field>, base: Path -> Option<Origin>) {
    && UniquePaths(sources)
    && (forall q :: SourceOf(sources, q) == if q in inh then Some(FromContext(ctx.version)) else base(q))
    && known == ctx.known + inh
  }

  lemma TakeOver(ctx: Context, sources: seq<Source>, known: map<Path, Field>, inh: map<Path, Field>, base: Path -> Option<Origin>, p: Path, f: Field)
    requires MergeState(ctx, sources, known, inh, base)
    ensures MergeState(ctx, Put(sources, p, FromContext(ctx.version)), known[p := f], inh[p := f], base)
  {
    PutSets(sources, p, FromContext(ctx.version));
  }

  /** The continuation branch: objective, type and control of the previous revision. */
  method MergeHead(prev: Candidate, c: Candidate, ctx: Context, ghost base: Path -> Option<Origin>)
    returns (m: Candidate, sources: seq<Source>, known: map<Path, Field>, ghost inh: map<Path, Field>)
    requires UniquePaths(c.provenance) && forall q :: base(q) == SourceOf(c.provenance, q)
    ensures MergeState(ctx, sources, known, inh, base)
    ensures m == MergedFields(prev, c).(entities := c.entities, constraints := c.constraints, provenance := c.provenance)
    ensures forall q :: q in inh <==> (q.Objective? || q.ControlTarget?) && Inherited(prev, c, q).Some?
    ensures forall q :: q in inh ==> inh[q] == Inherited(prev, c, q).value
  {
    m, sources, known, inh := c, c.provenance, ctx.known, map[];
    if c.relation.Continuation? {
      m := m.(objective := prev.objective, intentType := prev.intentType, control := prev.control);
      TakeOver(ctx, sources, known, inh, base, Objective, TextField(prev.objective));
      sources := Put(sources, Objective, FromContext(ctx.version));
      known := known[Objective := TextField(prev.objective)];
      inh := inh[Objective := TextField(prev.objective)];
      if prev.control.Some? && prev.control.value.target.Some? {
        var target := TextField(prev.control.value.target.value);
        TakeOver(ctx, sources, known, inh, base, ControlTarget, target);
        sources := Put(sources, ControlTarget, FromContext(ctx.version));
        known := known[ControlTarget := target];
        inh := inh[ControlTarget := target];
      }
    }
  }

  /** The entity taken over for a key after the first i previous entities. */
  function TakenBy(prev: Candidate, c: Candidate, i: nat, key: string): Option<Field>
    requires i <= |prev.entities|
  {
    if HasKey(c.entities, key) then None else Lookup(prev.entities[..i], key)
  }

  function AfterStep(prev: Candidate, c: Candidate, i: nat, key: string): Option<Field>
    requires i < |prev.entities|
  {
    if key == prev.entities[i].0 && !HasKey(c.entities, key) then Some(TextField(prev.entities[i].1)) else TakenBy(prev, c, i, key)
  }

  lemma TakenStep(prev: Candidate, c: Candidate, i: nat, key: string)
    requires i < |prev.entities| && DistinctKeys(prev.entities)
    ensures TakenBy(prev, c, i + 1, key) == AfterStep(prev, c, i, key)
  {
    assert prev.entities[..i + 1] == prev.entities[..i] + [prev.entities[i]];
    LookupConcat(prev.entities[..i], [prev.entities[i]], key);
    LookupHas(prev.entities[..i], key);
  }

  /** The inherited fields after i previous entities. */
  ghost predicate Took(prev: Candidate, c: Candidate, i: nat, inh0: map<Path, Field>, inh: map<Path, Field>)
    requires i <= |prev.entities|
  {
    && (forall q :: q in inh <==> q in inh0 || (q.Entity? && TakenBy(prev, c, i, q.key).Some?))
    && (forall q :: q in inh0 ==> inh[q] == inh0[q])
    && (forall q :: q in inh && q.Entity? ==> TakenBy(prev, c, i, q.key) == Some(inh[q]))
  }

  function NextTaken(prev: Candidate, c: Candidate, i: nat, inh: map<Path, Field>): map<Path, Field>
    requires i < |prev.entities|
  {
    var key := prev.entities[i].0;
    if HasKey(c.entities, key) then inh else inh[Entity(key) := TextField(prev.entities[i].1)]
  }

  lemma TookStep(prev: Candidate, c: Candidate, i: nat, inh0: map<Path, Field>, inh: map<Path, Field>)
    requires i < |prev.entities| && DistinctKeys(prev.entities) && Took(prev, c, i, inh0, inh)
    requires forall q :: q in inh0 ==> !q.Entity?
    ensures Took(prev, c, i + 1, inh0, NextTaken(prev, c, i, inh))
  {
    var after := NextTaken(prev, c, i, inh);
    forall q ensures q in after <==> q in inh0 || (q.Entity? && TakenBy(prev, c, i + 1, q.key).Some?) {
      if q.Entity? {
        TakenStep(prev, c, i, q.key);
        assert q == Entity(q.key);
      }
    }
    forall q | q in after && q.Entity? ensures TakenBy(prev, c, i + 1, q.key) == Some(after[q]) {
      TakenStep(prev, c, i, q.key);
      assert q == Entity(q.key);
    }
  }

  /** Entities the new message does not mention. */
  method MergeEntities(prev: Candidate, c: Candidate, ctx: Context, sources0: seq<Source>, known0: map<Path, Field>,
                       ghost inh0: map<Path, Field>, ghost base: Path -> Option<Origin>)
    returns (entities: seq<(string, string)>, sources: seq<Source>, known: map<Path, Field>, ghost inh: map<Path, Field>)
    requires MergeState(ctx, sources0, known0, inh0, base) && DistinctKeys(prev.entities)
    requires forall q :: q in inh0 ==> !q.Entity?
    ensures MergeState(ctx, sources, known, inh, base)
    ensures entities == c.entities + NewEntities(prev.entities, c.entities)
    ensures Took(prev, c, |prev.entities|, inh0, inh)
  {
    entities, sources, known, inh := c.entities, sources0, known0, inh0;
    var i := 0;
    while i < |prev.entities|
      invariant 0 <= i <= |prev.entities|
      invariant MergeState(ctx, sources, known, inh, base)
      invariant entities == c.entities + NewEntities(prev.entities[..i], c.entities)
      invariant Took(prev, c, i, inh0, inh)
    {
      var key, value := prev.entities[i].0, prev.entities[i].1;
      assert prev.entities[..i + 1][..i] == prev.entities[..i];
      TookStep(prev, c, i, inh0, inh);
      AlreadyThere(prev, c, i);
      if !HasKey(entities, key) {
        entities := entities + [prev.entities[i]];
        TakeOver(ctx, sources, known, inh, base, Entity(key), TextField(value));
        sources := Put(sources, Entity(key), FromContext(ctx.version));
        known := known[Entity(key) := TextField(value)];
        inh := inh[Entity(key) := TextField(value)];
      }
      i := i + 1;
    }
    assert prev.entities[..i] == prev.entities;
  }

  /** The test against the growing list answers as the test against the new message. */
  lemma AlreadyThere(prev: Candidate, c: Candidate, i: nat)
    requires i < |prev.entities| && DistinctKeys(prev.entities)
    ensures HasKey(c.entities + NewEntities(prev.entities[..i], c.entities), prev.entities[i].0) <==> HasKey(c.entities, prev.entities[i].0)
  {
    var key, added := prev.entities[i].0, NewEntities(prev.entities[..i], c.entities);
    LookupConcat(c.entities, added, key);
    LookupNew(prev.entities[..i], c.entities, key);
    LookupHas(c.entities + added, key);
    LookupHas(c.entities, key);
    LookupHas(prev.entities[..i], key);
  }

  /** Carried constraints, each inherited at its new address. */
  method CarryConstraints(prev: Candidate, c: Candidate, ctx: Context, sources0: seq<Source>, known0: map<Path, Field>,
                          ghost inh0: map<Path, Field>, ghost others: Path -> Option<Origin>)
    returns (constraints: seq<Constraint>, sources: seq<Source>, known: map<Path, Field>, ghost inh: map<Path, Field>)
    requires MergeState(ctx, sources0, known0, inh0, others) && forall q :: q in inh0 ==> !q.ConstraintAt?
    ensures MergeState(ctx, sources, known, inh, others)
    ensures constraints == Carried(prev.constraints, c.constraints)
    ensures forall q :: q in inh <==> q in inh0 || (q.ConstraintAt? && q.index < |constraints|)
    ensures forall q :: q in inh0 ==> inh[q] == inh0[q]
    ensures forall k :: 0 <= k < |constraints| ==> inh[ConstraintAt(k)] == LimitField(constraints[k])
  {
    sources, known, inh, constraints := sources0, known0, inh0, [];
    var i := 0;
    while i < |prev.constraints|
      invariant 0 <= i <= |prev.constraints|
      invariant constraints == Carried(prev.constraints[..i], c.constraints)
      invariant MergeState(ctx, sources, known, inh, others)
      invariant forall q :: q in inh <==> q in inh0 || (q.ConstraintAt? && q.index < |constraints|)
      invariant forall q :: q in inh0 ==> inh[q] == inh0[q]
      invariant forall k :: 0 <= k < |constraints| ==> inh[ConstraintAt(k)] == LimitField(constraints[k])
    {
      var limit := prev.constraints[i];
      assert prev.constraints[..i + 1][..i] == prev.constraints[..i];
      if !HasKind(c.constraints, limit.kind) {
        var path := ConstraintAt(|constraints|);
        constraints := constraints + [limit];
        TakeOver(ctx, sources, known, inh, others, path, LimitField(limit));
        sources := Put(sources, path, FromContext(ctx.version));
        known := known[path := LimitField(limit)];
        inh := inh[path := LimitField(limit)];
      }
      i := i + 1;
    }
    assert prev.constraints[..i] == prev.constraints;
  }

  /** Where each incoming constraint's source ends up after the first i of them. */
  ghost predicate Appending(prev: Candidate, c: Candidate, sources0: seq<Source>, sources: seq<Source>, i: nat) {
    var n := |Carried(prev.constraints, c.constraints)|;
    && UniquePaths(sources)
    && (forall q: Path :: q.ConstraintAt? && n <= q.index < n + i ==> SourceOf(sources, q) == Reindexed(prev, c, q.index))
    && (forall q: Path :: !(q.ConstraintAt? && n <= q.index < n + i) ==> SourceOf(sources, q) == SourceOf(sources0, q))
  }

  lemma AppendingStep(prev: Candidate, c: Candidate, sources0: seq<Source>, sources: seq<Source>, i: nat)
    requires Appending(prev, c, sources0, sources, i) && i < |c.constraints|
    requires SourceOf(c.provenance, ConstraintAt(i)).Some?
    ensures var path := ConstraintAt(|Carried(prev.constraints, c.constraints)| + i);
      Appending(prev, c, sources0, Put(sources, path, SourceOf(c.provenance, ConstraintAt(i)).value), i + 1)
  {
    PutSets(sources, ConstraintAt(|Carried(prev.constraints, c.constraints)| + i), SourceOf(c.provenance, ConstraintAt(i)).value);
  }

  /** The incoming constraints, each with its source moved to its new address. */
  method AppendConstraints(prev: Candidate, c: Candidate, carried: seq<Constraint>, sources0: seq<Source>)
    returns (constraints: seq<Constraint>, sources: seq<Source>)
    requires carried == Carried(prev.constraints, c.constraints) && UniquePaths(sources0)
    requires forall i :: 0 <= i < |c.constraints| ==> SourceOf(c.provenance, ConstraintAt(i)).Some?
    ensures constraints == carried + c.constraints
    ensures Appending(prev, c, sources0, sources, |c.constraints|)
  {
    constraints, sources := carried, sources0;
    var i := 0;
    while i < |c.constraints|
      invariant 0 <= i <= |c.constraints|
      invariant constraints == carried + c.constraints[..i]
      invariant Appending(prev, c, sources0, sources, i)
    {
      var o := SourceOf(c.provenance, ConstraintAt(i)).value;
      AppendingStep(prev, c, sources0, sources, i);
      sources := Put(sources, ConstraintAt(|constraints|), o);
      constraints := constraints + [c.constraints[i]];
      i := i + 1;
    }
    assert c.constraints[..i] == c.constraints;
  }

  /** Carried constraints first, then the incoming ones at their new addresses. */
  method MergeConstraints(prev: Candidate, c: Candidate, ctx: Context, sources0: seq<Source>, known0: map<Path, Field>,
                          ghost inh0: map<Path, Field>, ghost base: Path -> Option<Origin>)
    returns (constraints: seq<Constraint>, sources: seq<Source>, known: map<Path, Field>, ghost inh: map<Path, Field>)
    requires MergeState(ctx, sources0, known0, inh0, base)
    requires forall q :: q in inh0 ==> !q.ConstraintAt?
    requires forall i :: 0 <= i < |c.constraints| ==> SourceOf(c.provenance, ConstraintAt(i)).Some?
    ensures constraints == Carried(prev.constraints, c.constraints) + c.constraints
    ensures UniquePaths(sources) && known == ctx.known + inh
    ensures forall q :: q in inh <==> q in inh0 || (q.ConstraintAt? && Inherited(prev, c, q).Some?)
    ensures forall q :: q in inh0 ==> inh[q] == inh0[q]
    ensures forall q :: q in inh && q.ConstraintAt? ==> inh[q] == Inherited(prev, c, q).value
    ensures forall q :: q in inh ==> SourceOf(sources, q) == Some(FromContext(ctx.version))
    ensures forall q :: q !in inh && q.ConstraintAt? ==> SourceOf(sources, q) == Reindexed(prev, c, q.index)
    ensures forall q :: q !in inh && !q.ConstraintAt? ==> SourceOf(sources, q) == base(q)
  {
    WithoutConstraintsDrops(sources0);
    ghost var others := (q: Path) => if q.ConstraintAt? then None else base(q);
    var carried, carriedSources;
    carried, carriedSources, known, inh := CarryConstraints(prev, c, ctx, WithoutConstraints(sources0), known0, inh0, others);
    constraints, sources := AppendConstraints(prev, c, carried, carriedSources);
  }

  /** The source of an incoming constraint, looked up from its address after the merge. */
  function Reindexed(prev: Candidate, c: Candidate, index: nat): Option<Origin> {
    var n := |Carried(prev.constraints, c.constraints)|;
    if n <= index < n + |c.constraints| then SourceOf(c.provenance, ConstraintAt(index - n)) else None
  }

  lemma IncomingHaveSources(c: Candidate, ctx: Context)
    requires Traced(c, ctx)
    ensures forall i :: 0 <= i < |c.constraints| ==> SourceOf(c.provenance, ConstraintAt(i)).Some?
  {
    forall i | 0 <= i < |c.constraints| ensures SourceOf(c.provenance, ConstraintAt(i)).Some? {
      SourceOfHas(c.provenance, ConstraintAt(i));
      assert FieldAt(c, ConstraintAt(i)).Some?;
    }
  }

  /** _merge */
  method Merge(prev: Candidate, c: Candidate, ctx: Context) returns (m: Candidate, ctx': Context)
    requires DistinctKeys(prev.entities) && Traced(c, ctx)
    ensures IsMerge(prev, c, ctx, m, ctx')
  {
    ghost var base := (q: Path) => SourceOf(c.provenance, q);
    IncomingHaveSources(c, ctx);
    var head, sources, known;
    ghost var inh;
    head, sources, known, inh := MergeHead(prev, c, ctx, base);
    var entities;
    entities, sources, known, inh := MergeEntities(prev, c, ctx, sources, known, inh, base);
    var constraints;
    constraints, sources, known, inh := MergeConstraints(prev, c, ctx, sources, known, inh, base);
    m := head.(entities := entities, constraints := constraints, provenance := sources);
    ctx' := ctx.(known := known);
    assert prev.entities[..|prev.entities|] == prev.entities;
    forall q ensures Inherited(prev, c, q) == if q in inh then Some(inh[q]) else None {
    }
    MergedSources(prev, c, ctx, m, ctx', inh);
  }

  lemma MergedSources(prev: Candidate, c: Candidate, ctx: Context, m: Candidate, ctx': Context, inh: map<Path, Field>)
    requires forall q :: Inherited(prev, c, q) == if q in inh then Some(inh[q]) else None
    requires m.(provenance := []) == MergedFields(prev, c) && UniquePaths(m.provenance)
    requires ctx' == ctx.(known := ctx.known + inh)
    requires forall q :: q in inh ==> SourceOf(m.provenance, q) == Some(FromContext(ctx.version))
    requires forall q :: q !in inh && q.ConstraintAt? ==> SourceOf(m.provenance, q) == Reindexed(prev, c, q.index)
    requires forall q :: q !in inh && !q.ConstraintAt? ==> SourceOf(m.provenance, q) == SourceOf(c.provenance, q)
    ensures IsMerge(prev, c, ctx, m, ctx')
  {
    forall p ensures SourceOf(m.provenance, p) == MergedOrigin(prev, c, ctx, p) {
      assert Inherited(prev, c, p) == if p in inh then Some(inh[p]) else None;
    }
  }
}
