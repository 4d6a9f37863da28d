/** The source check as the program runs it: two dictionaries, compared. */
module IntentSources {
  import opened Prelude
  import opened IntentModel
  import opened IntentMerge

  /** A dictionary of exactly the fields whose path satisfies `some`. */
  ghost predicate Tabulates(c: Candidate, fields: map<Path, Field>, some: Path -> bool) {
    && (forall p :: p in fields <==> some(p) && FieldAt(c, p).Some?)
    && (forall p :: p in fields ==> FieldAt(c, p) == Some(fields[p]))
  }

  function Early(c: Candidate, i: nat): Path -> bool
    requires i <= |c.entities|
  {
    (p: Path) => p.Objective? || (p.Entity? && HasKey(c.entities[..i], p.key))
  }

  lemma EarlyStep(c: Candidate, fields: map<Path, Field>, i: nat)
    requires DistinctKeys(c.entities) && i < |c.entities| && Tabulates(c, fields, Early(c, i))
    ensures Tabulates(c, fields[Entity(c.entities[i].0) := TextField(c.entities[i].1)], Early(c, i + 1))
  {
    LookupAt(c.entities, i);
    assert c.entities[..i + 1] == c.entities[..i] + [c.entities[i]];
    forall k ensures HasKey(c.entities[..i + 1], k) <==> k == c.entities[i].0 || HasKey(c.entities[..i], k) {
      HasKeyAppend(c.entities[..i], c.entities[i], k);
    }
  }

  /** The dictionary of extracted fields. */
  method ExtractedFields(c: Candidate) returns (fields: map<Path, Field>)
    requires DistinctKeys(c.entities)
    ensures Tabulates(c, fields, p => true)
  {
    fields := map[Objective := TextField(c.objective)];
    var i := 0;
    while i < |c.entities|
      invariant 0 <= i <= |c.entities|
      invariant Tabulates(c, fields, Early(c, i))
    {
      EarlyStep(c, fields, i);
      fields := fields[Entity(c.entities[i].0) := TextField(c.entities[i].1)];
      i := i + 1;
    }
    assert c.entities[..i] == c.entities;
    forall k ensures Lookup(c.entities, k).Some? <==> HasKey(c.entities, k) {
      LookupHas(c.entities, k);
    }
    fields := AddConstraints(c, fields);
    if c.control.Some? && (c.control.value.target.Some? || HasSource(c.provenance, ControlTarget)) {
      fields := fields[ControlTarget := if c.control.value.target.Some? then TextField(c.control.value.target.value) else NullField];
    }
  }

  method AddConstraints(c: Candidate, fields0: map<Path, Field>) returns (fields: map<Path, Field>)
    requires Tabulates(c, fields0, (p: Path) => p.Objective? || p.Entity?)
    ensures Tabulates(c, fields, (p: Path) => p.Objective? || p.Entity? || p.ConstraintAt?)
  {
    fields := fields0;
    var i := 0;
    while i < |c.constraints|
      invariant 0 <= i <= |c.constraints|
      invariant Tabulates(c, fields, (p: Path) => p.Objective? || p.Entity? || (p.ConstraintAt? && p.index < i))
    {
      fields := fields[ConstraintAt(i) := LimitField(c.constraints[i])];
      i := i + 1;
    }
  }

  lemma HasKeyAppend(entities: seq<(string, string)>, e: (string, string), key: string)
    ensures HasKey(entities + [e], key) <==> key == e.0 || HasKey(entities, key)
  {
    var all := entities + [e];
    assert all[|entities|] == e;
    assert forall i :: 0 <= i < |entities| ==> all[i] == entities[i];
  }

  lemma {:induction false} LookupAt(entities: seq<(string, string)>, i: nat)
    requires DistinctKeys(entities) && i < |entities|
    ensures Lookup(entities, entities[i].0) == Some(TextField(entities[i].1))
  {
    if i > 0 {
      LookupAt(entities[1..], i - 1);
    }
  }

  ghost predicate ListsSources(provenance: seq<Source>, sources: map<Path, Origin>) {
    && (forall p :: p in sources <==> HasSource(provenance, p))
    && (forall k :: 0 <= k < |provenance| ==> provenance[k].path in sources && sources[provenance[k].path] == provenance[k].origin)
  }

  lemma ListsAppend(provenance: seq<Source>, sources: map<Path, Origin>, s: Source)
    requires ListsSources(provenance, sources) && s.path !in sources
    ensures ListsSources(provenance + [s], sources[s.path := s.origin])
    ensures UniquePaths(provenance) ==> UniquePaths(provenance + [s])
  {
    var all := provenance + [s];
    forall p ensures HasSource(all, p) <==> p == s.path || HasSource(provenance, p) {
      assert all[|provenance|] == s;
      assert forall k :: 0 <= k < |provenance| ==> all[k] == provenance[k];
    }
  }

  /** Sources by path; none when a path is claimed twice. */
  method CollectSources(provenance: seq<Source>) returns (sources: Option<map<Path, Origin>>)
    ensures sources.Some? <==> UniquePaths(provenance)
    ensures sources.Some? ==> ListsSources(provenance, sources.value)
  {
    var table: map<Path, Origin>, i := map[], 0;
    while i < |provenance|
      invariant 0 <= i <= |provenance|
      invariant UniquePaths(provenance[..i]) && ListsSources(provenance[..i], table)
    {
      var s := provenance[i];
      if s.path in table {
        assert HasSource(provenance[..i], s.path);
        return None;
      }
      ListsAppend(provenance[..i], table, s);
      assert provenance[..i + 1] == provenance[..i] + [s];
      table := table[s.path := s.origin];
      i := i + 1;
    }
    assert provenance[..i] == provenance;
    return Some(table);
  }

  lemma TracedByTables(c: Candidate, ctx: Context, fields: map<Path, Field>, sources: map<Path, Origin>)
    requires Tabulates(c, fields, p => true)
    requires UniquePaths(c.provenance) && ListsSources(c.provenance, sources)
    ensures Traced(c, ctx) <==> sources.Keys == fields.Keys && forall p :: p in fields ==> Holds(ctx, sources[p], p, fields[p])
  {
    if Traced(c, ctx) {
      assert forall p :: p in sources <==> p in fields;
      forall p | p in fields ensures Holds(ctx, sources[p], p, fields[p]) {
        assert HasSource(c.provenance, p);
      }
    } else if sources.Keys == fields.Keys && forall p :: p in fields ==> Holds(ctx, sources[p], p, fields[p]) {
      assert forall p :: p in sources <==> p in fields;
      assert Traced(c, ctx);
    }
  }

  /** validate_sources */
  method ValidateSources(lex: Lexicon, c: Candidate, ctx: Context) returns (ok: bool)
    requires DistinctKeys(c.entities)
    ensures ok <==> SourcesOk(lex, c, ctx)
  {
    if ctx.message !in ctx.messages || !KeepsProhibitions(lex, c, ctx) || !KeepsTaskIds(lex, c, ctx) {
      return false;
    }
    var fields := ExtractedFields(c);
    var sources := CollectSources(c.provenance);
    if sources.None? {
      return false;
    }
    TracedByTables(c, ctx, fields, sources.value);
    ok := sources.value.Keys == fields.Keys && forall p | p in fields.Keys :: Holds(ctx, sources.value[p], p, fields[p]);
  }
}
