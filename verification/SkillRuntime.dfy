/** The two objects behind the skill tools, and the loops of restore. */
module SkillRuntime {
  import opened Prelude
  import opened SkillState
  import opened SkillRestore

  class RuntimeState {
    const release: string
    const budget: int
    var revision: int
    var selected: Selected
    var active: seq<Active>
    var disclosed: seq<Reference>
    var saved: seq<Record>

    function Value(): State
      reads this
    {
      State(release, budget, revision, selected, active, disclosed)
    }

    constructor (release: string, budget: int)
      ensures Value() == Initial(release, budget) && saved == []
    {
      this.release, this.budget := release, budget;
      revision, selected, active, disclosed, saved := 0, NOTHING, [], [], [];
    }

    method PrepareActivation(skill: Skill) returns (r: Result<Prepared, Failure>)
      ensures r == PrepareSkill(Value(), skill)
    {
      if skill.release != release {
        return Err(SnapshotMismatch);
      }
      var found := FindActive(active, skill.id);
      if found.Some? {
        if found.value == Active(skill.id, skill.version, skill.hash) {
          return Ok(PreparedSkill(skill, revision, true));
        }
        return Err(SnapshotMismatch);
      }
      return Ok(PreparedSkill(skill, revision, false));
    }

    method PrepareDisclosure(r: Reference) returns (p: Result<Prepared, Failure>)
      ensures p == PrepareReference(Value(), r)
    {
      if r.release != release {
        return Err(SnapshotMismatch);
      }
      if FindActive(active, r.skill).None? {
        return Err(SkillNotActive);
      }
      if HasRef(disclosed, Key(r)) {
        return Ok(PreparedReference(r, revision, true));
      }
      if Chars(disclosed) + |r.content| > budget {
        return Err(BudgetExceeded);
      }
      return Ok(PreparedReference(r, revision, false));
    }

    /** The store's save, which either keeps the record or fails. */
    method Save(rec: Record, fails: bool) returns (ok: bool)
      modifies this`saved
      ensures ok <==> !fails
      ensures saved == if ok then old(saved) + [rec] else old(saved)
    {
      ok := !fails;
      if ok {
        saved := saved + [rec];
      }
    }

    /** commit_activation and commit_reference: save the next state, then make it visible. */
    method Commit(p: Prepared, fails: bool) returns (o: Outcome)
      modifies this
      ensures o == OutcomeOf(old(Value()), p, fails)
      ensures o.Committed? ==> Value() == Applied(old(Value()), p) && saved == old(saved) + [ToSave(old(Value()), p)]
      ensures !o.Committed? ==> Value() == old(Value()) && saved == old(saved)
    {
      if p.idempotent {
        return Idempotent;
      }
      if p.expected != revision {
        return Conflict;
      }
      var ok: bool;
      match p {
        case PreparedSkill(skill, _, _) =>
          var next := PutActive(active, Active(skill.id, skill.version, skill.hash));
          ok := Save(AsRecord(Value(), Some(skill), disclosed, revision + 1, next), fails);
          if ok {
            active := next;
            if selected.id.None? {
              selected := Selected(Some(skill.id), Some(skill.version), Some(skill.hash));
            }
          }
        case PreparedReference(r, _, _) =>
          var next := PutRef(disclosed, r);
          ok := Save(AsRecord(Value(), None, next, revision + 1, active), fails);
          if ok {
            disclosed := next;
          }
      }
      if !ok {
        return WriteFailed;
      }
      revision := revision + 1;
      return Committed;
    }
  }

  /* ---------- what the tools keep in step ---------- */

  lemma {:induction false} FindActiveOf(skills: seq<Skill>, id: string)
    ensures FindActive(ActiveOf(skills), id).None? <==> forall i :: 0 <= i < |skills| ==> skills[i].id != id
  {
    if skills != [] {
      assert ActiveOf(skills)[1..] == ActiveOf(skills[1..]);
      FindActiveOf(skills[1..], id);
      assert forall i :: 1 <= i < |skills| ==> skills[i] == skills[1..][i - 1];
    }
  }

  lemma {:induction false} PutSameSkill(skills: seq<Skill>, s: Skill)
    requires s in skills && forall i, j :: 0 <= i < j < |skills| ==> skills[i].id != skills[j].id
    ensures PutSkill(skills, s) == skills
  {
    if skills[0].id != s.id {
      assert s in skills[1..];
      PutSameSkill(skills[1..], s);
    } else {
      assert skills[0] == s;
    }
  }

  lemma {:induction false} PutSameRef(refs: seq<Reference>, r: Reference)
    requires r in refs && DistinctKeys(refs)
    ensures PutRef(refs, r) == refs
  {
    if Key(refs[0]) != Key(r) {
      assert r in refs[1..];
      PutSameRef(refs[1..], r);
    } else {
      assert refs[0] == r;
    }
  }

  /** Committing a freshly loaded skill, and filing its content, keeps tools and state in step. */
  lemma {:induction false} LoadKeepsTied(loader: Loader, rt: Runtime, skill: Skill)
    requires Tied(loader, rt) && loader.load(skill.id) == Some(skill) && PrepareSkill(rt.state, skill).Ok?
    ensures var p := PrepareSkill(rt.state, skill).value;
      && Tied(loader, Runtime(if p.idempotent then rt.state else Applied(rt.state, p), PutSkill(rt.loaded, skill), rt.references))
      && (p.idempotent ==> PutSkill(rt.loaded, skill) == rt.loaded)
  {
    var p := PrepareSkill(rt.state, skill).value;
    FindActiveOf(rt.loaded, skill.id);
    forall i, j | 0 <= i < j < |rt.loaded| ensures rt.loaded[i].id != rt.loaded[j].id {
      assert rt.state.active[i].id != rt.state.active[j].id;
    }
    if p.idempotent {
      var i :| 0 <= i < |rt.loaded| && rt.loaded[i].id == skill.id;
      assert rt.loaded[i] == skill;
      PutSameSkill(rt.loaded, skill);
    } else {
      AppliedOk(rt.state, p);
      PutNewSkill(rt.loaded, skill);
      PutNewActive(rt.state.active, Active(skill.id, skill.version, skill.hash));
      assert ActiveOf(rt.loaded + [skill]) == ActiveOf(rt.loaded) + [Active(skill.id, skill.version, skill.hash)];
    }
  }

  /** An idempotent disclosure refers to the stored reference itself: keys of honestly loaded references cannot be mistaken for each other. */
  lemma {:induction false} ReadKeepsTied(loader: Loader, rt: Runtime, r: Reference)
    requires Tied(loader, rt) && loader.read(r.skill, r.id) == Some(r) && PrepareReference(rt.state, r).Ok?
    requires !PrepareReference(rt.state, r).value.idempotent || r in rt.references
    ensures var p := PrepareReference(rt.state, r).value;
      && Tied(loader, Runtime(if p.idempotent then rt.state else Applied(rt.state, p), rt.loaded, PutRef(rt.references, r)))
      && (p.idempotent ==> PutRef(rt.references, r) == rt.references)
  {
    var p := PrepareReference(rt.state, r).value;
    if p.idempotent {
      PutSameRef(rt.references, r);
    } else {
      AppliedOk(rt.state, p);
      PutNewRef(rt.state.disclosed, r);
    }
  }

  /** A key that is already disclosed belongs to the very reference that loading gives. */
  lemma DisclosedIsSame(loader: Loader, rt: Runtime, r: Reference)
    requires Tied(loader, rt) && Honest(loader) && loader.read(r.skill, r.id) == Some(r) && HasRef(rt.state.disclosed, Key(r))
    ensures r in rt.references
  {
    var i :| 0 <= i < |rt.references| && Key(rt.references[i]) == Key(r);
    KeyInjective(rt.references[i], r);
  }

  /** One more reference of an active skill, within the budget, at the next revision. */
  ghost predicate Discloses(loader: Loader, before: Runtime, after: Runtime, owner: string, id: string) {
    && FindActive(before.state.active, owner).Some? && loader.read(owner, id).Some?
    && after.references == before.references + [loader.read(owner, id).value]
    && Chars(after.state.disclosed) <= after.state.budget
    && after.state == before.state.(disclosed := after.references, revision := before.state.revision + 1)
  }

  class Tools {
    const state: RuntimeState
    const loader: Loader
    var loaded: seq<Skill>
    var references: seq<Reference>

    function Value(): Runtime
      reads this, state
    {
      Runtime(state.Value(), loaded, references)
    }

    ghost predicate Valid()
      reads this, state
    {
      Tied(loader, Value())
    }

    constructor (state: RuntimeState, loader: Loader)
      requires state.Value() == Initial(state.release, state.budget)
      ensures Valid() && this.state == state && this.loader == loader
      ensures Value() == Runtime(state.Value(), [], [])
    {
      this.state, this.loader, loaded, references := state, loader, [], [];
    }

    /** _load */
    method Load(id: string, allowed: Skill -> bool, fails: bool) returns (r: Result<Outcome, Failure>)
      requires Valid() && Honest(loader)
      modifies this, state
      ensures Valid()
      ensures r.Err? || !r.value.Committed? ==> Value() == old(Value()) && state.saved == old(state.saved)
      ensures r.Ok? && r.value.Committed? ==> loader.load(id).Some? && allowed(loader.load(id).value)
      ensures r.Ok? && r.value.Committed? ==> loaded == old(loaded) + [loader.load(id).value] && state.revision == old(state.revision) + 1
      ensures r.Ok? && r.value.Committed? ==> state.active == old(state.active) + ActiveOf([loader.load(id).value])
      ensures r.Ok? && r.value.Idempotent? ==> FindActive(state.active, id).Some?
      ensures r != Ok(Conflict)
    {
      var skill := loader.load(id);
      if skill.None? || !allowed(skill.value) {
        return Err(NotLoadable);
      }
      var p := state.PrepareActivation(skill.value);
      if p.Err? {
        return Err(p.error);
      }
      LoadKeepsTied(loader, Value(), skill.value);
      FindActiveOf(loaded, id);
      var o := state.Commit(p.value, fails);
      if o.Committed? {
        PutNewActive(old(state.active), Active(id, skill.value.version, skill.value.hash));
        PutNewSkill(old(loaded), skill.value);
      }
      if o.Committed? || o.Idempotent? {
        loaded := PutSkill(loaded, skill.value);
      }
      return Ok(o);
    }

    /** _read_reference: of the named skill, or of the only one that is loaded. */
    method ReadReference(skill: Option<string>, id: string, fails: bool) returns (r: Result<Outcome, Failure>)
      requires Valid() && Honest(loader)
      modifies this, state
      ensures Valid()
      ensures r.Err? || !r.value.Committed? ==> Value() == old(Value()) && state.saved == old(state.saved)
      ensures r.Ok? && r.value.Committed? ==> exists owner :: Discloses(loader, old(Value()), Value(), owner, id)
      ensures r != Ok(Conflict)
    {
      var owner := skill;
      if owner.None? && |loaded| == 1 {
        owner := Some(loaded[0].id);
      }
      if owner.None? || FindActive(ActiveOf(loaded), owner.value).None? {
        return Err(SkillNotActive);
      }
      var reference := loader.read(owner.value, id);
      if reference.None? {
        return Err(NotLoadable);
      }
      var p := state.PrepareDisclosure(reference.value);
      if p.Err? {
        return Err(p.error);
      }
      if p.value.idempotent {
        DisclosedIsSame(loader, Value(), reference.value);
      }
      ReadKeepsTied(loader, Value(), reference.value);
      var o := state.Commit(p.value, fails);
      if o.Committed? {
        PutNewRef(old(references), reference.value);
      }
      if o.Committed? || o.Idempotent? {
        references := PutRef(references, reference.value);
      }
      assert o.Committed? ==> Discloses(loader, old(Value()), Value(), owner.value, id);
      return Ok(o);
    }

    /** restore, check by check and only then field by field. */
    method Restore(rec: Record) returns (r: Result<int, Failure>)
      modifies this, state
      ensures (Value(), r) == Restored(loader, old(Value()), rec)
      ensures state.saved == old(state.saved)
    {
      if rec.release != state.release || rec.active.None? {
        return Err(SnapshotMismatch);
      }
      var skills := RestoreSkills(loader, rec.active.value);
      if skills.Err? {
        return Err(skills.error);
      }
      var refs := RestoreReferences(loader, rec.references);
      if refs.Err? {
        return Err(refs.error);
      }
      loaded := skills.value;
      references := refs.value;
      state.active := ActiveOf(skills.value);
      state.disclosed := refs.value;
      if rec.revision.NotANumber? {
        return Err(MalformedRevision);
      }
      state.revision := rec.revision.value;
      state.selected := rec.selected;
      return Ok(rec.revision.value);
    }
  }

  lemma {:induction false} SkillsFailEarly(loader: Loader, active: seq<Active>, i: nat)
    requires i <= |active| && CollectSkills(loader, active[..i]).Err?
    ensures CollectSkills(loader, active) == CollectSkills(loader, active[..i])
    decreases |active|
  {
    var n := |active| - 1;
    if i == |active| {
      assert active[..i] == active;
    } else {
      assert active[..n][..i] == active[..i];
      SkillsFailEarly(loader, active[..n], i);
    }
  }

  method RestoreSkills(loader: Loader, active: seq<Active>) returns (r: Result<seq<Skill>, Failure>)
    ensures r == CollectSkills(loader, active)
  {
    var skills := [];
    for i := 0 to |active|
      invariant CollectSkills(loader, active[..i]) == Ok(skills)
    {
      assert active[..i + 1][..i] == active[..i];
      var skill := loader.load(active[i].id);
      if skill.None? {
        SkillsFailEarly(loader, active, i + 1);
        return Err(NotLoadable);
      }
      if skill.value.version != active[i].version || skill.value.hash != active[i].hash {
        SkillsFailEarly(loader, active, i + 1);
        return Err(SnapshotMismatch);
      }
      skills := PutSkill(skills, skill.value);
    }
    assert active[..|active|] == active;
    return Ok(skills);
  }

  lemma {:induction false} ReferencesFailEarly(loader: Loader, items: seq<Item>, i: nat)
    requires i <= |items| && CollectReferences(loader, items[..i]).Err?
    ensures CollectReferences(loader, items) == CollectReferences(loader, items[..i])
    decreases |items|
  {
    var n := |items| - 1;
    if i == |items| {
      assert items[..i] == items;
    } else {
      assert items[..n][..i] == items[..i];
      ReferencesFailEarly(loader, items[..n], i);
    }
  }

  method RestoreReferences(loader: Loader, items: seq<Item>) returns (r: Result<seq<Reference>, Failure>)
    ensures r == CollectReferences(loader, items)
  {
    var refs := [];
    for i := 0 to |items|
      invariant CollectReferences(loader, items[..i]) == Ok(refs)
    {
      assert items[..i + 1][..i] == items[..i];
      var reference := loader.read(items[i].skill, items[i].id);
      if reference.None? {
        ReferencesFailEarly(loader, items, i + 1);
        return Err(NotLoadable);
      }
      if reference.value.hash != items[i].hash {
        ReferencesFailEarly(loader, items, i + 1);
        return Err(SnapshotMismatch);
      }
      refs := PutRef(refs, reference.value);
    }
    assert items[..|items|] == items;
    return Ok(refs);
  }
}
