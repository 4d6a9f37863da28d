/**
  Restoring in the middle of prepares and commits. A restore checks neither the
  budget nor the values callers have prepared, so it can end what the other steps
  keep; this module says for which records it does not.
*/
module SkillResume {
  import opened Prelude
  import opened SkillState
  import opened SkillRestore

  /** restore as a step: the state is replaced, prepared values and saved records stay. What the tools keep beside it plays no part. */
  function RestoreWorld(loader: Loader, w: World, rec: Record): World {
    w.(state := Restored(loader, Runtime(w.state, [], []), rec).0.state)
  }

  /* ---------- what can be read off the record ---------- */

  predicate Lists(rec: Record, skill: string)
    requires rec.active.Some?
  {
    exists i | 0 <= i < |rec.active.value| :: rec.active.value[i].id == skill
  }

  predicate Names(items: seq<Item>, key: string) {
    exists i | 0 <= i < |items| :: items[i].skill + ":" + items[i].id == key
  }

  /** The characters the record discloses, each reference once. */
  function Size(loader: Loader, rec: Record): nat
    requires Loadable(loader, rec)
  {
    Chars(CollectReferences(loader, rec.references).value)
  }

  function RevisionAfter(w: World, rec: Record): int {
    match rec.revision
    case Number(n) => n
    case NotANumber => w.state.revision
  }

  /** Disclosure fits the budget and belongs to skills the record lists. */
  predicate Affordable(loader: Loader, rec: Record, budget: int)
    requires Loadable(loader, rec)
  {
    && (rec.references == [] || Size(loader, rec) <= budget)
    && (forall i | 0 <= i < |rec.references| :: Lists(rec, rec.references[i].skill))
  }

  /** A prepared value is older than the record, or would have passed its checks against it. */
  predicate Harmless(loader: Loader, rec: Record, revision: int, budget: int, p: Prepared)
    requires Loadable(loader, rec)
  {
    && p.expected <= revision
    && (p.expected == revision && !p.idempotent ==>
          match p
          case PreparedSkill(skill, _, _) => !Lists(rec, skill.id)
          case PreparedReference(r, _, _) =>
            Lists(rec, r.skill) && !Names(rec.references, Key(r)) && Size(loader, rec) + |r.content| <= budget)
  }

  /** The last saved record says what this one loads to. */
  predicate Saved(loader: Loader, w: World, rec: Record)
    requires Loadable(loader, rec)
  {
    w.saved == [] ||
    var last := w.saved[|w.saved| - 1];
    && last.release == rec.release && last.revision == Number(RevisionAfter(w, rec))
    && last.active == Some(ActiveOf(CollectSkills(loader, rec.active.value).value))
    && last.references == Items(Sort(CollectReferences(loader, rec.references).value))
  }

  /** What a caller can check before restoring. */
  predicate Safe(loader: Loader, w: World, rec: Record) {
    rec.release == w.state.release && Loadable(loader, rec) ==>
      && Affordable(loader, rec, w.state.budget)
      && (forall i | 0 <= i < |w.issued| :: Harmless(loader, rec, RevisionAfter(w, rec), w.state.budget, w.issued[i]))
      && Saved(loader, w, rec)
  }

  /* ---------- what the collected contents are ---------- */

  lemma {:induction false} FindInActive(skills: seq<Skill>, id: string)
    ensures FindActive(ActiveOf(skills), id).Some? <==> exists i :: 0 <= i < |skills| && skills[i].id == id
  {
    if skills != [] {
      assert ActiveOf(skills)[1..] == ActiveOf(skills[1..]);
      FindInActive(skills[1..], id);
      if i :| 0 <= i < |skills[1..]| && skills[1..][i].id == id {
        assert skills[i + 1].id == id;
      }
      if i :| 0 <= i < |skills| && skills[i].id == id {
        assert i > 0 ==> skills[1..][i - 1].id == id;
      }
    }
  }

  ghost predicate DistinctSkills(skills: seq<Skill>) { forall i, j :: 0 <= i < j < |skills| ==> skills[i].id != skills[j].id }

  predicate HasSkill(skills: seq<Skill>, id: string) { exists i | 0 <= i < |skills| :: skills[i].id == id }

  lemma {:induction false} PutSkillHas(skills: seq<Skill>, s: Skill, id: string)
    ensures HasSkill(PutSkill(skills, s), id) <==> HasSkill(skills, id) || id == s.id
  {
    if skills == [] {
      assert HasSkill([s], id) <==> id == s.id by {
        assert [s][0] == s;
      }
    } else if skills[0].id == s.id {
      var put := PutSkill(skills, s);
      assert forall i :: 0 <= i < |skills| ==> put[i].id == skills[i].id;
    } else {
      PutSkillHas(skills[1..], s, id);
      HasSkillCons(skills, id);
      HasSkillCons(PutSkill(skills, s), id);
    }
  }

  lemma HasSkillCons(skills: seq<Skill>, id: string)
    requires skills != []
    ensures HasSkill(skills, id) <==> skills[0].id == id || HasSkill(skills[1..], id)
  {
    if i :| 0 <= i < |skills| && skills[i].id == id {
      assert i > 0 ==> skills[1..][i - 1].id == id;
    }
    if i :| 0 <= i < |skills[1..]| && skills[1..][i].id == id {
      assert skills[i + 1].id == id;
    }
  }

  lemma {:induction false} PutSkillDistinct(skills: seq<Skill>, s: Skill)
    requires DistinctSkills(skills)
    ensures DistinctSkills(PutSkill(skills, s))
  {
    if skills != [] && skills[0].id != s.id {
      PutSkillDistinct(skills[1..], s);
      PutSkillHas(skills[1..], s, skills[0].id);
      var rest := PutSkill(skills[1..], s);
      assert !HasSkill(skills[1..], skills[0].id);
      assert !HasSkill(rest, skills[0].id);
    }
  }

  /** Loading a record's skills gives each listed one once. */
  lemma {:induction false} CollectedSkills(loader: Loader, active: seq<Active>, id: string)
    requires Honest(loader) && CollectSkills(loader, active).Ok?
    ensures DistinctSkills(CollectSkills(loader, active).value)
    ensures HasSkill(CollectSkills(loader, active).value, id) <==> exists i :: 0 <= i < |active| && active[i].id == id
  {
    if active != [] {
      var n := |active| - 1;
      CollectedSkills(loader, active[..n], id);
      var before, s := CollectSkills(loader, active[..n]).value, loader.load(active[n].id).value;
      PutSkillDistinct(before, s);
      PutSkillHas(before, s, id);
      if i :| 0 <= i < |active| && active[i].id == id {
        assert i < n ==> active[..n][i].id == id;
      }
    }
  }

  ghost predicate DistinctRefs(refs: seq<Reference>) { DistinctKeys(refs) && forall i :: 0 <= i < |refs| ==> ':' !in refs[i].skill }

  predicate HasOwner(refs: seq<Reference>, skill: string) { exists i | 0 <= i < |refs| :: refs[i].skill == skill }

  lemma HasRefCons(refs: seq<Reference>, key: string)
    requires refs != []
    ensures HasRef(refs, key) <==> Key(refs[0]) == key || HasRef(refs[1..], key)
  {
    if i :| 0 <= i < |refs| && Key(refs[i]) == key {
      assert i > 0 ==> Key(refs[1..][i - 1]) == key;
    }
    if i :| 0 <= i < |refs[1..]| && Key(refs[1..][i]) == key {
      assert Key(refs[i + 1]) == key;
    }
  }

  lemma HasOwnerCons(refs: seq<Reference>, skill: string)
    requires refs != []
    ensures HasOwner(refs, skill) <==> refs[0].skill == skill || HasOwner(refs[1..], skill)
  {
    if i :| 0 <= i < |refs| && refs[i].skill == skill {
      assert i > 0 ==> refs[1..][i - 1].skill == skill;
    }
    if i :| 0 <= i < |refs[1..]| && refs[1..][i].skill == skill {
      assert refs[i + 1].skill == skill;
    }
  }

  lemma {:induction false} PutRefHas(refs: seq<Reference>, r: Reference, key: string)
    ensures HasRef(PutRef(refs, r), key) <==> HasRef(refs, key) || key == Key(r)
  {
    HasRefCons(PutRef(refs, r), key);
    if refs != [] {
      HasRefCons(refs, key);
      if Key(refs[0]) != Key(r) {
        PutRefHas(refs[1..], r, key);
      }
    }
  }

  lemma {:induction false} PutRefOwners(refs: seq<Reference>, r: Reference, skill: string)
    requires DistinctRefs(refs) && ':' !in r.skill
    ensures HasOwner(PutRef(refs, r), skill) <==> HasOwner(refs, skill) || skill == r.skill
  {
    HasOwnerCons(PutRef(refs, r), skill);
    if refs != [] {
      HasOwnerCons(refs, skill);
      if Key(refs[0]) == Key(r) {
        KeyInjective(refs[0], r);
      } else {
        PutRefOwners(refs[1..], r, skill);
      }
    }
  }

  lemma {:induction false} PutRefDistinct(refs: seq<Reference>, r: Reference)
    requires DistinctRefs(refs) && ':' !in r.skill
    ensures DistinctRefs(PutRef(refs, r))
  {
    if refs != [] && Key(refs[0]) != Key(r) {
      PutRefDistinct(refs[1..], r);
      PutRefHas(refs[1..], r, Key(refs[0]));
      assert !HasRef(refs[1..], Key(refs[0]));
      assert !HasRef(PutRef(refs[1..], r), Key(refs[0]));
    }
  }

  predicate OwnedBy(items: seq<Item>, skill: string) { exists i | 0 <= i < |items| :: items[i].skill == skill }

  /** Loading a record's references gives each listed one once, owned by the listed skills. */
  lemma {:induction false} CollectedReferences(loader: Loader, items: seq<Item>, key: string, skill: string)
    requires Honest(loader) && CollectReferences(loader, items).Ok?
    ensures var refs := CollectReferences(loader, items).value;
      && DistinctRefs(refs) && (refs == [] <==> items == [])
      && (HasRef(refs, key) <==> Names(items, key)) && (HasOwner(refs, skill) <==> OwnedBy(items, skill))
  {
    if items != [] {
      var n := |items| - 1;
      CollectedReferences(loader, items[..n], key, skill);
      var before, r := CollectReferences(loader, items[..n]).value, loader.read(items[n].skill, items[n].id).value;
      PutRefDistinct(before, r);
      PutRefHas(before, r, key);
      PutRefOwners(before, r, skill);
      NamesLast(items, key);
      OwnedByLast(items, skill);
    }
  }

  lemma NamesLast(items: seq<Item>, key: string)
    requires items != []
    ensures var n := |items| - 1; Names(items, key) <==> Names(items[..n], key) || items[n].skill + ":" + items[n].id == key
  {
    var n := |items| - 1;
    if i :| 0 <= i < |items| && items[i].skill + ":" + items[i].id == key {
      assert i < n ==> items[..n][i] == items[i];
    }
    if i :| 0 <= i < n && items[..n][i].skill + ":" + items[..n][i].id == key {
      assert items[i] == items[..n][i];
    }
  }

  lemma OwnedByLast(items: seq<Item>, skill: string)
    requires items != []
    ensures var n := |items| - 1; OwnedBy(items, skill) <==> OwnedBy(items[..n], skill) || items[n].skill == skill
  {
    var n := |items| - 1;
    if i :| 0 <= i < |items| && items[i].skill == skill {
      assert i < n ==> items[..n][i] == items[i];
    }
    if i :| 0 <= i < n && items[..n][i].skill == skill {
      assert items[i] == items[..n][i];
    }
  }

  /* ---------- when a restore keeps the invariant ---------- */

  /** A skill is active after the restore exactly when the record lists it. */
  lemma ActiveIffListed(loader: Loader, rec: Record, id: string)
    requires Honest(loader) && Loadable(loader, rec)
    ensures FindActive(ActiveOf(CollectSkills(loader, rec.active.value).value), id).Some? <==> Lists(rec, id)
  {
    CollectedSkills(loader, rec.active.value, id);
    FindInActive(CollectSkills(loader, rec.active.value).value, id);
  }

  /** The state a loadable record of this release is restored to. */
  function StateAfter(loader: Loader, w: World, rec: Record): State
    requires Loadable(loader, rec)
  {
    State(w.state.release, w.state.budget, RevisionAfter(w, rec), if rec.revision.Number? then rec.selected else w.state.selected,
          ActiveOf(CollectSkills(loader, rec.active.value).value), CollectReferences(loader, rec.references).value)
  }

  lemma RestoredState(loader: Loader, w: World, rec: Record)
    ensures RestoreWorld(loader, w, rec) ==
      if rec.release == w.state.release && Loadable(loader, rec) then w.(state := StateAfter(loader, w, rec)) else w
  {
  }

  lemma StateOkIff(loader: Loader, w: World, rec: Record)
    requires Honest(loader) && Loadable(loader, rec)
    ensures StateOk(StateAfter(loader, w, rec)) <==> Affordable(loader, rec, w.state.budget)
  {
    var skills, refs := CollectSkills(loader, rec.active.value).value, CollectReferences(loader, rec.references).value;
    CollectedSkills(loader, rec.active.value, "");
    CollectedReferences(loader, rec.references, "", "");
    assert DistinctIds(ActiveOf(skills));
    forall i | 0 <= i < |refs|
      ensures FindActive(ActiveOf(skills), refs[i].skill).Some? <==> Lists(rec, refs[i].skill)
      ensures OwnedBy(rec.references, refs[i].skill)
    {
      ActiveIffListed(loader, rec, refs[i].skill);
      CollectedReferences(loader, rec.references, "", refs[i].skill);
    }
    forall i | 0 <= i < |rec.references| ensures HasOwner(refs, rec.references[i].skill) {
      CollectedReferences(loader, rec.references, "", rec.references[i].skill);
    }
  }

  lemma FairIffHarmless(loader: Loader, w: World, rec: Record, p: Prepared)
    requires Honest(loader) && Loadable(loader, rec)
    ensures Fair(StateAfter(loader, w, rec), p) <==> Harmless(loader, rec, RevisionAfter(w, rec), w.state.budget, p)
  {
    match p
    case PreparedSkill(skill, _, _) => ActiveIffListed(loader, rec, skill.id);
    case PreparedReference(r, _, _) =>
      ActiveIffListed(loader, rec, r.skill);
      CollectedReferences(loader, rec.references, Key(r), "");
  }

  /** A restore keeps the invariant of prepares and commits exactly when the record is safe. */
  lemma RestoreKeepsInvIff(loader: Loader, w: World, rec: Record)
    requires Honest(loader) && Inv(w)
    ensures Inv(RestoreWorld(loader, w, rec)) <==> Safe(loader, w, rec)
  {
    RestoredState(loader, w, rec);
    if rec.release == w.state.release && Loadable(loader, rec) {
      StateOkIff(loader, w, rec);
      forall i | 0 <= i < |w.issued|
        ensures Fair(StateAfter(loader, w, rec), w.issued[i]) <==> Harmless(loader, rec, RevisionAfter(w, rec), w.state.budget, w.issued[i])
      {
        FairIffHarmless(loader, w, rec, w.issued[i]);
      }
    }
  }

  /* ---------- whole histories ---------- */

  datatype Move = Plain(step: Step) | Restore(rec: Record)

  predicate Allowed(w: World, move: Move) { move.Plain? ==> Enabled(w, move.step) }

  function After(loader: Loader, w: World, move: Move): World
    requires Allowed(w, move)
  {
    match move
    case Plain(step) => Next(w, step)
    case Restore(rec) => RestoreWorld(loader, w, rec)
  }

  ghost predicate IsHistory(loader: Loader, run: seq<World>, moves: seq<Move>) {
    && |run| == |moves| + 1
    && forall k :: 0 <= k < |moves| ==> Allowed(run[k], moves[k]) && run[k + 1] == After(loader, run[k], moves[k])
  }

  lemma RestoreKeepsBudget(loader: Loader, w: World, rec: Record)
    ensures RestoreWorld(loader, w, rec).state.budget == w.state.budget
  {
    RestoredState(loader, w, rec);
  }

  /** However prepares, commits and safe restores interleave, the invariant holds and disclosure stays within the budget. */
  lemma {:induction false} SafeRestoresKeepBudget(loader: Loader, run: seq<World>, moves: seq<Move>, k: nat)
    requires IsHistory(loader, run, moves) && Honest(loader) && Inv(run[0]) && k < |run|
    requires forall n :: 0 <= n < k && moves[n].Restore? ==> Safe(loader, run[n], moves[n].rec)
    ensures Inv(run[k]) && run[k].state.budget == run[0].state.budget
    ensures run[k].state.disclosed == [] || Chars(run[k].state.disclosed) <= run[0].state.budget
  {
    if k > 0 {
      SafeRestoresKeepBudget(loader, run, moves, k - 1);
      match moves[k - 1]
      case Plain(step) => NextKeepsInv(run[k - 1], step);
      case Restore(rec) =>
        RestoreKeepsInvIff(loader, run[k - 1], rec);
        RestoreKeepsBudget(loader, run[k - 1], rec);
    }
  }

  /* ---------- two records that are not safe ---------- */

  /** The record of one skill and one of its references. */
  function RecordOf(release: string, revision: int, skill: Skill, r: Reference): Record {
    Record(release, Number(revision), NOTHING, Some([Active(skill.id, skill.version, skill.hash)]), [Item(skill.id, r.id, r.hash)])
  }

  lemma RecordLoads(loader: Loader, w: World, revision: int, skill: Skill, r: Reference)
    requires loader.load(skill.id) == Some(skill) && loader.read(skill.id, r.id) == Some(r)
    ensures var rec := RecordOf(w.state.release, revision, skill, r);
      && Restored(loader, Runtime(w.state, [], []), rec).1 == Ok(revision)
      && RestoreWorld(loader, w, rec).state.disclosed == [r] && RestoreWorld(loader, w, rec).state.revision == revision
  {
    var rec := RecordOf(w.state.release, revision, skill, r);
    assert CollectSkills(loader, []) == Ok([]) && CollectReferences(loader, []) == Ok([]);
    assert rec.active.value[..0] == [] && rec.references[..0] == [];
  }

  /** A reference longer than the whole budget is disclosed all the same by restoring a record that names it. */
  lemma RestoreBeyondBudget(loader: Loader, w: World, revision: int, skill: Skill, r: Reference)
    requires loader.load(skill.id) == Some(skill) && loader.read(skill.id, r.id) == Some(r) && |r.content| > w.state.budget
    ensures var rec := RecordOf(w.state.release, revision, skill, r);
      && Restored(loader, Runtime(w.state, [], []), rec).1 == Ok(revision)
      && Chars(RestoreWorld(loader, w, rec).state.disclosed) > w.state.budget
  {
    RecordLoads(loader, w, revision, skill, r);
  }

  /**
    A value prepared before a restore is accepted after it when the record happens
    to have the same revision number: two references that fit the budget one by
    one are disclosed together beyond it.
  */
  lemma PreparedBeforeRestore(loader: Loader, w: World, skill: Skill, first: Reference, second: Reference)
    requires loader.load(skill.id) == Some(skill) && loader.read(skill.id, second.id) == Some(second)
    requires PrepareReference(w.state, first).Ok? && !PrepareReference(w.state, first).value.idempotent
    requires Key(first) != Key(second) && |first.content| <= w.state.budget && |second.content| <= w.state.budget
    requires |first.content| + |second.content| > w.state.budget
    ensures var p, rec := PrepareReference(w.state, first).value, RecordOf(w.state.release, w.state.revision, skill, second);
      var restored := RestoreWorld(loader, w, rec).state;
      && Chars(restored.disclosed) <= restored.budget == w.state.budget
      && OutcomeOf(restored, p, false) == Committed && Chars(Applied(restored, p).disclosed) > w.state.budget
  {
    RecordLoads(loader, w, w.state.revision, skill, second);
    RestoreKeepsBudget(loader, w, RecordOf(w.state.release, w.state.revision, skill, second));
    assert PutRef([second], first) == [second] + PutRef([], first);
    assert [second, first][1..] == [first];
  }
}
