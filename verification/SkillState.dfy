/**
  Skill activation and reference disclosure: prepare against a revision, commit
  when nobody else has committed since, save before anything becomes visible.
*/
module SkillState {
  import opened Prelude

  datatype Skill = Skill(id: string, version: string, instruction: string, hash: string, release: string)
  datatype Reference = Reference(skill: string, id: string, content: string, hash: string, release: string)
  datatype Active = Active(id: string, version: string, hash: string)

  /** The three selection fields, which restoring may set independently. */
  datatype Selected = Selected(id: Option<string>, version: Option<string>, hash: Option<string>)

  /** Dictionaries keep insertion order: skills by id, references by skill and reference id. */
  datatype State = State(release: string, budget: int, revision: int, selected: Selected, active: seq<Active>, disclosed: seq<Reference>)

  datatype Prepared =
    | PreparedSkill(skill: Skill, expected: int, idempotent: bool)
    | PreparedReference(reference: Reference, expected: int, idempotent: bool)

  datatype Failure = SnapshotMismatch | SkillNotActive | BudgetExceeded | NotLoadable | MalformedRevision
  datatype Outcome = Committed | Idempotent | Conflict | WriteFailed

  datatype Item = Item(skill: string, id: string, hash: string)

  /** A checkpoint; its revision is whatever was stored, which need not be a number. */
  datatype Revision = Number(value: int) | NotANumber
  datatype Record = Record(release: string, revision: Revision, selected: Selected, active: Option<seq<Active>>, references: seq<Item>)

  const NOTHING := Selected(None, None, None)

  function Initial(release: string, budget: int): State { State(release, budget, 0, NOTHING, [], []) }

  /* ---------- dictionaries ---------- */

  function Key(r: Reference): string { r.skill + ":" + r.id }

  function FindActive(active: seq<Active>, id: string): Option<Active> {
    if active == [] then None else if active[0].id == id then Some(active[0]) else FindActive(active[1..], id)
  }

  function PutActive(active: seq<Active>, a: Active): seq<Active> {
    if active == [] then [a] else if active[0].id == a.id then [a] + active[1..] else [active[0]] + PutActive(active[1..], a)
  }

  predicate HasRef(disclosed: seq<Reference>, key: string) { exists i | 0 <= i < |disclosed| :: Key(disclosed[i]) == key }

  function PutRef(disclosed: seq<Reference>, r: Reference): seq<Reference> {
    if disclosed == [] then [r] else if Key(disclosed[0]) == Key(r) then [r] + disclosed[1..] else [disclosed[0]] + PutRef(disclosed[1..], r)
  }

  function Chars(disclosed: seq<Reference>): nat {
    if disclosed == [] then 0 else |disclosed[0].content| + Chars(disclosed[1..])
  }

  ghost predicate DistinctIds(active: seq<Active>) { forall i, j :: 0 <= i < j < |active| ==> active[i].id != active[j].id }

  ghost predicate DistinctKeys(disclosed: seq<Reference>) { forall i, j :: 0 <= i < j < |disclosed| ==> Key(disclosed[i]) != Key(disclosed[j]) }

  /* ---------- the order of a record ---------- */

  /** Python's order on strings. */
  predicate Leq(a: string, b: string) {
    a == "" || (b != "" && (a[0] < b[0] || (a[0] == b[0] && Leq(a[1..], b[1..]))))
  }

  function Insert(r: Reference, sorted: seq<Reference>): seq<Reference> {
    if sorted == [] || Leq(r.id, sorted[0].id) then [r] + sorted else [sorted[0]] + Insert(r, sorted[1..])
  }

  /** Stable, by reference id alone. */
  function Sort(refs: seq<Reference>): seq<Reference> {
    if refs == [] then [] else Insert(refs[0], Sort(refs[1..]))
  }

  function Items(refs: seq<Reference>): seq<Item> {
    seq(|refs|, i requires 0 <= i < |refs| => Item(refs[i].skill, refs[i].id, refs[i].hash))
  }

  /** _as_dict */
  function AsRecord(s: State, selected: Option<Skill>, disclosed: seq<Reference>, revision: int, active: seq<Active>): Record {
    Record(s.release, Number(revision),
           if selected.Some? then Selected(Some(selected.value.id), Some(selected.value.version), Some(selected.value.hash)) else s.selected,
           Some(active), Items(Sort(disclosed)))
  }

  function Snapshot(s: State): Record { AsRecord(s, None, s.disclosed, s.revision, s.active) }

  /* ---------- prepare and commit ---------- */

  /** prepare_activation */
  function PrepareSkill(s: State, skill: Skill): Result<Prepared, Failure> {
    if skill.release != s.release then Err(SnapshotMismatch)
    else match FindActive(s.active, skill.id)
      case None => Ok(PreparedSkill(skill, s.revision, false))
      case Some(a) => if a == Active(skill.id, skill.version, skill.hash) then Ok(PreparedSkill(skill, s.revision, true)) else Err(SnapshotMismatch)
  }

  /** prepare_reference */
  function PrepareReference(s: State, r: Reference): Result<Prepared, Failure> {
    if r.release != s.release then Err(SnapshotMismatch)
    else if FindActive(s.active, r.skill).None? then Err(SkillNotActive)
    else if HasRef(s.disclosed, Key(r)) then Ok(PreparedReference(r, s.revision, true))
    else if Chars(s.disclosed) + |r.content| > s.budget then Err(BudgetExceeded)
    else Ok(PreparedReference(r, s.revision, false))
  }

  /** The state a commit makes visible once its record is saved. */
  function Applied(s: State, p: Prepared): State {
    match p
    case PreparedSkill(skill, _, _) =>
      s.(active := PutActive(s.active, Active(skill.id, skill.version, skill.hash)),
         selected := if s.selected.id.None? then Selected(Some(skill.id), Some(skill.version), Some(skill.hash)) else s.selected,
         revision := s.revision + 1)
    case PreparedReference(r, _, _) => s.(disclosed := PutRef(s.disclosed, r), revision := s.revision + 1)
  }

  /** The record a commit saves first. */
  function ToSave(s: State, p: Prepared): Record {
    match p
    case PreparedSkill(skill, _, _) => AsRecord(s, Some(skill), s.disclosed, s.revision + 1, PutActive(s.active, Active(skill.id, skill.version, skill.hash)))
    case PreparedReference(r, _, _) => AsRecord(s, None, PutRef(s.disclosed, r), s.revision + 1, s.active)
  }

  function OutcomeOf(s: State, p: Prepared, fails: bool): Outcome {
    if p.idempotent then Idempotent else if p.expected != s.revision then Conflict else if fails then WriteFailed else Committed
  }

  /* ---------- any interleaving of prepares and commits ---------- */

  /** The state, the prepared values callers hold, and what the store has saved. */
  datatype World = World(state: State, issued: seq<Prepared>, saved: seq<Record>)

  datatype Step = ForSkill(skill: Skill) | ForReference(reference: Reference) | Commit(index: nat, fails: bool)

  predicate Enabled(w: World, step: Step) { step.Commit? ==> step.index < |w.issued| }

  predicate Commits(w: World, step: Step)
    requires Enabled(w, step)
  {
    step.Commit? && OutcomeOf(w.state, w.issued[step.index], step.fails).Committed?
  }

  function Next(w: World, step: Step): World
    requires Enabled(w, step)
  {
    match step
    case ForSkill(skill) =>
      var p := PrepareSkill(w.state, skill);
      if p.Ok? then w.(issued := w.issued + [p.value]) else w
    case ForReference(r) =>
      var p := PrepareReference(w.state, r);
      if p.Ok? then w.(issued := w.issued + [p.value]) else w
    case Commit(index, fails) =>
      if Commits(w, step) then w.(state := Applied(w.state, w.issued[index]), saved := w.saved + [ToSave(w.state, w.issued[index])]) else w
  }

  ghost predicate IsRun(run: seq<World>, steps: seq<Step>) {
    && |run| == |steps| + 1
    && forall k :: 0 <= k < |steps| ==> Enabled(run[k], steps[k]) && run[k + 1] == Next(run[k], steps[k])
  }

  /** The checks a prepared value passed, restated for the present state. */
  predicate Ready(s: State, p: Prepared) {
    match p
    case PreparedSkill(skill, _, _) => FindActive(s.active, skill.id).None?
    case PreparedReference(r, _, _) =>
      FindActive(s.active, r.skill).Some? && !HasRef(s.disclosed, Key(r)) && Chars(s.disclosed) + |r.content| <= s.budget
  }

  /** A prepared value is either out of date or still as good as when it was prepared. */
  predicate Fair(s: State, p: Prepared) { p.expected <= s.revision && (p.expected == s.revision && !p.idempotent ==> Ready(s, p)) }

  ghost predicate StateOk(s: State) {
    && DistinctIds(s.active) && DistinctKeys(s.disclosed)
    && (s.disclosed == [] || Chars(s.disclosed) <= s.budget)
    && (forall i :: 0 <= i < |s.disclosed| ==> FindActive(s.active, s.disclosed[i].skill).Some?)
  }

  /** A record and the memory agree on everything but the selected skill. */
  predicate Agrees(r: Record, s: State) { r.(selected := s.selected) == Snapshot(s) }

  ghost predicate Inv(w: World) {
    && StateOk(w.state)
    && (forall i :: 0 <= i < |w.issued| ==> Fair(w.state, w.issued[i]))
    && (w.saved != [] ==> Agrees(w.saved[|w.saved| - 1], w.state))
  }

  /** Keys tell references apart as long as skill ids contain no colon. */
  lemma {:induction false} KeyInjective(a: Reference, b: Reference)
    requires Key(a) == Key(b) && ':' !in a.skill && ':' !in b.skill
    ensures a.skill == b.skill && a.id == b.id
  {
    var k := Key(a);
    assert k[|a.skill|] == ':' && k[|b.skill|] == ':';
    assert forall i :: 0 <= i < |a.skill| ==> k[i] == a.skill[i];
    assert forall i :: 0 <= i < |b.skill| ==> k[i] == b.skill[i];
    assert |a.skill| == |b.skill|;
    assert a.skill == k[..|a.skill|] == b.skill;
    assert a.id == k[|a.skill| + 1..] == b.id;
  }

  lemma {:induction false} FindPut(active: seq<Active>, a: Active, id: string)
    ensures FindActive(PutActive(active, a), id) == if id == a.id then Some(a) else FindActive(active, id)
  {
    if active != [] && active[0].id != a.id {
      FindPut(active[1..], a, id);
    }
  }

  lemma {:induction false} PutNewActive(active: seq<Active>, a: Active)
    requires FindActive(active, a.id).None?
    ensures PutActive(active, a) == active + [a]
    ensures forall i :: 0 <= i < |active| ==> active[i].id != a.id
  {
    if active != [] {
      PutNewActive(active[1..], a);
      assert forall i :: 1 <= i < |active| ==> active[i] == active[1..][i - 1];
    }
  }

  lemma {:induction false} PutNewRef(disclosed: seq<Reference>, r: Reference)
    requires !HasRef(disclosed, Key(r))
    ensures PutRef(disclosed, r) == disclosed + [r] && Chars(PutRef(disclosed, r)) == Chars(disclosed) + |r.content|
  {
    if disclosed != [] {
      assert Key(disclosed[0]) != Key(r);
      assert forall i :: 1 <= i < |disclosed| ==> disclosed[i] == disclosed[1..][i - 1];
      assert !HasRef(disclosed[1..], Key(r));
      PutNewRef(disclosed[1..], r);
    }
  }

  lemma AppliedOk(s: State, p: Prepared)
    requires StateOk(s) && Ready(s, p)
    ensures StateOk(Applied(s, p))
  {
    match p
    case PreparedSkill(skill, _, _) =>
      var a := Active(skill.id, skill.version, skill.hash);
      PutNewActive(s.active, a);
      forall i | 0 <= i < |s.disclosed| ensures FindActive(Applied(s, p).active, s.disclosed[i].skill).Some? {
        FindPut(s.active, a, s.disclosed[i].skill);
      }
    case PreparedReference(r, _, _) =>
      PutNewRef(s.disclosed, r);
  }

  lemma NextKeepsInv(w: World, step: Step)
    requires Inv(w) && Enabled(w, step)
    ensures Inv(Next(w, step))
  {
    if Commits(w, step) {
      var p := w.issued[step.index];
      assert Fair(w.state, p);
      AppliedOk(w.state, p);
      forall i | 0 <= i < |w.issued| ensures Fair(Applied(w.state, p), w.issued[i]) {
        assert Fair(w.state, w.issued[i]);
      }
    }
  }

  lemma {:induction false} RunKeepsInv(run: seq<World>, steps: seq<Step>, k: nat)
    requires IsRun(run, steps) && Inv(run[0]) && k < |run|
    ensures Inv(run[k])
  {
    if k > 0 {
      RunKeepsInv(run, steps, k - 1);
      NextKeepsInv(run[k - 1], steps[k - 1]);
    }
  }

  /** How many of the first k steps are commits that neither repeat, conflict nor fail to save. */
  ghost function CommitCount(run: seq<World>, steps: seq<Step>, k: nat): nat
    requires IsRun(run, steps) && k < |run|
  {
    if k == 0 then 0 else CommitCount(run, steps, k - 1) + if Commits(run[k - 1], steps[k - 1]) then 1 else 0
  }

  /** The revision counts exactly those, and the store has saved one record for each. */
  lemma {:induction false} RevisionCountsCommits(run: seq<World>, steps: seq<Step>, k: nat)
    requires IsRun(run, steps) && k < |run|
    ensures run[k].state.revision == run[0].state.revision + CommitCount(run, steps, k)
    ensures |run[k].saved| == |run[0].saved| + CommitCount(run, steps, k)
  {
    if k > 0 {
      RevisionCountsCommits(run, steps, k - 1);
    }
  }

  /** However prepares and commits interleave, what has been disclosed never exceeds the budget. */
  lemma DisclosureWithinBudget(run: seq<World>, steps: seq<Step>, k: nat)
    requires IsRun(run, steps) && Inv(run[0]) && k < |run|
    ensures run[k].state.disclosed == [] || Chars(run[k].state.disclosed) <= run[k].state.budget
    ensures run[k].state.budget == run[0].state.budget
  {
    RunKeepsInv(run, steps, k);
    BudgetFixed(run, steps, k);
  }

  lemma {:induction false} BudgetFixed(run: seq<World>, steps: seq<Step>, k: nat)
    requires IsRun(run, steps) && k < |run|
    ensures run[k].state.budget == run[0].state.budget && run[k].state.release == run[0].state.release
  {
    if k > 0 {
      BudgetFixed(run, steps, k - 1);
    }
  }

  lemma IdentityStep(w: World, step: Step, id: string)
    requires Inv(w) && Enabled(w, step) && FindActive(w.state.active, id).Some?
    ensures FindActive(Next(w, step).state.active, id) == FindActive(w.state.active, id)
  {
    if Commits(w, step) && w.issued[step.index].PreparedSkill? {
      var skill := w.issued[step.index].skill;
      assert Fair(w.state, w.issued[step.index]);
      FindPut(w.state.active, Active(skill.id, skill.version, skill.hash), id);
    }
  }

  /** An active skill keeps its version and its instructions. */
  lemma {:induction false} IdentityStays(run: seq<World>, steps: seq<Step>, j: nat, k: nat, id: string)
    requires IsRun(run, steps) && Inv(run[0]) && j <= k < |run| && FindActive(run[j].state.active, id).Some?
    ensures FindActive(run[k].state.active, id) == FindActive(run[j].state.active, id)
  {
    if j < k {
      IdentityStays(run, steps, j, k - 1, id);
      RunKeepsInv(run, steps, k - 1);
      IdentityStep(run[k - 1], steps[k - 1], id);
    }
  }

  /** Whatever was prepared before another commit is refused: two callers that saw the same revision cannot both change the state. */
  lemma SecondCommitConflicts(run: seq<World>, steps: seq<Step>, j: nat, k: nat, index: nat)
    requires IsRun(run, steps) && Inv(run[0]) && j < k < |steps| && Commits(run[j], steps[j])
    requires index < |run[j].issued| <= |run[k].issued| && run[k].issued[index] == run[j].issued[index] && !run[j].issued[index].idempotent
    ensures OutcomeOf(run[k].state, run[k].issued[index], false) == Conflict
  {
    RunKeepsInv(run, steps, j);
    RevisionRises(run, steps, j, k);
    assert Fair(run[j].state, run[j].issued[index]);
  }

  lemma {:induction false} RevisionRises(run: seq<World>, steps: seq<Step>, j: nat, k: nat)
    requires IsRun(run, steps) && j < k < |run| && Commits(run[j], steps[j])
    ensures run[k].state.revision > run[j].state.revision
  {
    if k > j + 1 {
      RevisionRises(run, steps, j, k - 1);
    }
  }

  /** What was saved last is what a snapshot would say now, but for the selected skill. */
  lemma SavedAgrees(run: seq<World>, steps: seq<Step>, k: nat)
    requires IsRun(run, steps) && run[0].saved == [] && Inv(run[0]) && k < |run| && CommitCount(run, steps, k) > 0
    ensures run[k].saved != [] && Agrees(run[k].saved[|run[k].saved| - 1], run[k].state)
  {
    RevisionCountsCommits(run, steps, k);
    RunKeepsInv(run, steps, k);
  }

  /** The saved record names the skill in memory exactly when a reference was disclosed, nothing was selected yet, or the same skill was. */
  lemma SavedSelectionIff(s: State, p: Prepared)
    ensures ToSave(s, p).selected == Applied(s, p).selected <==>
      p.PreparedReference? || s.selected.id.None? || s.selected == Selected(Some(p.skill.id), Some(p.skill.version), Some(p.skill.hash))
  {
  }

  /** Activating a second skill: the saved record names it, memory keeps the first. */
  lemma SecondActivationDiffers(s0: State, first: Skill, second: Skill)
    requires s0 == Initial("r1", 100) && first == Skill("alpha", "1", "", "h", "r1") && second == Skill("beta", "1", "", "h", "r1")
    ensures PrepareSkill(s0, first).Ok? && PrepareSkill(Applied(s0, PrepareSkill(s0, first).value), second).Ok?
    ensures var s1 := Applied(s0, PrepareSkill(s0, first).value);
      var p := PrepareSkill(s1, second).value;
      ToSave(s1, p).selected.id == Some("beta") && Applied(s1, p).selected.id == Some("alpha")
  {
    var s1 := Applied(s0, PrepareSkill(s0, first).value);
    assert s1.active == [Active("alpha", "1", "h")];
    assert "alpha"[0] != "beta"[0];
    assert FindActive(s1.active, "beta") == FindActive(s1.active[1..], "beta");
  }
}
