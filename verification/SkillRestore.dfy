/** The skill runtime around its state: loading, reading, checkpointing and restoring. */
module SkillRestore {
  import opened Prelude
  import opened SkillState

  /** The published package: what a skill id and a reference id load to. */
  datatype Loader = Loader(load: string -> Option<Skill>, read: (string, string) -> Option<Reference>)

  /** Loading answers with the identity it was asked for, and published skill ids contain no colon. */
  ghost predicate Honest(loader: Loader) {
    && (forall skill, id :: loader.read(skill, id).Some? ==> ':' !in skill)
    && (forall id :: loader.load(id).Some? ==> loader.load(id).value.id == id)
    && (forall skill, id :: loader.read(skill, id).Some? ==> loader.read(skill, id).value.skill == skill && loader.read(skill, id).value.id == id)
  }

  /** The state together with the loaded contents the tools keep beside it. */
  datatype Runtime = Runtime(state: State, loaded: seq<Skill>, references: seq<Reference>)

  function ActiveOf(skills: seq<Skill>): seq<Active> {
    seq(|skills|, i requires 0 <= i < |skills| => Active(skills[i].id, skills[i].version, skills[i].hash))
  }

  function PutSkill(skills: seq<Skill>, s: Skill): seq<Skill> {
    if skills == [] then [s] else if skills[0].id == s.id then [s] + skills[1..] else [skills[0]] + PutSkill(skills[1..], s)
  }

  function CollectSkills(loader: Loader, active: seq<Active>): Result<seq<Skill>, Failure> {
    if active == [] then Ok([])
    else
      var n := |active| - 1;
      match CollectSkills(loader, active[..n])
      case Err(f) => Err(f)
      case Ok(before) =>
        match loader.load(active[n].id)
        case None => Err(NotLoadable)
        case Some(skill) =>
          if skill.version != active[n].version || skill.hash != active[n].hash then Err(SnapshotMismatch) else Ok(PutSkill(before, skill))
  }

  function CollectReferences(loader: Loader, items: seq<Item>): Result<seq<Reference>, Failure> {
    if items == [] then Ok([])
    else
      var n := |items| - 1;
      match CollectReferences(loader, items[..n])
      case Err(f) => Err(f)
      case Ok(before) =>
        match loader.read(items[n].skill, items[n].id)
        case None => Err(NotLoadable)
        case Some(r) => if r.hash != items[n].hash then Err(SnapshotMismatch) else Ok(PutRef(before, r))
  }

  /** Everything restore checks before it touches the runtime. */
  function Checked(loader: Loader, rt: Runtime, rec: Record): Result<(seq<Skill>, seq<Reference>), Failure> {
    if rec.release != rt.state.release || rec.active.None? then Err(SnapshotMismatch)
    else match CollectSkills(loader, rec.active.value)
      case Err(f) => Err(f)
      case Ok(skills) =>
        match CollectReferences(loader, rec.references)
        case Err(f) => Err(f)
        case Ok(references) => Ok((skills, references))
  }

  function Replaced(rt: Runtime, skills: seq<Skill>, references: seq<Reference>): Runtime {
    Runtime(rt.state.(active := ActiveOf(skills), disclosed := references), skills, references)
  }

  /** restore: contents are replaced before the revision is converted, so a malformed revision fails half-way. */
  function Restored(loader: Loader, rt: Runtime, rec: Record): (Runtime, Result<int, Failure>) {
    match Checked(loader, rt, rec)
    case Err(f) => (rt, Err(f))
    case Ok((skills, references)) =>
      match rec.revision
      case NotANumber => (Replaced(rt, skills, references), Err(MalformedRevision))
      case Number(n) =>
        var half := Replaced(rt, skills, references);
        (half.(state := half.state.(revision := n, selected := rec.selected)), Ok(n))
  }

  /* ---------- when a failed restore changes nothing ---------- */

  /** Some runtime of the record's release accepts the record: everything it names loads, with the digests it states. */
  predicate Loadable(loader: Loader, rec: Record) {
    rec.active.Some? && CollectSkills(loader, rec.active.value).Ok? && CollectReferences(loader, rec.references).Ok?
  }

  /** A failed restore leaves the runtime it was called on as it was. */
  ghost predicate FailsCleanly(loader: Loader, rt: Runtime, rec: Record) {
    Restored(loader, rt, rec).1.Err? ==> Restored(loader, rt, rec).0 == rt
  }

  /**
    A record whose revision is a number is restored completely or not at all, in
    every runtime. Any other record is never restored; that changes nothing in any
    runtime exactly when something it names does not load.
  */
  lemma FailedRestoreIff(loader: Loader, rec: Record)
    ensures (forall rt :: FailsCleanly(loader, rt, rec)) <==> rec.revision.Number? || !Loadable(loader, rec)
    ensures rec.revision.NotANumber? ==> forall rt :: Restored(loader, rt, rec).1.Err?
  {
    if rec.revision.NotANumber? && Loadable(loader, rec) {
      var skills := CollectSkills(loader, rec.active.value).value;
      var rt := Runtime(Initial(rec.release, 0), skills + [Skill("", "", "", "", "")], []);
      assert Restored(loader, rt, rec).0.loaded == skills;
      assert !FailsCleanly(loader, rt, rec);
    }
  }

  /** In one runtime: such a record also does no harm where its release is another one, or its content was there already. */
  lemma MalformedRestoreIff(loader: Loader, rt: Runtime, rec: Record)
    requires rec.revision.NotANumber?
    ensures FailsCleanly(loader, rt, rec) <==>
      || rec.release != rt.state.release || !Loadable(loader, rec)
      || (CollectSkills(loader, rec.active.value).value == rt.loaded && rt.state.active == ActiveOf(rt.loaded)
          && CollectReferences(loader, rec.references).value == rt.references == rt.state.disclosed)
  {
    if rec.release == rt.state.release && Loadable(loader, rec) {
      assert Checked(loader, rt, rec) == Ok((CollectSkills(loader, rec.active.value).value, CollectReferences(loader, rec.references).value));
    }
  }

  /** The corrupt checkpoint that empties a runtime: right release, no skills, and a revision that is no number. */
  lemma FailedRestoreChanges(loader: Loader, rt: Runtime)
    requires rt.loaded != []
    ensures var rec := Record(rt.state.release, NotANumber, NOTHING, Some([]), []);
      && Restored(loader, rt, rec).1 == Err(MalformedRevision)
      && Restored(loader, rt, rec).0.loaded == [] && Restored(loader, rt, rec).0 != rt
  {
  }

  /* ---------- restoring one's own snapshot ---------- */

  /** What the tools keep is what the state says, and what loading would give again. */
  ghost predicate Tied(loader: Loader, rt: Runtime) {
    && StateOk(rt.state)
    && rt.state.active == ActiveOf(rt.loaded)
    && rt.references == rt.state.disclosed
    && (forall i :: 0 <= i < |rt.loaded| ==> loader.load(rt.loaded[i].id) == Some(rt.loaded[i]))
    && (forall i :: 0 <= i < |rt.references| ==> loader.read(rt.references[i].skill, rt.references[i].id) == Some(rt.references[i]))
  }

  lemma {:induction false} InsertMembers(r: Reference, sorted: seq<Reference>)
    ensures multiset(Insert(r, sorted)) == multiset(sorted) + multiset{r}
  {
    if sorted == [] || Leq(r.id, sorted[0].id) {
    } else {
      InsertMembers(r, sorted[1..]);
      assert sorted == [sorted[0]] + sorted[1..];
    }
  }

  /** A record lists the same references, each as often. */
  lemma {:induction false} SortMembers(refs: seq<Reference>)
    ensures multiset(Sort(refs)) == multiset(refs)
  {
    if refs != [] {
      SortMembers(refs[1..]);
      InsertMembers(refs[0], Sort(refs[1..]));
      assert refs == [refs[0]] + refs[1..];
    }
  }

  lemma {:induction false} LeqTotal(a: string, b: string)
    ensures Leq(a, b) || Leq(b, a)
  {
    if a != "" && b != "" && a[0] == b[0] {
      LeqTotal(a[1..], b[1..]);
    }
  }

  ghost predicate Ordered(refs: seq<Reference>) { forall i :: 0 < i < |refs| ==> Leq(refs[i - 1].id, refs[i].id) }

  lemma {:induction false} InsertOrdered(r: Reference, sorted: seq<Reference>)
    requires Ordered(sorted)
    ensures Ordered(Insert(r, sorted)) && Insert(r, sorted) != []
    ensures sorted != [] ==> Insert(r, sorted)[0] == (if Leq(r.id, sorted[0].id) then r else sorted[0])
  {
    if sorted != [] && !Leq(r.id, sorted[0].id) {
      LeqTotal(r.id, sorted[0].id);
      assert forall i :: 0 < i < |sorted[1..]| ==> sorted[1..][i - 1] == sorted[i] && sorted[1..][i] == sorted[i + 1];
      InsertOrdered(r, sorted[1..]);
      var rest := Insert(r, sorted[1..]);
      assert |sorted| == 1 ==> rest == [r] + [];
      assert Leq(sorted[0].id, rest[0].id);
      forall i | 0 < i < |rest| + 1 ensures Leq(([sorted[0]] + rest)[i - 1].id, ([sorted[0]] + rest)[i].id) {
      }
    }
  }

  lemma {:induction false} SortOrders(refs: seq<Reference>)
    ensures Ordered(Sort(refs))
  {
    if refs != [] {
      SortOrders(refs[1..]);
      InsertOrdered(refs[0], Sort(refs[1..]));
    }
  }

  lemma {:induction false} SortOrdered(refs: seq<Reference>)
    requires Ordered(refs)
    ensures Sort(refs) == refs
  {
    if refs != [] {
      assert forall i :: 0 <= i < |refs| - 1 ==> refs[1..][i] == refs[i + 1];
      SortOrdered(refs[1..]);
    }
  }

  /** Distinctness is a matter of the multiset. */
  lemma {:induction false} DistinctByMembers(a: seq<Reference>, b: seq<Reference>)
    requires DistinctKeys(a) && multiset(a) == multiset(b)
    ensures DistinctKeys(b)
    ensures forall r :: r in b <==> r in a
  {
    assert forall r :: r in b <==> r in multiset(b);
    assert forall r :: r in a <==> r in multiset(a);
    forall i, j | 0 <= i < j < |b| ensures Key(b[i]) != Key(b[j]) {
      if b[i] == b[j] {
        TwiceInMultiset(b, i, j);
        OnceInMultiset(a, b[i]);
      } else {
        assert b[i] in a && b[j] in a;
        var m :| 0 <= m < |a| && a[m] == b[i];
        var n :| 0 <= n < |a| && a[n] == b[j];
      }
    }
  }

  lemma TwiceInMultiset<T>(s: seq<T>, i: nat, j: nat)
    requires i < j < |s| && s[i] == s[j]
    ensures multiset(s)[s[i]] >= 2
  {
    assert s == s[..i] + [s[i]] + s[i + 1..j] + [s[j]] + s[j + 1..];
  }

  lemma {:induction false} OnceInMultiset(a: seq<Reference>, r: Reference)
    requires DistinctKeys(a)
    ensures multiset(a)[r] <= 1
  {
    if a != [] {
      OnceInMultiset(a[1..], r);
      assert a == [a[0]] + a[1..];
      if a[0] == r {
        assert r !in a[1..];
        assert r !in multiset(a[1..]);
      }
    }
  }

  lemma {:induction false} PutNewSkill(skills: seq<Skill>, s: Skill)
    requires forall i :: 0 <= i < |skills| ==> skills[i].id != s.id
    ensures PutSkill(skills, s) == skills + [s]
  {
    if skills != [] {
      PutNewSkill(skills[1..], s);
    }
  }

  lemma {:induction false} CollectOwnSkills(loader: Loader, skills: seq<Skill>)
    requires forall i :: 0 <= i < |skills| ==> loader.load(skills[i].id) == Some(skills[i])
    requires forall i, j :: 0 <= i < j < |skills| ==> skills[i].id != skills[j].id
    ensures CollectSkills(loader, ActiveOf(skills)) == Ok(skills)
  {
    if skills != [] {
      var n := |skills| - 1;
      assert ActiveOf(skills)[..n] == ActiveOf(skills[..n]);
      CollectOwnSkills(loader, skills[..n]);
      PutNewSkill(skills[..n], skills[n]);
      assert skills == skills[..n] + [skills[n]];
    }
  }

  lemma {:induction false} CollectOwnReferences(loader: Loader, refs: seq<Reference>)
    requires forall i :: 0 <= i < |refs| ==> loader.read(refs[i].skill, refs[i].id) == Some(refs[i])
    requires DistinctKeys(refs)
    ensures CollectReferences(loader, Items(refs)) == Ok(refs)
  {
    if refs != [] {
      var n := |refs| - 1;
      var before := refs[..n];
      assert Items(refs)[..n] == Items(before);
      CollectOwnReferences(loader, before);
      assert !HasRef(before, Key(refs[n]));
      PutNewRef(before, refs[n]);
      assert refs == refs[..n] + [refs[n]];
    }
  }

  /**
    Restoring a runtime's own snapshot into any runtime of the same release
    rebuilds it: same revision, selection, skills and references, the references
    now in the record's order, so that snapshotting again gives the same record.
  */
  lemma RestoreOwnSnapshot(loader: Loader, rt: Runtime, into: Runtime)
    requires Tied(loader, rt) && into.state.release == rt.state.release && into.state.budget == rt.state.budget
    ensures Restored(loader, into, Snapshot(rt.state)).1 == Ok(rt.state.revision)
    ensures var rt' := Restored(loader, into, Snapshot(rt.state)).0;
      && rt'.state == rt.state.(disclosed := Sort(rt.state.disclosed))
      && multiset(rt'.state.disclosed) == multiset(rt.state.disclosed)
      && rt'.loaded == rt.loaded && rt'.references == rt'.state.disclosed
      && Snapshot(rt'.state) == Snapshot(rt.state)
  {
    var sorted := Sort(rt.state.disclosed);
    SortMembers(rt.state.disclosed);
    SortOrders(rt.state.disclosed);
    SortOrdered(sorted);
    DistinctByMembers(rt.state.disclosed, sorted);
    forall i, j | 0 <= i < j < |rt.loaded| ensures rt.loaded[i].id != rt.loaded[j].id {
      assert rt.state.active[i].id != rt.state.active[j].id;
    }
    CollectOwnSkills(loader, rt.loaded);
    forall i | 0 <= i < |sorted| ensures loader.read(sorted[i].skill, sorted[i].id) == Some(sorted[i]) {
      assert sorted[i] in rt.references;
    }
    CollectOwnReferences(loader, sorted);
  }
}
