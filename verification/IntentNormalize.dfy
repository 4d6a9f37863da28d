/**
  Removal of the configuration alias that an explicit read-only flag already
  covers, and what merge and normalisation together keep.
*/
module IntentNormalize {
  import opened IntentModel
  import opened IntentMerge

  predicate Alias(lex: Lexicon, c: Constraint) {
    c.kind.OtherLimit? && c.value.Words? && lex.configAlias(c.value.text)
  }

  function Kept(lex: Lexicon, cs: seq<Constraint>): seq<Constraint> {
    if cs == [] then []
    else
      var last := cs[|cs| - 1];
      Kept(lex, cs[..|cs| - 1]) + if Alias(lex, last) then [] else [last]
  }

  predicate Survives(lex: Lexicon, cs: seq<Constraint>, i: nat) { i < |cs| && !Alias(lex, cs[i]) }

  function NewIndex(lex: Lexicon, cs: seq<Constraint>, i: nat): nat
    requires i <= |cs|
  {
    |Kept(lex, cs[..i])|
  }

  /** A surviving constraint whose source is the server's context would change its address. */
  predicate Moves(lex: Lexicon, cs: seq<Constraint>, s: Source) {
    && s.origin.FromContext? && s.path.ConstraintAt?
    && Survives(lex, cs, s.path.index) && NewIndex(lex, cs, s.path.index) != s.path.index
  }

  predicate Redundant(c: Candidate) { HasKind(c.constraints, ReadOnly) && HasKind(c.constraints, OtherLimit) }

  predicate Blocked(lex: Lexicon, c: Candidate) {
    exists i | 0 <= i < |c.provenance| :: Moves(lex, c.constraints, c.provenance[i])
  }

  function Readdressed(lex: Lexicon, cs: seq<Constraint>, provenance: seq<Source>): seq<Source> {
    if provenance == [] then []
    else
      var last := provenance[|provenance| - 1];
      Readdressed(lex, cs, provenance[..|provenance| - 1]) +
      if !last.path.ConstraintAt? then [last]
      else if Survives(lex, cs, last.path.index) then [Source(ConstraintAt(NewIndex(lex, cs, last.path.index)), last.origin)]
      else []
  }

  function Normalized(lex: Lexicon, c: Candidate): Candidate {
    if !Redundant(c) || Blocked(lex, c) then c
    else c.(constraints := Kept(lex, c.constraints), provenance := Readdressed(lex, c.constraints, c.provenance))
  }

  /* ---------- the loops ---------- */

  /** The address map after the first i constraints. */
  ghost predicate IsRemap(lex: Lexicon, cs: seq<Constraint>, i: nat, remap: map<nat, nat>)
    requires i <= |cs|
  {
    && (forall k: nat :: k in remap <==> k < i && Survives(lex, cs, k))
    && (forall k: nat :: k in remap && k <= |cs| ==> remap[k] == NewIndex(lex, cs, k))
  }

  /** The first loop: which constraints stay, and where. */
  method KeepOthers(lex: Lexicon, cs: seq<Constraint>) returns (kept: seq<Constraint>, remap: map<nat, nat>)
    ensures kept == Kept(lex, cs) && IsRemap(lex, cs, |cs|, remap)
  {
    remap, kept := map[], [];
    var i := 0;
    while i < |cs|
      invariant 0 <= i <= |cs|
      invariant kept == Kept(lex, cs[..i])
      invariant IsRemap(lex, cs, i, remap)
    {
      KeptAppend(lex, cs, i);
      if !Alias(lex, cs[i]) {
        remap := remap[i := |kept|];
        kept := kept + [cs[i]];
      }
      i := i + 1;
    }
    assert cs[..i] == cs;
  }

  /** The guard: would a surviving context reference move? */
  method WouldMove(lex: Lexicon, cs: seq<Constraint>, provenance: seq<Source>, remap: map<nat, nat>) returns (blocked: bool)
    requires IsRemap(lex, cs, |cs|, remap)
    ensures blocked <==> exists i :: 0 <= i < |provenance| && Moves(lex, cs, provenance[i])
  {
    var i := 0;
    while i < |provenance|
      invariant 0 <= i <= |provenance|
      invariant forall k :: 0 <= k < i ==> !Moves(lex, cs, provenance[k])
    {
      var s := provenance[i];
      if s.origin.FromContext? && s.path.ConstraintAt? && s.path.index in remap && remap[s.path.index] != s.path.index {
        return true;
      }
      i := i + 1;
    }
    return false;
  }

  /** The second loop: sources follow their constraints. */
  method FollowSources(lex: Lexicon, cs: seq<Constraint>, provenance: seq<Source>, remap: map<nat, nat>) returns (sources: seq<Source>)
    requires IsRemap(lex, cs, |cs|, remap)
    ensures sources == Readdressed(lex, cs, provenance)
  {
    sources := [];
    var i := 0;
    while i < |provenance|
      invariant 0 <= i <= |provenance|
      invariant sources == Readdressed(lex, cs, provenance[..i])
    {
      var s := provenance[i];
      assert provenance[..i + 1][..i] == provenance[..i];
      if !s.path.ConstraintAt? {
        sources := sources + [s];
      } else if s.path.index in remap {
        sources := sources + [Source(ConstraintAt(remap[s.path.index]), s.origin)];
      } else {
        assert sources + [] == sources;
      }
      i := i + 1;
    }
    assert provenance[..i] == provenance;
  }

  /** _normalize_constraints */
  method NormalizeConstraints(lex: Lexicon, c: Candidate) returns (n: Candidate)
    ensures n == Normalized(lex, c)
  {
    if !HasKind(c.constraints, ReadOnly) || !HasKind(c.constraints, OtherLimit) {
      return c;
    }
    var kept, remap := KeepOthers(lex, c.constraints);
    var blocked := WouldMove(lex, c.constraints, c.provenance, remap);
    if blocked {
      return c;
    }
    var sources := FollowSources(lex, c.constraints, c.provenance, remap);
    n := c.(constraints := kept, provenance := sources);
  }

  /* ---------- addresses ---------- */

  lemma {:induction false} KeptAppend(lex: Lexicon, cs: seq<Constraint>, i: nat)
    requires i < |cs|
    ensures Kept(lex, cs[..i + 1]) == Kept(lex, cs[..i]) + if Alias(lex, cs[i]) then [] else [cs[i]]
  {
    assert cs[..i + 1][..i] == cs[..i];
  }

  lemma {:induction false} KeptPrefix(lex: Lexicon, cs: seq<Constraint>, i: nat, j: nat)
    requires i <= j <= |cs|
    ensures Kept(lex, cs[..i]) <= Kept(lex, cs[..j])
    decreases j
  {
    if i < j {
      KeptPrefix(lex, cs, i, j - 1);
      KeptAppend(lex, cs, j - 1);
    }
  }

  /** A surviving constraint stands at its new address. */
  lemma AtNewIndex(lex: Lexicon, cs: seq<Constraint>, i: nat)
    requires Survives(lex, cs, i)
    ensures NewIndex(lex, cs, i) < |Kept(lex, cs)| && Kept(lex, cs)[NewIndex(lex, cs, i)] == cs[i]
  {
    KeptAppend(lex, cs, i);
    KeptPrefix(lex, cs, i + 1, |cs|);
    assert cs[..|cs|] == cs;
  }

  lemma NewIndexOrder(lex: Lexicon, cs: seq<Constraint>, i: nat, j: nat)
    requires i < j && Survives(lex, cs, i) && Survives(lex, cs, j)
    ensures NewIndex(lex, cs, i) < NewIndex(lex, cs, j)
  {
    KeptAppend(lex, cs, i);
    KeptPrefix(lex, cs, i + 1, j);
  }

  /** The old address behind a new one. */
  lemma {:induction false} OldIndex(lex: Lexicon, cs: seq<Constraint>, k: nat, n: nat) returns (i: nat)
    requires n <= |cs| && k < |Kept(lex, cs[..n])|
    ensures Survives(lex, cs, i) && NewIndex(lex, cs, i) == k
    decreases n
  {
    KeptAppend(lex, cs, n - 1);
    if k < |Kept(lex, cs[..n - 1])| {
      i := OldIndex(lex, cs, k, n - 1);
    } else {
      i := n - 1;
    }
  }

  /* ---------- sources after normalisation ---------- */

  lemma {:induction false} ReaddressedFrom(lex: Lexicon, cs: seq<Constraint>, provenance: seq<Source>, k: nat) returns (i: nat)
    requires k < |Readdressed(lex, cs, provenance)|
    ensures i < |provenance|
    ensures var s, s' := provenance[i], Readdressed(lex, cs, provenance)[k];
      && s'.origin == s.origin
      && if s.path.ConstraintAt? then Survives(lex, cs, s.path.index) && s'.path == ConstraintAt(NewIndex(lex, cs, s.path.index))
         else s'.path == s.path
  {
    var n := |provenance| - 1;
    if k < |Readdressed(lex, cs, provenance[..n])| {
      i := ReaddressedFrom(lex, cs, provenance[..n], k);
    } else {
      i := n;
    }
  }

  /** Where the source of a surviving field goes. */
  function NewPath(lex: Lexicon, cs: seq<Constraint>, p: Path): Path
    requires p.ConstraintAt? ==> p.index <= |cs|
  {
    if p.ConstraintAt? then ConstraintAt(NewIndex(lex, cs, p.index)) else p
  }

  lemma {:induction false} ReaddressedTo(lex: Lexicon, cs: seq<Constraint>, provenance: seq<Source>, i: nat)
    requires i < |provenance|
    requires provenance[i].path.ConstraintAt? ==> Survives(lex, cs, provenance[i].path.index)
    ensures Source(NewPath(lex, cs, provenance[i].path), provenance[i].origin) in Readdressed(lex, cs, provenance)
    ensures HasSource(Readdressed(lex, cs, provenance), NewPath(lex, cs, provenance[i].path))
  {
    var n := |provenance| - 1;
    var before, after := Readdressed(lex, cs, provenance[..n]), Readdressed(lex, cs, provenance);
    if i < n {
      ReaddressedTo(lex, cs, provenance[..n], i);
      assert before <= after;
    } else {
      assert after[|before|] == after[|after| - 1];
    }
  }

  lemma {:induction false} ReaddressedUnique(lex: Lexicon, cs: seq<Constraint>, provenance: seq<Source>)
    requires UniquePaths(provenance)
    ensures UniquePaths(Readdressed(lex, cs, provenance))
  {
    if provenance != [] {
      var n := |provenance| - 1;
      ReaddressedUnique(lex, cs, provenance[..n]);
      var before, last := Readdressed(lex, cs, provenance[..n]), provenance[n];
      forall k | 0 <= k < |before| && (last.path.ConstraintAt? ==> Survives(lex, cs, last.path.index))
        ensures before[k].path != if last.path.ConstraintAt? then ConstraintAt(NewIndex(lex, cs, last.path.index)) else last.path
      {
        var i := ReaddressedFrom(lex, cs, provenance[..n], k);
        assert provenance[..n][i] == provenance[i];
        DistinctAddresses(lex, cs, provenance[i].path, last.path);
      }
    }
  }

  lemma DistinctAddresses(lex: Lexicon, cs: seq<Constraint>, p: Path, q: Path)
    requires p != q
    requires p.ConstraintAt? ==> Survives(lex, cs, p.index)
    requires q.ConstraintAt? ==> Survives(lex, cs, q.index)
    ensures (if p.ConstraintAt? then ConstraintAt(NewIndex(lex, cs, p.index)) else p)
         != (if q.ConstraintAt? then ConstraintAt(NewIndex(lex, cs, q.index)) else q)
  {
    if p.ConstraintAt? && q.ConstraintAt? {
      if p.index < q.index {
        NewIndexOrder(lex, cs, p.index, q.index);
      } else {
        NewIndexOrder(lex, cs, q.index, p.index);
      }
    }
  }

  lemma NormalizedSource(lex: Lexicon, c: Candidate, ctx: Context, k: nat)
    requires Traced(c, ctx) && Redundant(c) && !Blocked(lex, c)
    requires k < |Normalized(lex, c).provenance|
    ensures var n := Normalized(lex, c);
      FieldAt(n, n.provenance[k].path).Some? && Holds(ctx, n.provenance[k].origin, n.provenance[k].path, FieldAt(n, n.provenance[k].path).value)
  {
    var n, cs := Normalized(lex, c), c.constraints;
    var i := ReaddressedFrom(lex, cs, c.provenance, k);
    var s := c.provenance[i];
    assert HasSource(c.provenance, s.path);
    if s.path.ConstraintAt? {
      AtNewIndex(lex, cs, s.path.index);
      assert !Moves(lex, cs, s);
    } else if s.path.ControlTarget? {
      assert HasSource(n.provenance, ControlTarget) by { assert n.provenance[k].path == ControlTarget; }
    }
  }

  lemma NormalizedField(lex: Lexicon, c: Candidate, ctx: Context, p: Path)
    requires Traced(c, ctx) && Redundant(c) && !Blocked(lex, c) && FieldAt(Normalized(lex, c), p).Some?
    ensures HasSource(Normalized(lex, c).provenance, p)
  {
    var n, cs := Normalized(lex, c), c.constraints;
    if p.ConstraintAt? {
      assert cs[..|cs|] == cs;
      var i := OldIndex(lex, cs, p.index, |cs|);
      assert FieldAt(c, ConstraintAt(i)).Some?;
      var k :| 0 <= k < |c.provenance| && c.provenance[k].path == ConstraintAt(i);
      ReaddressedTo(lex, cs, c.provenance, k);
      assert p == ConstraintAt(NewIndex(lex, cs, i));
    } else if !HasSource(n.provenance, p) {
      assert FieldAt(c, p).Some?;
      var k :| 0 <= k < |c.provenance| && c.provenance[k].path == p;
      ReaddressedTo(lex, cs, c.provenance, k);
    }
  }

  /** Whatever it removes, normalisation leaves the provenance a verified bijection onto the fields. */
  lemma NormalizeKeepsTraced(lex: Lexicon, c: Candidate, ctx: Context)
    requires Traced(c, ctx)
    ensures Traced(Normalized(lex, c), ctx)
  {
    if Redundant(c) && !Blocked(lex, c) {
      var n := Normalized(lex, c);
      ReaddressedUnique(lex, c.constraints, c.provenance);
      forall k | 0 <= k < |n.provenance|
        ensures FieldAt(n, n.provenance[k].path).Some?
        ensures Holds(ctx, n.provenance[k].origin, n.provenance[k].path, FieldAt(n, n.provenance[k].path).value)
      {
        NormalizedSource(lex, c, ctx, k);
      }
      forall p ensures FieldAt(n, p).Some? <==> HasSource(n.provenance, p) {
        if FieldAt(n, p).Some? {
          NormalizedField(lex, c, ctx, p);
        }
      }
    }
  }

  /* ---------- what normalisation keeps of the constraints ---------- */

  lemma {:induction false} KeptMembers(lex: Lexicon, cs: seq<Constraint>)
    ensures forall x :: x in Kept(lex, cs) <==> x in cs && !Alias(lex, x)
  {
    if cs != [] {
      var n := |cs| - 1;
      KeptMembers(lex, cs[..n]);
      assert cs == cs[..n] + [cs[n]];
    }
  }

  lemma KeptUnique(lex: Lexicon, cs: seq<Constraint>)
    requires UniqueKinds(cs)
    ensures UniqueKinds(Kept(lex, cs))
  {
    var kept := Kept(lex, cs);
    assert cs[..|cs|] == cs;
    forall i, j | 0 <= i < j < |kept| && !kept[i].kind.OtherLimit? ensures kept[i].kind != kept[j].kind {
      var a := OldIndex(lex, cs, i, |cs|);
      var b := OldIndex(lex, cs, j, |cs|);
      AtNewIndex(lex, cs, a);
      AtNewIndex(lex, cs, b);
      if b < a {
        NewIndexOrder(lex, cs, b, a);
      }
    }
  }

  lemma HasKindMember(cs: seq<Constraint>, kind: Kind)
    ensures HasKind(cs, kind) <==> exists x :: x in cs && x.kind == kind
  {
    if x :| x in cs && x.kind == kind {
      var i :| 0 <= i < |cs| && cs[i] == x;
    }
  }

  /**
    Normalisation drops nothing but aliases: kinds other than `other` are
    untouched, the candidate stays valid, and the read-only flag that justifies
    a removal is itself never removed.
  */
  lemma NormalizeKeepsKinds(lex: Lexicon, c: Candidate)
    requires ValidCandidate(c)
    ensures ValidCandidate(Normalized(lex, c))
    ensures forall kind: Kind :: !kind.OtherLimit? ==> (HasKind(Normalized(lex, c).constraints, kind) <==> HasKind(c.constraints, kind))
    ensures forall x :: x in c.constraints && x !in Normalized(lex, c).constraints ==> Alias(lex, x) && HasKind(Normalized(lex, c).constraints, ReadOnly)
  {
    var n := Normalized(lex, c);
    if n != c {
      KeptMembers(lex, c.constraints);
      KeptUnique(lex, c.constraints);
      forall i | 0 <= i < |n.constraints| ensures ValidConstraint(n.constraints[i]) {
        assert n.constraints[i] in c.constraints;
      }
      forall k | 0 <= k < |n.provenance| ensures ValidOrigin(n.provenance[k].origin) {
        var i := ReaddressedFrom(lex, c.constraints, c.provenance, k);
      }
      forall kind: Kind | !kind.OtherLimit? ensures HasKind(n.constraints, kind) <==> HasKind(c.constraints, kind) {
        HasKindMember(n.constraints, kind);
        HasKindMember(c.constraints, kind);
        assert forall x :: x in c.constraints && x.kind == kind ==> x in n.constraints;
      }
    }
  }
}
