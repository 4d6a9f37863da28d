/**
  The intent service over its ledger: replay, revision checks, the merge with the
  stored revision, normalisation, resolution and commit; and what every chain of
  revisions keeps.
*/
module IntentService {
  import opened Prelude
  import opened IntentModel
  import opened IntentMerge
  import opened IntentRevise
  import opened IntentNormalize
  import opened IntentRecheck
  import opened IntentSources
  import opened IntentResolve
  import opened Clarifications
  import opened IntentLedger

  /* ---------- a merge of valid candidates ---------- */

  lemma {:induction false} SourceOfMember(provenance: seq<Source>, p: Path)
    ensures SourceOf(provenance, p).Some? ==> Source(p, SourceOf(provenance, p).value) in provenance
  {
    if provenance != [] {
      SourceOfMember(provenance[..|provenance| - 1], p);
    }
  }

  lemma MergedOrigins(prev: Candidate, c: Candidate, ctx: Context, m: Candidate, ctx': Context)
    requires ValidCandidate(c) && Text(ctx.version) && IsMerge(prev, c, ctx, m, ctx')
    ensures forall k :: 0 <= k < |m.provenance| ==> ValidOrigin(m.provenance[k].origin)
  {
    forall k | 0 <= k < |m.provenance| ensures ValidOrigin(m.provenance[k].origin) {
      var p := m.provenance[k].path;
      SourceOfAt(m.provenance, k);
      assert SourceOf(m.provenance, p) == MergedOrigin(prev, c, ctx, p);
      if Inherited(prev, c, p).None? {
        var q := if p.ConstraintAt? then ConstraintAt(p.index - |Carried(prev.constraints, c.constraints)|) else p;
        SourceOfMember(c.provenance, q);
      }
    }
  }

  lemma {:induction false} NewEntitiesFrom(previous: seq<(string, string)>, current: seq<(string, string)>)
    requires DistinctKeys(previous)
    ensures DistinctKeys(NewEntities(previous, current))
    ensures forall e :: e in NewEntities(previous, current) ==> e in previous && !HasKey(current, e.0)
  {
    if previous != [] {
      var n := |previous| - 1;
      NewEntitiesFrom(previous[..n], current);
      var before := NewEntities(previous[..n], current);
      forall i | 0 <= i < |before| ensures before[i].0 != previous[n].0 {
        assert before[i] in previous[..n];
      }
    }
  }

  lemma MergedEntitiesValid(prev: Candidate, c: Candidate)
    requires ValidCandidate(prev) && ValidCandidate(c)
    ensures var entities := MergedFields(prev, c).entities;
      DistinctKeys(entities) && forall i :: 0 <= i < |entities| ==> entities[i].0 in ENTITY_NAMES && Text(entities[i].1)
  {
    var added, all := NewEntities(prev.entities, c.entities), MergedFields(prev, c).entities;
    NewEntitiesFrom(prev.entities, c.entities);
    forall i | |c.entities| <= i < |all| ensures all[i] in prev.entities && !HasKey(c.entities, all[i].0) {
      assert all[i] == added[i - |c.entities|];
    }
  }

  /** Merging two valid candidates gives a valid one. */
  lemma MergedIsValid(prev: Candidate, c: Candidate, ctx: Context, m: Candidate, ctx': Context)
    requires ValidCandidate(prev) && ValidCandidate(c) && Text(ctx.version) && IsMerge(prev, c, ctx, m, ctx')
    ensures ValidCandidate(m)
  {
    MergedOrigins(prev, c, ctx, m, ctx');
    MergedEntitiesValid(prev, c);
    MergedKinds(prev, c);
    var f := MergedFields(prev, c);
    assert m.entities == f.entities && m.constraints == f.constraints && m.control == f.control && m.intentType == f.intentType;
    assert m.objective == f.objective && m.missing == c.missing && m.ambiguities == c.ambiguities && m.reason == c.reason;
    CarriedMembers(prev.constraints, c.constraints);
    forall i | 0 <= i < |m.constraints| ensures ValidConstraint(m.constraints[i]) {
      if i < |Carried(prev.constraints, c.constraints)| {
        assert m.constraints[i] in Carried(prev.constraints, c.constraints);
      }
    }
  }

  /* ---------- what a revision may not lose ---------- */

  ghost predicate ProhibitionsKept(prev: Candidate, next: Candidate) {
    forall kind :: Prohibition(kind) && HasKind(prev.constraints, kind) ==> HasKind(next.constraints, kind)
  }

  ghost predicate Answered(prev: Candidate, next: Candidate, g: Gap) {
    g.code == "required" ==> Provides(next, PathOf(g.path)) || RequiredGap(PathOf(g.path)) in next.missing
  }

  /** Nothing the user forbade is dropped, and no required field is forgotten before it is given. */
  ghost predicate Succeeds(prev: Candidate, next: Candidate) {
    next.relation.NewRequest? ||
      (ProhibitionsKept(prev, next) && forall i :: 0 <= i < |prev.missing| ==> Answered(prev, next, prev.missing[i]))
  }

  /** The pointer a gap names. */
  function PathOf(text: string): Path {
    if text == "/objective" then Objective
    else if "/entities/" <= text then Entity(text[|"/entities/"|..])
    else Elsewhere(text)
  }

  lemma PathOfText(text: string)
    ensures PathText(PathOf(text)) == text
  {
    if text != "/objective" && "/entities/" <= text {
      assert "/entities/" + text[|"/entities/"|..] == text;
    }
  }

  predicate Demands(required: seq<Path>, text: string) { exists i | 0 <= i < |required| :: PathText(required[i]) == text }

  /** A requirement and a pointer with the same text ask for the same field. */
  predicate Canonical(required: seq<Path>) { forall i | 0 <= i < |required| :: required[i] == PathOf(PathText(required[i])) }

  lemma {:induction false} RequiredGapsAsk(c: Candidate, required: seq<Path>, p: Path)
    requires p in required && !Provides(c, p)
    ensures RequiredGap(p) in RequiredGaps(c, required)
  {
    var n := |required| - 1;
    if required[n] != p {
      assert required == required[..n] + [required[n]];
      RequiredGapsAsk(c, required[..n], p);
    }
  }

  /** Requirements of the previous revision that are still unmet are demanded again. */
  method CarryRequirements(missing: seq<Gap>, required0: seq<Path>) returns (required: seq<Path>)
    requires Canonical(required0) && forall i :: 0 <= i < |missing| ==> ValidGap(missing[i])
    requires forall i :: 0 <= i < |required0| ==> Text(PathText(required0[i])) && "/" <= PathText(required0[i])
    ensures required0 <= required && Canonical(required)
    ensures forall i :: 0 <= i < |required| ==> Text(PathText(required[i])) && "/" <= PathText(required[i])
    ensures forall i :: 0 <= i < |missing| && missing[i].code == "required" ==> PathOf(missing[i].path) in required
  {
    required := required0;
    for i := 0 to |missing|
      invariant required0 <= required && Canonical(required)
      invariant forall k :: 0 <= k < |required| ==> Text(PathText(required[k])) && "/" <= PathText(required[k])
      invariant forall k :: 0 <= k < i && missing[k].code == "required" ==> PathOf(missing[k].path) in required
    {
      PathOfText(missing[i].path);
      if missing[i].code == "required" {
        if !Demands(required, missing[i].path) {
          required := required + [PathOf(missing[i].path)];
        } else {
          var k :| 0 <= k < |required| && PathText(required[k]) == missing[i].path;
          assert required[k] in required;
        }
      }
    }
  }

  const STALE := Gap("/context_binding/previous_intent", "stale_clarification", "the clarification is no longer linked", [])
  const NO_QUESTION := Gap("/clarification", "stale_clarification", "please confirm the request that is answered", [])

  lemma StaleGapsValid()
    ensures ValidGap(STALE) && ValidGap(NO_QUESTION)
  {
    TextAt(STALE.path, 0);
    TextAt(STALE.code, 0);
    TextAt(STALE.reason, 0);
    TextAt(NO_QUESTION.path, 0);
    TextAt(NO_QUESTION.code, 0);
    TextAt(NO_QUESTION.reason, 0);
  }

  lemma WithGap(c: Candidate, g: Gap)
    requires ValidCandidate(c) && (g == STALE || g == NO_QUESTION)
    ensures ValidCandidate(c.(missing := c.missing + [g]))
  {
    StaleGapsValid();
  }

  lemma NormalizedResolution(lex: Lexicon, digest: Body -> string, c: Candidate, ctx: Context, ident: Identity)
    requires ValidCandidate(c) && ValidContext(ctx) && ValidIdentity(ident)
    ensures ValidEnvelope(digest, Resolution(digest, Normalized(lex, c), ctx, ident))
  {
    NormalizeKeepsKinds(lex, c);
    ResolutionIsValid(digest, Normalized(lex, c), ctx, ident);
  }

  /** resolve_candidate */
  method ResolveCandidate(lex: Lexicon, digest: Body -> string, c: Candidate, ctx: Context, ident: Identity)
    returns (r: Result<Envelope, Failure>)
    requires ValidCandidate(c) && ValidContext(ctx) && ValidIdentity(ident)
    ensures r.Ok? ==> SourcesOk(lex, c, ctx) && r.value == Resolution(digest, Normalized(lex, c), ctx, ident)
    ensures r.Ok? ==> ident.session == ctx.session && ident.incident == ctx.incident && ident.message == ctx.message
    ensures r.Ok? <==> (SourcesOk(lex, c, ctx) && !Stale(c, ctx, ident)
      && ident.session == ctx.session && ident.incident == ctx.incident && ident.message == ctx.message)
  {
    if (ident.session, ident.incident, ident.message) != (ctx.session, ctx.incident, ctx.message) {
      return Err(Invalid("identity/context mismatch"));
    }
    var ok := ValidateSources(lex, c, ctx);
    if !ok {
      return Err(Invalid("unverifiable sources"));
    }
    var n := NormalizeConstraints(lex, c);
    var e := ResolveVerified(digest, n, ctx, ident);
    match e
    case Ok(value) => return Ok(value);
    case Err(why) => return Err(Invalid(why));
  }

  /** The previous revision's facts and requirements, carried into the new candidate. */
  method CarryOver(lex: Lexicon, prev: Candidate, c: Candidate, ctx: Context) returns (m: Candidate, ctx': Context)
    requires ValidCandidate(prev) && ValidCandidate(c) && ValidContext(ctx) && Canonical(ctx.required) && SourcesOk(lex, c, ctx)
    ensures ValidCandidate(m) && ValidContext(ctx') && m.relation == c.relation && Canonical(ctx'.required)
    ensures ctx' == ctx.(known := ctx'.known, required := ctx'.required)
    ensures c.relation.NewRequest? ==> m == c
    ensures !c.relation.NewRequest? ==> ProhibitionsKept(prev, m)
    ensures !c.relation.NewRequest? ==> forall i :: 0 <= i < |prev.missing| && prev.missing[i].code == "required" ==> PathOf(prev.missing[i].path) in ctx'.required
  {
    m, ctx' := c, ctx;
    if !c.relation.NewRequest? {
      m, ctx' := Merge(prev, c, ctx);
      MergedIsValid(prev, c, ctx, m, ctx');
      MergedKinds(prev, c);
      assert m.constraints == MergedFields(prev, c).constraints && m.relation == MergedFields(prev, c).relation;
      var required := CarryRequirements(prev.missing, ctx.required);
      ctx' := ctx'.(required := required);
    }
  }

  lemma ResolutionSucceeds(lex: Lexicon, digest: Body -> string, prev: Candidate, m: Candidate, ctx: Context, ident: Identity)
    requires ValidCandidate(m)
    requires !m.relation.NewRequest? ==> ProhibitionsKept(prev, m)
    requires !m.relation.NewRequest? ==> forall i :: 0 <= i < |prev.missing| && prev.missing[i].code == "required" ==> PathOf(prev.missing[i].path) in ctx.required
    ensures Succeeds(prev, Resolution(digest, Normalized(lex, m), ctx, ident).body.candidate)
  {
    var n, next := Normalized(lex, m), Resolution(digest, Normalized(lex, m), ctx, ident).body.candidate;
    NormalizeKeepsKinds(lex, m);
    if !m.relation.NewRequest? {
      forall i | 0 <= i < |prev.missing| ensures Answered(prev, next, prev.missing[i]) {
        var p := PathOf(prev.missing[i].path);
        if prev.missing[i].code == "required" && !Provides(n, p) {
          RequiredGapsAsk(n, ctx.required, p);
          assert RequiredGap(p) in Missing(n, ctx);
        }
      }
    }
  }

  /** Merge, normalise and resolve against the stored revision. */
  method Revise(lex: Lexicon, digest: Body -> string, prev: Candidate, c: Candidate, ctx: Context, ident: Identity, stale: bool)
    returns (r: Result<Envelope, Failure>)
    requires ValidCandidate(prev) && ValidCandidate(c) && ValidContext(ctx) && Canonical(ctx.required) && SourcesOk(lex, c, ctx)
    requires ValidIdentity(ident)
    ensures r.Ok? ==> ValidEnvelope(digest, r.value) && r.value.body.identity == ident && Succeeds(prev, r.value.body.candidate)
  {
    var m, ctx' := CarryOver(lex, prev, c, ctx);
    if stale {
      WithGap(m, STALE);
      m := m.(missing := m.missing + [STALE]);
    }
    r := ResolveCandidate(lex, digest, m, ctx', ident);
    if r.Ok? {
      NormalizedResolution(lex, digest, m, ctx', ident);
      ResolutionSucceeds(lex, digest, prev, m, ctx', ident);
    }
  }

  /** Resolve a first revision; a caller's hint at a previous one establishes nothing. */
  method Begin(lex: Lexicon, digest: Body -> string, c: Candidate, ctx: Context, ident: Identity, answers: bool)
    returns (r: Result<Envelope, Failure>)
    requires ValidCandidate(c) && ValidContext(ctx) && ValidIdentity(ident)
    ensures r.Ok? ==> ValidEnvelope(digest, r.value) && r.value.body.identity == ident && r.value.body.binding.previous.None?
  {
    var current, ctx' := c, ctx.(previous := None);
    if answers {
      WithGap(current, NO_QUESTION);
      current := current.(missing := current.missing + [NO_QUESTION]);
    }
    r := ResolveCandidate(lex, digest, current, ctx', ident);
    if r.Ok? {
      NormalizedResolution(lex, digest, current, ctx', ident);
    }
  }

  /* ---------- the stored history ---------- */

  /** Every entry is good and follows on from the one before it. */
  ghost predicate Chained<T>(entries: map<(string, int), T>, good: T -> bool, follows: (T, T) -> bool) {
    && (forall k :: k in entries ==> good(entries[k]))
    && (forall name, r :: (name, r) in entries && (name, r + 1) in entries ==> follows(entries[(name, r)], entries[(name, r + 1)]))
  }

  lemma ChainedAppend<T>(entries: map<(string, int), T>, good: T -> bool, follows: (T, T) -> bool, name: string, r: int, entry: T)
    requires Chained(entries, good, follows) && good(entry)
    requires (name, r) !in entries && (name, r + 1) !in entries
    requires (name, r - 1) in entries ==> follows(entries[(name, r - 1)], entry)
    ensures Chained(entries[(name, r) := entry], good, follows)
  {
    var after := entries[(name, r) := entry];
    forall other, s | (other, s) in after && (other, s + 1) in after ensures follows(after[(other, s)], after[(other, s + 1)]) {
      if other == name && s + 1 == r {
      } else {
        assert (other, s) in entries && (other, s + 1) in entries;
      }
    }
  }

  lemma {:induction false} ChainedOutlives<T>(entries: map<(string, int), T>, name: string, first: int, last: int, holds: T -> bool)
    requires first <= last
    requires forall r :: first <= r <= last ==> (name, r) in entries
    requires forall r :: first < r <= last && holds(entries[(name, r - 1)]) ==> holds(entries[(name, r)])
    ensures holds(entries[(name, first)]) ==> holds(entries[(name, last)])
    decreases last - first
  {
    if first < last {
      ChainedOutlives(entries, name, first, last - 1, holds);
    }
  }

  ghost function Good(digest: Body -> string): Envelope -> bool { (e: Envelope) => ValidEnvelope(digest, e) }

  ghost function Follow(): (Envelope, Envelope) -> bool { (a: Envelope, b: Envelope) => Succeeds(a.body.candidate, b.body.candidate) }

  /** Every stored envelope passes its validator and every revision follows on from the one before it. */
  ghost predicate StoredInv(digest: Body -> string, revisions: Revisions) { Chained(revisions, Good(digest), Follow()) }

  lemma PublishedKeepsChain(before: Revisions, l: Ledger, e: Envelope, ctx: Context, d: string, qid: string, now: int,
                            good: Envelope -> bool, follows: (Envelope, Envelope) -> bool)
    requires RevisionsInv(l.heads, l.revisions) && NextInLine(l, e.body.identity, ScopeOf(ctx)) && RevisionsGrow(before, l.revisions)
    requires Chained(l.revisions, good, follows) && good(e)
    requires e.body.identity.revision > 1 ==> (e.body.identity.intent, e.body.identity.revision - 1) in before
    requires e.body.identity.revision > 1 ==> follows(before[(e.body.identity.intent, e.body.identity.revision - 1)], e)
    ensures Chained(Published(l, e, ctx, d, qid, now).revisions, good, follows)
  {
    var intent, revision := e.body.identity.intent, e.body.identity.revision;
    assert (intent, revision + 1) !in l.revisions;
    assert revision == 1 ==> (intent, 0) !in l.revisions;
    ChainedAppend(l.revisions, good, follows, intent, revision, e);
  }

  /** No matter how much happened since the previous revision was read, a commit keeps the history. */
  lemma CommitKeepsStored(digest: Body -> string, before: Ledger, l: Ledger, e: Envelope, ctx: Context, d: string, expected: int, qid: string, now: int)
    requires RevisionsInv(l.heads, l.revisions) && RevisionsGrow(before.revisions, l.revisions) && StoredInv(digest, l.revisions) && expected >= 0
    requires Good(digest)(e)
    requires expected > 0 ==> (e.body.identity.intent, expected) in before.revisions
    requires expected > 0 ==> Follow()(before.revisions[(e.body.identity.intent, expected)], e)
    requires Commit(l, e, ctx, d, expected, qid, now).Ok?
    ensures StoredInv(digest, Commit(l, e, ctx, d, expected, qid, now).value.0.revisions)
  {
    CommitPublishes(l, e, ctx, d, expected, qid, now);
    if Publishable(l, e, ctx) {
      PublishedKeepsChain(before.revisions, l, e, ctx, d, qid, now, Good(digest), Follow());
    }
  }

  predicate Forbids(e: Envelope, kind: Kind) { HasKind(e.body.candidate.constraints, kind) }

  /**
    A prohibition the user once stated is still there in every later revision
    that was a continuation or a correction of the one before.
  */
  lemma ProhibitionsOutlive(digest: Body -> string, l: Ledger, intent: string, first: int, last: int, kind: Kind)
    requires RevisionsInv(l.heads, l.revisions) && StoredInv(digest, l.revisions) && Prohibition(kind)
    requires 1 <= first <= last && (intent, last) in l.revisions
    requires forall r :: first < r <= last && (intent, r) in l.revisions ==> !l.revisions[(intent, r)].body.candidate.relation.NewRequest?
    ensures (intent, first) in l.revisions
    ensures Forbids(l.revisions[(intent, first)], kind) ==> Forbids(l.revisions[(intent, last)], kind)
  {
    ghost var holds := (e: Envelope) => Forbids(e, kind);
    forall r | first <= r <= last ensures (intent, r) in l.revisions {
    }
    forall r | first < r <= last && holds(l.revisions[(intent, r - 1)]) ensures holds(l.revisions[(intent, r)]) {
      assert (intent, (r - 1) + 1) in l.revisions;
      assert Follow()(l.revisions[(intent, r - 1)], l.revisions[(intent, r)]);
    }
    ChainedOutlives(l.revisions, intent, first, last, holds);
  }

  /* ---------- the service ---------- */

  function LastMessage(messages: seq<Message>, ctx: Context): Option<Message> {
    if messages == [] then None
    else
      var m := messages[|messages| - 1];
      if m.scope.actor == ctx.actor && m.scope.session == ctx.session && m.message == ctx.message then Some(m)
      else LastMessage(messages[..|messages| - 1], ctx)
  }

  /** prior_message */
  function PriorMessage(l: Ledger, ctx: Context): Result<Option<string>, Failure> {
    match LastMessage(l.messages, ctx)
    case None => Ok(None)
    case Some(m) => if m.scope.incident != ctx.incident then Err(Denied("message unavailable in authorized scope")) else Ok(Some(m.intent))
  }

  function Last(d: Dialog): Option<Inquiry> { if d.asked == [] then None else Some(d.asked[|d.asked| - 1]) }

  /** Whether the clarification the caller answers is no longer the open one. */
  predicate StaleClarification(question: Option<Inquiry>, clarification: Option<string>) {
    || (question.Some? && question.value.state.Expired?)
    || (clarification.Some? && (question.None? || question.value.id != clarification.value || !Live(question.value)))
  }

  method ReviseStored(lex: Lexicon, digest: Body -> string, previous: Envelope, c: Candidate, ctx: Context, expected: int, intent: string, stale: bool, created: string)
    returns (r: Result<Envelope, Failure>)
    requires Good(digest)(previous) && previous.body.identity.intent == intent && previous.body.identity.revision == expected
    requires ValidCandidate(c) && ValidContext(ctx) && Canonical(ctx.required) && SourcesOk(lex, c, ctx) && Text(created)
    ensures r.Ok? ==> Good(digest)(r.value) && Follow()(previous, r.value)
    ensures r.Ok? ==> r.value.body.identity.intent == intent && r.value.body.identity.revision == expected + 1
  {
    var ident := Identity(intent, expected + 1, ctx.session, ctx.incident, ctx.message, created);
    r := Revise(lex, digest, previous.body.candidate, c, ctx.(previous := Some(Previous(intent, expected))), ident, stale);
  }

  lemma SameReplay(l: Ledger, l': Ledger, ctx: Context, d: string)
    requires l' == l.(dialogs := l'.dialogs)
    ensures Replay(l', ctx, d) == Replay(l, ctx, d)
  {
  }

  lemma HeadIsStored(digest: Body -> string, l: Ledger, intent: string)
    requires RevisionsInv(l.heads, l.revisions) && StoredInv(digest, l.revisions) && intent in l.heads
    ensures var k := (intent, l.heads[intent].revision);
      k in l.revisions && k.1 >= 1 && l.revisions[k].body.identity.revision == k.1 && l.revisions[k].body.identity.intent == intent
    ensures Good(digest)(l.revisions[(intent, l.heads[intent].revision)])
  {
    assert Filed(l.revisions[(intent, l.heads[intent].revision)].body.identity, (intent, l.heads[intent].revision));
  }

  class Service {
    const lex: Lexicon
    const digest: Body -> string
    const inputDigest: string -> string
    var ledger: Ledger

    ghost predicate Valid()
      reads this
    {
      LedgerInv(ledger) && StoredInv(digest, ledger.revisions)
    }

    constructor (lex: Lexicon, digest: Body -> string, inputDigest: string -> string)
      ensures Valid() && ledger == EMPTY
    {
      this.lex, this.digest, this.inputDigest, ledger := lex, digest, inputDigest, EMPTY;
    }

    /** The commit transaction. */
    method CommitRow(e: Envelope, ctx: Context, d: string, expected: int, qid: string, now: int) returns (r: Result<Envelope, Failure>)
      requires Valid() && Good(digest)(e) && expected >= 0 && Replay(ledger, ctx, d) == Ok(None)
      requires expected > 0 ==> (e.body.identity.intent, expected) in ledger.revisions
      requires expected > 0 ==> Follow()(ledger.revisions[(e.body.identity.intent, expected)], e)
      modifies this
      ensures Valid() && Extends(old(ledger), ledger)
      ensures r.Err? ==> ledger == old(ledger)
      ensures r.Ok? ==> NextInLine(old(ledger), e.body.identity, ScopeOf(ctx))
      ensures r.Ok? ==> r.value == e && ledger == Published(old(ledger), e, ctx, d, qid, now) && e.body.identity.revision == expected + 1
      ensures r.Ok? ==> Replay(ledger, ctx, d) == Ok(Some(e))
    {
      CommitPublishes(ledger, e, ctx, d, expected, qid, now);
      CommitKeeps(ledger, e, ctx, d, expected, qid, now);
      var outcome := Commit(ledger, e, ctx, d, expected, qid, now);
      match outcome
      case Err(f) => r := Err(f);
      case Ok((after, stored)) =>
        CommitKeepsStored(digest, ledger, ledger, e, ctx, d, expected, qid, now);
        CommitIsReplayed(ledger, e, ctx, d, qid, now);
        ledger := after;
        r := Ok(stored);
    }

    /** A first revision, under an identity no one has used. */
    method First(c: Candidate, ctx: Context, expected: int, clarification: Option<string>, intent: string, created: string, qid: string, now: int)
      returns (r: Result<Envelope, Failure>)
      requires Valid() && ValidCandidate(c) && ValidContext(ctx) && Text(intent) && Text(created)
      requires expected >= 0 && Replay(ledger, ctx, inputDigest(ctx.messages[ctx.message])) == Ok(None)
      modifies this
      ensures Valid() && Extends(old(ledger), ledger)
      ensures r.Err? ==> ledger == old(ledger)
      ensures r.Ok? ==> expected == 0 && intent !in old(ledger.heads) && r.value.body.identity.intent == intent && r.value.body.identity.revision == 1
      ensures r.Ok? ==> Replay(ledger, ctx, inputDigest(ctx.messages[ctx.message])) == Ok(Some(r.value))
    {
      if expected != 0 {
        return Err(Conflict("expected revision requires an intent identity"));
      }
      var ident := Identity(intent, 1, ctx.session, ctx.incident, ctx.message, created);
      var e := Begin(lex, digest, c, ctx, ident, clarification.Some?);
      if e.Err? {
        return e;
      }
      r := CommitRow(e.value, ctx, inputDigest(ctx.messages[ctx.message]), 0, qid, now);
    }

    /** The next revision of an intent in the caller's scope. */
    method Later(c: Candidate, ctx: Context, expected: int, intent: string, clarification: Option<string>, repeated: bool, created: string, qid: string, now: int)
      returns (r: Result<Envelope, Failure>)
      requires Valid() && ValidCandidate(c) && ValidContext(ctx) && Canonical(ctx.required) && SourcesOk(lex, c, ctx) && Text(created)
      requires expected >= 0 && Replay(ledger, ctx, inputDigest(ctx.messages[ctx.message])) == Ok(None)
      modifies this
      ensures Valid() && Extends(old(ledger), ledger)
      ensures r.Err? ==> ledger.(dialogs := old(ledger.dialogs)) == old(ledger)
      ensures r.Ok? ==> r.value.body.identity.intent == intent && r.value.body.identity.revision == expected + 1
      ensures r.Ok? ==> intent in old(ledger.heads) && old(ledger.heads)[intent] == Head(ScopeOf(ctx), expected)
      ensures r.Ok? ==> Replay(ledger, ctx, inputDigest(ctx.messages[ctx.message])) == Ok(Some(r.value))
    {
      var previous := Previously(ledger, c, ctx, expected, intent, repeated);
      if previous.Err? {
        return Err(previous.error);
      }
      var question := Question(intent, now);
      var stale := StaleClarification(question, clarification);
      var e := ReviseStored(lex, digest, previous.value, c, ctx, expected, intent, stale, created);
      if e.Err? {
        return e;
      }
      SameReplay(old(ledger), ledger, ctx, inputDigest(ctx.messages[ctx.message]));
      r := CommitRow(e.value, ctx, inputDigest(ctx.messages[ctx.message]), expected, qid, now);
    }

    /** The newest question of an intent, after closing those whose time is up. */
    method Question(intent: string, now: int) returns (q: Option<Inquiry>)
      requires Valid()
      modifies this
      ensures Valid() && Extends(old(ledger), ledger)
      ensures ledger == ExpireQuestions(old(ledger), intent, now) == old(ledger).(dialogs := ledger.dialogs)
      ensures q == Last(DialogIn(ledger.dialogs, intent))
    {
      ExpireKeepsLedger(ledger, intent, now);
      ledger := ExpireQuestions(ledger, intent, now);
      q := Last(DialogIn(ledger.dialogs, intent));
    }

    /** The revision the caller builds on, or why it may not. */
    method Previously(l: Ledger, c: Candidate, ctx: Context, expected: int, intent: string, repeated: bool) returns (r: Result<Envelope, Failure>)
      requires LedgerInv(l) && StoredInv(digest, l.revisions)
      ensures r.Ok? <==> InScope(l, intent, ScopeOf(ctx)) && l.heads[intent].revision == expected && (c.relation.NewRequest? ==> repeated)
      ensures r.Ok? ==> expected > 0 && (intent, expected) in l.revisions && r.value == l.revisions[(intent, expected)] && Good(digest)(r.value)
      ensures r.Ok? ==> r.value.body.identity.intent == intent && r.value.body.identity.revision == expected
    {
      if !InScope(l, intent, ScopeOf(ctx)) {
        return Err(Denied("intent unavailable in authorized scope"));
      }
      HeadIsStored(digest, l, intent);
      var previous := l.revisions[(intent, l.heads[intent].revision)];
      if previous.body.identity.revision != expected {
        return Err(Conflict("stale expected revision"));
      }
      if c.relation.NewRequest? && !repeated {
        return Err(Conflict("new requests require a new intent identity"));
      }
      return Ok(previous);
    }

    /** resolve */
    method Resolve(c: Candidate, ctx: Context, expected: int, intent: Option<string>, clarification: Option<string>,
                   newIntent: string, created: string, qid: string, now: int)
      returns (r: Result<Envelope, Failure>)
      requires Valid() && ValidCandidate(c) && ValidContext(ctx) && Canonical(ctx.required) && Text(newIntent) && Text(created)
      modifies this
      ensures Valid() && Extends(old(ledger), ledger)
      ensures r.Err? ==> ledger.(dialogs := old(ledger.dialogs)) == old(ledger)
      ensures r.Ok? ==> Replay(ledger, ctx, inputDigest(ctx.messages[ctx.message])) == Ok(Some(r.value))
      ensures r.Ok? && ledger != old(ledger) ==> r.value.body.identity.revision == expected + 1
      ensures r.Ok? && ledger != old(ledger) && expected > 0 ==>
        r.value.body.identity.intent in old(ledger.heads) && old(ledger.heads)[r.value.body.identity.intent].revision == expected
    {
      if expected < 0 {
        return Err(Conflict("invalid expected revision"));
      }
      var d := inputDigest(ctx.messages[ctx.message]);
      var replay := Replay(ledger, ctx, d);
      if replay.Err? {
        return Err(replay.error);
      } else if replay.value.Some? {
        return Ok(replay.value.value);
      }
      var ok := ValidateSources(lex, c, ctx);
      if !ok {
        return Err(Invalid("unverifiable sources"));
      }
      var prior := PriorMessage(ledger, ctx);
      if prior.Err? {
        return Err(prior.error);
      }
      var given := intent.Some? && intent.value != "";
      if prior.value.Some? && given && prior.value.value != intent.value {
        return Err(Conflict("message already belongs to another intent"));
      }
      if given {
        r := Later(c, ctx, expected, intent.value, clarification, prior.value.Some?, created, qid, now);
      } else if prior.value.Some? {
        r := Later(c, ctx, expected, prior.value.value, clarification, true, created, qid, now);
      } else {
        r := First(c, ctx, expected, clarification, newIntent, created, qid, now);
      }
    }
  }
}
