/**
  The ledger of intent revisions: heads, immutable revisions, message keys, the
  outbox and clarification questions, changed by one transaction at a time.
*/
module IntentLedger {
  import opened Prelude
  import opened IntentModel
  import opened Clarifications

  datatype Failure = Conflict(why: string) | Denied(why: string) | Invalid(why: string)

  datatype Scope = Scope(actor: string, session: string, incident: string)
  datatype Head = Head(scope: Scope, revision: int)
  datatype Message = Message(scope: Scope, message: string, version: string, digest: string, intent: string, revision: int)
  datatype Outgoing = Pending | Superseded | Accepted | Completed | Failed

  datatype Ledger = Ledger(
    heads: map<string, Head>, revisions: map<(string, int), Envelope>, messages: seq<Message>,
    outbox: map<(string, int), Outgoing>, dialogs: map<string, Dialog>)

  const EMPTY := Ledger(map[], map[], [], map[], map[])

  function ScopeOf(ctx: Context): Scope { Scope(ctx.actor, ctx.session, ctx.incident) }

  predicate SameKey(m: Message, ctx: Context) {
    m.scope.actor == ctx.actor && m.scope.session == ctx.session && m.message == ctx.message && m.version == ctx.version
  }

  function FindMessage(messages: seq<Message>, ctx: Context): Option<Message> {
    if messages == [] then None
    else if SameKey(messages[0], ctx) then Some(messages[0])
    else FindMessage(messages[1..], ctx)
  }

  /** _replay */
  function Replay(l: Ledger, ctx: Context, digest: string): Result<Option<Envelope>, Failure> {
    match FindMessage(l.messages, ctx)
    case None => Ok(None)
    case Some(m) =>
      if m.scope.incident != ctx.incident then Err(Denied("message unavailable in authorized scope"))
      else if m.digest != digest then Err(Conflict("same message key with different content"))
      else if (m.intent, m.revision) in l.revisions then Ok(Some(l.revisions[(m.intent, m.revision)]))
      else Err(Invalid("revision missing"))
  }

  predicate InScope(l: Ledger, intent: string, scope: Scope) { intent in l.heads && l.heads[intent].scope == scope }

  function DialogIn(dialogs: map<string, Dialog>, intent: string): Dialog {
    if intent in dialogs then dialogs[intent] else Dialog([], 0)
  }

  /* ---------- transactions ---------- */

  function Supersede(outbox: map<(string, int), Outgoing>, intent: string): map<(string, int), Outgoing> {
    map k | k in outbox :: if k.0 == intent && outbox[k].Pending? then Superseded else outbox[k]
  }

  /** The rows of one committed revision. */
  function Published(l: Ledger, e: Envelope, ctx: Context, digest: string, qid: string, now: int): Ledger {
    var intent, revision := e.body.identity.intent, e.body.identity.revision;
    var key := (intent, revision);
    Ledger(
      l.heads[intent := Head(ScopeOf(ctx), revision)],
      l.revisions[key := e],
      l.messages + [Message(ScopeOf(ctx), ctx.message, ctx.version, digest, intent, revision)],
      if e.body.status.Resolved? then Supersede(l.outbox, intent)[key := Pending] else Supersede(l.outbox, intent),
      l.dialogs[intent := Advance(DialogIn(l.dialogs, intent), e.body.status.NeedsClarification?, qid, revision, now)])
  }

  /** commit */
  function Commit(l: Ledger, e: Envelope, ctx: Context, digest: string, expected: int, qid: string, now: int): Result<(Ledger, Envelope), Failure> {
    var ident := e.body.identity;
    if ident.revision != expected + 1 then Err(Conflict("revision must increment exactly once"))
    else if (ident.session, ident.incident, ident.message) != (ctx.session, ctx.incident, ctx.message) then Err(Denied("snapshot scope mismatch"))
    else match Replay(l, ctx, digest)
      case Err(f) => Err(f)
      case Ok(Some(stored)) => Ok((l, stored))
      case Ok(None) =>
        if expected != 0 then
          if !InScope(l, ident.intent, ScopeOf(ctx)) then Err(Denied("intent unavailable in authorized scope"))
          else if l.heads[ident.intent].revision != expected then Err(Conflict("stale expected revision"))
          else Ok((Published(l, e, ctx, digest, qid, now), e))
        else if ident.intent in l.heads then Err(Conflict("intent already exists"))
        else Ok((Published(l, e, ctx, digest, qid, now), e))
  }

  /** The expiry that every look at a question performs first. */
  function ExpireQuestions(l: Ledger, intent: string, now: int): Ledger {
    if intent in l.dialogs then l.(dialogs := l.dialogs[intent := Expire(l.dialogs[intent], now)]) else l
  }

  /** The outbox update of a saved main receipt. */
  function Routed(l: Ledger, intent: string, revision: int, status: Outgoing): Ledger {
    if (intent, revision) in l.outbox && !l.outbox[(intent, revision)].Superseded?
    then l.(outbox := l.outbox[(intent, revision) := status]) else l
  }

  datatype Step =
    | CommitStep(e: Envelope, ctx: Context, digest: string, expected: int, qid: string, now: int)
    | ExpireStep(intent: string, at: int)
    | RouteStep(routed: string, revision: int, status: Outgoing)

  predicate Enabled(step: Step) {
    match step
    case CommitStep(_, _, _, expected, _, _) => expected >= 0
    case ExpireStep(_, _) => true
    case RouteStep(_, _, status) => status.Accepted? || status.Completed? || status.Failed?
  }

  function Next(l: Ledger, step: Step): Ledger {
    match step
    case CommitStep(e, ctx, digest, expected, qid, now) =>
      var r := Commit(l, e, ctx, digest, expected, qid, now);
      if r.Ok? then r.value.0 else l
    case ExpireStep(intent, at) => ExpireQuestions(l, intent, at)
    case RouteStep(intent, revision, status) => Routed(l, intent, revision, status)
  }

  function Run(l: Ledger, steps: seq<Step>): Ledger
    decreases |steps|
  {
    if steps == [] then l else Run(Next(l, steps[0]), steps[1..])
  }

  /* ---------- invariants ---------- */

  type Heads = map<string, Head>
  type Revisions = map<(string, int), Envelope>
  type Outbox = map<(string, int), Outgoing>

  /** Revisions are numbered 1..head, without gaps, and filed under their own identity. */
  ghost predicate RevisionsInv(heads: Heads, revisions: Revisions) {
    && (forall intent, r :: (intent, r) in revisions <==> intent in heads && 1 <= r <= heads[intent].revision)
    && (forall intent :: intent in heads ==> 1 <= heads[intent].revision)
    && (forall k :: k in revisions ==> Filed(revisions[k].body.identity, k))
  }

  predicate Filed(ident: Identity, k: (string, int)) { ident.intent == k.0 && ident.revision == k.1 }

  /** Message keys are unique and each names a stored revision of its own scope. */
  ghost predicate MessagesInv(heads: Heads, revisions: Revisions, messages: seq<Message>) {
    && (forall m :: m in messages ==> (m.intent, m.revision) in revisions && m.intent in heads && heads[m.intent].scope == m.scope)
    && (forall i, j :: 0 <= i < j < |messages| ==> Key(messages[i]) != Key(messages[j]))
  }

  function Key(m: Message): (string, string, string, string) { (m.scope.actor, m.scope.session, m.message, m.version) }

  /** Only the newest revision waits for delivery. */
  ghost predicate OutboxInv(heads: Heads, revisions: Revisions, outbox: Outbox) {
    forall k :: k in outbox ==> k in revisions && (outbox[k].Pending? ==> k.0 in heads && k.1 == heads[k.0].revision)
  }

  ghost predicate DialogsInv(heads: Heads, dialogs: map<string, Dialog>) {
    && (forall intent :: intent in dialogs ==> intent in heads)
    && (forall intent :: intent in heads ==> DialogOk(DialogIn(dialogs, intent), heads[intent].revision))
  }

  ghost predicate LedgerInv(l: Ledger) {
    && RevisionsInv(l.heads, l.revisions)
    && MessagesInv(l.heads, l.revisions, l.messages)
    && OutboxInv(l.heads, l.revisions, l.outbox)
    && DialogsInv(l.heads, l.dialogs)
  }

  ghost predicate HeadsGrow(heads: Heads, heads': Heads) {
    forall intent :: intent in heads ==>
      intent in heads' && heads'[intent].scope == heads[intent].scope && heads[intent].revision <= heads'[intent].revision
  }

  ghost predicate RevisionsGrow(revisions: Revisions, revisions': Revisions) {
    forall k :: k in revisions ==> k in revisions' && revisions'[k] == revisions[k]
  }

  ghost predicate OutboxGrows(outbox: Outbox, outbox': Outbox) {
    forall k :: k in outbox ==> k in outbox' && (outbox[k].Superseded? ==> outbox'[k].Superseded?)
  }

  /** What no later transaction can take back. */
  ghost predicate Extends(l: Ledger, l': Ledger) {
    && l.messages <= l'.messages
    && RevisionsGrow(l.revisions, l'.revisions)
    && HeadsGrow(l.heads, l'.heads)
    && OutboxGrows(l.outbox, l'.outbox)
  }

  lemma {:induction false} FindMessageIs(messages: seq<Message>, ctx: Context)
    ensures FindMessage(messages, ctx).None? <==> forall i :: 0 <= i < |messages| ==> !SameKey(messages[i], ctx)
    ensures FindMessage(messages, ctx).Some? ==> FindMessage(messages, ctx).value in messages && SameKey(FindMessage(messages, ctx).value, ctx)
  {
    if messages != [] && !SameKey(messages[0], ctx) {
      FindMessageIs(messages[1..], ctx);
    }
  }

  lemma {:induction false} FindMessageGrows(messages: seq<Message>, more: seq<Message>, ctx: Context)
    ensures FindMessage(messages + more, ctx) ==
            if FindMessage(messages, ctx).Some? then FindMessage(messages, ctx) else FindMessage(more, ctx)
  {
    if messages == [] {
      assert messages + more == more;
    } else {
      assert (messages + more)[1..] == messages[1..] + more;
      FindMessageGrows(messages[1..], more, ctx);
    }
  }

  /** The new rows really are new: no unique key of a table is ever violated. */
  ghost predicate Publishable(l: Ledger, e: Envelope, ctx: Context) {
    FindMessage(l.messages, ctx).None? && NextInLine(l, e.body.identity, ScopeOf(ctx))
  }

  /** A first revision of a new intent, or the successor of its head in the same scope. */
  ghost predicate NextInLine(l: Ledger, ident: Identity, scope: Scope) {
    && ident.revision >= 1
    && (if ident.revision == 1 then ident.intent !in l.heads
        else InScope(l, ident.intent, scope) && l.heads[ident.intent].revision + 1 == ident.revision)
  }

  lemma CommitPublishes(l: Ledger, e: Envelope, ctx: Context, digest: string, expected: int, qid: string, now: int)
    requires expected >= 0
    ensures match Commit(l, e, ctx, digest, expected, qid, now)
      case Ok((l', stored)) =>
        (l' == l && Replay(l, ctx, digest) == Ok(Some(stored)))
        || (stored == e && Publishable(l, e, ctx) && e.body.identity.revision == expected + 1 && l' == Published(l, e, ctx, digest, qid, now))
      case Err(_) => true
  {
  }

  lemma PublishedRevisions(l: Ledger, e: Envelope, ctx: Context, digest: string, qid: string, now: int)
    requires RevisionsInv(l.heads, l.revisions) && NextInLine(l, e.body.identity, ScopeOf(ctx))
    ensures var l' := Published(l, e, ctx, digest, qid, now);
      && RevisionsInv(l'.heads, l'.revisions) && RevisionsGrow(l.revisions, l'.revisions) && HeadsGrow(l.heads, l'.heads)
      && (e.body.identity.intent, e.body.identity.revision) !in l.revisions
  {
  }

  lemma PublishedOutbox(l: Ledger, e: Envelope, ctx: Context, digest: string, qid: string, now: int)
    requires RevisionsInv(l.heads, l.revisions) && OutboxInv(l.heads, l.revisions, l.outbox) && NextInLine(l, e.body.identity, ScopeOf(ctx))
    ensures var l' := Published(l, e, ctx, digest, qid, now);
      OutboxInv(l'.heads, l'.revisions, l'.outbox) && OutboxGrows(l.outbox, l'.outbox)
  {
  }

  lemma PublishedMessages(l: Ledger, e: Envelope, ctx: Context, digest: string, qid: string, now: int)
    requires MessagesInv(l.heads, l.revisions, l.messages) && Publishable(l, e, ctx)
    ensures var l' := Published(l, e, ctx, digest, qid, now); MessagesInv(l'.heads, l'.revisions, l'.messages)
  {
    FindMessageIs(l.messages, ctx);
  }

  lemma PublishedDialogs(l: Ledger, e: Envelope, ctx: Context, digest: string, qid: string, now: int)
    requires DialogsInv(l.heads, l.dialogs) && NextInLine(l, e.body.identity, ScopeOf(ctx))
    ensures var l' := Published(l, e, ctx, digest, qid, now); DialogsInv(l'.heads, l'.dialogs)
  {
    AdvanceKeeps(DialogIn(l.dialogs, e.body.identity.intent), e.body.status.NeedsClarification?, qid, e.body.identity.revision, now);
  }

  lemma ExpireKeepsDialogs(l: Ledger, intent: string, now: int)
    requires DialogsInv(l.heads, l.dialogs)
    ensures DialogsInv(l.heads, ExpireQuestions(l, intent, now).dialogs)
  {
    if intent in l.dialogs {
      ExpireKeeps(l.dialogs[intent], l.heads[intent].revision, now);
    }
  }

  lemma PublishedKeeps(l: Ledger, e: Envelope, ctx: Context, digest: string, qid: string, now: int)
    requires LedgerInv(l) && Publishable(l, e, ctx)
    ensures LedgerInv(Published(l, e, ctx, digest, qid, now)) && Extends(l, Published(l, e, ctx, digest, qid, now))
  {
    PublishedRevisions(l, e, ctx, digest, qid, now);
    PublishedOutbox(l, e, ctx, digest, qid, now);
    PublishedMessages(l, e, ctx, digest, qid, now);
    PublishedDialogs(l, e, ctx, digest, qid, now);
  }

  lemma CommitKeeps(l: Ledger, e: Envelope, ctx: Context, digest: string, expected: int, qid: string, now: int)
    requires LedgerInv(l) && expected >= 0
    ensures match Commit(l, e, ctx, digest, expected, qid, now)
      case Ok((l', stored)) => LedgerInv(l') && Extends(l, l')
      case Err(_) => true
  {
    CommitPublishes(l, e, ctx, digest, expected, qid, now);
    if Publishable(l, e, ctx) {
      PublishedKeeps(l, e, ctx, digest, qid, now);
    }
  }

  lemma ExpireKeepsLedger(l: Ledger, intent: string, now: int)
    requires LedgerInv(l)
    ensures LedgerInv(ExpireQuestions(l, intent, now)) && Extends(l, ExpireQuestions(l, intent, now))
  {
    ExpireKeepsDialogs(l, intent, now);
  }

  lemma RouteKeeps(l: Ledger, intent: string, revision: int, status: Outgoing)
    requires LedgerInv(l) && !status.Pending? && !status.Superseded?
    ensures LedgerInv(Routed(l, intent, revision, status)) && Extends(l, Routed(l, intent, revision, status))
  {
    var k := (intent, revision);
    if k in l.outbox && !l.outbox[k].Superseded? {
      OutboxMoves(l.heads, l.revisions, l.outbox, k, status);
    }
  }

  lemma OutboxMoves(heads: Heads, revisions: Revisions, outbox: Outbox, k: (string, int), status: Outgoing)
    requires OutboxInv(heads, revisions, outbox) && k in outbox && !outbox[k].Superseded? && !status.Pending?
    ensures OutboxInv(heads, revisions, outbox[k := status]) && OutboxGrows(outbox, outbox[k := status])
  {
  }

  lemma NextKeepsLedger(l: Ledger, step: Step)
    requires LedgerInv(l) && Enabled(step)
    ensures LedgerInv(Next(l, step)) && Extends(l, Next(l, step))
  {
    match step
    case CommitStep(e, ctx, digest, expected, qid, now) => CommitKeeps(l, e, ctx, digest, expected, qid, now);
    case ExpireStep(intent, at) => ExpireKeepsLedger(l, intent, at);
    case RouteStep(intent, revision, status) => RouteKeeps(l, intent, revision, status);
  }

  lemma {:induction false} RunKeepsLedger(l: Ledger, steps: seq<Step>)
    requires LedgerInv(l) && forall i :: 0 <= i < |steps| ==> Enabled(steps[i])
    ensures LedgerInv(Run(l, steps)) && Extends(l, Run(l, steps))
    decreases |steps|
  {
    if steps != [] {
      NextKeepsLedger(l, steps[0]);
      RunKeepsLedger(Next(l, steps[0]), steps[1..]);
    }
  }

  /* ---------- consequences ---------- */

  lemma ReplayGrows(l: Ledger, l': Ledger, ctx: Context, digest: string)
    requires Extends(l, l') && Replay(l, ctx, digest).Ok? && Replay(l, ctx, digest).value.Some?
    ensures Replay(l', ctx, digest) == Replay(l, ctx, digest)
  {
    FindMessageGrows(l.messages, l'.messages[|l.messages|..], ctx);
    assert l.messages + l'.messages[|l.messages|..] == l'.messages;
  }

  lemma CommitIsReplayed(l: Ledger, e: Envelope, ctx: Context, digest: string, qid: string, now: int)
    requires FindMessage(l.messages, ctx).None?
    ensures Replay(Published(l, e, ctx, digest, qid, now), ctx, digest) == Ok(Some(e))
  {
    var m := Message(ScopeOf(ctx), ctx.message, ctx.version, digest, e.body.identity.intent, e.body.identity.revision);
    FindMessageGrows(l.messages, [m], ctx);
  }

  /** A committed message is answered with the same envelope for ever, whatever is committed later. */
  lemma ReplayForever(l: Ledger, e: Envelope, ctx: Context, digest: string, expected: int, qid: string, now: int, steps: seq<Step>)
    requires LedgerInv(l) && expected >= 0 && forall i :: 0 <= i < |steps| ==> Enabled(steps[i])
    requires Commit(l, e, ctx, digest, expected, qid, now).Ok?
    ensures var r := Commit(l, e, ctx, digest, expected, qid, now).value;
      Replay(Run(r.0, steps), ctx, digest) == Ok(Some(r.1))
  {
    var r := Commit(l, e, ctx, digest, expected, qid, now).value;
    CommitPublishes(l, e, ctx, digest, expected, qid, now);
    CommitKeeps(l, e, ctx, digest, expected, qid, now);
    if Publishable(l, e, ctx) {
      CommitIsReplayed(l, e, ctx, digest, qid, now);
    }
    RunKeepsLedger(r.0, steps);
    ReplayGrows(r.0, Run(r.0, steps), ctx, digest);
  }

  lemma PassedOver(l: Ledger, e: Envelope, ctx: Context, digest: string, expected: int, qid: string, now: int)
    requires expected >= 0 && Replay(l, ctx, digest) == Ok(None)
    requires e.body.identity.intent in l.heads && l.heads[e.body.identity.intent].revision > expected
    ensures Commit(l, e, ctx, digest, expected, qid, now).Err?
  {
  }

  lemma PublishedHead(l: Ledger, first: Step)
    requires first.CommitStep? && first.expected >= 0 && Next(l, first) != l
    ensures var intent := first.e.body.identity.intent;
      intent in Next(l, first).heads && Next(l, first).heads[intent].revision == first.expected + 1
  {
    CommitPublishes(l, first.e, first.ctx, first.digest, first.expected, first.qid, first.now);
  }

  /** Two writers that saw the same revision: once one of them has published, the other is refused. */
  lemma OneWriterWins(l: Ledger, first: Step, second: Step, steps: seq<Step>)
    requires LedgerInv(l) && forall i :: 0 <= i < |steps| ==> Enabled(steps[i])
    requires first.CommitStep? && second.CommitStep? && first.expected == second.expected >= 0
    requires first.e.body.identity.intent == second.e.body.identity.intent
    requires Next(l, first) != l
    requires Replay(Run(Next(l, first), steps), second.ctx, second.digest) == Ok(None)
    ensures Commit(Run(Next(l, first), steps), second.e, second.ctx, second.digest, second.expected, second.qid, second.now).Err?
  {
    PublishedHead(l, first);
    NextKeepsLedger(l, first);
    RunKeepsLedger(Next(l, first), steps);
    PassedOver(Run(Next(l, first), steps), second.e, second.ctx, second.digest, second.expected, second.qid, second.now);
  }

  ghost predicate AtMostOneWaits(l: Ledger, intent: string) {
    var asked := DialogIn(l.dialogs, intent).asked;
    && (forall i, j :: 0 <= i < |asked| && 0 <= j < |asked| && Live(asked[i]) && Live(asked[j]) ==> i == j)
    && (forall r, s :: Waits(l, (intent, r)) && Waits(l, (intent, s)) ==> r == s)
  }

  predicate Waits(l: Ledger, k: (string, int)) { k in l.outbox && l.outbox[k].Pending? }

  lemma BoundedDialog(d: Dialog, head: int)
    requires DialogOk(d, head)
    ensures d.requests <= MAX_ROUNDS
    ensures forall i, j :: 0 <= i < |d.asked| && 0 <= j < |d.asked| && Live(d.asked[i]) && Live(d.asked[j]) ==> i == j
  {
    forall i, j | 0 <= i < |d.asked| && 0 <= j < |d.asked| && Live(d.asked[i]) && Live(d.asked[j]) ensures i == j {
      OneLive(d, head, i, j);
    }
  }

  lemma Bounded(l: Ledger, intent: string)
    requires LedgerInv(l)
    ensures DialogIn(l.dialogs, intent).requests <= MAX_ROUNDS && AtMostOneWaits(l, intent)
  {
    BoundedDialog(DialogIn(l.dialogs, intent), if intent in l.heads then l.heads[intent].revision else 0);
  }

  /** However long a conversation goes on, the user is asked three times at most, and at most one question and one revision wait. */
  lemma AskedAtMostThrice(steps: seq<Step>, intent: string)
    requires forall i :: 0 <= i < |steps| ==> Enabled(steps[i])
    ensures DialogIn(Run(EMPTY, steps).dialogs, intent).requests <= MAX_ROUNDS
    ensures AtMostOneWaits(Run(EMPTY, steps), intent)
  {
    RunKeepsLedger(EMPTY, steps);
    Bounded(Run(EMPTY, steps), intent);
  }
}
