/** The questions an intent asks its user: three rounds, one deadline at the end, never two at once. */
module Clarifications {
  datatype Asking = Open | WaitingUser | Expired | Closed
  datatype Inquiry = Inquiry(id: string, revision: int, rounds: int, state: Asking, expires: int)

  /** The questions of one intent in revision order, and how often the user was asked. */
  datatype Dialog = Dialog(asked: seq<Inquiry>, requests: int)

  const DAY := 86400
  const MAX_ROUNDS := 3

  predicate Live(q: Inquiry) { q.state.Open? || q.state.WaitingUser? }

  function CloseOne(q: Inquiry): Inquiry { if Live(q) then q.(state := Closed) else q }

  function ExpireOne(q: Inquiry, now: int): Inquiry { if Live(q) && q.expires <= now then q.(state := Expired) else q }

  function Close(qs: seq<Inquiry>): seq<Inquiry> {
    seq(|qs|, i requires 0 <= i < |qs| => CloseOne(qs[i]))
  }

  function Expire(d: Dialog, now: int): Dialog {
    d.(asked := seq(|d.asked|, i requires 0 <= i < |d.asked| => ExpireOne(d.asked[i], now)))
  }

  function Rounds(qs: seq<Inquiry>): int { if qs == [] then 0 else qs[|qs| - 1].rounds }

  predicate Paused(qs: seq<Inquiry>) { Rounds(qs) >= MAX_ROUNDS }

  /** Three rounds are asked; later ones only wait until the last deadline. */
  function NextInquiry(qs: seq<Inquiry>, id: string, revision: int, now: int): Inquiry {
    if Paused(qs) && qs != [] then
      var expiry := qs[|qs| - 1].expires;
      Inquiry(id, revision, MAX_ROUNDS, if expiry <= now then Expired else WaitingUser, expiry)
    else
      Inquiry(id, revision, Rounds(qs) + 1, Open, now + DAY)
  }

  /** A new revision closes what is open and, when it needs an answer, asks. */
  function Advance(d: Dialog, asks: bool, id: string, revision: int, now: int): Dialog {
    if asks then Dialog(Close(d.asked) + [NextInquiry(d.asked, id, revision, now)], d.requests + if Paused(d.asked) then 0 else 1)
    else Dialog(Close(d.asked), d.requests)
  }

  /** One question as it may stand while `head` is the newest revision. */
  predicate Plausible(q: Inquiry, head: int) {
    1 <= q.rounds <= MAX_ROUNDS && q.revision <= head && (Live(q) ==> q.revision == head)
  }

  /** Rounds never fall, and once three are used up the deadline stays. */
  predicate Follows(q: Inquiry, next: Inquiry) {
    q.revision < next.revision && q.rounds <= next.rounds && (q.rounds == MAX_ROUNDS ==> next.expires == q.expires)
  }

  ghost predicate DialogOk(d: Dialog, head: int) {
    && (forall i :: 0 <= i < |d.asked| ==> Plausible(d.asked[i], head))
    && (forall i, j :: 0 <= i < j < |d.asked| ==> Follows(d.asked[i], d.asked[j]))
    && d.requests == Rounds(d.asked)
  }

  lemma CloseKeeps(qs: seq<Inquiry>, head: int, requests: int)
    requires DialogOk(Dialog(qs, requests), head)
    ensures DialogOk(Dialog(Close(qs), requests), head + 1)
  {
  }

  lemma AdvanceKeeps(d: Dialog, asks: bool, id: string, revision: int, now: int)
    requires DialogOk(d, revision - 1)
    ensures DialogOk(Advance(d, asks, id, revision, now), revision)
  {
    CloseKeeps(d.asked, revision - 1, d.requests);
    if asks {
      var next, after := NextInquiry(d.asked, id, revision, now), Advance(d, asks, id, revision, now);
      forall i | 0 <= i < |d.asked| ensures Follows(after.asked[i], next) {
        assert Plausible(d.asked[i], revision - 1);
        if i < |d.asked| - 1 {
          assert Follows(d.asked[i], d.asked[|d.asked| - 1]);
        }
      }
    }
  }

  lemma ExpireKeeps(d: Dialog, head: int, now: int)
    requires DialogOk(d, head)
    ensures DialogOk(Expire(d, now), head)
  {
  }

  /** Two live questions are the same one. */
  lemma OneLive(d: Dialog, head: int, i: nat, j: nat)
    requires DialogOk(d, head) && i < |d.asked| && j < |d.asked| && Live(d.asked[i]) && Live(d.asked[j])
    ensures i == j
  {
  }
}
