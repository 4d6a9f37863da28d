/**
  Adaptive repository checks: the row of one registered repository, the check
  lease on it, and the interval that doubles while nothing changes.
*/
module CheckSchedule {
  import opened Prelude

  type Time = int
  type Token = nat

  datatype CheckHolder = CheckHolder(token: Token, expires: Time)

  datatype Registration = Registration(
    minInterval: int, maxInterval: int, current: Option<int>, observed: Option<string>,
    nextCheck: Option<Time>, holder: Option<CheckHolder>, enabled: bool, blocked: bool,
    reason: Option<string>, lastCheck: Option<Time>, lastCompleted: Option<Time>,
    lastChange: Option<Time>, lastSync: Option<Time>, parser: string, rules: string)

  datatype CheckResult = Success(commit: string) | Failure(code: string)

  /* ---------- the statements ---------- */

  predicate Due(row: Registration, now: Time) {
    && row.enabled && !row.blocked
    && row.nextCheck.Some? && row.nextCheck.value <= now
    && (row.holder.None? || row.holder.value.expires <= now)
  }

  function Claim(row: Registration, now: Time, token: Token, ttl: int): Registration {
    row.(holder := Some(CheckHolder(token, now + ttl)), lastCheck := Some(now))
  }

  predicate Holds(row: Registration, token: Token, now: Time) {
    row.holder.Some? && row.holder.value.token == token && row.holder.value.expires > now
  }

  predicate Blocking(code: string) {
    code in {"auth_failed", "permission_denied", "repository_missing", "ref_missing"}
  }

  predicate Changed(row: Registration, commit: string) {
    row.observed != Some(commit)
  }

  function Min(a: int, b: int): int { if a <= b then a else b }

  /** `current_interval or min_interval`: zero counts as absent. */
  function Effective(row: Registration): int {
    if row.current.Some? && row.current.value != 0 then row.current.value else row.minInterval
  }

  function NextInterval(row: Registration, commit: string): int {
    if Changed(row, commit) || row.current.None? then row.minInterval
    else Min(row.current.value * 2, row.maxInterval)
  }

  /** A success without a commit is an InvalidInputError, and the transaction is rolled back. */
  predicate Acceptable(result: CheckResult) { result.Success? ==> result.commit != "" }

  /** complete_check for a lease that still holds the row. */
  function Complete(row: Registration, result: CheckResult, now: Time): Registration {
    match result
    case Failure(code) =>
      row.(nextCheck := Some(now + Effective(row)), lastCompleted := Some(now), holder := None,
           blocked := Blocking(code), reason := Some(code))
    case Success(commit) =>
      var interval := NextInterval(row, commit);
      row.(observed := Some(commit), current := Some(interval), lastCompleted := Some(now),
           lastChange := if Changed(row, commit) then Some(now) else row.lastChange,
           nextCheck := Some(now + interval), lastSync := Some(now), holder := None,
           blocked := false, reason := None)
  }

  /** register of a known repository: bounds and rules change, the current interval does not. */
  function Reregister(row: Registration, min: int, max: int, parser: string, rules: string): Registration {
    row.(minInterval := min, maxInterval := max, parser := parser, rules := rules)
  }

  function Pause(row: Registration): Registration { row.(enabled := false) }

  function Resume(row: Registration, now: Time): Registration {
    row.(enabled := true, blocked := false, reason := None, nextCheck := Some(now))
  }

  /* ---------- histories of one row between registrations ---------- */

  datatype Event =
    | Claimed(at: Time, token: Token, ttl: int)
    | Completed(at: Time, token: Token, result: CheckResult)
    | Paused
    | Resumed(at: Time)

  /** A claim that is not due, a completion whose lease is lost and a success without a commit change nothing. */
  function Step(row: Registration, e: Event): Registration {
    match e
    case Claimed(at, token, ttl) => if Due(row, at) then Claim(row, at, token, ttl) else row
    case Completed(at, token, result) => if Holds(row, token, at) && Acceptable(result) then Complete(row, result, at) else row
    case Paused => Pause(row)
    case Resumed(at) => Resume(row, at)
  }

  function Replay(row: Registration, events: seq<Event>): Registration {
    if events == [] then row else Step(Replay(row, events[..|events| - 1]), events[|events| - 1])
  }

  /** The successful, lease-holding completions of a history, by the commit they saw. */
  function Observed(row: Registration, events: seq<Event>): seq<string> {
    if events == [] then []
    else
      var before := Replay(row, events[..|events| - 1]);
      var e := events[|events| - 1];
      Observed(row, events[..|events| - 1]) +
      if e.Completed? && e.result.Success? && e.result.commit != "" && Holds(before, e.token, e.at) then [e.result.commit] else []
  }

  function Pow2(n: nat): nat { if n == 0 then 1 else 2 * Pow2(n - 1) }

  lemma DoublingCapped(min: int, max: int, p: nat)
    requires 0 < min && 0 < max && 1 <= p
    ensures Min(Min(min * p, max) * 2, max) == Min(min * (2 * p), max)
  {
    assert min * (2 * p) == 2 * (min * p);
  }

  /**
    After a change, n unchanged successful checks leave the interval at
    min(min_interval * 2^n, max_interval), whatever failures, lost leases, pauses
    and resumes happen in between.
  */
  lemma {:induction false} IntervalLaw(row: Registration, commit: string, events: seq<Event>)
    requires 0 < row.minInterval <= row.maxInterval
    requires row.current == Some(row.minInterval) && row.observed == Some(commit)
    requires forall c :: c in Observed(row, events) ==> c == commit
    ensures var after := Replay(row, events);
      && after.observed == Some(commit)
      && after.minInterval == row.minInterval && after.maxInterval == row.maxInterval
      && after.current == Some(Min(row.minInterval * Pow2(|Observed(row, events)|), row.maxInterval))
  {
    if events != [] {
      var rest, e := events[..|events| - 1], events[|events| - 1];
      assert forall c :: c in Observed(row, rest) ==> c in Observed(row, events);
      IntervalLaw(row, commit, rest);
      var before, n := Replay(row, rest), |Observed(row, rest)|;
      if e.Completed? && e.result.Success? && e.result.commit != "" && Holds(before, e.token, e.at) {
        assert e.result.commit in Observed(row, events);
        PowPositive(n);
        DoublingCapped(row.minInterval, row.maxInterval, Pow2(n));
        assert |Observed(row, events)| == n + 1;
      }
    }
  }

  lemma PowPositive(n: nat)
    ensures 1 <= Pow2(n)
  {
  }

  /** A successful check that sees another commit resets the interval and asks for a build. */
  lemma ChangeResets(row: Registration, at: Time, token: Token, commit: string)
    requires Holds(row, token, at) && Changed(row, commit) && commit != ""
    ensures var after := Step(row, Completed(at, token, Success(commit)));
      after.current == Some(row.minInterval) && after.observed == Some(commit) && after.lastChange == Some(at)
      && !Holds(after, token, at)
  {
  }

  /**
    A lease completes at most once: after a completion that was accepted a second
    one, whatever it says, changes nothing; one that was not changed nothing itself.
  */
  lemma CompletesOnce(row: Registration, token: Token, at: Time, later: Time, first: CheckResult, second: CheckResult)
    requires at <= later
    ensures var once := Step(row, Completed(at, token, first));
      if Acceptable(first) then Step(once, Completed(later, token, second)) == once else once == row
  {
  }

  ghost predicate WithinBounds(row: Registration) {
    row.current.Some? ==> row.minInterval <= row.current.value <= row.maxInterval
  }

  /** Between registrations the interval never leaves its bounds. */
  lemma {:induction false} BoundsKept(row: Registration, events: seq<Event>)
    requires 0 < row.minInterval <= row.maxInterval && WithinBounds(row)
    ensures WithinBounds(Replay(row, events))
    ensures Replay(row, events).minInterval == row.minInterval && Replay(row, events).maxInterval == row.maxInterval
  {
    if events != [] {
      BoundsKept(row, events[..|events| - 1]);
    }
  }

  /** get_registration: the row, unless its constructor refuses the interval. */
  ghost function Answer(row: Registration): Result<Registration, string> {
    if 0 < row.minInterval <= row.maxInterval && WithinBounds(row) then Ok(row) else Err("InvalidInputError")
  }

  /**
    Registering again commits new bounds and keeps the old interval. The answer is
    read afterwards, so it is an error exactly when the old interval does not fit
    the new bounds; the new bounds are stored all the same.
  */
  lemma ReregisterBounds(row: Registration, min: int, max: int, parser: string, rules: string)
    requires 0 < min <= max
    ensures var stored := Reregister(row, min, max, parser, rules);
      && (Answer(stored).Ok? <==> (row.current.Some? ==> min <= row.current.value <= max))
      && (Answer(stored).Ok? ==> Answer(stored).value == stored)
      && stored.current == row.current && stored.minInterval == min && stored.maxInterval == max
  {
  }

  /** A registration doubled to 3600 s is stored but can no longer be read when its maximum is lowered to 1800 s. */
  lemma ReregisterCanBreakBounds() returns (row: Registration)
    ensures Answer(row) == Ok(row) && Answer(Reregister(row, 900, 1800, row.parser, row.rules)).Err?
  {
    row := Registration(1800, 14400, Some(3600), Some("a"), None, None, true, false, None, None, None, None, None, "p", "r");
  }

  /**
    However far outside, one success brings the interval under the maximum. The row
    can be read again exactly when the commit changed, there was no interval yet,
    or twice the old interval reaches the minimum.
  */
  lemma SuccessRestoresMaximum(row: Registration, commit: string, at: Time)
    requires 0 < row.minInterval <= row.maxInterval
    ensures var after := Complete(row, Success(commit), at); after.current.Some? && after.current.value <= row.maxInterval
    ensures Answer(Complete(row, Success(commit), at)).Ok? <==>
      Changed(row, commit) || row.current.None? || row.minInterval <= row.current.value * 2
  {
  }
}
