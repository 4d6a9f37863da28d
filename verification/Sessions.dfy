/**
  Threads that start sessions. A caller scans the incident's sessions and then
  tests the reservation set, both under the lock; registering a session and
  releasing a reservation happen outside it. So the scan can be out of date by
  the time the reservation is granted, and this module says exactly when.
*/
module Sessions {
  import opened Prelude

  type Incident = nat
  type SessionId = nat
  type Pid = nat

  datatype Status = Active | Waiting | Completed | Failed | Cancelled

  /**
    Where a call of start_session stands. `since` is history: the sessions
    registered for the incident after this call's scan; `reserved` tells
    whether the incident was reserved at the scan.
  */
  datatype Call =
    | Calling(incident: Incident)
    | Scanned(incident: Incident, found: bool, reserved: bool, since: set<SessionId>)
    | Reserved(incident: Incident)
    | Listed(incident: Incident, session: SessionId)
    | Registered(incident: Incident, session: SessionId)
    | Started
    | Rejected
    | Aborted

  datatype World = World(
    incidents: map<Incident, seq<SessionId>>, sessions: map<SessionId, Status>,
    running: set<Incident>, lock: Option<Pid>, calls: map<Pid, Call>)

  datatype Step =
    | Enter(pid: Pid, incident: Incident)
    | Scan(pid: Pid)
    | Decide(pid: Pid)
    | List(pid: Pid, session: SessionId)
    | Register(pid: Pid)
    | Release(pid: Pid)
    | Turn(session: SessionId, status: Status)

  predicate NonTerminal(s: Status) { s.Active? || s.Waiting? }

  /** A session that is listed for the incident, known, and not finished. */
  predicate Live(w: World, incident: Incident, s: SessionId) {
    incident in w.incidents && s in w.incidents[incident] && s in w.sessions && NonTerminal(w.sessions[s])
  }

  predicate AnyLive(w: World, incident: Incident)
    requires incident in w.incidents
  {
    exists s | s in w.incidents[incident] :: Live(w, incident, s)
  }

  predicate Holds(c: Call, incident: Incident) { (c.Reserved? || c.Listed? || c.Registered?) && c.incident == incident }

  /** Session identities are never reused. */
  predicate Unused(w: World, s: SessionId) {
    && s !in w.sessions
    && (forall i | i in w.incidents :: s !in w.incidents[i])
  }

  predicate Enabled(w: World, step: Step) {
    match step
    case Enter(pid, incident) => pid !in w.calls && incident in w.incidents
    case Scan(pid) => pid in w.calls && w.calls[pid].Calling? && w.calls[pid].incident in w.incidents && w.lock.None?
    case Decide(pid) => pid in w.calls && w.calls[pid].Scanned?
    case List(pid, s) => pid in w.calls && w.calls[pid].Reserved? && w.calls[pid].incident in w.incidents && Unused(w, s)
    case Register(pid) => pid in w.calls && w.calls[pid].Listed?
    case Release(pid) => pid in w.calls && (w.calls[pid].Reserved? || w.calls[pid].Listed? || w.calls[pid].Registered?)
    case Turn(s, status) =>
      s in w.sessions && NonTerminal(w.sessions[s]) && (status.Waiting? ==> w.sessions[s].Active?) && !status.Active?
  }

  predicate Grants(c: Call, running: set<Incident>) { c.Scanned? && c.incident !in running && !c.found }

  /** A registration is news to every call that has scanned the incident already. */
  function Informed(calls: map<Pid, Call>, incident: Incident, s: SessionId): map<Pid, Call> {
    map p | p in calls :: if calls[p].Scanned? && calls[p].incident == incident then calls[p].(since := calls[p].since + {s}) else calls[p]
  }

  function Next(w: World, step: Step): World
    requires Enabled(w, step)
  {
    match step
    case Enter(pid, incident) => w.(calls := w.calls[pid := Calling(incident)])
    case Scan(pid) =>
      var i := w.calls[pid].incident;
      w.(lock := Some(pid), calls := w.calls[pid := Scanned(i, AnyLive(w, i), i in w.running, {})])
    case Decide(pid) =>
      var c := w.calls[pid];
      if Grants(c, w.running) then w.(lock := None, running := w.running + {c.incident}, calls := w.calls[pid := Reserved(c.incident)])
      else w.(lock := None, calls := w.calls[pid := Rejected])
    case List(pid, s) =>
      var i := w.calls[pid].incident;
      w.(incidents := w.incidents[i := w.incidents[i] + [s]], calls := w.calls[pid := Listed(i, s)])
    case Register(pid) =>
      var c := w.calls[pid];
      w.(sessions := w.sessions[c.session := Active], calls := Informed(w.calls, c.incident, c.session)[pid := Registered(c.incident, c.session)])
    case Release(pid) =>
      w.(running := w.running - {w.calls[pid].incident}, calls := w.calls[pid := if w.calls[pid].Registered? then Started else Aborted])
    case Turn(s, status) => w.(sessions := w.sessions[s := status])
  }

  ghost predicate IsRun(run: seq<World>, steps: seq<Step>) {
    && |run| == |steps| + 1
    && forall k :: 0 <= k < |steps| ==> Enabled(run[k], steps[k]) && run[k + 1] == Next(run[k], steps[k])
  }

  /* ---------- reservations ---------- */

  /** The reservation set is exactly what the calls in progress hold, each incident by one call. */
  ghost predicate ReservationsInv(running: set<Incident>, calls: map<Pid, Call>) {
    && (forall p, i :: p in calls && Holds(calls[p], i) ==> i in running)
    && (forall i :: i in running ==> exists p :: p in calls && Holds(calls[p], i))
    && (forall p, q, i :: p in calls && q in calls && Holds(calls[p], i) && Holds(calls[q], i) ==> p == q)
  }

  lemma SomeoneHolds(w: World, step: Step, i: Incident)
    requires Enabled(w, step) && ReservationsInv(w.running, w.calls) && i in Next(w, step).running
    ensures exists p :: p in Next(w, step).calls && Holds(Next(w, step).calls[p], i)
  {
    var w' := Next(w, step);
    if i in w.running {
      var p :| p in w.calls && Holds(w.calls[p], i);
      assert p in w'.calls && Holds(w'.calls[p], i);
    } else {
      assert step.Decide? && Holds(w'.calls[step.pid], i);
    }
  }

  lemma HeldBefore(w: World, step: Step, p: Pid, i: Incident)
    requires Enabled(w, step) && p in Next(w, step).calls && Holds(Next(w, step).calls[p], i)
    ensures p in w.calls && (Holds(w.calls[p], i) || (step == Decide(p) && i !in w.running))
  {
  }

  lemma NextKeepsReservations(w: World, step: Step)
    requires Enabled(w, step) && ReservationsInv(w.running, w.calls)
    ensures ReservationsInv(Next(w, step).running, Next(w, step).calls)
  {
    var w' := Next(w, step);
    forall i | i in w'.running ensures exists p :: p in w'.calls && Holds(w'.calls[p], i) {
      SomeoneHolds(w, step, i);
    }
    forall p, i | p in w'.calls && Holds(w'.calls[p], i) ensures i in w'.running {
      HeldBefore(w, step, p, i);
    }
    forall p, q, i | p in w'.calls && q in w'.calls && Holds(w'.calls[p], i) && Holds(w'.calls[q], i) ensures p == q {
      HeldBefore(w, step, p, i);
      HeldBefore(w, step, q, i);
    }
  }

  /** A reservation ends only by its own holder: no rejected call ever releases another caller's. */
  lemma OnlyHolderReleases(w: World, step: Step, i: Incident)
    requires Enabled(w, step) && ReservationsInv(w.running, w.calls)
    requires i in w.running && i !in Next(w, step).running
    ensures step.Release? && Holds(w.calls[step.pid], i)
    ensures forall p :: p in w.calls && Holds(w.calls[p], i) ==> p == step.pid
  {
  }

  /* ---------- scans ---------- */

  /** One call at a time is between its scan and its decision. */
  ghost predicate LockInv(lock: Option<Pid>, calls: map<Pid, Call>) {
    forall p :: p in calls && calls[p].Scanned? ==> lock == Some(p)
  }

  /** A scan that found nothing missed at most what was registered since. */
  ghost predicate ScanAccurate(w: World, c: Call) {
    c.Scanned? && !c.found ==> forall s :: Live(w, c.incident, s) ==> s in c.since
  }

  /** Whatever was registered since the scan, someone held the incident at the scan. */
  predicate ScanGuarded(running: set<Incident>, c: Call) {
    c.Scanned? && !c.reserved ==> c.since == {} && c.incident !in running
  }

  /** A session being registered is listed for its own incident alone. */
  ghost predicate ListedOnce(incidents: map<Incident, seq<SessionId>>, c: Call) {
    c.Listed? ==>
      && c.incident in incidents && c.session in incidents[c.incident]
      && forall i :: i in incidents && c.session in incidents[i] ==> i == c.incident
  }

  ghost predicate CallOk(w: World, c: Call) { ScanAccurate(w, c) && ScanGuarded(w.running, c) && ListedOnce(w.incidents, c) }

  ghost predicate Inv(w: World) {
    && ReservationsInv(w.running, w.calls)
    && LockInv(w.lock, w.calls)
    && forall p :: p in w.calls ==> CallOk(w, w.calls[p])
  }

  lemma NextKeepsLock(w: World, step: Step)
    requires Enabled(w, step) && LockInv(w.lock, w.calls)
    ensures LockInv(Next(w, step).lock, Next(w, step).calls)
  {
  }

  /** Only a registration makes a session live. */
  lemma LiveBefore(w: World, step: Step, i: Incident, s: SessionId)
    requires Enabled(w, step) && Live(Next(w, step), i, s)
    requires step.Register? ==> ListedOnce(w.incidents, w.calls[step.pid])
    ensures Live(w, i, s) || (step.Register? && w.calls[step.pid] == Listed(i, s))
  {
  }

  lemma ScanStaysAccurate(w: World, step: Step, p: Pid)
    requires Inv(w) && Enabled(w, step) && p in Next(w, step).calls
    ensures ScanAccurate(Next(w, step), Next(w, step).calls[p])
  {
    var w' := Next(w, step);
    var c := w'.calls[p];
    if c.Scanned? && !c.found {
      assert step != Scan(p) ==> CallOk(w, w.calls[p]);
      forall s | Live(w', c.incident, s) ensures s in c.since {
        assert step.Register? ==> CallOk(w, w.calls[step.pid]);
        LiveBefore(w, step, c.incident, s);
      }
    }
  }

  lemma ScanStaysGuarded(w: World, step: Step, p: Pid)
    requires Inv(w) && Enabled(w, step) && p in Next(w, step).calls
    ensures ScanGuarded(Next(w, step).running, Next(w, step).calls[p])
  {
    var c := Next(w, step).calls[p];
    if c.Scanned? && !c.reserved && step != Scan(p) {
      assert CallOk(w, w.calls[p]);
      assert step.Register? ==> Holds(w.calls[step.pid], w.calls[step.pid].incident);
    }
  }

  lemma ListedStaysOnce(w: World, step: Step, p: Pid)
    requires Inv(w) && Enabled(w, step) && p in Next(w, step).calls
    ensures ListedOnce(Next(w, step).incidents, Next(w, step).calls[p])
  {
    if p in w.calls {
      assert CallOk(w, w.calls[p]);
    }
  }

  lemma NextKeepsInv(w: World, step: Step)
    requires Inv(w) && Enabled(w, step)
    ensures Inv(Next(w, step))
  {
    NextKeepsReservations(w, step);
    NextKeepsLock(w, step);
    forall p | p in Next(w, step).calls ensures CallOk(Next(w, step), Next(w, step).calls[p]) {
      ScanStaysAccurate(w, step, p);
      ScanStaysGuarded(w, step, p);
      ListedStaysOnce(w, step, p);
    }
  }

  lemma {:induction false} RunKeepsInv(run: seq<World>, steps: seq<Step>, k: nat)
    requires IsRun(run, steps) && Inv(run[0]) && k < |run|
    ensures Inv(run[k])
  {
    if k > 0 {
      RunKeepsInv(run, steps, k - 1);
      NextKeepsInv(run[k - 1], steps[k - 1]);
    }
  }

  /* ---------- mutual exclusion ---------- */

  /** The reservation is granted although the incident has a live session. */
  predicate GrantsOverLive(w: World, step: Step) {
    && step.Decide? && Enabled(w, step) && Grants(w.calls[step.pid], w.running)
    && w.calls[step.pid].incident in w.incidents && AnyLive(w, w.calls[step.pid].incident)
  }

  /** ... which happens exactly when a session registered after this call's scan is still live at its decision. */
  lemma GrantsOverLiveIff(w: World, step: Step)
    requires Inv(w) && Enabled(w, step) && step.Decide? && Grants(w.calls[step.pid], w.running)
    ensures GrantsOverLive(w, step) <==> exists s :: s in w.calls[step.pid].since && Live(w, w.calls[step.pid].incident, s)
  {
    assert CallOk(w, w.calls[step.pid]);
  }

  /** It takes another call that held the incident at the scan: had the reservation set been looked at first, the scan would still be right. */
  lemma GrantOverLiveNeedsHolder(w: World, step: Step)
    requires Inv(w) && GrantsOverLive(w, step)
    ensures w.calls[step.pid].reserved
  {
    assert CallOk(w, w.calls[step.pid]);
    GrantsOverLiveIff(w, step);
  }

  ghost predicate AtMostOneLive(w: World) {
    forall i, s, t :: Live(w, i, s) && Live(w, i, t) ==> s == t
  }

  /** At most one live session per incident, and none at all while a call is on its way to register one. */
  ghost predicate Exclusive(w: World) {
    && AtMostOneLive(w)
    && (forall p, s :: p in w.calls && (w.calls[p].Reserved? || w.calls[p].Listed?) ==> !Live(w, w.calls[p].incident, s))
  }

  lemma LiveHeld(w: World, step: Step, p: Pid, s: SessionId)
    requires Inv(w) && Exclusive(w) && Enabled(w, step) && !GrantsOverLive(w, step)
    requires p in Next(w, step).calls && (Next(w, step).calls[p].Reserved? || Next(w, step).calls[p].Listed?)
    ensures !Live(Next(w, step), Next(w, step).calls[p].incident, s)
  {
    var w' := Next(w, step);
    var i := w'.calls[p].incident;
    if Live(w', i, s) {
      assert step.Register? ==> CallOk(w, w.calls[step.pid]);
      LiveBefore(w, step, i, s);
      HeldBefore(w, step, p, i);
      if step.Register? && w.calls[step.pid] == Listed(i, s) {
        assert Holds(w.calls[step.pid], i);
        assert false;
      }
    }
  }

  lemma NextKeepsExclusive(w: World, step: Step)
    requires Inv(w) && Exclusive(w) && Enabled(w, step) && !GrantsOverLive(w, step)
    ensures Exclusive(Next(w, step))
  {
    var w' := Next(w, step);
    forall i, s, t | Live(w', i, s) && Live(w', i, t) ensures s == t {
      assert step.Register? ==> CallOk(w, w.calls[step.pid]);
      LiveBefore(w, step, i, s);
      LiveBefore(w, step, i, t);
    }
    forall p, s | p in w'.calls && (w'.calls[p].Reserved? || w'.calls[p].Listed?) ensures !Live(w', w'.calls[p].incident, s) {
      LiveHeld(w, step, p, s);
    }
  }

  /** Mutual exclusion holds over a whole run in which no reservation is granted on an outdated scan. */
  lemma {:induction false} OneLiveSession(run: seq<World>, steps: seq<Step>, k: nat)
    requires IsRun(run, steps) && Inv(run[0]) && Exclusive(run[0]) && k < |run|
    requires forall n :: 0 <= n < k ==> !GrantsOverLive(run[n], steps[n])
    ensures Exclusive(run[k]) && AtMostOneLive(run[k])
  {
    if k > 0 {
      OneLiveSession(run, steps, k - 1);
      RunKeepsInv(run, steps, k - 1);
      NextKeepsExclusive(run[k - 1], steps[k - 1]);
    }
  }

  /** A call scans an incident that another call holds. */
  predicate ScansReserved(w: World, step: Step) {
    step.Scan? && Enabled(w, step) && w.calls[step.pid].incident in w.running
  }

  ghost predicate NoneScannedReserved(calls: map<Pid, Call>) {
    forall p :: p in calls && calls[p].Scanned? ==> !calls[p].reserved
  }

  lemma {:induction false} ScansUnreserved(run: seq<World>, steps: seq<Step>, k: nat)
    requires IsRun(run, steps) && NoneScannedReserved(run[0].calls) && k < |run|
    requires forall n :: 0 <= n < k ==> !ScansReserved(run[n], steps[n])
    ensures NoneScannedReserved(run[k].calls)
  {
    if k > 0 {
      ScansUnreserved(run, steps, k - 1);
    }
  }

  /**
    A condition that can be read off the run: as long as no call scans an incident
    while another call holds its reservation, no incident ever has two live sessions.
  */
  lemma OneLiveUnlessScannedReserved(run: seq<World>, steps: seq<Step>, k: nat)
    requires IsRun(run, steps) && Inv(run[0]) && Exclusive(run[0]) && NoneScannedReserved(run[0].calls) && k < |run|
    requires forall n :: 0 <= n < k ==> !ScansReserved(run[n], steps[n])
    ensures AtMostOneLive(run[k])
  {
    forall n | 0 <= n < k ensures !GrantsOverLive(run[n], steps[n]) {
      if GrantsOverLive(run[n], steps[n]) {
        RunKeepsInv(run, steps, n);
        GrantOverLiveNeedsHolder(run[n], steps[n]);
        ScansUnreserved(run, steps, n);
        assert false;
      }
    }
    OneLiveSession(run, steps, k);
  }

  /** The one step that gives an incident a second live session: registering where one is live. */
  lemma SecondLiveIff(w: World, step: Step)
    requires Inv(w) && AtMostOneLive(w) && Enabled(w, step)
    ensures !AtMostOneLive(Next(w, step)) <==>
      step.Register? && exists t :: t != w.calls[step.pid].session && Live(w, w.calls[step.pid].incident, t)
  {
    var w' := Next(w, step);
    assert step.Register? ==> CallOk(w, w.calls[step.pid]);
    forall i, s | Live(w', i, s) ensures Live(w, i, s) || (step.Register? && w.calls[step.pid] == Listed(i, s)) {
      LiveBefore(w, step, i, s);
    }
    if step.Register? {
      var c := w.calls[step.pid];
      assert Live(w', c.incident, c.session);
      if t :| t != c.session && Live(w, c.incident, t) {
        assert Live(w', c.incident, t);
      }
    }
  }

  /** After a grant on an outdated scan, listing and registering at once give the incident a second live session. */
  lemma SecondLiveSession(w: World, step: Step, s: SessionId)
    requires Inv(w) && GrantsOverLive(w, step) && Unused(w, s)
    ensures var w1 := Next(w, step);
      Enabled(w1, List(step.pid, s)) &&
      var w2 := Next(w1, List(step.pid, s));
      Enabled(w2, Register(step.pid)) && !AtMostOneLive(Next(w2, Register(step.pid)))
  {
    var i := w.calls[step.pid].incident;
    var t :| t in w.incidents[i] && Live(w, i, t);
    var w2 := Next(Next(w, step), List(step.pid, s));
    var w3 := Next(w2, Register(step.pid));
    assert w2.incidents[i] == w.incidents[i] + [s];
    assert s in w2.incidents[i] && t in w2.incidents[i];
    assert Live(w3, i, s) && Live(w3, i, t) && s != t;
  }

  /* ---------- two calls that both succeed ---------- */

  const FRESH := World(map[7 := []], map[], {}, None, map[])

  const NONE: map<SessionId, Status> := map[]
  const SEEN := Call.Scanned(7, false, true, {})

  const AFTER_ENTER := World(map[7 := []], NONE, {}, None, map[1 := Calling(7)])
  const AFTER_SCAN := World(map[7 := []], NONE, {}, Some(1), map[1 := Scanned(7, false, false, {})])
  const AFTER_DECIDE := World(map[7 := []], NONE, {7}, None, map[1 := Reserved(7)])
  const SECOND_ENTERS := World(map[7 := []], NONE, {7}, None, map[1 := Reserved(7), 2 := Calling(7)])
  const SECOND_SCANS := World(map[7 := []], NONE, {7}, Some(2), map[1 := Reserved(7), 2 := SEEN])
  const FIRST_LISTS := World(map[7 := [100]], NONE, {7}, Some(2), map[1 := Listed(7, 100), 2 := SEEN])
  const FIRST_REGISTERS := World(map[7 := [100]], map[100 := Active], {7}, Some(2), map[1 := Registered(7, 100), 2 := SEEN.(since := {100})])
  const FIRST_RELEASES := World(map[7 := [100]], map[100 := Active], {}, Some(2), map[1 := Started, 2 := SEEN.(since := {100})])

  predicate Leads(w: World, step: Step, w': World) { Enabled(w, step) && Next(w, step) == w' }

  lemma FirstReserves()
    ensures Leads(FRESH, Enter(1, 7), AFTER_ENTER) && Leads(AFTER_ENTER, Scan(1), AFTER_SCAN)
    ensures Leads(AFTER_SCAN, Decide(1), AFTER_DECIDE) && Leads(AFTER_DECIDE, Enter(2, 7), SECOND_ENTERS)
  {
  }

  lemma SecondScansTooEarly()
    ensures Leads(SECOND_ENTERS, Scan(2), SECOND_SCANS) && Leads(SECOND_SCANS, List(1, 100), FIRST_LISTS)
  {
    assert SECOND_SCANS.incidents[7] + [100] == [100];
  }

  lemma FirstRegisters()
    ensures Leads(FIRST_LISTS, Register(1), FIRST_REGISTERS) && Leads(FIRST_REGISTERS, Release(1), FIRST_RELEASES)
  {
    assert SEEN.since + {100} == {100};
  }

  /**
    From an empty incident: the first call reserves; the second scans, finds
    nothing and pauses; the first lists, registers and releases; the second is
    about to be granted the reservation although session 100 is live.
  */
  lemma OutdatedGrant(run: seq<World>, steps: seq<Step>)
    requires steps == [Enter(1, 7), Scan(1), Decide(1), Enter(2, 7), Scan(2), List(1, 100), Register(1), Release(1)]
    requires run == [FRESH, AFTER_ENTER, AFTER_SCAN, AFTER_DECIDE, SECOND_ENTERS, SECOND_SCANS, FIRST_LISTS, FIRST_REGISTERS, FIRST_RELEASES]
    ensures IsRun(run, steps) && Inv(run[0]) && Exclusive(run[0])
    ensures GrantsOverLive(run[8], Decide(2))
  {
    FirstReserves();
    SecondScansTooEarly();
    FirstRegisters();
    assert forall k :: 0 <= k < |steps| ==> Leads(run[k], steps[k], run[k + 1]);
    assert Live(run[8], 7, 100);
  }
}
