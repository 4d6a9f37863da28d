/**
  Two dispatchers of one read-only correction that see different active tasks:
  the stop of the first serves for the second as well.
*/
module StopRace {
  import opened Prelude
  import opened LiveRoutes
  import opened Dispatch

  /** The correction, the runs the two dispatchers see as active, and the ids drawn on the way. */
  datatype Scene = Scene(ref: Ref, a: Task, b: Task, draft: Definition, id: string, downstream: string)

  predicate Staged(s: Scene) { s.ref.revision == 1 && LiveRoutes.IsRun(s.a) && LiveRoutes.IsRun(s.b) && s.a != s.b }

  function Correction(s: Scene): Stored { Stored(s.ref, true, true, Some(Answer), ReadStatus, None) }

  function StopRow(s: Scene): Delivery {
    Row(Request(Key(s.ref, Phase.Stop), s.ref, Control, Phase.Stop, Cancel, Some(s.a)), s.id, Completed, s.downstream)
  }

  /** A world after publication: before and after the stop, before and after the receipt is saved. */
  function At(s: Scene, stopped: bool, saved: bool, procs: Procs): World {
    World(map[s.ref.intent := 1], map[(s.ref.intent, 1) := Correction(s)],
          Routes(if stopped then map[Key(s.ref, Phase.Stop) := StopRow(s)] else map[], map[], map[]),
          if saved then map[(s.ref.intent, 1, Phase.Stop) := StopRow(s).receipt] else map[],
          procs)
  }

  function First(s: Scene, pc: Pc): Proc { Proc(Correction(s), Some(s.a), pc) }

  function Second(s: Scene, pc: Pc): Procs { map[1 := First(s, Done(Raised)), 2 := Proc(Correction(s), Some(s.b), pc)] }

  predicate Leads(w: World, step: Dispatch.Step, w': World) { Enabled(w, step) && Dispatch.Next(w, step) == w' }

  lemma FirstEnters(s: Scene)
    requires Staged(s)
    ensures Leads(EMPTY, Publish(Correction(s)), At(s, false, false, map[]))
    ensures Leads(At(s, false, false, map[]), Start(1, s.ref.intent, 1), At(s, false, false, map[1 := Proc(Correction(s), None, Started)]))
    ensures Leads(At(s, false, false, map[1 := Proc(Correction(s), None, Started)]), Enter(1, Some(s.a)), At(s, false, false, map[1 := First(s, Entering(Phase.Stop))]))
  {
  }

  lemma FirstLooks(s: Scene)
    requires Staged(s)
    ensures Leads(At(s, false, false, map[1 := First(s, Entering(Phase.Stop))]), Check(1), At(s, false, false, map[1 := First(s, Checked(Phase.Stop, None))]))
    ensures Leads(At(s, false, false, map[1 := First(s, Checked(Phase.Stop, None))]), LookUp(1, "running"), At(s, false, false, map[1 := First(s, Submitting(Phase.Stop))]))
    ensures Leads(At(s, false, false, map[1 := First(s, Submitting(Phase.Stop))]), Submit(1, "running"), At(s, false, false, map[1 := First(s, Accepting(Phase.Stop))]))
  {
  }

  lemma FirstStops(s: Scene)
    requires Staged(s)
    ensures Leads(At(s, false, false, map[1 := First(s, Accepting(Phase.Stop))]), AcceptNow(1, s.draft, s.downstream, s.id, "completed"),
                  At(s, true, false, map[1 := First(s, Holding(Phase.Stop, StopRow(s).receipt))]))
    ensures Leads(At(s, true, false, map[1 := First(s, Holding(Phase.Stop, StopRow(s).receipt))]), Save(1),
                  At(s, true, true, map[1 := First(s, Saved(Phase.Stop, StopRow(s).receipt))]))
    ensures Leads(At(s, true, true, map[1 := First(s, Saved(Phase.Stop, StopRow(s).receipt))]), Crash(1),
                  At(s, true, true, map[1 := First(s, Done(Raised))]))
  {
  }

  lemma SecondEnters(s: Scene)
    requires Staged(s)
    ensures var started := map[1 := First(s, Done(Raised)), 2 := Proc(Correction(s), None, Started)];
      && Leads(At(s, true, true, map[1 := First(s, Done(Raised))]), Start(2, s.ref.intent, 1), At(s, true, true, started))
      && Leads(At(s, true, true, started), Enter(2, Some(s.b)), At(s, true, true, Second(s, Entering(Phase.Stop))))
  {
  }

  lemma SecondFindsTheStop(s: Scene)
    requires Staged(s)
    ensures Leads(At(s, true, true, Second(s, Entering(Phase.Stop))), Check(2), At(s, true, true, Second(s, Checked(Phase.Stop, Some(StopRow(s).receipt)))))
    ensures Leads(At(s, true, true, Second(s, Checked(Phase.Stop, Some(StopRow(s).receipt)))), LookUp(2, "running"),
                  At(s, true, true, Second(s, Holding(Phase.Stop, StopRow(s).receipt))))
  {
  }

  lemma SecondGoesOn(s: Scene)
    requires Staged(s)
    ensures Leads(At(s, true, true, Second(s, Holding(Phase.Stop, StopRow(s).receipt))), Save(2), At(s, true, true, Second(s, Saved(Phase.Stop, StopRow(s).receipt))))
    ensures Leads(At(s, true, true, Second(s, Saved(Phase.Stop, StopRow(s).receipt))), Return(2), At(s, true, true, Second(s, Entering(Main))))
    ensures Leads(At(s, true, true, Second(s, Entering(Main))), Check(2), At(s, true, true, Second(s, Checked(Main, None))))
  {
  }

  lemma SecondReachesMain(s: Scene)
    requires Staged(s)
    ensures Leads(At(s, true, true, Second(s, Checked(Main, None))), LookUp(2, "running"), At(s, true, true, Second(s, Submitting(Main))))
    ensures Leads(At(s, true, true, Second(s, Submitting(Main))), Submit(2, "running"), At(s, true, true, Second(s, Accepting(Main))))
  {
  }

  /** w' is reached from w by some run. */
  ghost predicate Reaches(w: World, w': World) {
    exists run, steps :: Dispatch.IsRun(run, steps) && run[0] == w && run[|steps|] == w'
  }

  lemma ReachesItself(w: World)
    ensures Reaches(w, w)
  {
    assert Dispatch.IsRun([w], []) && [w][0] == w;
  }

  lemma Onward(w: World, v: World, step: Dispatch.Step, v': World)
    requires Reaches(w, v) && Leads(v, step, v')
    ensures Reaches(w, v')
  {
    var run, steps :| Dispatch.IsRun(run, steps) && run[0] == w && run[|steps|] == v;
    var run', steps' := run + [v'], steps + [step];
    forall i | 0 <= i < |steps'| ensures StepAt(run', steps', i) {
      if i < |steps| {
        assert StepAt(run, steps, i);
        assert run'[i] == run[i] && run'[i + 1] == run[i + 1] && steps'[i] == steps[i];
      }
    }
    assert Dispatch.IsRun(run', steps') && run'[0] == w && run'[|steps'|] == v';
  }

  lemma FirstReachesAccept(s: Scene)
    requires Staged(s)
    ensures Reaches(EMPTY, At(s, false, false, map[1 := First(s, Accepting(Phase.Stop))]))
  {
    FirstEnters(s);
    FirstLooks(s);
    ReachesItself(EMPTY);
    Onward(EMPTY, EMPTY, Publish(Correction(s)), At(s, false, false, map[]));
    Onward(EMPTY, At(s, false, false, map[]), Start(1, s.ref.intent, 1), At(s, false, false, map[1 := Proc(Correction(s), None, Started)]));
    Onward(EMPTY, At(s, false, false, map[1 := Proc(Correction(s), None, Started)]), Enter(1, Some(s.a)), At(s, false, false, map[1 := First(s, Entering(Phase.Stop))]));
    Onward(EMPTY, At(s, false, false, map[1 := First(s, Entering(Phase.Stop))]), Check(1), At(s, false, false, map[1 := First(s, Checked(Phase.Stop, None))]));
    Onward(EMPTY, At(s, false, false, map[1 := First(s, Checked(Phase.Stop, None))]), LookUp(1, "running"), At(s, false, false, map[1 := First(s, Submitting(Phase.Stop))]));
    Onward(EMPTY, At(s, false, false, map[1 := First(s, Submitting(Phase.Stop))]), Submit(1, "running"), At(s, false, false, map[1 := First(s, Accepting(Phase.Stop))]));
  }

  lemma FirstCrashes(s: Scene)
    requires Staged(s)
    ensures Reaches(EMPTY, At(s, true, true, Second(s, Entering(Phase.Stop))))
  {
    FirstReachesAccept(s);
    FirstStops(s);
    SecondEnters(s);
    var rc := StopRow(s).receipt;
    var started := map[1 := First(s, Done(Raised)), 2 := Proc(Correction(s), None, Started)];
    Onward(EMPTY, At(s, false, false, map[1 := First(s, Accepting(Phase.Stop))]), AcceptNow(1, s.draft, s.downstream, s.id, "completed"), At(s, true, false, map[1 := First(s, Holding(Phase.Stop, rc))]));
    Onward(EMPTY, At(s, true, false, map[1 := First(s, Holding(Phase.Stop, rc))]), Save(1), At(s, true, true, map[1 := First(s, Saved(Phase.Stop, rc))]));
    Onward(EMPTY, At(s, true, true, map[1 := First(s, Saved(Phase.Stop, rc))]), Crash(1), At(s, true, true, map[1 := First(s, Done(Raised))]));
    Onward(EMPTY, At(s, true, true, map[1 := First(s, Done(Raised))]), Start(2, s.ref.intent, 1), At(s, true, true, started));
    Onward(EMPTY, At(s, true, true, started), Enter(2, Some(s.b)), At(s, true, true, Second(s, Entering(Phase.Stop))));
  }

  /** Where the second dispatcher stands ready to deliver main: it saw run b, and only run a was ever asked to stop. */
  function Ready(s: Scene): World { At(s, true, true, Second(s, Accepting(Main))) }

  lemma SecondGetsThere(s: Scene)
    requires Staged(s)
    ensures Reaches(EMPTY, Ready(s))
  {
    FirstCrashes(s);
    SecondFindsTheStop(s);
    SecondGoesOn(s);
    SecondReachesMain(s);
    var rc := StopRow(s).receipt;
    Onward(EMPTY, At(s, true, true, Second(s, Entering(Phase.Stop))), Check(2), At(s, true, true, Second(s, Checked(Phase.Stop, Some(rc)))));
    Onward(EMPTY, At(s, true, true, Second(s, Checked(Phase.Stop, Some(rc)))), LookUp(2, "running"), At(s, true, true, Second(s, Holding(Phase.Stop, rc))));
    Onward(EMPTY, At(s, true, true, Second(s, Holding(Phase.Stop, rc))), Save(2), At(s, true, true, Second(s, Saved(Phase.Stop, rc))));
    Onward(EMPTY, At(s, true, true, Second(s, Saved(Phase.Stop, rc))), Return(2), At(s, true, true, Second(s, Entering(Main))));
    Onward(EMPTY, At(s, true, true, Second(s, Entering(Main))), Check(2), At(s, true, true, Second(s, Checked(Main, None))));
    Onward(EMPTY, At(s, true, true, Second(s, Checked(Main, None))), LookUp(2, "running"), At(s, true, true, Second(s, Submitting(Main))));
    Onward(EMPTY, At(s, true, true, Second(s, Submitting(Main))), Submit(2, "running"), Ready(s));
  }

  /**
    The receipt is keyed by revision and step alone, so a completed stop of
    another run lets the second dispatcher deliver main while the run it saw was
    never stopped.
  */
  lemma OtherTaskStopped(s: Scene)
    requires Staged(s)
    ensures var w, accept := Ready(s), AcceptNow(2, s.draft, s.downstream, s.id, "running");
      && Reaches(EMPTY, w) && Enabled(w, accept)
      && w.procs[2].stop == Some(s.b) && w.routes.deliveries[Key(s.ref, Phase.Stop)].request.task == Some(s.a)
      && Key(s.ref, Main) in Dispatch.Next(w, accept).routes.deliveries
      && forall key :: key in Dispatch.Next(w, accept).routes.deliveries ==> Dispatch.Next(w, accept).routes.deliveries[key].request.task != Some(s.b)
  {
    SecondGetsThere(s);
  }
}
