/**
  Running the queue object through any run of the model leaves it in the state
  the model reaches, so everything proved of runs holds of the program's fields.
 */
module QueueRefinement {
  import opened Basics
  import opened Text
  import opened QueueModel
  import opened QueueRuns
  import opened QueueSteps
  import opened QueueTheorems
  import opened CommandQueues

  /** One step on the object. home is the session of the worker that reports back. */
  method Take(queue: CommandQueue, s: Step, home: string)
    requires queue.Valid()
    modifies queue, queue.lanes.Values
    ensures queue.Valid() && fresh(queue.lanes.Values - old(queue.lanes.Values))
    ensures queue.View() == Apply(old(queue.View()), s, home)
  {
    match s {
      case SubmitStep(id, session, message, mode, now) => var _ := queue.Submit(id, session, message, mode, now);
      case CancelStep(id) => var _ := queue.Cancel(id);
      case AbortStep(session) => var _ := queue.AbortSession(session);
      case ConfigureStep(session, mode, debounceMs, cap, drop) => queue.ConfigureSession(session, mode, debounceMs, cap, drop);
      case SetConfigStep(config) => queue.SetConfig(config);
      case DispatchStep(keys, now) => var _ := queue.DispatcherPass(keys, now);
      case FinishStep(_) => queue.WorkerDone(home);
    }
  }

  /** The last step of a run. */
  lemma {:induction false} RunSnoc(w: World, steps: seq<Step>, i: nat)
    requires IsRun(w, steps) && i < |steps|
    ensures IsRun(w, steps[..i]) && IsRun(w, steps[..i + 1])
    ensures Enabled(After(w, steps[..i]), steps[i]) && After(w, steps[..i + 1]) == Next(After(w, steps[..i]), steps[i])
    decreases i
  {
    if i == 0 {
      assert steps[..1] == [steps[0]] && [steps[0]][1..] == [] && steps[..0] == [];
    } else {
      RunSnoc(Next(w, steps[0]), steps[1..], i - 1);
      assert steps[..i][1..] == steps[1..][..i - 1] && steps[..i + 1][1..] == steps[1..][..i];
    }
  }

  /** The object after a whole run: its fields are the model's, and its limit holds. */
  method Execute(config: QueueConfig, steps: seq<Step>) returns (queue: CommandQueue)
    requires IsRun(Initial(config), steps)
    ensures queue.Valid() && queue.View() == After(Initial(config), steps).q
    ensures (forall i :: 0 <= i < |steps| ==> !steps[i].SetConfigStep?) ==> queue.activeCount <= Max(0, config.maxConcurrent)
  {
    queue := new CommandQueue(config);
    ghost var w0 := Initial(config);
    ghost var w := w0;
    var home: map<string, string> := map[];
    assert steps[..0] == [];
    for i := 0 to |steps|
      invariant fresh(queue) && fresh(queue.lanes.Values) && queue.Valid()
      invariant IsRun(w0, steps[..i]) && w == After(w0, steps[..i]) && queue.View() == w.q && home == w.home
    {
      RunSnoc(w0, steps, i);
      NextIsQueueStep(w, steps[i]);
      HomeOf(w, steps[i]);
      var s := steps[i];
      Take(queue, s, if s.FinishStep? then home[s.id] else "");
      if s.SubmitStep? {
        home := home[s.id := s.session];
      }
      w := Next(w, s);
    }
    assert steps[..|steps|] == steps;
    if forall i :: 0 <= i < |steps| ==> !steps[i].SetConfigStep? {
      ConcurrencyBound(config, steps);
    }
  }

  lemma HomeOfSubmit(w: World, id: string, session: string, message: string, mode: Mode, now: int)
    ensures SubmitWorld(w, id, session, message, mode, now).home == w.home[id := session]
  {
    assert ArriveWorld(w, session, mode).home == w.home;
  }

  /** Only a submission gives a command a home. */
  lemma HomeOf(w: World, s: Step)
    requires Enabled(w, s)
    ensures Next(w, s).home == if s.SubmitStep? then w.home[s.id := s.session] else w.home
  {
    match s {
      case SubmitStep(id, session, message, mode, now) => HomeOfSubmit(w, id, session, message, mode, now);
      case DispatchStep(keys, now) => HomeOfPass(w, keys, now);
      case _ =>
    }
  }

  lemma {:induction false} HomeOfPass(w: World, keys: seq<string>, now: int)
    ensures PassWorld(w, keys, now).home == w.home
  {
    if keys != [] { HomeOfPass(w, keys[..|keys| - 1], now); }
  }
}
