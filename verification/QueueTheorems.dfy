/**
  What every run of the command queue guarantees, and where the promise of one
  command at a time per session ends.
 */
module QueueTheorems {
  import opened Basics
  import opened Text
  import opened QueueSummary
  import opened QueueModel
  import opened QueueRuns
  import opened QueueSteps

  // ---------- the concurrency limit ----------

  function ActiveLanes(q: Queue): set<string> { set k | k in q.lanes && q.lanes[k].active.Some? }

  lemma {:induction false} InjectionSize(keys: set<string>, image: set<string>, f: map<string, string>)
    requires keys <= f.Keys && forall k :: k in keys ==> f[k] in image
    requires forall x, y :: x in keys && y in keys && f[x] == f[y] ==> x == y
    ensures |keys| <= |image|
    decreases keys
  {
    if keys != {} {
      var k :| k in keys;
      InjectionSize(keys - {k}, image - {f[k]}, f);
    }
  }

  lemma {:induction false} PeakOfFixedConfig(w: World, steps: seq<Step>)
    requires IsRun(w, steps) && forall i :: 0 <= i < |steps| ==> !steps[i].SetConfigStep?
    ensures After(w, steps).peak == w.peak
    decreases |steps|
  {
    if steps != [] {
      assert !steps[0].SetConfigStep?;
      if steps[0].DispatchStep? { PeakOfPass(w, steps[0].keys, steps[0].now); }
      PeakOfFixedConfig(Next(w, steps[0]), steps[1..]);
    }
  }

  lemma {:induction false} PeakOfPass(w: World, keys: seq<string>, now: int)
    ensures PassWorld(w, keys, now).peak == w.peak
  {
    if keys != [] { PeakOfPass(w, keys[..|keys| - 1], now); }
  }

  /**
    In every interleaving, interrupts and aborts included, active_count_ is the
    number of commands handed out and not reported back, no lane is active
    without one of them, and the configured limit is never passed.
   */
  lemma ConcurrencyBound(config: QueueConfig, steps: seq<Step>)
    requires IsRun(Initial(config), steps) && forall i :: 0 <= i < |steps| ==> !steps[i].SetConfigStep?
    ensures var w := After(Initial(config), steps);
            |ActiveLanes(w.q)| <= w.q.activeCount == |RunningIds(w.fate)| <= Max(0, config.maxConcurrent)
  {
    var w := After(Initial(config), steps);
    ReachableOk(config, steps);
    PeakOfFixedConfig(Initial(config), steps);
    var active := map k | k in ActiveLanes(w.q) :: w.q.lanes[k].active.value.id;
    forall k | k in ActiveLanes(w.q) ensures active[k] in RunningIds(w.fate) && active[k] in w.home && w.home[active[k]] == k {
      assert LaneOk(w, k, w.q.lanes[k]);
    }
    InjectionSize(ActiveLanes(w.q), RunningIds(w.fate), active);
  }

  // ---------- order and exclusion ----------

  /** Commands of one session go to workers in the order they came in, each once. */
  lemma DispatchedInOrder(config: QueueConfig, steps: seq<Step>, i: nat, j: nat)
    requires IsRun(Initial(config), steps)
    requires var w := After(Initial(config), steps);
             i < j < |w.dispatched| && w.dispatched[i] in w.home && w.dispatched[j] in w.home &&
             w.home[w.dispatched[i]] == w.home[w.dispatched[j]]
    ensures var w := After(Initial(config), steps);
            && w.dispatched[i] in w.ticket && w.dispatched[j] in w.ticket
            && w.ticket[w.dispatched[i]] < w.ticket[w.dispatched[j]] && w.dispatched[i] != w.dispatched[j]
  {
    ReachableOk(config, steps);
    assert LoggedInOrder(After(Initial(config), steps), i, j);
  }

  /** This step lets go of a command of session k that is active. */
  predicate Interrupts(q: Queue, s: Step, k: string) {
    match s
    case SubmitStep(_, session, _, mode, _) =>
      var lane := LaneOf(q, k);
      session == k && lane.active.Some? && (mode.Interrupt? || (mode.Collect? && lane.mode.Interrupt?))
    case AbortStep(session) => session == k && LaneOf(q, k).active.Some?
    case _ => false
  }

  /** No step of the run lets go of an active command of session k. */
  predicate Undisturbed(w: World, steps: seq<Step>, k: string)
    requires IsRun(w, steps)
    decreases |steps|
  {
    steps == [] || (!Interrupts(w.q, steps[0], k) && Undisturbed(Next(w, steps[0]), steps[1..], k))
  }

  lemma {:induction false} PassInterruptsNone(w: World, keys: seq<string>, now: int)
    ensures PassWorld(w, keys, now).interrupted == w.interrupted
  {
    if keys != [] { PassInterruptsNone(w, keys[..|keys| - 1], now); }
  }

  lemma FlagOfStep(w: World, s: Step, k: string)
    requires Enabled(w, s)
    ensures k in Next(w, s).interrupted <==> k in w.interrupted || Interrupts(w.q, s, k)
  {
    if s.DispatchStep? { PassInterruptsNone(w, s.keys, s.now); }
  }

  /** The flag of a session says whether its runs were disturbed. */
  lemma {:induction false} FlagOfRun(w: World, steps: seq<Step>, k: string)
    requires IsRun(w, steps) && k !in w.interrupted
    ensures k !in After(w, steps).interrupted <== Undisturbed(w, steps, k)
    decreases |steps|
  {
    if steps != [] && Undisturbed(w, steps, k) {
      FlagOfStep(w, steps[0], k);
      FlagOfRun(Next(w, steps[0]), steps[1..], k);
    }
  }

  /**
    In every run without an abort of session k, or an interrupting submission to
    it, that finds a command active: at most one of its commands runs, and it is
    the lane's active one.
   */
  lemma OneAtATime(config: QueueConfig, steps: seq<Step>, k: string, x: string, y: string)
    requires IsRun(Initial(config), steps) && Undisturbed(Initial(config), steps, k)
    requires var w := After(Initial(config), steps);
             x in RunningIds(w.fate) && y in RunningIds(w.fate) && x in w.home && y in w.home && w.home[x] == k == w.home[y]
    ensures x == y
    ensures var w := After(Initial(config), steps);
            k in w.q.lanes && w.q.lanes[k].active.Some? && w.q.lanes[k].active.value.id == x
  {
    ReachableOk(config, steps);
    FlagOfRun(Initial(config), steps, k);
    var w := After(Initial(config), steps);
    assert Owned(w, x) && Owned(w, y);
  }

  /** A running command of session k that its lane does not know of. */
  ghost predicate HasOrphan(w: World, k: string) {
    exists id :: IsOrphan(w, k, id)
  }

  predicate IsOrphan(w: World, k: string, id: string) {
    id in RunningIds(w.fate) && id in w.home && w.home[id] == k &&
    !(k in w.q.lanes && w.q.lanes[k].active.Some? && w.q.lanes[k].active.value.id == id)
  }

  /** Aborting a session lets a worker run on unseen exactly when the lane had an active command. */
  lemma AbortOrphans(w: World, k: string)
    requires Inv(w) && k !in w.interrupted
    ensures HasOrphan(AbortWorld(w, k), k) <==> k in w.q.lanes && w.q.lanes[k].active.Some?
  {
    if k in w.q.lanes && w.q.lanes[k].active.Some? {
      AbortLeavesOrphan(w, k);
    } else {
      AbortOk(w, k);
      NoOrphan(AbortWorld(w, k), k);
    }
  }

  lemma AbortLeavesOrphan(w: World, k: string)
    requires Inv(w) && k in w.q.lanes && w.q.lanes[k].active.Some?
    ensures HasOrphan(AbortWorld(w, k), k)
  {
    var id := w.q.lanes[k].active.value.id;
    assert LaneOk(w, k, w.q.lanes[k]);
    AbortQueue(w, k);
    InterruptKeepsRunning(w, k, {id}, id);
    assert IsOrphan(AbortWorld(w, k), k, id);
  }

  lemma NoOrphan(w: World, k: string)
    requires OwnedOk(w) && k !in w.interrupted
    ensures !HasOrphan(w, k)
  {
    forall id ensures !IsOrphan(w, k, id) {
      assert Owned(w, id);
    }
  }

  /** A submission lets one run on unseen exactly when it interrupts and finds an active command. */
  lemma SubmitOrphans(w: World, id: string, k: string, message: string, mode: Mode, now: int)
    requires Inv(w) && k !in w.interrupted && id !in w.fate
    ensures HasOrphan(SubmitWorld(w, id, k, message, mode, now), k) <==>
              LaneOf(w.q, k).active.Some? && (mode.Interrupt? || (mode.Collect? && LaneOf(w.q, k).mode.Interrupt?))
  {
    SubmitOk(w, id, k, message, mode, now);
    var s := SubmitStep(id, k, message, mode, now);
    FlagOfStep(w, s, k);
    if Interrupts(w.q, s, k) {
      SubmitLeavesOrphan(w, id, k, message, mode, now);
    } else {
      NoOrphan(SubmitWorld(w, id, k, message, mode, now), k);
    }
  }

  /** Command x of session k runs, and the lane has nothing active. */
  predicate Unseen(w: World, k: string, x: string) {
    x in w.fate && w.fate[x].Running? && x in w.home && w.home[x] == k && k in w.q.lanes && w.q.lanes[k].active == None
  }

  lemma SubmitLeavesOrphan(w: World, id: string, k: string, message: string, mode: Mode, now: int)
    requires Inv(w) && id !in w.fate && EffectiveMode(LaneOf(w.q, k), mode).Interrupt? && LaneOf(w.q, k).active.Some?
    ensures HasOrphan(SubmitWorld(w, id, k, message, mode, now), k)
  {
    var lane := LaneOf(w.q, k);
    var x := lane.active.value.id;
    var arrived := ArriveUnseen(w, k, mode);
    var c := Command(id, k, message, EffectiveMode(lane, mode), now, "");
    QueuedOrphan(arrived, c, w.plain && !IsSummary(message), x);
  }

  lemma QueuedOrphan(w: World, c: Command, plain: bool, x: string)
    requires Inv(w) && Unseen(w, c.session, x) && c.id !in w.fate && (plain ==> w.plain)
    ensures var queued := EnqueueWorld(w, c).(plain := plain);
            && c.session in queued.q.lanes && queued.q.lanes[c.session].pending != []
            && HasOrphan(queued, c.session) && HasOrphan(OverflowWorld(queued, c.session), c.session)
  {
    EnqueueUnseen(w, c, plain, x);
    EnqueueStepOk(w, c, plain);
    var queued := EnqueueWorld(w, c).(plain := plain);
    OverflowUnseen(queued, c.session, x);
    UnseenIsOrphan(queued, c.session, x);
    UnseenIsOrphan(OverflowWorld(queued, c.session), c.session, x);
  }

  lemma UnseenIsOrphan(w: World, k: string, x: string)
    requires Unseen(w, k, x)
    ensures HasOrphan(w, k)
  {
    assert IsOrphan(w, k, x);
  }

  lemma ArriveUnseen(w: World, k: string, mode: Mode) returns (arrived: World)
    requires Inv(w) && EffectiveMode(LaneOf(w.q, k), mode).Interrupt? && LaneOf(w.q, k).active.Some?
    ensures arrived == ArriveWorld(w, k, mode) && Inv(arrived) && arrived.fate.Keys == w.fate.Keys && arrived.plain == w.plain
    ensures Unseen(arrived, k, LaneOf(w.q, k).active.value.id)
  {
    ArriveOk(w, k, mode);
    arrived := ArriveWorld(w, k, mode);
    var lane := LaneOf(w.q, k);
    assert LaneOk(w, k, lane);
    RelaneOk(w, k, lane);
    InterruptKeepsRunning(RelaneWorld(w, k, lane), k, {}, lane.active.value.id);
  }

  lemma EnqueueUnseen(w: World, c: Command, plain: bool, x: string)
    requires Unseen(w, c.session, x) && c.id !in w.fate
    ensures var queued := EnqueueWorld(w, c).(plain := plain);
            Unseen(queued, c.session, x) && queued.q.lanes[c.session].pending != []
  {
  }

  lemma OverflowUnseen(w: World, k: string, x: string)
    requires Inv(w) && Unseen(w, k, x) && w.q.lanes[k].pending != []
    ensures Unseen(OverflowWorld(w, k), k, x)
  {
    OverflowKeepsRunning(w, k, x);
  }

  lemma InterruptKeepsRunning(w: World, k: string, unindexed: set<string>, x: string)
    requires Inv(w) && k in w.q.lanes && x in w.fate && w.fate[x].Running? && x in w.home
    ensures var w' := InterruptWorld(w, k, unindexed);
            x in w'.fate && w'.fate[x].Running? && x in w'.home && w'.home[x] == w.home[x] && w'.q.lanes[k].active == None
  {
    var n := |w.q.lanes[k].pending|;
    GoneWereWaiting(w, k, 0, if n > 1 then n - 1 else 0);
  }

  lemma OverflowKeepsRunning(w: World, k: string, x: string)
    requires Inv(w) && k in w.q.lanes && w.q.lanes[k].pending != [] && x in w.fate && w.fate[x].Running? && x in w.home
    ensures var w' := OverflowWorld(w, k);
            x in w'.fate && w'.fate[x].Running? && w'.home == w.home && w'.q.lanes[k].active == w.q.lanes[k].active
  {
    var lane := w.q.lanes[k];
    var (kept, gone) := Overflow(lane.pending, lane.cap, lane.drop);
    OverflowIsCut(lane.pending, lane.cap, lane.drop);
    var a, b := OverflowSpan(kept, gone, lane.pending, lane.cap, lane.drop);
    GoneWereWaiting(w, k, a, b);
  }

  // ---------- conservation ----------

  /** A waiting command sits at one place of one lane, its own; every other command sits in none. */
  lemma PendingExactly(w: World, id: string, k: string, i: nat)
    requires Inv(w) && k in w.q.lanes && i < |w.q.lanes[k].pending| && w.q.lanes[k].pending[i].id == id
    ensures id in w.fate && w.fate[id].Waiting? && id in w.home && w.home[id] == k
    ensures forall x, j :: x in w.q.lanes && 0 <= j < |w.q.lanes[x].pending| && w.q.lanes[x].pending[j].id == id ==> x == k && j == i
  {
    assert LaneOk(w, k, w.q.lanes[k]) && PendingOk(w, k, w.q.lanes[k].pending[i]);
    forall x, j | x in w.q.lanes && 0 <= j < |w.q.lanes[x].pending| && w.q.lanes[x].pending[j].id == id
      ensures x == k && j == i
    {
      assert LaneOk(w, x, w.q.lanes[x]) && PendingOk(w, x, w.q.lanes[x].pending[j]);
      OnlyAt(w.ticket, Ids(w.q.lanes[k].pending), i);
    }
  }

  /**
    Every command ever submitted waits at a place of a lane, or was handed to a
    worker and is in the log, or ended without being handed out; those in the
    hands of a worker are what active_count_ counts, and none of them is pending.
   */
  lemma Conservation(config: QueueConfig, steps: seq<Step>, id: string)
    requires IsRun(Initial(config), steps) && id in After(Initial(config), steps).fate
    ensures var w := After(Initial(config), steps);
            && (w.fate[id].Waiting? <==> exists k, i :: k in w.q.lanes && 0 <= i < |w.q.lanes[k].pending| && w.q.lanes[k].pending[i].id == id)
            && (WasDispatched(w.fate[id]) <==> id in w.dispatched)
            && (w.fate[id].Running? ==> id in w.dispatched && forall k, i :: k in w.q.lanes && 0 <= i < |w.q.lanes[k].pending| ==> w.q.lanes[k].pending[i].id != id)
            && (IsOver(w.fate[id]) && id in w.dispatched ==> w.fate[id].Finished?)
            && w.q.activeCount == |set x | x in w.fate && w.fate[x].Running?|
  {
    ReachableOk(config, steps);
    var w := After(Initial(config), steps);
    if w.fate[id].Waiting? {
      assert Waits(w, id);
      var k := w.home[id];
      var i :| 0 <= i < |w.q.lanes[k].pending| && Ids(w.q.lanes[k].pending)[i] == id;
      assert w.q.lanes[k].pending[i].id == id;
    } else if k, i :| k in w.q.lanes && 0 <= i < |w.q.lanes[k].pending| && w.q.lanes[k].pending[i].id == id {
      PendingExactly(w, id, k, i);
    }
  }

  lemma WaitingIsIndexed(w: World, id: string)
    requires Inv(w) && id in w.fate && w.fate[id].Waiting?
    ensures id in w.q.index
  {
    assert Waits(w, id);
    var k := w.home[id];
    var i :| 0 <= i < |w.q.lanes[k].pending| && Ids(w.q.lanes[k].pending)[i] == id;
    assert LaneOk(w, k, w.q.lanes[k]) && PendingOk(w, k, w.q.lanes[k].pending[i]);
  }

  /** Cancel succeeds exactly on the commands that wait. */
  lemma CancelExact(w: World, id: string)
    requires Inv(w)
    ensures Cancel(w.q, id).1 <==> id in w.fate && w.fate[id].Waiting?
  {
    if id in w.fate && w.fate[id].Waiting? {
      WaitingIsIndexed(w, id);
    }
    if id in w.q.index {
      NotWaiting(w, id);
    }
  }

  lemma CancelMarks(w: World, id: string)
    requires id in w.fate && Cancel(w.q, id).1
    ensures id in CancelWorld(w, id).fate && CancelWorld(w, id).fate[id] == Cancelled
  {
    var p := LaneOf(w.q, w.q.index[id]).pending;
    var i := Position(p, id);
    assert Ids(p)[i..i + 1] == [id];
  }

  /** What ended without running is never handed out. */
  lemma OverStaysOver(w: World, id: string, steps: seq<Step>)
    requires Inv(w) && id in w.fate && IsOver(w.fate[id]) && !w.fate[id].Finished? && IsRun(w, steps)
    ensures id !in After(w, steps).dispatched
  {
    RunOk(w, steps);
    var end := After(w, steps);
    assert id in end.fate && FateMoves(w.fate[id], end.fate[id]);
    assert forall j :: 0 <= j < |end.dispatched| ==> WasDispatched(end.fate[end.dispatched[j]]);
  }

  /** A command cancelled with success is never handed to a worker, whatever comes after. */
  lemma CancelledForGood(w: World, id: string, steps: seq<Step>)
    requires Inv(w) && Cancel(w.q, id).1 && IsRun(CancelWorld(w, id), steps)
    ensures id !in After(CancelWorld(w, id), steps).dispatched
  {
    CancelOk(w, id);
    CancelExact(w, id);
    CancelMarks(w, id);
    OverStaysOver(CancelWorld(w, id), id, steps);
  }

  // ---------- where one at a time ends ----------

  lemma MarkNothing(fate: map<string, Fate>, f: Fate)
    ensures Mark(fate, {}, f) == fate
  {
  }

  lemma ArriveAlone(w: World, k: string, mode: Mode)
    requires LaneOf(w.q, k).pending == []
    ensures var w' := ArriveWorld(w, k, mode);
            w'.fate == w.fate && w'.home == w.home && k in w'.q.lanes && w'.q.lanes[k] == Arrival(LaneOf(w.q, k), mode)
  {
    var found := RelaneWorld(w, k, LaneOf(w.q, k));
    assert Gone(found, k, 0, 0) == {};
    MarkNothing(w.fate, Flushed);
  }

  lemma OverflowAlone(w: World, k: string)
    requires k in w.q.lanes && |w.q.lanes[k].pending| == 1 && (w.q.lanes[k].cap >= 1 || w.q.lanes[k].drop.Summarize?)
    ensures OverflowWorld(w, k).fate == w.fate && OverflowWorld(w, k).q.lanes == w.q.lanes
  {
    var lane := w.q.lanes[k];
    assert Overflow(lane.pending, lane.cap, lane.drop) == (lane.pending, []);
    MarkNothing(w.fate, Dropped);
    MarkNothing(w.fate, Condensed(lane.pending[0].id));
  }

  /** A message submitted to an empty lane is all that is in it. */
  lemma SubmitAlone(w: World, id: string, k: string, message: string, mode: Mode, now: int)
    requires var lane := LaneOf(w.q, k); lane.pending == [] && (lane.cap >= 1 || lane.drop.Summarize?)
    ensures var lane := LaneOf(w.q, k);
            var w' := SubmitWorld(w, id, k, message, mode, now);
            && k in w'.q.lanes
            && w'.q.lanes[k] == Arrival(lane, mode).(pending := [Command(id, k, message, EffectiveMode(lane, mode), now, "")])
            && w'.fate == w.fate[id := Waiting] && w'.home == w.home[id := k]
            && w'.q.config == w.q.config && w'.q.activeCount == w.q.activeCount
  {
    ArriveAlone(w, k, mode);
    ArriveQueue(w, k, mode);
    var lane := LaneOf(w.q, k);
    var c := Command(id, k, message, EffectiveMode(lane, mode), now, "");
    var queued := EnqueueWorld(ArriveWorld(w, k, mode), c).(plain := w.plain && !IsSummary(message));
    assert queued.q.lanes[k].pending == [c];
    OverflowAlone(queued, k);
  }

  lemma DispatchAlone(w: World, k: string, now: int)
    requires Dispatches(w.q, k, now) && |w.q.lanes[k].pending| == 1
    ensures var c := w.q.lanes[k].pending[0];
            var w' := SweepWorld(PassWorld(w, [k], now));
            && k in w'.q.lanes && w'.q.lanes[k] == w.q.lanes[k].(pending := [], active := Some(c))
            && w'.fate == w.fate[c.id := Running] && w'.home == w.home
            && w'.q.config == w.q.config && w'.q.activeCount == w.q.activeCount + 1
  {
    assert [k][..0] == [] && PassWorld(w, [], now) == w;
    assert w.q.lanes[k].pending[1..] == [];
  }

  ghost predicate RunsTwo(config: QueueConfig, steps: seq<Step>, x: string, y: string) {
    IsRun(Initial(config), steps) &&
    var w := After(Initial(config), steps);
    x != y && x in RunningIds(w.fate) && y in RunningIds(w.fate) && x in w.home && y in w.home && w.home[x] == w.home[y]
  }

  /** The lane is empty and holds one command, and a worker is free for it. */
  predicate Ready(q: Queue, k: string, mode: Mode) {
    var lane := LaneOf(q, k);
    lane.pending == [] && (lane.cap >= 1 || lane.drop.Summarize?) && q.activeCount < q.config.maxConcurrent &&
    (lane.active.None? || mode.Interrupt?)
  }

  /** What a configuration fixes about a lane. */
  function Settings(lane: Lane): (int, int, DropPolicy) { (lane.debounceMs, lane.cap, lane.drop) }

  /** Submitted at one time and dispatched once the debounce time is over. */
  function Started(w: World, id: string, k: string, message: string, mode: Mode, at: int, now: int): World {
    SweepWorld(PassWorld(SubmitWorld(w, id, k, message, mode, at), [k], now))
  }

  lemma SubmitAndStart(w: World, id: string, k: string, message: string, mode: Mode, at: int, now: int)
    requires Ready(w.q, k, mode) && now - at >= LaneOf(w.q, k).debounceMs
    ensures var w2 := Started(w, id, k, message, mode, at, now);
            var lane := LaneOf(w.q, k);
            && w2.fate == w.fate[id := Running] && w2.home == w.home[id := k] && k in w2.q.lanes
            && Settings(w2.q.lanes[k]) == Settings(lane) && w2.q.lanes[k].pending == []
            && w2.q.config == w.q.config && w2.q.activeCount == w.q.activeCount + 1
  {
    var lane := LaneOf(w.q, k);
    SubmitAlone(w, id, k, message, mode, at);
    ArrivalStarts(lane, mode, Command(id, k, message, EffectiveMode(lane, mode), at, ""), now);
    DispatchAlone(SubmitWorld(w, id, k, message, mode, at), k, now);
  }

  /** A lane whose only command is c lets it start, unless something is active that mode does not interrupt. */
  lemma ArrivalStarts(lane: Lane, mode: Mode, c: Command, now: int)
    requires (lane.active.None? || mode.Interrupt?) && now - c.enqueuedAt >= lane.debounceMs
    ensures var lane' := Arrival(lane, mode).(pending := [c]);
            CanActivate(lane', now) && Settings(lane') == Settings(lane)
  {
  }

  /**
    The header promises at most one command per lane at any time. Under every
    configuration that allows two workers and does not drop a command at once
    (a cap of at least one, or summarizing), an interrupting message frees the
    lane while the old worker still runs, and a second command of the same
    session is handed out beside it, each once its debounce time is over.
   */
  lemma TwoAtOnce(config: QueueConfig, k: string, x: string, y: string, first: string, second: string) returns (steps: seq<Step>)
    requires config.maxConcurrent >= 2 && (config.cap >= 1 || config.drop.Summarize?) && x != y
    ensures |steps| == 4 && RunsTwo(config, steps, x, y)
  {
    var d := Max(0, config.debounceMs);
    var s0, s1 := SubmitStep(x, k, first, Collect, 0), DispatchStep([k], d);
    var s2, s3 := SubmitStep(y, k, second, Interrupt, d), DispatchStep([k], 2 * d);
    var w0 := Initial(config);
    var w2 := FirstRuns(config, k, x, first);
    assert Next(Next(w0, s0), s1) == w2;
    SecondRuns(w2, k, x, y, second, d);
    assert FourSteps(w0, s0, s1, s2, s3) && BothRun(AfterFour(w0, s0, s1, s2, s3), x, y);
    steps := RunOfFour(w0, s0, s1, s2, s3);
  }

  /** The first command runs alone, and leaves room for an interrupting one. */
  lemma FirstRuns(config: QueueConfig, k: string, x: string, message: string) returns (w: World)
    requires config.maxConcurrent >= 2 && (config.cap >= 1 || config.drop.Summarize?)
    ensures w == Started(Initial(config), x, k, message, Collect, 0, Max(0, config.debounceMs))
    ensures w.fate == map[x := Running] && w.home == map[x := k] && Ready(w.q, k, Interrupt)
    ensures LaneOf(w.q, k).debounceMs == config.debounceMs
  {
    SubmitAndStart(Initial(config), x, k, message, Collect, 0, Max(0, config.debounceMs));
    w := Started(Initial(config), x, k, message, Collect, 0, Max(0, config.debounceMs));
  }

  lemma SecondRuns(w: World, k: string, x: string, y: string, message: string, d: int)
    requires w.fate == map[x := Running] && w.home == map[x := k] && Ready(w.q, k, Interrupt) && x != y
    requires d >= LaneOf(w.q, k).debounceMs
    ensures BothRun(Started(w, y, k, message, Interrupt, d, 2 * d), x, y)
  {
    SubmitAndStart(w, y, k, message, Interrupt, d, 2 * d);
  }

  /** Four steps that can be taken one after the other. */
  predicate FourSteps(w: World, a: Step, b: Step, c: Step, d: Step) {
    Enabled(w, a) && Enabled(Next(w, a), b) && Enabled(Next(Next(w, a), b), c) && Enabled(Next(Next(Next(w, a), b), c), d)
  }

  function AfterFour(w: World, a: Step, b: Step, c: Step, d: Step): World
    requires FourSteps(w, a, b, c, d)
  {
    Next(Next(Next(Next(w, a), b), c), d)
  }

  predicate BothRun(w: World, x: string, y: string) {
    x != y && x in w.fate && y in w.fate && w.fate[x].Running? && w.fate[y].Running? &&
    x in w.home && y in w.home && w.home[x] == w.home[y]
  }

  lemma RunOfFour(w: World, a: Step, b: Step, c: Step, d: Step) returns (steps: seq<Step>)
    ensures |steps| == 4
    ensures FourSteps(w, a, b, c, d) ==> IsRun(w, steps) && After(w, steps) == AfterFour(w, a, b, c, d)
  {
    var last := [d] + [];
    var later := [c] + last;
    var rest := [b] + later;
    steps := [a] + rest;
    if FourSteps(w, a, b, c, d) {
      var w1 := Next(w, a);
      var w2 := Next(w1, b);
      var w3 := Next(w2, c);
      RunCons(w3, d, []);
      RunCons(w2, c, last);
      RunCons(w1, b, later);
      RunCons(w, a, rest);
    }
  }

  lemma RunCons(w: World, s: Step, steps: seq<Step>)
    requires Enabled(w, s) && IsRun(Next(w, s), steps)
    ensures IsRun(w, [s] + steps) && After(w, [s] + steps) == After(Next(w, s), steps)
  {
    assert ([s] + steps)[1..] == steps;
  }
}
