/**
  The steps of a run, each one critical section of the queue with the ledger
  kept alongside, and what holds after any sequence of them.
 */
module QueueSteps {
  import opened Basics
  import opened Text
  import opened QueueSummary
  import opened QueueModel
  import opened QueueRuns

  datatype Step =
    | SubmitStep(id: string, session: string, message: string, mode: Mode, now: int)
    | CancelStep(id: string)
    | AbortStep(session: string)
    | ConfigureStep(session: string, laneMode: Mode, debounceMs: int, cap: int, drop: Option<DropPolicy>)
    | SetConfigStep(config: QueueConfig)
    | DispatchStep(keys: seq<string>, now: int) // keys: the lanes, in the order the map yields them
    | FinishStep(id: string)

  /** Fresh ids come from a random generator; a worker reports back once. */
  predicate Enabled(w: World, s: Step) {
    match s
    case SubmitStep(id, _, _, _, _) => id !in w.fate
    case FinishStep(id) => id in w.fate && id in w.home && w.fate[id].Running?
    case _ => true
  }

  // ---------- the ledger's side of each critical section ----------

  function InterruptWorld(w: World, k: string, unindexed: set<string>): World
    requires k in w.q.lanes
  {
    var lane := w.q.lanes[k];
    var n := |lane.pending|;
    var flagged := if lane.active.Some? then w.(interrupted := w.interrupted + {k}) else w;
    CutWorld(flagged, k, Interrupted(lane), Gone(flagged, k, 0, if n > 1 then n - 1 else 0), Flushed, unindexed)
  }

  function OverflowWorld(w: World, k: string): World
    requires k in w.q.lanes && w.q.lanes[k].pending != []
  {
    var lane := w.q.lanes[k];
    var (kept, gone) := Overflow(lane.pending, lane.cap, lane.drop);
    var f := if lane.drop.Summarize? then Condensed(lane.pending[0].id) else Dropped;
    CutWorld(w, k, lane.(pending := kept), IdSet(gone), f, IdSet(gone))
  }

  /** The lane a submission finds, after an interrupt if it asks for one. */
  function ArriveWorld(w: World, session: string, mode: Mode): (r: World)
    ensures session in r.q.lanes
  {
    var lane := LaneOf(w.q, session);
    var found := RelaneWorld(w, session, lane);
    if EffectiveMode(lane, mode).Interrupt? && lane.active.Some? then InterruptWorld(found, session, {}) else found
  }

  function SubmitWorld(w: World, id: string, session: string, message: string, mode: Mode, now: int): World {
    var lane := LaneOf(w.q, session);
    var queued := EnqueueWorld(ArriveWorld(w, session, mode), Command(id, session, message, EffectiveMode(lane, mode), now, ""))
      .(plain := w.plain && !IsSummary(message));
    if SkipsCap(lane, mode) then queued else OverflowWorld(queued, session)
  }

  /** The i-th pending command is cancelled, or no command when i is out of range. */
  function RemoveWorld(w: World, id: string, k: string, i: nat): World
    requires k in w.q.lanes
  {
    var lane := w.q.lanes[k];
    if i < |lane.pending|
    then CutWorld(w, k, lane.(pending := lane.pending[..i] + lane.pending[i + 1..]), Gone(w, k, i, i + 1), Cancelled, {id})
    else CutWorld(w, k, lane, {}, Cancelled, {id})
  }

  function CancelWorld(w: World, id: string): World {
    if id !in w.q.index then w
    else
      var lane := LaneOf(w.q, w.q.index[id]);
      RemoveWorld(RelaneWorld(w, w.q.index[id], lane), id, w.q.index[id], Position(lane.pending, id))
  }

  function AbortWorld(w: World, k: string): World {
    if k !in w.q.lanes then w
    else
      var active := w.q.lanes[k].active;
      InterruptWorld(w, k, if active.Some? then {active.value.id} else {})
  }

  function DispatchWorld(w: World, k: string, now: int): World {
    if !Dispatches(w.q, k, now) then w
    else
      var lane := w.q.lanes[k];
      var started := StartWorld(w, k);
      if Drains(lane)
      then CutWorld(started, k, DispatchLane(lane), Gone(started, k, 0, |lane.pending| - 1), Drained, {})
      else started
  }

  function PassWorld(w: World, keys: seq<string>, now: int): World {
    if keys == [] then w else DispatchWorld(PassWorld(w, keys[..|keys| - 1], now), keys[|keys| - 1], now)
  }

  function Next(w: World, s: Step): World
    requires Enabled(w, s)
  {
    match s
    case SubmitStep(id, session, message, mode, now) => SubmitWorld(w, id, session, message, mode, now)
    case CancelStep(id) => CancelWorld(w, id)
    case AbortStep(session) => AbortWorld(w, session)
    case ConfigureStep(session, mode, debounceMs, cap, drop) =>
      w.(q := Configure(w.q, session, mode, debounceMs, cap, drop))
    case SetConfigStep(config) => w.(q := w.q.(config := config), peak := Max(w.peak, config.maxConcurrent))
    case DispatchStep(keys, now) => SweepWorld(PassWorld(w, keys, now))
    case FinishStep(id) => FinishWorld(w, id)
  }

  /** The same step on the queue alone. */
  function Apply(q: Queue, s: Step, session: string): Queue {
    match s
    case SubmitStep(id, session, message, mode, now) => Submit(q, id, session, message, mode, now).0
    case CancelStep(id) => Cancel(q, id).0
    case AbortStep(session) => Abort(q, session).0
    case ConfigureStep(session, mode, debounceMs, cap, drop) => Configure(q, session, mode, debounceMs, cap, drop)
    case SetConfigStep(config) => q.(config := config)
    case DispatchStep(keys, now) => Sweep(DispatchAll(q, keys, now))
    case FinishStep(_) => Complete(q, session)
  }

  // ---------- the ledger moves with the queue ----------

  lemma InterruptQueue(w: World, k: string, unindexed: set<string>)
    requires k in w.q.lanes
    ensures InterruptWorld(w, k, unindexed).q ==
            w.q.(lanes := w.q.lanes[k := Interrupted(w.q.lanes[k])], index := w.q.index - unindexed)
  {
  }

  lemma ArriveQueue(w: World, session: string, mode: Mode)
    ensures ArriveWorld(w, session, mode).q == w.q.(lanes := w.q.lanes[session := Arrival(LaneOf(w.q, session), mode)])
  {
    var lane := LaneOf(w.q, session);
    var found := RelaneWorld(w, session, lane);
    InterruptQueue(found, session, {});
    assert w.q.index - {} == w.q.index;
    assert w.q.lanes[session := lane][session := Arrival(lane, mode)] == w.q.lanes[session := Arrival(lane, mode)];
  }

  lemma SubmitQueue(w: World, id: string, session: string, message: string, mode: Mode, now: int)
    ensures SubmitWorld(w, id, session, message, mode, now).q == Submit(w.q, id, session, message, mode, now).0
  {
    var lane := LaneOf(w.q, session);
    ArriveQueue(w, session, mode);
    var arrived := Arrival(lane, mode);
    var all := arrived.pending + [Command(id, session, message, EffectiveMode(lane, mode), now, "")];
    OverwriteKey(w.q.lanes, session, arrived, arrived.(pending := all));
    if SkipsCap(lane, mode) {
      assert w.q.index[id := session] - (set x | x in []) == w.q.index[id := session];
    } else {
      var (kept, gone) := Overflow(all, lane.cap, lane.drop);
      OverwriteKey(w.q.lanes, session, arrived.(pending := all), arrived.(pending := kept));
    }
  }

  lemma {:induction false} PassQueue(w: World, keys: seq<string>, now: int)
    ensures PassWorld(w, keys, now).q == DispatchAll(w.q, keys, now)
  {
    if keys != [] {
      PassQueue(w, keys[..|keys| - 1], now);
      DispatchQueue(PassWorld(w, keys[..|keys| - 1], now), keys[|keys| - 1], now);
    }
  }

  lemma DispatchQueue(w: World, k: string, now: int)
    ensures DispatchWorld(w, k, now).q == DispatchOne(w.q, k, now)
  {
    if Dispatches(w.q, k, now) {
      var lane := w.q.lanes[k];
      assert w.q.lanes[k := Activated(lane)][k := DispatchLane(lane)] == w.q.lanes[k := DispatchLane(lane)];
      assert (w.q.index - {lane.pending[0].id}) - {} == w.q.index - {lane.pending[0].id};
    }
  }

  lemma CancelQueue(w: World, id: string)
    ensures CancelWorld(w, id).q == Cancel(w.q, id).0
  {
    if id in w.q.index {
      var k := w.q.index[id];
      var lane := LaneOf(w.q, k);
      OverwriteKey(w.q.lanes, k, lane, Without(lane, id));
    }
  }

  lemma AbortQueue(w: World, k: string)
    ensures AbortWorld(w, k).q == Abort(w.q, k).0
  {
    if k in w.q.lanes {
      var active := w.q.lanes[k].active;
      InterruptQueue(w, k, if active.Some? then {active.value.id} else {});
      assert w.q.index - {} == w.q.index;
    }
  }

  /** Seen through the queue, a step of a run is exactly the critical section. */
  lemma NextIsQueueStep(w: World, s: Step)
    requires Enabled(w, s)
    ensures Next(w, s).q == Apply(w.q, s, if s.FinishStep? then w.home[s.id] else "")
  {
    match s {
      case SubmitStep(id, session, message, mode, now) => SubmitQueue(w, id, session, message, mode, now);
      case CancelStep(id) => CancelQueue(w, id);
      case AbortStep(session) => AbortQueue(w, session);
      case DispatchStep(keys, now) => PassQueue(w, keys, now);
      case _ =>
    }
  }

  // ---------- every step keeps the invariant ----------

  /** Where a command's fate may go: it waits, then perhaps runs, and is over for good. */
  predicate FateMoves(f: Fate, g: Fate) {
    if f.Waiting? then true else if f.Running? then WasDispatched(g) else g == f
  }

  predicate Evolves(w: World, w': World) {
    w.dispatched <= w'.dispatched && w.interrupted <= w'.interrupted && w.peak <= w'.peak && (w'.plain ==> w.plain) &&
    |w.fate| <= |w'.fate| && forall id :: id in w.fate ==> id in w'.fate && FateMoves(w.fate[id], w'.fate[id])
  }

  lemma EvolvesTrans(a: World, b: World, c: World)
    requires Evolves(a, b) && Evolves(b, c)
    ensures Evolves(a, c)
  {
    forall id | id in a.fate ensures id in c.fate && FateMoves(a.fate[id], c.fate[id]) {
      assert id in b.fate && FateMoves(a.fate[id], b.fate[id]) && FateMoves(b.fate[id], c.fate[id]);
    }
  }

  lemma CutEvolves(w: World, k: string, lane: Lane, gone: set<string>, f: Fate, unindexed: set<string>)
    requires forall id :: id in gone ==> id in w.fate && w.fate[id].Waiting?
    ensures Evolves(w, CutWorld(w, k, lane, gone, f, unindexed))
  {
    assert Mark(w.fate, gone, f).Keys == w.fate.Keys;
  }

  lemma CutStepOk(w: World, k: string, lane: Lane, a: nat, b: nat, f: Fate, unindexed: set<string>)
    requires CutPre(w, k, lane, a, b, f, unindexed)
    ensures var w' := CutWorld(w, k, lane, Gone(w, k, a, b), f, unindexed); Inv(w') && Evolves(w, w')
  {
    CutOk(w, k, lane, a, b, f, unindexed);
    GoneWereWaiting(w, k, a, b);
    CutEvolves(w, k, lane, Gone(w, k, a, b), f, unindexed);
  }

  lemma InterruptOk(w: World, k: string, unindexed: set<string>)
    requires Inv(w) && k in w.q.lanes
    requires forall id :: id in unindexed && id in w.fate ==> !w.fate[id].Waiting?
    ensures Inv(InterruptWorld(w, k, unindexed)) && Evolves(w, InterruptWorld(w, k, unindexed))
  {
    var lane := w.q.lanes[k];
    var n := |lane.pending|;
    var flagged := if lane.active.Some? then w.(interrupted := w.interrupted + {k}) else w;
    SideOk(w, flagged);
    var b := if n > 1 then n - 1 else 0;
    assert IsCut(Interrupted(lane).pending, lane.pending, 0, b);
    CutStepOk(flagged, k, Interrupted(lane), 0, b, Flushed, unindexed);
  }

  /** Where the overflow cut lies. */
  lemma OverflowSpan(kept: seq<Command>, gone: seq<string>, pending: seq<Command>, cap: int, drop: DropPolicy) returns (a: nat, b: nat)
    requires pending != [] && OverflowCut(kept, gone, pending, cap, drop)
    ensures IsCut(kept, pending, a, b)
    ensures IdSet(gone) == IdSet(Ids(pending)[a..b])
    ensures drop.Summarize? ==> gone == Ids(pending)[a..b] && (a < b ==> a == 1)
    ensures !drop.Summarize? || gone == [] ==> kept == pending[..a] + pending[b..]
  {
    var excess := Excess(|pending|, cap, drop);
    a := if excess == 0 then 0 else CutStart(|pending|, cap, drop);
    b := a + excess;
    RemovedSet(pending, a, b, drop);
    assert gone == Removed(pending, a, b, drop);
    if !drop.Summarize? || gone == [] {
      assert kept == pending[..a] + pending[a + excess..];
    }
  }

  lemma OverflowOk(w: World, k: string)
    requires Inv(w) && k in w.q.lanes && w.q.lanes[k].pending != []
    ensures Inv(OverflowWorld(w, k)) && Evolves(w, OverflowWorld(w, k))
  {
    var lane := w.q.lanes[k];
    var (kept, gone) := Overflow(lane.pending, lane.cap, lane.drop);
    OverflowIsCut(lane.pending, lane.cap, lane.drop);
    var a, b := OverflowSpan(kept, gone, lane.pending, lane.cap, lane.drop);
    var f := if lane.drop.Summarize? then Condensed(lane.pending[0].id) else Dropped;
    assert f.Condensed? ==> f.into in w.fate by {
      assert LaneOk(w, k, lane) && PendingOk(w, k, lane.pending[0]);
    }
    CutStepOk(w, k, lane.(pending := kept), a, b, f, IdSet(gone));
  }

  lemma RemovedSet(p: seq<Command>, a: nat, b: nat, drop: DropPolicy)
    requires a <= b <= |p|
    ensures IdSet(Removed(p, a, b, drop)) == IdSet(Ids(p)[a..b]) && Ids(p[a..b]) == Ids(p)[a..b]
    ensures |Removed(p, a, b, drop)| == b - a
  {
    var ids := Ids(p[a..b]);
    assert ids == Ids(p)[a..b];
    forall id | id in ids ensures id in Reversed(ids) {
      var i :| 0 <= i < |ids| && ids[i] == id;
      assert Reversed(ids)[|ids| - 1 - i] == id;
    }
  }

  lemma EnqueueStepOk(w: World, c: Command, plain: bool)
    requires Inv(w) && c.session in w.q.lanes && c.id !in w.fate && (plain ==> w.plain)
    ensures var w' := EnqueueWorld(w, c).(plain := plain); Inv(w') && Evolves(w, w')
  {
    EnqueueOk(w, c);
    SideOk(EnqueueWorld(w, c), EnqueueWorld(w, c).(plain := plain));
    EnqueueEvolves(w, c, plain);
  }

  lemma EnqueueEvolves(w: World, c: Command, plain: bool)
    requires c.session in w.q.lanes && c.id !in w.fate && (plain ==> w.plain)
    ensures Evolves(w, EnqueueWorld(w, c).(plain := plain))
  {
    assert EnqueueWorld(w, c).fate.Keys == w.fate.Keys + {c.id};
  }

  lemma ArriveOk(w: World, session: string, mode: Mode)
    requires Inv(w)
    ensures var w' := ArriveWorld(w, session, mode);
            Inv(w') && Evolves(w, w') && session in w'.q.lanes && w'.fate.Keys == w.fate.Keys && w'.plain == w.plain
  {
    var lane := LaneOf(w.q, session);
    RelaneOk(w, session, lane);
    if EffectiveMode(lane, mode).Interrupt? && lane.active.Some? {
      InterruptOk(RelaneWorld(w, session, lane), session, {});
    }
  }

  lemma SubmitOk(w: World, id: string, session: string, message: string, mode: Mode, now: int)
    requires Inv(w) && id !in w.fate
    ensures var w' := SubmitWorld(w, id, session, message, mode, now); Inv(w') && Evolves(w, w')
  {
    var lane := LaneOf(w.q, session);
    var arrived := ArriveWorld(w, session, mode);
    ArriveOk(w, session, mode);
    var c := Command(id, session, message, EffectiveMode(lane, mode), now, "");
    var plain := w.plain && !IsSummary(message);
    EnqueueStepOk(arrived, c, plain);
    var queued := EnqueueWorld(arrived, c).(plain := plain);
    EvolvesTrans(w, arrived, queued);
    if !SkipsCap(lane, mode) {
      OverflowOk(queued, session);
      EvolvesTrans(w, queued, OverflowWorld(queued, session));
    }
  }

  lemma CancelFoundOk(w: World, id: string, k: string, i: nat)
    requires Inv(w) && k in w.q.lanes && i < |w.q.lanes[k].pending| && w.q.lanes[k].pending[i].id == id
    ensures var lane := w.q.lanes[k];
            var w' := CutWorld(w, k, lane.(pending := lane.pending[..i] + lane.pending[i + 1..]), Gone(w, k, i, i + 1), Cancelled, {id});
            Inv(w') && Evolves(w, w')
  {
    var lane := w.q.lanes[k];
    assert Ids(lane.pending)[i..i + 1] == [id];
    assert IsCut(lane.pending[..i] + lane.pending[i + 1..], lane.pending, i, i + 1);
    CutStepOk(w, k, lane.(pending := lane.pending[..i] + lane.pending[i + 1..]), i, i + 1, Cancelled, {id});
  }

  lemma CancelMissedOk(w: World, id: string, k: string)
    requires Inv(w) && k in w.q.lanes && (id in w.fate ==> !w.fate[id].Waiting?)
    ensures var w' := CutWorld(w, k, w.q.lanes[k], {}, Cancelled, {id}); Inv(w') && Evolves(w, w')
  {
    assert Gone(w, k, 0, 0) == {};
    CutStepOk(w, k, w.q.lanes[k], 0, 0, Cancelled, {id});
  }

  lemma RemoveOk(w: World, id: string, k: string, i: nat)
    requires Inv(w) && k in w.q.lanes
    requires i < |w.q.lanes[k].pending| ==> w.q.lanes[k].pending[i].id == id
    requires i >= |w.q.lanes[k].pending| ==> id !in w.fate || !w.fate[id].Waiting?
    ensures Inv(RemoveWorld(w, id, k, i)) && Evolves(w, RemoveWorld(w, id, k, i))
  {
    if i < |w.q.lanes[k].pending| {
      CancelFoundOk(w, id, k, i);
    } else {
      CancelMissedOk(w, id, k);
    }
  }

  lemma CancelOk(w: World, id: string)
    requires Inv(w)
    ensures Inv(CancelWorld(w, id)) && Evolves(w, CancelWorld(w, id))
  {
    if id in w.q.index {
      var k := w.q.index[id];
      var lane := LaneOf(w.q, k);
      var i := Position(lane.pending, id);
      assert i >= |lane.pending| ==> id !in w.fate || !w.fate[id].Waiting? by { NotWaiting(w, id); }
      CancelAt(w, id, k, i);
    }
  }

  lemma CancelAt(w: World, id: string, k: string, i: nat)
    requires Inv(w)
    requires i < |LaneOf(w.q, k).pending| ==> LaneOf(w.q, k).pending[i].id == id
    requires i >= |LaneOf(w.q, k).pending| ==> id !in w.fate || !w.fate[id].Waiting?
    ensures var w' := RemoveWorld(RelaneWorld(w, k, LaneOf(w.q, k)), id, k, i); Inv(w') && Evolves(w, w')
  {
    var found := RelaneWorld(w, k, LaneOf(w.q, k));
    RelaneOk(w, k, LaneOf(w.q, k));
    assert Evolves(w, found);
    assert found.q.lanes[k] == LaneOf(w.q, k) && found.fate == w.fate;
    RemoveOk(found, id, k, i);
    EvolvesTrans(w, found, RemoveWorld(found, id, k, i));
  }

  lemma NotWaiting(w: World, id: string)
    requires Inv(w) && id in w.q.index
    ensures (id in w.fate && w.fate[id].Waiting?) <==> Position(LaneOf(w.q, w.q.index[id]).pending, id) < |LaneOf(w.q, w.q.index[id]).pending|
  {
    var k := w.q.index[id];
    var p := LaneOf(w.q, k).pending;
    assert id in w.home && w.home[id] == k;
    if w.fate[id].Waiting? {
      assert Waits(w, id);
      var i :| 0 <= i < |p| && Ids(p)[i] == id;
      assert p[i].id == id;
    } else if k in w.q.lanes {
      assert LaneOk(w, k, w.q.lanes[k]);
      assert forall i :: 0 <= i < |p| ==> PendingOk(w, k, p[i]) && p[i].id != id;
    }
  }

  lemma AbortOk(w: World, k: string)
    requires Inv(w)
    ensures Inv(AbortWorld(w, k)) && Evolves(w, AbortWorld(w, k))
  {
    if k in w.q.lanes {
      var active := w.q.lanes[k].active;
      assert LaneOk(w, k, w.q.lanes[k]);
      InterruptOk(w, k, if active.Some? then {active.value.id} else {});
    }
  }

  lemma DispatchOk(w: World, k: string, now: int)
    requires Inv(w)
    ensures Inv(DispatchWorld(w, k, now)) && Evolves(w, DispatchWorld(w, k, now))
  {
    if Dispatches(w.q, k, now) {
      var lane := w.q.lanes[k];
      var started := StartWorld(w, k);
      StartOk(w, k);
      FrontFacts(w, k);
      assert started.fate.Keys == w.fate.Keys;
      assert Evolves(w, started);
      if Drains(lane) {
        CutStepOk(started, k, DispatchLane(lane), 0, |lane.pending| - 1, Drained, {});
        EvolvesTrans(w, started, DispatchWorld(w, k, now));
      }
    }
  }

  lemma {:induction false} PassOk(w: World, keys: seq<string>, now: int)
    requires Inv(w)
    ensures Inv(PassWorld(w, keys, now)) && Evolves(w, PassWorld(w, keys, now))
  {
    if keys != [] {
      var before := PassWorld(w, keys[..|keys| - 1], now);
      PassOk(w, keys[..|keys| - 1], now);
      DispatchOk(before, keys[|keys| - 1], now);
      EvolvesTrans(w, before, PassWorld(w, keys, now));
    }
  }

  /** No step, in any state, breaks the invariant or takes a fate back. */
  lemma NextOk(w: World, s: Step)
    requires Inv(w) && Enabled(w, s)
    ensures Inv(Next(w, s)) && Evolves(w, Next(w, s))
  {
    match s {
      case SubmitStep(id, session, message, mode, now) => SubmitOk(w, id, session, message, mode, now);
      case CancelStep(id) => CancelOk(w, id);
      case AbortStep(session) => AbortOk(w, session);
      case ConfigureStep(session, mode, debounceMs, cap, drop) =>
        RelaneOk(w, session, Configure(w.q, session, mode, debounceMs, cap, drop).lanes[session]);
      case SetConfigStep(config) => SideOk(w, Next(w, s));
      case DispatchStep(keys, now) => DispatchStepOk(w, keys, now);
      case FinishStep(id) => FinishStepOk(w, id);
    }
  }

  lemma DispatchStepOk(w: World, keys: seq<string>, now: int)
    requires Inv(w)
    ensures Inv(SweepWorld(PassWorld(w, keys, now))) && Evolves(w, SweepWorld(PassWorld(w, keys, now)))
  {
    PassOk(w, keys, now);
    SweepOk(PassWorld(w, keys, now));
  }

  lemma FinishStepOk(w: World, id: string)
    requires Inv(w) && id in w.fate && id in w.home && w.fate[id].Running?
    ensures Inv(FinishWorld(w, id)) && Evolves(w, FinishWorld(w, id))
  {
    FinishOk(w, id);
    assert FinishWorld(w, id).fate.Keys == w.fate.Keys;
  }

  // ---------- runs ----------

  /** A run: every step was enabled when it was taken. */
  predicate IsRun(w: World, steps: seq<Step>)
    decreases |steps|
  {
    steps == [] || (Enabled(w, steps[0]) && IsRun(Next(w, steps[0]), steps[1..]))
  }

  function After(w: World, steps: seq<Step>): World
    requires IsRun(w, steps)
    decreases |steps|
  {
    if steps == [] then w else After(Next(w, steps[0]), steps[1..])
  }

  lemma {:induction false} RunOk(w: World, steps: seq<Step>)
    requires Inv(w) && IsRun(w, steps)
    ensures Inv(After(w, steps)) && Evolves(w, After(w, steps))
    decreases |steps|
  {
    if steps != [] {
      NextOk(w, steps[0]);
      RunOk(Next(w, steps[0]), steps[1..]);
      EvolvesTrans(w, Next(w, steps[0]), After(w, steps));
    }
  }

  lemma ReachableOk(config: QueueConfig, steps: seq<Step>)
    requires IsRun(Initial(config), steps)
    ensures Inv(After(Initial(config), steps))
  {
    assert Inv(Initial(config));
    RunOk(Initial(config), steps);
  }
}
