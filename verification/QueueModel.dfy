/**
  The command queue as values: per-session lanes under one lock, each critical
  section a function of the state (src/gateway/command_queue.cpp).
 */
module QueueModel {
  import opened Basics
  import opened Text
  import opened QueueSummary

  datatype Mode = Collect | Followup | Steer | SteerBacklog | Interrupt

  datatype DropPolicy = Summarize | DropOldest | Reject

  datatype Command = Command(id: string, session: string, message: string, mode: Mode, enqueuedAt: int, collected: string)

  datatype QueueConfig = QueueConfig(maxConcurrent: int, debounceMs: int, cap: int, drop: DropPolicy, defaultMode: Mode)

  datatype Lane = Lane(mode: Mode, debounceMs: int, cap: int, drop: DropPolicy, pending: seq<Command>, active: Option<Command>)

  /** config_, lanes_, command_to_session_ and active_count_. */
  datatype Queue = Queue(config: QueueConfig, lanes: map<string, Lane>, index: map<string, string>, activeCount: int)

  // ---------- one lane ----------

  function Ids(cs: seq<Command>): (ids: seq<string>)
    ensures |ids| == |cs| && forall i :: 0 <= i < |cs| ==> ids[i] == cs[i].id
  {
    seq(|cs|, i requires 0 <= i < |cs| => cs[i].id)
  }

  /** The front command may start: one is pending, none is active, and it has waited long enough. */
  predicate CanActivate(lane: Lane, now: int) {
    lane.pending != [] && lane.active.None? && now - lane.pending[0].enqueuedAt >= lane.debounceMs
  }

  function Activated(lane: Lane): Lane
    requires lane.pending != []
  {
    lane.(active := Some(lane.pending[0]), pending := lane.pending[1..])
  }

  /** InterruptActive: nothing stays active, and only the newest pending command is kept. */
  function Interrupted(lane: Lane): Lane {
    lane.(active := None, pending := if |lane.pending| > 1 then lane.pending[|lane.pending| - 1..] else lane.pending)
  }

  /** Position of a pending command by id, or the length when there is none. */
  function Position(pending: seq<Command>, id: string): (k: nat)
    ensures k <= |pending| && (k < |pending| ==> pending[k].id == id)
    ensures forall i :: 0 <= i < k ==> pending[i].id != id
  {
    if pending == [] || pending[0].id == id then 0 else 1 + Position(pending[1..], id)
  }

  /** The texts of the pending commands, as one. */
  function SteeringText(pending: seq<Command>): string {
    if pending == [] then ""
    else
      var head := SteeringText(pending[..|pending| - 1]);
      (if head == "" then "" else head + "\n\n") + pending[|pending| - 1].message
  }

  // ---------- overflow ----------

  /**
    One pass of the overflow loop. The merged command keeps the identity of the
    oldest. Below a cap of one the loop stops after a single pass.
   */
  function Overflow(pending: seq<Command>, cap: int, drop: DropPolicy): (r: (seq<Command>, seq<string>))
    requires pending != [] || cap >= 0
    decreases |pending|
  {
    if |pending| <= cap then (pending, [])
    else if drop.Summarize? && |pending| < 2 then (pending, [])
    else
      var (rest, gone) := OverflowStep(pending, drop);
      if cap <= 0 then (rest, [gone])
      else
        var (rest', more) := Overflow(rest, cap, drop);
        (rest', [gone] + more)
  }

  lemma OverflowNext(pending: seq<Command>, cap: int, drop: DropPolicy, dropped: seq<string>)
    requires |pending| > cap > 0
    ensures var (rest, gone) := OverflowStep(pending, drop);
            && Overflow(pending, cap, drop).0 == Overflow(rest, cap, drop).0
            && dropped + Overflow(pending, cap, drop).1 == (dropped + [gone]) + Overflow(rest, cap, drop).1
  {
    var (rest, gone) := OverflowStep(pending, drop);
    AppendAssoc(dropped, [gone], Overflow(rest, cap, drop).1);
  }

  function OverflowStep(pending: seq<Command>, drop: DropPolicy): (r: (seq<Command>, string))
    requires pending != [] && (drop.Summarize? ==> |pending| >= 2)
    ensures |r.0| == |pending| - 1
  {
    match drop
    case Summarize => ([pending[0].(message := Merge(pending[0].message, pending[1].message))] + pending[2..], pending[1].id)
    case DropOldest => (pending[1..], pending[0].id)
    case Reject => (pending[..|pending| - 1], pending[|pending| - 1].id)
  }

  /** a and b are the same command up to its text. */
  predicate SameCommand(a: Command, b: Command) { a == b.(message := a.message) }

  /** p' is p with the commands from a up to b taken out, and at most the front text changed. */
  predicate IsCut(p': seq<Command>, p: seq<Command>, a: nat, b: nat) {
    a <= b <= |p| && |p'| == a + |p| - b &&
    (forall i :: 0 <= i < a ==> SameCommand(p'[i], p[i]) && (i > 0 ==> p'[i] == p[i])) &&
    forall i :: a <= i < |p'| ==> p'[i] == p[i - a + b]
  }

  /** Where the cut made by an overflow starts and ends. */
  function CutStart(n: nat, cap: int, drop: DropPolicy): int {
    match drop
    case Summarize => 1
    case DropOldest => 0
    case Reject => if cap >= 1 then cap else n - 1
  }

  function Excess(n: nat, cap: int, drop: DropPolicy): nat {
    if n <= cap || (drop.Summarize? && n < 2) then 0 else if cap >= 1 then n - cap else 1
  }

  function Reversed(s: seq<string>): (r: seq<string>)
    ensures |r| == |s| && forall i :: 0 <= i < |s| ==> r[i] == s[|s| - 1 - i]
  {
    if s == [] then [] else Reversed(s[1..]) + [s[0]]
  }

  /** The ids of p from a up to b, as the policy reports them. */
  function Removed(p: seq<Command>, a: nat, b: nat, drop: DropPolicy): seq<string>
    requires a <= b <= |p|
  {
    if drop.Reject? then Reversed(Ids(p[a..b])) else Ids(p[a..b])
  }

  predicate OverflowCut(kept: seq<Command>, gone: seq<string>, pending: seq<Command>, cap: int, drop: DropPolicy) {
    var excess := Excess(|pending|, cap, drop);
    var a := if excess == 0 then 0 else CutStart(|pending|, cap, drop);
    0 <= a && IsCut(kept, pending, a, a + excess) && gone == Removed(pending, a, a + excess, drop) &&
    (!drop.Summarize? || excess == 0 ==> kept == pending[..a] + pending[a + excess..])
  }

  /**
    What overflow does, said without a loop. Down to the cap: summarizing keeps
    the front and the newest cap - 1, dropping the oldest keeps the newest cap,
    rejecting keeps the oldest cap; the ids returned are exactly the ones removed,
    in order (rejecting removes from the back).
   */
  lemma {:induction false} OverflowIsCut(pending: seq<Command>, cap: int, drop: DropPolicy)
    requires pending != [] || cap >= 0
    ensures OverflowCut(Overflow(pending, cap, drop).0, Overflow(pending, cap, drop).1, pending, cap, drop)
    ensures cap >= 1 ==> |Overflow(pending, cap, drop).0| <= cap
    decreases |pending|
  {
    var n := |pending|;
    if n <= cap || (drop.Summarize? && n < 2) {
      assert Ids(pending[0..0]) == [];
    } else {
      var (rest, first) := OverflowStep(pending, drop);
      StepIsCut(pending, drop);
      if cap >= 1 {
        OverflowIsCut(rest, cap, drop);
        var (kept, more) := Overflow(rest, cap, drop);
        match drop {
          case Summarize => SummarizeAgain(kept, more, rest, pending, cap);
          case DropOldest => DropAgain(kept, more, pending, cap);
          case Reject => RejectAgain(kept, more, pending, cap);
        }
      }
    }
  }

  lemma StepIsCut(pending: seq<Command>, drop: DropPolicy)
    requires pending != [] && (drop.Summarize? ==> |pending| >= 2)
    ensures var a := CutStart(|pending|, 0, drop);
            && IsCut(OverflowStep(pending, drop).0, pending, a, a + 1)
            && [OverflowStep(pending, drop).1] == Removed(pending, a, a + 1, drop)
            && (!drop.Summarize? ==> OverflowStep(pending, drop).0 == pending[..a] + pending[a + 1..])
  {
    var a := CutStart(|pending|, 0, drop);
    assert pending[a..a + 1] == [pending[a]];
    assert Reversed(Ids([pending[a]])) == Ids([pending[a]]) == [pending[a].id];
  }

  lemma SummarizeAgain(kept: seq<Command>, more: seq<string>, rest: seq<Command>, pending: seq<Command>, cap: int)
    requires 1 <= cap < |pending| && |pending| >= 2 && IsCut(rest, pending, 1, 2)
    requires OverflowCut(kept, more, rest, cap, Summarize)
    ensures OverflowCut(kept, [pending[1].id] + more, pending, cap, Summarize)
  {
    var excess := |pending| - cap;
    assert pending[1..1 + excess] == [pending[1]] + rest[1..excess];
    assert Ids(pending[1..1 + excess]) == [pending[1].id] + Ids(rest[1..excess]);
  }

  lemma DropAgain(kept: seq<Command>, more: seq<string>, pending: seq<Command>, cap: int)
    requires 1 <= cap < |pending|
    requires OverflowCut(kept, more, pending[1..], cap, DropOldest)
    ensures OverflowCut(kept, [pending[0].id] + more, pending, cap, DropOldest)
  {
    var excess := |pending| - cap;
    assert pending[0..excess] == [pending[0]] + pending[1..][0..excess - 1];
    assert Ids(pending[0..excess]) == [pending[0].id] + Ids(pending[1..][0..excess - 1]);
  }

  lemma RejectAgain(kept: seq<Command>, more: seq<string>, pending: seq<Command>, cap: int)
    requires 1 <= cap < |pending|
    requires OverflowCut(kept, more, pending[..|pending| - 1], cap, Reject)
    ensures OverflowCut(kept, [pending[|pending| - 1].id] + more, pending, cap, Reject)
  {
    var m := |pending| - 1;
    var rest, last := pending[..m], pending[m];
    RejectCut(kept, more, rest, cap);
    ReversedIds(rest[cap..], last);
    assert pending[cap..] == rest[cap..] + [last];
    RejectCut(kept, [last.id] + more, pending, cap);
  }

  /** Down to its cap a rejecting lane keeps the front. */
  lemma RejectCut(kept: seq<Command>, gone: seq<string>, pending: seq<Command>, cap: int)
    requires 1 <= cap <= |pending|
    ensures OverflowCut(kept, gone, pending, cap, Reject) <==> kept == pending[..cap] && gone == Reversed(Ids(pending[cap..]))
  {
    var n := |pending|;
    assert pending[..cap] + pending[n..] == pending[..cap] && pending[cap..n] == pending[cap..];
    if n == cap {
      assert pending[..0] + pending[0..] == pending == pending[..cap] && pending[0..0] == pending[cap..];
    }
  }

  lemma ReversedIds(cs: seq<Command>, last: Command)
    ensures Reversed(Ids(cs + [last])) == [last.id] + Reversed(Ids(cs))
  {
  }

  // ---------- critical sections ----------

  /** get_lane: the lane of a session, made from the defaults if there is none. */
  function LaneOf(q: Queue, session: string): Lane {
    if session in q.lanes then q.lanes[session]
    else Lane(q.config.defaultMode, q.config.debounceMs, q.config.cap, q.config.drop, [], None)
  }

  function EffectiveMode(lane: Lane, mode: Mode): Mode { if mode.Collect? then lane.mode else mode }

  /** The lane a command finds when it is enqueued. */
  function Arrival(lane: Lane, mode: Mode): Lane {
    if EffectiveMode(lane, mode).Interrupt? && lane.active.Some? then Interrupted(lane) else lane
  }

  /** Steering commands skip the cap. */
  predicate SkipsCap(lane: Lane, mode: Mode) {
    (EffectiveMode(lane, mode).Steer? || EffectiveMode(lane, mode).SteerBacklog?) && lane.active.Some?
  }

  /** What a submission does to its lane, and the ids it loses to overflow. */
  function Accept(lane: Lane, id: string, session: string, message: string, mode: Mode, now: int): (Lane, seq<string>) {
    var arrived := Arrival(lane, mode);
    var queued := arrived.pending + [Command(id, session, message, EffectiveMode(lane, mode), now, "")];
    var (kept, gone) := if SkipsCap(lane, mode) then (queued, []) else Overflow(queued, lane.cap, lane.drop);
    (arrived.(pending := kept), gone)
  }

  /** Submit: the new state and the ids lost to overflow. */
  function Submit(q: Queue, id: string, session: string, message: string, mode: Mode, now: int): (Queue, seq<string>) {
    var (lane, gone) := Accept(LaneOf(q, session), id, session, message, mode, now);
    (q.(lanes := q.lanes[session := lane], index := q.index[id := session] - set x | x in gone), gone)
  }

  /** The lane with the pending command of this id taken out, if it is there. */
  function Without(lane: Lane, id: string): Lane {
    var k := Position(lane.pending, id);
    lane.(pending := if k < |lane.pending| then lane.pending[..k] + lane.pending[k + 1..] else lane.pending)
  }

  /** Cancel: the new state, and whether a pending command was removed. */
  function Cancel(q: Queue, id: string): (Queue, bool) {
    if id !in q.index then (q, false)
    else
      var lane := LaneOf(q, q.index[id]);
      (q.(lanes := q.lanes[q.index[id] := Without(lane, id)], index := q.index - {id}), Position(lane.pending, id) < |lane.pending|)
  }

  /** AbortSession: the new state, and whether an active command was let go. */
  function Abort(q: Queue, session: string): (Queue, bool) {
    if session !in q.lanes then (q, false)
    else
      var lane := q.lanes[session];
      (q.(lanes := q.lanes[session := Interrupted(lane)],
          index := if lane.active.Some? then q.index - {lane.active.value.id} else q.index),
       lane.active.Some?)
  }

  function Configured(lane: Lane, mode: Mode, debounceMs: int, cap: int, drop: Option<DropPolicy>): (r: Lane)
    ensures r.mode == mode && r.pending == lane.pending && r.active == lane.active
    ensures (debounceMs >= 0 ==> r.debounceMs == debounceMs) && (debounceMs < 0 ==> r.debounceMs == lane.debounceMs)
    ensures (cap >= 0 ==> r.cap == cap) && (cap < 0 ==> r.cap == lane.cap)
    ensures (drop.Some? ==> r.drop == drop.value) && (drop.None? ==> r.drop == lane.drop)
  {
    lane.(mode := mode,
          debounceMs := if debounceMs >= 0 then debounceMs else lane.debounceMs,
          cap := if cap >= 0 then cap else lane.cap,
          drop := if drop.Some? then drop.value else lane.drop)
  }

  function Configure(q: Queue, session: string, mode: Mode, debounceMs: int, cap: int, drop: Option<DropPolicy>): Queue {
    q.(lanes := q.lanes[session := Configured(LaneOf(q, session), mode, debounceMs, cap, drop)])
  }

  /** Whether the dispatcher starts a command of this session now. */
  predicate Dispatches(q: Queue, session: string, now: int) {
    session in q.lanes && q.activeCount < q.config.maxConcurrent && CanActivate(q.lanes[session], now)
  }

  /** Whether starting the front command empties the rest of the lane. */
  predicate Drains(lane: Lane)
    requires lane.pending != []
  {
    var rest := lane.pending[1..];
    (lane.pending[0].mode.Collect? && rest != []) || (lane.pending[0].mode.Followup? && |rest| > 1)
  }

  function DispatchLane(lane: Lane): Lane
    requires lane.pending != []
  {
    if Drains(lane) then Activated(lane).(pending := []) else Activated(lane)
  }

  /** The command handed to a worker: a collecting one takes the other texts along. */
  function Dispatched(lane: Lane): Command
    requires lane.pending != []
  {
    var front := lane.pending[0];
    var text := SteeringText(lane.pending[1..]);
    if front.mode.Collect? && text != "" then front.(collected := text) else front
  }

  /** One session's share of a dispatcher pass. */
  function DispatchOne(q: Queue, session: string, now: int): Queue {
    if !Dispatches(q, session, now) then q
    else
      var lane := q.lanes[session];
      q.(lanes := q.lanes[session := DispatchLane(lane)],
         index := q.index - {lane.pending[0].id},
         activeCount := q.activeCount + 1)
  }

  function DispatchAll(q: Queue, keys: seq<string>, now: int): Queue {
    if keys == [] then q else DispatchOne(DispatchAll(q, keys[..|keys| - 1], now), keys[|keys| - 1], now)
  }

  /** The commands a pass hands to workers, in order. */
  function Launched(q: Queue, keys: seq<string>, now: int): seq<Command> {
    if keys == [] then []
    else
      var before := DispatchAll(q, keys[..|keys| - 1], now);
      var key := keys[|keys| - 1];
      Launched(q, keys[..|keys| - 1], now) + (if Dispatches(before, key, now) then [Dispatched(before.lanes[key])] else [])
  }

  predicate IsIdle(lane: Lane) { lane.active.None? && lane.pending == [] }

  function Sweep(q: Queue): Queue {
    q.(lanes := map k | k in q.lanes && !IsIdle(q.lanes[k]) :: q.lanes[k])
  }

  /** A worker of this session reports back; whatever is active there is cleared. */
  function Complete(q: Queue, session: string): Queue {
    var q' := q.(activeCount := q.activeCount - 1);
    if session in q.lanes then q'.(lanes := q.lanes[session := q.lanes[session].(active := None)]) else q'
  }
}
