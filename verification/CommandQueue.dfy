/**
  The queue as the program keeps it: lanes that are objects, owned one each by
  the queue and updated in place. Every method is proved to take the step that
  the value model describes (src/gateway/command_queue.cpp).
 */
module CommandQueues {
  import opened Basics
  import opened Text
  import opened QueueModel

  class SessionLane {
    var mode: Mode
    var debounceMs: int
    var cap: int
    var drop: DropPolicy
    var pending: seq<Command>
    var active: Option<Command>

    function View(): Lane
      reads this
    {
      Lane(mode, debounceMs, cap, drop, pending, active)
    }

    constructor (config: QueueConfig)
      ensures View() == Lane(config.defaultMode, config.debounceMs, config.cap, config.drop, [], None)
    {
      mode, debounceMs, cap, drop := config.defaultMode, config.debounceMs, config.cap, config.drop;
      pending, active := [], None;
    }

    method Enqueue(c: Command)
      modifies this
      ensures View() == old(View()).(pending := old(pending) + [c])
    {
      pending := pending + [c];
    }

    method TryActivate(now: int) returns (r: Option<Command>)
      modifies this
      ensures if CanActivate(old(View()), now)
              then View() == Activated(old(View())) && r == Some(old(pending)[0])
              else View() == old(View()) && r == None
    {
      if pending == [] || active.Some? {
        return None;
      }
      if now - pending[0].enqueuedAt < debounceMs {
        return None;
      }
      active := Some(pending[0]);
      pending := pending[1..];
      r := active;
    }

    method CompleteActive() returns (r: Option<Command>)
      modifies this
      ensures View() == old(View()).(active := None) && r == old(active)
    {
      r := active;
      active := None;
    }

    /** One pass of the overflow loop: one command leaves, unless there is nothing to merge. */
    method OverflowOnce() returns (gone: Option<string>)
      requires pending != []
      modifies this
      ensures View() == old(View()).(pending := pending)
      ensures if drop.Summarize? && |old(pending)| < 2 then gone == None && pending == old(pending)
              else gone.Some? && (pending, gone.value) == OverflowStep(old(pending), drop)
    {
      gone := None;
      match drop {
        case Summarize =>
          if |pending| >= 2 {
            var oldest, second := pending[0], pending[1];
            pending := [oldest.(message := QueueSummary.Merge(oldest.message, second.message))] + pending[2..];
            gone := Some(second.id);
          }
        case DropOldest =>
          gone := Some(pending[0].id);
          pending := pending[1..];
        case Reject =>
          gone := Some(pending[|pending| - 1].id);
          pending := pending[..|pending| - 1];
      }
    }

    /** The overflow loop. Removing from an empty queue is undefined, hence the precondition. */
    method ApplyCapOverflow() returns (dropped: seq<string>)
      requires pending != [] || cap >= 0
      modifies this
      ensures View() == old(View()).(pending := pending) && (pending, dropped) == Overflow(old(pending), cap, drop)
      ensures cap >= 1 ==> |pending| <= cap
    {
      ghost var start := Overflow(pending, cap, drop);
      OverflowIsCut(pending, cap, drop);
      dropped := [];
      while |pending| > cap
        invariant View() == old(View()).(pending := pending) && (pending != [] || cap >= 0)
        invariant Overflow(pending, cap, drop).0 == start.0 && dropped + Overflow(pending, cap, drop).1 == start.1
        decreases |pending|
      {
        if cap > 0 { OverflowNext(pending, cap, drop, dropped); }
        var gone := OverflowOnce();
        if gone.Some? {
          dropped := dropped + [gone.value];
        } else {
          assert dropped + [] == dropped;
        }
        if cap <= 0 {
          return;
        }
      }
      assert dropped + [] == dropped;
    }

    /** The setters of a reconfiguration; negative numbers and a missing policy leave things as they are. */
    method Configure(mode: Mode, debounceMs: int, cap: int, drop: Option<DropPolicy>)
      modifies this
      ensures View() == Configured(old(View()), mode, debounceMs, cap, drop)
    {
      this.mode := mode;
      if debounceMs >= 0 {
        this.debounceMs := debounceMs;
      }
      if cap >= 0 {
        this.cap := cap;
      }
      if drop.Some? {
        this.drop := drop.value;
      }
    }

    /** The part of Submit that concerns the lane. */
    method Accept(id: string, session: string, message: string, mode: Mode, now: int) returns (dropped: seq<string>)
      modifies this
      ensures (View(), dropped) == QueueModel.Accept(old(View()), id, session, message, mode, now)
    {
      var effective := if mode == Collect then this.mode else mode;
      if effective == Interrupt && active.Some? {
        var _ := InterruptActive();
      }
      assert View() == Arrival(old(View()), mode);
      var skips := (effective == Steer || effective == SteerBacklog) && active.Some?;
      Enqueue(Command(id, session, message, effective, now, ""));
      dropped := [];
      if !skips {
        dropped := ApplyCapOverflow();
      }
    }

    method DrainPendingAsSteeringText() returns (text: string)
      modifies this
      ensures View() == old(View()).(pending := []) && text == SteeringText(old(pending))
    {
      text := "";
      for i := 0 to |pending|
        invariant View() == old(View()) && text == SteeringText(pending[..i])
      {
        assert pending[..i + 1][..i] == pending[..i];
        if text != "" {
          text := text + "\n\n";
        }
        text := text + pending[i].message;
      }
      assert pending[..|pending|] == pending;
      pending := [];
    }

    /** What a command just activated takes with it: the texts behind it, or nothing. */
    method DrainFor(c: Command) returns (c': Command)
      modifies this
      ensures var drains := (c.mode.Collect? && old(pending) != []) || (c.mode.Followup? && |old(pending)| > 1);
              View() == if drains then old(View()).(pending := []) else old(View())
      ensures c' == if c.mode.Collect? && SteeringText(old(pending)) != "" then c.(collected := SteeringText(old(pending))) else c
    {
      c' := c;
      if c.mode == Collect && pending != [] {
        var text := DrainPendingAsSteeringText();
        if text != "" {
          c' := c.(collected := text);
        }
      }
      if c.mode == Followup && |pending| > 1 {
        var _ := DrainPendingAsSteeringText();
      }
    }

    /** What a dispatcher pass does to the lane itself. */
    method Launch(now: int) returns (r: Option<Command>)
      modifies this
      ensures if CanActivate(old(View()), now)
              then View() == QueueModel.DispatchLane(old(View())) && r == Some(Dispatched(old(View())))
              else View() == old(View()) && r == None
    {
      r := TryActivate(now);
      if r.Some? {
        var c := DrainFor(r.value);
        r := Some(c);
      }
    }

    method CancelPending(id: string) returns (found: bool)
      modifies this
      ensures View() == Without(old(View()), id) && found == (Position(old(pending), id) < |old(pending)|)
    {
      for i := 0 to |pending|
        invariant View() == old(View()) && forall k :: 0 <= k < i ==> pending[k].id != id
      {
        if pending[i].id == id {
          pending := pending[..i] + pending[i + 1..];
          return true;
        }
      }
      found := false;
    }

    /** Lets the active command go, and clears all pending ones but the newest. */
    method InterruptActive() returns (id: Option<string>)
      modifies this
      ensures View() == Interrupted(old(View()))
      ensures id == if old(active).Some? then Some(old(active).value.id) else None
    {
      id := None;
      if active.Some? {
        id := Some(active.value.id);
        active := None;
      }
      ghost var was := pending;
      while |pending| > 1
        invariant View() == old(View()).(active := None, pending := pending)
        invariant |pending| <= |was| && pending == was[|was| - |pending|..]
        invariant |was| >= 1 ==> |pending| >= 1
      {
        LaterTail(was, |was| - |pending|);
        pending := pending[1..];
      }
    }
  }

  lemma LaterTail(was: seq<Command>, i: nat)
    requires i < |was|
    ensures was[i..][1..] == was[i + 1..]
  {
  }

  ghost function Views(lanes: map<string, SessionLane>): map<string, Lane>
    reads lanes.Values
  {
    map k | k in lanes :: lanes[k].View()
  }

  /** Each session has a lane object of its own. */
  ghost predicate Separate(lanes: map<string, SessionLane>) {
    forall x, y :: x in lanes && y in lanes && x != y ==> lanes[x] != lanes[y]
  }

  /** Changing one lane object changes the view of its session only. */
  lemma OneLane(lanes: map<string, SessionLane>, before: map<string, Lane>, k: string)
    requires Separate(lanes) && k in lanes && before.Keys == lanes.Keys
    requires forall x :: x in lanes && lanes[x] != lanes[k] ==> lanes[x].View() == before[x]
    ensures Views(lanes) == before[k := lanes[k].View()]
  {
  }

  class CommandQueue {
    var config: QueueConfig
    var lanes: map<string, SessionLane>
    var index: map<string, string>
    var activeCount: int

    ghost predicate Valid()
      reads this
    {
      Separate(lanes)
    }

    ghost function View(): Queue
      reads this, lanes.Values
    {
      Queue(config, Views(lanes), index, activeCount)
    }

    constructor (config: QueueConfig)
      ensures Valid() && View() == Queue(config, map[], map[], 0) && fresh(lanes.Values)
    {
      this.config, lanes, index, activeCount := config, map[], map[], 0;
    }

    /** The lane of a session, made from the defaults if there is none. */
    method GetLane(session: string) returns (lane: SessionLane)
      requires Valid()
      modifies this`lanes
      ensures Valid() && session in lanes && lanes[session] == lane && fresh(lanes.Values - old(lanes.Values))
      ensures lanes.Keys == old(lanes.Keys) + {session} && forall k :: k in old(lanes) ==> lanes[k] == old(lanes)[k]
      ensures Views(lanes) == old(Views(lanes))[session := LaneOf(old(View()), session)]
      ensures lane.View() == LaneOf(old(View()), session) && (lane in old(lanes.Values) || fresh(lane))
    {
      if session in lanes {
        lane := lanes[session];
      } else {
        lane := new SessionLane(config);
        lanes := lanes[session := lane];
      }
      assert Views(lanes) == old(Views(lanes))[session := LaneOf(old(View()), session)];
    }

    /** The critical section of Submit; id is the fresh random id. */
    method Submit(id: string, session: string, message: string, mode: Mode, now: int) returns (dropped: seq<string>)
      requires Valid()
      modifies this, lanes.Values
      ensures Valid() && fresh(lanes.Values - old(lanes.Values))
      ensures (View(), dropped) == QueueModel.Submit(old(View()), id, session, message, mode, now)
    {
      ghost var q := View();
      var lane := GetLane(session);
      dropped := lane.Accept(id, session, message, mode, now);
      SetLane(q.lanes, LaneOf(q, session), session);
      index := index[id := session] - set x | x in dropped;
    }

    /** After a change to one lane object, only its session looks different. */
    lemma SetLane(base: map<string, Lane>, was: Lane, session: string)
      requires Valid() && session in lanes && base.Keys + {session} == lanes.Keys
      requires forall x :: x in lanes && lanes[x] != lanes[session] ==> lanes[x].View() == base[session := was][x]
      ensures View() == Queue(config, base[session := lanes[session].View()], index, activeCount)
    {
      OneLane(lanes, base[session := was], session);
      OverwriteKey(base, session, was, lanes[session].View());
    }

    method Cancel(id: string) returns (cancelled: bool)
      requires Valid()
      modifies this, lanes.Values
      ensures Valid() && fresh(lanes.Values - old(lanes.Values))
      ensures (View(), cancelled) == QueueModel.Cancel(old(View()), id)
    {
      if id !in index {
        return false;
      }
      ghost var q := View();
      var session := index[id];
      var lane := GetLane(session);
      cancelled := lane.CancelPending(id);
      SetLane(q.lanes, LaneOf(q, session), session);
      index := index - {id};
    }

    method AbortSession(session: string) returns (aborted: bool)
      requires Valid()
      modifies this, lanes.Values
      ensures Valid() && lanes == old(lanes)
      ensures (View(), aborted) == QueueModel.Abort(old(View()), session)
    {
      if session !in lanes {
        return false;
      }
      ghost var before := Views(lanes);
      var id := lanes[session].InterruptActive();
      if id.Some? {
        index := index - {id.value};
      }
      aborted := id.Some?;
      OneLane(lanes, before, session);
    }

    method ConfigureSession(session: string, mode: Mode, debounceMs: int, cap: int, drop: Option<DropPolicy>)
      requires Valid()
      modifies this, lanes.Values
      ensures Valid() && fresh(lanes.Values - old(lanes.Values))
      ensures View() == QueueModel.Configure(old(View()), session, mode, debounceMs, cap, drop)
    {
      ghost var q := View();
      var lane := GetLane(session);
      lane.Configure(mode, debounceMs, cap, drop);
      SetLane(q.lanes, LaneOf(q, session), session);
    }

    method SetConfig(config: QueueConfig)
      requires Valid()
      modifies this`config
      ensures Valid() && View() == old(View()).(config := config)
    {
      this.config := config;
    }

    /** One lane of a dispatcher pass: start its front command if it may run. */
    method DispatchLane(key: string, now: int) returns (command: Option<Command>)
      requires Valid() && key in lanes && lanes[key].active.None? && activeCount < config.maxConcurrent
      modifies this, lanes.Values
      ensures Valid() && lanes == old(lanes) && View() == DispatchOne(old(View()), key, now)
      ensures command == if Dispatches(old(View()), key, now) then Some(Dispatched(old(View()).lanes[key])) else None
    {
      var lane := lanes[key];
      ghost var before, was := Views(lanes), lane.View();
      command := lane.Launch(now);
      if command.Some? {
        activeCount := activeCount + 1;
        index := index - {command.value.id};
      }
      OneLane(lanes, before, key);
      assert before[key := was] == before;
    }

    /**
      A dispatcher pass under the lock: walk the lanes in the given order until
      the limit is reached, then drop the idle ones.
     */
    method DispatcherPass(keys: seq<string>, now: int) returns (commands: seq<Command>)
      requires Valid()
      modifies this, lanes.Values
      ensures Valid() && lanes.Values <= old(lanes.Values)
      ensures View() == Sweep(DispatchAll(old(View()), keys, now)) && commands == Launched(old(View()), keys, now)
    {
      ghost var q := View();
      commands := [];
      var i := 0;
      while i < |keys|
        invariant 0 <= i <= |keys| && Valid() && lanes == old(lanes)
        invariant View() == DispatchAll(q, keys[..i], now) && commands == Launched(q, keys[..i], now)
        decreases |keys| - i
      {
        assert keys[..i + 1][..i] == keys[..i];
        if keys[i] in lanes && lanes[keys[i]].active.None? {
          if activeCount >= config.maxConcurrent {
            break;
          }
          var command := DispatchLane(keys[i], now);
          if command.Some? {
            commands := commands + [command.value];
          }
        }
        i := i + 1;
      }
      FullStaysFull(q, keys, i, now);
      assert keys[..|keys|] == keys;
      SweepIdle();
    }

    /** Lanes with nothing active and nothing pending are let go. */
    method SweepIdle()
      requires Valid()
      modifies this`lanes
      ensures Valid() && lanes.Values <= old(lanes.Values) && View() == Sweep(old(View()))
    {
      lanes := map k | k in lanes && (lanes[k].active.Some? || lanes[k].pending != []) :: lanes[k];
      assert Views(lanes) == Sweep(old(View())).lanes;
    }

    /** The end of a worker: clear what its lane holds active, and count it out. */
    method WorkerDone(session: string)
      requires Valid()
      modifies this, lanes.Values
      ensures Valid() && lanes == old(lanes) && View() == Complete(old(View()), session)
    {
      ghost var before := Views(lanes);
      if session in lanes {
        var _ := lanes[session].CompleteActive();
        OneLane(lanes, before, session);
      }
      activeCount := activeCount - 1;
    }
  }

  /** Once the limit is reached, the rest of a pass changes nothing. */
  lemma {:induction false} FullStaysFull(q: Queue, keys: seq<string>, i: nat, now: int)
    requires i <= |keys| && (i == |keys| || DispatchAll(q, keys[..i], now).activeCount >= DispatchAll(q, keys[..i], now).config.maxConcurrent)
    ensures DispatchAll(q, keys, now) == DispatchAll(q, keys[..i], now) && Launched(q, keys, now) == Launched(q, keys[..i], now)
    decreases |keys|
  {
    if i == |keys| {
      assert keys[..i] == keys;
    } else {
      var init := keys[..|keys| - 1];
      assert init[..i] == keys[..i];
      FullStaysFull(q, init, i, now);
    }
  }
}
