/**
  Summaries are honest: over every run in which no submitted text looks like a
  queue summary, only the front of a lane can be one, and the count printed in
  it is the number of submitted messages condensed into it.
 */
module QueueCondense {
  import opened Basics
  import opened Text
  import opened QueueSummary
  import opened QueueModel
  import opened QueueRuns
  import opened QueueSteps

  /** The text of c claims exactly the messages condensed into c, and c itself. */
  predicate Honest(w: World, c: Command) {
    SummaryCount(c.message) == 1 + |CondensedInto(w, c.id)| && (IsSummary(c.message) <==> CondensedInto(w, c.id) != {})
  }

  predicate HonestAt(w: World, p: seq<Command>, i: int) {
    0 <= i < |p| ==> Honest(w, p[i]) && (i > 0 ==> CondensedInto(w, p[i].id) == {})
  }

  ghost predicate HonestLane(w: World, p: seq<Command>) { forall i :: HonestAt(w, p, i) }

  ghost predicate HonestLanes(w: World) { forall k :: k in w.q.lanes ==> HonestLane(w, w.q.lanes[k].pending) }

  /** No forged summaries, and no more messages than an int can count. */
  predicate Countable(w: World) { w.plain && |w.fate| <= INT_MAX }

  // ---------- steps that condense nothing ----------

  /** Nothing is condensed between w and w'. */
  ghost predicate SameCondensed(w: World, w': World) {
    forall x :: CondensedInto(w', x) == CondensedInto(w, x)
  }

  lemma HonestCut(w: World, w': World, p: seq<Command>, a: nat, b: nat)
    requires SameCondensed(w, w') && HonestLane(w, p) && a <= b <= |p|
    ensures HonestLane(w', p[..a] + p[b..])
  {
    var p' := p[..a] + p[b..];
    forall i ensures HonestAt(w', p', i) {
      if 0 <= i < |p'| {
        var s := if i < a then i else i - a + b;
        assert p'[i] == p[s] && HonestAt(w, p, s);
        assert CondensedInto(w', p[s].id) == CondensedInto(w, p[s].id);
      }
    }
  }

  lemma HonestElsewhere(w: World, w': World)
    requires HonestLanes(w) && SameCondensed(w, w')
    requires forall k :: k in w'.q.lanes && w'.q.lanes[k].pending != [] ==> k in w.q.lanes && w'.q.lanes[k].pending == w.q.lanes[k].pending
    ensures HonestLanes(w')
  {
    forall k | k in w'.q.lanes ensures HonestLane(w', w'.q.lanes[k].pending) {
      var p := w'.q.lanes[k].pending;
      if p != [] {
        HonestCut(w, w', p, 0, 0);
        assert p[..0] + p[0..] == p;
      }
    }
  }

  lemma MarkKeepsCondensed(w: World, w': World, gone: set<string>, f: Fate)
    requires w'.fate == Mark(w.fate, gone, f) && !f.Condensed? && forall id :: id in gone ==> id in w.fate && w.fate[id].Waiting?
    ensures SameCondensed(w, w')
  {
    forall x ensures CondensedInto(w', x) == CondensedInto(w, x) {
    }
  }

  lemma CutHonest(w: World, k: string, lane: Lane, a: nat, b: nat, f: Fate, unindexed: set<string>)
    requires Inv(w) && HonestLanes(w) && k in w.q.lanes && a <= b <= |w.q.lanes[k].pending| && !f.Condensed?
    requires lane.pending == w.q.lanes[k].pending[..a] + w.q.lanes[k].pending[b..]
    ensures HonestLanes(CutWorld(w, k, lane, Gone(w, k, a, b), f, unindexed))
  {
    var w' := CutWorld(w, k, lane, Gone(w, k, a, b), f, unindexed);
    GoneWereWaiting(w, k, a, b);
    MarkKeepsCondensed(w, w', Gone(w, k, a, b), f);
    HonestOthers(w, w', k);
    HonestCut(w, w', w.q.lanes[k].pending, a, b);
  }

  lemma HonestOthers(w: World, w': World, k: string)
    requires HonestLanes(w) && SameCondensed(w, w')
    requires forall x :: x in w'.q.lanes && x != k ==> x in w.q.lanes && w'.q.lanes[x] == w.q.lanes[x]
    ensures forall x :: x in w'.q.lanes && x != k ==> HonestLane(w', w'.q.lanes[x].pending)
  {
    forall x | x in w'.q.lanes && x != k ensures HonestLane(w', w'.q.lanes[x].pending) {
      var p := w'.q.lanes[x].pending;
      HonestCut(w, w', p, 0, 0);
      assert p[..0] + p[0..] == p;
    }
  }

  lemma RelaneHonest(w: World, k: string, lane: Lane)
    requires HonestLanes(w) && lane.pending == LaneOf(w.q, k).pending
    ensures HonestLanes(RelaneWorld(w, k, lane))
  {
    assert SameCondensed(w, RelaneWorld(w, k, lane));
    HonestElsewhere(w, RelaneWorld(w, k, lane));
  }

  lemma EnqueueHonest(w: World, c: Command, plain: bool)
    requires Inv(w) && HonestLanes(w) && c.session in w.q.lanes && c.id !in w.fate && !IsSummary(c.message)
    ensures HonestLanes(EnqueueWorld(w, c).(plain := plain))
  {
    var w' := EnqueueWorld(w, c).(plain := plain);
    NewNotCondensed(w, w', c.id);
    HonestOthers(w, w', c.session);
    var p := w.q.lanes[c.session].pending;
    HonestCut(w, w', p, 0, 0);
    assert p[..0] + p[0..] == p;
    forall i ensures HonestAt(w', p + [c], i) {
      assert HonestAt(w', p, i);
    }
  }

  lemma NewNotCondensed(w: World, w': World, id: string)
    requires LedgerOk(w) && id !in w.fate && w'.fate == w.fate[id := Waiting]
    ensures SameCondensed(w, w') && CondensedInto(w', id) == {}
  {
    forall x ensures CondensedInto(w', x) == CondensedInto(w, x) {
    }
  }

  lemma StartHonest(w: World, k: string)
    requires HonestLanes(w) && k in w.q.lanes && w.q.lanes[k].pending != []
    requires w.q.lanes[k].pending[0].id in w.fate && w.fate[w.q.lanes[k].pending[0].id].Waiting?
    ensures HonestLanes(StartWorld(w, k))
  {
    var w' := StartWorld(w, k);
    var p := w.q.lanes[k].pending;
    forall x ensures CondensedInto(w', x) == CondensedInto(w, x) {
    }
    HonestOthers(w, w', k);
    HonestCut(w, w', p, 0, 1);
    assert p[..0] + p[1..] == p[1..];
  }

  // ---------- overflow ----------

  /** Merging one after another adds one to the count each time. */
  lemma {:induction false} MergedCount(pending: seq<Command>, cap: int)
    requires pending != [] && 1 <= SummaryCount(pending[0].message)
    requires SummaryCount(pending[0].message) + |pending| <= INT_MAX + 1
    ensures var (kept, gone) := Overflow(pending, cap, Summarize);
            && kept != [] && SummaryCount(kept[0].message) == SummaryCount(pending[0].message) + |gone|
            && (if gone == [] then kept == pending else IsSummary(kept[0].message))
    decreases |pending|
  {
    if |pending| > cap && |pending| >= 2 {
      MergeCounts(pending[0].message, pending[1].message);
      var rest := OverflowStep(pending, Summarize).0;
      if cap >= 1 {
        MergedCount(rest, cap);
      }
    }
  }

  lemma {:induction false} DistinctSize(ticket: map<string, nat>, ids: seq<string>)
    requires InOrder(ticket, ids)
    ensures |IdSet(ids)| == |ids|
  {
    if ids != [] {
      var init, last := ids[..|ids| - 1], ids[|ids| - 1];
      DistinctSize(ticket, init);
      OnlyAt(ticket, ids, |ids| - 1);
      assert last !in IdSet(init) && IdSet(ids) == IdSet(init) + {last};
    }
  }

  lemma Smaller(a: set<string>, b: set<string>)
    requires a <= b
    ensures |a| <= |b|
  {
    assert b == a + (b - a);
  }

  /** Condensing adds exactly the ids gone to what the front stands for. */
  lemma CondenseSets(w: World, k: string, gone: seq<string>, b: nat, fate: map<string, Fate>)
    requires Inv(w) && k in w.q.lanes && 1 < b <= |w.q.lanes[k].pending| && gone == Ids(w.q.lanes[k].pending)[1..b]
    requires fate == Mark(w.fate, IdSet(gone), Condensed(w.q.lanes[k].pending[0].id))
    ensures var w' := w.(fate := fate);
            var front := w.q.lanes[k].pending[0].id;
            && CondensedInto(w', front) == CondensedInto(w, front) + IdSet(gone)
            && |CondensedInto(w', front)| == |CondensedInto(w, front)| + |gone|
            && forall x :: x != front ==> CondensedInto(w', x) == CondensedInto(w, x)
  {
    var w' := w.(fate := fate);
    var front := w.q.lanes[k].pending[0].id;
    GoneWereWaiting(w, k, 1, b);
    assert Gone(w, k, 1, b) == IdSet(gone);
    MarkCondensed(w, w', IdSet(gone), front);
    assert LaneOk(w, k, w.q.lanes[k]);
    assert InOrder(w.ticket, gone);
    DistinctSize(w.ticket, gone);
  }

  lemma MarkCondensed(w: World, w': World, gone: set<string>, front: string)
    requires w'.fate == Mark(w.fate, gone, Condensed(front))
    requires forall id :: id in gone ==> id in w.fate && w.fate[id].Waiting?
    ensures CondensedInto(w', front) == CondensedInto(w, front) + gone && CondensedInto(w, front) !! gone
    ensures forall x :: x != front ==> CondensedInto(w', x) == CondensedInto(w, x)
  {
    forall x | x != front ensures CondensedInto(w', x) == CondensedInto(w, x) {
    }
  }

  /** After is a summary that counts n more messages than before did. */
  predicate Merged(after: Command, before: Command, n: nat) {
    SummaryCount(after.message) == SummaryCount(before.message) + n && IsSummary(after.message)
  }

  lemma CondenseHonest(w: World, k: string, kept: seq<Command>, gone: seq<string>, b: nat)
    requires Inv(w) && HonestLanes(w) && k in w.q.lanes
    requires 1 < b <= |w.q.lanes[k].pending| && gone == Ids(w.q.lanes[k].pending)[1..b] && IsCut(kept, w.q.lanes[k].pending, 1, b)
    ensures var lane := w.q.lanes[k];
            Merged(kept[0], lane.pending[0], |gone|) ==>
              HonestLanes(CutWorld(w, k, lane.(pending := kept), IdSet(gone), Condensed(lane.pending[0].id), IdSet(gone)))
  {
    if !Merged(kept[0], w.q.lanes[k].pending[0], |gone|) {
      return;
    }
    var lane := w.q.lanes[k];
    var p := lane.pending;
    var w' := CutWorld(w, k, lane.(pending := kept), IdSet(gone), Condensed(p[0].id), IdSet(gone));
    CondenseSets(w, k, gone, b, w'.fate);
    assert forall x :: CondensedInto(w', x) == CondensedInto(w.(fate := w'.fate), x);
    CondenseOthers(w, w', k);
    assert InOrder(w.ticket, Ids(p)) by { assert LaneOk(w, k, lane); }
    CondenseLane(w, w', p, kept, b);
  }

  lemma CondenseLane(w: World, w': World, p: seq<Command>, kept: seq<Command>, b: nat)
    requires HonestLane(w, p) && 1 < b <= |p| && IsCut(kept, p, 1, b) && InOrder(w.ticket, Ids(p))
    requires Merged(kept[0], p[0], b - 1)
    requires |CondensedInto(w', p[0].id)| == |CondensedInto(w, p[0].id)| + b - 1
    requires forall x :: x != p[0].id ==> CondensedInto(w', x) == CondensedInto(w, x)
    ensures HonestLane(w', kept)
  {
    assert HonestAt(w, p, 0);
    OnlyAt(w.ticket, Ids(p), 0);
    forall i ensures HonestAt(w', kept, i) {
      if 0 < i < |kept| {
        assert kept[i] == p[i - 1 + b] && HonestAt(w, p, i - 1 + b);
        assert Ids(p)[i - 1 + b] != Ids(p)[0];
      }
    }
  }

  lemma CondenseOthers(w: World, w': World, k: string)
    requires Inv(w) && HonestLanes(w) && k in w.q.lanes && w.q.lanes[k].pending != []
    requires forall x :: x != w.q.lanes[k].pending[0].id ==> CondensedInto(w', x) == CondensedInto(w, x)
    requires forall x :: x in w'.q.lanes && x != k ==> x in w.q.lanes && w'.q.lanes[x] == w.q.lanes[x]
    ensures forall x :: x in w'.q.lanes && x != k ==> HonestLane(w', w'.q.lanes[x].pending)
  {
    assert LaneOk(w, k, w.q.lanes[k]) && PendingOk(w, k, w.q.lanes[k].pending[0]);
    forall x | x in w'.q.lanes && x != k ensures HonestLane(w', w'.q.lanes[x].pending) {
      var p := w.q.lanes[x].pending;
      assert LaneOk(w, x, w.q.lanes[x]);
      forall i ensures HonestAt(w', p, i) {
        assert HonestAt(w, p, i);
        if 0 <= i < |p| { assert PendingOk(w, x, p[i]); }
      }
    }
  }

  lemma OverflowHonest(w: World, k: string)
    requires Inv(w) && HonestLanes(w) && Countable(w) && k in w.q.lanes && w.q.lanes[k].pending != []
    ensures HonestLanes(OverflowWorld(w, k))
  {
    var lane := w.q.lanes[k];
    var p := lane.pending;
    var (kept, gone) := Overflow(p, lane.cap, lane.drop);
    OverflowIsCut(p, lane.cap, lane.drop);
    var a, b := OverflowSpan(kept, gone, p, lane.cap, lane.drop);
    if !lane.drop.Summarize? {
      CutHonest(w, k, lane.(pending := kept), a, b, Dropped, IdSet(gone));
    } else {
      FrontBound(w, k);
      MergedCount(p, lane.cap);
      if gone == [] {
        NothingCondensed(w, k, lane.(pending := kept), Condensed(p[0].id));
      } else {
        CondenseHonest(w, k, kept, gone, b);
      }
    }
  }

  lemma NothingCondensed(w: World, k: string, lane: Lane, f: Fate)
    requires HonestLanes(w) && k in w.q.lanes && lane.pending == w.q.lanes[k].pending
    ensures HonestLanes(CutWorld(w, k, lane, IdSet([]), f, IdSet([])))
  {
    var w' := CutWorld(w, k, lane, IdSet([]), f, IdSet([]));
    assert w'.fate == w.fate;
    forall x ensures CondensedInto(w', x) == CondensedInto(w, x) {
    }
    HonestElsewhere(w, w');
  }

  /** The count of the front plus the messages behind it fits in an int. */
  lemma FrontBound(w: World, k: string)
    requires Inv(w) && HonestLanes(w) && Countable(w) && k in w.q.lanes && w.q.lanes[k].pending != []
    ensures var p := w.q.lanes[k].pending;
            1 <= SummaryCount(p[0].message) && SummaryCount(p[0].message) + |p| <= INT_MAX + 1
  {
    var p := w.q.lanes[k].pending;
    var ids := Ids(p);
    assert LaneOk(w, k, w.q.lanes[k]);
    assert HonestAt(w, p, 0);
    DistinctSize(w.ticket, ids);
    forall id | id in ids ensures id in w.fate && w.fate[id].Waiting? {
      var i :| 0 <= i < |ids| && ids[i] == id;
      assert PendingOk(w, k, p[i]);
    }
    var into := CondensedInto(w, p[0].id);
    assert into !! IdSet(ids);
    assert |into + IdSet(ids)| == |into| + |p|;
    Smaller(into + IdSet(ids), w.fate.Keys);
  }

  // ---------- whole runs ----------

  ghost predicate HonestInv(w: World) { Countable(w) ==> HonestLanes(w) }

  lemma InterruptHonest(w: World, k: string, unindexed: set<string>)
    requires Inv(w) && HonestLanes(w) && k in w.q.lanes
    ensures HonestLanes(InterruptWorld(w, k, unindexed))
  {
    var lane := w.q.lanes[k];
    var n := |lane.pending|;
    var flagged := if lane.active.Some? then w.(interrupted := w.interrupted + {k}) else w;
    assert HonestLanes(flagged) by {
      assert SameCondensed(w, flagged);
      HonestElsewhere(w, flagged);
    }
    SideOk(w, flagged);
    var b := if n > 1 then n - 1 else 0;
    assert Interrupted(lane).pending == lane.pending[..0] + lane.pending[b..];
    CutHonest(flagged, k, Interrupted(lane), 0, b, Flushed, unindexed);
  }

  lemma ArriveHonest(w: World, session: string, mode: Mode)
    requires Inv(w) && HonestLanes(w)
    ensures HonestLanes(ArriveWorld(w, session, mode))
  {
    var lane := LaneOf(w.q, session);
    RelaneOk(w, session, lane);
    RelaneHonest(w, session, lane);
    if EffectiveMode(lane, mode).Interrupt? && lane.active.Some? {
      InterruptHonest(RelaneWorld(w, session, lane), session, {});
    }
  }

  /** A command joins its lane, which is then brought down to its cap unless the command skips it. */
  lemma QueuedHonest(w: World, c: Command, skips: bool)
    requires Inv(w) && HonestLanes(w) && w.plain && |w.fate| < INT_MAX
    requires c.session in w.q.lanes && c.id !in w.fate && !IsSummary(c.message)
    ensures var queued := EnqueueWorld(w, c).(plain := true);
            HonestLanes(if skips then queued else OverflowWorld(queued, c.session))
  {
    var queued := EnqueueWorld(w, c).(plain := true);
    EnqueueStepOk(w, c, true);
    EnqueueHonest(w, c, true);
    EnqueueSize(w, c);
    if !skips {
      OverflowHonest(queued, c.session);
    }
  }

  lemma EnqueueSize(w: World, c: Command)
    requires c.session in w.q.lanes && c.id !in w.fate
    ensures |EnqueueWorld(w, c).fate| == |w.fate| + 1
  {
    assert EnqueueWorld(w, c).fate.Keys == w.fate.Keys + {c.id};
  }

  lemma SubmitHonest(w: World, id: string, session: string, message: string, mode: Mode, now: int)
    requires Inv(w) && HonestLanes(w) && id !in w.fate && !IsSummary(message) && w.plain && |w.fate| < INT_MAX
    ensures HonestLanes(SubmitWorld(w, id, session, message, mode, now))
  {
    var lane := LaneOf(w.q, session);
    ArriveOk(w, session, mode);
    ArriveHonest(w, session, mode);
    var c := Command(id, session, message, EffectiveMode(lane, mode), now, "");
    QueuedHonest(ArriveWorld(w, session, mode), c, SkipsCap(lane, mode));
  }

  lemma DrainHonest(w: World, k: string, lane: Lane)
    requires Inv(w) && HonestLanes(w) && k in w.q.lanes && lane.pending == []
    ensures HonestLanes(CutWorld(w, k, lane, Gone(w, k, 0, |w.q.lanes[k].pending|), Drained, {}))
  {
    var p := w.q.lanes[k].pending;
    assert p[..0] + p[|p|..] == [];
    CutHonest(w, k, lane, 0, |p|, Drained, {});
  }

  lemma DispatchHonest(w: World, k: string, now: int)
    requires Inv(w) && HonestLanes(w)
    ensures HonestLanes(DispatchWorld(w, k, now))
  {
    if Dispatches(w.q, k, now) {
      FrontFacts(w, k);
      StartHonest(w, k);
      StartOk(w, k);
      if Drains(w.q.lanes[k]) {
        DrainHonest(StartWorld(w, k), k, DispatchLane(w.q.lanes[k]));
      }
    }
  }

  lemma {:induction false} PassHonest(w: World, keys: seq<string>, now: int)
    requires Inv(w) && HonestLanes(w)
    ensures HonestLanes(PassWorld(w, keys, now))
  {
    if keys != [] {
      PassOk(w, keys[..|keys| - 1], now);
      PassHonest(w, keys[..|keys| - 1], now);
      DispatchHonest(PassWorld(w, keys[..|keys| - 1], now), keys[|keys| - 1], now);
    }
  }

  lemma CancelHonest(w: World, id: string)
    requires Inv(w) && HonestLanes(w)
    ensures HonestLanes(CancelWorld(w, id))
  {
    if id in w.q.index {
      var k := w.q.index[id];
      var lane := LaneOf(w.q, k);
      var found := RelaneWorld(w, k, lane);
      RelaneOk(w, k, lane);
      RelaneHonest(w, k, lane);
      RemoveHonest(found, id, k, Position(lane.pending, id));
    }
  }

  lemma RemoveHonest(w: World, id: string, k: string, i: nat)
    requires Inv(w) && HonestLanes(w) && k in w.q.lanes
    ensures HonestLanes(RemoveWorld(w, id, k, i))
  {
    var lane := w.q.lanes[k];
    if i < |lane.pending| {
      CutHonest(w, k, lane.(pending := lane.pending[..i] + lane.pending[i + 1..]), i, i + 1, Cancelled, {id});
    } else {
      assert Gone(w, k, 0, 0) == {} && lane.pending == lane.pending[..0] + lane.pending[0..];
      CutHonest(w, k, lane, 0, 0, Cancelled, {id});
    }
  }

  lemma AbortHonest(w: World, k: string)
    requires Inv(w) && HonestLanes(w)
    ensures HonestLanes(AbortWorld(w, k))
  {
    if k in w.q.lanes {
      var active := w.q.lanes[k].active;
      InterruptHonest(w, k, if active.Some? then {active.value.id} else {});
    }
  }

  lemma SweepHonest(w: World, keys: seq<string>, now: int)
    requires Inv(w) && HonestLanes(w)
    ensures HonestLanes(SweepWorld(PassWorld(w, keys, now)))
  {
    PassHonest(w, keys, now);
    PlainStepsHonest(PassWorld(w, keys, now), SweepWorld(PassWorld(w, keys, now)));
  }

  lemma PlainStepsHonest(w: World, w': World)
    requires HonestLanes(w)
    requires forall x :: x in w.fate && x in w'.fate && (w.fate[x].Condensed? || w'.fate[x].Condensed?) ==> w'.fate[x] == w.fate[x]
    requires w'.fate.Keys == w.fate.Keys
    requires forall k :: k in w'.q.lanes && w'.q.lanes[k].pending != [] ==> k in w.q.lanes && w'.q.lanes[k].pending == w.q.lanes[k].pending
    ensures HonestLanes(w')
  {
    forall x ensures CondensedInto(w', x) == CondensedInto(w, x) {
    }
    HonestElsewhere(w, w');
  }

  lemma PlainNextHonest(w: World, s: Step)
    requires HonestLanes(w) && Enabled(w, s) && (s.ConfigureStep? || s.SetConfigStep? || s.FinishStep?)
    ensures HonestLanes(Next(w, s))
  {
    PlainStepsHonest(w, Next(w, s));
  }

  lemma NextHonest(w: World, s: Step)
    requires Inv(w) && Enabled(w, s) && HonestInv(w)
    ensures HonestInv(Next(w, s))
  {
    NextOk(w, s);
    if Countable(Next(w, s)) {
      match s {
        case SubmitStep(id, session, message, mode, now) =>
          SubmitSize(w, id, session, message, mode, now);
          SubmitHonest(w, id, session, message, mode, now);
        case CancelStep(id) => CancelHonest(w, id);
        case AbortStep(session) => AbortHonest(w, session);
        case DispatchStep(keys, now) => SweepHonest(w, keys, now);
        case _ => PlainNextHonest(w, s);
      }
    }
  }

  lemma SubmitSize(w: World, id: string, session: string, message: string, mode: Mode, now: int)
    requires Inv(w) && id !in w.fate
    ensures var w' := SubmitWorld(w, id, session, message, mode, now);
            |w'.fate| == |w.fate| + 1 && (w'.plain <==> w.plain && !IsSummary(message))
  {
    var lane := LaneOf(w.q, session);
    var arrived := ArriveWorld(w, session, mode);
    ArriveOk(w, session, mode);
    assert |arrived.fate.Keys| == |w.fate.Keys|;
    var c := Command(id, session, message, EffectiveMode(lane, mode), now, "");
    EnqueueSize(arrived, c);
    if !SkipsCap(lane, mode) {
      OverflowSize(EnqueueWorld(arrived, c).(plain := w.plain && !IsSummary(message)), session);
    }
  }

  lemma OverflowSize(w: World, k: string)
    requires k in w.q.lanes && w.q.lanes[k].pending != []
    ensures |OverflowWorld(w, k).fate| == |w.fate| && OverflowWorld(w, k).plain == w.plain
  {
    assert OverflowWorld(w, k).fate.Keys == w.fate.Keys;
  }

  lemma {:induction false} RunHonest(w: World, steps: seq<Step>)
    requires Inv(w) && HonestInv(w) && IsRun(w, steps)
    ensures HonestInv(After(w, steps))
    decreases |steps|
  {
    if steps != [] {
      NextOk(w, steps[0]);
      NextHonest(w, steps[0]);
      RunHonest(Next(w, steps[0]), steps[1..]);
    }
  }

  /**
    Over any run whose submitted texts do not start with the summary mark: the
    count a pending text prints reads back as one plus the number of messages
    condensed into that command, and only the front of a lane stands for more
    than itself.
   */
  lemma SummariesAreHonest(config: QueueConfig, steps: seq<Step>, k: string, i: nat)
    requires IsRun(Initial(config), steps) && Countable(After(Initial(config), steps))
    requires var q := After(Initial(config), steps).q; k in q.lanes && i < |q.lanes[k].pending|
    ensures var w := After(Initial(config), steps);
            var c := w.q.lanes[k].pending[i];
            && SummaryCount(c.message) == 1 + |CondensedInto(w, c.id)|
            && (IsSummary(c.message) <==> CondensedInto(w, c.id) != {})
            && (i > 0 ==> !IsSummary(c.message))
  {
    var w := After(Initial(config), steps);
    assert Inv(Initial(config));
    RunHonest(Initial(config), steps);
    assert HonestLane(w, w.q.lanes[k].pending);
    assert HonestAt(w, w.q.lanes[k].pending, i);
  }
}
