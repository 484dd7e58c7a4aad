/**
  Runs of the command queue. A ledger records what became of every command; the
  invariant ties it to the queue in every interleaving of submissions, cancels,
  aborts, reconfigurations, dispatcher passes and worker completions.
 */
module QueueRuns {
  import opened Basics
  import opened Text
  import opened QueueSummary
  import opened QueueModel

  datatype Fate =
    | Waiting                    // pending in its lane
    | Running                    // handed to a worker that has not reported back
    | Finished
    | Cancelled
    | Condensed(into: string)    // merged into an older command by overflow
    | Dropped                    // lost to overflow
    | Drained                    // taken along or discarded by a dispatch
    | Flushed                    // cleared by an interrupt or abort

  predicate WasDispatched(f: Fate) { f.Running? || f.Finished? }

  predicate IsOver(f: Fate) { !f.Waiting? && !f.Running? }

  datatype World = World(
    q: Queue,
    fate: map<string, Fate>,     // every id ever submitted
    home: map<string, string>,   // the session it was submitted to
    ticket: map<string, nat>,    // its place in the order of submission
    next: nat,
    dispatched: seq<string>,     // ids handed to workers, in order
    interrupted: set<string>,    // sessions in which an active command was ever interrupted
    peak: int,                   // the largest concurrency limit ever in force
    plain: bool                  // no submitted text looked like a queue summary
  )

  function RunningIds(fate: map<string, Fate>): set<string> { set id | id in fate && fate[id].Running? }

  function CondensedInto(w: World, id: string): set<string> { set x | x in w.fate && w.fate[x] == Condensed(id) }

  // ---------- the invariant ----------

  predicate LedgerOk(w: World) {
    w.fate.Keys == w.home.Keys == w.ticket.Keys &&
    (forall id :: id in w.ticket ==> w.ticket[id] < w.next) &&
    (forall id :: id in w.fate && w.fate[id].Condensed? ==> w.fate[id].into in w.fate) &&
    (forall id :: id in w.q.index ==> id in w.home && w.q.index[id] == w.home[id])
  }

  /** A pending command waits, belongs to its lane, and can be found by its id. */
  predicate PendingOk(w: World, k: string, c: Command) {
    c.session == k && c.id in w.fate && c.id in w.home && c.id in w.ticket && c.id in w.q.index &&
    w.fate[c.id].Waiting? && w.home[c.id] == k
  }

  predicate InOrder(ticket: map<string, nat>, ids: seq<string>) {
    (forall i :: 0 <= i < |ids| ==> ids[i] in ticket) &&
    forall i, j :: 0 <= i < j < |ids| ==> ticket[ids[i]] < ticket[ids[j]]
  }

  predicate ActiveOk(w: World, k: string, active: Option<Command>) {
    active.Some? ==> active.value.id in RunningIds(w.fate) && active.value.id in w.home && w.home[active.value.id] == k
  }

  predicate LaneOk(w: World, k: string, lane: Lane) {
    (forall i :: 0 <= i < |lane.pending| ==> PendingOk(w, k, lane.pending[i])) &&
    InOrder(w.ticket, Ids(lane.pending)) && ActiveOk(w, k, lane.active)
  }

  predicate LanesOk(w: World) { forall k :: k in w.q.lanes ==> LaneOk(w, k, w.q.lanes[k]) }

  predicate IsPending(w: World, id: string) {
    id in w.home && w.home[id] in w.q.lanes && id in Ids(w.q.lanes[w.home[id]].pending)
  }

  // The quantified parts of the invariant are named, so that a proof says which instance it uses.

  predicate Waits(w: World, id: string) { id in w.fate && w.fate[id].Waiting? ==> IsPending(w, id) }

  ghost predicate WaitingOk(w: World) { forall id :: Waits(w, id) }

  predicate CountOk(w: World) {
    w.q.activeCount == |RunningIds(w.fate)| && w.q.activeCount <= w.peak && w.q.config.maxConcurrent <= w.peak
  }

  /** The log of dispatches holds what runs and what finished. */
  predicate LogOk(w: World) {
    (forall i :: 0 <= i < |w.dispatched| ==> w.dispatched[i] in w.fate && WasDispatched(w.fate[w.dispatched[i]])) &&
    forall id :: id in w.fate && WasDispatched(w.fate[id]) ==> id in w.dispatched
  }

  predicate Ahead(w: World, d: string, id: string) {
    (d in w.fate && id in w.fate && d in w.home && id in w.home && d in w.ticket && id in w.ticket &&
     WasDispatched(w.fate[d]) && w.fate[id].Waiting? && w.home[d] == w.home[id])
    ==> w.ticket[d] < w.ticket[id]
  }

  /** Whatever was dispatched came before everything of its session that still waits. */
  ghost predicate AheadOk(w: World) { forall d, id :: Ahead(w, d, id) }

  predicate LoggedInOrder(w: World, i: int, j: int) {
    (0 <= i < j < |w.dispatched| && w.dispatched[i] in w.home && w.dispatched[j] in w.home &&
     w.dispatched[i] in w.ticket && w.dispatched[j] in w.ticket && w.home[w.dispatched[i]] == w.home[w.dispatched[j]])
    ==> w.ticket[w.dispatched[i]] < w.ticket[w.dispatched[j]]
  }

  /** Commands of one session are dispatched in the order they were submitted. */
  ghost predicate OrderOk(w: World) { forall i, j :: LoggedInOrder(w, i, j) }

  predicate Owned(w: World, id: string) {
    id in RunningIds(w.fate) && id in w.home && w.home[id] !in w.interrupted ==>
      w.home[id] in w.q.lanes && w.q.lanes[w.home[id]].active.Some? && w.q.lanes[w.home[id]].active.value.id == id
  }

  /** Unless its session was interrupted, a running command is the active one of its lane. */
  ghost predicate OwnedOk(w: World) { forall id :: Owned(w, id) }

  ghost predicate Inv(w: World) {
    LedgerOk(w) && LanesOk(w) && WaitingOk(w) && CountOk(w) && OwnedOk(w) && LogOk(w) && AheadOk(w) && OrderOk(w)
  }

  function Initial(config: QueueConfig): World {
    World(Queue(config, map[], map[], 0), map[], map[], map[], 0, [], {}, Max(0, config.maxConcurrent), true)
  }

  // ---------- building blocks ----------

  function Mark(fate: map<string, Fate>, ids: set<string>, f: Fate): map<string, Fate> {
    map id | id in fate :: if id in ids then f else fate[id]
  }

  /** Commands leave a lane; their index entries may go too. */
  function CutWorld(w: World, k: string, lane: Lane, gone: set<string>, f: Fate, unindexed: set<string>): World {
    w.(q := w.q.(lanes := w.q.lanes[k := lane], index := w.q.index - unindexed), fate := Mark(w.fate, gone, f))
  }

  lemma CutStaysInOrder(ticket: map<string, nat>, ids: seq<string>, a: nat, b: nat)
    requires InOrder(ticket, ids) && a <= b <= |ids|
    ensures InOrder(ticket, ids[..a] + ids[b..])
  {
    var kept := ids[..a] + ids[b..];
    assert forall i :: 0 <= i < |kept| ==> kept[i] == ids[if i < a then i else i - a + b];
  }

  /** A cut of an ordered sequence is ordered, and holds exactly the ids not cut. */
  lemma CutInOrder(ticket: map<string, nat>, ids: seq<string>, a: nat, b: nat)
    requires InOrder(ticket, ids) && a <= b <= |ids|
    ensures InOrder(ticket, ids[..a] + ids[b..])
    ensures forall id :: id in ids ==> (id in ids[a..b] <==> id !in ids[..a] + ids[b..])
    ensures forall id :: id in ids[..a] + ids[b..] ==> id in ids
    ensures forall id :: id in ids[a..b] ==> id in ids
  {
    CutStaysInOrder(ticket, ids, a, b);
    var kept := ids[..a] + ids[b..];
    forall id | id in ids ensures id in ids[a..b] <==> id !in kept {
      var s :| 0 <= s < |ids| && ids[s] == id;
      CutMember(ticket, ids, a, b, s);
    }
  }

  lemma CutMember(ticket: map<string, nat>, ids: seq<string>, a: nat, b: nat, s: nat)
    requires InOrder(ticket, ids) && a <= b <= |ids| && s < |ids|
    ensures ids[s] in ids[a..b] <==> ids[s] !in ids[..a] + ids[b..]
  {
    OnlyAt(ticket, ids, s);
    if a <= s < b {
      assert ids[a..b][s - a] == ids[s];
    } else if s < a {
      assert ids[..a][s] == ids[s];
    } else {
      assert ids[b..][s - b] == ids[s];
    }
  }

  lemma OnlyAt(ticket: map<string, nat>, ids: seq<string>, s: nat)
    requires InOrder(ticket, ids) && s < |ids|
    ensures forall t :: 0 <= t < |ids| && ids[t] == ids[s] ==> t == s
  {
  }

  lemma CutHasIds(p': seq<Command>, p: seq<Command>, a: nat, b: nat)
    requires IsCut(p', p, a, b)
    ensures Ids(p') == Ids(p)[..a] + Ids(p)[b..] && Ids(p[a..b]) == Ids(p)[a..b]
  {
  }

  /** Nothing that concerns session k differs between w and w'. */
  predicate Agrees(w: World, w': World, k: string)
    requires LedgerOk(w)
  {
    forall id :: id in w.fate && w.home[id] == k ==>
      id in w'.fate && id in w'.home && id in w'.ticket &&
      w'.fate[id] == w.fate[id] && w'.home[id] == k && w'.ticket[id] == w.ticket[id] &&
      (w.fate[id].Waiting? && id in w.q.index ==> id in w'.q.index)
  }

  lemma LaneFrame(w: World, w': World, k: string, lane: Lane)
    requires LedgerOk(w) && Agrees(w, w', k) && LaneOk(w, k, lane)
    ensures LaneOk(w', k, lane)
  {
    var ids := Ids(lane.pending);
    forall i | 0 <= i < |lane.pending|
      ensures PendingOk(w', k, lane.pending[i]) && ids[i] in w'.ticket && w'.ticket[ids[i]] == w.ticket[ids[i]]
    {
      assert PendingOk(w, k, lane.pending[i]);
    }
  }

  // Each part of the invariant needs only part of a step to be known.

  lemma LedgerFrame(w: World, w': World)
    requires LedgerOk(w) && w'.home == w.home && w'.ticket == w.ticket && w'.next == w.next && w'.fate.Keys == w.fate.Keys
    requires forall id :: id in w'.fate && w'.fate[id].Condensed? ==> w'.fate[id].into in w'.fate
    requires forall id :: id in w'.q.index ==> id in w.q.index && w'.q.index[id] == w.q.index[id]
    ensures LedgerOk(w')
  {
  }

  lemma LogFrame(w: World, w': World)
    requires LedgerOk(w) && LedgerOk(w') && LogOk(w) && AheadOk(w) && OrderOk(w)
    requires w'.home == w.home && w'.ticket == w.ticket && w'.dispatched == w.dispatched && w'.fate.Keys == w.fate.Keys
    requires forall id :: id in w.fate ==>
               (w'.fate[id].Waiting? ==> w.fate[id].Waiting?) && (WasDispatched(w'.fate[id]) <==> WasDispatched(w.fate[id]))
    ensures LogOk(w') && AheadOk(w') && OrderOk(w')
  {
    forall d, id ensures Ahead(w', d, id) {
      assert Ahead(w, d, id);
    }
    forall i, j ensures LoggedInOrder(w', i, j) {
      assert LoggedInOrder(w, i, j);
    }
  }

  lemma OwnedFrame(w: World, w': World)
    requires LedgerOk(w) && LedgerOk(w') && OwnedOk(w)
    requires w'.home == w.home && RunningIds(w'.fate) <= RunningIds(w.fate) && w.interrupted <= w'.interrupted
    requires forall k :: k in w.q.lanes && k !in w'.interrupted ==> k in w'.q.lanes && w'.q.lanes[k].active == w.q.lanes[k].active
    ensures OwnedOk(w')
  {
    forall id ensures Owned(w', id) {
      assert Owned(w, id);
    }
  }

  /** When commands [a, b) may leave lane k and end as f. */
  ghost predicate CutPre(w: World, k: string, lane: Lane, a: nat, b: nat, f: Fate, unindexed: set<string>) {
    Inv(w) && k in w.q.lanes && IsCut(lane.pending, w.q.lanes[k].pending, a, b) &&
    IsOver(f) && !f.Finished? && (f.Condensed? ==> f.into in w.fate) &&
    (lane.active == w.q.lanes[k].active || (lane.active.None? && k in w.interrupted)) &&
    forall id :: id in unindexed && id in w.fate && w.fate[id].Waiting? ==> id in Ids(w.q.lanes[k].pending)[a..b]
  }

  function Gone(w: World, k: string, a: nat, b: nat): set<string>
    requires k in w.q.lanes && a <= b <= |w.q.lanes[k].pending|
  {
    IdSet(Ids(w.q.lanes[k].pending)[a..b])
  }

  lemma GoneWereWaiting(w: World, k: string, a: nat, b: nat)
    requires Inv(w) && k in w.q.lanes && a <= b <= |w.q.lanes[k].pending|
    ensures forall id :: id in Gone(w, k, a, b) ==> id in w.fate && w.fate[id].Waiting? && w.home[id] == k
  {
    var p := w.q.lanes[k].pending;
    assert LaneOk(w, k, w.q.lanes[k]);
    forall id | id in Ids(p)[a..b] ensures id in w.fate && w.fate[id].Waiting? && w.home[id] == k {
      var i :| 0 <= i < b - a && Ids(p)[a..b][i] == id;
      assert PendingOk(w, k, p[a + i]);
    }
  }

  lemma CutOk(w: World, k: string, lane: Lane, a: nat, b: nat, f: Fate, unindexed: set<string>)
    requires CutPre(w, k, lane, a, b, f, unindexed)
    ensures Inv(CutWorld(w, k, lane, Gone(w, k, a, b), f, unindexed))
  {
    CutKeepsLanes(w, k, lane, a, b, f, unindexed);
    CutKeepsWaiting(w, k, lane, a, b, f, unindexed);
    CutKeepsRest(w, k, lane, a, b, f, unindexed);
  }

  lemma CutLedger(w: World, k: string, lane: Lane, a: nat, b: nat, f: Fate, unindexed: set<string>)
    requires CutPre(w, k, lane, a, b, f, unindexed)
    ensures LedgerOk(CutWorld(w, k, lane, Gone(w, k, a, b), f, unindexed))
  {
    LedgerFrame(w, CutWorld(w, k, lane, Gone(w, k, a, b), f, unindexed));
  }

  lemma CutKeepsRest(w: World, k: string, lane: Lane, a: nat, b: nat, f: Fate, unindexed: set<string>)
    requires CutPre(w, k, lane, a, b, f, unindexed)
    ensures var w' := CutWorld(w, k, lane, Gone(w, k, a, b), f, unindexed);
            LedgerOk(w') && CountOk(w') && LogOk(w') && AheadOk(w') && OrderOk(w') && OwnedOk(w')
  {
    var w' := CutWorld(w, k, lane, Gone(w, k, a, b), f, unindexed);
    CutLedger(w, k, lane, a, b, f, unindexed);
    GoneWereWaiting(w, k, a, b);
    MarkFates(w.fate, Gone(w, k, a, b), f);
    assert LogOk(w') && AheadOk(w') && OrderOk(w') by { LogFrame(w, w'); }
    assert OwnedOk(w') by { OwnedFrame(w, w'); }
  }

  /** Ending commands that wait does not touch those that run or ran. */
  lemma MarkFates(fate: map<string, Fate>, gone: set<string>, f: Fate)
    requires IsOver(f) && !f.Finished? && forall id :: id in gone ==> id in fate && fate[id].Waiting?
    ensures RunningIds(Mark(fate, gone, f)) == RunningIds(fate)
    ensures forall id :: id in fate ==>
              (Mark(fate, gone, f)[id].Waiting? ==> fate[id].Waiting?) &&
              (WasDispatched(Mark(fate, gone, f)[id]) <==> WasDispatched(fate[id]))
  {
  }

  /** The commands kept by a cut are as sound as they were. */
  lemma CutPending(w: World, w': World, k: string, p': seq<Command>, p: seq<Command>, a: nat, b: nat)
    requires IsCut(p', p, a, b) && forall i :: 0 <= i < |p| ==> PendingOk(w, k, p[i])
    requires w'.home == w.home && w'.ticket == w.ticket
    requires forall i :: 0 <= i < |p'| ==> p'[i].id in w'.fate && w'.fate[p'[i].id].Waiting? && p'[i].id in w'.q.index
    ensures forall i :: 0 <= i < |p'| ==> PendingOk(w', k, p'[i])
  {
    forall i | 0 <= i < |p'| ensures PendingOk(w', k, p'[i]) {
      var s := if i < a then i else i - a + b;
      assert p'[i].id == p[s].id && p'[i].session == p[s].session && PendingOk(w, k, p[s]);
    }
  }

  lemma CutLane(w: World, k: string, lane: Lane, a: nat, b: nat, f: Fate, unindexed: set<string>)
    requires CutPre(w, k, lane, a, b, f, unindexed)
    ensures LaneOk(CutWorld(w, k, lane, Gone(w, k, a, b), f, unindexed), k, lane)
  {
    var w' := CutWorld(w, k, lane, Gone(w, k, a, b), f, unindexed);
    var was, ids := w.q.lanes[k].pending, Ids(lane.pending);
    assert LaneOk(w, k, w.q.lanes[k]);
    CutHasIds(lane.pending, was, a, b);
    CutInOrder(w.ticket, Ids(was), a, b);
    forall i | 0 <= i < |lane.pending|
      ensures ids[i] in w'.fate && w'.fate[ids[i]].Waiting? && ids[i] in w'.q.index
    {
      assert ids[i] in ids && ids[i] in Ids(was) && ids[i] !in Ids(was)[a..b];
      var s :| 0 <= s < |was| && Ids(was)[s] == ids[i];
      assert PendingOk(w, k, was[s]);
    }
    CutPending(w, w', k, lane.pending, was, a, b);
    GoneWereWaiting(w, k, a, b);
    MarkFates(w.fate, Gone(w, k, a, b), f);
  }

  lemma CutKeepsLanes(w: World, k: string, lane: Lane, a: nat, b: nat, f: Fate, unindexed: set<string>)
    requires CutPre(w, k, lane, a, b, f, unindexed)
    ensures LanesOk(CutWorld(w, k, lane, Gone(w, k, a, b), f, unindexed))
  {
    var w' := CutWorld(w, k, lane, Gone(w, k, a, b), f, unindexed);
    GoneWereWaiting(w, k, a, b);
    CutLane(w, k, lane, a, b, f, unindexed);
    forall x | x in w'.q.lanes && x != k ensures LaneOk(w', x, w'.q.lanes[x]) {
      LaneFrame(w, w', x, w.q.lanes[x]);
    }
  }

  lemma CutKeepsWaiting(w: World, k: string, lane: Lane, a: nat, b: nat, f: Fate, unindexed: set<string>)
    requires CutPre(w, k, lane, a, b, f, unindexed)
    ensures WaitingOk(CutWorld(w, k, lane, Gone(w, k, a, b), f, unindexed))
  {
    var w' := CutWorld(w, k, lane, Gone(w, k, a, b), f, unindexed);
    var was := w.q.lanes[k].pending;
    CutHasIds(lane.pending, was, a, b);
    assert LaneOk(w, k, w.q.lanes[k]);
    CutInOrder(w.ticket, Ids(was), a, b);
    forall id | id in w'.fate && w'.fate[id].Waiting? ensures Waits(w', id) {
      assert id in w.fate && w.fate[id].Waiting? && id !in Gone(w, k, a, b);
      assert Waits(w, id);
    }
  }

  /** A lane whose commands stay as they are: new and empty, or reconfigured. */
  function RelaneWorld(w: World, k: string, lane: Lane): World {
    w.(q := w.q.(lanes := w.q.lanes[k := lane]))
  }

  lemma RelaneLanes(w: World, k: string, lane: Lane)
    requires LedgerOk(w) && LanesOk(w) && lane.pending == LaneOf(w.q, k).pending && lane.active == LaneOf(w.q, k).active
    ensures LanesOk(RelaneWorld(w, k, lane))
  {
    var w' := RelaneWorld(w, k, lane);
    forall x | x in w'.q.lanes ensures LaneOk(w', x, w'.q.lanes[x]) {
      if x in w.q.lanes { LaneFrame(w, w', x, w.q.lanes[x]); }
    }
  }

  lemma RelaneWaiting(w: World, k: string, lane: Lane)
    requires WaitingOk(w) && lane.pending == LaneOf(w.q, k).pending
    ensures WaitingOk(RelaneWorld(w, k, lane))
  {
    var w' := RelaneWorld(w, k, lane);
    forall id | id in w'.fate && w'.fate[id].Waiting? ensures Waits(w', id) {
      assert Waits(w, id);
    }
  }

  lemma RelaneOk(w: World, k: string, lane: Lane)
    requires Inv(w) && lane.pending == LaneOf(w.q, k).pending && lane.active == LaneOf(w.q, k).active
    ensures Inv(RelaneWorld(w, k, lane))
  {
    var w' := RelaneWorld(w, k, lane);
    RelaneLanes(w, k, lane);
    RelaneWaiting(w, k, lane);
    assert LedgerOk(w') by { LedgerFrame(w, w'); }
    assert LogOk(w') && AheadOk(w') && OrderOk(w') by { LogFrame(w, w'); }
    assert OwnedOk(w') by { OwnedFrame(w, w'); }
  }

  /** Flags, limits and the like: the lanes and the ledger stay as they are. */
  lemma SideOk(w: World, w': World)
    requires Inv(w) && w'.q.lanes == w.q.lanes && w'.q.index == w.q.index && w'.fate == w.fate && w'.home == w.home
    requires w'.ticket == w.ticket && w'.next == w.next && w'.dispatched == w.dispatched && w.interrupted <= w'.interrupted
    requires CountOk(w')
    ensures Inv(w')
  {
    SideLanes(w, w');
    assert LogOk(w') && AheadOk(w') && OrderOk(w') by { LogFrame(w, w'); }
    assert OwnedOk(w') by { OwnedFrame(w, w'); }
  }

  lemma SideLanes(w: World, w': World)
    requires LedgerOk(w) && LanesOk(w) && WaitingOk(w) && w'.q.lanes == w.q.lanes && w'.q.index == w.q.index
    requires w'.fate == w.fate && w'.home == w.home && w'.ticket == w.ticket
    ensures LanesOk(w') && WaitingOk(w')
  {
    forall x | x in w'.q.lanes ensures LaneOk(w', x, w'.q.lanes[x]) {
      LaneFrame(w, w', x, w.q.lanes[x]);
    }
    forall id ensures Waits(w', id) {
      assert Waits(w, id);
    }
  }

  // ---------- enqueueing ----------

  /** A new command joins the end of an existing lane. */
  function EnqueueWorld(w: World, c: Command): World
    requires c.session in w.q.lanes
  {
    var lane := w.q.lanes[c.session];
    w.(q := w.q.(lanes := w.q.lanes[c.session := lane.(pending := lane.pending + [c])], index := w.q.index[c.id := c.session]),
       fate := w.fate[c.id := Waiting], home := w.home[c.id := c.session],
       ticket := w.ticket[c.id := w.next], next := w.next + 1)
  }

  lemma EnqueueLane(w: World, c: Command)
    requires LedgerOk(w) && LanesOk(w) && c.session in w.q.lanes && c.id !in w.fate
    ensures LaneOk(EnqueueWorld(w, c), c.session, EnqueueWorld(w, c).q.lanes[c.session])
  {
    var w' := EnqueueWorld(w, c);
    var lane := w.q.lanes[c.session];
    assert LaneOk(w, c.session, lane);
    LaneFrame(w, w', c.session, lane);
    assert Ids(lane.pending + [c]) == Ids(lane.pending) + [c.id];
    forall i | 0 <= i < |lane.pending| ensures w'.ticket[Ids(lane.pending)[i]] < w'.ticket[c.id] {
      assert PendingOk(w, c.session, lane.pending[i]);
    }
  }

  lemma EnqueueLanes(w: World, c: Command)
    requires LedgerOk(w) && LanesOk(w) && c.session in w.q.lanes && c.id !in w.fate
    ensures LanesOk(EnqueueWorld(w, c))
  {
    var w' := EnqueueWorld(w, c);
    EnqueueLane(w, c);
    forall x | x in w'.q.lanes && x != c.session ensures LaneOk(w', x, w'.q.lanes[x]) {
      LaneFrame(w, w', x, w.q.lanes[x]);
    }
  }

  lemma EnqueueWaiting(w: World, c: Command)
    requires LedgerOk(w) && WaitingOk(w) && c.session in w.q.lanes && c.id !in w.fate
    ensures WaitingOk(EnqueueWorld(w, c))
  {
    var w' := EnqueueWorld(w, c);
    var p := w.q.lanes[c.session].pending;
    assert Ids(p + [c]) == Ids(p) + [c.id];
    forall id | id in w'.fate && w'.fate[id].Waiting? ensures Waits(w', id) {
      if id == c.id {
        assert Ids(p + [c])[|p|] == c.id;
      } else {
        assert Waits(w, id);
      }
    }
  }

  lemma EnqueueLedger(w: World, c: Command)
    requires LedgerOk(w) && c.session in w.q.lanes && c.id !in w.fate
    ensures LedgerOk(EnqueueWorld(w, c))
  {
  }

  lemma EnqueueLog(w: World, c: Command)
    requires LedgerOk(w) && LogOk(w) && AheadOk(w) && OrderOk(w) && c.session in w.q.lanes && c.id !in w.fate
    ensures LogOk(EnqueueWorld(w, c)) && AheadOk(EnqueueWorld(w, c)) && OrderOk(EnqueueWorld(w, c))
  {
    var w' := EnqueueWorld(w, c);
    forall d, id ensures Ahead(w', d, id) {
      assert Ahead(w, d, id);
    }
    forall i, j ensures LoggedInOrder(w', i, j) {
      assert LoggedInOrder(w, i, j);
    }
  }

  lemma EnqueueOwned(w: World, c: Command)
    requires CountOk(w) && OwnedOk(w) && c.session in w.q.lanes && c.id !in w.fate
    ensures CountOk(EnqueueWorld(w, c)) && OwnedOk(EnqueueWorld(w, c))
  {
    var w' := EnqueueWorld(w, c);
    assert RunningIds(w'.fate) == RunningIds(w.fate);
    forall id ensures Owned(w', id) {
      assert Owned(w, id);
    }
  }

  lemma EnqueueOk(w: World, c: Command)
    requires Inv(w) && c.session in w.q.lanes && c.id !in w.fate
    ensures Inv(EnqueueWorld(w, c))
  {
    EnqueueLedger(w, c);
    EnqueueLanes(w, c);
    EnqueueWaiting(w, c);
    EnqueueLog(w, c);
    EnqueueOwned(w, c);
  }

  // ---------- starting, finishing, sweeping ----------

  /** The front command of an idle lane is handed to a worker. */
  function StartWorld(w: World, k: string): World
    requires k in w.q.lanes && w.q.lanes[k].pending != []
  {
    var lane := w.q.lanes[k];
    var id := lane.pending[0].id;
    w.(q := w.q.(lanes := w.q.lanes[k := Activated(lane)], index := w.q.index - {id}, activeCount := w.q.activeCount + 1),
       fate := w.fate[id := Running], dispatched := w.dispatched + [id])
  }

  ghost predicate CanStart(w: World, k: string) {
    Inv(w) && k in w.q.lanes && w.q.lanes[k].pending != [] && w.q.lanes[k].active.None? &&
    w.q.activeCount < w.q.config.maxConcurrent
  }

  /** The front command waits, and is the earliest of its session. */
  predicate IsFront(w: World, k: string, id: string)
    requires LedgerOk(w)
  {
    id in w.fate && w.fate[id].Waiting? && w.home[id] == k &&
    forall x :: x in w.fate && w.fate[x].Waiting? && w.home[x] == k && x != id ==> w.ticket[id] < w.ticket[x]
  }

  lemma FrontFacts(w: World, k: string)
    requires LedgerOk(w) && LanesOk(w) && WaitingOk(w) && k in w.q.lanes && w.q.lanes[k].pending != []
    ensures IsFront(w, k, w.q.lanes[k].pending[0].id)
  {
    var p := w.q.lanes[k].pending;
    assert LaneOk(w, k, w.q.lanes[k]) && PendingOk(w, k, p[0]);
    forall x | x in w.fate && w.fate[x].Waiting? && w.home[x] == k && x != p[0].id ensures w.ticket[p[0].id] < w.ticket[x] {
      assert Waits(w, x);
      var i :| 0 <= i < |p| && Ids(p)[i] == x;
      assert Ids(p)[0] == p[0].id;
    }
  }

  lemma StartLane(w: World, k: string)
    requires LedgerOk(w) && k in w.q.lanes && LaneOk(w, k, w.q.lanes[k]) && w.q.lanes[k].pending != []
    ensures LaneOk(StartWorld(w, k), k, StartWorld(w, k).q.lanes[k])
  {
    var w' := StartWorld(w, k);
    var p := w.q.lanes[k].pending;
    assert PendingOk(w, k, p[0]);
    assert Ids(p[1..]) == Ids(p)[1..] && Ids(p)[0] == p[0].id;
    OnlyAt(w.ticket, Ids(p), 0);
    forall i | 0 <= i < |p[1..]| ensures PendingOk(w', k, p[1..][i]) {
      assert PendingOk(w, k, p[i + 1]) && Ids(p)[i + 1] == p[i + 1].id;
    }
  }

  lemma StartLanes(w: World, k: string)
    requires LedgerOk(w) && LanesOk(w) && k in w.q.lanes && w.q.lanes[k].pending != []
    requires w.q.lanes[k].pending[0].id in w.home && w.home[w.q.lanes[k].pending[0].id] == k
    ensures LanesOk(StartWorld(w, k))
  {
    var w' := StartWorld(w, k);
    StartLane(w, k);
    forall x | x in w'.q.lanes && x != k ensures LaneOk(w', x, w'.q.lanes[x]) {
      LaneFrame(w, w', x, w.q.lanes[x]);
    }
  }

  lemma StartWaiting(w: World, k: string)
    requires LedgerOk(w) && WaitingOk(w) && k in w.q.lanes && w.q.lanes[k].pending != []
    ensures WaitingOk(StartWorld(w, k))
  {
    var w' := StartWorld(w, k);
    var p := w.q.lanes[k].pending;
    assert Ids(p[1..]) == Ids(p)[1..];
    forall id | id in w'.fate && w'.fate[id].Waiting? ensures Waits(w', id) {
      assert id != p[0].id && Waits(w, id);
      if w.home[id] == k {
        var i :| 0 <= i < |p| && Ids(p)[i] == id;
        assert Ids(p[1..])[i - 1] == id;
      }
    }
  }

  /** w' is w with the front command of k handed out. */
  predicate Starts(w: World, w': World, k: string, id: string)
    requires LedgerOk(w)
  {
    IsFront(w, k, id) && w'.fate == w.fate[id := Running] && w'.home == w.home && w'.ticket == w.ticket && w'.next == w.next &&
    w'.dispatched == w.dispatched + [id] && w'.q.index == w.q.index - {id}
  }

  lemma StartLedger(w: World, w': World, k: string, id: string)
    requires LedgerOk(w) && Starts(w, w', k, id)
    ensures LedgerOk(w')
  {
    LedgerFrame(w, w');
  }

  lemma StartLog(w: World, w': World, k: string, id: string)
    requires LedgerOk(w) && Starts(w, w', k, id) && LogOk(w) && AheadOk(w) && OrderOk(w)
    ensures LogOk(w') && AheadOk(w') && OrderOk(w')
  {
    forall x | x in w'.fate && WasDispatched(w'.fate[x]) ensures x in w'.dispatched {
      if x == id {
        assert w'.dispatched[|w.dispatched|] == id;
      } else {
        assert x in w.dispatched;
      }
    }
    forall d, x ensures Ahead(w', d, x) {
      assert Ahead(w, d, x);
    }
    forall i, j ensures LoggedInOrder(w', i, j) {
      assert LoggedInOrder(w, i, j);
      if 0 <= i < j == |w.dispatched| { assert Ahead(w, w.dispatched[i], id); }
    }
  }

  lemma StartOwned(w: World, k: string, id: string, w': World)
    requires LedgerOk(w) && OwnedOk(w) && IsFront(w, k, id) && k in w.q.lanes && w.q.lanes[k].active.None?
    requires w'.fate == w.fate[id := Running] && w'.home == w.home && w'.interrupted == w.interrupted
    requires k in w'.q.lanes && w'.q.lanes[k].active.Some? && w'.q.lanes[k].active.value.id == id
    requires forall x :: x in w.q.lanes && x != k ==> x in w'.q.lanes && w'.q.lanes[x] == w.q.lanes[x]
    ensures OwnedOk(w')
  {
    forall x ensures Owned(w', x) {
      assert Owned(w, x);
    }
  }

  lemma StartCount(w: World, k: string)
    requires CountOk(w) && k in w.q.lanes && w.q.lanes[k].pending != [] && w.q.activeCount < w.q.config.maxConcurrent
    requires w.q.lanes[k].pending[0].id in w.fate && w.fate[w.q.lanes[k].pending[0].id].Waiting?
    ensures CountOk(StartWorld(w, k))
  {
    var id := w.q.lanes[k].pending[0].id;
    assert RunningIds(StartWorld(w, k).fate) == RunningIds(w.fate) + {id} && id !in RunningIds(w.fate);
  }

  lemma StartOk(w: World, k: string)
    requires CanStart(w, k)
    ensures Inv(StartWorld(w, k))
  {
    var w' := StartWorld(w, k);
    var id := w.q.lanes[k].pending[0].id;
    FrontFacts(w, k);
    StartLedger(w, w', k, id);
    StartLanes(w, k);
    StartWaiting(w, k);
    StartCount(w, k);
    StartLog(w, w', k, id);
    StartOwned(w, k, id, w');
  }

  /** The worker of a running command reports back. */
  function FinishWorld(w: World, id: string): World
    requires id in w.home
  {
    w.(q := Complete(w.q, w.home[id]), fate := w.fate[id := Finished])
  }

  lemma FinishLane(w: World, id: string, x: string)
    requires LedgerOk(w) && id in w.fate && w.fate[id].Running? && x in w.q.lanes && LaneOk(w, x, w.q.lanes[x])
    ensures LaneOk(FinishWorld(w, id), x, FinishWorld(w, id).q.lanes[x])
  {
    var w' := FinishWorld(w, id);
    var lane := w.q.lanes[x];
    forall i | 0 <= i < |lane.pending| ensures PendingOk(w', x, lane.pending[i]) {
      assert PendingOk(w, x, lane.pending[i]);
    }
  }

  lemma FinishLanes(w: World, id: string)
    requires LedgerOk(w) && LanesOk(w) && WaitingOk(w) && id in w.fate && w.fate[id].Running?
    ensures LanesOk(FinishWorld(w, id)) && WaitingOk(FinishWorld(w, id))
  {
    var w' := FinishWorld(w, id);
    forall x | x in w'.q.lanes ensures LaneOk(w', x, w'.q.lanes[x]) {
      FinishLane(w, id, x);
    }
    forall x | x in w'.fate && w'.fate[x].Waiting? ensures Waits(w', x) {
      assert Waits(w, x);
    }
  }

  lemma FinishOwned(w: World, id: string)
    requires LedgerOk(w) && OwnedOk(w) && id in w.fate && w.fate[id].Running?
    ensures OwnedOk(FinishWorld(w, id))
  {
    var w' := FinishWorld(w, id);
    forall x ensures Owned(w', x) {
      assert Owned(w, x) && Owned(w, id);
    }
  }

  lemma FinishCount(w: World, id: string)
    requires CountOk(w) && id in w.home && id in w.fate && w.fate[id].Running?
    ensures CountOk(FinishWorld(w, id))
  {
    assert RunningIds(FinishWorld(w, id).fate) == RunningIds(w.fate) - {id} && id in RunningIds(w.fate);
  }

  lemma FinishOk(w: World, id: string)
    requires Inv(w) && id in w.fate && w.fate[id].Running?
    ensures Inv(FinishWorld(w, id))
  {
    var w' := FinishWorld(w, id);
    FinishLanes(w, id);
    FinishCount(w, id);
    assert LedgerOk(w') by { LedgerFrame(w, w'); }
    assert LogOk(w') && AheadOk(w') && OrderOk(w') by { LogFrame(w, w'); }
    FinishOwned(w, id);
  }

  function SweepWorld(w: World): World { w.(q := Sweep(w.q)) }

  lemma SweepLanes(w: World)
    requires LedgerOk(w) && LanesOk(w) && WaitingOk(w)
    ensures LanesOk(SweepWorld(w)) && WaitingOk(SweepWorld(w))
  {
    var w' := SweepWorld(w);
    forall x | x in w'.q.lanes ensures LaneOk(w', x, w'.q.lanes[x]) {
      LaneFrame(w, w', x, w.q.lanes[x]);
    }
    forall id | id in w'.fate && w'.fate[id].Waiting? ensures Waits(w', id) {
      assert Waits(w, id);
    }
  }

  lemma SweepOk(w: World)
    requires Inv(w)
    ensures Inv(SweepWorld(w))
  {
    var w' := SweepWorld(w);
    SweepLanes(w);
    assert LedgerOk(w') by { LedgerFrame(w, w'); }
    assert LogOk(w') && AheadOk(w') && OrderOk(w') by { LogFrame(w, w'); }
    forall id ensures Owned(w', id) {
      assert Owned(w, id);
    }
  }
}
