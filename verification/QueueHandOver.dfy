/**
  What leaves the queue with a command: which commands a dispatcher pass hands
  out, with which texts, and what a submission and an overflow make of a lane.
 */
module QueueHandOver {
  import opened Basics
  import opened Text
  import opened QueueSummary
  import opened QueueModel

  // ---------- texts taken along ----------

  function Messages(cs: seq<Command>): (r: seq<string>)
    ensures |r| == |cs| && forall i :: 0 <= i < |r| ==> r[i] == cs[i].message
  {
    seq(|cs|, i requires 0 <= i < |cs| => cs[i].message)
  }

  /** A text that is empty at the start adds nothing, not even a separator. */
  function FromFirstText(texts: seq<string>): seq<string> {
    if texts != [] && texts[0] == "" then FromFirstText(texts[1..]) else texts
  }

  /** The messages of some commands in order, with a blank line between each two. */
  function Joined(cs: seq<Command>): string { Join(FromFirstText(Messages(cs)), "\n\n") }

  lemma {:induction false} FromFirstSnoc(texts: seq<string>, text: string)
    ensures FromFirstText(texts + [text]) ==
            if FromFirstText(texts) == [] && text == "" then [] else FromFirstText(texts) + [text]
    decreases |texts|
  {
    if texts == [] {
      assert texts + [text] == [text] && [text][1..] == [];
    } else {
      assert (texts + [text])[0] == texts[0] && (texts + [text])[1..] == texts[1..] + [text];
      if texts[0] == "" { FromFirstSnoc(texts[1..], text); }
    }
  }

  lemma {:induction false} JoinOfSome(texts: seq<string>)
    requires texts != [] && texts[0] != ""
    ensures Join(texts, "\n\n") != ""
  {
    if |texts| > 1 { JoinOfSome(texts[..|texts| - 1]); }
  }

  lemma {:induction false} FromFirstStarts(texts: seq<string>)
    ensures FromFirstText(texts) == [] || FromFirstText(texts)[0] != ""
    decreases |texts|
  {
    if texts != [] && texts[0] == "" { FromFirstStarts(texts[1..]); }
  }

  /** The drained text is the messages joined. */
  lemma {:induction false} DrainedIsJoined(cs: seq<Command>)
    ensures SteeringText(cs) == Joined(cs)
  {
    if cs != [] {
      var init, last := cs[..|cs| - 1], cs[|cs| - 1].message;
      DrainedIsJoined(init);
      assert Messages(cs) == Messages(init) + [last];
      FromFirstSnoc(Messages(init), last);
      FromFirstStarts(Messages(init));
      var before := FromFirstText(Messages(init));
      if before != [] {
        JoinOfSome(before);
        JoinSnoc(before, last, "\n\n");
      }
    }
  }

  // ---------- a dispatcher pass ----------

  /**
    Command c is the front of a lane, and takes along what it should: a
    collecting one the texts of all commands behind it, which leave the lane; a
    follow-up discards them when there are several; any other leaves them.
   */
  predicate HandedOver(c: Command, before: Lane, after: Lane) {
    before.pending != [] &&
    var front, behind := before.pending[0], before.pending[1..];
    && c == front.(collected := c.collected) && after == before.(pending := after.pending, active := Some(front))
    && (if front.mode.Collect? then after.pending == [] && c.collected == (if Joined(behind) == "" then front.collected else Joined(behind))
        else c.collected == front.collected && after.pending == if front.mode.Followup? && |behind| > 1 then [] else behind)
  }

  lemma OneHandedOver(lane: Lane)
    requires lane.pending != []
    ensures HandedOver(Dispatched(lane), lane, DispatchLane(lane))
  {
    DrainedIsJoined(lane.pending[1..]);
  }

  predicate Distinct(keys: seq<string>) { forall i, j :: 0 <= i < j < |keys| ==> keys[i] != keys[j] }

  /** The lane of key may start a command, as its front has waited its time, and a worker is left for it. */
  predicate Starts(q: Queue, started: nat, key: string, now: int) {
    key in q.lanes && q.activeCount + started < q.config.maxConcurrent &&
    var lane := q.lanes[key];
    lane.active.None? && lane.pending != [] && lane.pending[0].enqueuedAt + lane.debounceMs <= now
  }

  /** The keys whose lanes start a command, told from the queue before the pass alone. */
  function Started(q: Queue, keys: seq<string>, now: int): seq<string> {
    if keys == [] then []
    else
      var before, key := Started(q, keys[..|keys| - 1], now), keys[|keys| - 1];
      before + if Starts(q, |before|, key, now) then [key] else []
  }

  /** Where a pass stands after some keys. */
  ghost predicate PassAt(q: Queue, keys: seq<string>, now: int) {
    var after, started, launched := DispatchAll(q, keys, now), Started(q, keys, now), Launched(q, keys, now);
    && after.config == q.config && after.lanes.Keys == q.lanes.Keys && after.activeCount == q.activeCount + |started|
    && |launched| == |started|
    && (forall n :: 0 <= n < |started| ==>
          (started[n] in q.lanes && started[n] in keys && HandedOver(launched[n], q.lanes[started[n]], after.lanes[started[n]])))
    && (forall k :: k in q.lanes && k !in started ==> after.lanes[k] == q.lanes[k])
  }

  /**
    A pass over the lanes, each once: it starts the front command of every lane
    that may start one, in order, until no worker is left; each is handed out
    with the texts it takes along, and no other lane changes.
   */
  lemma {:induction false} PassHandsOver(q: Queue, keys: seq<string>, now: int)
    requires Distinct(keys)
    ensures PassAt(q, keys, now)
  {
    if keys != [] {
      var init, key := keys[..|keys| - 1], keys[|keys| - 1];
      PassHandsOver(q, init, now);
      var mid, started := DispatchAll(q, init, now), Started(q, init, now);
      assert key !in started by { assert key !in init; }
      assert Dispatches(mid, key, now) == Starts(q, |started|, key, now);
      if Dispatches(mid, key, now) {
        OneHandedOver(q.lanes[key]);
      }
    }
  }

  /** Behind a pass the lanes are those that had something active or pending. */
  lemma PassSweeps(q: Queue, keys: seq<string>, now: int)
    requires Distinct(keys)
    ensures Sweep(DispatchAll(q, keys, now)) == DispatchAll(q, keys, now).(lanes := Sweep(DispatchAll(q, keys, now)).lanes)
    ensures forall k :: k in Sweep(DispatchAll(q, keys, now)).lanes <==> k in q.lanes && (q.lanes[k].active.Some? || q.lanes[k].pending != [])
    ensures forall k :: k in Sweep(DispatchAll(q, keys, now)).lanes ==> Sweep(DispatchAll(q, keys, now)).lanes[k] == DispatchAll(q, keys, now).lanes[k]
  {
    PassHandsOver(q, keys, now);
    var after, started := DispatchAll(q, keys, now), Started(q, keys, now);
    forall k | k in q.lanes ensures IsIdle(after.lanes[k]) <==> IsIdle(q.lanes[k]) {
      if k in started {
        var n :| 0 <= n < |started| && started[n] == k;
        assert HandedOver(Launched(q, keys, now)[n], q.lanes[k], after.lanes[k]);
      }
    }
  }

  /** And the commands handed out can be cancelled no more. */
  lemma {:induction false} PassUnlists(q: Queue, keys: seq<string>, now: int)
    ensures DispatchAll(q, keys, now).index == q.index - set c | c in Launched(q, keys, now) :: c.id
  {
    if keys != [] {
      var init, key := keys[..|keys| - 1], keys[|keys| - 1];
      PassUnlists(q, init, now);
      var mid := DispatchAll(q, init, now);
      var before, all := Launched(q, init, now), Launched(q, keys, now);
      if Dispatches(mid, key, now) {
        var c := Dispatched(mid.lanes[key]);
        assert all == before + [c] && c.id == mid.lanes[key].pending[0].id;
        assert (set d | d in all :: d.id) == (set d | d in before :: d.id) + {c.id};
      } else {
        assert all == before;
      }
    }
  }

  // ---------- a submission ----------

  /** What a submission makes of a lane: an interrupt clears it first, steering skips the cap, and otherwise the cap is applied. */
  lemma SubmissionLands(lane: Lane, id: string, session: string, message: string, mode: Mode, now: int)
    ensures var effective := if mode.Collect? then lane.mode else mode;
            var (after, gone) := Accept(lane, id, session, message, mode, now);
            var interrupts, steers := effective.Interrupt? && lane.active.Some?, (effective.Steer? || effective.SteerBacklog?) && lane.active.Some?;
            var waiting := if interrupts && |lane.pending| > 1 then [lane.pending[|lane.pending| - 1]] else lane.pending;
            var queued := waiting + [Command(id, session, message, effective, now, "")];
            && after == lane.(pending := after.pending, active := if interrupts then None else lane.active)
            && (if steers then after.pending == queued && gone == [] else OverflowCut(after.pending, gone, queued, lane.cap, lane.drop))
  {
    var effective := if mode.Collect? then lane.mode else mode;
    var interrupts := effective.Interrupt? && lane.active.Some?;
    var waiting := if interrupts && |lane.pending| > 1 then [lane.pending[|lane.pending| - 1]] else lane.pending;
    assert Arrival(lane, mode).pending == waiting;
    OverflowIsCut(waiting + [Command(id, session, message, effective, now, "")], lane.cap, lane.drop);
  }

  // ---------- summaries ----------

  function Snippets(texts: seq<string>): (r: seq<string>)
    ensures |r| == |texts| && forall i :: 0 <= i < |r| ==> r[i] == if |texts[i]| <= 150 then texts[i] else texts[i][..150]
  {
    seq(|texts|, i requires 0 <= i < |texts| => Take(texts[i], SNIPPET))
  }

  /** All texts merged into the first, one after the other. */
  function MergeAll(texts: seq<string>): string
    requires texts != []
  {
    if |texts| == 1 then texts[0] else Merge(MergeAll(texts[..|texts| - 1]), texts[|texts| - 1])
  }

  /** The body of a summary is what follows its head. */
  lemma BodyOfSummary(n: nat, rest: string)
    ensures IsSummary(Headed(n, rest)) && Body(Headed(n, rest)) == rest
  {
    var d := ToDecimal(n);
    HeadedSpaces(d, rest);
    HeadEnds(d, rest);
  }

  lemma HeadEnds(d: string, rest: string)
    requires AllDigits(d)
    ensures var s := "[Queue summary: " + d + " messages] " + rest;
            Find(s, "] ", 0) == Some(|d| + 25) && s[|d| + 27..] == rest
  {
    var head := "[Queue summary: " + d + " messages";
    var s := "[Queue summary: " + d + " messages] " + rest;
    assert s == head + "] " + rest && |head| == |d| + 25;
    NoBracket(d);
    EndsAt(head, rest);
  }

  lemma NoBracket(d: string)
    requires AllDigits(d)
    ensures ']' !in "[Queue summary: " + d + " messages"
  {
  }

  lemma EndsAt(head: string, rest: string)
    requires ']' !in head
    ensures Find(head + "] " + rest, "] ", 0) == Some(|head|) && (head + "] " + rest)[|head| + 2..] == rest
  {
    var s := head + "] " + rest;
    assert s[|head|..|head| + 2] == "] ";
    forall j | 0 <= j < |head| ensures !OccursAt(s, "] ", j) {
      assert s[j] == head[j];
      NotAt(s, "] ", j, 0);
    }
    FindFirst(s, "] ", 0, |head|);
  }

  /** Messages condensed one after the other: their number, and a snippet of each in order. */
  lemma {:induction false} SummaryText(texts: seq<string>)
    requires 2 <= |texts| <= INT_MAX && !IsSummary(texts[0])
    ensures MergeAll(texts) == Headed(|texts|, Join(Snippets(texts), " | "))
  {
    var init, last := texts[..|texts| - 1], texts[|texts| - 1];
    assert Snippets(texts) == Snippets(init) + [Take(last, SNIPPET)];
    JoinSnoc(Snippets(init), Take(last, SNIPPET), " | ");
    if |init| > 1 {
      SummaryText(init);
      BodyOfSummary(|init|, Join(Snippets(init), " | "));
      CountRoundTrip(|init|, Join(Snippets(init), " | "));
    }
  }

  /** What summarizing overflow leaves at the front stands for the messages it took in. */
  lemma {:induction false} OverflowText(pending: seq<Command>, cap: int)
    requires 1 <= cap < |pending|
    ensures |pending| - cap + 1 <= |pending| && Overflow(pending, cap, Summarize).0 != []
    ensures Overflow(pending, cap, Summarize).0[0].message == MergeAll(Messages(pending[..|pending| - cap + 1]))
    decreases |pending|
  {
    var n, rest := |pending| - cap + 1, OverflowStep(pending, Summarize).0;
    assert Overflow(pending, cap, Summarize).0 == Overflow(rest, cap, Summarize).0;
    MergedMessages(pending, rest, n);
    MergeFirst(Messages(pending[..n]), Messages(rest[..n - 1]));
    if |rest| > cap {
      OverflowText(rest, cap);
    } else {
      OneText(Messages(rest[..1]));
    }
  }

  lemma OneText(texts: seq<string>)
    requires |texts| == 1
    ensures MergeAll(texts) == texts[0]
  {
  }

  lemma MergedMessages(pending: seq<Command>, rest: seq<Command>, n: nat)
    requires 2 <= n <= |pending| && rest == OverflowStep(pending, Summarize).0
    ensures var texts := Messages(pending[..n]); Messages(rest[..n - 1]) == [Merge(texts[0], texts[1])] + texts[2..]
  {
    var texts := Messages(pending[..n]);
    forall i | 0 <= i < n - 1 ensures rest[i].message == ([Merge(texts[0], texts[1])] + texts[2..])[i] {
      if i > 0 { assert rest[i] == pending[i + 1]; }
    }
  }

  /** Merging the first two texts before or along with the others is the same. */
  lemma {:induction false} MergeFirst(texts: seq<string>, merged: seq<string>)
    requires |texts| >= 2 && merged == [Merge(texts[0], texts[1])] + texts[2..]
    ensures MergeAll(texts) == MergeAll(merged)
    decreases |texts|
  {
    if |texts| == 2 {
      assert texts[..1] == [texts[0]] && merged == [Merge(texts[0], texts[1])];
    } else {
      MergeFirst(texts[..|texts| - 1], merged[..|merged| - 1]);
    }
  }
}
