/**
  Per-key cooldowns with exponential backoff and throttled probes
  (src/providers/cooldown_tracker.cpp). Times are milliseconds of a steady clock.
 */
module Cooldown {
  import opened Basics
  import opened Errors

  const PROBE_INTERVAL := 30_000
  const FAILURE_DECAY := 24 * 3_600_000
  const INT_MAX := 2147483647

  datatype CooldownState = CooldownState(failures: nat, lastError: ErrorKind, until: int, lastFailureAt: int, lastProbeAt: int)

  type States = map<string, CooldownState>

  // ---------- durations ----------

  /** First cooldown of a kind, in seconds; 0 for kinds that never cool down. */
  function Base(kind: ErrorKind): nat {
    match kind
    case RateLimit => 60
    case AuthError => 3600
    case BillingError => 18000
    case Transient => 60
    case Timeout => 30
    case UnknownError => 60
    case _ => 0
  }

  /** Longest cooldown of a kind, in seconds. */
  function Cap(kind: ErrorKind): nat {
    match kind
    case RateLimit => 3600
    case AuthError => 3600
    case BillingError => 86400
    case Transient => 3600
    case Timeout => 300
    case UnknownError => 600
    case _ => 0
  }

  function Pow5(n: nat): (r: nat)
    ensures r >= 1
  {
    if n == 0 then 1 else 5 * Pow5(n - 1)
  }

  /** base * 5^(failures - 1), the exponent at most four, and never above the cap. */
  function Duration(kind: ErrorKind, failures: int): nat {
    Min(Base(kind) * Pow5(if failures < 1 then 0 else Min(failures - 1, 4)), Cap(kind))
  }

  method ComputeCooldown(kind: ErrorKind, failures: int) returns (seconds: nat)
    ensures seconds == Duration(kind, failures)
  {
    if kind == AuthError {
      DurationBounds(kind, failures);
      return 3600;
    }
    var base, cap := Base(kind), Cap(kind);
    if base == 0 {
      DurationBounds(kind, failures);
      return 0;
    }
    var multiplier := 1;
    var i := 1;
    while i < failures && i < 5
      invariant 1 <= i <= 5 && (if failures < 1 then i == 1 else i <= failures) && multiplier == Pow5(i - 1)
    {
      multiplier := multiplier * 5;
      i := i + 1;
    }
    assert i - 1 == if failures < 1 then 0 else Min(failures - 1, 4);
    seconds := Min(base * multiplier, cap);
  }

  lemma FifthPowers()
    ensures Pow5(0) == 1 && Pow5(1) == 5 && Pow5(2) == 25 && Pow5(3) == 125 && Pow5(4) == 625
  {
    assert Pow5(1) == 5 * Pow5(0);
    assert Pow5(2) == 5 * Pow5(1);
    assert Pow5(3) == 5 * Pow5(2);
    assert Pow5(4) == 5 * Pow5(3);
  }

  /** From the base up to the cap, and the int product never overflows. */
  lemma DurationBounds(kind: ErrorKind, failures: int)
    ensures Base(kind) <= Duration(kind, failures) <= Cap(kind)
    ensures Base(kind) * Pow5(if failures < 1 then 0 else Min(failures - 1, 4)) <= INT_MAX
  {
    FifthPowers();
  }

  /** More failures of a kind never shorten its cooldown. */
  lemma DurationMonotone(kind: ErrorKind, a: int, b: int)
    requires a <= b
    ensures Duration(kind, a) <= Duration(kind, b)
  {
    FifthPowers();
  }

  // ---------- the table ----------

  predicate Cooled(s: States, key: string, now: int) { key in s && now < s[key].until }

  /** How many failures in a row, counting one at time now. */
  function Streak(s: States, key: string, now: int): nat {
    if key in s && s[key].failures > 0 && now - s[key].lastFailureAt <= FAILURE_DECAY then s[key].failures + 1 else 1
  }

  function Fail(s: States, key: string, kind: ErrorKind, retryAfter: int, now: int): States {
    var n := Streak(s, key, now);
    s[key := CooldownState(n, kind, now + 1000 * (if retryAfter > 0 then retryAfter else Duration(kind, n)), now, now)]
  }

  predicate MayProbe(s: States, key: string, now: int) { Cooled(s, key, now) && now - s[key].lastProbeAt >= PROBE_INTERVAL }

  function Probe(s: States, key: string, now: int): States {
    if MayProbe(s, key, now) then s[key := s[key].(lastProbeAt := now)] else s
  }

  class CooldownTracker {
    var states: States

    constructor ()
      ensures states == map[]
    {
      states := map[];
    }

    method IsInCooldown(key: string, now: int) returns (r: bool)
      ensures r == Cooled(states, key, now)
    {
      if key !in states {
        return false;
      }
      r := now < states[key].until;
    }

    method RecordFailure(key: string, kind: ErrorKind, retryAfter: int, now: int)
      modifies this
      ensures states == Fail(old(states), key, kind, retryAfter, now)
    {
      var state := if key in states then states[key] else CooldownState(0, UnknownError, 0, 0, 0);
      if state.failures > 0 && now - state.lastFailureAt > FAILURE_DECAY {
        state := state.(failures := 0);
      }
      state := CooldownState(state.failures + 1, kind, state.until, now, now);
      assert state.failures == Streak(states, key, now);
      if retryAfter > 0 {
        state := state.(until := now + 1000 * retryAfter);
      } else {
        var seconds := ComputeCooldown(kind, state.failures);
        state := state.(until := now + 1000 * seconds);
      }
      states := states[key := state];
    }

    method RecordSuccess(key: string)
      modifies this
      ensures states == old(states) - {key}
    {
      states := states - {key};
    }

    method TryProbe(key: string, now: int) returns (granted: bool)
      modifies this
      ensures granted == MayProbe(old(states), key, now) && states == Probe(old(states), key, now)
    {
      if key !in states || now >= states[key].until {
        return false;
      }
      if now - states[key].lastProbeAt < PROBE_INTERVAL {
        return false;
      }
      states := states[key := states[key].(lastProbeAt := now)];
      granted := true;
    }

    method Reset()
      modifies this
      ensures states == map[]
    {
      states := map[];
    }
  }

  // ---------- runs ----------

  datatype Op = FailOp(key: string, kind: ErrorKind, retryAfter: int) | SuccessOp(key: string) | ProbeOp(key: string) | ResetOp

  datatype Timed = Timed(op: Op, at: int)

  /** The table, and for each key in it the probes granted since its last failure. */
  datatype Trace = Trace(states: States, granted: map<string, nat>)

  function Step(t: Trace, e: Timed): Trace {
    match e.op
    case FailOp(key, kind, retryAfter) => Trace(Fail(t.states, key, kind, retryAfter, e.at), t.granted[key := 0])
    case SuccessOp(key) => Trace(t.states - {key}, t.granted - {key})
    case ProbeOp(key) =>
      Trace(Probe(t.states, key, e.at),
            if MayProbe(t.states, key, e.at) && key in t.granted then t.granted[key := t.granted[key] + 1] else t.granted)
    case ResetOp => Trace(map[], map[])
  }

  function Run(events: seq<Timed>): Trace {
    if events == [] then Trace(map[], map[]) else Step(Run(events[..|events| - 1]), events[|events| - 1])
  }

  predicate ClockOk(events: seq<Timed>) {
    forall i, j :: 0 <= i < j < |events| ==> events[i].at <= events[j].at
  }

  /** However calls interleave, k probes since a failure take at least k intervals. */
  lemma {:induction false} ProbesThrottled(events: seq<Timed>, key: string)
    requires ClockOk(events) && key in Run(events).states
    ensures key in Run(events).granted
    ensures var s := Run(events).states[key];
            s.lastFailureAt + Run(events).granted[key] * PROBE_INTERVAL <= s.lastProbeAt
    ensures Run(events).states[key].lastProbeAt <= events[|events| - 1].at
    ensures Run(events).granted[key] * PROBE_INTERVAL <= events[|events| - 1].at - Run(events).states[key].lastFailureAt
  {
    var init, e := events[..|events| - 1], events[|events| - 1];
    if key in Run(init).states {
      ProbesThrottled(init, key);
      assert init[|init| - 1].at <= e.at;
    }
  }

  // ---------- backoff over runs ----------

  predicate Fails(op: Op, key: string) { op.FailOp? && op.key == key }

  /** Nothing ends or disturbs a streak of failures of one kind: probes and other keys may come between. */
  predicate KeepsStreak(op: Op, key: string, kind: ErrorKind) {
    match op
    case FailOp(k, other, retryAfter) => k == key ==> other == kind && retryAfter <= 0
    case SuccessOp(k) => k != key
    case ProbeOp(_) => true
    case ResetOp => false
  }

  /** Events m and n are failures of the key with none of its failures between them. */
  predicate Consecutive(events: seq<Timed>, key: string, m: nat, n: nat)
    requires m < n < |events|
  {
    Fails(events[m].op, key) && Fails(events[n].op, key) && forall x :: m < x < n ==> !Fails(events[x].op, key)
  }

  /** From event i on, failures of the key are of one kind and follow each other within the decay window. */
  predicate InStreak(events: seq<Timed>, key: string, kind: ErrorKind, i: nat) {
    && (forall n :: i <= n < |events| ==> KeepsStreak(events[n].op, key, kind))
    && forall m, n :: i <= m < n < |events| && Consecutive(events, key, m, n) ==> events[n].at - events[m].at <= FAILURE_DECAY
  }

  /** The entry of a key after the first n events. */
  function Entry(events: seq<Timed>, key: string, n: nat): CooldownState
    requires n <= |events| && key in Run(events[..n]).states
  {
    Run(events[..n]).states[key]
  }

  lemma RunNext(events: seq<Timed>, n: nat)
    requires n < |events|
    ensures Run(events[..n + 1]) == Step(Run(events[..n]), events[n])
  {
    assert events[..n + 1][..n] == events[..n];
  }

  /** How many of the events from a up to b are failures of the key. */
  function FailuresIn(events: seq<Timed>, key: string, a: nat, b: nat): nat
    requires a <= b <= |events|
    decreases b
  {
    if a == b then 0 else FailuresIn(events, key, a, b - 1) + if Fails(events[b - 1].op, key) then 1 else 0
  }

  lemma FailuresNext(events: seq<Timed>, key: string, a: nat, m: nat, n: nat)
    requires a <= m && n == m + 1 <= |events|
    ensures FailuresIn(events, key, a, n) == FailuresIn(events, key, a, m) + if Fails(events[m].op, key) then 1 else 0
  {
  }

  lemma {:induction false} FirstFailure(events: seq<Timed>, key: string, a: nat, b: nat)
    requires a < b <= |events| && Fails(events[a].op, key)
    ensures FailuresIn(events, key, a, b) == 1 + FailuresIn(events, key, a + 1, b)
    decreases b
  {
    if a + 1 < b { FirstFailure(events, key, a, b - 1); }
  }

  /** An entry left by a failure at a given time, the last of so many in a row. */
  predicate LeftBy(s: States, key: string, kind: ErrorKind, at: int, count: nat) {
    key in s && s[key].lastFailureAt == at && s[key].failures == count && s[key].until == at + 1000 * Duration(kind, count)
  }

  lemma FirstOfStreak(t: Trace, e: Timed, key: string, kind: ErrorKind)
    requires Fails(e.op, key) && KeepsStreak(e.op, key, kind)
    ensures LeftBy(Step(t, e).states, key, kind, e.at, Streak(t.states, key, e.at))
  {
  }

  lemma NextOfStreak(t: Trace, e: Timed, key: string, kind: ErrorKind, at: int, count: nat)
    requires LeftBy(t.states, key, kind, at, count) && KeepsStreak(e.op, key, kind) && count >= 1
    requires Fails(e.op, key) ==> e.at - at <= FAILURE_DECAY
    ensures if Fails(e.op, key) then LeftBy(Step(t, e).states, key, kind, e.at, count + 1)
            else LeftBy(Step(t, e).states, key, kind, at, count)
  {
  }

  /** After n events the latest failure of the key is event last, and it was the last of so many in a row. */
  predicate StandsAt(events: seq<Timed>, key: string, kind: ErrorKind, n: nat, last: nat, count: nat) {
    last < n <= |events| && Fails(events[last].op, key) && (forall x :: last < x < n ==> !Fails(events[x].op, key)) &&
    LeftBy(Run(events[..n]).states, key, kind, events[last].at, count)
  }

  /** Where a streak stands after n events. */
  lemma {:induction false} StreakState(events: seq<Timed>, key: string, kind: ErrorKind, i: nat, a: nat, n: nat, count: nat) returns (last: nat)
    requires i < a <= n <= |events| && InStreak(events, key, kind, i) && count >= 1 && StandsAt(events, key, kind, a, i, count)
    ensures i <= last && StandsAt(events, key, kind, n, last, count + FailuresIn(events, key, a, n))
    decreases n
  {
    last := i;
    if n > a {
      var m := n - 1;
      last := StreakState(events, key, kind, i, a, m, count);
      last := OneMore(events, key, kind, i, m, n, last, count + FailuresIn(events, key, a, m));
      FailuresNext(events, key, a, m, n);
    }
  }

  lemma InWindow(events: seq<Timed>, key: string, kind: ErrorKind, i: nat, last: nat, n: nat)
    requires i <= last < n < |events| && InStreak(events, key, kind, i)
    requires Fails(events[last].op, key) && forall x :: last < x < n ==> !Fails(events[x].op, key)
    ensures KeepsStreak(events[n].op, key, kind)
    ensures Fails(events[n].op, key) ==> events[n].at - events[last].at <= FAILURE_DECAY
  {
    assert Fails(events[n].op, key) ==> Consecutive(events, key, last, n);
  }

  lemma OneMore(events: seq<Timed>, key: string, kind: ErrorKind, i: nat, n: nat, next: nat, last: nat, count: nat) returns (last': nat)
    requires i <= last && next == n + 1 <= |events| && InStreak(events, key, kind, i)
    requires count >= 1 && StandsAt(events, key, kind, n, last, count)
    ensures i <= last' && StandsAt(events, key, kind, next, last', count + if Fails(events[n].op, key) then 1 else 0)
  {
    var e := events[n];
    InWindow(events, key, kind, i, last, n);
    NextOfStreak(Run(events[..n]), e, key, kind, events[last].at, count);
    RunNext(events, n);
    last' := if Fails(e.op, key) then n else last;
  }

  /** The cooldown that event j sets. */
  function CooldownSet(events: seq<Timed>, key: string, j: nat): int
    requires j < |events| && key in Run(events[..j + 1]).states
  {
    Entry(events, key, j + 1).until - events[j].at
  }

  /** The cooldown of any failure of a streak: the length for the failures counted so far. */
  lemma StreakCooldown(events: seq<Timed>, key: string, kind: ErrorKind, i: nat, j: nat)
    requires i <= j < |events| && Fails(events[i].op, key) && Fails(events[j].op, key) && InStreak(events, key, kind, i)
    ensures key in Run(events[..j + 1]).states
    ensures CooldownSet(events, key, j) ==
              1000 * Duration(kind, Streak(Run(events[..i]).states, key, events[i].at) + FailuresIn(events, key, i + 1, j + 1))
  {
    RunNext(events, i);
    FirstOfStreak(Run(events[..i]), events[i], key, kind);
    var first := Streak(Run(events[..i]).states, key, events[i].at);
    StreakAt(events, key, kind, i, j, j + 1, first);
  }

  lemma StreakAt(events: seq<Timed>, key: string, kind: ErrorKind, i: nat, j: nat, next: nat, count: nat)
    requires i <= j < next == j + 1 <= |events| && Fails(events[j].op, key) && InStreak(events, key, kind, i)
    requires count >= 1 && StandsAt(events, key, kind, i + 1, i, count)
    ensures StandsAt(events, key, kind, next, j, count + FailuresIn(events, key, i + 1, next))
  {
    var last := StreakState(events, key, kind, i, i + 1, next, count);
    assert last == j;
  }

  /**
    In any run: when the key had no failure within the decay window before, the
    cooldown a failure sets is that of the number of failures since, however
    probes and other keys come between.
   */
  lemma BackoffCounts(events: seq<Timed>, key: string, kind: ErrorKind, i: nat, j: nat)
    requires i <= j < |events| && Fails(events[i].op, key) && Fails(events[j].op, key) && InStreak(events, key, kind, i)
    requires key in Run(events[..i]).states ==> events[i].at - Run(events[..i]).states[key].lastFailureAt > FAILURE_DECAY
    ensures key in Run(events[..j + 1]).states
    ensures CooldownSet(events, key, j) == 1000 * Duration(kind, FailuresIn(events, key, i, j + 1))
  {
    StreakCooldown(events, key, kind, i, j);
    FirstFailure(events, key, i, j + 1);
  }

  /**
    In any run, over a streak of failures of one kind, each within the decay
    window of the one before, every cooldown is at least as long as those
    before it and never exceeds the cap.
   */
  lemma BackoffGrows(events: seq<Timed>, key: string, kind: ErrorKind, i: nat, j: nat)
    requires i <= j < |events| && Fails(events[i].op, key) && Fails(events[j].op, key) && InStreak(events, key, kind, i)
    ensures key in Run(events[..i + 1]).states && key in Run(events[..j + 1]).states
    ensures CooldownSet(events, key, i) <= CooldownSet(events, key, j) <= 1000 * Cap(kind)
  {
    var first, later := Streak(Run(events[..i]).states, key, events[i].at), FailuresIn(events, key, i + 1, j + 1);
    StreakCooldown(events, key, kind, i, i);
    StreakCooldown(events, key, kind, i, j);
    DurationMonotone(kind, first, first + later);
    DurationBounds(kind, first + later);
  }

  // ---------- single calls ----------

  /** A failure cools its own key, for the time the server asked for or else its backoff, and no other. */
  lemma FailCools(s: States, key: string, kind: ErrorKind, retryAfter: int, now: int, other: string, later: int)
    ensures Cooled(Fail(s, key, kind, retryAfter, now), key, later) <==>
              later < now + 1000 * if retryAfter > 0 then retryAfter else Duration(kind, Streak(s, key, now))
    ensures other != key ==> (Cooled(Fail(s, key, kind, retryAfter, now), other, later) <==> Cooled(s, other, later))
  {
  }

  /** Failures count up while they come within the decay window, whatever their kinds; after it they start again. */
  lemma NextFailure(s: States, key: string, kind: ErrorKind, retryAfter: int, now: int, later: int)
    ensures Streak(Fail(s, key, kind, retryAfter, now), key, later) == if later - now <= FAILURE_DECAY then Streak(s, key, now) + 1 else 1
    ensures Streak(s - {key}, key, later) == 1
  {
  }

  /** The first probe after a failure waits one interval; every further one waits another. */
  lemma ProbeTimes(s: States, key: string, kind: ErrorKind, retryAfter: int, at: int, now: int)
    ensures MayProbe(Fail(s, key, kind, retryAfter, at), key, now) <==>
              at + PROBE_INTERVAL <= now && Cooled(Fail(s, key, kind, retryAfter, at), key, now)
    ensures MayProbe(s, key, at) ==> (MayProbe(Probe(s, key, at), key, now) <==> at + PROBE_INTERVAL <= now && Cooled(s, key, now))
    ensures Cooled(Probe(s, key, at), key, now) <==> Cooled(s, key, now)
  {
  }

  /** The first five steps of a backoff, in seconds; later failures stay at the fifth. */
  function Steps(kind: ErrorKind): seq<nat> {
    match kind
    case RateLimit => [60, 300, 1500, 3600, 3600]
    case AuthError => [3600, 3600, 3600, 3600, 3600]
    case BillingError => [18000, 86400, 86400, 86400, 86400]
    case Transient => [60, 300, 1500, 3600, 3600]
    case Timeout => [30, 150, 300, 300, 300]
    case UnknownError => [60, 300, 600, 600, 600]
    case _ => [0, 0, 0, 0, 0]
  }

  /** The cooldowns of every kind, worked out. */
  lemma BackoffSteps(kind: ErrorKind, failures: int)
    ensures Duration(kind, failures) == Steps(kind)[if failures < 1 then 0 else Min(failures, 5) - 1]
  {
    FifthPowers();
  }

  /** The timeout cooldowns, in seconds: three steps, not the four that the source's comment lists. */
  lemma TimeoutSteps(failures: int)
    ensures Duration(Timeout, failures) == if failures <= 1 then 30 else if failures == 2 then 150 else 300
  {
    FifthPowers();
  }
}
