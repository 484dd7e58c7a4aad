/**
  Rotation among equal profiles: the least recently used one is handed out, so
  every profile has its turn (src/providers/failover_resolver.cpp).
 */
module Rotation {
  import opened Text
  import opened Cooldown
  import opened Failover
  import opened FailoverTheorems

  /** One request: resolved at one time, and perhaps reported as a success later. */
  datatype Turn = Turn(at: int, succeeds: bool, session: string, doneAt: int)

  /** Who is asked for what. */
  datatype Setting = Setting(reg: Registry, model: string, chain: seq<string>, ps: seq<Profile>)

  function Provider(g: Setting): string { g.reg.resolve(g.model).provider }

  /** Equal priorities, distinct ids, every client buildable. */
  ghost predicate Fair(g: Setting) {
    && g.ps != [] && DistinctIds(g.ps)
    && (forall i, j :: 0 <= i < |g.ps| && 0 <= j < |g.ps| ==> g.ps[i].priority == g.ps[j].priority)
    && (forall i :: 0 <= i < |g.ps| ==> g.reg.buildsWithKey(Provider(g), g.ps[i].apiKey))
  }

  /** The profiles are these, none is in cooldown, and all were last used before now. */
  ghost predicate Ready(st: State, g: Setting, now: int) {
    && ProfilesOf(st, Provider(g)) == g.ps
    && (forall i :: 0 <= i < |g.ps| ==> !IsCooled(st, Provider(g), g.ps[i], now))
    && (forall i :: 0 <= i < |g.ps| ==> LastUsed(st, Provider(g), g.ps[i]) < now)
  }

  /** A strictly increasing clock. */
  ghost predicate Ticking(turns: seq<Turn>) {
    && (forall i :: 0 <= i < |turns| ==> turns[i].at <= turns[i].doneAt)
    && (forall i, j :: 0 <= i < j < |turns| ==> turns[i].doneAt < turns[j].at)
  }

  ghost function Take(st: State, g: Setting, t: Turn): (State, Option<Resolved>) {
    var (st', r) := ResolveFrom(st, g.reg, g.model, g.chain, "", t.at);
    (if r.Some? && t.succeeds then Succeeded(st', r.value.provider, r.value.profile, t.session, t.doneAt) else st', r)
  }

  ghost function Takes(st: State, g: Setting, turns: seq<Turn>): (State, seq<Option<Resolved>>) {
    if turns == [] then (st, [])
    else
      var (st', rs) := Takes(st, g, turns[..|turns| - 1]);
      var (st'', r) := Take(st', g, turns[|turns| - 1]);
      (st'', rs + [r])
  }

  /** The answer is profile i. */
  predicate Gives(g: Setting, r: Option<Resolved>, i: nat) {
    i < |g.ps| && r == Some(Resolved(Provider(g), g.ps[i].id, g.reg.resolve(g.model).model, false))
  }

  /** The answers are, in order, the profiles at these positions. */
  ghost predicate Answers(g: Setting, rs: seq<Option<Resolved>>, picks: seq<nat>) {
    |rs| == |picks| && forall k :: 0 <= k < |rs| ==> Gives(g, rs[k], picks[k])
  }

  predicate NoRepeats(picks: seq<nat>) { forall a, b :: 0 <= a < b < |picks| ==> picks[a] != picks[b] }

  /** One turn hands out a least recently used profile and stamps only that one. */
  lemma TakeLeast(st: State, g: Setting, t: Turn) returns (i: nat)
    requires Fair(g) && ProfilesOf(st, Provider(g)) == g.ps && t.at <= t.doneAt
    requires forall k :: 0 <= k < |g.ps| ==> !IsCooled(st, Provider(g), g.ps[k], t.at)
    ensures i < |g.ps| && Gives(g, Take(st, g, t).1, i)
    ensures forall j :: 0 <= j < |g.ps| ==> LastUsed(st, Provider(g), g.ps[i]) <= LastUsed(st, Provider(g), g.ps[j])
    ensures var st' := Take(st, g, t).0;
            && ProfilesOf(st', Provider(g)) == g.ps
            && (forall k :: 0 <= k < |g.ps| ==> !IsCooled(st', Provider(g), g.ps[k], t.at))
            && t.at <= LastUsed(st', Provider(g), g.ps[i]) <= t.doneAt
            && (forall k :: 0 <= k < |g.ps| && k != i ==> LastUsed(st', Provider(g), g.ps[k]) == LastUsed(st, Provider(g), g.ps[k]))
  {
    var p := Provider(g);
    assert Usable(st, g.reg, p, g.ps, 0, t.at);
    i := BestExists(st, g.reg, p, g.ps, 0, t.at);
    forall j: nat | IsBest(st, g.reg, p, g.ps, j, t.at) ensures j == i { BestIsUnique(st, g.reg, p, g.ps, i, j, t.at); }
    forall j | 0 <= j < |g.ps| ensures LastUsed(st, p, g.ps[i]) <= LastUsed(st, p, g.ps[j]) {
      assert Usable(st, g.reg, p, g.ps, j, t.at);
    }
    forall k | 0 <= k < |g.ps| && k != i ensures CooldownKey(p, g.ps[k].id) != CooldownKey(p, g.ps[i].id) {
      if CooldownKey(p, g.ps[k].id) == CooldownKey(p, g.ps[i].id) { SameProviderKeys(p, g.ps[k].id, g.ps[i].id); }
    }
  }

  /** Where a state stands after these picks since time t0. */
  ghost predicate Midway(st: State, g: Setting, picks: seq<nat>, t0: int, last: int) {
    && ProfilesOf(st, Provider(g)) == g.ps
    && (forall i: nat :: i < |g.ps| ==> !IsCooled(st, Provider(g), g.ps[i], last))
    && (forall i: nat :: i < |g.ps| ==> LastUsed(st, Provider(g), g.ps[i]) <= last)
    && (forall i: nat :: i < |g.ps| ==> (i in picks <==> LastUsed(st, Provider(g), g.ps[i]) >= t0))
  }

  function Below(n: nat): (s: set<nat>)
    ensures |s| == n && forall i: nat :: i in s <==> i < n
  {
    if n == 0 then {} else Below(n - 1) + {n - 1}
  }

  lemma {:induction false} DistinctCount(picks: seq<nat>) returns (s: set<nat>)
    ensures (forall i: nat :: i in s <==> i in picks) && |s| <= |picks|
    ensures NoRepeats(picks) ==> |s| == |picks|
  {
    if picks == [] {
      s := {};
    } else {
      var init, last := picks[..|picks| - 1], picks[|picks| - 1];
      assert picks == init + [last];
      s := DistinctCount(init);
      s := s + {last};
    }
  }

  /** Fewer picks than profiles leave a profile out. */
  lemma SomeLeftOut(picks: seq<nat>, n: nat) returns (i: nat)
    requires |picks| < n
    ensures i < n && i !in picks
  {
    var s := DistinctCount(picks);
    if forall j: nat :: j < n ==> j in picks {
      assert Below(n) <= s;
      SubsetSize(Below(n), s);
    }
    i :| i < n && i !in picks;
  }

  lemma {:induction false} SubsetSize(a: set<nat>, b: set<nat>)
    requires a <= b
    ensures |a| <= |b|
    ensures |a| == |b| ==> a == b
    decreases |a|
  {
    if x :| x in a {
      SubsetSize(a - {x}, b - {x});
      assert a == (a - {x}) + {x} && b == (b - {x}) + {x};
    }
  }

  /** As many distinct picks as profiles leave none out. */
  lemma NoneLeftOut(picks: seq<nat>, n: nat)
    requires |picks| == n && NoRepeats(picks) && forall k :: 0 <= k < |picks| ==> picks[k] < n
    ensures forall i: nat :: i < n ==> i in picks
  {
    var s := DistinctCount(picks);
    assert s <= Below(n);
    SubsetSize(s, Below(n));
  }

  /** With fewer picks than profiles, the next turn hands out a profile not picked yet. */
  lemma NextTurn(st: State, g: Setting, picks: seq<nat>, t0: int, last: int, t: Turn) returns (i: nat)
    requires Fair(g) && Midway(st, g, picks, t0, last) && |picks| < |g.ps| && t0 <= t.at <= t.doneAt && last <= t.at
    ensures Gives(g, Take(st, g, t).1, i) && i !in picks && Midway(Take(st, g, t).0, g, picks + [i], t0, t.doneAt)
  {
    i := TakeLeast(st, g, t);
    var u := SomeLeftOut(picks, |g.ps|);
    assert LastUsed(st, Provider(g), g.ps[u]) < t0;
    var st' := Take(st, g, t).0;
    forall j: nat | j < |g.ps| ensures LastUsed(st', Provider(g), g.ps[j]) <= t.doneAt {
      assert LastUsed(st, Provider(g), g.ps[j]) <= last;
    }
  }

  /** Up to as many turns as profiles never hand one out twice. */
  lemma {:induction false} TurnsDiffer(st: State, g: Setting, turns: seq<Turn>, t0: int) returns (picks: seq<nat>)
    requires Fair(g) && Ticking(turns) && Ready(st, g, t0) && |turns| <= |g.ps|
    requires turns != [] ==> t0 <= turns[0].at
    ensures Answers(g, Takes(st, g, turns).1, picks) && |picks| == |turns| && NoRepeats(picks)
    ensures Midway(Takes(st, g, turns).0, g, picks, t0, if turns == [] then t0 else turns[|turns| - 1].doneAt)
  {
    if turns == [] {
      picks := [];
    } else {
      var init, t := turns[..|turns| - 1], turns[|turns| - 1];
      var seen := TurnsDiffer(st, g, init, t0);
      var i := NextTurn(Takes(st, g, init).0, g, seen, t0, if init == [] then t0 else init[|init| - 1].doneAt, t);
      picks := seen + [i];
    }
  }

  /**
    Fairness: from any state in which none of n equal profiles is cooling down,
    n consecutive requests without a session hand out each profile exactly
    once, whether or not each is reported as a success before the next.
   */
  lemma EachExactlyOnce(st: State, g: Setting, turns: seq<Turn>) returns (picks: seq<nat>)
    requires Fair(g) && Ticking(turns) && |turns| == |g.ps| && Ready(st, g, turns[0].at)
    ensures Answers(g, Takes(st, g, turns).1, picks) && NoRepeats(picks) && forall i: nat :: i < |g.ps| <==> i in picks
    ensures Ready(Takes(st, g, turns).0, g, turns[|turns| - 1].doneAt + 1)
  {
    picks := TurnsDiffer(st, g, turns, turns[0].at);
    assert forall k :: 0 <= k < |picks| ==> Gives(g, Takes(st, g, turns).1[k], picks[k]);
    NoneLeftOut(picks, |g.ps|);
  }

  // ---------- for ever ----------

  lemma {:induction false} StaysReady(st: State, g: Setting, turns: seq<Turn>, t0: int)
    requires Fair(g) && Ticking(turns) && Ready(st, g, t0) && (turns != [] ==> t0 <= turns[0].at)
    ensures |Takes(st, g, turns).1| == |turns|
    ensures Ready(Takes(st, g, turns).0, g, if turns == [] then t0 else turns[|turns| - 1].doneAt + 1)
  {
    if turns != [] {
      var init, t := turns[..|turns| - 1], turns[|turns| - 1];
      StaysReady(st, g, init, t0);
      var i := TakeLeast(Takes(st, g, init).0, g, t);
    }
  }

  lemma TakesSnoc(st: State, g: Setting, turns: seq<Turn>, t: Turn)
    ensures Takes(st, g, turns + [t]).0 == Take(Takes(st, g, turns).0, g, t).0
    ensures Takes(st, g, turns + [t]).1 == Takes(st, g, turns).1 + [Take(Takes(st, g, turns).0, g, t).1]
  {
    assert (turns + [t])[..|turns + [t]| - 1] == turns;
  }

  lemma {:induction false} TakesSplit(st: State, g: Setting, a: seq<Turn>, b: seq<Turn>)
    ensures Takes(st, g, a + b).0 == Takes(Takes(st, g, a).0, g, b).0
    ensures Takes(st, g, a + b).1 == Takes(st, g, a).1 + Takes(Takes(st, g, a).0, g, b).1
    decreases |b|
  {
    if b == [] {
      assert a + b == a;
    } else {
      var init, t := b[..|b| - 1], b[|b| - 1];
      assert a + b == (a + init) + [t] && b == init + [t];
      TakesSplit(st, g, a, init);
      TakesSnoc(st, g, a + init, t);
      TakesSnoc(Takes(st, g, a).0, g, init, t);
    }
  }

  /** A window b of a longer run is itself a run, from a state that is ready for it. */
  lemma {:induction false} Window(st: State, g: Setting, a: seq<Turn>, b: seq<Turn>, c: seq<Turn>, t0: int) returns (mid: State)
    requires Fair(g) && Ticking(a) && Ready(st, g, t0) && Ticking(b) && b != []
    requires if a == [] then t0 <= b[0].at else t0 <= a[0].at && a[|a| - 1].doneAt < b[0].at
    ensures Ready(mid, g, b[0].at) && |Takes(st, g, (a + b) + c).1| >= |a| + |b|
    ensures Takes(st, g, (a + b) + c).1[|a|..|a| + |b|] == Takes(mid, g, b).1
  {
    mid := Takes(st, g, a).0;
    StaysReady(st, g, a, t0);
    ReadyLater(mid, g, if a == [] then t0 else a[|a| - 1].doneAt + 1, b[0].at);
    StaysReady(mid, g, b, b[0].at);
    TakesSplit(st, g, a + b, c);
    TakesSplit(st, g, a, b);
    WindowOf(Takes(st, g, (a + b) + c).1, Takes(st, g, a).1, Takes(mid, g, b).1, Takes(Takes(st, g, a + b).0, g, c).1);
  }

  lemma ReadyLater(st: State, g: Setting, now: int, later: int)
    requires Ready(st, g, now) && now <= later
    ensures Ready(st, g, later)
  {
  }

  lemma WindowOf<T>(all: seq<T>, a: seq<T>, b: seq<T>, c: seq<T>)
    requires all == (a + b) + c
    ensures all[|a|..|a| + |b|] == b
  {
  }

  lemma TickingPart(turns: seq<Turn>, i: nat, j: nat)
    requires Ticking(turns) && i <= j <= |turns|
    ensures Ticking(turns[i..j])
  {
  }

  /** The same holds of any n consecutive requests in a run of any length. */
  lemma {:induction false} AnyWindow(st: State, g: Setting, turns: seq<Turn>, k: nat) returns (picks: seq<nat>)
    requires Fair(g) && Ticking(turns) && k + |g.ps| <= |turns| && Ready(st, g, turns[0].at)
    ensures k + |g.ps| <= |Takes(st, g, turns).1| && Answers(g, Takes(st, g, turns).1[k..k + |g.ps|], picks)
    ensures NoRepeats(picks) && forall i: nat :: i < |g.ps| <==> i in picks
  {
    var a, b, c := ThreeParts(turns, k, k + |g.ps|);
    var mid := Window(st, g, a, b, c, turns[0].at);
    picks := EachExactlyOnce(mid, g, b);
  }

  lemma ThreeParts(turns: seq<Turn>, k: nat, m: nat) returns (a: seq<Turn>, b: seq<Turn>, c: seq<Turn>)
    requires Ticking(turns) && k < m <= |turns|
    ensures turns == (a + b) + c && |a| == k && |b| == m - k && Ticking(a) && Ticking(b)
    ensures turns[0].at == (a + b)[0].at && (a != [] ==> a[|a| - 1].doneAt < b[0].at)
  {
    a, b, c := turns[0..k], turns[k..m], turns[m..];
    TickingPart(turns, 0, k);
    TickingPart(turns, k, m);
  }
}
