/**
  Where two promises of the resolver end: that a probe waits until every profile
  is cooling down, and that a refusal does not hide a fallback that could serve.
  Every failing state is one that calls lead to from a new resolver.
 */
module FailoverLimits {
  import opened Text
  import opened Errors
  import opened Cooldown
  import opened Failover
  import opened FailoverTheorems
  import opened FailoverRuns

  const NEW := System(State(map[], map[], map[], map[]), [])

  /** The system after these calls, the last of them not later than now. */
  ghost predicate Leads(reg: Registry, events: seq<Event>, now: int, sys: System) {
    Ordered(events, 0) && LastTime(events, 0) <= now && sys == After(NEW, reg, events)
  }

  // ---------- probes beside profiles that are not cooling down ----------

  /** After these calls a Resolve hands out profile i, which is cooling down, while profile j is not. */
  ghost predicate EarlyProbe(reg: Registry, model: string, session: string, ps: seq<Profile>, events: seq<Event>, now: int, i: nat, j: nat) {
    var p := reg.resolve(model).provider;
    var sys := After(NEW, reg, events);
    && i < |ps| && j < |ps| && Leads(reg, events, now, sys) && ProfilesOf(sys.st, p) == ps
    && ResolveFrom(sys.st, reg, model, sys.chain, session, now).1 == Some(Resolved(p, ps[i].id, reg.resolve(model).model, false))
    && IsCooled(sys.st, p, ps[i], now) && !IsCooled(sys.st, p, ps[j], now)
  }

  ghost predicate ProbesEarly(reg: Registry, model: string, session: string, ps: seq<Profile>) {
    exists events, now, i, j :: EarlyProbe(reg, model, session, ps, events, now, i, j)
  }

  predicate Builds(reg: Registry, p: string, ps: seq<Profile>, i: nat)
    requires i < |ps|
  {
    reg.buildsWithKey(p, ps[i].apiKey)
  }

  /** A client can be built for one of the profiles and not for another. */
  ghost predicate Mixed(reg: Registry, p: string, ps: seq<Profile>) {
    exists i: nat, j: nat :: i < |ps| && j < |ps| && Builds(reg, p, ps, i) && !Builds(reg, p, ps, j)
  }

  /** A probe can come before all profiles are cooling down exactly when only some of them can be built. */
  lemma {:induction false} EarlyProbeIff(reg: Registry, model: string, session: string, ps: seq<Profile>)
    requires DistinctIds(ps)
    ensures ProbesEarly(reg, model, session, ps) <==> Mixed(reg, reg.resolve(model).provider, ps)
  {
    var p := reg.resolve(model).provider;
    if ProbesEarly(reg, model, session, ps) {
      var events, now, i: nat, j: nat :| EarlyProbe(reg, model, session, ps, events, now, i, j);
      EarlyMeansMixed(reg, model, session, ps, After(NEW, reg, events), now, i, j);
    }
    if Mixed(reg, p, ps) {
      var i: nat, j: nat :| i < |ps| && j < |ps| && Builds(reg, p, ps, i) && !Builds(reg, p, ps, j);
      MixedMeansEarly(reg, model, session, ps, i, j);
    }
  }

  lemma EarlyMeansMixed(reg: Registry, model: string, session: string, ps: seq<Profile>, sys: System, now: int, i: nat, j: nat)
    requires DistinctIds(ps) && i < |ps| && j < |ps|
    requires var p := reg.resolve(model).provider;
             && ProfilesOf(sys.st, p) == ps && IsCooled(sys.st, p, ps[i], now) && !IsCooled(sys.st, p, ps[j], now)
             && ResolveFrom(sys.st, reg, model, sys.chain, session, now).1 == Some(Resolved(p, ps[i].id, reg.resolve(model).model, false))
    ensures Mixed(reg, reg.resolve(model).provider, ps)
  {
    var p := reg.resolve(model).provider;
    var first := TryResolve(sys.st, reg, model, session, now);
    if first.1 == None {
      WalkIsFallback(first.0, reg, model, sys.chain, session, now);
    }
    ResolveSafety(sys.st, reg, model, session, now);
    var k: nat :| Right(sys.st, reg, p, ps, k, now) && ps[k].id == ps[i].id;
    assert k == i;
    assert Builds(reg, p, ps, i) && !Usable(sys.st, reg, p, ps, j, now) && !Builds(reg, p, ps, j);
  }

  /** Whatever the fallback chain gives is marked as a fallback. */
  lemma {:induction false} WalkIsFallback(st: State, reg: Registry, model: string, chain: seq<string>, session: string, now: int)
    ensures var r := WalkChain(st, reg, model, chain, session, now).1; r.Some? ==> r.value.isFallback
    decreases |chain|
  {
    if chain != [] {
      WalkIsFallback(st, reg, model, chain[1..], session, now);
      WalkIsFallback(TryResolve(st, reg, chain[0], session, now).0, reg, model, chain[1..], session, now);
    }
  }

  /** List the profiles, then let each of the first n that can be built fail once, at time 0. */
  function Script(reg: Registry, p: string, ps: seq<Profile>, n: nat): seq<Event>
    requires n <= |ps|
  {
    if n == 0 then [Event(ProfilesCall(p, ps), 0)]
    else Script(reg, p, ps, n - 1) + if Builds(reg, p, ps, n - 1) then [Event(FailureCall(p, ps[n - 1].id, Transient, 0), 0)] else []
  }

  const FAILED_ONCE := CooldownState(1, Transient, 60_000, 0, 0)

  /** Profile k has failed if it is one of the first n that can be built, and not otherwise. */
  predicate FailedOnce(st: State, reg: Registry, p: string, ps: seq<Profile>, n: nat, k: nat)
    requires k < |ps|
  {
    var key := CooldownKey(p, ps[k].id);
    if k < n && Builds(reg, p, ps, k) then key in st.cooling && st.cooling[key] == FAILED_ONCE else key !in st.cooling
  }

  lemma {:induction false} ScriptTimes(reg: Registry, p: string, ps: seq<Profile>, n: nat)
    requires n <= |ps|
    ensures Script(reg, p, ps, n) != [] && forall e :: e in Script(reg, p, ps, n) ==> e.at == 0
  {
    if n > 0 { ScriptTimes(reg, p, ps, n - 1); }
  }

  lemma AllAtZero(events: seq<Event>)
    requires events != [] && forall e :: e in events ==> e.at == 0
    ensures Ordered(events, 0) && LastTime(events, 0) == 0
  {
    assert forall i :: 0 <= i < |events| ==> events[i] in events;
  }

  lemma {:induction false} ScriptState(reg: Registry, p: string, ps: seq<Profile>, n: nat)
    requires DistinctIds(ps) && n <= |ps|
    ensures var st := After(NEW, reg, Script(reg, p, ps, n)).st;
            && ProfilesOf(st, p) == ps && st.pins == map[]
            && forall k: nat :: k < |ps| ==> FailedOnce(st, reg, p, ps, n, k)
  {
    if n == 0 {
      assert Script(reg, p, ps, n)[..0] == [] && After(NEW, reg, []) == NEW;
    } else {
      ScriptState(reg, p, ps, n - 1);
      var before := Script(reg, p, ps, n - 1);
      if Builds(reg, p, ps, n - 1) {
        var e := Event(FailureCall(p, ps[n - 1].id, Transient, 0), 0);
        assert (before + [e])[..|before|] == before;
        assert After(NEW, reg, before + [e]) == Next(After(NEW, reg, before), reg, e);
        OneFailure(After(NEW, reg, before).st, reg, p, ps, n - 1, n);
      } else {
        assert before + [] == before;
        SkipOne(After(NEW, reg, before).st, reg, p, ps, n - 1, n);
      }
    }
  }

  lemma SkipOne(st: State, reg: Registry, p: string, ps: seq<Profile>, m: nat, n: nat)
    requires n == m + 1 <= |ps| && !Builds(reg, p, ps, m)
    requires forall k: nat :: k < |ps| ==> FailedOnce(st, reg, p, ps, m, k)
    ensures forall k: nat :: k < |ps| ==> FailedOnce(st, reg, p, ps, n, k)
  {
    forall k: nat | k < |ps| ensures FailedOnce(st, reg, p, ps, n, k) { assert FailedOnce(st, reg, p, ps, m, k); }
  }

  lemma OneFailure(st: State, reg: Registry, p: string, ps: seq<Profile>, m: nat, n: nat)
    requires DistinctIds(ps) && n == m + 1 <= |ps| && Builds(reg, p, ps, m)
    requires forall k: nat :: k < |ps| ==> FailedOnce(st, reg, p, ps, m, k)
    ensures var st' := st.(cooling := Fail(st.cooling, CooldownKey(p, ps[m].id), Transient, 0, 0));
            forall k: nat :: k < |ps| ==> FailedOnce(st', reg, p, ps, n, k)
  {
    var st' := st.(cooling := Fail(st.cooling, CooldownKey(p, ps[m].id), Transient, 0, 0));
    assert FailedOnce(st, reg, p, ps, m, m);
    FifthPowers();
    assert Duration(Transient, 1) == 60;
    forall k: nat | k < |ps| ensures FailedOnce(st', reg, p, ps, n, k) {
      assert FailedOnce(st, reg, p, ps, m, k);
      if CooldownKey(p, ps[k].id) == CooldownKey(p, ps[m].id) { SameProviderKeys(p, ps[k].id, ps[m].id); }
    }
  }

  /** Thirty seconds after the failures the first profile that can be built is probed, and profile j never failed. */
  lemma {:induction false} MixedMeansEarly(reg: Registry, model: string, session: string, ps: seq<Profile>, i: nat, j: nat)
    requires DistinctIds(ps) && i < |ps| && j < |ps|
    requires Builds(reg, reg.resolve(model).provider, ps, i) && !Builds(reg, reg.resolve(model).provider, ps, j)
    ensures ProbesEarly(reg, model, session, ps)
    decreases i
  {
    var p := reg.resolve(model).provider;
    if k: nat :| k < i && Builds(reg, p, ps, k) {
      MixedMeansEarly(reg, model, session, ps, k, j);
    } else {
      var events := Script(reg, p, ps, |ps|);
      ScriptTimes(reg, p, ps, |ps|);
      AllAtZero(events);
      ScriptState(reg, p, ps, |ps|);
      var sys := After(NEW, reg, events);
      forall k: nat | k < |ps| ensures IsCooled(sys.st, p, ps[k], PROBE_INTERVAL) == Builds(reg, p, ps, k) {
        assert FailedOnce(sys.st, reg, p, ps, |ps|, k);
      }
      assert FailedOnce(sys.st, reg, p, ps, |ps|, i);
      assert Right(sys.st, reg, p, ps, i, PROBE_INTERVAL);
      ChooseRight(sys.st, reg, p, ps, PROBE_INTERVAL);
      assert EarlyProbe(reg, model, session, ps, events, PROBE_INTERVAL, i, j);
    }
  }

  // ---------- refusals that hide a fallback ----------

  /** After these calls nothing is returned although one of the two models was not refused. */
  ghost predicate HidesOne(reg: Registry, m: string, m': string, session: string, events: seq<Event>, now: int) {
    var sys := After(NEW, reg, events);
    && Leads(reg, events, now, sys) && sys.chain == [m']
    && ResolveFrom(sys.st, reg, m, sys.chain, session, now).1 == None && !AllRefused(sys.st, reg, [m] + sys.chain, session, now)
  }

  ghost predicate Hides(reg: Registry, m: string, m': string, session: string) {
    exists events, now :: HidesOne(reg, m, m', session, events, now)
  }

  /**
    One model with one fallback at another provider, and keys that the first
    provider cannot be built with and the second can: the refusal of the first
    can hide the second exactly when the two provider ids overlap.
   */
  lemma HiddenFallbackIff(reg: Registry, m: string, m': string, session: string, bad: string, good: string)
    requires m != m' && reg.resolve(m).provider != reg.resolve(m').provider
    requires !reg.buildsWithKey(reg.resolve(m).provider, bad) && reg.buildsWithKey(reg.resolve(m').provider, good)
    ensures Hides(reg, m, m', session) <==> Overlap(reg.resolve(m).provider, reg.resolve(m').provider)
  {
    var p, p' := reg.resolve(m).provider, reg.resolve(m').provider;
    if Hides(reg, m, m', session) {
      var events, now :| HidesOne(reg, m, m', session, events, now);
      HiddenMeansOverlap(After(NEW, reg, events).st, reg, m, m', session, now);
    }
    if Overlap(p, p') {
      KeysCollideIff(p, p');
      var q: string, q': string :| CooldownKey(p, q) == CooldownKey(p', q');
      OverlapHides(reg, m, m', session, Profile(q, bad, 0), Profile(q', good, 0));
    }
  }

  lemma HiddenMeansOverlap(st: State, reg: Registry, m: string, m': string, session: string, now: int)
    requires ResolveFrom(st, reg, m, [m'], session, now).1 == None && !AllRefused(st, reg, [m] + [m'], session, now)
    ensures Overlap(reg.resolve(m).provider, reg.resolve(m').provider)
  {
    ResolveExhausted(st, reg, m, [m'], session, now);
    var x, y :| x in [m] + [m'] && y in [m] + [m'] && Overlap(reg.resolve(x).provider, reg.resolve(y).provider);
    assert (x == m || x == m') && (y == m || y == m');
  }

  /** Both models are set up with one profile each, and the first fails. */
  function HidingScript(p: string, a: Profile, p': string, b: Profile, m': string): seq<Event> {
    [Event(ChainCall([m']), 0), Event(ProfilesCall(p, [a]), 0), Event(ProfilesCall(p', [b]), 0), Event(FailureCall(p, a.id, Transient, 0), 0)]
  }

  lemma HidingState(reg: Registry, p: string, a: Profile, p': string, b: Profile, m': string)
    requires p != p'
    ensures After(NEW, reg, HidingScript(p, a, p', b, m')) ==
            System(State(map[p := [a], p' := [b]], map[], map[], map[CooldownKey(p, a.id) := FAILED_ONCE]), [m'])
  {
    var s := HidingScript(p, a, p', b, m');
    assert s[..3][..2] == s[..2] && s[..2][..1] == s[..1] && s[..1][..0] == [];
    assert After(NEW, reg, s[..1]) == Next(After(NEW, reg, []), reg, s[0]);
    assert After(NEW, reg, s[..2]) == Next(After(NEW, reg, s[..1]), reg, s[1]);
    assert After(NEW, reg, s[..3]) == Next(After(NEW, reg, s[..2]), reg, s[2]);
    FifthPowers();
    assert Duration(Transient, 1) == 60;
  }

  lemma OverlapHides(reg: Registry, m: string, m': string, session: string, a: Profile, b: Profile)
    requires m != m' && reg.resolve(m).provider != reg.resolve(m').provider
    requires !reg.buildsWithKey(reg.resolve(m).provider, a.apiKey) && reg.buildsWithKey(reg.resolve(m').provider, b.apiKey)
    requires CooldownKey(reg.resolve(m).provider, a.id) == CooldownKey(reg.resolve(m').provider, b.id)
    ensures Hides(reg, m, m', session)
  {
    var p, p', now := reg.resolve(m).provider, reg.resolve(m').provider, PROBE_INTERVAL;
    var events := HidingScript(p, a, p', b, m');
    HidingState(reg, p, a, p', b, m');
    var st := After(NEW, reg, events).st;
    var key := CooldownKey(p, a.id);
    // The first model is refused, and its probe is used up.
    assert IsFirstCooled(st, p, [a], 0, now);
    OnlyCooled(st, reg, p, a, now);
    var st1 := TryResolve(st, reg, m, session, now).0;
    assert st1 == st.(cooling := Probe(st.cooling, key, now)) && TryResolve(st, reg, m, session, now).1 == None;
    // The second could have been probed, but no longer.
    assert Probeable(st, reg, p', [b], 0, now) && IsFirstCooled(st, p', [b], 0, now);
    assert !Refused(st, reg, m', session, now);
    OnlyCooled(st1, reg, p', b, now);
    assert TryResolve(st1, reg, m', session, now).1 == None;
    assert [m'][1..] == [] && WalkChain(st1, reg, m, [m'], session, now).1 == None;
    assert m' in [m] + [m'];
    assert HidesOne(reg, m, m', session, events, now);
  }

  /** A single profile in cooldown is probed, or nothing is given. */
  lemma OnlyCooled(st: State, reg: Registry, p: string, a: Profile, now: int)
    requires IsCooled(st, p, a, now)
    ensures Choose(st, reg, p, [a], now) ==
            (st.(cooling := Probe(st.cooling, CooldownKey(p, a.id), now)),
             if MayProbe(st.cooling, CooldownKey(p, a.id), now) && reg.buildsWithKey(p, a.apiKey) then Some(a.id) else None)
  {
    assert forall i: nat :: !IsBest(st, reg, p, [a], i, now);
    assert IsFirstCooled(st, p, [a], 0, now);
  }
}
