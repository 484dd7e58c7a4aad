/**
  The fallback chain as a whole, and session stickiness over sequences of calls.
 */
module FailoverRuns {
  import opened Text
  import opened Errors
  import opened Cooldown
  import opened Failover
  import opened FailoverTheorems

  // ---------- the fallback chain ----------

  /** What a refusal may change: the session's unfollowable pin, and one probe stamp of the provider. */
  ghost predicate Refusal(a: State, b: State, reg: Registry, model: string, session: string, now: int) {
    var p := reg.resolve(model).provider;
    && b.profiles == a.profiles && b.lastUsed == a.lastUsed && b.pins == Unpinned(a, session, p).pins
    && (b.cooling == a.cooling || exists q: string :: b.cooling == Probe(a.cooling, CooldownKey(p, q), now))
  }

  lemma RefusalChanges(st: State, reg: Registry, model: string, session: string, now: int)
    requires Refused(st, reg, model, session, now)
    ensures Refusal(st, TryResolve(st, reg, model, session, now).0, reg, model, session, now)
  {
    var p := reg.resolve(model).provider;
    RefusedExactly(st, reg, model, session, now);
    var st', ps := Unpinned(st, session, p), ProfilesOf(st, p);
    var after := TryResolve(st, reg, model, session, now).0;
    if ps == [] {
      assert after.cooling == Probe(st.cooling, CooldownKey(p, ""), now);
    } else {
      assert Choose(st', reg, p, ps, now).1.None?;
      if i: nat :| IsFirstCooled(st', p, ps, i, now) {
        forall j: nat | IsFirstCooled(st', p, ps, j, now) ensures j == i { FirstIsUnique(st', p, ps, i, j, now); }
        assert after.cooling == Probe(st.cooling, CooldownKey(p, ps[i].id), now);
      }
    }
  }

  lemma ProbeKeepsCooldowns(s: States, key: string, now: int)
    ensures forall k: string, t: int :: Cooled(Probe(s, key, now), k, t) == Cooled(s, k, t)
    ensures forall k: string :: MayProbe(Probe(s, key, now), k, now) == (MayProbe(s, k, now) && k != key)
  {
  }

  /** A refusal leaves every other model as refused, or not, as it was. */
  lemma RefusalKeeps(a: State, b: State, reg: Registry, m: string, m': string, session: string, now: int)
    requires Refused(a, reg, m, session, now) && Refusal(a, b, reg, m, session, now)
    ensures Refused(a, reg, m', session, now) ==> Refused(b, reg, m', session, now)
    ensures !Overlap(reg.resolve(m).provider, reg.resolve(m').provider) && Refused(b, reg, m', session, now) ==> Refused(a, reg, m', session, now)
  {
    var p, p' := reg.resolve(m).provider, reg.resolve(m').provider;
    forall k: string, t: int ensures Cooled(b.cooling, k, t) == Cooled(a.cooling, k, t) {
      if b.cooling != a.cooling {
        var q: string :| b.cooling == Probe(a.cooling, CooldownKey(p, q), now);
        ProbeKeepsCooldowns(a.cooling, CooldownKey(p, q), now);
      }
    }
    if Pinned(a, session, p) || Pinned(a, session, p') {
      HealthKept(a, b, reg, a.pins[session].provider, a.pins[session].profile, now);
    }
    assert PinFollowed(a, reg, p', session, now) == PinFollowed(b, reg, p', session, now);
    if b.cooling == a.cooling {
      SameExhaustion(a, b, reg, p', now);
    } else {
      var q: string :| b.cooling == Probe(a.cooling, CooldownKey(p, q), now);
      ExhaustionKept(a, b, reg, p', CooldownKey(p, q), now);
      if !Overlap(p, p') && p != p' {
        forall q' ensures CooldownKey(p', q') != CooldownKey(p, q) {
          if CooldownKey(p', q') == CooldownKey(p, q) { KeysDiffer(p, q, p', q'); }
        }
      }
    }
  }

  lemma HealthKept(a: State, b: State, reg: Registry, p: string, q: string, now: int)
    requires a.profiles == b.profiles && forall k: string, t: int :: Cooled(b.cooling, k, t) == Cooled(a.cooling, k, t)
    ensures Healthy(a, reg, p, q, now) == Healthy(b, reg, p, q, now)
  {
    assert ProfilesOf(a, p) == ProfilesOf(b, p);
  }

  lemma SameExhaustion(a: State, b: State, reg: Registry, p: string, now: int)
    requires a.profiles == b.profiles && b.cooling == a.cooling
    ensures Exhausted(a, reg, p, now) == Exhausted(b, reg, p, now)
  {
    var ps := ProfilesOf(a, p);
    assert forall i: nat :: i < |ps| ==> IsCooled(a, p, ps[i], now) == IsCooled(b, p, ps[i], now);
    assert forall i: nat :: i < |ps| ==> Usable(a, reg, p, ps, i, now) == Usable(b, reg, p, ps, i, now);
    assert forall i: nat :: IsFirstCooled(a, p, ps, i, now) == IsFirstCooled(b, p, ps, i, now);
  }

  lemma ExhaustionKept(a: State, b: State, reg: Registry, p: string, key: string, now: int)
    requires a.profiles == b.profiles && b.cooling == Probe(a.cooling, key, now)
    ensures Exhausted(a, reg, p, now) ==> Exhausted(b, reg, p, now)
    ensures Exhausted(b, reg, p, now) && (forall q :: CooldownKey(p, q) != key) ==> Exhausted(a, reg, p, now)
  {
    ProbeKeepsCooldowns(a.cooling, key, now);
    var ps := ProfilesOf(a, p);
    assert forall i: nat :: i < |ps| ==> IsCooled(a, p, ps[i], now) == IsCooled(b, p, ps[i], now);
    assert forall i: nat :: i < |ps| ==> Usable(a, reg, p, ps, i, now) == Usable(b, reg, p, ps, i, now);
    assert forall i: nat :: IsFirstCooled(a, p, ps, i, now) == IsFirstCooled(b, p, ps, i, now);
    assert CooldownKey(p, "") == p;
  }

  ghost predicate AllRefused(st: State, reg: Registry, models: seq<string>, session: string, now: int) {
    forall m :: m in models ==> Refused(st, reg, m, session, now)
  }

  /** No provider id of these models overlaps another. */
  ghost predicate Apart(reg: Registry, models: seq<string>) {
    forall m, m' :: m in models && m' in models ==> !Overlap(reg.resolve(m).provider, reg.resolve(m').provider)
  }

  lemma {:induction false} WalkExhausted(st: State, reg: Registry, model: string, chain: seq<string>, session: string, now: int)
    requires Refused(st, reg, model, session, now)
    ensures AllRefused(st, reg, chain, session, now) ==> WalkChain(st, reg, model, chain, session, now).1 == None
    ensures Apart(reg, chain) && WalkChain(st, reg, model, chain, session, now).1 == None ==> AllRefused(st, reg, chain, session, now)
    decreases |chain|
  {
    if chain != [] {
      var m, rest := chain[0], chain[1..];
      assert forall x :: x in chain <==> x == m || x in rest;
      if m == model {
        WalkExhausted(st, reg, model, rest, session, now);
      } else if Refused(st, reg, m, session, now) {
        RefusedExactly(st, reg, m, session, now);
        RefusalChanges(st, reg, m, session, now);
        var st' := TryResolve(st, reg, m, session, now).0;
        forall m' ensures Refused(st, reg, m', session, now) ==> Refused(st', reg, m', session, now) {
          RefusalKeeps(st, st', reg, m, m', session, now);
        }
        if Apart(reg, chain) {
          forall m' | m' in rest && Refused(st', reg, m', session, now) ensures Refused(st, reg, m', session, now) {
            RefusalKeeps(st, st', reg, m, m', session, now);
          }
        }
        WalkExhausted(st', reg, model, rest, session, now);
      } else {
        RefusedExactly(st, reg, m, session, now);
      }
    }
  }

  /**
    Completeness of Resolve: nothing is returned when, in the state of the
    call, the primary and every fallback are refused; and only then, unless
    provider ids overlap.
   */
  lemma ResolveExhausted(st: State, reg: Registry, model: string, chain: seq<string>, session: string, now: int)
    ensures AllRefused(st, reg, [model] + chain, session, now) ==> ResolveFrom(st, reg, model, chain, session, now).1 == None
    ensures Apart(reg, [model] + chain) && ResolveFrom(st, reg, model, chain, session, now).1 == None ==>
              AllRefused(st, reg, [model] + chain, session, now)
  {
    assert forall x :: x in [model] + chain <==> x == model || x in chain;
    RefusedExactly(st, reg, model, session, now);
    if Refused(st, reg, model, session, now) {
      RefusalChanges(st, reg, model, session, now);
      var st' := TryResolve(st, reg, model, session, now).0;
      forall m' ensures Refused(st, reg, m', session, now) ==> Refused(st', reg, m', session, now) {
        RefusalKeeps(st, st', reg, model, m', session, now);
      }
      if Apart(reg, [model] + chain) {
        forall m' | m' in chain && Refused(st', reg, m', session, now) ensures Refused(st, reg, m', session, now) {
          RefusalKeeps(st, st', reg, model, m', session, now);
        }
        assert Apart(reg, chain);
      }
      WalkExhausted(st', reg, model, chain, session, now);
    }
  }

  // ---------- which fallback ----------

  lemma SameRight(a: State, b: State, reg: Registry, p: string, key: string, now: int)
    requires a.profiles == b.profiles && a.lastUsed == b.lastUsed && (b.cooling == a.cooling || b.cooling == Probe(a.cooling, key, now))
    requires b.cooling == a.cooling || forall q :: CooldownKey(p, q) != key
    ensures forall i: nat :: Right(a, reg, p, ProfilesOf(a, p), i, now) <==> Right(b, reg, p, ProfilesOf(a, p), i, now)
    ensures Cooled(a.cooling, p, now) == Cooled(b.cooling, p, now) && MayProbe(a.cooling, p, now) == MayProbe(b.cooling, p, now)
  {
    if b.cooling != a.cooling { ProbeKeepsCooldowns(a.cooling, key, now); }
    assert CooldownKey(p, "") == p;
    var ps := ProfilesOf(a, p);
    assert forall i: nat :: i < |ps| ==> IsCooled(a, p, ps[i], now) == IsCooled(b, p, ps[i], now);
    assert forall i: nat :: i < |ps| ==> Usable(a, reg, p, ps, i, now) == Usable(b, reg, p, ps, i, now);
    assert forall i: nat, j: nat :: i < |ps| && j < |ps| ==> Before(a, p, ps, i, j) == Before(b, p, ps, i, j);
    assert forall i: nat :: IsFirstCooled(a, p, ps, i, now) == IsFirstCooled(b, p, ps, i, now);
    assert forall i: nat :: IsBest(a, reg, p, ps, i, now) == IsBest(b, reg, p, ps, i, now);
    assert forall i: nat :: i < |ps| ==> Probeable(a, reg, p, ps, i, now) == Probeable(b, reg, p, ps, i, now);
  }

  /** The profiles of a provider give the same answer wherever the same profile is right. */
  lemma SameChoice(a: State, b: State, reg: Registry, p: string, ps: seq<Profile>, now: int)
    requires forall i: nat :: Right(a, reg, p, ps, i, now) <==> Right(b, reg, p, ps, i, now)
    ensures Choose(a, reg, p, ps, now).1 == Choose(b, reg, p, ps, now).1
  {
    ChooseRight(a, reg, p, ps, now);
    ChooseRight(b, reg, p, ps, now);
  }

  /** The answer for a model, when its pin cannot be followed. */
  lemma UnpinnedAnswer(st: State, reg: Registry, model: string, session: string, now: int)
    requires !PinFollowed(st, reg, reg.resolve(model).provider, session, now)
    ensures var ref := reg.resolve(model);
            var ps := ProfilesOf(st, ref.provider);
            var choice := if ps != [] then Choose(st, reg, ref.provider, ps, now).1 else ChooseDefault(st, reg, ref.provider, now).1;
            TryResolve(st, reg, model, session, now).1 == if choice.Some? then Some(Resolved(ref.provider, choice.value, ref.model, false)) else None
  {
    var p := reg.resolve(model).provider;
    RightUnpinned(st, reg, p, session, now);
    SameChoice(st, Unpinned(st, session, p), reg, p, ProfilesOf(st, p), now);
  }

  /** A refusal does not change what another model, at a provider apart, is answered. */
  lemma RefusalKeepsAnswer(a: State, b: State, reg: Registry, m: string, m': string, session: string, now: int)
    requires Refused(a, reg, m, session, now) && Refusal(a, b, reg, m, session, now)
    requires reg.resolve(m).provider != reg.resolve(m').provider && !Overlap(reg.resolve(m).provider, reg.resolve(m').provider)
    ensures TryResolve(b, reg, m', session, now).1 == TryResolve(a, reg, m', session, now).1
  {
    var p, p' := reg.resolve(m).provider, reg.resolve(m').provider;
    var key := CooldownKey(p, "");
    if b.cooling != a.cooling {
      var q: string :| b.cooling == Probe(a.cooling, CooldownKey(p, q), now);
      key := CooldownKey(p, q);
    }
    forall q' ensures CooldownKey(p', q') != key { ApartKeys(p, key, p', q'); }
    if b.cooling != a.cooling { ProbeKeepsCooldowns(a.cooling, key, now); }
    if Pinned(a, session, p') { HealthKept(a, b, reg, p', a.pins[session].profile, now); }
    assert PinFollowed(a, reg, p', session, now) == PinFollowed(b, reg, p', session, now);
    if !PinFollowed(a, reg, p', session, now) {
      SameRight(a, b, reg, p', key, now);
      SameChoice(a, b, reg, p', ProfilesOf(a, p'), now);
      UnpinnedAnswer(a, reg, m', session, now);
      UnpinnedAnswer(b, reg, m', session, now);
    }
  }

  lemma ApartKeys(p: string, key: string, p': string, q': string)
    requires p != p' && !Overlap(p, p') && exists q :: key == CooldownKey(p, q)
    ensures CooldownKey(p', q') != key
  {
    var q :| key == CooldownKey(p, q);
    if CooldownKey(p', q') == key { KeysDiffer(p, q, p', q'); }
  }

  /** Index k is the first of the chain that is not the primary and not refused in this state. */
  ghost predicate FirstOpen(st: State, reg: Registry, model: string, chain: seq<string>, session: string, now: int, k: nat) {
    && k < |chain| && chain[k] != model && !Refused(st, reg, chain[k], session, now)
    && forall j :: 0 <= j < k ==> chain[j] == model || Refused(st, reg, chain[j], session, now)
  }

  lemma {:induction false} WalkGivesFirst(st: State, reg: Registry, model: string, chain: seq<string>, session: string, now: int, k: nat)
    requires Apart(reg, chain) && FirstOpen(st, reg, model, chain, session, now, k)
    ensures TryResolve(st, reg, chain[k], session, now).1.Some?
    ensures WalkChain(st, reg, model, chain, session, now).1 == Some(TryResolve(st, reg, chain[k], session, now).1.value.(isFallback := true))
    decreases k
  {
    RefusedExactly(st, reg, chain[k], session, now);
    if k > 0 {
      var m, rest := chain[0], chain[1..];
      assert rest[k - 1] == chain[k] && Apart(reg, rest);
      if m == model {
        assert FirstOpen(st, reg, model, rest, session, now, k - 1) by { assert forall j :: 0 <= j < k - 1 ==> rest[j] == chain[j + 1]; }
        WalkGivesFirst(st, reg, model, rest, session, now, k - 1);
      } else {
        RefusedExactly(st, reg, m, session, now);
        RefusalChanges(st, reg, m, session, now);
        var st' := TryResolve(st, reg, m, session, now).0;
        StillFirst(st, st', reg, model, chain, session, now, k);
        RefusalKeepsAnswer(st, st', reg, m, chain[k], session, now);
        WalkGivesFirst(st', reg, model, rest, session, now, k - 1);
      }
    }
  }

  /** After the first model of the chain is refused, the first open one is where it was. */
  lemma StillFirst(a: State, b: State, reg: Registry, model: string, chain: seq<string>, session: string, now: int, k: nat)
    requires Apart(reg, chain) && FirstOpen(a, reg, model, chain, session, now, k) && 0 < k
    requires Refused(a, reg, chain[0], session, now) && Refusal(a, b, reg, chain[0], session, now)
    ensures FirstOpen(b, reg, model, chain[1..], session, now, k - 1) && reg.resolve(chain[0]).provider != reg.resolve(chain[k]).provider
  {
    var rest := chain[1..];
    assert chain[0] in chain && chain[k] in chain && rest[k - 1] == chain[k];
    RefusalKeeps(a, b, reg, chain[0], chain[k], session, now);
    forall j | 0 <= j < k - 1 ensures rest[j] == model || Refused(b, reg, rest[j], session, now) {
      assert rest[j] == chain[j + 1];
      RefusalKeeps(a, b, reg, chain[0], chain[j + 1], session, now);
    }
  }

  /**
    Which fallback: when the primary is refused and provider ids do not overlap,
    the first model of the chain that is not refused in the state of the call
    answers, as it would have answered then, marked as a fallback.
   */
  lemma FirstFallbackAnswers(st: State, reg: Registry, model: string, chain: seq<string>, session: string, now: int, k: nat)
    requires Refused(st, reg, model, session, now) && Apart(reg, [model] + chain) && FirstOpen(st, reg, model, chain, session, now, k)
    ensures var own := TryResolve(st, reg, chain[k], session, now).1;
            && own.Some? && own.value.provider == reg.resolve(chain[k]).provider && own.value.model == reg.resolve(chain[k]).model
            && ResolveFrom(st, reg, model, chain, session, now).1 == Some(own.value.(isFallback := true))
  {
    RefusedExactly(st, reg, model, session, now);
    RefusalChanges(st, reg, model, session, now);
    var st' := TryResolve(st, reg, model, session, now).0;
    BehindPrimary(st, st', reg, model, chain, session, now, k);
    RefusalKeepsAnswer(st, st', reg, model, chain[k], session, now);
    WalkGivesFirst(st', reg, model, chain, session, now, k);
    ResolveSafety(st, reg, chain[k], session, now);
  }

  lemma BehindPrimary(a: State, b: State, reg: Registry, model: string, chain: seq<string>, session: string, now: int, k: nat)
    requires Apart(reg, [model] + chain) && FirstOpen(a, reg, model, chain, session, now, k)
    requires Refused(a, reg, model, session, now) && Refusal(a, b, reg, model, session, now)
    ensures FirstOpen(b, reg, model, chain, session, now, k) && Apart(reg, chain)
    ensures reg.resolve(model).provider != reg.resolve(chain[k]).provider
  {
    var all := [model] + chain;
    assert all[k + 1] == chain[k] && all[1..] == chain && forall j :: 0 <= j < |chain| ==> all[j + 1] == chain[j];
    StillFirst(a, b, reg, model, all, session, now, k + 1);
  }

  // ---------- session stickiness ----------

  datatype Call =
    | ResolveCall(model: string, session: string)
    | SuccessCall(provider: string, profile: string, session: string)
    | FailureCall(provider: string, profile: string, kind: ErrorKind, retryAfter: int)
    | ClearCall(session: string)
    | ProfilesCall(provider: string, profiles: seq<Profile>)
    | ChainCall(chain: seq<string>)

  datatype Event = Event(call: Call, at: int)

  /** The resolver's state together with its fallback chain. */
  datatype System = System(st: State, chain: seq<string>)

  ghost function Next(sys: System, reg: Registry, e: Event): System {
    match e.call
    case ResolveCall(m, s) => sys.(st := ResolveFrom(sys.st, reg, m, sys.chain, s, e.at).0)
    case SuccessCall(p, q, s) => sys.(st := Succeeded(sys.st, p, q, s, e.at))
    case FailureCall(p, q, kind, retry) => sys.(st := sys.st.(cooling := Fail(sys.st.cooling, CooldownKey(p, q), kind, retry, e.at)))
    case ClearCall(s) => sys.(st := sys.st.(pins := sys.st.pins - {s}))
    case ProfilesCall(p, ps) => sys.(st := sys.st.(profiles := sys.st.profiles[p := ps]))
    case ChainCall(chain) => sys.(chain := chain)
  }

  ghost function After(sys: System, reg: Registry, events: seq<Event>): System {
    if events == [] then sys else Next(After(sys, reg, events[..|events| - 1]), reg, events[|events| - 1])
  }

  /** The calls that may part session s from profile q of provider p. */
  predicate Disturbs(reg: Registry, call: Call, s: string, p: string, q: string) {
    match call
    case ResolveCall(_, _) => false
    case SuccessCall(p', q', s') => s' == s && (p' != p || q' != q)
    case FailureCall(p', q', kind, retry) => CooldownKey(p', q') == CooldownKey(p, q) && (retry > 0 || Base(kind) > 0)
    case ClearCall(s') => s' == s
    case ProfilesCall(p', ps) => p' == p && !Lists(reg, p, ps, q)
    case ChainCall(_) => false
  }

  /** Session s is pinned to profile q of provider p, which is healthy from now on. */
  predicate Settled(st: State, reg: Registry, s: string, p: string, q: string, now: int) {
    && s != "" && s in st.pins && st.pins[s] == Pin(p, q) && Lists(reg, p, ProfilesOf(st, p), q)
    && !Cooled(st.cooling, CooldownKey(p, q), now)
  }

  lemma SettledResolves(st: State, reg: Registry, model: string, chain: seq<string>, s: string, p: string, q: string, now: int)
    requires Settled(st, reg, s, p, q, now) && reg.resolve(model).provider == p
    ensures ResolveFrom(st, reg, model, chain, s, now) == (st, Some(Resolved(p, q, reg.resolve(model).model, false)))
  {
    assert Healthy(st, reg, p, q, now);
  }

  lemma TryKeepsSettled(st: State, reg: Registry, model: string, s': string, s: string, p: string, q: string, now: int)
    requires Settled(st, reg, s, p, q, now)
    ensures Settled(TryResolve(st, reg, model, s', now).0, reg, s, p, q, now)
  {
    var p' := reg.resolve(model).provider;
    var after := TryResolve(st, reg, model, s', now).0;
    if s == s' && p' == p {
      assert Healthy(st, reg, p, q, now);
    } else if !PinFollowed(st, reg, p', s', now) {
      assert after.profiles == st.profiles;
      assert s in after.pins && after.pins[s] == st.pins[s];
      assert Cooled(after.cooling, CooldownKey(p, q), now) == Cooled(st.cooling, CooldownKey(p, q), now);
    }
  }

  lemma {:induction false} WalkKeepsSettled(st: State, reg: Registry, model: string, chain: seq<string>, s': string, s: string, p: string, q: string, now: int)
    requires Settled(st, reg, s, p, q, now)
    ensures Settled(WalkChain(st, reg, model, chain, s', now).0, reg, s, p, q, now)
    decreases |chain|
  {
    if chain != [] {
      TryKeepsSettled(st, reg, chain[0], s', s, p, q, now);
      var st' := if chain[0] == model then st else TryResolve(st, reg, chain[0], s', now).0;
      WalkKeepsSettled(st', reg, model, chain[1..], s', s, p, q, now);
    }
  }

  lemma NextKeepsSettled(sys: System, reg: Registry, e: Event, s: string, p: string, q: string, now: int)
    requires Settled(sys.st, reg, s, p, q, now) && now <= e.at && !Disturbs(reg, e.call, s, p, q)
    ensures Settled(Next(sys, reg, e).st, reg, s, p, q, e.at)
  {
    assert Settled(sys.st, reg, s, p, q, e.at);
    match e.call
    case ResolveCall(m, s') =>
      TryKeepsSettled(sys.st, reg, m, s', s, p, q, e.at);
      WalkKeepsSettled(TryResolve(sys.st, reg, m, s', e.at).0, reg, m, sys.chain, s', s, p, q, e.at);
    case SuccessCall(_, _, _) =>
    case FailureCall(_, _, kind, _) =>
      DurationBounds(kind, Streak(sys.st.cooling, CooldownKey(p, q), e.at));
      assert Base(kind) == 0 ==> Cap(kind) == 0;
    case ClearCall(_) =>
    case ProfilesCall(_, _) =>
    case ChainCall(_) =>
  }

  predicate Ordered(events: seq<Event>, from: int) {
    && (forall i :: 0 <= i < |events| ==> from <= events[i].at)
    && forall i, j :: 0 <= i < j < |events| ==> events[i].at <= events[j].at
  }

  function LastTime(events: seq<Event>, from: int): int { if events == [] then from else events[|events| - 1].at }

  lemma {:induction false} StaysSettled(sys: System, reg: Registry, events: seq<Event>, s: string, p: string, q: string, from: int)
    requires Settled(sys.st, reg, s, p, q, from) && Ordered(events, from)
    requires forall i :: 0 <= i < |events| ==> !Disturbs(reg, events[i].call, s, p, q)
    ensures Settled(After(sys, reg, events).st, reg, s, p, q, LastTime(events, from))
  {
    if events != [] {
      var init := events[..|events| - 1];
      StaysSettled(sys, reg, init, s, p, q, from);
      NextKeepsSettled(After(sys, reg, init), reg, events[|events| - 1], s, p, q, LastTime(init, from));
    }
  }

  /**
    Session stickiness: once s succeeds with a listed profile q of p, then
    however other calls interleave, every later Resolve in s for a model of p
    gives q, until q fails with a cooldown, a new list of profiles of p leaves q
    out, the pin is cleared, or s succeeds elsewhere.
   */
  lemma {:induction false} Sticky(sys: System, reg: Registry, s: string, p: string, q: string, from: int, events: seq<Event>, model: string, at: int)
    requires s != "" && Lists(reg, p, ProfilesOf(sys.st, p), q)
    requires Ordered(events, from) && LastTime(events, from) <= at
    requires forall i :: 0 <= i < |events| ==> !Disturbs(reg, events[i].call, s, p, q)
    requires reg.resolve(model).provider == p
    ensures var now := After(Next(sys, reg, Event(SuccessCall(p, q, s), from)), reg, events);
            ResolveFrom(now.st, reg, model, now.chain, s, at) == (now.st, Some(Resolved(p, q, reg.resolve(model).model, false)))
  {
    var first := Next(sys, reg, Event(SuccessCall(p, q, s), from));
    StaysSettled(first, reg, events, s, p, q, from);
    var now := After(first, reg, events);
    SettledResolves(now.st, reg, model, now.chain, s, p, q, at);
  }

  /** A pin that is not healthy does not survive being looked up. */
  lemma StalePinDropped(st: State, reg: Registry, model: string, s: string, p: string, q: string, now: int)
    requires s != "" && s in st.pins && st.pins[s] == Pin(p, q) && !Healthy(st, reg, p, q, now) && reg.resolve(model).provider == p
    ensures s !in TryResolve(st, reg, model, s, now).0.pins
  {
  }
}
