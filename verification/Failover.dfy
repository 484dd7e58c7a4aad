/**
  Choosing an API-key profile for a model: session pins, cooldowns, rotation
  and the fallback chain (src/providers/failover_resolver.cpp).
 */
module Failover {
  import opened Text
  import opened Errors
  import opened Cooldown

  datatype Profile = Profile(id: string, apiKey: string, priority: int)

  datatype ModelRef = ModelRef(provider: string, model: string)

  datatype Pin = Pin(provider: string, profile: string)

  datatype Resolved = Resolved(provider: string, profile: string, model: string, isFallback: bool)

  /** The provider registry: how a model name resolves, and which providers can be built. */
  datatype Registry = Registry(
    resolve: string -> ModelRef,
    buildsWithKey: (string, string) -> bool,
    buildsDefault: string -> bool
  )

  /** profiles_, profile_last_used_, session_pins_ and the cooldown table. */
  datatype State = State(profiles: map<string, seq<Profile>>, lastUsed: map<string, int>, pins: map<string, Pin>, cooling: States)

  // ---------- keys ----------

  function CooldownKey(provider: string, profile: string): string {
    if profile == "" then provider else provider + ":" + profile
  }

  /** Reading a cooldown key back. */
  function SplitKey(key: string): (string, string) {
    match Find(key, ":", 0)
    case None => (key, "")
    case Some(k) => (key[..k], key[k + 1..])
  }

  lemma KeyRoundTrip(provider: string, profile: string)
    requires ':' !in provider
    ensures SplitKey(CooldownKey(provider, profile)) == (provider, profile)
  {
    if profile == "" {
      NotFound(provider, ':', 0);
    } else {
      var key := provider + ":" + profile;
      FoundAfter(provider, ':', profile);
      assert key == provider + [':'] + profile && key[..|provider|] == provider && key[|provider| + 1..] == profile;
    }
  }

  /** One provider id, followed by a colon, begins the other. */
  predicate Overlap(p: string, p': string) {
    p + ":" <= p' || p' + ":" <= p
  }

  /** Some profile of p and some profile of p' share a cooldown. */
  ghost predicate KeysCollide(p: string, p': string) {
    exists q: string, q': string :: CooldownKey(p, q) == CooldownKey(p', q')
  }

  /** Different providers share a cooldown exactly when their ids overlap. */
  lemma KeysCollideIff(p: string, p': string)
    requires p != p'
    ensures KeysCollide(p, p') <==> Overlap(p, p')
  {
    if KeysCollide(p, p') {
      var q: string, q': string :| CooldownKey(p, q) == CooldownKey(p', q');
      SharedKeyOverlaps(p, q, p', q');
    }
    if p + ":" <= p' {
      var q := OverlapShares(p, p');
      assert CooldownKey(p, q) == CooldownKey(p', "x");
    }
    if p' + ":" <= p {
      var q := OverlapShares(p', p);
      assert CooldownKey(p, "x") == CooldownKey(p', q);
    }
  }

  lemma OverlapShares(p: string, p': string) returns (q: string)
    requires p + ":" <= p'
    ensures CooldownKey(p, q) == CooldownKey(p', "x")
  {
    var rest := p'[|p| + 1..];
    q := rest + ":" + "x";
    assert p' == p + ":" + rest;
  }

  lemma SharedKeyOverlaps(p: string, q: string, p': string, q': string)
    requires p != p' && CooldownKey(p, q) == CooldownKey(p', q')
    ensures Overlap(p, p')
  {
    var key := CooldownKey(p, q);
    assert key[..|p|] == p && key[..|p'|] == p';
    if |p| < |p'| {
      assert key == p + ":" + q && (p + ":" + q)[..|p| + 1] == p + ":";
      assert p'[..|p| + 1] == key[..|p| + 1];
    } else {
      assert key == p' + ":" + q' && (p' + ":" + q')[..|p'| + 1] == p' + ":";
      assert p[..|p'| + 1] == key[..|p'| + 1];
    }
  }

  lemma SameProviderKeys(provider: string, q: string, q': string)
    requires CooldownKey(provider, q) == CooldownKey(provider, q')
    ensures q == q'
  {
    var prefix := provider + ":";
    if q != "" && q' != "" {
      assert (prefix + q)[|prefix|..] == q && (prefix + q')[|prefix|..] == q';
    } else {
      assert |CooldownKey(provider, q)| == |CooldownKey(provider, q')|;
    }
  }

  /** Without an overlap a key belongs to one provider and one profile. */
  lemma KeysDiffer(p: string, q: string, p': string, q': string)
    requires !Overlap(p, p') && CooldownKey(p, q) == CooldownKey(p', q')
    ensures p == p' && q == q'
  {
    if p != p' { SharedKeyOverlaps(p, q, p', q'); }
    SameProviderKeys(p, q, q');
  }

  // ---------- candidates ----------

  function LastUsed(st: State, provider: string, profile: Profile): int {
    var key := CooldownKey(provider, profile.id);
    if key in st.lastUsed then st.lastUsed[key] else 0
  }

  predicate IsCooled(st: State, provider: string, profile: Profile, now: int) {
    Cooled(st.cooling, CooldownKey(provider, profile.id), now)
  }

  /** Priority first, then least recently used, then position. */
  predicate Before(st: State, provider: string, ps: seq<Profile>, i: nat, j: nat)
    requires i < |ps| && j < |ps|
  {
    if ps[i].priority != ps[j].priority then ps[i].priority < ps[j].priority
    else if LastUsed(st, provider, ps[i]) != LastUsed(st, provider, ps[j])
    then LastUsed(st, provider, ps[i]) < LastUsed(st, provider, ps[j])
    else i < j
  }

  /** Not in cooldown, and a client can be built with its key. */
  predicate Usable(st: State, reg: Registry, provider: string, ps: seq<Profile>, i: nat, now: int)
    requires i < |ps|
  {
    !IsCooled(st, provider, ps[i], now) && reg.buildsWithKey(provider, ps[i].apiKey)
  }

  /** The usable profile that comes before every other. */
  ghost predicate IsBest(st: State, reg: Registry, provider: string, ps: seq<Profile>, i: nat, now: int) {
    i < |ps| && Usable(st, reg, provider, ps, i, now) &&
    forall j: nat :: j < |ps| && j != i && Usable(st, reg, provider, ps, j, now) ==> Before(st, provider, ps, i, j)
  }

  /** No usable profile has a smaller priority number; with its number none is longer unused; and of those it is listed first. */
  lemma BestIs(st: State, reg: Registry, provider: string, ps: seq<Profile>, i: nat, now: int, j: nat)
    requires IsBest(st, reg, provider, ps, i, now) && j < |ps| && Usable(st, reg, provider, ps, j, now)
    ensures ps[i].priority <= ps[j].priority
    ensures ps[i].priority == ps[j].priority ==> LastUsed(st, provider, ps[i]) <= LastUsed(st, provider, ps[j])
    ensures ps[i].priority == ps[j].priority && LastUsed(st, provider, ps[i]) == LastUsed(st, provider, ps[j]) ==> i <= j
  {
    assert j != i ==> Before(st, provider, ps, i, j);
  }

  ghost predicate NoneUsable(st: State, reg: Registry, provider: string, ps: seq<Profile>, now: int) {
    forall j: nat :: j < |ps| ==> !Usable(st, reg, provider, ps, j, now)
  }

  /** The first cooled profile, the only one that is probed. */
  ghost predicate IsFirstCooled(st: State, provider: string, ps: seq<Profile>, i: nat, now: int) {
    i < |ps| && IsCooled(st, provider, ps[i], now) && forall j: nat :: j < i ==> !IsCooled(st, provider, ps[j], now)
  }

  // ---------- sorting candidates ----------

  predicate SortedUpTo(st: State, provider: string, ps: seq<Profile>, order: seq<nat>) {
    (forall a :: 0 <= a < |order| ==> order[a] < |ps|) &&
    forall a, b :: 0 <= a < b < |order| ==> Before(st, provider, ps, order[a], order[b])
  }

  lemma BeforeTrans(st: State, provider: string, ps: seq<Profile>, i: nat, j: nat, k: nat)
    requires i < |ps| && j < |ps| && k < |ps| && Before(st, provider, ps, i, j) && Before(st, provider, ps, j, k)
    ensures Before(st, provider, ps, i, k)
  {
  }

  /** Put index i in its place among sorted candidates. */
  method Insert(st: State, provider: string, ps: seq<Profile>, order: seq<nat>, i: nat) returns (r: seq<nat>)
    requires SortedUpTo(st, provider, ps, order) && i < |ps| && i !in order
    ensures SortedUpTo(st, provider, ps, r) && forall x :: x in r <==> x in order || x == i
  {
    var k := |order|;
    while k > 0 && Before(st, provider, ps, i, order[k - 1])
      invariant 0 <= k <= |order|
      invariant forall a :: k <= a < |order| ==> Before(st, provider, ps, i, order[a])
    {
      k := k - 1;
    }
    r := order[..k] + [i] + order[k..];
    InsertSorted(st, provider, ps, order, i, k);
    assert order == order[..k] + order[k..];
  }

  lemma InsertSorted(st: State, provider: string, ps: seq<Profile>, order: seq<nat>, i: nat, k: nat)
    requires SortedUpTo(st, provider, ps, order) && i < |ps| && i !in order && k <= |order|
    requires forall a :: k <= a < |order| ==> Before(st, provider, ps, i, order[a])
    requires k > 0 ==> !Before(st, provider, ps, i, order[k - 1])
    ensures SortedUpTo(st, provider, ps, order[..k] + [i] + order[k..])
  {
    var r := order[..k] + [i] + order[k..];
    forall a | 0 <= a < k ensures Before(st, provider, ps, order[a], i) {
      assert order[k - 1] in order && Before(st, provider, ps, order[k - 1], i);
      if a < k - 1 {
        BeforeTrans(st, provider, ps, order[a], order[k - 1], i);
      }
    }
    forall a, b | 0 <= a < b < |r| ensures Before(st, provider, ps, r[a], r[b]) {
      var a', b' := if a < k then a else a - 1, if b < k then b else b - 1;
      if a == k {
        assert r[a] == i && r[b] == order[b'];
      } else if b == k {
        assert r[b] == i && r[a] == order[a'];
      } else {
        assert r[a] == order[a'] && r[b] == order[b'];
      }
    }
  }

  /** The available candidates in order, and the cooled ones as listed. */
  method Candidates(st: State, provider: string, ps: seq<Profile>, now: int) returns (available: seq<nat>, cooled: seq<nat>)
    ensures SortedUpTo(st, provider, ps, available)
    ensures forall i: nat :: i in available <==> i < |ps| && !IsCooled(st, provider, ps[i], now)
    ensures cooled == [] ==> forall i: nat :: i < |ps| ==> !IsCooled(st, provider, ps[i], now)
    ensures cooled != [] ==> IsFirstCooled(st, provider, ps, cooled[0], now)
  {
    available, cooled := [], [];
    for i := 0 to |ps|
      invariant SortedUpTo(st, provider, ps, available)
      invariant forall k: nat :: k in available <==> k < i && !IsCooled(st, provider, ps[k], now)
      invariant cooled == [] ==> forall k: nat :: k < i ==> !IsCooled(st, provider, ps[k], now)
      invariant cooled != [] ==> IsFirstCooled(st, provider, ps, cooled[0], now)
    {
      if IsCooled(st, provider, ps[i], now) {
        cooled := cooled + [i];
      } else {
        available := Insert(st, provider, ps, available, i);
      }
    }
  }

  /** The first candidate in order that can be built is the best profile. */
  method PickAvailable(st: State, reg: Registry, provider: string, ps: seq<Profile>, available: seq<nat>, now: int) returns (r: Option<nat>)
    requires SortedUpTo(st, provider, ps, available)
    requires forall i: nat :: i in available <==> i < |ps| && !IsCooled(st, provider, ps[i], now)
    ensures r.Some? ==> IsBest(st, reg, provider, ps, r.value, now)
    ensures r.None? ==> NoneUsable(st, reg, provider, ps, now)
  {
    for a := 0 to |available|
      invariant forall b :: 0 <= b < a ==> !reg.buildsWithKey(provider, ps[available[b]].apiKey)
    {
      var i := available[a];
      assert i in available;
      if reg.buildsWithKey(provider, ps[i].apiKey) {
        forall j: nat | j < |ps| && j != i && Usable(st, reg, provider, ps, j, now) ensures Before(st, provider, ps, i, j) {
          assert j in available;
          var b :| 0 <= b < |available| && available[b] == j;
        }
        return Some(i);
      }
    }
    forall j: nat | j < |ps| ensures !Usable(st, reg, provider, ps, j, now) {
      if !IsCooled(st, provider, ps[j], now) {
        assert j in available;
        var b :| 0 <= b < |available| && available[b] == j;
      }
    }
    r := None;
  }

  // ---------- one model ----------

  function ProfilesOf(st: State, provider: string): seq<Profile> {
    if provider in st.profiles then st.profiles[provider] else []
  }

  /** A profile with id q is listed and can be built. */
  predicate Lists(reg: Registry, provider: string, ps: seq<Profile>, q: string) {
    exists i :: 0 <= i < |ps| && ps[i].id == q && reg.buildsWithKey(provider, ps[i].apiKey)
  }

  /** Profile q of this provider is out of cooldown, still listed, and can be built. */
  predicate Healthy(st: State, reg: Registry, provider: string, q: string, now: int) {
    !Cooled(st.cooling, CooldownKey(provider, q), now) && Lists(reg, provider, ProfilesOf(st, provider), q)
  }

  /** The session is pinned to a profile of this provider. */
  predicate Pinned(st: State, session: string, provider: string) {
    session != "" && session in st.pins && st.pins[session].provider == provider
  }

  /** A pin that cannot be followed is dropped. */
  function Unpinned(st: State, session: string, provider: string): State {
    if Pinned(st, session, provider) then st.(pins := st.pins - {session}) else st
  }

  function Touch(st: State, key: string, now: int): State { st.(lastUsed := st.lastUsed[key := now]) }

  /** Choosing among the profiles of a provider; pins play no part here. */
  ghost function Choose(st: State, reg: Registry, provider: string, ps: seq<Profile>, now: int): (State, Option<string>)
  {
    if i: nat :| IsBest(st, reg, provider, ps, i, now) then
      (Touch(st, CooldownKey(provider, ps[i].id), now), Some(ps[i].id))
    else if i: nat :| IsFirstCooled(st, provider, ps, i, now) then
      var key := CooldownKey(provider, ps[i].id);
      (st.(cooling := Probe(st.cooling, key, now)),
       if MayProbe(st.cooling, key, now) && reg.buildsWithKey(provider, ps[i].apiKey) then Some(ps[i].id) else None)
    else (st, None)
  }

  /** A provider without profiles: its default entry. */
  function ChooseDefault(st: State, reg: Registry, provider: string, now: int): (State, Option<string>) {
    var ok := !Cooled(st.cooling, provider, now) || MayProbe(st.cooling, provider, now);
    (st.(cooling := Probe(st.cooling, provider, now)), if ok && reg.buildsDefault(provider) then Some("") else None)
  }

  ghost function TryResolve(st: State, reg: Registry, model: string, session: string, now: int): (State, Option<Resolved>) {
    var ref := reg.resolve(model);
    var p := ref.provider;
    if Pinned(st, session, p) && Healthy(st, reg, p, st.pins[session].profile, now) then
      (st, Some(Resolved(p, st.pins[session].profile, ref.model, false)))
    else
      var st' := Unpinned(st, session, p);
      var ps := ProfilesOf(st, p);
      var (after, choice) := if ps != [] then Choose(st', reg, p, ps, now) else ChooseDefault(st', reg, p, now);
      (after, if choice.Some? then Some(Resolved(p, choice.value, ref.model, false)) else None)
  }

  lemma BestIsUnique(st: State, reg: Registry, provider: string, ps: seq<Profile>, i: nat, j: nat, now: int)
    requires IsBest(st, reg, provider, ps, i, now) && IsBest(st, reg, provider, ps, j, now)
    ensures i == j
  {
  }

  lemma FirstIsUnique(st: State, provider: string, ps: seq<Profile>, i: nat, j: nat, now: int)
    requires IsFirstCooled(st, provider, ps, i, now) && IsFirstCooled(st, provider, ps, j, now)
    ensures i == j
  {
  }

  class FailoverResolver {
    var fallbackChain: seq<string>
    var profiles: map<string, seq<Profile>>
    var lastUsed: map<string, int>
    var pins: map<string, Pin>
    const tracker: CooldownTracker

    ghost function View(): State
      reads this, tracker
    {
      State(profiles, lastUsed, pins, tracker.states)
    }

    constructor ()
      ensures View() == State(map[], map[], map[], map[]) && fallbackChain == [] && fresh(tracker)
    {
      fallbackChain, profiles, lastUsed, pins := [], map[], map[], map[];
      tracker := new CooldownTracker();
    }

    /** The pinned profile of the session, if it is healthy. */
    method FollowPin(reg: Registry, provider: string, q: string, now: int) returns (ok: bool)
      ensures ok == Healthy(View(), reg, provider, q, now)
    {
      ok := false;
      var cooled := tracker.IsInCooldown(CooldownKey(provider, q), now);
      if !cooled && provider in profiles {
        var ps := profiles[provider];
        for i := 0 to |ps|
          invariant forall k :: 0 <= k < i ==> !(ps[k].id == q && reg.buildsWithKey(provider, ps[k].apiKey))
        {
          if ps[i].id == q && reg.buildsWithKey(provider, ps[i].apiKey) {
            assert ProfilesOf(View(), provider)[i] == ps[i];
            return true;
          }
        }
        assert ProfilesOf(View(), provider) == ps;
      }
    }

    /** Profiles out of cooldown in order, then one throttled probe. */
    method ChooseProfile(reg: Registry, provider: string, ps: seq<Profile>, now: int) returns (choice: Option<string>)
      modifies this, tracker
      ensures (View(), choice) == Choose(old(View()), reg, provider, ps, now)
      ensures fallbackChain == old(fallbackChain)
    {
      ghost var st := View();
      var snapshot := State(profiles, lastUsed, pins, tracker.states);
      var available, cooled := Candidates(snapshot, provider, ps, now);
      var best := PickAvailable(snapshot, reg, provider, ps, available, now);
      if best.Some? {
        var key := CooldownKey(provider, ps[best.value].id);
        lastUsed := lastUsed[key := now];
        forall i: nat | IsBest(st, reg, provider, ps, i, now) ensures i == best.value {
          BestIsUnique(st, reg, provider, ps, i, best.value, now);
        }
        return Some(ps[best.value].id);
      }
      assert forall i: nat :: !IsBest(st, reg, provider, ps, i, now);
      if cooled != [] {
        var first := cooled[0];
        forall i: nat | IsFirstCooled(st, provider, ps, i, now) ensures i == first {
          FirstIsUnique(st, provider, ps, i, first, now);
        }
        var granted := tracker.TryProbe(CooldownKey(provider, ps[first].id), now);
        if granted && reg.buildsWithKey(provider, ps[first].apiKey) {
          return Some(ps[first].id);
        }
      }
      choice := None;
    }

    method ChooseDefaultEntry(reg: Registry, provider: string, now: int) returns (choice: Option<string>)
      modifies tracker
      ensures (View(), choice) == ChooseDefault(old(View()), reg, provider, now)
    {
      var cooled := tracker.IsInCooldown(provider, now);
      if cooled {
        var granted := tracker.TryProbe(provider, now);
        if !granted {
          return None;
        }
      }
      choice := if reg.buildsDefault(provider) then Some("") else None;
    }

    /** try_resolve_model. */
    method TryResolveModel(reg: Registry, model: string, session: string, now: int) returns (r: Option<Resolved>)
      modifies this, tracker
      ensures (View(), r) == TryResolve(old(View()), reg, model, session, now) && fallbackChain == old(fallbackChain)
    {
      var ref := reg.resolve(model);
      var p := ref.provider;
      if session != "" && session in pins && pins[session].provider == p {
        var ok := FollowPin(reg, p, pins[session].profile, now);
        if ok {
          return Some(Resolved(p, pins[session].profile, ref.model, false));
        }
        pins := pins - {session};
      }
      var choice;
      if p in profiles && profiles[p] != [] {
        choice := ChooseProfile(reg, p, profiles[p], now);
      } else {
        choice := ChooseDefaultEntry(reg, p, now);
      }
      r := if choice.Some? then Some(Resolved(p, choice.value, ref.model, false)) else None;
    }

    /** Resolve: the primary model, then the fallback chain. */
    method Resolve(reg: Registry, model: string, session: string, now: int) returns (r: Option<Resolved>)
      modifies this, tracker
      ensures (View(), r) == ResolveFrom(old(View()), reg, model, fallbackChain, session, now) && fallbackChain == old(fallbackChain)
    {
      ghost var st := View();
      r := TryResolveModel(reg, model, session, now);
      if r.Some? {
        return;
      }
      var chain := fallbackChain;
      ghost var after := View();
      for i := 0 to |chain|
        invariant r == None && fallbackChain == chain
        invariant WalkChain(View(), reg, model, chain[i..], session, now) == WalkChain(after, reg, model, chain, session, now)
      {
        assert chain[i..][0] == chain[i] && chain[i..][1..] == chain[i + 1..];
        if chain[i] != model {
          r := TryResolveModel(reg, chain[i], session, now);
          if r.Some? {
            return Some(r.value.(isFallback := true));
          }
        }
      }
    }

    method RecordSuccess(provider: string, profile: string, session: string, now: int)
      modifies this, tracker
      ensures View() == Succeeded(old(View()), provider, profile, session, now) && fallbackChain == old(fallbackChain)
    {
      var key := CooldownKey(provider, profile);
      tracker.RecordSuccess(key);
      lastUsed := lastUsed[key := now];
      if session != "" {
        pins := pins[session := Pin(provider, profile)];
      }
    }

    method RecordFailure(provider: string, profile: string, kind: ErrorKind, retryAfter: int, now: int)
      modifies tracker
      ensures View() == old(View()).(cooling := Fail(old(tracker.states), CooldownKey(provider, profile), kind, retryAfter, now))
    {
      tracker.RecordFailure(CooldownKey(provider, profile), kind, retryAfter, now);
    }

    method ClearSessionPin(session: string)
      modifies this
      ensures View() == old(View()).(pins := old(pins) - {session}) && fallbackChain == old(fallbackChain)
    {
      pins := pins - {session};
    }

    method SetProfiles(provider: string, ps: seq<Profile>)
      modifies this
      ensures View() == old(View()).(profiles := old(profiles)[provider := ps]) && fallbackChain == old(fallbackChain)
    {
      profiles := profiles[provider := ps];
    }
  }

  ghost function WalkChain(st: State, reg: Registry, model: string, chain: seq<string>, session: string, now: int): (State, Option<Resolved>)
    decreases |chain|
  {
    if chain == [] then (st, None)
    else if chain[0] == model then WalkChain(st, reg, model, chain[1..], session, now)
    else
      var (st', r) := TryResolve(st, reg, chain[0], session, now);
      if r.Some? then (st', Some(r.value.(isFallback := true))) else WalkChain(st', reg, model, chain[1..], session, now)
  }

  ghost function ResolveFrom(st: State, reg: Registry, model: string, chain: seq<string>, session: string, now: int): (State, Option<Resolved>) {
    var (st', r) := TryResolve(st, reg, model, session, now);
    if r.Some? then (st', r) else WalkChain(st', reg, model, chain, session, now)
  }

  function Succeeded(st: State, provider: string, profile: string, session: string, now: int): State {
    var key := CooldownKey(provider, profile);
    st.(cooling := st.cooling - {key}, lastUsed := st.lastUsed[key := now],
        pins := if session != "" then st.pins[session := Pin(provider, profile)] else st.pins)
  }

  /** A success ends the profile's cooldown, makes it the last one used, and pins a named session to it; nothing else changes. */
  lemma SuccessMarks(st: State, provider: string, profile: Profile, session: string, now: int, other: string, profile': Profile, session': string, at: int)
    ensures var after := Succeeded(st, provider, profile.id, session, now);
            && !IsCooled(after, provider, profile, at) && LastUsed(after, provider, profile) == now && after.profiles == st.profiles
            && (session != "" ==> session in after.pins && after.pins[session] == Pin(provider, profile.id))
            && (session' != session || session == "" ==> (session' in after.pins <==> session' in st.pins) &&
                                                         (session' in st.pins ==> after.pins[session'] == st.pins[session']))
            && (CooldownKey(other, profile'.id) != CooldownKey(provider, profile.id) ==>
                  LastUsed(after, other, profile') == LastUsed(st, other, profile') &&
                  (IsCooled(after, other, profile', at) <==> IsCooled(st, other, profile', at)))
  {
  }
}
