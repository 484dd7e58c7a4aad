/**
  What a caller may rely on when resolving: which profile is chosen and when
  none is, and which call sequences keep a session on its profile.
 */
module FailoverTheorems {
  import opened Text
  import opened Errors
  import opened Cooldown
  import opened Failover

  // ---------- existence of candidates ----------

  ghost predicate BestBelow(st: State, reg: Registry, provider: string, ps: seq<Profile>, n: nat, i: nat, now: int)
    requires n <= |ps|
  {
    i < n && Usable(st, reg, provider, ps, i, now) &&
    forall j: nat :: j < n && j != i && Usable(st, reg, provider, ps, j, now) ==> Before(st, provider, ps, i, j)
  }

  lemma {:induction false} BestBelowExists(st: State, reg: Registry, provider: string, ps: seq<Profile>, n: nat, some: nat, now: int) returns (i: nat)
    requires n <= |ps| && some < n && Usable(st, reg, provider, ps, some, now)
    ensures BestBelow(st, reg, provider, ps, n, i, now)
    decreases n
  {
    if forall j: nat :: j < n - 1 ==> !Usable(st, reg, provider, ps, j, now) {
      i := some;
    } else {
      var j: nat :| j < n - 1 && Usable(st, reg, provider, ps, j, now);
      i := BestBelowExists(st, reg, provider, ps, n - 1, j, now);
      if Usable(st, reg, provider, ps, n - 1, now) && Before(st, provider, ps, n - 1, i) {
        forall k: nat | k < n - 1 && Usable(st, reg, provider, ps, k, now) ensures Before(st, provider, ps, n - 1, k) {
          if k != i { BeforeTrans(st, provider, ps, n - 1, i, k); }
        }
        i := n - 1;
      }
    }
  }

  /** A provider with a usable profile has a best one. */
  lemma BestExists(st: State, reg: Registry, provider: string, ps: seq<Profile>, some: nat, now: int) returns (i: nat)
    requires some < |ps| && Usable(st, reg, provider, ps, some, now)
    ensures IsBest(st, reg, provider, ps, i, now)
  {
    i := BestBelowExists(st, reg, provider, ps, |ps|, some, now);
  }

  // ---------- safety ----------

  predicate PinFollowed(st: State, reg: Registry, provider: string, session: string, now: int) {
    Pinned(st, session, provider) && Healthy(st, reg, provider, st.pins[session].profile, now)
  }

  /** Profile i is in cooldown, its probe is due, and a client can be built. */
  predicate Probeable(st: State, reg: Registry, provider: string, ps: seq<Profile>, i: nat, now: int)
    requires i < |ps|
  {
    MayProbe(st.cooling, CooldownKey(provider, ps[i].id), now) && reg.buildsWithKey(provider, ps[i].apiKey)
  }

  /** Index i is what the profiles of a provider give: the best usable one, else the first cooled one if its probe is due. */
  ghost predicate Right(st: State, reg: Registry, provider: string, ps: seq<Profile>, i: nat, now: int) {
    || IsBest(st, reg, provider, ps, i, now)
    || (NoneUsable(st, reg, provider, ps, now) && IsFirstCooled(st, provider, ps, i, now) && Probeable(st, reg, provider, ps, i, now))
  }

  /** Choose gives exactly the right profile, and stamps it (or its probe) with the time. */
  lemma ChooseRight(st: State, reg: Registry, provider: string, ps: seq<Profile>, now: int)
    ensures forall i: nat :: Right(st, reg, provider, ps, i, now) ==> Choose(st, reg, provider, ps, now).1 == Some(ps[i].id)
    ensures Choose(st, reg, provider, ps, now).1.Some? ==>
              exists i: nat :: Right(st, reg, provider, ps, i, now) && ps[i].id == Choose(st, reg, provider, ps, now).1.value
  {
    var (after, choice) := Choose(st, reg, provider, ps, now);
    forall i: nat | Right(st, reg, provider, ps, i, now) ensures choice == Some(ps[i].id) {
      if IsBest(st, reg, provider, ps, i, now) {
        forall j: nat | IsBest(st, reg, provider, ps, j, now) ensures j == i { BestIsUnique(st, reg, provider, ps, i, j, now); }
      } else {
        forall j: nat | IsFirstCooled(st, provider, ps, j, now) ensures j == i { FirstIsUnique(st, provider, ps, i, j, now); }
      }
    }
    if choice.Some? && !exists i: nat :: IsBest(st, reg, provider, ps, i, now) {
      forall j: nat | j < |ps| ensures !Usable(st, reg, provider, ps, j, now) {
        if Usable(st, reg, provider, ps, j, now) { var _ := BestExists(st, reg, provider, ps, j, now); }
      }
      var i: nat :| IsFirstCooled(st, provider, ps, i, now) && choice.value == ps[i].id && Probeable(st, reg, provider, ps, i, now);
      assert Right(st, reg, provider, ps, i, now);
    }
  }

  /** Nothing to be had from this provider now. */
  ghost predicate Exhausted(st: State, reg: Registry, provider: string, now: int) {
    var ps := ProfilesOf(st, provider);
    if ps == [] then !reg.buildsDefault(provider) || (Cooled(st.cooling, provider, now) && !MayProbe(st.cooling, provider, now))
    else NoneUsable(st, reg, provider, ps, now) &&
         forall i: nat :: IsFirstCooled(st, provider, ps, i, now) ==> !Probeable(st, reg, provider, ps, i, now)
  }

  /** A model is refused: its pin cannot be followed and its provider is exhausted. */
  ghost predicate Refused(st: State, reg: Registry, model: string, session: string, now: int) {
    var p := reg.resolve(model).provider;
    !PinFollowed(st, reg, p, session, now) && Exhausted(st, reg, p, now)
  }

  /** Completeness for one model: it is refused exactly when nothing can be had. */
  lemma RefusedExactly(st: State, reg: Registry, model: string, session: string, now: int)
    ensures TryResolve(st, reg, model, session, now).1 == None <==> Refused(st, reg, model, session, now)
  {
    var p := reg.resolve(model).provider;
    if !PinFollowed(st, reg, p, session, now) && ProfilesOf(st, p) != [] {
      RightUnpinned(st, reg, p, session, now);
      ChooseRight(Unpinned(st, session, p), reg, p, ProfilesOf(st, p), now);
      RightIffNotExhausted(st, reg, p, now);
    }
  }

  lemma RightUnpinned(st: State, reg: Registry, p: string, session: string, now: int)
    ensures forall i: nat :: Right(Unpinned(st, session, p), reg, p, ProfilesOf(st, p), i, now) <==> Right(st, reg, p, ProfilesOf(st, p), i, now)
  {
    SameChoices(st, Unpinned(st, session, p), reg, p, now);
  }

  /** The choice looks only at the profiles, their last use and the cooldowns. */
  lemma SameChoices(a: State, b: State, reg: Registry, p: string, now: int)
    requires a.profiles == b.profiles && a.lastUsed == b.lastUsed && a.cooling == b.cooling
    ensures forall i: nat :: Right(a, reg, p, ProfilesOf(a, p), i, now) <==> Right(b, reg, p, ProfilesOf(a, p), i, now)
  {
    var ps := ProfilesOf(a, p);
    assert forall i: nat :: i < |ps| ==> Usable(a, reg, p, ps, i, now) == Usable(b, reg, p, ps, i, now);
    assert forall i: nat, j: nat :: i < |ps| && j < |ps| ==> Before(a, p, ps, i, j) == Before(b, p, ps, i, j);
    assert forall i: nat :: IsFirstCooled(a, p, ps, i, now) == IsFirstCooled(b, p, ps, i, now);
    assert forall i: nat :: IsBest(a, reg, p, ps, i, now) == IsBest(b, reg, p, ps, i, now);
    assert forall i: nat :: i < |ps| ==> Probeable(a, reg, p, ps, i, now) == Probeable(b, reg, p, ps, i, now);
  }

  lemma RightIffNotExhausted(st: State, reg: Registry, p: string, now: int)
    requires ProfilesOf(st, p) != []
    ensures (exists i: nat :: Right(st, reg, p, ProfilesOf(st, p), i, now)) <==> !Exhausted(st, reg, p, now)
  {
    var ps := ProfilesOf(st, p);
    if !Exhausted(st, reg, p, now) {
      if j: nat :| j < |ps| && Usable(st, reg, p, ps, j, now) {
        var i := BestExists(st, reg, p, ps, j, now);
        assert Right(st, reg, p, ps, i, now);
      } else {
        var i: nat :| IsFirstCooled(st, p, ps, i, now) && Probeable(st, reg, p, ps, i, now);
        assert Right(st, reg, p, ps, i, now);
      }
    }
  }

  /**
    Safety for one model: the answer is the session's healthy pin; or the best
    usable profile; or, with no profile usable, the first cooled one, whose
    probe was due; or, with no profiles at all, the provider's default entry.
   */
  lemma ResolveSafety(st: State, reg: Registry, model: string, session: string, now: int)
    requires TryResolve(st, reg, model, session, now).1.Some?
    ensures var r := TryResolve(st, reg, model, session, now).1.value;
            var p := reg.resolve(model).provider;
            var ps := ProfilesOf(st, p);
            && r.provider == p && r.model == reg.resolve(model).model && !r.isFallback
            && (if PinFollowed(st, reg, p, session, now) then r.profile == st.pins[session].profile
                else if ps != [] then exists i: nat :: Right(st, reg, p, ps, i, now) && ps[i].id == r.profile
                else r.profile == "" && reg.buildsDefault(p) &&
                     (Cooled(st.cooling, p, now) ==> MayProbe(st.cooling, p, now)))
  {
    var p := reg.resolve(model).provider;
    if !PinFollowed(st, reg, p, session, now) && ProfilesOf(st, p) != [] {
      RightUnpinned(st, reg, p, session, now);
      ChooseRight(Unpinned(st, session, p), reg, p, ProfilesOf(st, p), now);
    }
  }

  ghost predicate DistinctIds(ps: seq<Profile>) { forall i, j :: 0 <= i < j < |ps| ==> ps[i].id != ps[j].id }
}
