/** How far a Contour's objects are from settled, and how many passes it takes. */
module Convergence {
  import opened Wrappers
  import opened Api
  import opened Builders
  import opened Validation
  import opened Equality
  import opened Children
  import opened Ranks
  import opened Protocol
  import opened Cluster
  import opened Contours
  import opened Conditions
  import opened StatusSync
  import opened Ensure
  import opened Rbac
  import opened EnsurePass
  import opened Controller

  function RankOf(cfg: Config, s: State, contour: Contour, i: nat): nat
    requires i < CHILDREN && WellKinded(s)
  {
    HereFits(cfg, s, contour, i);
    Rank(cfg, contour, i, Here(cfg, s, contour, i))
  }

  /** The ranks of the children before hi, added up. */
  ghost function Sum(cfg: Config, s: State, contour: Contour, hi: nat): nat
    requires hi <= CHILDREN && WellKinded(s)
  {
    if hi == 0 then 0 else Sum(cfg, s, contour, hi - 1) + RankOf(cfg, s, contour, hi - 1)
  }

  /** The distance from settled: that of every child, and one for a missing finalizer. */
  ghost function Distance(cfg: Config, s: State, contour: Contour): nat
    requires WellKinded(s)
  {
    Sum(cfg, s, contour, CHILDREN) + if Holds(s, contour.name, contour.spec.ns) then 0 else 1
  }

  // ---- No fault takes it further away ------------------------------------------------------------

  lemma {:induction false} AttemptsLowerRanks(cfg: Config, s: State, t: State, contour: Contour, i: nat)
    requires Attempts(cfg, s, t, contour, 0, CHILDREN) && i < CHILDREN
    ensures RankOf(cfg, t, contour, i) <= RankOf(cfg, s, contour, i)
  {
    hide KeyAt, Rank, Possible, WellKinded, Here;
    assert PossibleAt(cfg, s, t, contour, i);
    HereFits(cfg, s, contour, i);
    HereFits(cfg, t, contour, i);
    PossibleIsNoWorse(cfg, contour, i, Here(cfg, s, contour, i), Here(cfg, t, contour, i));
  }

  /** Whatever calls fail in a pass, the distance does not grow. */
  lemma {:induction false} AttemptsLowerSum(cfg: Config, s: State, t: State, contour: Contour, hi: nat)
    requires Attempts(cfg, s, t, contour, 0, CHILDREN) && hi <= CHILDREN
    ensures Sum(cfg, t, contour, hi) <= Sum(cfg, s, contour, hi)
  {
    hide KeyAt, RankOf, WellKinded, Attempts;
    AttemptsWellKinded(cfg, s, t, contour, 0, CHILDREN);
    if hi > 0 {
      AttemptsLowerSum(cfg, s, t, contour, hi - 1);
      AttemptsLowerRanks(cfg, s, t, contour, hi - 1);
    }
  }

  // ---- How many undisturbed passes it takes ------------------------------------------------------

  /** A caller can tell from the spec and the stored Envoy Service whether passes settle it:
      for node port publishing, every desired port has its number and the stored Service no
      more ports than desired, or there is nothing to do anyway. */
  ghost predicate EnvoySettles(cfg: Config, s: State, contour: Contour)
    requires WellKinded(s)
  {
    HereFits(cfg, s, contour, ENVOY_SERVICE);
    Settles(cfg, contour, ENVOY_SERVICE, Here(cfg, s, contour, ENVOY_SERVICE))
  }

  lemma PassLowersRank(cfg: Config, s: State, t: State, contour: Contour, i: nat)
    requires WellKinded(s) && WellKinded(t) && Reached(cfg, s, t, contour, i)
    ensures RankOf(cfg, t, contour, i) <= 1
    ensures RankOf(cfg, s, contour, i) <= 1 && (i == ENVOY_SERVICE ==> EnvoySettles(cfg, s, contour)) ==>
      RankOf(cfg, t, contour, i) == 0
  {
    hide KeyAt, Rank, Next, Here;
    HereFits(cfg, s, contour, i);
    NextIsCloser(cfg, contour, i, Here(cfg, s, contour, i));
  }

  lemma EnvoyRank(cfg: Config, s: State, contour: Contour)
    requires WellKinded(s)
    ensures RankOf(cfg, s, contour, ENVOY_SERVICE) <= 1
    ensures RankOf(cfg, s, contour, ENVOY_SERVICE) == 0 ==> EnvoySettles(cfg, s, contour)
  {
    HereFits(cfg, s, contour, ENVOY_SERVICE);
    NoSelector(cfg, contour, ENVOY_SERVICE);
  }

  /** An Envoy Service that does not settle in one pass never does. */
  lemma EnvoyNeverSettles(cfg: Config, s: State, t: State, contour: Contour)
    requires WellKinded(s) && WellKinded(t) && Reached(cfg, s, t, contour, ENVOY_SERVICE)
    requires !EnvoySettles(cfg, s, contour)
    ensures !EnvoySettles(cfg, t, contour)
  {
    hide KeyAt, EnvoyPorts;
    HereFits(cfg, s, contour, ENVOY_SERVICE);
    HereFits(cfg, t, contour, ENVOY_SERVICE);
    NextIsCloser(cfg, contour, ENVOY_SERVICE, Here(cfg, s, contour, ENVOY_SERVICE));
    EnvoyDesired(cfg, contour);
    if Here(cfg, s, contour, ENVOY_SERVICE).Some? {
      DriftPanicsIff(Here(cfg, s, contour, ENVOY_SERVICE).value, Desired(cfg, contour, ENVOY_SERVICE), contour.spec.publishing);
    }
  }

  /** The ordinary way to get there: node port publishing without node ports. The server picks
      them, and every later pass wants them unset again. */
  lemma UnnumberedNodePortsNeverSettle(cfg: Config, s: State, contour: Contour)
    requires WellKinded(s) && contour.spec.publishing.NodePortService? && contour.spec.nodePorts.None?
    requires ValidContainerPorts(contour.spec.containerPorts) && Here(cfg, s, contour, ENVOY_SERVICE).None?
    ensures !EnvoySettles(cfg, s, contour)
  {
    NodePortsLandByName(contour, 0, 0);
    assert EnvoyPorts(contour.spec)[0].nodePort.Unset?;
  }

  lemma SettledIsRankZero(cfg: Config, s: State, contour: Contour)
    requires WellKinded(s)
    ensures AllSettled(cfg, s, contour, 0, CHILDREN) <==> forall i :: 0 <= i < CHILDREN ==> RankOf(cfg, s, contour, i) == 0
  {
    hide KeyAt, Rank, Here;
    forall i: nat | i < CHILDREN ensures Settled(cfg, s, contour, i) <==> RankOf(cfg, s, contour, i) == 0 {}
  }

  lemma {:induction false} ZeroSum(cfg: Config, s: State, contour: Contour, hi: nat)
    requires hi <= CHILDREN && WellKinded(s)
    ensures Sum(cfg, s, contour, hi) == 0 <==> forall i :: 0 <= i < hi ==> RankOf(cfg, s, contour, i) == 0
  {
    hide RankOf;
    if hi > 0 {
      ZeroSum(cfg, s, contour, hi - 1);
    }
  }

  /** Two passes settle everything, whatever was there, exactly when the Envoy Service is one
      that settles: the first recreates a Deployment or DaemonSet with the wrong selector only
      as far as deleting it. */
  lemma TwoPassesSettleIff(cfg: Config, s: State, t: State, u: State, contour: Contour)
    requires WellKinded(s) && WellKinded(t) && WellKinded(u)
    requires AllReached(cfg, s, t, contour, 0, CHILDREN) && AllReached(cfg, t, u, contour, 0, CHILDREN)
    ensures AllSettled(cfg, u, contour, 0, CHILDREN) <==> EnvoySettles(cfg, s, contour)
    ensures Sum(cfg, u, contour, CHILDREN) == 0 <==> EnvoySettles(cfg, s, contour)
  {
    hide KeyAt, RankOf, Reached, EnvoySettles, WellKinded, Settled;
    SettledIsRankZero(cfg, u, contour);
    ZeroSum(cfg, u, contour, CHILDREN);
    assert Reached(cfg, s, t, contour, ENVOY_SERVICE) && Reached(cfg, t, u, contour, ENVOY_SERVICE);
    EnvoyRank(cfg, s, contour);
    EnvoyRank(cfg, t, contour);
    EnvoyRank(cfg, u, contour);
    if EnvoySettles(cfg, s, contour) {
      forall i | 0 <= i < CHILDREN ensures RankOf(cfg, u, contour, i) == 0 {
        assert Reached(cfg, s, t, contour, i) && Reached(cfg, t, u, contour, i);
        PassLowersRank(cfg, s, t, contour, i);
        PassLowersRank(cfg, t, u, contour, i);
      }
    } else {
      EnvoyNeverSettles(cfg, s, t, contour);
      EnvoyNeverSettles(cfg, t, u, contour);
    }
  }

  /** Settled means: owned children are as desired in all that the operator manages. */
  lemma SettledMeansAgreeing(cfg: Config, s: State, contour: Contour, i: nat)
    requires WellKinded(s) && AllSettled(cfg, s, contour, 0, CHILDREN) && i < CHILDREN
    ensures var here, desired := Here(cfg, s, contour, i), Desired(cfg, contour, i);
      && here.Some?
      && (Owns(contour.name, here.value) ==>
            && here.value.Kind() == desired.Kind() && ManagedAgree(here.value, desired, Publishing(contour, i))
            && (here.value.Selector().Some? ==> !SelectorsDiffer(here.value, desired)))
  {
    hide KeyAt, Drift;
    assert Settled(cfg, s, contour, i);
    HereFits(cfg, s, contour, i);
    var here := Here(cfg, s, contour, i);
    if here.Some? && Owns(contour.name, here.value) {
      DriftIffManagedDiffer(here.value, Desired(cfg, contour, i), Publishing(contour, i));
    }
  }

  /** A pass over settled children changes nothing. */
  lemma SettledStays(cfg: Config, s: State, t: State, contour: Contour)
    requires AllSettled(cfg, s, contour, 0, CHILDREN) && Attempts(cfg, s, t, contour, 0, CHILDREN)
    ensures t.objects == s.objects
  {
    hide KeyAt, Rank, Next;
    forall k ensures At(t.objects, k) == At(s.objects, k) {
      if !Outside(cfg, contour.spec.ns, 0, CHILDREN, k) {
        var i :| 0 <= i < CHILDREN && k == KeyAt(cfg, contour.spec.ns, i);
        assert Settled(cfg, s, contour, i) && PossibleAt(cfg, s, t, contour, i);
        SettledChildStays(cfg, s, t, contour, i);
      }
    }
    SameEverywhere(s.objects, t.objects);
  }

  lemma SettledChildStays(cfg: Config, s: State, t: State, contour: Contour, i: nat)
    requires i < CHILDREN && Settled(cfg, s, contour, i) && PossibleAt(cfg, s, t, contour, i)
    ensures Here(cfg, t, contour, i) == Here(cfg, s, contour, i)
  {
    hide KeyAt, Desired, Drift;
    HereFits(cfg, s, contour, i);
    NextIsCloser(cfg, contour, i, Here(cfg, s, contour, i));
  }

  lemma SameEverywhere<K, V>(a: map<K, V>, b: map<K, V>)
    requires forall k :: At(a, k) == At(b, k)
    ensures a == b
  {
    assert forall k :: k in a <==> At(a, k).Some?;
    assert forall k :: k in b <==> At(b, k).Some?;
    assert forall k :: k in a && k in b ==> At(a, k) == Some(a[k]) && At(b, k) == Some(b[k]);
  }

  // ---- Whole requests ------------------------------------------------------------------------------

  /** A request for this Contour, left alone, gets through: the spec is valid, the namespace is
      not shared, and the Envoy Service settles. */
  ghost predicate Serviceable(cfg: Config, s: State, n: Name) {
    && Inv(cfg, s) && n in s.contours
    && var c := s.contours[n];
       !c.deleting && SpecAccepted(c.spec) && !Shares(s, c) && EnvoySettles(cfg, s, c)
  }

  /** Only name and spec decide what is wanted. */
  lemma SameWants(cfg: Config, s: State, t: State, c: Contour, c': Contour, i: nat)
    requires c.name == c'.name && c.spec == c'.spec && i < CHILDREN && WellKinded(s)
    ensures RankOf(cfg, s, c, i) == RankOf(cfg, s, c', i)
    ensures Reached(cfg, s, t, c, i) <==> Reached(cfg, s, t, c', i)
    ensures EnvoySettles(cfg, s, c) <==> EnvoySettles(cfg, s, c')
  {
    hide KeyAt, EnvoyPorts, Drift;
    assert forall j: nat :: j < CHILDREN ==> Desired(cfg, c, j) == Desired(cfg, c', j);
  }

  /** What an undisturbed request for such a Contour does to the Contours. */
  lemma CalmContour(s: State, t: State, n: Name, c: Contour, updated: Contour)
    requires At(s.contours, n) == Some(c) && c.name == n && !c.deleting && !Shares(s, c)
    requires updated.name == n && updated.spec == c.spec && !updated.deleting && t.contours == s.contours[n := updated]
    ensures !Shares(t, updated)
  {
  }

  lemma CalmRequest(cfg: Config, s: State, t: State, n: Name, result: Result, writes: int, last: Option<Reading>)
    requires Serviceable(cfg, s, n) && Inv(cfg, t) && CalmEffect(cfg, s, t, n, result, writes, last)
    ensures Serviceable(cfg, t, n) && t.contours[n].IsFinalized() && t.health == s.health
    ensures t.contours[n].name == n && s.contours[n].name == n && t.contours[n].spec == s.contours[n].spec
    ensures s.contours[n].IsFinalized() ==>
      AllReached(cfg, s, t, s.contours[n], 0, CHILDREN) && result != Crash && CalmStatus(cfg, s, t, n, writes, last)
    ensures !s.contours[n].IsFinalized() ==> t.objects == s.objects && result == Finished
  {
    hide NoOrphans, OneOwner, SpecAccepted, SpecCrashes, Reached, KeyAt, RankOf, EnvoySettles, Synced,
      ContourStatusChanged, Here;
    var c := s.contours[n];
    if c.IsFinalized() {
      EnvoyDoesNotCrash(cfg, s, c);
      assert Reached(cfg, s, t, c, ENVOY_SERVICE);
      EnvoyRank(cfg, s, c);
      PassLowersRank(cfg, s, t, c, ENVOY_SERVICE);
      EnvoyRank(cfg, t, c);
    }
    var updated := t.contours[n];
    assert t.contours == s.contours[n := updated];
    CalmContour(s, t, n, c, updated);
    SameWants(cfg, t, t, c, updated, ENVOY_SERVICE);
    if !c.IsFinalized() {
      assert updated.finalizers[|c.finalizers|] == FINALIZER;
      EnvoyUnmoved(cfg, s, t, c);
    }
  }

  lemma EnvoyUnmoved(cfg: Config, s: State, t: State, contour: Contour)
    requires WellKinded(s) && WellKinded(t) && t.objects == s.objects && EnvoySettles(cfg, s, contour)
    ensures EnvoySettles(cfg, t, contour)
  {
  }

  lemma EnvoyDoesNotCrash(cfg: Config, s: State, contour: Contour)
    requires WellKinded(s) && EnvoySettles(cfg, s, contour)
    ensures !ComparisonCrashes(cfg, s, contour)
  {
    hide KeyAt, Drift, EnvoyPorts;
    HereFits(cfg, s, contour, ENVOY_SERVICE);
    CrashesIff(cfg, s, contour);
    NoSelector(cfg, contour, ENVOY_SERVICE);
  }

  /** Two requests for a finalized Contour. */
  lemma TwoRequestsSettle(cfg: Config, s: State, t: State, u: State, n: Name)
    requires Serviceable(cfg, s, n) && Serviceable(cfg, t, n) && Serviceable(cfg, u, n)
    requires s.contours[n].name == t.contours[n].name == u.contours[n].name
    requires s.contours[n].spec == t.contours[n].spec == u.contours[n].spec && u.contours[n].IsFinalized()
    requires AllReached(cfg, s, t, s.contours[n], 0, CHILDREN) && AllReached(cfg, t, u, t.contours[n], 0, CHILDREN)
    ensures AllSettled(cfg, u, u.contours[n], 0, CHILDREN) && Distance(cfg, u, u.contours[n]) == 0
  {
    hide KeyAt, RankOf, Reached, EnvoySettles, NoOrphans, OneOwner, WellKinded, Shares, Settled;
    var c, c', c'' := s.contours[n], t.contours[n], u.contours[n];
    forall i | 0 <= i < CHILDREN ensures Reached(cfg, t, u, c, i) {
      assert Reached(cfg, t, u, c', i);
      SameWants(cfg, t, u, c, c', i);
    }
    TwoPassesSettleIff(cfg, s, t, u, c);
    SettledIsRankZero(cfg, u, c);
    forall i | 0 <= i < CHILDREN ensures RankOf(cfg, u, c'', i) == 0 {
      SameWants(cfg, u, u, c, c'', i);
    }
    SettledIsRankZero(cfg, u, c'');
    ZeroSum(cfg, u, c'', CHILDREN);
  }

  /** After a pass that changed no object, the next one writes no status either, whatever
      time it is. */
  lemma NextStatusIsQuiet(cfg: Config, s: State, t: State, u: State, n: Name, writes: int, writes': int,
                          last: Option<Reading>, last': Option<Reading>)
    requires CalmStatus(cfg, s, t, n, writes, last) && CalmStatus(cfg, t, u, n, writes', last')
    requires t.objects == u.objects && t.health == u.health
    requires UniqueKinds(s.contours[n].status.conditions)
    ensures writes' == 0 && OnlyObjects(t, u)
  {
    hide KeyAt, Synced, ContourStatusChanged, UniqueKinds;
    var c, r, r' := s.contours[n], last.value, last'.value;
    assert r.deployment == r'.deployment && r.daemonSet == r'.daemonSet;
    SyncSettles(c.status, r.deployment, r.daemonSet, r.now, r'.now);
    SyncWritesIff(c.status, r.deployment, r.daemonSet, r.now);
    SyncWritesIff(c.status, r.deployment, r.daemonSet, r'.now);
  }

  ghost predicate UniqueStatus(s: State, n: Name) {
    n in s.contours && HasUniqueKinds(s.contours[n].status)
  }

  lemma RequestKeepsUnique(cfg: Config, s: State, t: State, n: Name, result: Result, writes: int, last: Option<Reading>)
    requires Serviceable(cfg, s, n) && Inv(cfg, t) && CalmEffect(cfg, s, t, n, result, writes, last) && UniqueStatus(s, n)
    ensures UniqueStatus(t, n)
  {
    hide NoOrphans, OneOwner, SpecAccepted, SpecCrashes, Reached, KeyAt, RankOf, EnvoySettles, ContourStatusChanged,
      Here, UniqueKinds, Merge1;
    var c := s.contours[n];
    CalmRequest(cfg, s, t, n, result, writes, last);
    if c.IsFinalized() {
      var r := last.value;
      MergeKeepsUnique(c.status.conditions, AvailableCondition(r.deployment, r.daemonSet, r.now));
    }
  }

  /** Left alone, the reconciler settles a Contour in three requests, and the fourth writes
      nothing at all: no object, no finalizer, no status. */
  method Converge(cli: Cluster, n: Name) returns (ghost settled: State, ghost writes: nat, ghost statusWrites: nat)
    requires cli.Valid() && cli.Calm() && Serviceable(cli.cfg, cli.state, n) && UniqueStatus(cli.state, n)
    modifies cli
    ensures cli.Valid() && n in settled.contours
    ensures AllSettled(cli.cfg, settled, settled.contours[n], 0, CHILDREN) && settled.contours[n].IsFinalized()
    ensures cli.state == settled && cli.writes == writes && cli.statusWrites == statusWrites
  {
    hide cli.Calm, cli.Valid, Inv, SpecAccepted, EnvoySettles, Shares, CalmEffect, UniqueStatus, AllReached,
      CalmStatus, AllSettled, Effect, Success, FaultlessEffect, SparedDuring, Evolves, SyncReadings, NewsCount,
      LastOf, Served, AloneSince, Faultless;
    ghost var s0 := cli.state;
    var r0, r1, r2, r3;
    ghost var l0, l1, l2, l3, w1, w2, w3, readings, written, course;
    Begun(cli);
    label L0:
    r0, l0, readings, written, course := Reconcile(cli, n);
    Begun(cli);
    ghost var s1 := cli.state;
    w1 := cli.statusWrites;
    RequestKeepsUnique(cli.cfg, s0, s1, n, r0, w1 - old@L0(cli.statusWrites), l0);
    CalmRequest(cli.cfg, s0, s1, n, r0, w1 - old@L0(cli.statusWrites), l0);
    r1, l1, readings, written, course := Reconcile(cli, n);
    Begun(cli);
    ghost var s2 := cli.state;
    w2 := cli.statusWrites;
    RequestKeepsUnique(cli.cfg, s1, s2, n, r1, w2 - w1, l1);
    CalmRequest(cli.cfg, s1, s2, n, r1, w2 - w1, l1);
    r2, l2, readings, written, course := Reconcile(cli, n);
    Begun(cli);
    ghost var s3 := cli.state;
    w3 := cli.statusWrites;
    CalmRequest(cli.cfg, s2, s3, n, r2, w3 - w2, l2);
    TwoRequestsSettle(cli.cfg, s1, s2, s3, n);
    settled, writes, statusWrites := s3, cli.writes, w3;
    label L3:
    r3, l3, readings, written, course := Reconcile(cli, n);
    Begun(cli);
    ghost var s4 := cli.state;
    CalmRequest(cli.cfg, s3, s4, n, r3, cli.statusWrites - w3, l3);
    LastPassIsQuiet(cli.cfg, s2, s3, s4, n, w3 - w2, cli.statusWrites - w3, l2, l3);
  }

  lemma LastPassIsQuiet(cfg: Config, s: State, t: State, u: State, n: Name, writes: int, writes': int,
                        last: Option<Reading>, last': Option<Reading>)
    requires CalmStatus(cfg, s, t, n, writes, last) && CalmStatus(cfg, t, u, n, writes', last')
    requires n in t.contours && AllSettled(cfg, t, t.contours[n], 0, CHILDREN)
    requires Effect(cfg, t, u, n) && Serviceable(cfg, t, n) && t.contours[n].IsFinalized()
    requires t.health == u.health && UniqueStatus(s, n)
    ensures u == t && writes' == 0
  {
    hide Inv, SpecAccepted, EnvoySettles, Shares, Attempts, AllSettled, CalmStatus;
    SettledStays(cfg, t, u, t.contours[n]);
    NextStatusIsQuiet(cfg, s, t, u, n, writes, writes', last, last');
  }
}
