/** Getting settled in the middle of a run: fault-free requests bring a Contour closer, and
    nothing else that happens takes it back. */
module Progress {
  import opened Api
  import opened Children
  import opened Protocol
  import opened Cluster
  import opened Contours
  import opened Equality
  import opened StatusSync
  import opened Ensure
  import opened Rbac
  import opened Deletion
  import opened Controller
  import opened Convergence
  import opened Isolation
  import opened Safety

  /** How far a Contour has come: finalized; nothing left but what one pass settles; settled. */
  ghost predicate AtStage(cfg: Config, s: State, c: Contour, k: nat) {
    && WellKinded(s) && EnvoySettles(cfg, s, c)
    && (k >= 1 ==> Holds(s, c.name, c.spec.ns))
    && (k >= 2 ==> forall i :: 0 <= i < CHILDREN ==> RankOf(cfg, s, c, i) <= 1)
    && (k >= 3 ==> forall i :: 0 <= i < CHILDREN ==> RankOf(cfg, s, c, i) == 0)
  }

  function Raised(k: nat): nat {
    if k < 3 then k + 1 else 3
  }

  /** The last stage is distance zero. */
  lemma LastStageIsSettled(cfg: Config, s: State, c: Contour)
    requires AtStage(cfg, s, c, 3)
    ensures AllSettled(cfg, s, c, 0, CHILDREN) && Distance(cfg, s, c) == 0
  {
    hide RankOf, EnvoySettles;
    SettledIsRankZero(cfg, s, c);
    ZeroSum(cfg, s, c, CHILDREN);
  }

  /** The Contour is there to stay, with this spec, and has its spec namespace to itself. */
  ghost predicate Steady(s: State, c: Contour) {
    && c.name in s.contours && !Shares(s, c)
    && var stored := s.contours[c.name];
       stored.name == c.name && stored.spec == c.spec && !stored.deleting
  }

  ghost predicate SteadySince(log: seq<Record>, from: nat, c: Contour) {
    forall m :: from <= m < |log| ==> Steady(log[m].state, c)
  }

  // ---- What does not take it back ------------------------------------------------------------------

  lemma EnvoySettlesStays(cfg: Config, s: State, t: State, c: Contour)
    requires WellKinded(s) && WellKinded(t) && EnvoySettles(cfg, s, c) && PossibleAt(cfg, s, t, c, ENVOY_SERVICE)
    ensures EnvoySettles(cfg, t, c)
  {
    hide KeyAt, Rank, Next, Settles;
    HereFits(cfg, s, c, ENVOY_SERVICE);
    EnvoyRank(cfg, s, c);
    if Reached(cfg, s, t, c, ENVOY_SERVICE) {
      PassLowersRank(cfg, s, t, c, ENVOY_SERVICE);
      EnvoyRank(cfg, t, c);
    }
  }

  lemma SameChildrenSameStage(cfg: Config, s: State, t: State, c: Contour, k: nat)
    requires AtStage(cfg, s, c, k) && WellKinded(t)
    requires forall i :: 0 <= i < CHILDREN ==> Here(cfg, t, c, i) == Here(cfg, s, c, i)
    requires Holds(s, c.name, c.spec.ns) ==> Holds(t, c.name, c.spec.ns)
    ensures AtStage(cfg, t, c, k)
  {
    hide KeyAt, Rank, Settles, Holds;
    assert Here(cfg, t, c, ENVOY_SERVICE) == Here(cfg, s, c, ENVOY_SERVICE);
    forall i | 0 <= i < CHILDREN ensures RankOf(cfg, t, c, i) == RankOf(cfg, s, c, i) {
      assert Here(cfg, t, c, i) == Here(cfg, s, c, i);
    }
  }

  /** A request for the Contour itself, whichever of its calls fail. */
  lemma OwnRequestKeeps(cfg: Config, s: State, t: State, c: Contour, k: nat)
    requires Inv(cfg, s) && Inv(cfg, t) && Steady(s, c) && Effect(cfg, s, t, c.name) && Evolves(s, t)
    requires AtStage(cfg, s, c, k)
    ensures AtStage(cfg, t, c, k)
  {
    hide KeyAt, RankOf, Possible, SpecAccepted, EnvoySettles, NoOrphans, OneOwner, Shares, Reached;
    var stored := s.contours[c.name];
    if !stored.IsFinalized() || !SpecAccepted(stored.spec) {
      NothingAttempted(cfg, s, t, stored);
    }
    SameWants(cfg, s, t, stored, c, ENVOY_SERVICE);
    SameWants(cfg, t, t, stored, c, ENVOY_SERVICE);
    assert PossibleAt(cfg, s, t, stored, ENVOY_SERVICE);
    EnvoySettlesStays(cfg, s, t, stored);
    forall i | 0 <= i < CHILDREN ensures RankOf(cfg, t, c, i) <= RankOf(cfg, s, c, i) {
      AttemptsLowerRanks(cfg, s, t, stored, i);
      SameWants(cfg, s, t, stored, c, i);
      SameWants(cfg, t, t, stored, c, i);
    }
  }

  /** A request for another Contour. */
  lemma OtherRequestKeeps(cfg: Config, s: State, t: State, c: Contour, m: Name, k: nat)
    requires Inv(cfg, s) && Inv(cfg, t) && Steady(s, c) && Effect(cfg, s, t, m) && m != c.name
    requires Holds(s, c.name, c.spec.ns) ==> Holds(t, c.name, c.spec.ns)
    requires AtStage(cfg, s, c, k)
    ensures AtStage(cfg, t, c, k)
  {
    hide KeyAt, AtStage, SpecAccepted, NoOrphans, OneOwner, PossibleAt, Pruned, Holds;
    forall i: nat | i < CHILDREN ensures Here(cfg, t, c, i) == Here(cfg, s, c, i) {
      if m in s.contours {
        var d := s.contours[m];
        assert d.spec.ns != c.spec.ns;
        AwayFrom(cfg, d.spec.ns, c.spec.ns, i);
      }
    }
    SameChildrenSameStage(cfg, s, t, c, k);
  }

  lemma AwayFrom(cfg: Config, ns: string, ns': string, i: nat)
    requires ns != ns' && i < CHILDREN
    ensures Outside(cfg, ns, 0, CHILDREN, KeyAt(cfg, ns', i))
  {
    hide KeyAt;
    forall j | 0 <= j < CHILDREN ensures KeyAt(cfg, ns', i) != KeyAt(cfg, ns, j) {
      KeysDisjoint(cfg, ns, ns', j, i);
    }
  }

  /** While a request for another Contour is handled, the finalizer stays. */
  lemma {:induction false} HoldsMeanwhile(cli: Cluster, a: nat, b: nat, n: Name, ns: string)
    requires cli.Valid() && cli.visits != [] && cli.visits[|cli.visits| - 1].name != n
    requires cli.visits[|cli.visits| - 1].from <= a + 1 && a <= b < |cli.log| && Holds(cli.log[a].state, n, ns)
    ensures Holds(cli.log[b].state, n, ns)
    decreases b - a
  {
    hide Legal, Inv, Attributed, Holds, NoWorkloadOf;
    if a < b {
      HoldsMeanwhile(cli, a, b - 1, n, ns);
      if !Holds(cli.log[b].state, n, ns) {
        ReleaseIsClean(cli, b, n, ns);
        RequestActsForOne(cli, b);
        assert false;
      }
    }
  }

  /** A change by others to something that is no child of the Contour. */
  lemma MeddlingKeeps(cfg: Config, s: State, t: State, c: Contour, key: Key, k: nat)
    requires Inv(cfg, t) && t.contours == s.contours && OnlyAtKey(s.objects, t.objects, key)
    requires Outside(cfg, c.spec.ns, 0, CHILDREN, key) && AtStage(cfg, s, c, k)
    ensures AtStage(cfg, t, c, k)
  {
    hide KeyAt, AtStage, NoOrphans, OneOwner;
    SameChildrenSameStage(cfg, s, t, c, k);
  }

  // ---- What brings it closer -------------------------------------------------------------------------

  /** A fault-free request: the finalizer, then all ranks at most one, then zero. */
  lemma GoodRequestAdvances(cfg: Config, s: State, t: State, c: Contour, k: nat, result: Result, untouched: bool)
    requires Inv(cfg, s) && Inv(cfg, t) && Steady(s, c) && Effect(cfg, s, t, c.name) && Evolves(s, t)
    requires FaultlessEffect(cfg, s, t, s.contours[c.name], result, untouched)
    requires untouched || Holds(s, c.name, c.spec.ns)
    requires AtStage(cfg, s, c, k)
    ensures AtStage(cfg, t, c, Raised(k))
  {
    hide KeyAt, RankOf, SpecAccepted, EnvoySettles, NoOrphans, OneOwner, Shares, Reached, ComparisonCrashes, Effect;
    var stored := s.contours[c.name];
    OwnRequestKeeps(cfg, s, t, c, k);
    if stored.IsFinalized() {
      forall i | 0 <= i < CHILDREN
        ensures RankOf(cfg, t, c, i) <= 1
        ensures RankOf(cfg, s, c, i) <= 1 ==> RankOf(cfg, t, c, i) == 0
      {
        assert Reached(cfg, s, t, stored, i);
        SameWants(cfg, s, t, stored, c, i);
        PassLowersRank(cfg, s, t, c, i);
      }
    }
  }

  // ---- No status write either ------------------------------------------------------------------------

  /** The status a sync leaves behind, given what its last attempt read. */
  ghost function StatusLeft(r: Reading): Status {
    if News(r) then Synced(r.latest.status, r.deployment, r.daemonSet, r.now) else r.latest.status
  }

  /** A sync that finds the status as an earlier one left it, and the same health, writes no
      status, whatever time it is and whoever did what in between. */
  lemma NextSyncIsQuiet(r: Reading, r': Reading)
    requires HasUniqueKinds(r.latest.status) && r'.latest.status == StatusLeft(r)
    requires r'.deployment == r.deployment && r'.daemonSet == r.daemonSet
    ensures !News(r') && NewsCount([r']) == 0
  {
    hide Synced, ContourStatusChanged;
    var status := r.latest.status;
    SyncSettles(status, r.deployment, r.daemonSet, r.now, r'.now);
    ChangedAtAnyTime(status, r.deployment, r.daemonSet, r.now, r'.now);
    OnlyReading(r');
  }
}
