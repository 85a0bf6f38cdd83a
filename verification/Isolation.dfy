/** Requests for different Contours do not get in each other's way. */
module Isolation {
  import opened Wrappers
  import opened Api
  import opened Equality
  import opened Children
  import opened Protocol
  import opened Cluster
  import opened Contours
  import opened Conditions
  import opened StatusSync
  import opened Ensure
  import opened Rbac
  import opened EnsurePass
  import opened Controller
  import opened Convergence

  // ---- The frame of one request ----------------------------------------------------------------

  /** The object at this key is as before, or it names the Contour wherever it is present. */
  ghost predicate OnlyIfOwned(s: State, t: State, n: Name, k: Key) {
    || At(t.objects, k) == At(s.objects, k)
    || ((k in s.objects ==> Owns(n, s.objects[k])) && (k in t.objects ==> Owns(n, t.objects[k])))
  }

  /** One request, whatever it meets, leaves every object without the Contour's two owner
      labels as it is, and everything it creates or changes carries them. */
  lemma RequestFrame(cfg: Config, s: State, t: State, n: Name, k: Key)
    requires Effect(cfg, s, t, n)
    ensures OnlyIfOwned(s, t, n, k)
  {
    hide KeyAt, PossibleAt, SpecAccepted;
    if n in s.contours {
      var c := s.contours[n];
      if !c.deleting && c.IsFinalized() && SpecAccepted(c.spec) {
        AttemptsWriteOwned(cfg, s, t, c, 0, CHILDREN, k);
      }
    }
  }

  /** Whatever calls fail, and whatever users do meanwhile, no request for a Contour that stays
      raises its distance from settled, and one for a Contour that goes never adds an object of
      its own. */
  lemma RequestNeverRegresses(cfg: Config, s: State, t: State, n: Name)
    requires Inv(cfg, s) && WellKinded(t) && Effect(cfg, s, t, n) && n in s.contours
    requires !s.contours[n].deleting ==> Evolves(s, t)
    ensures !s.contours[n].deleting ==> Distance(cfg, t, s.contours[n]) <= Distance(cfg, s, s.contours[n])
    ensures s.contours[n].deleting ==>
      forall k :: k in t.objects && Owns(n, t.objects[k]) ==> k in s.objects && Owns(n, s.objects[k])
  {
    hide KeyAt, PossibleAt, SpecAccepted, NoOrphans, OneOwner, RankOf, OwnerOf;
    var c := s.contours[n];
    if !c.deleting {
      if !c.IsFinalized() || !SpecAccepted(c.spec) {
        NothingAttempted(cfg, s, t, c);
      }
      AttemptsLowerSum(cfg, s, t, c, CHILDREN);
    } else {
      forall k | k in t.objects && Owns(n, t.objects[k]) ensures k in s.objects && Owns(n, s.objects[k]) {
        assert At(t.objects, k) == At(s.objects, k);
      }
    }
  }

  // ---- Two Contours ----------------------------------------------------------------------------------

  /** A pass for one leaves the children of the other alone. */
  lemma OtherChildrenStay(cfg: Config, s: State, t: State, c: Contour, d: Contour, i: nat)
    requires Attempts(cfg, s, t, c, 0, CHILDREN) && c.spec.ns != d.spec.ns && i < CHILDREN
    ensures Here(cfg, t, d, i) == Here(cfg, s, d, i)
  {
    hide KeyAt, PossibleAt;
    forall j | 0 <= j < CHILDREN ensures KeyAt(cfg, d.spec.ns, i) != KeyAt(cfg, c.spec.ns, j) {
      KeysDisjoint(cfg, c.spec.ns, d.spec.ns, j, i);
    }
    assert Outside(cfg, c.spec.ns, 0, CHILDREN, KeyAt(cfg, d.spec.ns, i));
  }

  /** Complete passes for two Contours with different spec namespaces leave the same objects in
      either order. */
  lemma PassesCommute(cfg: Config, s: State, sc: State, scd: State, sd: State, sdc: State, c: Contour, d: Contour)
    requires c.spec.ns != d.spec.ns
    requires Attempts(cfg, s, sc, c, 0, CHILDREN) && AllReached(cfg, s, sc, c, 0, CHILDREN)
    requires Attempts(cfg, sc, scd, d, 0, CHILDREN) && AllReached(cfg, sc, scd, d, 0, CHILDREN)
    requires Attempts(cfg, s, sd, d, 0, CHILDREN) && AllReached(cfg, s, sd, d, 0, CHILDREN)
    requires Attempts(cfg, sd, sdc, c, 0, CHILDREN) && AllReached(cfg, sd, sdc, c, 0, CHILDREN)
    ensures scd.objects == sdc.objects
  {
    hide KeyAt, Reached, Attempts, Outside;
    forall k ensures At(scd.objects, k) == At(sdc.objects, k) {
      if !Outside(cfg, c.spec.ns, 0, CHILDREN, k) {
        SomeChild(cfg, c.spec.ns, k);
        var i: nat :| i < CHILDREN && k == KeyAt(cfg, c.spec.ns, i);
        SameChild(cfg, s, sc, scd, sd, sdc, c, d, i);
      } else if !Outside(cfg, d.spec.ns, 0, CHILDREN, k) {
        SomeChild(cfg, d.spec.ns, k);
        var i: nat :| i < CHILDREN && k == KeyAt(cfg, d.spec.ns, i);
        SameChild(cfg, s, sd, sdc, sc, scd, d, c, i);
      } else {
        OutsideStays(cfg, s, sc, c, k);
        OutsideStays(cfg, sc, scd, d, k);
        OutsideStays(cfg, s, sd, d, k);
        OutsideStays(cfg, sd, sdc, c, k);
      }
    }
    SameEverywhere(scd.objects, sdc.objects);
  }

  lemma SomeChild(cfg: Config, ns: string, k: Key)
    requires !Outside(cfg, ns, 0, CHILDREN, k)
    ensures exists i: nat :: i < CHILDREN && k == KeyAt(cfg, ns, i)
  {
    hide KeyAt;
  }

  lemma OutsideStays(cfg: Config, s: State, t: State, c: Contour, k: Key)
    requires Attempts(cfg, s, t, c, 0, CHILDREN) && Outside(cfg, c.spec.ns, 0, CHILDREN, k)
    ensures At(t.objects, k) == At(s.objects, k)
  {
    hide KeyAt, PossibleAt;
  }

  /** A child of c ends the same whether d's pass comes after c's or before it. */
  lemma SameChild(cfg: Config, s: State, sc: State, scd: State, sd: State, sdc: State, c: Contour, d: Contour, i: nat)
    requires c.spec.ns != d.spec.ns && i < CHILDREN
    requires AllReached(cfg, s, sc, c, 0, CHILDREN) && Attempts(cfg, sc, scd, d, 0, CHILDREN)
    requires Attempts(cfg, s, sd, d, 0, CHILDREN) && AllReached(cfg, sd, sdc, c, 0, CHILDREN)
    ensures Here(cfg, scd, c, i) == Here(cfg, sdc, c, i)
  {
    hide KeyAt, Next, Attempts;
    OtherChildrenStay(cfg, sc, scd, d, c, i);
    OtherChildrenStay(cfg, s, sd, d, c, i);
    assert Reached(cfg, s, sc, c, i) && Reached(cfg, sd, sdc, c, i);
    HereFits(cfg, s, c, i);
    HereFits(cfg, sd, c, i);
  }

  // ---- Their statuses ------------------------------------------------------------------------------

  function Timeless(cond: Condition): Condition {
    cond.(transitionTime := 0)
  }

  function TimelessAll(conds: seq<Condition>): seq<Condition> {
    seq(|conds|, i requires 0 <= i < |conds| => Timeless(conds[i]))
  }

  function TimelessStatus(status: Status): Status {
    status.(conditions := TimelessAll(status.conditions))
  }

  /** The status a sync computes depends on its time only in transition times. */
  lemma SyncedButForTime(status: Status, deployment: Option<Health>, daemonSet: Option<Health>, now: int, later: int)
    ensures TimelessStatus(Synced(status, deployment, daemonSet, now)) == TimelessStatus(Synced(status, deployment, daemonSet, later))
  {
    SameButTime(deployment, daemonSet, now, later);
    MergeButForTime(status.conditions, AvailableCondition(deployment, daemonSet, now), later);
  }

  lemma MergeButForTime(conds: seq<Condition>, update: Condition, later: int)
    ensures TimelessAll(Merge1(conds, update)) == TimelessAll(Merge1(conds, update.(transitionTime := later)))
  {
    var update' := update.(transitionTime := later);
    PatchButForTime(conds, update, later);
    assert AnyMatch(conds, update) <==> AnyMatch(conds, update') by {
      assert forall i :: 0 <= i < |conds| ==> (Matches(conds[i], update) <==> Matches(conds[i], update'));
    }
    TimelessJoin(PatchFirst(conds, update), if AnyMatch(conds, update) then [] else [update]);
    TimelessJoin(PatchFirst(conds, update'), if AnyMatch(conds, update) then [] else [update']);
  }

  lemma TimelessJoin(a: seq<Condition>, b: seq<Condition>)
    ensures TimelessAll(a + b) == TimelessAll(a) + TimelessAll(b)
  {
  }

  lemma {:induction false} PatchButForTime(conds: seq<Condition>, update: Condition, later: int)
    ensures TimelessAll(PatchFirst(conds, update)) == TimelessAll(PatchFirst(conds, update.(transitionTime := later)))
  {
    var update' := update.(transitionTime := later);
    if conds != [] {
      if Stale(conds[0], update) {
        TimelessJoin([Patched(conds[0], update)], conds[1..]);
        TimelessJoin([Patched(conds[0], update')], conds[1..]);
      } else {
        PatchButForTime(conds[1..], update, later);
        TimelessJoin([conds[0]], PatchFirst(conds[1..], update));
        TimelessJoin([conds[0]], PatchFirst(conds[1..], update'));
      }
    }
  }

  /** Whether a sync finds something to write does not depend on its time. */
  lemma ChangedAtAnyTime(status: Status, deployment: Option<Health>, daemonSet: Option<Health>, now: int, later: int)
    ensures ContourStatusChanged(status, Synced(status, deployment, daemonSet, now)) <==>
      ContourStatusChanged(status, Synced(status, deployment, daemonSet, later))
  {
    var conds := status.conditions;
    var update, update' := AvailableCondition(deployment, daemonSet, now), AvailableCondition(deployment, daemonSet, later);
    SameButTime(deployment, daemonSet, now, later);
    MergeChanges(conds, update);
    MergeChanges(conds, update');
    assert forall i :: 0 <= i < |conds| ==>
      (Stale(conds[i], update) <==> Stale(conds[i], update')) && (Matches(conds[i], update) <==> Matches(conds[i], update'));
  }

  /** A merge changes a list exactly if some entry is stale or none is of the update's type. */
  lemma MergeChanges(conds: seq<Condition>, update: Condition)
    ensures Merge1(conds, update) == conds <==>
      && (forall i :: 0 <= i < |conds| ==> !Stale(conds[i], update))
      && exists i :: 0 <= i < |conds| && Matches(conds[i], update)
  {
    PatchFirstChanges(conds, update);
    if !AnyMatch(conds, update) {
      assert |Merge1(conds, update)| == |conds| + 1;
    }
  }

  lemma {:induction false} PatchFirstChanges(conds: seq<Condition>, update: Condition)
    ensures PatchFirst(conds, update) == conds <==> forall i :: 0 <= i < |conds| ==> !Stale(conds[i], update)
  {
    if conds != [] {
      var rest := conds[1..];
      PatchFirstChanges(rest, update);
      if Stale(conds[0], update) {
        assert PatchFirst(conds, update)[0] != conds[0];
      } else {
        assert conds == [conds[0]] + rest;
        assert PatchFirst(conds, update)[1..] == PatchFirst(rest, update);
        assert forall i :: 0 <= i < |rest| ==> rest[i] == conds[i + 1];
        assert forall i :: 1 <= i < |conds| ==> conds[i] == rest[i - 1];
      }
    }
  }

  /** A Contour up to transition times and version. */
  function Plain(contour: Contour): Contour {
    contour.(status := TimelessStatus(contour.status), version := 0)
  }

  /** Two syncs of one Contour that find the same health leave it the same. */
  lemma SameReadingsSameStatus(cfg: Config, s: State, t: State, s': State, t': State, n: Name, writes: int, writes': int,
                               last: Option<Reading>, last': Option<Reading>)
    requires CalmStatus(cfg, s, t, n, writes, last) && CalmStatus(cfg, s', t', n, writes', last')
    requires s.contours[n] == s'.contours[n]
    requires last.value.deployment == last'.value.deployment && last.value.daemonSet == last'.value.daemonSet
    ensures n in t.contours && n in t'.contours && Plain(t.contours[n]) == Plain(t'.contours[n]) && writes == writes'
  {
    hide KeyAt, Synced, ContourStatusChanged, TimelessStatus, HealthAt;
    var c, r, r' := s.contours[n], last.value, last'.value;
    ChangedAtAnyTime(c.status, r.deployment, r.daemonSet, r.now, r'.now);
    SyncedButForTime(c.status, r.deployment, r.daemonSet, r.now, r'.now);
  }

  // ---- Two requests ---------------------------------------------------------------------------------

  /** The Contour is finalized, its spec valid and its namespace its own: a request for it
      works on its children. Otherwise it is rejected, crashes, or only gets the finalizer. */
  ghost predicate Acts(s: State, c: Contour) {
    c.IsFinalized() && SpecAccepted(c.spec) && !Shares(s, c)
  }

  /** What an undisturbed request does to the objects, the one Contour and nothing else. */
  ghost predicate Local(cfg: Config, s: State, t: State, n: Name, writes: int, last: Option<Reading>) {
    && WellKinded(s) && WellKinded(t) && n in s.contours && t.health == s.health && t.contours.Keys == s.contours.Keys
    && (forall k :: k in s.contours && k != n ==> t.contours[k] == s.contours[k])
    && var c := s.contours[n];
       && c.name == n && t.contours[n].name == n && t.contours[n].spec == c.spec && t.contours[n].deleting == c.deleting
       && (if Acts(s, c) then Attempts(cfg, s, t, c, 0, CHILDREN) && AllReached(cfg, s, t, c, 0, CHILDREN)
           else t.objects == s.objects)
       && (if Acts(s, c) && !ComparisonCrashes(cfg, s, c) then CalmStatus(cfg, s, t, n, writes, last)
           else if SpecAccepted(c.spec) && !Shares(s, c) && !c.IsFinalized()
           then t.contours[n] == c.(finalizers := c.finalizers + [FINALIZER], version := t.version)
           else t.contours[n] == c)
  }

  lemma RequestIsLocal(cfg: Config, s: State, t: State, n: Name, result: Result, writes: int, last: Option<Reading>)
    requires Inv(cfg, s) && Inv(cfg, t) && n in s.contours && !s.contours[n].deleting
    requires Effect(cfg, s, t, n) && CalmEffect(cfg, s, t, n, result, writes, last)
    ensures Local(cfg, s, t, n, writes, last)
  {
    hide NoOrphans, OneOwner, KeyAt, PossibleAt, Reached, SpecAccepted, SpecCrashes, Shares, ComparisonCrashes,
      Synced, ContourStatusChanged, Here, HealthAt;
    var c := s.contours[n];
    if Shares(s, c) || !SpecAccepted(c.spec) {
    } else if !c.IsFinalized() {
      assert (c.finalizers + [FINALIZER])[|c.finalizers|] == FINALIZER;
    }
  }

  /** A request for one Contour leaves the children of the other alone. */
  lemma LocalKeeps(cfg: Config, s: State, t: State, n: Name, writes: int, last: Option<Reading>, d: Contour, i: nat)
    requires Local(cfg, s, t, n, writes, last) && s.contours[n].spec.ns != d.spec.ns && i < CHILDREN
    ensures Here(cfg, t, d, i) == Here(cfg, s, d, i)
  {
    hide KeyAt, Attempts, AllReached, CalmStatus, Acts, ComparisonCrashes;
    if Acts(s, s.contours[n]) {
      OtherChildrenStay(cfg, s, t, s.contours[n], d, i);
    }
  }

  /** Nor does it change whether the other acts, or crashes. */
  lemma LocalKeepsActing(cfg: Config, s: State, t: State, n: Name, writes: int, last: Option<Reading>, d: Contour)
    requires Local(cfg, s, t, n, writes, last) && s.contours[n].spec.ns != d.spec.ns
    ensures Shares(t, d) <==> Shares(s, d)
    ensures ComparisonCrashes(cfg, t, d) <==> ComparisonCrashes(cfg, s, d)
  {
    hide KeyAt, Attempts, AllReached, CalmStatus, Acts;
    LocalKeeps(cfg, s, t, n, writes, last, d, ENVOY_SERVICE);
    assert forall k :: k in s.contours ==> t.contours[k].spec.ns == s.contours[k].spec.ns by {
      forall k | k in s.contours ensures t.contours[k].spec.ns == s.contours[k].spec.ns {
        if k != n { assert t.contours[k] == s.contours[k]; }
      }
    }
    if Shares(s, d) {
      var k :| k in s.contours && k != d.name && s.contours[k].spec.ns == d.spec.ns;
      assert k in t.contours && t.contours[k].spec.ns == d.spec.ns;
    }
    if Shares(t, d) {
      var k :| k in t.contours && k != d.name && t.contours[k].spec.ns == d.spec.ns;
      assert k in s.contours && s.contours[k].spec.ns == d.spec.ns;
    }
  }

  /** Where a complete pass leaves the objects depends on nothing but the objects. */
  lemma PassIsDetermined(cfg: Config, s: State, t: State, s': State, t': State, c: Contour)
    requires s.objects == s'.objects
    requires Attempts(cfg, s, t, c, 0, CHILDREN) && AllReached(cfg, s, t, c, 0, CHILDREN)
    requires Attempts(cfg, s', t', c, 0, CHILDREN) && AllReached(cfg, s', t', c, 0, CHILDREN)
    ensures t.objects == t'.objects
  {
    hide KeyAt, Attempts, Outside, Next;
    forall k ensures At(t.objects, k) == At(t'.objects, k) {
      if Outside(cfg, c.spec.ns, 0, CHILDREN, k) {
        OutsideStays(cfg, s, t, c, k);
        OutsideStays(cfg, s', t', c, k);
      } else {
        SomeChild(cfg, c.spec.ns, k);
        var i: nat :| i < CHILDREN && k == KeyAt(cfg, c.spec.ns, i);
        assert Reached(cfg, s, t, c, i) && Reached(cfg, s', t', c, i);
        HereFits(cfg, s, c, i);
        HereFits(cfg, s', c, i);
      }
    }
    SameEverywhere(t.objects, t'.objects);
  }

  /** An undisturbed request does to a Contour the same whether the other request came before
      or not: r is without it, r' after it. */
  lemma SameContourEitherWay(cfg: Config, s: State, t: State, s': State, t': State, n: Name, w: int, w': int,
                             last: Option<Reading>, last': Option<Reading>)
    requires Local(cfg, s, t, n, w, last) && Local(cfg, s', t', n, w', last') && s.contours[n] == s'.contours[n]
    requires Shares(s, s.contours[n]) <==> Shares(s', s.contours[n])
    requires ComparisonCrashes(cfg, s, s.contours[n]) <==> ComparisonCrashes(cfg, s', s.contours[n])
    requires var ns := s.contours[n].spec.ns;
      && HealthAt(t, KeyAt(cfg, ns, DEPLOYMENT)) == HealthAt(t', KeyAt(cfg, ns, DEPLOYMENT))
      && HealthAt(t, KeyAt(cfg, ns, DAEMONSET)) == HealthAt(t', KeyAt(cfg, ns, DAEMONSET))
    ensures Plain(t.contours[n]) == Plain(t'.contours[n])
  {
    hide KeyAt, Attempts, AllReached, ComparisonCrashes, Shares, SpecAccepted, HealthAt, WellKinded, CalmStatus;
    var c := s.contours[n];
    if Acts(s, c) && !ComparisonCrashes(cfg, s, c) {
      SameHealthRead(cfg, s, t, n, w, last);
      SameHealthRead(cfg, s', t', n, w', last');
      SameReadingsSameStatus(cfg, s, t, s', t', n, w, w', last, last');
    }
  }

  lemma SameHealthRead(cfg: Config, s: State, t: State, n: Name, writes: int, last: Option<Reading>)
    requires CalmStatus(cfg, s, t, n, writes, last)
    ensures var ns := s.contours[n].spec.ns;
      && last.value.deployment == HealthAt(t, KeyAt(cfg, ns, DEPLOYMENT))
      && last.value.daemonSet == HealthAt(t, KeyAt(cfg, ns, DAEMONSET))
  {
    hide KeyAt, Synced, ContourStatusChanged, HealthAt;
  }

  /** What the child of one Contour becomes does not depend on the other request either. */
  lemma SameChildEitherWay(cfg: Config, s: State, sc: State, scd: State, sd: State, sdc: State, n: Name, m: Name,
                           w: seq<int>, last: seq<Option<Reading>>, i: nat)
    requires |w| == |last| == 4 && i < CHILDREN
    requires Local(cfg, s, sc, n, w[0], last[0]) && Local(cfg, sc, scd, m, w[1], last[1])
    requires Local(cfg, s, sd, m, w[2], last[2]) && Local(cfg, sd, sdc, n, w[3], last[3])
    requires n != m && m in s.contours && s.contours[n].spec.ns != s.contours[m].spec.ns
    ensures Here(cfg, scd, s.contours[n], i) == Here(cfg, sc, s.contours[n], i) == Here(cfg, sdc, s.contours[n], i)
  {
    hide KeyAt, Attempts, CalmStatus, ComparisonCrashes, Next, Here, WellKinded, Shares;
    var c := s.contours[n];
    assert sc.contours[m] == s.contours[m] && sd.contours[n] == c;
    LocalKeeps(cfg, sc, scd, m, w[1], last[1], c, i);
    LocalKeeps(cfg, s, sd, m, w[2], last[2], c, i);
    LocalKeepsActing(cfg, s, sd, m, w[2], last[2], c);
    if Acts(s, c) {
      assert Reached(cfg, s, sc, c, i) && Reached(cfg, sd, sdc, c, i);
      HereFits(cfg, s, c, i);
      HereFits(cfg, sd, c, i);
    } else {
      SameObjectsHere(cfg, s, sc, c, i);
      SameObjectsHere(cfg, sd, sdc, c, i);
    }
  }

  lemma SameObjectsHere(cfg: Config, s: State, t: State, c: Contour, i: nat)
    requires t.objects == s.objects && i < CHILDREN
    ensures Here(cfg, t, c, i) == Here(cfg, s, c, i)
  {
  }

  lemma SameHealthEitherWay(cfg: Config, s: State, t: State, c: Contour, i: nat)
    requires i < CHILDREN && Here(cfg, s, c, i) == Here(cfg, t, c, i) && s.health == t.health
    ensures HealthAt(s, KeyAt(cfg, c.spec.ns, i)) == HealthAt(t, KeyAt(cfg, c.spec.ns, i))
  {
    hide KeyAt;
  }

  /** The objects after both requests. */
  lemma SameObjectsEitherWay(cfg: Config, s: State, sc: State, scd: State, sd: State, sdc: State, n: Name, m: Name,
                             w: seq<int>, last: seq<Option<Reading>>)
    requires |w| == |last| == 4
    requires Local(cfg, s, sc, n, w[0], last[0]) && Local(cfg, sc, scd, m, w[1], last[1])
    requires Local(cfg, s, sd, m, w[2], last[2]) && Local(cfg, sd, sdc, n, w[3], last[3])
    requires n != m && s.contours[n].spec.ns != s.contours[m].spec.ns
    ensures scd.objects == sdc.objects
  {
    hide KeyAt, Attempts, AllReached, CalmStatus, ComparisonCrashes, WellKinded, Shares, SpecAccepted;
    var c, d := s.contours[n], s.contours[m];
    assert sc.contours[m] == d && sd.contours[n] == c;
    LocalKeepsActing(cfg, s, sd, m, w[2], last[2], c);
    LocalKeepsActing(cfg, s, sc, n, w[0], last[0], d);
    if Acts(s, c) && Acts(s, d) {
      PassesCommute(cfg, s, sc, scd, sd, sdc, c, d);
    } else if Acts(s, c) {
      PassIsDetermined(cfg, s, sc, sd, sdc, c);
    } else if Acts(s, d) {
      PassIsDetermined(cfg, s, sd, sc, scd, d);
    }
  }

  /** Undisturbed requests for any two Contours that stay, with different spec namespaces, give
      the same objects, health and Contours in either order, up to transition times and
      versions, whether they are served, rejected, crash or only get the finalizer. */
  lemma RequestsCommute(cfg: Config, s: State, sc: State, scd: State, sd: State, sdc: State, n: Name, m: Name,
                        w: seq<int>, last: seq<Option<Reading>>)
    requires |w| == |last| == 4
    requires Local(cfg, s, sc, n, w[0], last[0]) && Local(cfg, sc, scd, m, w[1], last[1])
    requires Local(cfg, s, sd, m, w[2], last[2]) && Local(cfg, sd, sdc, n, w[3], last[3])
    requires n != m && s.contours[n].spec.ns != s.contours[m].spec.ns
    ensures SameButForTime(scd, sdc)
  {
    hide KeyAt, Attempts, AllReached, CalmStatus, ComparisonCrashes, WellKinded, Shares, SpecAccepted, Acts,
      HealthAt, Plain, Here;
    var c, d := s.contours[n], s.contours[m];
    assert sc.contours[m] == d && sd.contours[n] == c;
    SameObjectsEitherWay(cfg, s, sc, scd, sd, sdc, n, m, w, last);
    var w', last' := [w[2], w[3], w[0], w[1]], [last[2], last[3], last[0], last[1]];
    SameChildEitherWay(cfg, s, sc, scd, sd, sdc, n, m, w, last, DEPLOYMENT);
    SameChildEitherWay(cfg, s, sc, scd, sd, sdc, n, m, w, last, DAEMONSET);
    SameChildEitherWay(cfg, s, sd, sdc, sc, scd, m, n, w', last', DEPLOYMENT);
    SameChildEitherWay(cfg, s, sd, sdc, sc, scd, m, n, w', last', DAEMONSET);
    SameHealthEitherWay(cfg, sc, sdc, c, DEPLOYMENT);
    SameHealthEitherWay(cfg, sc, sdc, c, DAEMONSET);
    SameHealthEitherWay(cfg, sd, scd, d, DEPLOYMENT);
    SameHealthEitherWay(cfg, sd, scd, d, DAEMONSET);
    LocalKeepsActing(cfg, s, sd, m, w[2], last[2], c);
    LocalKeepsActing(cfg, s, sc, n, w[0], last[0], d);
    SameContourEitherWay(cfg, s, sc, sd, sdc, n, w[0], w[3], last[0], last[3]);
    SameContourEitherWay(cfg, s, sd, sc, scd, m, w[2], w[1], last[2], last[1]);
    assert scd.contours[n] == sc.contours[n] && sdc.contours[m] == sd.contours[m];
  }

  ghost predicate SameButForTime(s: State, t: State) {
    && s.objects == t.objects && s.health == t.health && s.contours.Keys == t.contours.Keys
    && forall k :: k in s.contours ==> Plain(s.contours[k]) == Plain(t.contours[k])
  }

  /** Two copies of the operator, left alone, take up the same two requests in different order. */
  method EitherOrder(a: Cluster, b: Cluster, n: Name, m: Name)
    requires a != b && a.Valid() && b.Valid() && a.Calm() && b.Calm() && a.cfg == b.cfg && a.state == b.state
    requires n in a.state.contours && m in a.state.contours && a.state.contours[n].spec.ns != a.state.contours[m].spec.ns
    requires !a.state.contours[n].deleting && !a.state.contours[m].deleting
    modifies a, b
    ensures a.Valid() && b.Valid() && SameButForTime(a.state, b.state)
  {
    hide a.Calm, a.Valid, Inv, Local, CalmEffect, Effect, Success, FaultlessEffect, SparedDuring, Evolves,
      SyncReadings, NewsCount, LastOf, Served, AloneSince, AllSettled, Faultless,
      Recorded, SweptDuring, UserMoved, Departing, Staying, Holds, SameButForTime, Untouched;
    Begun(a);
    Begun(b);
    ghost var s, w0: int, w1: int := a.state, a.statusWrites, b.statusWrites;
    var result;
    ghost var l0, l1, l2, l3, readings, written, course;
    result, l0, readings, written, course := Reconcile(a, n);
    Begun(a);
    ghost var sc, x0: int := a.state, a.statusWrites;
    RequestIsLocal(a.cfg, s, sc, n, result, x0 - w0, l0);
    LocalOthers(a.cfg, s, sc, n, x0 - w0, l0, m);
    result, l1, readings, written, course := Reconcile(a, m);
    Begun(a);
    RequestIsLocal(a.cfg, sc, a.state, m, result, a.statusWrites - x0, l1);
    result, l2, readings, written, course := Reconcile(b, m);
    Begun(b);
    ghost var sd, x1: int := b.state, b.statusWrites;
    RequestIsLocal(a.cfg, s, sd, m, result, x1 - w1, l2);
    LocalOthers(a.cfg, s, sd, m, x1 - w1, l2, n);
    result, l3, readings, written, course := Reconcile(b, n);
    Begun(b);
    RequestIsLocal(a.cfg, sd, b.state, n, result, b.statusWrites - x1, l3);
    ghost var y0: int, y1: int := a.statusWrites, b.statusWrites;
    RequestsCommute(a.cfg, s, sc, a.state, sd, b.state, n, m, [x0 - w0, y0 - x0, x1 - w1, y1 - x1], [l0, l1, l2, l3]);
  }

  lemma LocalOthers(cfg: Config, s: State, t: State, n: Name, writes: int, last: Option<Reading>, m: Name)
    requires Local(cfg, s, t, n, writes, last) && m in s.contours && m != n
    ensures m in t.contours && t.contours[m] == s.contours[m]
  {
    hide Attempts, AllReached, CalmStatus, WellKinded, Acts, ComparisonCrashes, Shares, SpecAccepted;
  }
}
