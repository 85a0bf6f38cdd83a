/** One pass that deletes what a Contour left behind and then lets it go (ensureContourDeleted
    in internal/controller/controller.go). */
module DeletePass {
  import opened Wrappers
  import opened Api
  import opened Children
  import opened Protocol
  import opened Cluster
  import opened Contours
  import opened Retryable
  import opened Ensure
  import opened Deletion
  import Slice

  /** Where in the log a pass asked who shares the namespace, who else there is, and again who
      shares the namespace before deleting it. */
  datatype Checks = Checks(sharedAt: nat, othersAt: nat, askedAt: nat)

  ghost predicate ChecksWithin(checks: Checks, from: nat, log: seq<Record>) {
    from <= checks.sharedAt <= checks.othersAt <= checks.askedAt < |log|
  }

  /** The children a pass goes for: every workload, RBAC and the namespace as far as nobody
      else was seen to need them. */
  ghost function Doomed(log: seq<Record>, contour: Contour, checks: Checks): set<nat>
    requires ChecksWithin(checks, 0, log)
  {
    WORKLOADS + DoomedRbac(log[checks.sharedAt].state, log[checks.othersAt].state, contour)
    + DoomedNamespace(log[checks.askedAt].state, contour)
  }

  /** The copy is of a Contour that is still there if it had the operator's finalizer. */
  ghost predicate Current(s: State, contour: Contour) {
    Known(s, contour) && (contour.IsFinalized() ==> Holds(s, contour.name, contour.spec.ns))
  }

  lemma CurrentStays(s: State, t: State, contour: Contour)
    requires Current(s, contour) && Evolves(s, t)
    ensures Current(t, contour)
  {
  }

  /** No workload of the Contour is anywhere but at its six keys. */
  lemma ClearedMeansNone(cfg: Config, s: State, contour: Contour)
    requires Inv(cfg, s) && Holds(s, contour.name, contour.spec.ns)
    requires AllGone(cfg, s, contour, WORKLOADS)
    ensures NoWorkloadOf(s, contour.name)
  {
    hide KeyAt;
    forall k | k in s.objects && IsWorkload(k.kind) ensures !Owns(contour.name, s.objects[k]) {
      if OwnerOf(s.objects[k].labels).Some? {
        assert IsWorkloadKey(cfg, k) && Holds(s, OwnerOf(s.objects[k].labels).value, k.ns);
        var i :| FIRST_WORKLOAD <= i < CHILDREN && k == KeyAt(cfg, k.ns, i);
        if k.ns == contour.spec.ns {
          assert NotOurs(cfg, s, contour, i);
        }
      }
    }
  }

  /** Deletes one workload and takes the result; s is the state in which the pass began. */
  method DeleteWorkload(cli: Cluster, contour: Contour, i: nat, what: string, found: seq<Option<Error>>, ghost s: State)
    returns (errs: seq<Option<Error>>)
    requires cli.Valid() && cli.WorksOn(contour) && FIRST_WORKLOAD <= i < CHILDREN
    requires Pruned(s, cli.state, contour.name) && Evolves(s, cli.state)
    requires Confined(cli.cfg, contour.spec.ns, s, cli.state, WORKLOADS)
    requires found == [] ==> forall j :: i < j < CHILDREN ==> NotOurs(cli.cfg, cli.state, contour, j)
    requires found == [] <==> Combined(found).None?
    modifies cli`state, cli`clock, cli`log, cli`writes
    ensures cli.Advanced() && Pruned(s, cli.state, contour.name) && Evolves(s, cli.state)
    ensures Confined(cli.cfg, contour.spec.ns, s, cli.state, WORKLOADS)
    ensures errs == [] ==> forall j :: i <= j < CHILDREN ==> NotOurs(cli.cfg, cli.state, contour, j)
    ensures errs == [] <==> Combined(errs).None?
    ensures Faultless(cli.script, old(cli.clock), cli.clock) ==> errs == found && NotOurs(cli.cfg, cli.state, contour, i)
    ensures forall j :: FIRST_WORKLOAD <= j < CHILDREN && NotOurs(cli.cfg, old(cli.state), contour, j) ==>
      NotOurs(cli.cfg, cli.state, contour, j)
    ensures old(cli.Calm()) ==> errs == found && OnlyObjects(old(cli.state), cli.state)
  {
    hide cli.Calm, Attributed, Legal, Inv, Evolves, KeyAt, Pruned, NotOurs, Removal, Combined, Confined;
    ghost var mid := cli.state;
    var err := EnsureObjectDeleted(cli, contour, i);
    EvolvesTransitive(s, mid, cli.state);
    RemovalPrunes(cli.cfg, mid, cli.state, contour, i);
    PrunedTransitive(s, mid, cli.state, contour.name);
    RemovalConfined(cli.cfg, mid, cli.state, contour, i);
    ConfinedJoin(cli.cfg, contour.spec.ns, s, mid, cli.state, WORKLOADS, {i});
    assert WORKLOADS + {i} == WORKLOADS;
    errs := HandleResult(found, what, err);
    forall j | FIRST_WORKLOAD <= j < CHILDREN && NotOurs(cli.cfg, mid, contour, j) ensures NotOurs(cli.cfg, cli.state, contour, j) {
      NotOursStays(cli.cfg, mid, cli.state, contour, j);
    }
  }

  ghost predicate Ordered(marks: seq<nat>) {
    forall j, k :: 0 <= j <= k < |marks| ==> marks[j] <= marks[k]
  }

  /** Each step of the pass is over and done with if its own calls did not fail, whatever
      became of the others: six workloads, then RBAC, then the namespace. */
  ghost predicate Tried(cfg: Config, script: seq<Turn>, log: seq<Record>, s: State, contour: Contour, marks: seq<nat>, checks: Checks) {
    && |marks| == 9 && Ordered(marks) && ChecksWithin(checks, 0, log)
    && (forall i :: FIRST_WORKLOAD <= i < CHILDREN && Faultless(script, marks[15 - i], marks[16 - i]) ==> NotOurs(cfg, s, contour, i))
    && (Faultless(script, marks[6], marks[7]) ==>
          AllGone(cfg, s, contour, DoomedRbac(log[checks.sharedAt].state, log[checks.othersAt].state, contour)))
    && (Faultless(script, marks[7], marks[8]) ==> AllGone(cfg, s, contour, DoomedNamespace(log[checks.askedAt].state, contour)))
  }

  /** Deletes the workloads, in the reverse of the order in which they are ensured. */
  method DeleteWorkloads(cli: Cluster, contour: Contour) returns (errs: seq<Option<Error>>, ghost marks: seq<nat>)
    requires cli.Valid() && cli.WorksOn(contour)
    modifies cli`state, cli`clock, cli`log, cli`writes
    ensures cli.Advanced() && Pruned(old(cli.state), cli.state, contour.name)
    ensures Confined(cli.cfg, contour.spec.ns, old(cli.state), cli.state, WORKLOADS)
    ensures errs == [] ==> AllGone(cli.cfg, cli.state, contour, WORKLOADS)
    ensures |marks| == 7 && marks[0] == old(cli.clock) && marks[6] == cli.clock && Ordered(marks)
    ensures forall i :: FIRST_WORKLOAD <= i < CHILDREN && Faultless(cli.script, marks[15 - i], marks[16 - i]) ==>
      NotOurs(cli.cfg, cli.state, contour, i)
    ensures errs == [] <==> Combined(errs).None?
    ensures Faultless(cli.script, old(cli.clock), cli.clock) ==> errs == []
    ensures old(cli.Calm()) ==> errs == [] && OnlyObjects(old(cli.state), cli.state)
  {
    hide cli.Calm, cli.Valid, Evolves, KeyAt, Pruned, NotOurs, Combined, Faultless, Confined;
    ghost var s := cli.state;
    SameContoursEvolve(s, s);
    PrunedSelf(s, s, contour.name);
    ConfinedSelf(cli.cfg, contour.spec.ns, s, s, WORKLOADS);
    assert Combined([]).None? by { NothingFound(); }
    ghost var c0 := cli.clock;
    errs := DeleteWorkload(cli, contour, ENVOY_SERVICE, "failed to delete envoy service", [], s);
    ghost var c1 := cli.clock;
    errs := DeleteWorkload(cli, contour, CONTOUR_SERVICE, "failed to delete service", errs, s);
    ghost var c2 := cli.clock;
    errs := DeleteWorkload(cli, contour, DAEMONSET, "failed to delete daemonset", errs, s);
    ghost var c3 := cli.clock;
    errs := DeleteWorkload(cli, contour, DEPLOYMENT, "failed to delete deployment", errs, s);
    ghost var c4 := cli.clock;
    errs := DeleteWorkload(cli, contour, JOB, "failed to delete job", errs, s);
    ghost var c5 := cli.clock;
    errs := DeleteWorkload(cli, contour, 10, "failed to delete configmap", errs, s);
    FaultWidens(cli.script, c0, c1, c0, cli.clock);
    FaultWidens(cli.script, c1, c2, c0, cli.clock);
    FaultWidens(cli.script, c2, c3, c0, cli.clock);
    FaultWidens(cli.script, c3, c4, c0, cli.clock);
    FaultWidens(cli.script, c4, c5, c0, cli.clock);
    FaultWidens(cli.script, c5, cli.clock, c0, cli.clock);
    marks := [c0, c1, c2, c3, c4, c5, cli.clock];
  }

  lemma NothingFound()
    ensures Combined([]).None?
  {
  }

  /** Deletes the workloads, RBAC and the namespace. */
  method DeleteChildren(cli: Cluster, contour: Contour)
    returns (errs: seq<Option<Error>>, ghost marks: seq<nat>, ghost checks: Checks)
    requires cli.Valid() && cli.WorksOn(contour) && Current(cli.state, contour)
    modifies cli`state, cli`clock, cli`log, cli`writes
    ensures cli.Advanced() && Pruned(old(cli.state), cli.state, contour.name)
    ensures ChecksWithin(checks, |old(cli.log)| - 1, cli.log)
    ensures Confined(cli.cfg, contour.spec.ns, old(cli.state), cli.state, Doomed(cli.log, contour, checks))
    ensures errs == [] ==> AllGone(cli.cfg, cli.state, contour, Doomed(cli.log, contour, checks))
    ensures Tried(cli.cfg, cli.script, cli.log, cli.state, contour, marks, checks)
    ensures marks[0] == old(cli.clock) && marks[8] == cli.clock
    ensures errs == [] <==> Combined(errs).None?
    ensures Faultless(cli.script, old(cli.clock), cli.clock) ==> errs == []
    ensures old(cli.Calm()) ==> errs == [] && OnlyObjects(old(cli.state), cli.state)
    ensures old(cli.Calm()) ==> AskedAmong(cli.log, checks, old(cli.state))
  {
    hide cli.Calm, cli.Valid, Evolves, KeyAt, Pruned, NotOurs, Combined, AllGone, Known, HandleResult, Current,
      StillHeld, Faultless, Confined, DoomedRbac, DoomedNamespace;
    Begun(cli);
    ghost var s, start, ns := cli.state, cli.clock, contour.spec.ns;
    errs, marks := DeleteWorkloads(cli, contour);
    ghost var s1, c1, log1 := cli.state, cli.clock, cli.log;
    CurrentStays(s, s1, contour);
    CurrentHolds(s1, contour);
    LastIsNow(cli);
    var err;
    ghost var othersAt, askedAt;
    err, othersAt := EnsureRBACDeleted(cli, contour);
    errs := HandleResult(errs, "failed to delete rbac", err);
    ghost var s2, c2, log2 := cli.state, cli.clock, cli.log;
    ghost var rbac := DoomedRbac(s1, log2[othersAt].state, contour);
    marks := marks + [cli.clock];
    EvolvesTransitive(s, s1, s2);
    CurrentStays(s1, s2, contour);
    CurrentHolds(s2, contour);
    var expected;
    expected, err, askedAt := EnsureNamespaceDeleted(cli, contour);
    if expected {
      errs := HandleResult(errs, "failed to delete namespace", err);
    }
    ghost var namespace := DoomedNamespace(cli.log[askedAt].state, contour);
    EvolvesTransitive(s, s2, cli.state);
    PrunedTransitive(s1, s2, cli.state, contour.name);
    PrunedTransitive(s, s1, cli.state, contour.name);
    marks := marks + [cli.clock];
    FaultWidens(cli.script, start, c1, start, cli.clock);
    FaultWidens(cli.script, c1, c2, start, cli.clock);
    FaultWidens(cli.script, c2, cli.clock, start, cli.clock);
    checks := Checks(|log1| - 1, othersAt, askedAt);
    assert cli.log[|log1| - 1] == log1[|log1| - 1] && cli.log[othersAt] == log2[othersAt];
    ConfinedJoin(cli.cfg, ns, s1, s2, cli.state, rbac, namespace);
    ConfinedJoin(cli.cfg, ns, s, s1, cli.state, WORKLOADS, rbac + namespace);
    assert WORKLOADS + (rbac + namespace) == Doomed(cli.log, contour, checks);
    AllTried(cli.cfg, cli.script, cli.log, s1, s2, cli.state, contour, marks, checks);
    if errs == [] {
      GoneStays(cli.cfg, s1, cli.state, contour, WORKLOADS);
      GoneStays(cli.cfg, s2, cli.state, contour, rbac);
      GoneTogether(cli.cfg, cli.state, contour, WORKLOADS, rbac, namespace);
    }
  }

  /** What the checks of an undisturbed pass saw were the Contours there at its start. */
  ghost predicate AskedAmong(log: seq<Record>, checks: Checks, s: State) {
    && ChecksWithin(checks, 0, log)
    && log[checks.sharedAt].state.contours == s.contours
    && log[checks.othersAt].state.contours == s.contours
    && log[checks.askedAt].state.contours == s.contours
  }

  lemma GoneTogether(cfg: Config, s: State, contour: Contour, a: set<nat>, b: set<nat>, c: set<nat>)
    ensures AllGone(cfg, s, contour, a) && AllGone(cfg, s, contour, b) && AllGone(cfg, s, contour, c) ==>
      AllGone(cfg, s, contour, a + b + c)
  {
    hide NotOurs;
  }

  lemma CurrentHolds(s: State, contour: Contour)
    requires Current(s, contour)
    ensures StillHeld(s, contour)
  {
  }

  lemma AllTried(cfg: Config, script: seq<Turn>, log: seq<Record>, s: State, mid: State, t: State, contour: Contour,
                 marks: seq<nat>, checks: Checks)
    requires Pruned(s, t, contour.name) && Pruned(mid, t, contour.name)
    requires |marks| == 9 && Ordered(marks) && ChecksWithin(checks, 0, log)
    requires forall i :: FIRST_WORKLOAD <= i < CHILDREN && Faultless(script, marks[15 - i], marks[16 - i]) ==> NotOurs(cfg, s, contour, i)
    requires Faultless(script, marks[6], marks[7]) ==>
      AllGone(cfg, mid, contour, DoomedRbac(log[checks.sharedAt].state, log[checks.othersAt].state, contour))
    requires Faultless(script, marks[7], marks[8]) ==>
      AllGone(cfg, t, contour, DoomedNamespace(log[checks.askedAt].state, contour))
    ensures Tried(cfg, script, log, t, contour, marks, checks)
  {
    hide KeyAt, Pruned, NotOurs, Faultless, DoomedRbac, DoomedNamespace, AllGone;
    forall i | FIRST_WORKLOAD <= i < CHILDREN && NotOurs(cfg, s, contour, i) ensures NotOurs(cfg, t, contour, i) {
      NotOursStays(cfg, s, t, contour, i);
    }
    if Faultless(script, marks[6], marks[7]) {
      GoneStays(cfg, mid, t, contour, DoomedRbac(log[checks.sharedAt].state, log[checks.othersAt].state, contour));
    }
  }

  /** The finalizer's removal undoes none of it. */
  lemma TriedLater(cfg: Config, script: seq<Turn>, log: seq<Record>, later: seq<Record>, s: State, t: State,
                   contour: Contour, marks: seq<nat>, checks: Checks)
    requires Tried(cfg, script, log, s, contour, marks, checks) && log <= later && Pruned(s, t, contour.name)
    ensures Tried(cfg, script, later, t, contour, marks, checks)
  {
    hide KeyAt, Pruned, NotOurs, Faultless, DoomedRbac, DoomedNamespace, AllGone;
    forall i | FIRST_WORKLOAD <= i < CHILDREN && NotOurs(cfg, s, contour, i) ensures NotOurs(cfg, t, contour, i) {
      NotOursStays(cfg, s, t, contour, i);
    }
    if Faultless(script, marks[6], marks[7]) {
      GoneStays(cfg, s, t, contour, DoomedRbac(log[checks.sharedAt].state, log[checks.othersAt].state, contour));
    }
    if Faultless(script, marks[7], marks[8]) {
      GoneStays(cfg, s, t, contour, DoomedNamespace(log[checks.askedAt].state, contour));
    }
  }

  /** In some state since position from, the Contour was not as in this copy. */
  ghost predicate Changed(log: seq<Record>, from: nat, contour: Contour) {
    exists m :: from <= m < |log| && At(log[m].state.contours, contour.name) != Some(contour)
  }

  lemma ChangedThen(log: seq<Record>, later: seq<Record>, from: nat, s: State, contour: Contour)
    requires log != [] && from < |log| && log[|log| - 1].state == s && log <= later
    ensures At(s.contours, contour.name) == Some(contour) || Changed(later, from, contour)
  {
    assert later[|log| - 1] == log[|log| - 1];
  }

  /** Deletes what there is, keeps what others need, and drops the finalizer once nothing went
      wrong. */
  method EnsureContourDeleted(cli: Cluster, contour: Contour)
    returns (err: Option<Error>, ghost marks: seq<nat>, ghost checks: Checks)
    requires cli.Valid() && cli.WorksOn(contour) && Current(cli.state, contour)
    modifies cli`state, cli`clock, cli`log, cli`writes, cli`contourSteps
    ensures cli.Valid() && old(cli.log) <= cli.log && old(cli.clock) <= cli.clock && (old(cli.Calm()) ==> cli.Calm())
    ensures Pruned(old(cli.state), cli.state, contour.name)
    ensures !Classify(err).Later?
    ensures ChecksWithin(checks, |old(cli.log)| - 1, cli.log)
    ensures Confined(cli.cfg, contour.spec.ns, old(cli.state), cli.state, Doomed(cli.log, contour, checks))
    ensures err.None? || cli.contourSteps != old(cli.contourSteps)
            || (contour.IsFinalized() && !Holds(cli.state, contour.name, contour.spec.ns)) ==>
      AllGone(cli.cfg, cli.state, contour, Doomed(cli.log, contour, checks))
    ensures err.None? && contour.IsFinalized() ==>
      Refinalized(cli.log, |old(cli.log)| - 1, contour, Slice.Without(contour.finalizers, FINALIZER))
    ensures Faultless(cli.script, old(cli.clock), cli.clock) ==>
      err.None? || (Changed(cli.log, |old(cli.log)| - 1, contour) && cli.contourSteps == old(cli.contourSteps))
    ensures Tried(cli.cfg, cli.script, cli.log, cli.state, contour, marks, checks)
    ensures marks[0] == old(cli.clock) && marks[8] <= cli.clock
    ensures old(cli.Calm()) && contour.IsFinalized() && At(old(cli.state.contours), contour.name) == Some(contour) ==>
      && err.None?
      && cli.state == WithContour(old(cli.state).(objects := cli.state.objects),
                                  contour.(finalizers := Slice.Without(contour.finalizers, FINALIZER)))
    ensures old(cli.Calm()) && !contour.IsFinalized() ==> err.None? && OnlyObjects(old(cli.state), cli.state)
    ensures old(cli.Calm()) ==> AskedAmong(cli.log, checks, old(cli.state))
  {
    hide cli.Calm, cli.Valid, Evolves, KeyAt, Pruned, NotOurs, AllGone, NoWorkloadOf, Known, Current, Holds, Tried,
      Faultless, Refinalized, Confined, Changed, Inv, DoomedRbac, DoomedNamespace;
    Begun(cli);
    ghost var s, start, from, ns := cli.state, cli.clock, |cli.log| - 1, contour.spec.ns;
    var errs;
    errs, marks, checks := DeleteChildren(cli, contour);
    ghost var mid, midClock, log := cli.state, cli.clock, cli.log;
    CurrentStays(s, mid, contour);
    FaultWidens(cli.script, start, midClock, start, midClock);
    if errs == [] {
      Begun(cli);
      LastIsNow(cli);
      ReadyToRelease(cli.cfg, log, mid, contour, checks);
      var removalErr := EnsureFinalizerRemoved(cli, contour);
      DoomedLater(log, cli.log, contour, checks);
      FaultWidens(cli.script, midClock, cli.clock, start, cli.clock);
      ChangedThen(log, cli.log, from, mid, contour);
      PrunedSelf(mid, cli.state, contour.name);
      PrunedTransitive(s, mid, cli.state, contour.name);
      ConfinedSelf(cli.cfg, ns, mid, cli.state, {});
      ConfinedJoin(cli.cfg, ns, s, mid, cli.state, Doomed(log, contour, checks), {});
      assert Doomed(log, contour, checks) + {} == Doomed(log, contour, checks);
      TriedLater(cli.cfg, cli.script, log, cli.log, mid, cli.state, contour, marks, checks);
      GoneStays(cli.cfg, mid, cli.state, contour, Doomed(log, contour, checks));
      if removalErr.None? && contour.IsFinalized() {
        RefinalizedLater(cli.log, cli.log, |log| - 1, from, contour, Slice.Without(contour.finalizers, FINALIZER));
      }
      errs := HandleResult(errs, "failed to remove finalizer", removalErr);
    } else {
      CurrentIsHeld(mid, contour);
    }
    err := NewAggregate(errs);
  }

  lemma CurrentIsHeld(s: State, contour: Contour)
    requires Current(s, contour)
    ensures contour.IsFinalized() ==> Holds(s, contour.name, contour.spec.ns)
  {
  }

  lemma DoomedLater(log: seq<Record>, later: seq<Record>, contour: Contour, checks: Checks)
    requires ChecksWithin(checks, 0, log) && log <= later
    ensures Doomed(later, contour, checks) == Doomed(log, contour, checks)
  {
  }

  lemma ReadyToRelease(cfg: Config, log: seq<Record>, s: State, contour: Contour, checks: Checks)
    requires Inv(cfg, s) && Current(s, contour) && ChecksWithin(checks, 0, log)
    requires AllGone(cfg, s, contour, Doomed(log, contour, checks))
    ensures Known(s, contour)
    ensures contour.IsFinalized() ==> NoWorkloadOf(s, contour.name)
  {
    hide Inv, Holds, NotOurs, DoomedRbac, DoomedNamespace;
    if contour.IsFinalized() {
      assert WORKLOADS <= Doomed(log, contour, checks);
      ClearedMeansNone(cfg, s, contour);
    }
  }
}
