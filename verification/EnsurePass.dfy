/** One pass that ensures everything a Contour needs (ensureContour in
    internal/controller/controller.go). */
module EnsurePass {
  import opened Wrappers
  import opened Api
  import opened Children
  import opened Protocol
  import opened Cluster
  import opened Retryable
  import opened Ensure
  import opened Equality
  import opened Rbac
  import opened StatusSync

  /** The results of the workloads ensured so far, and the turns at which each began; the last
      mark is the turn reached. */
  datatype Account = Account(results: seq<Option<Error>>, marks: seq<nat>)

  /** Workload i is where it should be if its own calls did not fail, or if no error was
      reported for it, whatever happened to the others. */
  ghost predicate Accounted(cfg: Config, script: seq<Turn>, s: State, t: State, contour: Contour, a: Account, i: nat) {
    && FIRST_WORKLOAD <= i < |a.results| + FIRST_WORKLOAD < |a.marks| + FIRST_WORKLOAD
    && var j := i - FIRST_WORKLOAD;
       && a.marks[j] <= a.marks[j + 1]
       && (Faultless(script, a.marks[j], a.marks[j + 1]) ==> a.results[j].None?)
       && (a.results[j].None? ==> Reached(cfg, s, t, contour, i))
  }

  /** The pass that started in state s has ensured the namespace, RBAC and the workloads
      before child i. */
  ghost predicate Reports(cfg: Config, script: seq<Turn>, s: State, t: State, contour: Contour, i: nat, a: Account) {
    && FIRST_WORKLOAD <= i <= CHILDREN
    && |a.results| == i - FIRST_WORKLOAD && |a.marks| == i - FIRST_WORKLOAD + 1
    && AllReached(cfg, s, t, contour, 0, FIRST_WORKLOAD)
    && forall j :: FIRST_WORKLOAD <= j < i ==> Accounted(cfg, script, s, t, contour, a, j)
  }

  ghost predicate Standing(cfg: Config, script: seq<Turn>, s: State, t: State, contour: Contour, i: nat, a: Account, clock: nat) {
    && Reports(cfg, script, s, t, contour, i, a) && a.marks[i - FIRST_WORKLOAD] == clock
    && Attempts(cfg, s, t, contour, 0, i) && Evolves(s, t)
    && Tenant(t, contour) && Ready(cfg, t.objects, contour.spec.ns)
  }

  /** What the pass has built up so far prepares the next workload. */
  lemma NextPrepared(cfg: Config, script: seq<Turn>, s: State, t: State, contour: Contour, i: nat, a: Account, clock: nat)
    requires Standing(cfg, script, s, t, contour, i, a, clock) && i < CHILDREN
    ensures Prepared(cfg, t, contour, i) && WellKinded(t)
    ensures AllSettled(cfg, s, contour, 0, CHILDREN) ==> Settled(cfg, t, contour, i)
  {
    hide KeyAt, Tenant, Ready, Attempts, Settled;
    assert WellKinded(t) by { AttemptsWellKinded(cfg, s, t, contour, 0, i); }
    if AllSettled(cfg, s, contour, 0, CHILDREN) {
      SettledOutside(cfg, s, t, contour, 0, i, CHILDREN);
    }
  }

  lemma AttemptsWellKinded(cfg: Config, s: State, t: State, contour: Contour, lo: nat, hi: nat)
    requires Attempts(cfg, s, t, contour, lo, hi)
    ensures WellKinded(s) && WellKinded(t)
  {
  }

  /** One more workload attempted. */
  lemma Stepped(cfg: Config, script: seq<Turn>, s: State, mid: State, t: State, contour: Contour, i: nat,
                a: Account, clock: nat, err: Option<Error>, clock': nat)
    returns (a': Account)
    requires Standing(cfg, script, s, mid, contour, i, a, clock) && i < CHILDREN && clock <= clock'
    requires Attempt(cfg, mid, t, contour, i) && Evolves(mid, t)
    requires err.None? ==> Reached(cfg, mid, t, contour, i)
    requires Faultless(script, clock, clock') ==> err.None?
    ensures a' == Account(a.results + [err], a.marks + [clock'])
    ensures Standing(cfg, script, s, t, contour, i + 1, a', clock')
    ensures a.marks != [] && a'.marks[0] == a.marks[0]
    ensures AllFine(a'.results) <==> AllFine(a.results) && err.None?
  {
    hide KeyAt, Tenant, Evolves, Attempt, Attempts, Reached, Faultless;
    a' := Account(a.results + [err], a.marks + [clock']);
    assert a'.results[|a.results|] == err && forall j :: 0 <= j < |a.results| ==> a'.results[j] == a.results[j];
    EvolvesTransitive(s, mid, t);
    AttemptKeeps(cfg, mid, t, contour, i);
    OneAttempt(cfg, mid, t, contour, i);
    AttemptsJoin(cfg, s, mid, t, contour, 0, i, i + 1);
    forall j | 0 <= j < i && Reached(cfg, s, mid, contour, j) ensures Reached(cfg, s, t, contour, j) {
      ReachedOutside(cfg, s, mid, t, contour, i, i + 1, j);
    }
    assert Reached(cfg, mid, t, contour, i) ==> Reached(cfg, s, t, contour, i) by {
      ReachedLate(cfg, s, mid, t, contour, i);
    }
    forall j | FIRST_WORKLOAD <= j < i + 1
      ensures Accounted(cfg, script, s, t, contour, a', j)
    {
      if j < i {
        assert Accounted(cfg, script, s, mid, contour, a, j);
      }
    }
  }

  lemma ReachedOutside(cfg: Config, s: State, mid: State, t: State, contour: Contour, lo: nat, hi: nat, j: nat)
    requires Attempts(cfg, mid, t, contour, lo, hi) && !(lo <= j < hi)
    requires Reached(cfg, s, mid, contour, j)
    ensures Reached(cfg, s, t, contour, j)
  {
    hide KeyAt, Next, Attempts;
    HereOutside(cfg, mid, t, contour, lo, hi, j);
  }

  lemma ReachedLate(cfg: Config, s: State, mid: State, t: State, contour: Contour, i: nat)
    requires Attempts(cfg, s, mid, contour, 0, i) && i < CHILDREN
    ensures Reached(cfg, mid, t, contour, i) ==> Reached(cfg, s, t, contour, i)
  {
    hide KeyAt, Next;
    HereOutside(cfg, s, mid, contour, 0, i, i);
  }

  /** A pass keeps the Contour in possession of its namespace. */
  lemma AttemptsKeepTenant(cfg: Config, s: State, t: State, contour: Contour, lo: nat, hi: nat)
    requires Attempts(cfg, s, t, contour, lo, hi) && Evolves(s, t) && Tenant(s, contour)
    ensures Tenant(t, contour)
  {
    hide KeyAt, Next, Desired, Drift, Evolves, Tenant;
    forall k | k in t.objects
      ensures (k in s.objects && t.objects[k] == s.objects[k]) || Owns(contour.name, t.objects[k])
    {
      AttemptsWriteOwned(cfg, s, t, contour, lo, hi, k);
    }
    TenantStays(s, t, contour);
  }

  /** Whatever a pass leaves at a key is what was there, or names the Contour. */
  lemma AttemptsWriteOwned(cfg: Config, s: State, t: State, contour: Contour, lo: nat, hi: nat, k: Key)
    requires Attempts(cfg, s, t, contour, lo, hi)
    ensures At(t.objects, k) == At(s.objects, k)
      || ((k in t.objects ==> Owns(contour.name, t.objects[k])) && (k in s.objects ==> Owns(contour.name, s.objects[k])))
  {
    hide KeyAt, Next, Desired, Drift;
    if !Outside(cfg, contour.spec.ns, lo, hi, k) {
      var j :| lo <= j < hi && k == KeyAt(cfg, contour.spec.ns, j);
      assert PossibleAt(cfg, s, t, contour, j);
      HereFits(cfg, s, contour, j);
      NextIsOwned(cfg, contour, j, Here(cfg, s, contour, j));
      NextLeavesOthers(cfg, contour, j, Here(cfg, s, contour, j));
    }
  }

  lemma NextLeavesOthers(cfg: Config, contour: Contour, i: nat, before: Option<Object>)
    requires i < CHILDREN && Fits(cfg, contour, i, before)
    ensures before.Some? && !Owns(contour.name, before.value) ==> Next(cfg, contour, i, before) == before
  {
  }

  /** Ensuring workload i from this turn and state on ends the process: the Deployment cannot be
      read, or the Envoy Service can and has more ports than the comparison expects. */
  ghost predicate CrashesAt(cfg: Config, script: seq<Turn>, turn: nat, s: State, contour: Contour, i: nat) {
    || (i == DEPLOYMENT && FailsAt(script, turn))
    || (i == ENVOY_SERVICE && !FailsAt(script, turn) && ComparisonCrashes(cfg, s, contour))
  }

  /** Ensures one workload in its own way. */
  method EnsureWorkload(cli: Cluster, contour: Contour, i: nat) returns (outcome: Outcome)
    requires cli.Valid() && cli.WorksOn(contour) && FIRST_WORKLOAD <= i < CHILDREN && Prepared(cli.cfg, cli.state, contour, i)
    modifies cli`state, cli`clock, cli`log, cli`writes
    ensures cli.Advanced() && Attempt(cli.cfg, old(cli.state), cli.state, contour, i)
    ensures outcome == Ran(None) ==> Reached(cli.cfg, old(cli.state), cli.state, contour, i)
    ensures Faultless(cli.script, old(cli.clock), cli.clock) ==> outcome == Ran(None) || outcome == Panicked
    ensures Settled(cli.cfg, old(cli.state), contour, i) ==> cli.writes == old(cli.writes)
    ensures old(cli.Calm()) ==>
      OnlyObjects(old(cli.state), cli.state) && Reached(cli.cfg, old(cli.state), cli.state, contour, i)
    ensures outcome.Panicked? <==> CrashesAt(cli.cfg, cli.script, old(cli.clock), old(cli.state), contour, i)
    ensures old(cli.clock) < cli.clock
    ensures Faultless(cli.script, old(cli.clock), cli.clock) ==>
      && Reached(cli.cfg, old(cli.state), cli.state, contour, i)
      && (outcome.Panicked? <==> i == ENVOY_SERVICE && ComparisonCrashes(cli.cfg, old(cli.state), contour))
    ensures old(cli.Calm()) ==> (outcome.Panicked? <==> i == ENVOY_SERVICE && ComparisonCrashes(cli.cfg, old(cli.state), contour))
  {
    hide Attributed, Legal, NoOrphans, OneOwner, Versioned, WellKinded, Evolves, KeyAt, Attempt, Reached, Settled,
      Prepared, ComparisonCrashes;
    if i == DEPLOYMENT {
      outcome := EnsureDeployment(cli, contour);
    } else if i == ENVOY_SERVICE {
      outcome := EnsureEnvoyService(cli, contour);
    } else {
      var err;
      if i == JOB {
        err := EnsureJob(cli, contour);
      } else if i == DAEMONSET {
        err := EnsureDaemonSet(cli, contour);
      } else {
        err := EnsureObject(cli, contour, i, Desired(cli.cfg, contour, i));
      }
      outcome := Ran(err);
    }
  }

  /** Ensures the next workload of the pass that started in state s, and takes its result. */
  method EnsureNextWorkload(cli: Cluster, contour: Contour, i: nat, what: string, found: seq<Option<Error>>,
                            ghost s: State, ghost sofar: Account)
    returns (panicked: bool, errs: seq<Option<Error>>, ghost a: Account)
    requires AllWrapped(found) && (Combined(found).None? <==> AllFine(sofar.results))
    requires cli.Valid() && cli.WorksOn(contour) && FIRST_WORKLOAD <= i < CHILDREN && Standing(cli.cfg, cli.script, s, cli.state, contour, i, sofar, cli.clock)
    modifies cli`state, cli`clock, cli`log, cli`writes
    ensures cli.Advanced() && Attempts(cli.cfg, s, cli.state, contour, 0, i + 1)
    ensures !panicked ==> Standing(cli.cfg, cli.script, s, cli.state, contour, i + 1, a, cli.clock)
    ensures !panicked ==> sofar.marks != [] && a.marks != [] && a.marks[0] == sofar.marks[0]
    ensures !panicked ==> AllWrapped(errs) && (Combined(errs).None? <==> AllFine(a.results))
    ensures AllSettled(cli.cfg, s, contour, 0, CHILDREN) ==> cli.writes == old(cli.writes)
    ensures panicked <==> CrashesAt(cli.cfg, cli.script, old(cli.clock), s, contour, i)
    ensures old(cli.clock) < cli.clock
    ensures old(cli.Calm()) ==> OnlyObjects(old(cli.state), cli.state)
    ensures old(cli.Calm()) && AllReached(cli.cfg, s, old(cli.state), contour, 0, i) ==>
      AllReached(cli.cfg, s, cli.state, contour, 0, i + 1)
    ensures Faultless(cli.script, old(cli.clock), cli.clock) ==>
      && (AllReached(cli.cfg, s, old(cli.state), contour, 0, i) ==> AllReached(cli.cfg, s, cli.state, contour, 0, i + 1))
      && (panicked <==> i == ENVOY_SERVICE && ComparisonCrashes(cli.cfg, s, contour))
    ensures old(cli.Calm()) ==> (panicked <==> i == ENVOY_SERVICE && ComparisonCrashes(cli.cfg, s, contour))
  {
    hide Attributed, Legal, Inv, Evolves, KeyAt, Attempt, Attempts, Reached, Settled, AllSettled, Reports, Prepared,
      Combined, ComparisonCrashes, cli.Calm, AllReached, Faultless, Tenant, Ready, WellKinded, AllFine, AllWrapped,
      HandleResult;
    ghost var mid, clock := cli.state, cli.clock;
    NextPrepared(cli.cfg, cli.script, s, mid, contour, i, sofar, clock);
    if i == ENVOY_SERVICE {
      CrashesUnmoved(cli.cfg, s, mid, contour);
    }
    var outcome := EnsureWorkload(cli, contour, i);
    EvolvesTransitive(s, mid, cli.state);
    OneAttempt(cli.cfg, mid, cli.state, contour, i);
    AttemptsJoin(cli.cfg, s, mid, cli.state, contour, 0, i, i + 1);
    ReachedLate(cli.cfg, s, mid, cli.state, contour, i);
    if outcome.Panicked? {
      return true, found, sofar;
    }
    panicked, errs := false, HandleResult(found, what, outcome.err);
    a := Stepped(cli.cfg, cli.script, s, mid, cli.state, contour, i, sofar, clock, outcome.err, cli.clock);
  }

  lemma CrashesUnmoved(cfg: Config, s: State, t: State, contour: Contour)
    requires Attempts(cfg, s, t, contour, 0, ENVOY_SERVICE)
    ensures ComparisonCrashes(cfg, s, contour) <==> ComparisonCrashes(cfg, t, contour)
  {
    hide KeyAt;
    HereOutside(cfg, s, t, contour, 0, ENVOY_SERVICE, ENVOY_SERVICE);
  }

  ghost predicate AllFine(results: seq<Option<Error>>) {
    forall i :: 0 <= i < |results| ==> results[i] == None
  }

  lemma NothingWrong()
    ensures AllFine([])
  {
  }

  /** The turns at which a pass read the Deployment and the Envoy Service. */
  datatype Reads = Reads(deployed: nat, published: nat)

  /** A pass with these reads, on a Contour found in state s, ends the process: it could not read
      the Deployment, or it went on to read the Envoy Service and found too many ports there. */
  ghost predicate PassCrashes(cfg: Config, script: seq<Turn>, s: State, contour: Contour, seen: Reads) {
    FailsAt(script, seen.deployed) || (!FailsAt(script, seen.published) && ComparisonCrashes(cfg, s, contour))
  }

  ghost predicate ReadsWithin(script: seq<Turn>, seen: Reads, from: nat, until: nat) {
    from <= seen.deployed < until && (!FailsAt(script, seen.deployed) ==> seen.deployed < seen.published < until)
  }

  lemma Complete(cfg: Config, script: seq<Turn>, s: State, t: State, contour: Contour, a: Account, clock: nat)
    requires Standing(cfg, script, s, t, contour, CHILDREN, a, clock)
    ensures Reports(cfg, script, s, t, contour, CHILDREN, a) && |a.marks| == 7 && a.marks[6] == clock
  {
  }

  /** Ensures the six workloads one after the other; an error in one does not keep the others
      from being tried, a crash does. */
  method EnsureWorkloads(cli: Cluster, contour: Contour, found: seq<Option<Error>>, ghost s: State)
    returns (panicked: bool, errs: seq<Option<Error>>, ghost a: Account, ghost seen: Reads)
    requires cli.Valid() && cli.WorksOn(contour) && AllWrapped(found) && Combined(found).None?
    requires AllReached(cli.cfg, s, cli.state, contour, 0, FIRST_WORKLOAD)
    requires Standing(cli.cfg, cli.script, s, cli.state, contour, FIRST_WORKLOAD, Account([], [cli.clock]), cli.clock)
    modifies cli`state, cli`clock, cli`log, cli`writes
    ensures cli.Advanced() && Attempts(cli.cfg, s, cli.state, contour, 0, CHILDREN)
    ensures !panicked ==> Reports(cli.cfg, cli.script, s, cli.state, contour, CHILDREN, a)
    ensures !panicked ==> |a.marks| == 7 && a.marks[0] == old(cli.clock) && a.marks[6] == cli.clock
    ensures !panicked ==> AllWrapped(errs) && (Combined(errs).None? <==> AllFine(a.results))
    ensures AllSettled(cli.cfg, s, contour, 0, CHILDREN) ==> cli.writes == old(cli.writes)
    ensures ReadsWithin(cli.script, seen, old(cli.clock), cli.clock)
    ensures panicked <==> PassCrashes(cli.cfg, cli.script, s, contour, seen)
    ensures panicked ==> ComparisonCrashes(cli.cfg, s, contour) || !Faultless(cli.script, old(cli.clock), cli.clock)
    ensures Faultless(cli.script, old(cli.clock), cli.clock) ==>
      AllReached(cli.cfg, s, cli.state, contour, 0, CHILDREN) && (panicked <==> ComparisonCrashes(cli.cfg, s, contour))
    ensures old(cli.Calm()) ==> OnlyObjects(old(cli.state), cli.state)
    ensures old(cli.Calm()) ==> AllReached(cli.cfg, s, cli.state, contour, 0, CHILDREN)
    ensures old(cli.Calm()) ==> (panicked <==> ComparisonCrashes(cli.cfg, s, contour))
  {
    hide cli.Valid, Evolves, KeyAt, Attempts, Reached, Desired, AllSettled, Standing, Reports, AllWrapped, Combined,
      ComparisonCrashes, cli.Calm, AllReached, Faultless, HandleResult, AllFine;
    ghost var s0, s1, c0 := cli.state, cli.state, cli.clock;
    assert AllFine([]) by { NothingWrong(); }
    panicked, errs, a := EnsureNextWorkload(cli, contour, 10, "failed to ensure configmap", found, s, Account([], [cli.clock]));
    ghost var c1 := cli.clock;
    s1 := cli.state;
    panicked, errs, a := EnsureNextWorkload(cli, contour, JOB, "failed to ensure job", errs, s, a);
    ghost var c2 := cli.clock;
    EvolvesTransitive(s0, s1, cli.state);
    s1 := cli.state;
    seen := Reads(c2, c2);
    panicked, errs, a := EnsureNextWorkload(cli, contour, DEPLOYMENT, "failed to ensure deployment", errs, s, a);
    ghost var c3 := cli.clock;
    EvolvesTransitive(s0, s1, cli.state);
    if panicked {
      AttemptsWiden(cli.cfg, s, cli.state, contour, 0, DEPLOYMENT + 1, CHILDREN);
      FaultWidens(cli.script, c2, cli.clock, c0, cli.clock);
      return;
    }
    s1 := cli.state;
    panicked, errs, a := EnsureNextWorkload(cli, contour, DAEMONSET, "failed to ensure daemonset", errs, s, a);
    ghost var c4 := cli.clock;
    EvolvesTransitive(s0, s1, cli.state);
    s1 := cli.state;
    panicked, errs, a := EnsureNextWorkload(cli, contour, CONTOUR_SERVICE, "failed to ensure contour service", errs, s, a);
    ghost var c5 := cli.clock;
    EvolvesTransitive(s0, s1, cli.state);
    s1 := cli.state;
    // Every publishing type the API admits has an Envoy Service.
    seen := Reads(c2, c5);
    panicked, errs, a := EnsureNextWorkload(cli, contour, ENVOY_SERVICE, "failed to ensure envoy service", errs, s, a);
    EvolvesTransitive(s0, s1, cli.state);
    FaultWidens(cli.script, c0, c1, c0, cli.clock);
    FaultWidens(cli.script, c1, c2, c0, cli.clock);
    FaultWidens(cli.script, c2, c3, c0, cli.clock);
    FaultWidens(cli.script, c3, c4, c0, cli.clock);
    FaultWidens(cli.script, c4, c5, c0, cli.clock);
    FaultWidens(cli.script, c5, cli.clock, c0, cli.clock);
    if !panicked {
      Complete(cli.cfg, cli.script, s, cli.state, contour, a, cli.clock);
    }
  }

  // ---- The pass ------------------------------------------------------------------------------------

  /** An undisturbed pass ends with the status of the Contour computed from what the
      workloads report, written only if it says something new. */
  ghost predicate CalmStatus(cfg: Config, s: State, t: State, n: Name, writes: int, last: Option<Reading>) {
    && n in s.contours && last.Some?
    && var c, r := s.contours[n], last.value;
       && r.latest == c
       && r.deployment == HealthAt(t, KeyAt(cfg, c.spec.ns, DEPLOYMENT))
       && r.daemonSet == HealthAt(t, KeyAt(cfg, c.spec.ns, DAEMONSET))
       && var status := Synced(c.status, r.deployment, r.daemonSet, r.now);
          if ContourStatusChanged(c.status, status)
          then t == WithStatus(s.(objects := t.objects), n, status) && writes == 1
          else OnlyObjects(s, t) && writes == 0
  }

  lemma CalmSyncIsCalmStatus(cfg: Config, s: State, mid: State, t: State, contour: Contour, writes: int,
                             err: Option<Error>, last: Option<Reading>)
    requires CalmSync(cfg, mid, contour.name, t, writes, err, last)
    requires OnlyObjects(s, mid) && t.objects == mid.objects && Holds(s, contour.name, contour.spec.ns)
    ensures CalmStatus(cfg, s, t, contour.name, writes, last)
    ensures err.None? <==> Here(cfg, t, contour, DEPLOYMENT).Some? && Here(cfg, t, contour, DAEMONSET).Some?
  {
    hide KeyAt, Synced, ContourStatusChanged;
  }

  method SyncContourStatus(cli: Cluster, n: Name, found: seq<Option<Error>>, ghost from: nat)
    returns (err: Option<Error>, ghost syncErr: Option<Error>, ghost last: Option<Reading>, ghost readings: seq<Reading>,
             ghost written: Option<nat>)
    requires cli.Valid() && cli.WorksFor(n) && AllWrapped(found) && from < |cli.log|
    modifies cli`state, cli`clock, cli`log, cli`statusWrites, cli`contourSteps
    ensures cli.Advanced() && cli.state.objects == old(cli.state.objects)
    ensures err.None? <==> Combined(found).None? && syncErr.None?
    ensures old(cli.clock) < cli.clock
    ensures syncErr.None? <==> AllRead(readings) && !FailsAt(cli.script, cli.clock - 1)
    ensures err.None? || Faultless(cli.script, old(cli.clock), cli.clock) ==> StatusDone(cli.cfg, cli.script, cli.log, from, n)
    ensures SyncReadings(cli.cfg, cli.script, cli.log, from, n, readings) && last == LastOf(readings)
    ensures cli.statusWrites == old(cli.statusWrites) + NewsCount(readings)
    ensures Recorded(cli.log, |old(cli.log)|, n, readings, written)
    ensures cli.contourSteps == old(cli.contourSteps) + if written.Some? then 1 else 0
    ensures !Classify(err).Later?
    ensures old(cli.Calm()) ==>
      CalmSync(cli.cfg, old(cli.state), n, cli.state, cli.statusWrites - old(cli.statusWrites), syncErr, last)
  {
    hide Attributed, Legal, Inv, Evolves, Combined, AllWrapped, CalmSync, HandleResult, cli.Calm, Attempted,
      SyncReadings, LastOf, NewsCount;
    ghost var attempts;
    var e;
    e, attempts, written, last, readings := SyncContour(cli, n);
    AttemptedIsRead(cli.cfg, cli.script, cli.log, |old(cli.log)| - 1, from, old(cli.clock), n, readings);
    if written.Some? {
      assert Writes(cli.log, written.value, n, last.value) && Written(cli.log, n, last.value);
    }
    syncErr := e;
    SomeReading(readings);
    StatusDoneSince(cli, |old(cli.log)| - 1, from, n);
    var errs := HandleResult(found, "failed to sync status", e);
    err := NewMaybeRetryableAggregate(errs);
    WrappingHidesRetry(errs);
  }

  /** Attempts that are followed by a step that leaves objects alone. */
  lemma AttemptsUnmoved(cfg: Config, s: State, t: State, u: State, contour: Contour, lo: nat, hi: nat)
    requires lo <= hi && Attempts(cfg, s, t, contour, lo, hi) && u.objects == t.objects
    ensures Attempts(cfg, s, u, contour, lo, hi)
    ensures AllReached(cfg, s, t, contour, lo, hi) ==> AllReached(cfg, s, u, contour, lo, hi)
  {
    NoAttempts(cfg, t, u, contour, hi);
    AttemptsJoin(cfg, s, t, u, contour, lo, hi, hi);
  }

  lemma ReportsUnmoved(cfg: Config, script: seq<Turn>, s: State, t: State, u: State, contour: Contour, a: Account)
    requires Attempts(cfg, s, t, contour, 0, CHILDREN) && u.objects == t.objects
    requires Reports(cfg, script, s, t, contour, CHILDREN, a)
    ensures Reports(cfg, script, s, u, contour, CHILDREN, a)
    ensures AllFine(a.results) ==> AllReached(cfg, s, u, contour, 0, CHILDREN)
  {
    hide KeyAt, Faultless, Attempts, Reached;
    AttemptsWellKinded(cfg, s, t, contour, 0, CHILDREN);
    NoAttempts(cfg, t, u, contour, CHILDREN);
    forall j | 0 <= j < CHILDREN && Reached(cfg, s, t, contour, j) ensures Reached(cfg, s, u, contour, j) {
      ReachedOutside(cfg, s, t, u, contour, CHILDREN, CHILDREN, j);
    }
    forall j | FIRST_WORKLOAD <= j < CHILDREN ensures Accounted(cfg, script, s, u, contour, a, j) {
      assert Accounted(cfg, script, s, t, contour, a, j);
    }
    if AllFine(a.results) {
      forall j | 0 <= j < CHILDREN ensures Reached(cfg, s, u, contour, j) {
        if j < FIRST_WORKLOAD {
          assert Reached(cfg, s, t, contour, j);
        } else {
          assert Accounted(cfg, script, s, u, contour, a, j);
        }
      }
    }
  }

  /** Without faults no workload reports an error. */
  lemma FaultlessIsFine(cfg: Config, script: seq<Turn>, s: State, t: State, contour: Contour, a: Account)
    requires Reports(cfg, script, s, t, contour, CHILDREN, a) && Faultless(script, a.marks[0], a.marks[6])
    ensures AllFine(a.results)
  {
    hide Reached;
    assert forall j :: FIRST_WORKLOAD <= j < CHILDREN ==> Accounted(cfg, script, s, t, contour, a, j);
    forall i | 0 <= i < 6 ensures a.marks[i] <= a.marks[i + 1] {
      assert Accounted(cfg, script, s, t, contour, a, i + FIRST_WORKLOAD);
    }
    var m := a.marks;
    assert m[0] <= m[0 + 1] <= m[1 + 1] <= m[2 + 1] <= m[3 + 1] <= m[4 + 1] <= m[5 + 1];
    forall i | 0 <= i < 6 ensures a.results[i] == None {
      assert Accounted(cfg, script, s, t, contour, a, i + FIRST_WORKLOAD);
      FaultWidens(script, m[i], m[i + 1], m[0], m[6]);
    }
  }

  lemma CalmFaultless(cli: Cluster)
    ensures cli.Calm() ==> forall until :: Faultless(cli.script, cli.clock, until)
  {
  }

  lemma StatusDoneSince(cli: Cluster, from: nat, earlier: nat, n: Name)
    requires earlier <= from
    ensures StatusDone(cli.cfg, cli.script, cli.log, from, n) ==> StatusDone(cli.cfg, cli.script, cli.log, earlier, n)
  {
    hide StatusDone;
    if StatusDone(cli.cfg, cli.script, cli.log, from, n) {
      StatusDoneLater(cli.cfg, cli.script, cli.log, cli.log, from, earlier, n);
    }
  }

  lemma TenantHolds(s: State, contour: Contour)
    requires Tenant(s, contour)
    ensures Holds(s, contour.name, contour.spec.ns)
  {
  }

  lemma NothingFound()
    ensures AllWrapped([]) && Combined([]).None?
  {
  }

  /** With the namespace and RBAC ensured, the workloads may follow. */
  lemma GateOpen(cfg: Config, script: seq<Turn>, s: State, t: State, contour: Contour, clock: nat)
    requires Attempts(cfg, s, t, contour, 0, FIRST_WORKLOAD) && AllReached(cfg, s, t, contour, 0, FIRST_WORKLOAD)
    requires Evolves(s, t) && Tenant(s, contour)
    ensures Standing(cfg, script, s, t, contour, FIRST_WORKLOAD, Account([], [clock]), clock)
  {
    hide KeyAt, Reached, Tenant, Attempts, Evolves;
    AttemptsKeepTenant(cfg, s, t, contour, 0, FIRST_WORKLOAD);
    forall i | 0 <= i < FIRST_WORKLOAD ensures KeyAt(cfg, contour.spec.ns, i) in t.objects {
      assert Reached(cfg, s, t, contour, i);
      ReachedExists(cfg, s, t, contour, i);
    }
  }

  /** The results of the namespace and of RBAC, the turn at which the one ended and the other
      began, and the first RBAC object not attempted. */
  datatype Base = Base(namespace: Option<Error>, rbac: Option<Error>, mark: nat, done: nat)

  /** Each of the two is where it should be if its own calls did not fail, or if no error was
      reported for it, whatever happened to the other; RBAC objects after the first failure
      are as they were. */
  ghost predicate Founded(cfg: Config, script: seq<Turn>, s: State, t: State, contour: Contour, b: Base, from: nat, until: nat) {
    && from <= b.mark <= until && 1 < b.done <= FIRST_WORKLOAD
    && (Faultless(script, from, b.mark) ==> b.namespace.None?)
    && (Faultless(script, b.mark, until) ==> b.rbac.None?)
    && (b.namespace.None? ==> Reached(cfg, s, t, contour, 0)) && (b.rbac.None? ==> b.done == FIRST_WORKLOAD)
    && AllReached(cfg, s, t, contour, 1, if b.rbac.None? then FIRST_WORKLOAD else b.done - 1)
  }

  /** Ensures the namespace, then RBAC whatever became of the namespace. */
  method EnsureFoundation(cli: Cluster, contour: Contour) returns (errs: seq<Option<Error>>, ghost b: Base)
    requires cli.Valid() && cli.WorksOn(contour)
    modifies cli`state, cli`clock, cli`log, cli`writes
    ensures cli.Advanced() && Attempts(cli.cfg, old(cli.state), cli.state, contour, 0, FIRST_WORKLOAD)
    ensures b.done <= FIRST_WORKLOAD && Attempts(cli.cfg, old(cli.state), cli.state, contour, 0, b.done)
    ensures Founded(cli.cfg, cli.script, old(cli.state), cli.state, contour, b, old(cli.clock), cli.clock)
    ensures AllWrapped(errs) && (errs == [] <==> Combined(errs).None?)
    ensures errs == [] <==> b.namespace.None? && b.rbac.None?
    ensures old(cli.clock) < cli.clock
    ensures errs == [] ==> AllReached(cli.cfg, old(cli.state), cli.state, contour, 0, FIRST_WORKLOAD)
    ensures b.rbac.None? ==> Granted(cli.state.objects, contour.name, contour.spec.ns)
    ensures Faultless(cli.script, old(cli.clock), cli.clock) ==> errs == []
    ensures AllSettled(cli.cfg, old(cli.state), contour, 0, CHILDREN) ==> cli.writes == old(cli.writes)
    ensures old(cli.Calm()) ==> errs == [] && OnlyObjects(old(cli.state), cli.state)
  {
    hide cli.Valid, Evolves, KeyAt, Attempt, Attempts, Reached, Desired, Settled, AllWrapped, Combined, cli.Calm,
      AllReached, Faultless, HandleResult, Here;
    ghost var s, start := cli.state, cli.clock;
    NothingFound();
    var err := EnsureObject(cli, contour, 0, Desired(cli.cfg, contour, 0));
    ghost var nsErr := err;
    errs := HandleResult([], "failed to ensure namespace", err);
    ghost var s1, c1 := cli.state, cli.clock;
    OneAttempt(cli.cfg, s, s1, contour, 0);
    if AllSettled(cli.cfg, s, contour, 0, CHILDREN) {
      SettledOutside(cli.cfg, s, s1, contour, 0, 1, CHILDREN);
    }
    ghost var done;
    err, done := EnsureRBAC(cli, contour);
    errs := HandleResult(errs, "failed to ensure rbac", err);
    EvolvesTransitive(s, s1, cli.state);
    b := Base(nsErr, err, c1, done);
    FoundationJoins(cli.cfg, s, s1, cli.state, contour, b);
    FaultWidens(cli.script, start, c1, start, cli.clock);
    FaultWidens(cli.script, c1, cli.clock, start, cli.clock);
  }

  lemma FoundationJoins(cfg: Config, s: State, mid: State, t: State, contour: Contour, b: Base)
    requires Attempts(cfg, s, mid, contour, 0, 1) && Attempts(cfg, mid, t, contour, 1, b.done) && 1 < b.done <= FIRST_WORKLOAD
    requires b.namespace.None? ==> Reached(cfg, s, mid, contour, 0)
    requires AllReached(cfg, mid, t, contour, 1, if b.rbac.None? then b.done else b.done - 1)
    requires b.rbac.None? ==> b.done == FIRST_WORKLOAD
    ensures Attempts(cfg, s, t, contour, 0, b.done) && Attempts(cfg, s, t, contour, 0, FIRST_WORKLOAD)
    ensures b.namespace.None? ==> Reached(cfg, s, t, contour, 0)
    ensures AllReached(cfg, s, t, contour, 1, if b.rbac.None? then FIRST_WORKLOAD else b.done - 1)
    ensures b.namespace.None? && b.rbac.None? ==> AllReached(cfg, s, t, contour, 0, FIRST_WORKLOAD)
  {
    hide KeyAt, Next, Here, Reached, Attempts;
    AttemptsJoin(cfg, s, mid, t, contour, 0, 1, b.done);
    AttemptsWiden(cfg, s, t, contour, 0, b.done, FIRST_WORKLOAD);
    if b.namespace.None? {
      ReachedOutside(cfg, s, mid, t, contour, 1, b.done, 0);
    }
    forall j | 1 <= j < b.done && Reached(cfg, mid, t, contour, j) ensures Reached(cfg, s, t, contour, j) {
      ReachedSince(cfg, s, mid, t, contour, 0, 1, j);
    }
  }

  lemma ReachedSince(cfg: Config, s: State, mid: State, t: State, contour: Contour, lo: nat, hi: nat, j: nat)
    requires Attempts(cfg, s, mid, contour, lo, hi) && !(lo <= j < hi) && Reached(cfg, mid, t, contour, j)
    ensures Reached(cfg, s, t, contour, j)
  {
    hide KeyAt, Next;
    HereOutside(cfg, s, mid, contour, lo, hi, j);
  }

  /** The results of a whole pass: the foundation's, with the turn at which it ended, the
      workloads' if they were tried, the status sync's, and the turn at which that began; and
      the reads that may end the process, if it got as far as the workloads. */
  datatype Pass = Pass(
    base: Base,
    mark: nat,
    account: Option<Account>,
    syncErr: Option<Error>,
    synced: nat,
    seen: Option<Reads>)

  ghost predicate PassFine(pass: Pass) {
    && pass.base.namespace.None? && pass.base.rbac.None?
    && pass.account.Some? && AllFine(pass.account.value.results) && pass.syncErr.None?
  }

  /** Ensures everything the Contour needs, then its status. No workload is touched unless the
      namespace and all RBAC objects were ensured; past that gate each workload is tried
      whatever became of the others. The result is nil exactly if every step succeeded. */
  method EnsureContour(cli: Cluster, contour: Contour)
    returns (outcome: Outcome, ghost pass: Pass, ghost last: Option<Reading>, ghost readings: seq<Reading>,
             ghost written: Option<nat>)
    requires cli.Valid() && cli.WorksOn(contour) && Tenant(cli.state, contour)
    modifies cli`state, cli`clock, cli`log, cli`writes, cli`statusWrites, cli`contourSteps
    ensures cli.Advanced() && Attempts(cli.cfg, old(cli.state), cli.state, contour, 0, CHILDREN)
    ensures old(cli.clock) < cli.clock
    ensures outcome.Ran? ==> !Classify(outcome.err).Later?
    ensures outcome.Ran? ==> (outcome.err.None? <==> PassFine(pass))
    ensures outcome.Ran? ==> (pass.syncErr.None? <==> AllRead(readings) && !FailsAt(cli.script, cli.clock - 1))
    ensures pass.seen.Some? <==> pass.base.namespace.None? && pass.base.rbac.None?
    ensures pass.seen.Some? ==> ReadsWithin(cli.script, pass.seen.value, old(cli.clock), cli.clock)
    ensures outcome.Panicked? <==>
      pass.seen.Some? && PassCrashes(cli.cfg, cli.script, old(cli.state), contour, pass.seen.value)
    ensures outcome == Ran(None) ==> AllReached(cli.cfg, old(cli.state), cli.state, contour, 0, CHILDREN)
    ensures outcome.Ran? ==> old(cli.clock) <= pass.mark <= pass.synced <= cli.clock
    ensures outcome.Ran? ==>
      Founded(cli.cfg, cli.script, old(cli.state), cli.state, contour, pass.base, old(cli.clock), pass.mark)
    ensures outcome.Ran? ==> (pass.account.Some? <==> pass.base.namespace.None? && pass.base.rbac.None?)
    ensures outcome.Ran? && pass.account.None? ==>
      pass.synced == pass.mark && pass.base.done <= FIRST_WORKLOAD && Attempts(cli.cfg, old(cli.state), cli.state, contour, 0, pass.base.done)
    ensures outcome.Ran? && pass.account.Some? ==>
      && Reports(cli.cfg, cli.script, old(cli.state), cli.state, contour, CHILDREN, pass.account.value)
      && pass.account.value.marks[0] == pass.mark && pass.account.value.marks[6] == pass.synced
    ensures outcome.Ran? && (outcome.err.None? || Faultless(cli.script, pass.synced, cli.clock)) ==>
      StatusDone(cli.cfg, cli.script, cli.log, |old(cli.log)| - 1, contour.name)
    ensures SyncReadings(cli.cfg, cli.script, cli.log, |old(cli.log)| - 1, contour.name, readings) && last == LastOf(readings)
    ensures cli.statusWrites == old(cli.statusWrites) + NewsCount(readings)
    ensures Recorded(cli.log, |old(cli.log)|, contour.name, readings, written)
    ensures cli.contourSteps == old(cli.contourSteps) + if written.Some? then 1 else 0
    ensures AllSettled(cli.cfg, old(cli.state), contour, 0, CHILDREN) ==> cli.writes == old(cli.writes)
    ensures outcome.Panicked? ==>
      ComparisonCrashes(cli.cfg, old(cli.state), contour) || !Faultless(cli.script, old(cli.clock), cli.clock)
    ensures Faultless(cli.script, old(cli.clock), cli.clock) ==>
      && AllReached(cli.cfg, old(cli.state), cli.state, contour, 0, CHILDREN)
      && (outcome.Panicked? <==> ComparisonCrashes(cli.cfg, old(cli.state), contour))
    ensures old(cli.Calm()) ==> AllReached(cli.cfg, old(cli.state), cli.state, contour, 0, CHILDREN)
    ensures old(cli.Calm()) ==> (outcome.Panicked? <==> ComparisonCrashes(cli.cfg, old(cli.state), contour))
    ensures old(cli.Calm()) && outcome.Panicked? ==>
      OnlyObjects(old(cli.state), cli.state) && cli.statusWrites == old(cli.statusWrites)
    ensures old(cli.Calm()) && outcome.Ran? ==>
      && CalmStatus(cli.cfg, old(cli.state), cli.state, contour.name, cli.statusWrites - old(cli.statusWrites), last)
      && (outcome.err.None? <==>
            Here(cli.cfg, cli.state, contour, DEPLOYMENT).Some? && Here(cli.cfg, cli.state, contour, DAEMONSET).Some?)
  {
    hide cli.Valid, Evolves, KeyAt, Attempt, Attempts, Reached, Desired, Settled, Standing, Reports, AllWrapped,
      Combined, ComparisonCrashes, cli.Calm, AllReached, Faultless, HandleResult, CalmSync, CalmStatus, AllFine,
      Tenant, Here, StatusDone, Founded, SyncReadings, LastOf, NewsCount, PassCrashes,
      AllRead, FailsAt, Granted;
    NothingFound();
    NoReading();
    Begun(cli);
    ghost var s, start, from := cli.state, cli.clock, |cli.log| - 1;
    CalmFaultless(cli);
    last, readings, written := None, [], None;
    var err, errs;
    ghost var syncErr, b;
    errs, b := EnsureFoundation(cli, contour);
    ghost var s2, c2 := cli.state, cli.clock;
    pass := Pass(b, c2, None, None, c2, None);
    if errs != [] {
      err, syncErr, last, readings, written := SyncContourStatus(cli, contour.name, errs, from);
      EvolvesTransitive(s, s2, cli.state);
      FoundedUnmoved(cli.cfg, cli.script, s, s2, cli.state, contour, b, start, c2);
      AttemptsWiden(cli.cfg, s, cli.state, contour, 0, b.done, CHILDREN);
      FaultWidens(cli.script, start, c2, start, cli.clock);
      pass := pass.(syncErr := syncErr);
      return Ran(err), pass, last, readings, written;
    }
    GateOpen(cli.cfg, cli.script, s, s2, contour, cli.clock);
    var panicked;
    ghost var account, seen;
    panicked, errs, account, seen := EnsureWorkloads(cli, contour, errs, s);
    pass := pass.(seen := Some(seen));
    ghost var s3, c3 := cli.state, cli.clock;
    EvolvesTransitive(s, s2, s3);
    if panicked {
      FaultWidens(cli.script, c2, cli.clock, start, cli.clock);
      NothingRead(cli.cfg, cli.script, cli.log, from, contour.name);
      return Panicked, pass, last, readings, written;
    }
    err, syncErr, last, readings, written := SyncContourStatus(cli, contour.name, errs, from);
    pass := Pass(b, c2, Some(account), syncErr, c3, Some(seen));
    EvolvesTransitive(s, s3, cli.state);
    AttemptsUnmoved(cli.cfg, s, s3, cli.state, contour, 0, CHILDREN);
    ReportsUnmoved(cli.cfg, cli.script, s, s3, cli.state, contour, account);
    FoundedKept(cli.cfg, cli.script, s, s2, cli.state, contour, b, account, start, c2);
    FaultWidens(cli.script, c2, c3, start, cli.clock);
    if old(cli.Calm()) {
      FaultlessIsFine(cli.cfg, cli.script, s, s3, contour, account);
      TenantHolds(s, contour);
      CalmSyncIsCalmStatus(cli.cfg, s, s3, cli.state, contour, cli.statusWrites - old(cli.statusWrites), syncErr, last);
    }
    outcome := Ran(err);
  }

  lemma NothingRead(cfg: Config, script: seq<Turn>, log: seq<Record>, from: nat, n: Name)
    ensures SyncReadings(cfg, script, log, from, n, [])
  {
  }

  lemma FoundedUnmoved(cfg: Config, script: seq<Turn>, s: State, t: State, u: State, contour: Contour, b: Base, from: nat, until: nat)
    requires Founded(cfg, script, s, t, contour, b, from, until) && u.objects == t.objects
    requires Attempts(cfg, s, t, contour, 0, b.done)
    ensures Founded(cfg, script, s, u, contour, b, from, until)
    ensures Attempts(cfg, s, u, contour, 0, b.done)
  {
    hide KeyAt, Reached, Attempts, Faultless;
    AttemptsUnmoved(cfg, s, t, u, contour, 0, b.done);
    AttemptsWellKinded(cfg, s, t, contour, 0, b.done);
    NoAttempts(cfg, t, u, contour, b.done);
    forall j | 0 <= j < b.done && Reached(cfg, s, t, contour, j) ensures Reached(cfg, s, u, contour, j) {
      ReachedOutside(cfg, s, t, u, contour, b.done, b.done, j);
    }
  }

  /** A foundation without errors is what the whole pass says about the first ten children. */
  lemma FoundedKept(cfg: Config, script: seq<Turn>, s: State, t: State, u: State, contour: Contour, b: Base, a: Account,
                    from: nat, until: nat)
    requires Founded(cfg, script, s, t, contour, b, from, until) && b.namespace.None? && b.rbac.None?
    requires Reports(cfg, script, s, u, contour, CHILDREN, a)
    ensures Founded(cfg, script, s, u, contour, b, from, until)
  {
    hide Reached, Faultless, Accounted;
    assert AllReached(cfg, s, u, contour, 0, FIRST_WORKLOAD);
  }
}
