/** Keeping a Contour's status up to date (internal/status/status.go). */
module StatusSync {
  import opened Wrappers
  import opened Api
  import opened Equality
  import opened Children
  import opened Protocol
  import opened Cluster
  import opened Conditions
  import opened Retryable

  /** The status after a sync that read these healths; a workload that could not be read
      leaves its count alone. */
  function Synced(status: Status, deployment: Option<Health>, daemonSet: Option<Health>, now: int): Status {
    Status(if deployment.Some? then deployment.value.available else status.availableContours,
           if daemonSet.Some? then daemonSet.value.available else status.availableEnvoys,
           Merge1(status.conditions, AvailableCondition(deployment, daemonSet, now)))
  }

  ghost predicate CountsDiffer(status: Status, deployment: Option<Health>, daemonSet: Option<Health>) {
    || (deployment.Some? && deployment.value.available != status.availableContours)
    || (daemonSet.Some? && daemonSet.value.available != status.availableEnvoys)
  }

  ghost predicate AvailableUpToDate(conds: seq<Condition>, fresh': Condition) {
    exists i :: 0 <= i < |conds| && conds[i].kind == AVAILABLE
                && conds[i].status == fresh'.status && conds[i].reason == fresh'.reason && conds[i].message == fresh'.message
  }

  /** A sync writes exactly when a count differs, or the stored Available entry is missing or
      says something else; the time of the sync plays no part. */
  lemma SyncWritesIff(status: Status, deployment: Option<Health>, daemonSet: Option<Health>, now: int)
    requires UniqueKinds(status.conditions)
    ensures ContourStatusChanged(status, Synced(status, deployment, daemonSet, now)) <==>
      CountsDiffer(status, deployment, daemonSet)
      || !AvailableUpToDate(status.conditions, AvailableCondition(deployment, daemonSet, 0))
  {
    var now', conds := AvailableCondition(deployment, daemonSet, now), status.conditions;
    SameButTime(deployment, daemonSet, now, 0);
    MergeChangesIff(conds, now');
    if AvailableUpToDate(conds, now') {
      var i :| 0 <= i < |conds| && conds[i].kind == AVAILABLE
               && conds[i].status == now'.status && conds[i].reason == now'.reason && conds[i].message == now'.message;
      assert Matches(conds[i], now') && !ConditionChanged(conds[i], now');
    }
  }

  lemma SameButTime(deployment: Option<Health>, daemonSet: Option<Health>, now: int, then': int)
    ensures AvailableCondition(deployment, daemonSet, now).(transitionTime := then') == AvailableCondition(deployment, daemonSet, then')
    ensures AvailableCondition(deployment, daemonSet, now).kind == AVAILABLE
  {
    if deployment.Some? && daemonSet.Some? {
      FirstVerdictTime(deployment.value.conditions, daemonSet.value.available > 0, now, then');
    }
  }

  lemma {:induction false} FirstVerdictTime(conds: seq<DeploymentCondition>, envoys: bool, now: int, then': int)
    ensures FirstVerdict(conds, envoys, now).(transitionTime := then') == FirstVerdict(conds, envoys, then')
    ensures FirstVerdict(conds, envoys, now).kind == AVAILABLE
  {
    hide Conditions.Verdict;
    if conds != [] {
      FirstVerdictTime(conds[1..], envoys, now, then');
      VerdictTime(conds[0], envoys, now, then');
    }
  }

  lemma VerdictTime(cond: DeploymentCondition, envoys: bool, now: int, then': int)
    ensures match Conditions.Verdict(cond, envoys, now)
            case None => Conditions.Verdict(cond, envoys, then') == None
            case Some(c) => c.kind == AVAILABLE && Conditions.Verdict(cond, envoys, then') == Some(c.(transitionTime := then'))
  {
    hide ToLower;
  }

  lemma SyncedMerges(status: Status, deployment: Option<Health>, daemonSet: Option<Health>, now: int)
    ensures var update := AvailableCondition(deployment, daemonSet, now);
      update.kind == AVAILABLE && Synced(status, deployment, daemonSet, now).conditions == Merge1(status.conditions, update)
  {
    SameButTime(deployment, daemonSet, now, now);
  }

  /** A second sync with the same readings writes nothing. */
  lemma SyncSettles(status: Status, deployment: Option<Health>, daemonSet: Option<Health>, now: int, later: int)
    requires UniqueKinds(status.conditions)
    ensures var once := Synced(status, deployment, daemonSet, now);
      !ContourStatusChanged(once, Synced(once, deployment, daemonSet, later)) && UniqueKinds(once.conditions)
  {
    var update, update' := AvailableCondition(deployment, daemonSet, now), AvailableCondition(deployment, daemonSet, later);
    var conds := status.conditions;
    var once := Merge1(conds, update);
    SameButTime(deployment, daemonSet, now, later);
    MergeKeepsUnique(conds, update);
    UniqueKindsStale(conds, update);
    MergeIdempotentIff(conds, update);
    MergeChangesIff(once, update);
    var i :| 0 <= i < |once| && Matches(once[i], update) && !ConditionChanged(once[i], update);
    assert Matches(once[i], update') && !ConditionChanged(once[i], update');
    MergeChangesIff(once, update');
  }

  // ---- The loop ----------------------------------------------------------------------------------

  /** What one attempt read, and where in the log; turn is that of its first call. */
  datatype Reading = Reading(
    turn: nat,
    latestAt: nat, latest: Contour,
    deploymentAt: nat, deployment: Option<Health>,
    daemonSetAt: nat, daemonSet: Option<Health>,
    now: int)

  /** A health is what was there; nothing was read only if nothing was there or the call failed. */
  ghost predicate TrueHealth(script: seq<Turn>, log: seq<Record>, at: nat, turn: nat, key: Key, health: Option<Health>) {
    && at < |log|
    && (health.Some? ==> key in log[at].state.objects && health.value == HealthOf(log[at].state, key))
    && (health.None? ==> key !in log[at].state.objects || FailsAt(script, turn))
  }

  function TimeAt(script: seq<Turn>, turn: nat): int {
    if turn < |script| then script[turn].time else 0
  }

  /** The reading is what the store held, at moments of the log after position from. */
  ghost predicate Truthful(cfg: Config, script: seq<Turn>, log: seq<Record>, from: nat, n: Name, r: Reading) {
    && from <= r.latestAt <= r.deploymentAt <= r.daemonSetAt < |log|
    && At(log[r.latestAt].state.contours, n) == Some(r.latest)
    && TrueHealth(script, log, r.deploymentAt, r.turn + 1, KeyAt(cfg, r.latest.spec.ns, DEPLOYMENT), r.deployment)
    && TrueHealth(script, log, r.daemonSetAt, r.turn + 2, KeyAt(cfg, r.latest.spec.ns, DAEMONSET), r.daemonSet)
    && r.now == TimeAt(script, r.turn + 3)
  }

  /** Entry k of the log writes the status this reading calls for, onto the very Contour that
      was read: nobody's change to it is lost. */
  ghost predicate Writes(log: seq<Record>, k: nat, n: Name, r: Reading) {
    && 0 < k < |log| && r.daemonSetAt < k && log[k].event == StatusUpdate(n, AvailableCondition(r.deployment, r.daemonSet, r.now))
    && At(log[k - 1].state.contours, n) == Some(r.latest)
    && log[k].state == WithStatus(log[k - 1].state, n, Synced(r.latest.status, r.deployment, r.daemonSet, r.now))
  }

  /** In some state since position from, the Contour was not there. */
  ghost predicate Vanished(log: seq<Record>, from: nat, n: Name) {
    exists m :: from <= m < |log| && n !in log[m].state.contours
  }

  lemma VanishedLater(log: seq<Record>, later: seq<Record>, from: nat, earlier: nat, n: Name)
    requires Vanished(log, from, n) && log <= later && earlier <= from
    ensures Vanished(later, earlier, n)
  {
    var m :| from <= m < |log| && n !in log[m].state.contours;
    assert later[m] == log[m];
  }

  lemma VanishedNow(log: seq<Record>, later: seq<Record>, from: nat, n: Name)
    requires from < |log| && log <= later && n !in log[|log| - 1].state.contours
    ensures Vanished(later, from, n)
  {
    assert later[|log| - 1] == log[|log| - 1];
  }

  /** The stored status already said what this reading calls for. */
  ghost predicate NothingNew(last: Option<Reading>) {
    last.Some? && !ContourStatusChanged(last.value.latest.status,
                                        Synced(last.value.latest.status, last.value.deployment, last.value.daemonSet, last.value.now))
  }

  /** Since position from, the status was brought up to date with what the workloads reported,
      or found to be, or the Contour went. */
  ghost predicate StatusDone(cfg: Config, script: seq<Turn>, log: seq<Record>, from: nat, n: Name) {
    || Vanished(log, from, n)
    || exists r: Reading :: Truthful(cfg, script, log, from, n, r) && (NothingNew(Some(r)) || Written(log, n, r))
  }

  ghost predicate Written(log: seq<Record>, n: Name, r: Reading) {
    exists k :: Writes(log, k, n, r)
  }

  lemma StatusDoneLater(cfg: Config, script: seq<Turn>, log: seq<Record>, later: seq<Record>, from: nat, earlier: nat, n: Name)
    requires StatusDone(cfg, script, log, from, n) && log <= later && earlier <= from
    ensures StatusDone(cfg, script, later, earlier, n)
  {
    hide KeyAt, Truthful, Writes, NothingNew, Vanished;
    if Vanished(log, from, n) {
      VanishedLater(log, later, from, earlier, n);
    } else {
      var r: Reading :| Truthful(cfg, script, log, from, n, r) && (NothingNew(Some(r)) || Written(log, n, r));
      TruthfulLater(cfg, script, log, later, from, earlier, n, r);
      if Written(log, n, r) {
        var k: nat :| Writes(log, k, n, r);
        WritesLater(log, later, k, n, r);
      }
    }
  }

  /** How many turns from here on touch the Contour: the conflicts other writers can cause. */
  ghost function Disturbances(script: seq<Turn>, from: nat, n: Name): nat
    decreases |script| - from
  {
    if from >= |script| then 0
    else (if Touches(script[from].acts, n) then 1 else 0) + Disturbances(script, from + 1, n)
  }

  lemma {:induction false} DisturbancesShrink(script: seq<Turn>, from: nat, later: nat, n: Name)
    requires from <= later
    ensures Disturbances(script, later, n) <= Disturbances(script, from, n)
    decreases later - from
  {
    if from < later {
      DisturbancesShrink(script, from + 1, later, n);
    }
  }

  function HealthAt(s: State, key: Key): Option<Health> {
    if key in s.objects then Some(HealthOf(s, key)) else None
  }

  /** An undisturbed sync: what it reads is what is there, and it writes at most once. */
  ghost predicate CalmSync(cfg: Config, s: State, n: Name, t: State, writes: int, err: Option<Error>, last: Option<Reading>) {
    if n !in s.contours then t == s && writes == 0 && err.None?
    else
      var c := s.contours[n];
      && last.Some? && last.value.latest == c
      && last.value.deployment == HealthAt(s, KeyAt(cfg, c.spec.ns, DEPLOYMENT))
      && last.value.daemonSet == HealthAt(s, KeyAt(cfg, c.spec.ns, DAEMONSET))
      && (err.None? <==> last.value.deployment.Some? && last.value.daemonSet.Some?)
      && var status := Synced(c.status, last.value.deployment, last.value.daemonSet, last.value.now);
         if ContourStatusChanged(c.status, status) then t == WithStatus(s, n, status) && writes == 1
         else t == s && writes == 0
  }

  lemma CalmAbsent(cfg: Config, s: State, n: Name)
    requires n !in s.contours
    ensures CalmSync(cfg, s, n, s, 0, None, None)
  {
  }

  lemma CalmSynced(cfg: Config, s: State, n: Name, t: State, writes: int, err: Option<Error>, r: Reading, status: Status)
    requires At(s.contours, n) == Some(r.latest)
    requires r.deployment == HealthAt(s, KeyAt(cfg, r.latest.spec.ns, DEPLOYMENT))
    requires r.daemonSet == HealthAt(s, KeyAt(cfg, r.latest.spec.ns, DAEMONSET))
    requires err.None? <==> r.deployment.Some? && r.daemonSet.Some?
    requires status == Synced(r.latest.status, r.deployment, r.daemonSet, r.now)
    requires if ContourStatusChanged(r.latest.status, status) then t == WithStatus(s, n, status) && writes == 1
             else t == s && writes == 0
    ensures CalmSync(cfg, s, n, t, writes, err, Some(r))
  {
    hide KeyAt, ContourStatusChanged, Synced, HealthAt;
  }

  lemma TruthfulLater(cfg: Config, script: seq<Turn>, log: seq<Record>, later: seq<Record>, from: nat, earlier: nat, n: Name, r: Reading)
    requires Truthful(cfg, script, log, from, n, r) && log <= later && earlier <= from
    ensures Truthful(cfg, script, later, earlier, n, r)
  {
    hide KeyAt;
  }

  lemma WritesLater(log: seq<Record>, later: seq<Record>, k: nat, n: Name, r: Reading)
    requires Writes(log, k, n, r) && log <= later
    ensures Writes(later, k, n, r)
  {
  }

  lemma MovedMeansDisturbed(script: seq<Turn>, c: nat, n: Name)
    requires !Untouched(script, c, c + 3, n)
    ensures c < |script|
    ensures Disturbances(script, c + 4, n) + 1 <= Disturbances(script, c, n)
  {
    hide Touches;
    var t :| c <= t < c + 3 && t < |script| && Touches(script[t].acts, n);
    DisturbancesShrink(script, c, t, n);
    DisturbancesShrink(script, t + 1, c + 4, n);
  }

  lemma UntouchedSplit(script: seq<Turn>, c: nat, n: Name)
    ensures !Touches([], n)
    ensures Untouched(script, c, c + 3, n) <==>
      (c < |script| ==> !Touches(script[c].acts, n)) && Untouched(script, c + 1, c + 3, n)
  {
    hide Touches;
    assert !Touches([], n) by { NoActs(n); }
  }

  lemma NoActs(n: Name)
    ensures !Touches([], n)
  {
  }

  lemma WrittenHere(cfg: Config, script: seq<Turn>, before: seq<Record>, log: seq<Record>, mid: State, n: Name, r: Reading)
    requires Truthful(cfg, script, before, 0, n, r) && before <= log && |before| < |log|
    requires before[|before| - 1].state == mid && At(mid.contours, n) == Some(r.latest)
    requires log[|before|] ==
      Record(StatusUpdate(n, AvailableCondition(r.deployment, r.daemonSet, r.now)), WithStatus(mid, n, Synced(r.latest.status, r.deployment, r.daemonSet, r.now)))
    ensures Writes(log, |before|, n, r)
  {
    assert log[|before| - 1] == before[|before| - 1];
  }

  /** Merges the fresh condition into a deep copy of the stored ones. */
  method NewStatus(status: Status, deployment: Option<Health>, daemonSet: Option<Health>, now: int) returns (updated: Status)
    ensures updated == Synced(status, deployment, daemonSet, now)
  {
    updated := status;
    if deployment.Some? {
      updated := updated.(availableContours := deployment.value.available);
    }
    if daemonSet.Some? {
      updated := updated.(availableEnvoys := daemonSet.value.available);
    }
    var stored := status.conditions;
    var conditions := new Condition[|stored|](i requires 0 <= i < |stored| => stored[i]);
    assert conditions[..] == stored;
    var available := ComputeContourAvailableCondition(deployment, daemonSet, now);
    var merged := MergeConditions(conditions, [available]);
    MergedOne(stored, available);
    updated := updated.(conditions := merged[..]);
  }

  /** Reads the health of one workload of a Contour. */
  method ReadHealth(cli: Cluster, ns: string, i: nat, n: Name) returns (health: Option<Health>, err: Option<Error>)
    requires cli.Valid() && i < CHILDREN
    modifies cli`state, cli`clock, cli`log
    ensures cli.Advanced() && cli.clock == old(cli.clock) + 1 && cli.state.objects == old(cli.state.objects)
    ensures TrueHealth(cli.script, cli.log, |old(cli.log)| - 1, old(cli.clock), KeyAt(cli.cfg, ns, i), health)
    ensures err.None? <==> health.Some?
    ensures FailsAt(cli.script, old(cli.clock)) ==> health.None?
    ensures err.Some? ==> err.value.Wrapped?
    ensures !Touches(old(cli.Now()).acts, n) ==> At(cli.state.contours, n) == At(old(cli.state.contours), n)
    ensures old(cli.Calm()) ==>
      cli.state == old(cli.state) && cli.log == old(cli.log) && health == HealthAt(old(cli.state), KeyAt(cli.cfg, ns, i))
  {
    hide LegalAt, Inv, Evolves, KeyAt;
    var reply := cli.GetHealth(KeyAt(cli.cfg, ns, i));
    if reply.Found? {
      return Some(reply.value), None;
    }
    return None, Some(Wrapped("failed to get workload for status", Failure("get")));
  }

  /** A Contour that still has the version read has not changed. */
  lemma StillThatVersion(s: State, t: State, contour: Contour)
    requires contour.version <= s.version && Evolves(s, t) && At(s.contours, contour.name) == Some(contour)
    ensures contour.name in t.contours && t.contours[contour.name].version == contour.version ==>
      t.contours[contour.name] == contour
  {
  }

  /** Reads both workloads of the Contour just read; base is where in the log that was. */
  method Observe(cli: Cluster, latest: Contour, ghost base: nat)
    returns (deployment: Option<Health>, daemonSet: Option<Health>, errs: seq<Option<Error>>, ghost reading: Reading)
    requires cli.Valid() && base < |cli.log| && cli.clock > 0
    requires At(cli.log[base].state.contours, latest.name) == Some(latest)
    modifies cli`state, cli`clock, cli`log
    ensures cli.Advanced() && cli.clock == old(cli.clock) + 2 && cli.state.objects == old(cli.state.objects)
    ensures Truthful(cli.cfg, cli.script, cli.log, base, latest.name, reading)
    ensures reading.latest == latest && reading.deployment == deployment && reading.daemonSet == daemonSet
    ensures reading.now == cli.Now().time && reading.turn == old(cli.clock) - 1
    ensures AllWrapped(errs)
    ensures Combined(errs).None? <==> deployment.Some? && daemonSet.Some?
    ensures FailsAt(cli.script, cli.clock - 1) ==> daemonSet.None?
    ensures Untouched(cli.script, old(cli.clock), cli.clock, latest.name) ==>
      At(cli.state.contours, latest.name) == At(old(cli.state.contours), latest.name)
    ensures old(cli.Calm()) ==>
      && cli.state == old(cli.state) && cli.log == old(cli.log)
      && deployment == HealthAt(cli.state, KeyAt(cli.cfg, latest.spec.ns, DEPLOYMENT))
      && daemonSet == HealthAt(cli.state, KeyAt(cli.cfg, latest.spec.ns, DAEMONSET))
  {
    hide Attributed, Legal, Inv, Evolves, KeyAt, Touches, HealthAt, HealthOf;
    ghost var s := cli.state;
    LogBegun(cli.cfg, cli.log);
    ghost var aLog := cli.log;
    var deploymentErr, daemonSetErr;
    deployment, deploymentErr := ReadHealth(cli, latest.spec.ns, DEPLOYMENT, latest.name);
    LogBegun(cli.cfg, cli.log);
    ghost var b, bLog := cli.state, cli.log;
    daemonSet, daemonSetErr := ReadHealth(cli, latest.spec.ns, DAEMONSET, latest.name);
    EvolvesTransitive(s, b, cli.state);
    errs := [deploymentErr, daemonSetErr];
    reading := Reading(old(cli.clock) - 1, base, latest, |aLog| - 1, deployment, |bLog| - 1, daemonSet, cli.Now().time);
    assert errs[0] == deploymentErr && errs[1] == daemonSetErr;
    ClassOf(errs);
  }

  /** Writes the status computed from a reading. */
  method Submit(cli: Cluster, updated: Contour, ghost base: nat, ghost reading: Reading)
    returns (ack: Ack, ghost written: Option<nat>)
    requires cli.Valid() && cli.WorksFor(updated.name) && Truthful(cli.cfg, cli.script, cli.log, base, updated.name, reading)
    requires updated.version == reading.latest.version
    requires updated.status == Synced(reading.latest.status, reading.deployment, reading.daemonSet, reading.now)
    requires At(cli.state.contours, updated.name).Some? && cli.state.contours[updated.name].version == updated.version ==>
      cli.state.contours[updated.name] == reading.latest
    modifies cli`state, cli`clock, cli`log, cli`statusWrites, cli`contourSteps
    ensures cli.Advanced() && cli.clock == old(cli.clock) + 1 && cli.statusWrites == old(cli.statusWrites) + 1
    ensures cli.state.objects == old(cli.state.objects)
    ensures Truthful(cli.cfg, cli.script, cli.log, base, updated.name, reading)
    ensures ack == Conflict ==> At(old(cli.state.contours), updated.name) != Some(reading.latest) && written.None?
    ensures cli.contourSteps == old(cli.contourSteps) + if written.Some? then 1 else 0
    ensures written.Some? ==> |old(cli.log)| <= written.value
    ensures written.Some? ==> Writes(cli.log, written.value, updated.name, reading)
    ensures ack == Done ==> written.Some?
    ensures ack == Missing ==> updated.name !in old(cli.state.contours)
    ensures ack == Refused <==> FailsAt(cli.script, old(cli.clock))
    ensures old(cli.Calm()) && At(old(cli.state.contours), updated.name) == Some(reading.latest) ==>
      ack == Done && cli.state == WithStatus(old(cli.state), updated.name, updated.status)
  {
    hide cli.Calm, Attributed, Legal, Inv, Evolves, Synced, Truthful, WithStatus, Writes;
    ghost var mid, midLog, fault, n := cli.state, cli.log, cli.Now().fault, updated.name;
    written := None;
    LogBegun(cli.cfg, midLog);
    SyncedMerges(reading.latest.status, reading.deployment, reading.daemonSet, reading.now);
    ack := cli.UpdateStatus(updated, AvailableCondition(reading.deployment, reading.daemonSet, reading.now));
    TruthfulLater(cli.cfg, cli.script, midLog, cli.log, base, base, n, reading);
    if n in mid.contours && mid.contours[n].version == updated.version && fault != Reject {
      written := Some(|midLog|);
      TruthfulLater(cli.cfg, cli.script, midLog, midLog, base, 0, n, reading);
      WrittenHere(cli.cfg, cli.script, midLog, cli.log, mid, n, reading);
    }
  }

  ghost predicate News(r: Reading) {
    !NothingNew(Some(r))
  }

  /** The readings of attempts made one after the other from this turn on, each true, and each
      but the last one with something to write. */
  ghost predicate Attempted(cfg: Config, script: seq<Turn>, log: seq<Record>, from: nat, turn: nat, n: Name, rs: seq<Reading>) {
    && (forall j :: 0 <= j < |rs| ==> Truthful(cfg, script, log, from, n, rs[j]) && rs[j].turn == turn + 4 * j)
    && (forall j :: 0 <= j < |rs| - 1 ==> News(rs[j]))
    && FirstIsFirst(rs)
  }

  ghost predicate FirstIsFirst(rs: seq<Reading>) {
    rs != [] ==> rs[0].daemonSetAt <= rs[|rs| - 1].daemonSetAt
  }

  ghost function LastOf(rs: seq<Reading>): Option<Reading> {
    if rs == [] then None else Some(rs[|rs| - 1])
  }

  /** How many of the attempts had something to write. */
  ghost function NewsCount(rs: seq<Reading>): nat {
    if rs != [] && NothingNew(LastOf(rs)) then |rs| - 1 else |rs|
  }

  /** The readings of a sync somewhere after this position of the log. */
  ghost predicate SyncReadings(cfg: Config, script: seq<Turn>, log: seq<Record>, from: nat, n: Name, rs: seq<Reading>) {
    && (forall j :: 0 <= j < |rs| ==> Truthful(cfg, script, log, from, n, rs[j]))
    && (forall j :: 0 <= j < |rs| - 1 ==> News(rs[j]))
    && FirstIsFirst(rs)
  }

  ghost predicate ReadBoth(r: Reading) {
    r.deployment.Some? && r.daemonSet.Some?
  }

  ghost predicate AllRead(rs: seq<Reading>) {
    forall j :: 0 <= j < |rs| ==> ReadBoth(rs[j])
  }

  lemma AllReadJoin(r: Reading, rs: seq<Reading>)
    ensures AllRead([]) && AllRead([r] + rs) == (ReadBoth(r) && AllRead(rs)) && AllRead([r]) == ReadBoth(r)
  {
    hide ReadBoth;
    assert ([r] + rs)[0] == r && forall j :: 0 <= j < |rs| ==> ([r] + rs)[j + 1] == rs[j];
  }

  lemma AttemptedIsRead(cfg: Config, script: seq<Turn>, log: seq<Record>, from: nat, earlier: nat, turn: nat, n: Name, rs: seq<Reading>)
    requires Attempted(cfg, script, log, from, turn, n, rs) && earlier <= from
    ensures SyncReadings(cfg, script, log, earlier, n, rs)
    ensures rs != [] ==> Truthful(cfg, script, log, earlier, n, LastOf(rs).value)
  {
    hide Truthful, NothingNew;
    forall j | 0 <= j < |rs| ensures Truthful(cfg, script, log, earlier, n, rs[j]) {
      TruthfulLater(cfg, script, log, log, from, earlier, n, rs[j]);
    }
  }

  lemma ReadEarlier(cfg: Config, script: seq<Turn>, log: seq<Record>, from: nat, earlier: nat, n: Name, rs: seq<Reading>)
    requires SyncReadings(cfg, script, log, from, n, rs) && earlier <= from
    ensures SyncReadings(cfg, script, log, earlier, n, rs)
  {
    hide Truthful, NothingNew;
    forall j | 0 <= j < |rs| ensures Truthful(cfg, script, log, earlier, n, rs[j]) {
      TruthfulLater(cfg, script, log, log, from, earlier, n, rs[j]);
    }
  }

  /** The one write of a sync that took effect is in the log, after it had this length, and
      writes what the last attempt read. */
  ghost predicate Recorded(log: seq<Record>, start: nat, n: Name, rs: seq<Reading>, written: Option<nat>) {
    written.Some? ==> rs != [] && start <= written.value && Writes(log, written.value, n, LastOf(rs).value)
  }

  lemma ReadSince(cfg: Config, script: seq<Turn>, log: seq<Record>, from: nat, n: Name, r: Reading)
    requires Truthful(cfg, script, log, from, n, r)
    ensures from <= r.latestAt <= r.daemonSetAt < |log|
  {
  }

  lemma AttemptedOnce(cfg: Config, script: seq<Turn>, log: seq<Record>, from: nat, n: Name, r: Reading)
    requires Truthful(cfg, script, log, from, n, r)
    ensures Attempted(cfg, script, log, from, r.turn, n, [r])
  {
    hide Truthful;
  }

  lemma AttemptedAgain(cfg: Config, script: seq<Turn>, log: seq<Record>, from: nat, later: nat, n: Name, r: Reading, rs: seq<Reading>)
    requires Truthful(cfg, script, log, from, n, r) && News(r) && from <= later && r.daemonSetAt <= later
    requires Attempted(cfg, script, log, later, r.turn + 4, n, rs)
    ensures Attempted(cfg, script, log, from, r.turn, n, [r] + rs)
    ensures LastOf([r] + rs) == if rs == [] then Some(r) else LastOf(rs)
    ensures NewsCount([r] + rs) == 1 + NewsCount(rs)
  {
    hide Truthful;
    var all := [r] + rs;
    forall j | 0 <= j < |all| ensures Truthful(cfg, script, log, from, n, all[j]) && all[j].turn == r.turn + 4 * j {
      if j > 0 {
        assert Truthful(cfg, script, log, later, n, rs[j - 1]) && rs[j - 1].turn == r.turn + 4 + 4 * (j - 1);
        TruthfulLater(cfg, script, log, log, later, from, n, rs[j - 1]);
      }
    }
    forall j | 0 <= j < |all| - 1 ensures News(all[j]) {
      if j > 0 {
        assert News(rs[j - 1]);
      }
    }
    if rs != [] {
      ReadSince(cfg, script, log, later, n, rs[|rs| - 1]);
    }
  }

  /** The write at the end of an attempt, and the next attempt if it meets a conflict. The
      attempt began at turn c with the store in state s, at position base of the log. */
  method WriteOrRetry(cli: Cluster, updated: Contour, found: seq<Option<Error>>,
                      ghost s: State, ghost c: nat, ghost base: nat, ghost reading: Reading)
    returns (errs: seq<Option<Error>>, ghost attempts: nat, ghost written: Option<nat>, ghost readings: seq<Reading>)
    requires cli.Valid() && cli.WorksFor(updated.name) && base < |cli.log|
    requires AllWrapped(found) && (Combined(found).None? <==> ReadBoth(reading))
    requires cli.clock == c + 3 && Evolves(s, cli.state)
    requires Truthful(cli.cfg, cli.script, cli.log, base, updated.name, reading) && reading.turn == c && News(reading)
    requires updated == reading.latest.(status := updated.status)
    requires updated.status == Synced(reading.latest.status, reading.deployment, reading.daemonSet, reading.now)
    requires At(s.contours, updated.name) == Some(reading.latest) && updated.version <= s.version
    requires At(cli.state.contours, updated.name) != Some(reading.latest) ==> !Untouched(cli.script, c, c + 3, updated.name)
    modifies cli`state, cli`clock, cli`log, cli`statusWrites, cli`contourSteps
    ensures cli.Advanced() && cli.state.objects == old(cli.state.objects)
    ensures attempts <= Disturbances(cli.script, c, updated.name) + 1
    ensures cli.clock - c <= 4 * attempts
    ensures Attempted(cli.cfg, cli.script, cli.log, base, c, updated.name, readings) && 0 < |readings| <= attempts <= |readings| + 1
    ensures cli.statusWrites == old(cli.statusWrites) + NewsCount(readings)
    ensures cli.contourSteps == old(cli.contourSteps) + if written.Some? then 1 else 0
    ensures written.Some? ==> |old(cli.log)| <= written.value
    ensures written.Some? ==> Writes(cli.log, written.value, updated.name, LastOf(readings).value)
    ensures AllWrapped(errs) && old(cli.clock) < cli.clock
    ensures Combined(errs).None? <==> AllRead(readings) && !FailsAt(cli.script, cli.clock - 1)
    ensures Combined(errs).None? || Faultless(cli.script, old(cli.clock), cli.clock) ==>
      written.Some? || Vanished(cli.log, base, updated.name) || NothingNew(LastOf(readings))
    ensures old(cli.Calm()) && old(cli.state) == s ==>
      errs == found && readings == [reading] && cli.state == WithStatus(s, updated.name, updated.status)
    decreases Disturbances(cli.script, c, updated.name), 0
  {
    hide cli.Calm, cli.Valid, Evolves, Synced, Touches, Truthful, Combined, WithStatus, AllWrapped, Untouched,
      Writes, Disturbances, Vanished, CalmSync, NothingNew, Attempted, LastOf, NewsCount, ReadBoth, AllRead;
    ghost var n, midLog := updated.name, cli.log;
    LastIsNow(cli);
    StillThatVersion(s, cli.state, reading.latest);
    errs, attempts, readings := found, 1, [reading];
    ReadSince(cli.cfg, cli.script, cli.log, base, n, reading);
    var ack;
    ack, written := Submit(cli, updated, base, reading);
    OnlyReading(reading);
    AllReadJoin(reading, []);
    AttemptedOnce(cli.cfg, cli.script, cli.log, base, n, reading);
    if ack == Conflict {
      // The Contour moved on since it was read.
      MovedMeansDisturbed(cli.script, c, n);
      ghost var d, dLog := cli.state, cli.log;
      Begun(cli);
      var retryErr;
      ghost var more, last, rest;
      retryErr, more, written, last, rest := SyncContour(cli, updated.name);
      EvolvesTransitive(old(cli.state), d, cli.state);
      TruthfulLater(cli.cfg, cli.script, dLog, cli.log, base, base, n, reading);
      AttemptedAgain(cli.cfg, cli.script, cli.log, base, |dLog| - 1, n, reading, rest);
      attempts, readings := 1 + more, [reading] + rest;
      AllReadJoin(reading, rest);
      NoReading();
      if Vanished(cli.log, |dLog| - 1, n) {
        VanishedLater(cli.log, cli.log, |dLog| - 1, base, n);
      }
      errs := HandleResult(errs, "failed to update status", retryErr);
    } else if ack == Refused {
      errs := HandleResult(errs, "failed to update status", Some(Failure("update")));
    } else if ack == Missing {
      VanishedNow(midLog, cli.log, base, n);
    }
  }

  lemma OnlyReading(r: Reading)
    ensures LastOf([r]) == Some(r) && (News(r) ==> NewsCount([r]) == 1) && (!News(r) ==> NewsCount([r]) == 0)
  {
  }

  lemma Compared(r: Reading, updated: Status)
    requires updated == Synced(r.latest.status, r.deployment, r.daemonSet, r.now)
    ensures News(r) <==> ContourStatusChanged(r.latest.status, updated)
    ensures News(r) <==> !NothingNew(Some(r))
  {
  }

  lemma NoReading()
    ensures LastOf([]) == None && NewsCount([]) == 0 && !NothingNew(None) && AllRead([])
  {
  }

  /** Reads, merges, compares and writes; on a conflict starts over. Other writers that touch
      the Contour k more times cost at most k more attempts of four calls each. An attempt
      writes exactly when what it read calls for another status than the one it read. There is
      no error exactly if every attempt read both workloads and the last call worked; a Contour
      that is gone is none. */
  method SyncContour(cli: Cluster, n: Name)
    returns (err: Option<Error>, ghost attempts: nat, ghost written: Option<nat>, ghost last: Option<Reading>,
             ghost readings: seq<Reading>)
    requires cli.Valid() && cli.WorksFor(n)
    modifies cli`state, cli`clock, cli`log, cli`statusWrites, cli`contourSteps
    ensures cli.Advanced() && cli.state.objects == old(cli.state.objects)
    ensures attempts <= Disturbances(cli.script, old(cli.clock), n) + 1
    ensures cli.clock - old(cli.clock) <= 4 * attempts
    ensures Attempted(cli.cfg, cli.script, cli.log, |old(cli.log)| - 1, old(cli.clock), n, readings)
    ensures |readings| <= attempts <= |readings| + 1 && last == LastOf(readings)
    ensures cli.statusWrites == old(cli.statusWrites) + NewsCount(readings)
    ensures cli.contourSteps == old(cli.contourSteps) + if written.Some? then 1 else 0
    ensures written.Some? ==> |old(cli.log)| <= written.value
    ensures written.Some? ==> last.Some? && Writes(cli.log, written.value, n, last.value)
    ensures !Classify(err).Later?
    ensures old(cli.clock) < cli.clock
    ensures err.None? <==> AllRead(readings) && !FailsAt(cli.script, cli.clock - 1)
    ensures err.None? || Faultless(cli.script, old(cli.clock), cli.clock) ==>
      written.Some? || Vanished(cli.log, |old(cli.log)| - 1, n) || NothingNew(last)
    ensures old(cli.Calm()) ==>
      CalmSync(cli.cfg, old(cli.state), n, cli.state, cli.statusWrites - old(cli.statusWrites), err, last)
    decreases Disturbances(cli.script, cli.clock, n), 1
  {
    hide cli.Calm, cli.Valid, Evolves, KeyAt, ContourStatusChanged, Synced, Touches, HealthAt, HealthOf, Truthful,
      Combined, WithStatus, AllWrapped, Untouched, Writes, Disturbances, Vanished, CalmSync, Attempted, LastOf,
      NewsCount, NothingNew, News, Attributed, Legal, Inv;
    LastIsNow(cli);
    ghost var s, c, base := cli.state, cli.clock, |cli.log| - 1;
    ghost var log := cli.log;
    NoReading();
    attempts, written, last, readings := 1, None, None, [];
    var reply := cli.GetContour(n);
    NoAttempt(cli.cfg, cli.script, cli.log, base, c, n);
    if reply.NotFound? {
      VanishedNow(log, cli.log, base, n);
      if old(cli.Calm()) { CalmAbsent(cli.cfg, s, n); }
      // It may have gone since; there is no status to keep.
      err := None;
      return;
    }
    if reply.Failed? {
      err := Some(Wrapped("failed to get contour", Failure("get")));
      return;
    }
    var latest := reply.value;
    ghost var a := cli.state;
    var deployment, daemonSet, errs;
    ghost var reading;
    deployment, daemonSet, errs, reading := Observe(cli, latest, base);
    ghost var mid := cli.state;
    EvolvesTransitive(s, a, mid);
    UntouchedSplit(cli.script, c, n);
    var updated := NewStatus(latest.status, deployment, daemonSet, cli.Now().time);
    Compared(reading, updated);
    OnlyReading(reading);
    AttemptedOnce(cli.cfg, cli.script, cli.log, base, n, reading);
    AllReadJoin(reading, []);
    readings := [reading];
    if ContourStatusChanged(latest.status, updated) {
      errs, attempts, written, readings := WriteOrRetry(cli, latest.(status := updated), errs, s, c, base, reading);
      EvolvesTransitive(s, mid, cli.state);
      SomeReading(readings);
    }
    last := LastOf(readings);
    err := NewMaybeRetryableAggregate(errs);
    WrappingHidesRetry(errs);
    if old(cli.Calm()) {
      CalmSynced(cli.cfg, s, n, cli.state, cli.statusWrites - old(cli.statusWrites), err, reading, updated);
    }
  }

  lemma SomeReading(rs: seq<Reading>)
    ensures LastOf(rs).Some? <==> rs != []
  {
  }

  lemma NoAttempt(cfg: Config, script: seq<Turn>, log: seq<Record>, from: nat, turn: nat, n: Name)
    ensures Attempted(cfg, script, log, from, turn, n, [])
  {
  }
}
