/** The reconciler (internal/controller/controller.go). */
module Controller {
  import opened Wrappers
  import opened Api
  import opened Children
  import opened Protocol
  import opened Cluster
  import opened Contours
  import opened Retryable
  import opened StatusSync
  import opened Ensure
  import opened Rbac
  import opened EnsurePass
  import opened Deletion
  import opened DeletePass
  import Slice

  /** How a request ends: done, to be repeated after a delay, to be repeated because of an
      error, or with the process. */
  datatype Result = Finished | RequeueAfter(after: int) | Requeue(err: Error) | Crash

  function ResultOf(err: Option<Error>): (result: Result)
    ensures result != Crash && (result == Finished <==> err.None?)
    ensures forall after :: result == RequeueAfter(after) <==> err.Some? && err.value.Retry? && err.value.after == after
    ensures result.Requeue? ==> err == Some(result.err)
  {
    match err
    case None => Finished
    case Some(Retry(_, after)) => RequeueAfter(after)
    case Some(e) => Requeue(e)
  }

  /** Nothing but children of the Contour has changed. */
  ghost predicate OnlyChildren(cfg: Config, s: State, t: State, contour: Contour) {
    forall k :: Outside(cfg, contour.spec.ns, 0, CHILDREN, k) ==> At(t.objects, k) == At(s.objects, k)
  }

  /** What one request may have done to the store, faults or not, given the Contour it read. */
  ghost predicate Effect(cfg: Config, s: State, t: State, n: Name) {
    if n !in s.contours then t.objects == s.objects
    else
      var c := s.contours[n];
      if c.deleting then Pruned(s, t, n) && OnlyChildren(cfg, s, t, c)
      else if c.IsFinalized() && SpecAccepted(c.spec) then c.name == n && Attempts(cfg, s, t, c, 0, CHILDREN)
      else t.objects == s.objects
  }

  /** A deletion pass with these checks went for exactly these children, and left none of them. */
  ghost predicate Swept(cfg: Config, s: State, t: State, contour: Contour, doomed: set<nat>) {
    Pruned(s, t, contour.name) && Confined(cfg, contour.spec.ns, s, t, doomed) && AllGone(cfg, t, contour, doomed)
  }

  ghost predicate SweptAt(cfg: Config, log: seq<Record>, s: State, t: State, contour: Contour, checks: Checks) {
    ChecksWithin(checks, 0, log) && Swept(cfg, s, t, contour, Doomed(log, contour, checks))
  }

  ghost predicate SweptDuring(cfg: Config, log: seq<Record>, from: nat, s: State, t: State, contour: Contour) {
    exists checks :: ChecksWithin(checks, from, log) && SweptAt(cfg, log, s, t, contour, checks)
  }

  /** However far a deletion pass got, it touched nothing that it had seen others to need. */
  ghost predicate SparedAt(cfg: Config, log: seq<Record>, s: State, t: State, contour: Contour, checks: Checks) {
    ChecksWithin(checks, 0, log) && Confined(cfg, contour.spec.ns, s, t, Doomed(log, contour, checks))
  }

  ghost predicate SparedDuring(cfg: Config, log: seq<Record>, from: nat, s: State, t: State, contour: Contour) {
    exists checks :: ChecksWithin(checks, from, log) && SparedAt(cfg, log, s, t, contour, checks)
  }

  /** In every state since position from, nobody else has the Contour's spec namespace. */
  ghost predicate AloneSince(log: seq<Record>, from: nat, contour: Contour) {
    forall m :: from <= m < |log| ==> !Shares(log[m].state, contour)
  }

  /** In every state since position from, there is no other Contour at all. */
  ghost predicate OnlyOneSince(log: seq<Record>, from: nat, n: Name) {
    forall m :: from <= m < |log| ==> !OthersExist(log[m].state, n)
  }

  /** A finished deletion leaves no namespaced RBAC object and, if asked for, no namespace of a
      Contour that had its spec namespace to itself, and no cluster RBAC object of the only one. */
  lemma SweptAlone(cfg: Config, log: seq<Record>, from: nat, s: State, t: State, contour: Contour)
    requires SweptDuring(cfg, log, from, s, t, contour)
    ensures AllGone(cfg, t, contour, WORKLOADS)
    ensures AloneSince(log, from, contour) ==> AllGone(cfg, t, contour, NAMESPACED_RBAC)
    ensures AloneSince(log, from, contour) && RemovalExpected(contour) ==> NotOurs(cfg, t, contour, 0)
    ensures OnlyOneSince(log, from, contour.name) ==> AllGone(cfg, t, contour, CLUSTER_RBAC)
  {
    hide NotOurs, KeyAt, Pruned, Confined, Shares, OthersExist, Misfires;
    var checks :| ChecksWithin(checks, from, log) && SweptAt(cfg, log, s, t, contour, checks);
    var doomed := Doomed(log, contour, checks);
    assert forall i :: i in WORKLOADS ==> i in doomed;
    if AloneSince(log, from, contour) {
      assert !Shares(log[checks.sharedAt].state, contour) && !Shares(log[checks.askedAt].state, contour);
      assert forall i :: i in NAMESPACED_RBAC ==> i in doomed;
      if RemovalExpected(contour) {
        assert 0 in doomed;
      }
    }
    if OnlyOneSince(log, from, contour.name) {
      assert !OthersExist(log[checks.othersAt].state, contour.name);
      assert forall i :: i in CLUSTER_RBAC ==> i in doomed;
    }
  }

  /** What it means that a request finished without an error. */
  ghost predicate Success(cfg: Config, script: seq<Turn>, log: seq<Record>, from: nat, s: State, t: State, n: Name) {
    n in s.contours ==>
      var c := s.contours[n];
      if c.deleting then
        && SweptDuring(cfg, log, from, s, t, c)
        && (c.IsFinalized() ==> Refinalized(log, from, c, Slice.Without(c.finalizers, FINALIZER)))
      else
        && SpecAccepted(c.spec)
        && (!c.IsFinalized() ==> Refinalized(log, from, c, c.finalizers + [FINALIZER]))
        && (c.IsFinalized() ==> AllReached(cfg, s, t, c, 0, CHILDREN) && StatusDone(cfg, script, log, from, n))
  }

  /** What a request none of whose calls fails does for an accepted Contour that has its spec
      namespace to itself, whatever users do meanwhile: its children get where they should be,
      or it gets the finalizer unless somebody else wrote it in between. */
  ghost predicate FaultlessEffect(cfg: Config, s: State, t: State, c: Contour, result: Result, untouched: bool) {
    if c.IsFinalized() then
      AllReached(cfg, s, t, c, 0, CHILDREN) && (result == Crash <==> ComparisonCrashes(cfg, s, c))
    else
      untouched ==> Holds(t, c.name, c.spec.ns) && t.objects == s.objects
  }

  /** The children a deletion pass goes for when nothing changes while it asks. */
  ghost function DoomedNow(s: State, contour: Contour): set<nat> {
    WORKLOADS + DoomedRbac(s, s, contour) + DoomedNamespace(s, contour)
  }

  /** An undisturbed request: how it ends, and what it leaves. */
  ghost predicate CalmEffect(cfg: Config, s: State, t: State, n: Name, result: Result, statusWrites: int, last: Option<Reading>) {
    if n !in s.contours then t == s && result == Finished
    else
      var c := s.contours[n];
      if c.deleting then
        && result == Finished && Swept(cfg, s, t, c, DoomedNow(s, c))
        && var left := s.(objects := t.objects);
           t == if c.IsFinalized() then WithContour(left, c.(finalizers := Slice.Without(c.finalizers, FINALIZER))) else left
      else if Shares(s, c) || !SpecAccepted(c.spec) then
        t == s && (if !Shares(s, c) && SpecCrashes(c.spec) then result == Crash else result.Requeue?)
      else if !c.IsFinalized() then
        t == WithContour(s, c.(finalizers := c.finalizers + [FINALIZER])) && result == Finished
      else
        && AllReached(cfg, s, t, c, 0, CHILDREN)
        && (result == Crash <==> ComparisonCrashes(cfg, s, c))
        && (result == Finished <==>
              !ComparisonCrashes(cfg, s, c) && Here(cfg, t, c, DEPLOYMENT).Some? && Here(cfg, t, c, DAEMONSET).Some?)
        && (result == Crash ==> OnlyObjects(s, t) && statusWrites == 0)
        && (result != Crash ==> CalmStatus(cfg, s, t, n, statusWrites, last))
  }

  /** How far a request got: where in the log the Contours were listed, and when the pass read
      the two workloads it can crash on. */
  datatype Course = Course(listedAt: nat, seen: Option<Reads>)

  /** A request taken up in state s at this turn ends the process: the Contour was read, and is
      there to stay; nobody was seen to share its namespace; and its spec crashes the check, or
      it is served and its pass crashes. */
  ghost predicate CrashCause(cfg: Config, script: seq<Turn>, log: seq<Record>, s: State, start: nat, n: Name, course: Course) {
    && n in s.contours
    && var c := s.contours[n];
       && !c.deleting && !FailsAt(script, start) && !FailsAt(script, start + 1)
       && course.listedAt < |log| && !SeesSharing(log[course.listedAt].state, c)
       && (|| SpecCrashes(c.spec)
           || (SpecAccepted(c.spec) && c.IsFinalized() && course.seen.Some? && PassCrashes(cfg, script, s, c, course.seen.value)))
  }

  ghost predicate CourseWithin(script: seq<Turn>, log: seq<Record>, course: Course, from: nat, start: nat, until: nat) {
    from <= course.listedAt < |log| && (course.seen.Some? ==> ReadsWithin(script, course.seen.value, start + 2, until))
  }

  /** The request of a Contour that is to stay; s is the state in which it was read, at
      position from of the log and turn start. */
  method ReconcileDesired(cli: Cluster, contour: Contour, ghost s: State, ghost from: nat, ghost start: nat)
    returns (result: Result, ghost last: Option<Reading>, ghost readings: seq<Reading>, ghost written: Option<nat>,
             ghost course: Course)
    requires cli.Valid() && cli.WorksOn(contour) && from < |cli.log| && cli.log[from].state == s
    requires Inv(cli.cfg, s) && At(s.contours, contour.name) == Some(contour) && !contour.deleting
    requires cli.state.objects == s.objects && Current(cli.state, contour)
    requires cli.clock == start + 1 && !FailsAt(cli.script, start)
    requires Untouched(cli.script, start, cli.clock, contour.name) ==> At(cli.state.contours, contour.name) == Some(contour)
    modifies cli`state, cli`clock, cli`log, cli`writes, cli`statusWrites, cli`contourSteps
    ensures cli.Advanced()
    ensures !result.RequeueAfter?
    ensures CourseWithin(cli.script, cli.log, course, from, start, cli.clock)
    ensures result == Crash <==> CrashCause(cli.cfg, cli.script, cli.log, s, start, contour.name, course)
    ensures Effect(cli.cfg, s, cli.state, contour.name)
    ensures result == Finished ==> Success(cli.cfg, cli.script, cli.log, from, s, cli.state, contour.name)
    ensures contour.IsFinalized() && AllSettled(cli.cfg, s, contour, 0, CHILDREN) ==> cli.writes == old(cli.writes)
    ensures SyncReadings(cli.cfg, cli.script, cli.log, from, contour.name, readings) && last == LastOf(readings)
    ensures cli.statusWrites == old(cli.statusWrites) + NewsCount(readings)
    ensures Recorded(cli.log, |old(cli.log)|, contour.name, readings, written)
    ensures contour.IsFinalized() ==> cli.contourSteps == old(cli.contourSteps) + if written.Some? then 1 else 0
    ensures readings != [] ==> contour.IsFinalized() && SpecAccepted(contour.spec)
    ensures Faultless(cli.script, start, cli.clock) && SpecAccepted(contour.spec) && AloneSince(cli.log, from, contour) ==>
      FaultlessEffect(cli.cfg, s, cli.state, contour, result, Untouched(cli.script, start, cli.clock, contour.name))
    ensures old(cli.Calm()) && old(cli.state) == s ==>
      CalmEffect(cli.cfg, s, cli.state, contour.name, result, cli.statusWrites - old(cli.statusWrites), last)
  {
    hide cli.Calm, cli.Valid, Inv, Evolves, Shares, SpecAccepted, SpecCrashes, Attempts, AllReached, AllSettled,
      CalmStatus, ComparisonCrashes, Here, Known, Current, Tenant, Refinalized, StatusDone, Pruned, Founded, Reports,
      Holds, Faultless, Untouched, Touches, LastOf, NewsCount, SyncReadings, PassFine, OnlyObjects, CalmSync,
      SeesSharing;
    last, readings, written := None, [], None;
    NoReading();
    LastIsNow(cli);
    Begun(cli);
    ghost var s1, c1, log1 := cli.state, cli.clock, cli.log;
    course := Course(|log1| - 1, None);
    AlongTheWay(cli.script, start, c1, contour.name);
    var check := ValidateContour(cli, contour);
    ghost var s2, c2, log2 := cli.state, cli.clock, cli.log;
    NoEffect(cli.cfg, s, s2, contour.name);
    AloneThen(cli, |log1| - 1, from, contour);
    assert cli.log[|log1| - 1] == log1[|log1| - 1];
    FaultWidens(cli.script, c1, c2, start, c2);
    NothingRead(cli.cfg, cli.script, cli.log, from, contour.name);
    if check.Crashed? {
      return Crash, None, [], None, course;
    }
    if check.Rejected? {
      return Requeue(Wrapped("failed to validate contour", Failure("invalid"))), None, [], None, course;
    }
    CurrentStays(s1, s2, contour);
    CurrentIsHeld(s1, contour);
    if !contour.IsFinalized() {
      // The finalizer comes before anything that would have to be cleaned up.
      var err := EnsureFinalizer(cli, contour);
      NoEffect(cli.cfg, s, cli.state, contour.name);
      ghost var log3 := cli.log;
      AloneThen(cli, |log1| - 1, from, contour);
      assert cli.log[|log1| - 1] == log1[|log1| - 1];
      FaultWidens(cli.script, c1, c2, start, cli.clock);
      FaultWidens(cli.script, c2, cli.clock, start, cli.clock);
      UntouchedSplits(cli.script, start, c1, c2, cli.clock, contour.name);
      if err.None? {
        RefinalizedLater(cli.log, cli.log, |log2| - 1, from, contour, contour.finalizers + [FINALIZER]);
      }
      EvolvesTransitive(s1, s2, cli.state);
      NothingRead(cli.cfg, cli.script, cli.log, from, contour.name);
      return ResultOf(err), None, [], None, course;
    }
    CurrentHolds(s1, contour);
    BecomesTenant(cli.cfg, s1, s2, contour);
    var outcome;
    ghost var pass;
    outcome, pass, last, readings, written := EnsureContour(cli, contour);
    ReadEarlier(cli.cfg, cli.script, cli.log, |log2| - 1, from, contour.name, readings);
    EvolvesTransitive(s1, s2, cli.state);
    EnsuredSince(cli.cfg, s, s2, cli.state, contour);
    FaultWidens(cli.script, c2, cli.clock, start, cli.clock);
    StatusDoneSince(cli, |log2| - 1, from, contour.name);
    course := course.(seen := pass.seen);
    return if outcome.Panicked? then Crash else ResultOf(outcome.err), last, readings, written, course;
  }

  lemma AloneThen(cli: Cluster, m: nat, from: nat, contour: Contour)
    requires from <= m < |cli.log|
    ensures AloneSince(cli.log, from, contour) ==> !Shares(cli.log[m].state, contour)
  {
    hide Shares;
  }

  /** The request of a Contour that is to go; s is the state in which it was read, at position
      from of the log. */
  method ReconcileDeleted(cli: Cluster, contour: Contour, ghost s: State, ghost from: nat) returns (result: Result)
    requires cli.Valid() && cli.WorksOn(contour) && from < |cli.log|
    requires At(s.contours, contour.name) == Some(contour) && contour.deleting
    requires cli.state.objects == s.objects && Current(cli.state, contour)
    modifies cli`state, cli`clock, cli`log, cli`writes, cli`contourSteps
    ensures cli.Valid() && old(cli.log) <= cli.log && old(cli.clock) <= cli.clock && (old(cli.Calm()) ==> cli.Calm())
    ensures !result.RequeueAfter? && result != Crash
    ensures Effect(cli.cfg, s, cli.state, contour.name)
    ensures SparedDuring(cli.cfg, cli.log, from, s, cli.state, contour)
    ensures result == Finished ==> Success(cli.cfg, cli.script, cli.log, from, s, cli.state, contour.name)
    ensures cli.contourSteps != old(cli.contourSteps)
            || (contour.IsFinalized() && !Holds(cli.state, contour.name, contour.spec.ns)) ==>
      SweptDuring(cli.cfg, cli.log, from, s, cli.state, contour)
    ensures Faultless(cli.script, old(cli.clock), cli.clock) ==>
      result == Finished || (Changed(cli.log, |old(cli.log)| - 1, contour) && cli.contourSteps == old(cli.contourSteps))
    ensures old(cli.Calm()) && old(cli.state) == s ==> CalmEffect(cli.cfg, s, cli.state, contour.name, result, 0, None)
  {
    hide cli.Calm, cli.Valid, Inv, Pruned, Attempts, Known, Current, Refinalized, Confined, AllGone, Tried,
      OnlyChildren, SweptDuring, SparedDuring, DoomedNow, AskedAmong, Swept, Holds;
    Begun(cli);
    ghost var mid, log := cli.state, cli.log;
    var err;
    ghost var marks, checks;
    err, marks, checks := EnsureContourDeleted(cli, contour);
    DeletedSince(cli.cfg, cli.log, from, |log| - 1, s, mid, cli.state, contour, checks);
    if err.None? && contour.IsFinalized() {
      RefinalizedLater(cli.log, cli.log, |log| - 1, from, contour, Slice.Without(contour.finalizers, FINALIZER));
    }
    if old(cli.Calm()) {
      DoomedInCalm(cli.log, contour, checks, mid);
    }
    result := ResultOf(err);
  }

  /** One request for a Contour. */
  method Reconcile(cli: Cluster, n: Name)
    returns (result: Result, ghost last: Option<Reading>, ghost readings: seq<Reading>, ghost written: Option<nat>,
             ghost course: Course)
    requires cli.Valid()
    modifies cli
    ensures cli.Valid() && old(cli.log) <= cli.log && old(cli.clock) <= cli.clock && (old(cli.Calm()) ==> cli.Calm())
    ensures CourseWithin(cli.script, cli.log, course, |old(cli.log)| - 1, old(cli.clock), cli.clock)
    ensures result == Crash <==> CrashCause(cli.cfg, cli.script, cli.log, old(cli.state), old(cli.clock), n, course)
    ensures cli.visits == old(cli.visits) + [Visit(|old(cli.log)|, n, At(old(cli.state.contours), n))]
    ensures !result.RequeueAfter?
    ensures Effect(cli.cfg, old(cli.state), cli.state, n)
    ensures !(n in old(cli.state.contours) && old(cli.state.contours)[n].deleting) ==> Evolves(old(cli.state), cli.state)
    ensures n in old(cli.state.contours) && old(cli.state.contours)[n].deleting ==>
      SparedDuring(cli.cfg, cli.log, |old(cli.log)| - 1, old(cli.state), cli.state, old(cli.state.contours)[n])
    ensures Departing(old(cli.state), n) && !Holds(cli.state, n, old(cli.state.contours)[n].spec.ns) ==>
      SweptDuring(cli.cfg, cli.log, |old(cli.log)| - 1, old(cli.state), cli.state, old(cli.state.contours)[n])
    ensures n in old(cli.state.contours) && old(cli.state.contours)[n].deleting && cli.contourSteps != old(cli.contourSteps) ==>
      SweptDuring(cli.cfg, cli.log, |old(cli.log)| - 1, old(cli.state), cli.state, old(cli.state.contours)[n])
    ensures n in old(cli.state.contours) && old(cli.state.contours)[n].deleting
            && Faultless(cli.script, old(cli.clock), cli.clock) ==>
      result == Finished || UserMoved(cli.log, |old(cli.log)| - 1, n)
    ensures result == Finished ==> Success(cli.cfg, cli.script, cli.log, |old(cli.log)| - 1, old(cli.state), cli.state, n)
    ensures n in old(cli.state.contours) && !old(cli.state.contours)[n].deleting && old(cli.state.contours)[n].IsFinalized()
            && AllSettled(cli.cfg, old(cli.state), old(cli.state.contours)[n], 0, CHILDREN) ==>
      cli.writes == old(cli.writes)
    ensures SyncReadings(cli.cfg, cli.script, cli.log, |old(cli.log)| - 1, n, readings) && last == LastOf(readings)
    ensures cli.statusWrites == old(cli.statusWrites) + NewsCount(readings)
    ensures Recorded(cli.log, |old(cli.log)|, n, readings, written)
    ensures Staying(old(cli.state), n) ==> cli.contourSteps == old(cli.contourSteps) + if written.Some? then 1 else 0
    ensures readings != [] ==> Served(old(cli.state), n) && old(cli.state.contours)[n].IsFinalized()
    ensures Faultless(cli.script, old(cli.clock), cli.clock) && Served(old(cli.state), n)
            && AloneSince(cli.log, |old(cli.log)| - 1, old(cli.state.contours)[n]) ==>
      FaultlessEffect(cli.cfg, old(cli.state), cli.state, old(cli.state.contours)[n], result,
                      Untouched(cli.script, old(cli.clock), cli.clock, n))
    ensures old(cli.Calm()) ==>
      CalmEffect(cli.cfg, old(cli.state), cli.state, n, result, cli.statusWrites - old(cli.statusWrites), last)
  {
    hide cli.Calm, cli.Valid, Inv, Evolves, Shares, SpecAccepted, SpecCrashes, Pruned, Attempts, AllReached,
      AllSettled, CalmStatus, ComparisonCrashes, Here, Known, Current, Tenant, Refinalized, StatusDone, Confined,
      AllGone, Tried, FaultlessEffect, Untouched, Faultless, OnlyChildren, SweptDuring, SparedDuring, DoomedNow,
      Touches, Holds, LastOf, NewsCount, SyncReadings, Swept, AskedAmong, AloneSince;
    LastIsNow(cli);
    Begun(cli);
    cli.Visiting(n);
    ghost var s, from, start, log0, contourSteps := cli.state, |cli.log| - 1, cli.clock, cli.log, cli.contourSteps;
    StepsCounted(cli);
    last, readings, written, course := None, [], None, Course(from, None);
    NoReading();
    // Nothing is done for a Contour that cannot be read.
    var reply := cli.GetContour(n);
    NothingRead(cli.cfg, cli.script, cli.log, from, n);
    FaultWidens(cli.script, start, cli.clock, start, cli.clock);
    assert cli.log[from] == log0[from];
    if reply.NotFound? {
      return Finished, None, [], None, course;
    }
    if reply.Failed? {
      NoEffect(cli.cfg, s, cli.state, n);
      Spared(cli, from, s, cli.state, n);
      NotFaultless(cli.script, start, cli.clock);
      StillDeparting(s, cli.state, n);
      return Requeue(Wrapped("failed to get contour", Failure("get"))), None, [], None, course;
    }
    var contour := reply.value;
    ghost var s1, log1 := cli.state, cli.log;
    Begun(cli);
    ReadIsCurrent(cli.cfg, s, s1, contour);
    FirstTurn(cli.script, start, n);
    if !contour.deleting {
      result, last, readings, written, course := ReconcileDesired(cli, contour, s, from, start);
      EvolvesTransitive(s, s1, cli.state);
      return;
    }
    result := ReconcileDeleted(cli, contour, s, from);
    if result != Finished && contourSteps == cli.contourSteps && Changed(cli.log, |log1| - 1, contour) {
      ChangedByUser(cli, log0, |log1| - 1, contour);
    }
    FaultWidens(cli.script, start + 1, cli.clock, start, cli.clock);
    NothingRead(cli.cfg, cli.script, cli.log, from, n);
  }

  lemma StepsCounted(cli: Cluster)
    requires cli.Valid()
    ensures cli.contourSteps == ContourSteps(cli.log) && Legal(cli.cfg, cli.log)
  {
  }

  /** A Contour that changed since the log was this, without the operator writing any. */
  lemma ChangedByUser(cli: Cluster, log: seq<Record>, later: nat, contour: Contour)
    requires cli.Valid() && log != [] && log <= cli.log && ContourSteps(log) == cli.contourSteps && |log| - 1 <= later
    requires At(log[|log| - 1].state.contours, contour.name) == Some(contour) && Changed(cli.log, later, contour)
    ensures UserMoved(cli.log, |log| - 1, contour.name)
  {
    hide Legal, Inv, Attributed;
    var m: nat :| later <= m < |cli.log| && At(cli.log[m].state.contours, contour.name) != Some(contour);
    forall k | |log| - 1 < k <= m ensures !IsContourStep(cli.log[k].event) {
      NoContourStep(log, cli.log, k);
    }
    MovedByUser(cli.cfg, cli.log, |log| - 1, m, contour.name);
  }

  /** The Contour is going and still holds the operator's finalizer. */
  ghost predicate Departing(s: State, n: Name) {
    n in s.contours && s.contours[n].deleting && s.contours[n].IsFinalized()
  }

  /** The Contour is there to stay and holds the operator's finalizer. */
  ghost predicate Staying(s: State, n: Name) {
    n in s.contours && !s.contours[n].deleting && s.contours[n].IsFinalized()
  }

  lemma StillDeparting(s: State, t: State, n: Name)
    requires Evolves(s, t)
    ensures Departing(s, n) ==> Holds(t, n, s.contours[n].spec.ns)
  {
  }

  /** The Contour is there to stay and its spec is valid. */
  ghost predicate Served(s: State, n: Name) {
    n in s.contours && !s.contours[n].deleting && SpecAccepted(s.contours[n].spec)
  }

  lemma Spared(cli: Cluster, from: nat, s: State, t: State, n: Name)
    requires t.objects == s.objects && from < |cli.log|
    ensures n in s.contours ==> SparedDuring(cli.cfg, cli.log, from, s, t, s.contours[n])
  {
    hide Doomed;
    if n in s.contours {
      var checks := Checks(from, from, from);
      assert ChecksWithin(checks, from, cli.log);
      ConfinedSelf(cli.cfg, s.contours[n].spec.ns, s, t, Doomed(cli.log, s.contours[n], checks));
      assert SparedAt(cli.cfg, cli.log, s, t, s.contours[n], checks);
    }
  }

  lemma NotFaultless(script: seq<Turn>, start: nat, until: nat)
    requires start < |script| && start < until && script[start].fault != NoFault
    ensures !Faultless(script, start, until)
  {
  }

  lemma FirstTurn(script: seq<Turn>, start: nat, n: Name)
    ensures Untouched(script, start, start + 1, n) <==> (start < |script| ==> !Touches(script[start].acts, n))
    ensures !Touches([], n)
  {
  }

  lemma AlongTheWay(script: seq<Turn>, start: nat, c: nat, n: Name)
    requires start <= c
    ensures Untouched(script, start, c + 1, n) ==> Untouched(script, start, c, n)
    ensures Untouched(script, start, c + 1, n) && c < |script| ==> !Touches(script[c].acts, n)
    ensures !Touches([], n)
  {
  }

  lemma UntouchedSplits(script: seq<Turn>, start: nat, c1: nat, c2: nat, until: nat, n: Name)
    requires start <= c1 <= c2 <= until
    ensures Untouched(script, start, until, n) ==> Untouched(script, start, c1, n) && Untouched(script, start, c2, n)
  {
  }

  lemma EnsuredSince(cfg: Config, s: State, mid: State, t: State, contour: Contour)
    requires Inv(cfg, s) && mid.objects == s.objects && Attempts(cfg, mid, t, contour, 0, CHILDREN)
    ensures Attempts(cfg, s, t, contour, 0, CHILDREN)
    ensures AllReached(cfg, mid, t, contour, 0, CHILDREN) ==> AllReached(cfg, s, t, contour, 0, CHILDREN)
    ensures AllSettled(cfg, s, contour, 0, CHILDREN) ==> AllSettled(cfg, mid, contour, 0, CHILDREN)
    ensures ComparisonCrashes(cfg, s, contour) <==> ComparisonCrashes(cfg, mid, contour)
  {
    hide KeyAt;
    NoAttempts(cfg, s, mid, contour, 0);
    AttemptsJoin(cfg, s, mid, t, contour, 0, 0, CHILDREN);
    if AllSettled(cfg, s, contour, 0, CHILDREN) {
      SettledOutside(cfg, s, mid, contour, 0, 0, CHILDREN);
    }
  }

  lemma DeletedSince(cfg: Config, log: seq<Record>, from: nat, later: nat, s: State, mid: State, t: State,
                     contour: Contour, checks: Checks)
    requires mid.objects == s.objects && Pruned(mid, t, contour.name) && from <= later && ChecksWithin(checks, later, log)
    requires Confined(cfg, contour.spec.ns, mid, t, Doomed(log, contour, checks))
    ensures Pruned(s, t, contour.name) && OnlyChildren(cfg, s, t, contour)
    ensures SparedDuring(cfg, log, from, s, t, contour)
    ensures AllGone(cfg, t, contour, Doomed(log, contour, checks)) ==>
      SweptDuring(cfg, log, from, s, t, contour) && Swept(cfg, s, t, contour, Doomed(log, contour, checks))
  {
    hide KeyAt, NotOurs, Doomed, AllGone;
    var ns, doomed := contour.spec.ns, Doomed(log, contour, checks);
    ConfinedSelf(cfg, ns, s, mid, {});
    ConfinedJoin(cfg, ns, s, mid, t, {}, doomed);
    assert {} + doomed == doomed;
    assert ChecksWithin(checks, from, log) && SparedAt(cfg, log, s, t, contour, checks);
    if AllGone(cfg, t, contour, doomed) {
      assert SweptAt(cfg, log, s, t, contour, checks);
    }
    forall k | Outside(cfg, ns, 0, CHILDREN, k) ensures At(t.objects, k) == At(s.objects, k) {
      assert !Among(cfg, ns, doomed, k);
    }
  }

  lemma DoomedInCalm(log: seq<Record>, contour: Contour, checks: Checks, s: State)
    requires AskedAmong(log, checks, s)
    ensures Doomed(log, contour, checks) == DoomedNow(s, contour)
  {
    hide SeesSharing, SeesOthers;
    SeenByContours(log[checks.sharedAt].state, s, contour);
    SeenByContours(log[checks.othersAt].state, s, contour);
    SeenByContours(log[checks.askedAt].state, s, contour);
  }

  /** While objects stay as they are, nothing has been done. */
  lemma NoEffect(cfg: Config, s: State, t: State, n: Name)
    requires Inv(cfg, s) && t.objects == s.objects
    ensures Effect(cfg, s, t, n)
  {
    hide KeyAt, SpecAccepted;
    if n in s.contours {
      PrunedSelf(s, t, n);
      NothingAttempted(cfg, s, t, s.contours[n]);
    }
  }

  lemma NothingAttempted(cfg: Config, s: State, t: State, contour: Contour)
    requires WellKinded(s) && t.objects == s.objects
    ensures Attempts(cfg, s, t, contour, 0, CHILDREN)
  {
    NoAttempts(cfg, s, t, contour, 0);
    AttemptsWiden(cfg, s, t, contour, 0, 0, CHILDREN);
  }

  lemma ReadIsCurrent(cfg: Config, s: State, t: State, contour: Contour)
    requires Inv(cfg, s) && Evolves(s, t) && At(s.contours, contour.name) == Some(contour)
    ensures Current(t, contour)
  {
  }

  lemma BecomesTenant(cfg: Config, s: State, t: State, contour: Contour)
    requires Inv(cfg, s) && Evolves(s, t) && t.objects == s.objects
    requires Current(s, contour) && contour.IsFinalized() && !Shares(s, contour)
    ensures Tenant(t, contour)
  {
    hide Inv, Shares, Evolves, Tenant;
    ValidatedIsTenant(cfg, s, contour);
    TenantStays(s, t, contour);
  }
}
