/** What every item of a run keeps to, whatever fails and whoever interferes, and what follows
    for the run as a whole. */
module Laws {
  import opened Wrappers
  import opened Api
  import opened Children
  import opened Protocol
  import opened Cluster
  import opened Contours
  import opened StatusSync
  import opened Ensure
  import opened Rbac
  import opened Controller
  import opened Progress
  import opened Safety
  import Slice

  datatype Work = Request(name: Name) | Meddling(key: Key, obj: Option<Object>)

  /** Where the run stood between two work items: turn, log position and state, and how many
      object and status writes were issued; and of the item just handled, what it read to compute
      a status, where in the log the status was written, how far it got, and whether it crashed. */
  datatype Mark = Mark(
    clock: nat,
    at: nat,
    state: State,
    writes: nat,
    statusWrites: nat,
    readings: seq<Reading>,
    written: Option<nat>,
    course: Course,
    crashed: bool)

  /** Before anything was handled. */
  ghost function NewMark(clock: nat, log: seq<Record>, state: State, writes: nat, statusWrites: nat): Mark
    requires log != []
  {
    Mark(clock, |log| - 1, state, writes, statusWrites, [], None, Course(0, None), false)
  }

  ghost predicate StandsAt(cli: Cluster, m: Mark)
    reads cli
  {
    cli.log != [] && m == Mark(cli.clock, |cli.log| - 1, cli.state, cli.writes, cli.statusWrites, m.readings, m.written,
                             m.course, m.crashed)
  }

  /** Status writes are accounted for by what was read, and the status of a Contour that stays
      is all that is written of it: once, where the sync says. */
  ghost predicate StatusLaw(cfg: Config, script: seq<Turn>, log: seq<Record>, n: Name, m: Mark, m': Mark) {
    && SyncReadings(cfg, script, log, m.at, n, m'.readings)
    && (m'.readings != [] ==> Staying(m.state, n))
    && Recorded(log, m.at + 1, n, m'.readings, m'.written)
    && (Staying(m.state, n) ==> forall k :: m.at < k < |log| && IsContourStep(log[k].event) ==> m'.written == Some(k))
  }

  ghost predicate Going(s: State, n: Name) {
    n in s.contours && s.contours[n].deleting
  }

  /** A Contour that is going is only written once everything is swept; and if no call fails and
      no user moves it, it is swept and written. */
  ghost predicate DeletionLaw(cfg: Config, script: seq<Turn>, log: seq<Record>, n: Name, m: Mark, m': Mark) {
    Going(m.state, n) ==>
      var c := m.state.contours[n];
      && (forall k :: m.at < k < |log| && IsContourStep(log[k].event) ==> SweptDuring(cfg, log, m.at, m.state, m'.state, c))
      && (Faultless(script, m.clock, m'.clock) ==>
            || UserMoved(log, m.at, n)
            || (&& SweptDuring(cfg, log, m.at, m.state, m'.state, c)
                && (c.IsFinalized() ==> Refinalized(log, m.at, c, Slice.Without(c.finalizers, FINALIZER)))))
  }

  /** When a request ends the process. */
  ghost predicate CrashLaw(cfg: Config, script: seq<Turn>, log: seq<Record>, n: Name, m: Mark, m': Mark) {
    && CourseWithin(script, log, m'.course, m.at, m.clock, m'.clock)
    && (m'.crashed <==> CrashCause(cfg, script, log, m.state, m.clock, n, m'.course))
  }

  /** What handling one item may have done, where the log ends with it: Contours are only
      written by requests for them. */
  ghost predicate ItemLaw(cfg: Config, script: seq<Turn>, log: seq<Record>, item: Work, m: Mark, m': Mark) {
    && m.at <= m'.at == |log| - 1 && log[m.at].state == m.state && log[m'.at].state == m'.state
    && m'.statusWrites == m.statusWrites + NewsCount(m'.readings)
    && (forall k :: m.at < k < |log| && IsContourStep(log[k].event) ==> item == Request(log[k].event.name))
    && match item
       case Request(n) =>
         StatusLaw(cfg, script, log, n, m, m') && DeletionLaw(cfg, script, log, n, m, m') && CrashLaw(cfg, script, log, n, m, m')
       case Meddling(_, _) => m'.readings == [] && !m'.crashed
  }

  /** The log as it was at this mark. */
  ghost function Upto(log: seq<Record>, m: Mark): seq<Record> {
    if m.at < |log| then log[..m.at + 1] else log
  }

  ghost predicate LawfulAt(cfg: Config, script: seq<Turn>, log: seq<Record>, work: seq<Work>, marks: seq<Mark>, i: nat)
    requires i < |work| && i + 1 < |marks|
  {
    marks[i + 1].at < |log| && ItemLaw(cfg, script, Upto(log, marks[i + 1]), work[i], marks[i], marks[i + 1])
  }

  ghost predicate Lawful(cfg: Config, script: seq<Turn>, log: seq<Record>, work: seq<Work>, marks: seq<Mark>) {
    && 0 < |marks| <= |work| + 1
    && marks[0].at < |log| && log[marks[0].at].state == marks[0].state
    && forall i :: 0 <= i < |marks| - 1 ==> LawfulAt(cfg, script, log, work, marks, i)
  }

  lemma LawfulStart(cfg: Config, script: seq<Turn>, log: seq<Record>, work: seq<Work>, marks: seq<Mark>)
    requires |marks| == 1 && marks[0].at < |log| && log[marks[0].at].state == marks[0].state
    ensures Lawful(cfg, script, log, work, marks)
  {
  }

  lemma LawfulGrows(cfg: Config, script: seq<Turn>, log: seq<Record>, later: seq<Record>, work: seq<Work>,
                    marks: seq<Mark>, m: Mark)
    requires Lawful(cfg, script, log, work, marks) && log <= later && |marks| <= |work|
    requires ItemLaw(cfg, script, later, work[|marks| - 1], marks[|marks| - 1], m)
    ensures Lawful(cfg, script, later, work, marks + [m])
  {
    hide StatusLaw, DeletionLaw, CrashLaw, NewsCount;
    var more := marks + [m];
    forall i | 0 <= i < |more| - 1 ensures LawfulAt(cfg, script, later, work, more, i) {
      if i < |marks| - 1 {
        assert LawfulAt(cfg, script, log, work, marks, i);
        assert Upto(later, marks[i + 1]) == Upto(log, marks[i + 1]);
      } else {
        assert Upto(later, m) == later;
      }
    }
  }

  /** The steps on Contours since the log was this, while one request was handled. */
  lemma StepsSince(cli: Cluster, log: seq<Record>, n: Name, k: nat)
    requires cli.Valid() && log <= cli.log && |log| <= k < |cli.log| && IsContourStep(cli.log[k].event)
    requires cli.visits != [] && cli.visits[|cli.visits| - 1].name == n && cli.visits[|cli.visits| - 1].from <= |log|
    ensures cli.log[k].event.name == n && cli.contourSteps != ContourSteps(log)
    ensures forall w :: |log| <= w < |cli.log| && IsContourStep(cli.log[w].event) && cli.contourSteps == ContourSteps(log) + 1 ==> w == k
  {
    hide Legal, Inv, Attributed;
    RequestActsForOne(cli, k);
    if cli.contourSteps == ContourSteps(log) {
      NoContourStep(log, cli.log, k);
    }
    forall w | |log| <= w < |cli.log| && IsContourStep(cli.log[w].event) && cli.contourSteps == ContourSteps(log) + 1
      ensures w == k
    {
      OneContourStep(log, cli.log, w, k);
    }
  }

  /** A request just handled has kept to the laws. */
  lemma RequestIsLawful(cli: Cluster, log: seq<Record>, n: Name, m: Mark, m': Mark, result: Result)
    requires cli.Valid() && log != [] && log <= cli.log && m.at == |log| - 1 && m.state == log[m.at].state && StandsAt(cli, m')
    requires cli.log[m'.at].state == m'.state
    requires cli.visits != [] && cli.visits[|cli.visits| - 1].name == n && cli.visits[|cli.visits| - 1].from == |log|
    requires m'.statusWrites == m.statusWrites + NewsCount(m'.readings)
    requires SyncReadings(cli.cfg, cli.script, cli.log, m.at, n, m'.readings) && Recorded(cli.log, |log|, n, m'.readings, m'.written)
    requires m'.readings != [] ==> Staying(m.state, n)
    requires Staying(m.state, n) ==> cli.contourSteps == ContourSteps(log) + if m'.written.Some? then 1 else 0
    requires Going(m.state, n) && cli.contourSteps != ContourSteps(log) ==>
      SweptDuring(cli.cfg, cli.log, m.at, m.state, m'.state, m.state.contours[n])
    requires Going(m.state, n) && Faultless(cli.script, m.clock, m'.clock) ==> result == Finished || UserMoved(cli.log, m.at, n)
    requires result == Finished ==> Success(cli.cfg, cli.script, cli.log, m.at, m.state, m'.state, n)
    requires CrashLaw(cli.cfg, cli.script, cli.log, n, m, m')
    ensures ItemLaw(cli.cfg, cli.script, cli.log, Request(n), m, m')
  {
    hide cli.Valid, NewsCount, SyncReadings, SweptDuring, Faultless, UserMoved, StatusDone, AllReached, SpecAccepted,
      Refinalized, ContourSteps, Staying, Synced, CrashLaw;
    forall k | m.at < k < |cli.log| && IsContourStep(cli.log[k].event)
      ensures Request(n) == Request(cli.log[k].event.name)
      ensures Staying(m.state, n) ==> m'.written == Some(k)
      ensures Going(m.state, n) ==> SweptDuring(cli.cfg, cli.log, m.at, m.state, m'.state, m.state.contours[n])
    {
      StepsSince(cli, log, n, k);
    }
  }

  /** A change by others writes no Contour. */
  lemma MeddlingIsLawful(cli: Cluster, log: seq<Record>, item: Work, m: Mark, m': Mark)
    requires log != [] && log <= cli.log && m.at == |log| - 1 && m.state == log[m.at].state && StandsAt(cli, m')
    requires cli.log[m'.at].state == m'.state && ContourSteps(cli.log) == ContourSteps(log) && item.Meddling?
    requires m'.statusWrites == m.statusWrites && m'.readings == [] && !m'.crashed
    ensures ItemLaw(cli.cfg, cli.script, cli.log, item, m, m')
  {
    hide ContourSteps, StatusLaw, DeletionLaw, CrashLaw, NewsCount;
    NoReading();
    forall k | m.at < k < |cli.log| ensures !IsContourStep(cli.log[k].event) {
      NoContourStep(log, cli.log, k);
    }
  }

  // ---- Along a run -----------------------------------------------------------------------------------

  lemma {:induction false} MarksInOrder(cfg: Config, script: seq<Turn>, log: seq<Record>, work: seq<Work>, marks: seq<Mark>,
                                        i: nat, j: nat)
    requires Lawful(cfg, script, log, work, marks) && i <= j < |marks|
    ensures marks[i].at <= marks[j].at < |log| && log[marks[j].at].state == marks[j].state
    decreases j
  {
    hide StatusLaw, DeletionLaw, CrashLaw, NewsCount;
    if j > 0 {
      assert LawfulAt(cfg, script, log, work, marks, j - 1);
      if i < j {
        MarksInOrder(cfg, script, log, work, marks, i, j - 1);
      }
    }
  }

  /** Which item was being handled at a position of the log. */
  lemma {:induction false} WhichItem(marks: seq<Mark>, i: nat, j: nat, k: nat) returns (p: nat)
    requires i <= j < |marks| && marks[i].at < k <= marks[j].at
    ensures i <= p < j && marks[p].at < k <= marks[p + 1].at
    decreases j
  {
    p := j - 1;
    if k <= marks[p].at {
      p := WhichItem(marks, i, p, k);
    }
  }

  // ---- Crashes ---------------------------------------------------------------------------------------

  /** The item at which a run ended early was a request for a Contour that is to stay, and had one
      of the known causes; without faults it takes node port publishing. */
  lemma CrashHasCause(cfg: Config, script: seq<Turn>, log: seq<Record>, work: seq<Work>, marks: seq<Mark>, i: nat)
    requires Lawful(cfg, script, log, work, marks) && i + 1 < |marks| && marks[i + 1].crashed
    ensures work[i].Request? && work[i].name in marks[i].state.contours
    ensures CrashCause(cfg, script, Upto(log, marks[i + 1]), marks[i].state, marks[i].clock, work[i].name, marks[i + 1].course)
    ensures var c := marks[i].state.contours[work[i].name];
      && !c.deleting
      && (Faultless(script, marks[i].clock, marks[i + 1].clock) ==>
            && c.spec.publishing == NodePortService
            && (SpecCrashes(c.spec) || ComparisonCrashes(cfg, marks[i].state, c)))
  {
    hide StatusLaw, DeletionLaw, NewsCount, SpecAccepted, SeesSharing;
    assert LawfulAt(cfg, script, log, work, marks, i);
  }

  // ---- Departure -------------------------------------------------------------------------------------

  /** Item p was a request for this Contour, which was going, and it left nothing of the Contour
      that others were not seen to need. */
  ghost predicate SweptBy(cfg: Config, log: seq<Record>, work: seq<Work>, marks: seq<Mark>, p: nat, n: Name, ns: string) {
    && p < |work| && p + 1 < |marks| && marks[p + 1].at < |log| && work[p] == Request(n)
    && Going(marks[p].state, n) && marks[p].state.contours[n].spec.ns == ns
    && SweptDuring(cfg, Upto(log, marks[p + 1]), marks[p].at, marks[p].state, marks[p + 1].state, marks[p].state.contours[n])
  }

  /** If a Contour stops being held while an item is handled, the item is a request for it that
      swept it. */
  lemma ReleasedByItem(cli: Cluster, work: seq<Work>, marks: seq<Mark>, p: nat, n: Name, ns: string, k: nat)
    requires cli.Valid() && Lawful(cli.cfg, cli.script, cli.log, work, marks) && p + 1 < |marks|
    requires Holds(marks[p].state, n, ns) && marks[p].at < k <= marks[p + 1].at && k < |cli.log|
    requires !Holds(cli.log[k].state, n, ns)
    ensures SweptBy(cli.cfg, cli.log, work, marks, p, n, ns)
  {
    hide cli.Valid, SweptDuring, SyncReadings, UserMoved, Refinalized, Faultless, NewsCount, Synced;
    assert LawfulAt(cli.cfg, cli.script, cli.log, work, marks, p);
    var log := Upto(cli.log, marks[p + 1]);
    MarksInOrder(cli.cfg, cli.script, cli.log, work, marks, p, p);
    if forall q :: marks[p].at < q <= k ==> cli.log[q].event != Event.Finalizers(n) {
      HolderStays(cli, marks[p].at, k, n, ns);
      assert false;
    }
    var q :| marks[p].at < q <= k && cli.log[q].event == Event.Finalizers(n);
    assert log[q].event == Event.Finalizers(n) && IsContourStep(log[q].event);
  }

  /** Over any stretch of a run, a Contour only stops being held once a request for it has swept
      everything. */
  lemma {:induction false} NoReleaseWithoutSweep(cli: Cluster, work: seq<Work>, marks: seq<Mark>, i: nat, j: nat,
                                                 n: Name, ns: string, k: nat)
    requires cli.Valid() && Lawful(cli.cfg, cli.script, cli.log, work, marks) && i <= j < |marks|
    requires Holds(marks[i].state, n, ns) && marks[i].at < k <= marks[j].at && k < |cli.log| && !Holds(cli.log[k].state, n, ns)
    ensures exists p :: i <= p < j && SweptBy(cli.cfg, cli.log, work, marks, p, n, ns)
    decreases j - i
  {
    hide cli.Valid, LawfulAt, Holds, SweptBy;
    MarksInOrder(cli.cfg, cli.script, cli.log, work, marks, i, i);
    MarksInOrder(cli.cfg, cli.script, cli.log, work, marks, i, i + 1);
    if k <= marks[i + 1].at {
      ReleasedByItem(cli, work, marks, i, n, ns, k);
    } else if Holds(marks[i + 1].state, n, ns) {
      NoReleaseWithoutSweep(cli, work, marks, i + 1, j, n, ns, k);
    } else {
      ReleasedByItem(cli, work, marks, i, n, ns, marks[i + 1].at);
    }
  }

  /** A Contour that is going is let go, after everything was swept, at the latest by the first
      request for it none of whose calls fails and during which no user changes it, whatever
      else users and other requests do. */
  lemma GoodRequestReleases(cli: Cluster, work: seq<Work>, marks: seq<Mark>, i: nat, p: nat, n: Name)
    requires cli.Valid() && Lawful(cli.cfg, cli.script, cli.log, work, marks) && i <= p && p + 1 < |marks|
    requires Departing(marks[i].state, n) && work[p] == Request(n)
    requires Faultless(cli.script, marks[p].clock, marks[p + 1].clock)
    requires !UserMoved(Upto(cli.log, marks[p + 1]), marks[p].at, n)
    ensures var ns := marks[i].state.contours[n].spec.ns;
      && (exists k :: marks[i].at < k <= marks[p + 1].at && k < |cli.log| && !Holds(cli.log[k].state, n, ns))
      && (exists q :: i <= q <= p && SweptBy(cli.cfg, cli.log, work, marks, q, n, ns))
  {
    hide cli.Valid, SweptBy, UserMoved, Faultless;
    var ns := marks[i].state.contours[n].spec.ns;
    MarksInOrder(cli.cfg, cli.script, cli.log, work, marks, i, p);
    MarksInOrder(cli.cfg, cli.script, cli.log, work, marks, i, i);
    MarksInOrder(cli.cfg, cli.script, cli.log, work, marks, p, p + 1);
    if forall m :: marks[i].at <= m <= marks[p].at ==> Holds(cli.log[m].state, n, ns) {
      GoingStays(cli, marks[i].at, marks[p].at, n, ns);
      var k := ReleasedNow(cli, work, marks, p, n, ns);
      NoReleaseWithoutSweep(cli, work, marks, i, p + 1, n, ns, k);
    } else {
      var k: nat :| marks[i].at <= k <= marks[p].at && !Holds(cli.log[k].state, n, ns);
      NoReleaseWithoutSweep(cli, work, marks, i, p + 1, n, ns, k);
    }
  }

  /** The request at hand, unhindered, takes the finalizer off. */
  lemma ReleasedNow(cli: Cluster, work: seq<Work>, marks: seq<Mark>, p: nat, n: Name, ns: string) returns (k: nat)
    requires cli.Valid() && Lawful(cli.cfg, cli.script, cli.log, work, marks) && p + 1 < |marks|
    requires Departing(marks[p].state, n) && marks[p].state.contours[n].spec.ns == ns && work[p] == Request(n)
    requires Faultless(cli.script, marks[p].clock, marks[p + 1].clock)
    requires !UserMoved(Upto(cli.log, marks[p + 1]), marks[p].at, n)
    ensures marks[p].at < k <= marks[p + 1].at && k < |cli.log| && !Holds(cli.log[k].state, n, ns)
  {
    hide cli.Valid, SweptDuring, StatusLaw, CrashLaw, UserMoved, Faultless, NewsCount;
    assert LawfulAt(cli.cfg, cli.script, cli.log, work, marks, p);
    var log, c := Upto(cli.log, marks[p + 1]), marks[p].state.contours[n];
    k :| marks[p].at < k < |log| && RefinalizedAt(log, k, c, Slice.Without(c.finalizers, FINALIZER));
    Slice.WithoutCounts(c.finalizers, FINALIZER);
  }

  // ---- Quiet syncs -----------------------------------------------------------------------------------

  /** Where the status is as a sync left it, and where its first attempt read it. */
  lemma SyncLeaves(cli: Cluster, work: seq<Work>, marks: seq<Mark>, i: nat, n: Name) returns (a: nat)
    requires cli.Valid() && Lawful(cli.cfg, cli.script, cli.log, work, marks) && i + 1 < |marks| && work[i] == Request(n)
    requires StatusesUnique(cli.log[0].state) && marks[i + 1].readings != []
    requires marks[i + 1].written.Some? || !News(LastOf(marks[i + 1].readings).value)
    ensures marks[i].at <= a <= marks[i + 1].at < |cli.log|
    ensures var r := LastOf(marks[i + 1].readings).value;
      && n in cli.log[a].state.contours && cli.log[a].state.contours[n].status == StatusLeft(r)
      && HasUniqueKinds(r.latest.status)
    ensures marks[i + 1].written.Some? ==> a == marks[i + 1].written.value
  {
    hide cli.Valid, DeletionLaw, CrashLaw, NewsCount, Synced, HasUniqueKinds, KeyAt, HealthOf, TrueHealth;
    assert LawfulAt(cli.cfg, cli.script, cli.log, work, marks, i);
    var log, r := Upto(cli.log, marks[i + 1]), LastOf(marks[i + 1].readings).value;
    assert Truthful(cli.cfg, cli.script, log, marks[i].at, n, r);
    StatusesStayUnique(cli, r.latestAt);
    a := if marks[i + 1].written.Some? then marks[i + 1].written.value else r.latestAt;
  }

  lemma FirstRead(cli: Cluster, work: seq<Work>, marks: seq<Mark>, j: nat, n: Name)
    requires Lawful(cli.cfg, cli.script, cli.log, work, marks) && j + 1 < |marks| && work[j] == Request(n)
    requires marks[j + 1].readings != []
    ensures var r := marks[j + 1].readings[0];
      && marks[j].at <= r.latestAt <= marks[j + 1].at < |cli.log|
      && At(cli.log[r.latestAt].state.contours, n) == Some(r.latest)
      && (marks[j + 1].written.Some? ==> r.latestAt < marks[j + 1].written.value)
      && (!News(r) ==> marks[j + 1].readings == [r])
  {
    hide DeletionLaw, CrashLaw, NewsCount, KeyAt, TrueHealth, Synced;
    assert LawfulAt(cli.cfg, cli.script, cli.log, work, marks, j);
    var log, rs := Upto(cli.log, marks[j + 1]), marks[j + 1].readings;
    assert Truthful(cli.cfg, cli.script, log, marks[j].at, n, rs[0]);
  }

  /** Two requests for a Contour with none for it in between: what is written of it until the
      second one is done is what their syncs write. */
  lemma OnlySyncsWrite(cli: Cluster, work: seq<Work>, marks: seq<Mark>, i: nat, j: nat, n: Name, k: nat)
    requires Lawful(cli.cfg, cli.script, cli.log, work, marks) && i < j && j + 1 < |marks|
    requires work[i] == Request(n) && work[j] == Request(n) && forall p :: i < p < j ==> work[p] != Request(n)
    requires marks[i + 1].readings != [] && marks[j + 1].readings != []
    requires marks[i].at < k <= marks[j + 1].at && k < |cli.log|
    requires IsContourStep(cli.log[k].event) && cli.log[k].event.name == n
    ensures marks[i + 1].written == Some(k) || marks[j + 1].written == Some(k)
  {
    hide DeletionLaw, CrashLaw, NewsCount, SyncReadings, Recorded;
    var p := WhichItem(marks, i, j + 1, k);
    assert LawfulAt(cli.cfg, cli.script, cli.log, work, marks, p);
    var log := Upto(cli.log, marks[p + 1]);
    assert log[k].event == cli.log[k].event;
    assert work[p] == Request(n);
  }

  /** When a request comes to write the status after an earlier one has got it written, or found
      it right, and the workloads report as they did then, it writes none: whatever time it is,
      and whatever users and other requests did in between. */
  lemma LaterRequestIsQuiet(cli: Cluster, work: seq<Work>, marks: seq<Mark>, i: nat, j: nat, n: Name)
    requires cli.Valid() && Lawful(cli.cfg, cli.script, cli.log, work, marks) && i < j && j + 1 < |marks|
    requires work[i] == Request(n) && work[j] == Request(n) && forall p :: i < p < j ==> work[p] != Request(n)
    requires StatusesUnique(cli.log[0].state)
    requires marks[i + 1].readings != [] && marks[j + 1].readings != []
    requires marks[i + 1].written.Some? || !News(LastOf(marks[i + 1].readings).value)
    requires var r, r' := LastOf(marks[i + 1].readings).value, marks[j + 1].readings[0];
      r'.deployment == r.deployment && r'.daemonSet == r.daemonSet
    ensures marks[j + 1].readings == [marks[j + 1].readings[0]] && marks[j + 1].statusWrites == marks[j].statusWrites
  {
    hide cli.Valid, DeletionLaw, SyncReadings, Recorded, NewsCount, News, StatusLeft, StatusesUnique, HasUniqueKinds, Holds;
    var r, r' := LastOf(marks[i + 1].readings).value, marks[j + 1].readings[0];
    var a := SyncLeaves(cli, work, marks, i, n);
    FirstRead(cli, work, marks, j, n);
    MarksInOrder(cli.cfg, cli.script, cli.log, work, marks, i + 1, j);
    StayedOn(cli, work, marks, i, j, n);
    assert Present(cli.log, a, r'.latestAt, n);
    forall k | a < k <= r'.latestAt ensures !(cli.log[k].event.StatusUpdate? && cli.log[k].event.name == n) {
      if cli.log[k].event.StatusUpdate? && cli.log[k].event.name == n {
        OnlySyncsWrite(cli, work, marks, i, j, n, k);
      }
    }
    StatusStays(cli, a, r'.latestAt, n);
    NextSyncIsQuiet(r, r');
    assert LawfulAt(cli.cfg, cli.script, cli.log, work, marks, j);
  }

  /** A request that read the status was for a Contour that stays, and what it wrote was the
      status. */
  lemma ReadingMeansStaying(cli: Cluster, work: seq<Work>, marks: seq<Mark>, i: nat, n: Name)
    requires Lawful(cli.cfg, cli.script, cli.log, work, marks) && i + 1 < |marks|
    requires work[i] == Request(n) && marks[i + 1].readings != []
    ensures Staying(marks[i].state, n)
    ensures marks[i + 1].written.Some? ==>
      marks[i + 1].written.value < |cli.log| && cli.log[marks[i + 1].written.value].event.StatusUpdate?
  {
    hide DeletionLaw, CrashLaw, NewsCount, SyncReadings, Synced;
    assert LawfulAt(cli.cfg, cli.script, cli.log, work, marks, i);
  }

  /** Between the two, the Contour was there all the time. */
  lemma StayedOn(cli: Cluster, work: seq<Work>, marks: seq<Mark>, i: nat, j: nat, n: Name)
    requires cli.Valid() && Lawful(cli.cfg, cli.script, cli.log, work, marks) && i < j && j + 1 < |marks|
    requires work[i] == Request(n) && work[j] == Request(n) && forall p :: i < p < j ==> work[p] != Request(n)
    requires marks[i + 1].readings != [] && marks[j + 1].readings != []
    ensures marks[i].at <= marks[j + 1].at < |cli.log| && Present(cli.log, marks[i].at, marks[j + 1].readings[0].latestAt, n)
  {
    hide cli.Valid, LawfulAt;
    ReadingMeansStaying(cli, work, marks, i, n);
    ReadingMeansStaying(cli, work, marks, j, n);
    FirstRead(cli, work, marks, j, n);
    MarksInOrder(cli.cfg, cli.script, cli.log, work, marks, i, j);
    MarksInOrder(cli.cfg, cli.script, cli.log, work, marks, j, j + 1);
    MarksInOrder(cli.cfg, cli.script, cli.log, work, marks, i, i);
    var ns := marks[i].state.contours[n].spec.ns;
    var b := marks[j + 1].readings[0].latestAt;
    forall k | marks[i].at < k <= b ensures cli.log[k].event != Event.Finalizers(n) {
      if cli.log[k].event == Event.Finalizers(n) {
        OnlySyncsWrite(cli, work, marks, i, j, n, k);
      }
    }
    HolderStays(cli, marks[i].at, b, n, ns);
  }
}
