/** A whole run of the operator: requests in any order, and changes by others in between. */
module Run {
  import opened Wrappers
  import opened Api
  import opened Children
  import opened Protocol
  import opened Cluster
  import opened Contours
  import opened StatusSync
  import opened Rbac
  import opened Controller
  import opened Convergence
  import opened Safety
  import opened Progress
  import opened Laws

  function RequestOf(item: Work): seq<Name> {
    match item
    case Request(n) => [n]
    case Meddling(_, _) => []
  }

  /** The requests among the work items, in order. */
  function Requests(work: seq<Work>): seq<Name> {
    if work == [] then [] else Requests(work[..|work| - 1]) + RequestOf(work[|work| - 1])
  }

  function Visited(visits: seq<Visit>): seq<Name> {
    seq(|visits|, i requires 0 <= i < |visits| => visits[i].name)
  }

  // ---- Following one Contour ---------------------------------------------------------------------

  /** The item was a request for the Contour none of whose calls failed; before the Contour was
      finalized, also nobody else may have written it meanwhile. */
  ghost predicate Good(script: seq<Turn>, item: Work, c: Contour, from: nat, before: State, until: nat) {
    && item == Request(c.name) && Faultless(script, from, until)
    && (Holds(before, c.name, c.spec.ns) || Untouched(script, from, until, c.name))
  }

  ghost predicate GoodAt(script: seq<Turn>, work: seq<Work>, marks: seq<Mark>, c: Contour, i: nat)
    requires i < |work| && i + 1 < |marks|
  {
    Good(script, work[i], c, marks[i].clock, marks[i].state, marks[i + 1].clock)
  }

  /** How many of the first items were such requests. */
  ghost function Goods(script: seq<Turn>, work: seq<Work>, marks: seq<Mark>, c: Contour, upto: nat): nat
    requires upto <= |work| && upto < |marks|
  {
    if upto == 0 then 0
    else
      var more := if GoodAt(script, work, marks, c, upto - 1) then 1 else 0;
      Goods(script, work, marks, c, upto - 1) + more
  }

  function Stage(goods: nat): nat {
    if goods < 3 then goods else 3
  }

  ghost predicate SparesChildren(cfg: Config, item: Work, ns: string) {
    item.Meddling? ==> Outside(cfg, ns, 0, CHILDREN, item.key)
  }

  /** The Contour has got as far as its good requests bring it, and once settled, no request for
      it has issued a write. */
  ghost predicate OnTrack(cfg: Config, script: seq<Turn>, work: seq<Work>, marks: seq<Mark>, c: Contour, i: nat) {
    && i <= |work| && i < |marks|
    && AtStage(cfg, marks[i].state, c, Stage(Goods(script, work, marks, c, i)))
    && (i > 0 && work[i - 1] == Request(c.name) && Goods(script, work, marks, c, i - 1) >= 3 ==>
          marks[i].writes == marks[i - 1].writes)
  }

  lemma {:induction false} GoodsPrefix(script: seq<Turn>, work: seq<Work>, marks: seq<Mark>, more: seq<Mark>, c: Contour, i: nat)
    requires i <= |work| && i < |marks| && marks <= more
    ensures Goods(script, work, more, c, i) == Goods(script, work, marks, c, i)
  {
    hide Good;
    if i > 0 {
      GoodsPrefix(script, work, marks, more, c, i - 1);
    }
  }

  /** Handles one item, from the mark m on; c is a Contour that has got as far as stage k. */
  method HandleItem(cli: Cluster, item: Work, ghost m: Mark, ghost c: Contour, ghost k: nat)
    returns (crashed: bool, ghost reached: Mark)
    requires cli.Valid() && StandsAt(cli, m)
    modifies cli
    ensures cli.Valid() && old(cli.log) <= cli.log && old(cli.clock) <= cli.clock && StandsAt(cli, reached) && reached.crashed == crashed
    ensures Visited(cli.visits) == Visited(old(cli.visits)) + RequestOf(item)
    ensures ItemLaw(cli.cfg, cli.script, cli.log, item, m, reached)
    ensures SpecAccepted(c.spec) && SparesChildren(cli.cfg, item, c.spec.ns) && SteadySince(cli.log, m.at, c)
            && AtStage(cli.cfg, m.state, c, k) ==>
      && AtStage(cli.cfg, cli.state, c, if Good(cli.script, item, c, m.clock, m.state, cli.clock) then Raised(k) else k)
      && (item == Request(c.name) && k >= 3 ==> cli.writes == m.writes)
  {
    hide cli.Calm, cli.Valid, Inv, Effect, Success, CalmEffect, FaultlessEffect, SparedDuring, AtStage, SpecAccepted,
      Outside, Untouched, Faultless, SyncReadings, NewsCount, LastOf, AllSettled, Evolves, Shares, AloneSince,
      SweptDuring, ItemLaw, Recorded, UserMoved, Holds, CrashCause, CourseWithin;
    LastIsNow(cli);
    Begun(cli);
    StepsCounted(cli);
    ghost var s, start, from, log := cli.state, cli.clock, |cli.log| - 1, cli.log;
    crashed := false;
    NoReading();
    match item {
    case Request(n) =>
      var result;
      ghost var last, readings, written, course;
      result, last, readings, written, course := Reconcile(cli, n);
      crashed := result == Crash;
      Begun(cli);
      LastIsNow(cli);
      assert cli.log[from] == log[from];
      reached := Mark(cli.clock, |cli.log| - 1, cli.state, cli.writes, cli.statusWrites, readings, written, course, crashed);
      RequestIsLawful(cli, log, n, m, reached, result);
      if SpecAccepted(c.spec) && SteadySince(cli.log, from, c) && AtStage(cli.cfg, s, c, k) {
        assert Steady(s, c);
        if n == c.name {
          OwnItem(cli, s, c, k, from, start, result);
        } else {
          OtherItem(cli, s, c, k, from, n);
        }
      }
    case Meddling(key, obj) =>
      cli.TamperWith(key, obj);
      Begun(cli);
      LastIsNow(cli);
      StepsCounted(cli);
      reached := Mark(cli.clock, |cli.log| - 1, cli.state, cli.writes, cli.statusWrites, [], None, Course(0, None), false);
      MeddlingIsLawful(cli, log, item, m, reached);
      if SparesChildren(cli.cfg, item, c.spec.ns) && AtStage(cli.cfg, s, c, k) {
        MeddlingKeeps(cli.cfg, s, cli.state, c, key, k);
      }
    }
  }

  /** A request for the Contour has just been handled. */
  lemma OwnItem(cli: Cluster, s: State, c: Contour, k: nat, from: nat, start: nat, result: Result)
    requires Inv(cli.cfg, s) && Inv(cli.cfg, cli.state) && Steady(s, c) && SpecAccepted(c.spec)
    requires SteadySince(cli.log, from, c) && AtStage(cli.cfg, s, c, k) && start <= cli.clock
    requires Effect(cli.cfg, s, cli.state, c.name) && Evolves(s, cli.state)
    requires Faultless(cli.script, start, cli.clock) && AloneSince(cli.log, from, s.contours[c.name]) ==>
      FaultlessEffect(cli.cfg, s, cli.state, s.contours[c.name], result, Untouched(cli.script, start, cli.clock, c.name))
    ensures AtStage(cli.cfg, cli.state, c, if Good(cli.script, Request(c.name), c, start, s, cli.clock) then Raised(k) else k)
    ensures k >= 3 ==> s.contours[c.name].IsFinalized() && AllSettled(cli.cfg, s, s.contours[c.name], 0, CHILDREN)
  {
    hide Inv, AtStage, SpecAccepted, Effect, Evolves, FaultlessEffect, Untouched, Faultless, Shares, Holds;
    var stored := s.contours[c.name];
    OwnRequestKeeps(cli.cfg, s, cli.state, c, k);
    SteadyMeansAlone(cli.log, from, c, stored);
    if Faultless(cli.script, start, cli.clock)
       && (Holds(s, c.name, c.spec.ns) || Untouched(cli.script, start, cli.clock, c.name))
    {
      GoodRequestAdvances(cli.cfg, s, cli.state, c, k, result, Untouched(cli.script, start, cli.clock, c.name));
    }
    if k >= 3 {
      LastStage(cli.cfg, s, c, k);
    }
  }

  lemma SteadyMeansAlone(log: seq<Record>, from: nat, c: Contour, stored: Contour)
    requires SteadySince(log, from, c) && stored.name == c.name && stored.spec == c.spec
    ensures AloneSince(log, from, stored)
  {
    forall m | from <= m < |log| ensures !Shares(log[m].state, stored) {
      assert Steady(log[m].state, c);
    }
  }

  lemma LastStage(cfg: Config, s: State, c: Contour, k: nat)
    requires AtStage(cfg, s, c, k) && k >= 3 && Steady(s, c)
    ensures s.contours[c.name].IsFinalized() && AllSettled(cfg, s, s.contours[c.name], 0, CHILDREN)
  {
    hide RankOf, EnvoySettles, Shares;
    var stored := s.contours[c.name];
    forall i | 0 <= i < CHILDREN ensures RankOf(cfg, s, stored, i) == 0 {
      SameWants(cfg, s, s, stored, c, i);
    }
    SettledIsRankZero(cfg, s, stored);
  }

  /** A request for another Contour has just been handled. */
  lemma OtherItem(cli: Cluster, s: State, c: Contour, k: nat, from: nat, m: Name)
    requires cli.Valid() && Inv(cli.cfg, s) && Inv(cli.cfg, cli.state) && Steady(s, c) && m != c.name
    requires from < |cli.log| && cli.log[from].state == s && cli.log[|cli.log| - 1].state == cli.state
    requires cli.visits != [] && cli.visits[|cli.visits| - 1].name == m && cli.visits[|cli.visits| - 1].from == from + 1
    requires Effect(cli.cfg, s, cli.state, m) && AtStage(cli.cfg, s, c, k)
    ensures AtStage(cli.cfg, cli.state, c, k)
  {
    hide cli.Valid, Inv, AtStage, Effect, Shares, Holds;
    if Holds(s, c.name, c.spec.ns) {
      HoldsMeanwhile(cli, from, |cli.log| - 1, c.name, c.spec.ns);
    }
    OtherRequestKeeps(cli.cfg, s, cli.state, c, m, k);
  }

  /** Handles work items one after the other, as the single worker does; only a crash ends the
      run early. The requests are taken up in order, the invariants hold in every state the
      store was ever in, and every item keeps to the laws. A valid Contour that stays, with its
      spec and its namespace its own, and whose Envoy Service settles, is settled after three
      good requests for it, whatever else happens in between: users' edits and reports, failed
      requests for it, requests for others. From then on requests for it issue no write, faults
      or not. */
  method HandleWork(cli: Cluster, work: seq<Work>, ghost c: Contour)
    returns (done: nat, crashed: bool, ghost marks: seq<Mark>)
    requires cli.Valid()
    modifies cli
    ensures cli.Valid() && old(cli.log) <= cli.log && done <= |work| && (crashed || done == |work|)
    ensures Visited(cli.visits) == Visited(old(cli.visits)) + Requests(work[..done])
    ensures forall k :: 0 <= k < |cli.log| ==> Inv(cli.cfg, cli.log[k].state)
    ensures |marks| == done + 1 && marks[0] == NewMark(old(cli.clock), old(cli.log), old(cli.state), old(cli.writes), old(cli.statusWrites))
    ensures StandsAt(cli, marks[done]) && Lawful(cli.cfg, cli.script, cli.log, work, marks)
    ensures marks[done].crashed == crashed && forall i :: 0 <= i < done ==> !marks[i].crashed
    ensures SpecAccepted(c.spec) && AtStage(cli.cfg, old(cli.state), c, 0) && SteadySince(cli.log, |old(cli.log)| - 1, c)
            && (forall i :: 0 <= i < done ==> SparesChildren(cli.cfg, work[i], c.spec.ns)) ==>
      forall i :: 0 <= i <= done ==> OnTrack(cli.cfg, cli.script, work, marks, c, i)
  {
    hide cli.Calm, cli.Valid, Inv, AtStage, SpecAccepted, SparesChildren, Good, Steady, ItemLaw, Lawful;
    LastIsNow(cli);
    Begun(cli);
    ghost var from := |cli.log| - 1;
    done, crashed := 0, false;
    marks := [NewMark(cli.clock, cli.log, cli.state, cli.writes, cli.statusWrites)];
    LawfulStart(cli.cfg, cli.script, cli.log, work, marks);
    while done < |work| && !crashed
      invariant cli.Valid() && old(cli.log) <= cli.log && done <= |work|
      invariant Visited(cli.visits) == Visited(old(cli.visits)) + Requests(work[..done])
      invariant |marks| == done + 1
      invariant marks[0] == NewMark(old(cli.clock), old(cli.log), old(cli.state), old(cli.writes), old(cli.statusWrites))
      invariant StandsAt(cli, marks[done]) && Lawful(cli.cfg, cli.script, cli.log, work, marks)
      invariant marks[done].crashed == crashed && forall i :: 0 <= i < done ==> !marks[i].crashed
      invariant SpecAccepted(c.spec) && AtStage(cli.cfg, old(cli.state), c, 0) && SteadySince(cli.log, from, c)
                && (forall i :: 0 <= i < done ==> SparesChildren(cli.cfg, work[i], c.spec.ns)) ==>
        forall i :: 0 <= i <= done ==> OnTrack(cli.cfg, cli.script, work, marks, c, i)
      decreases |work| - done
    {
      assert work[..done + 1][..done] == work[..done];
      ghost var before, at, log, was := Visited(cli.visits), |cli.log| - 1, cli.log, marks;
      ghost var k := Stage(Goods(cli.script, work, marks, c, done));
      LastIsNow(cli);
      ghost var reached;
      crashed, reached := HandleItem(cli, work[done], marks[done], c, k);
      assert Visited(cli.visits) == before + RequestOf(work[done]);
      LawfulGrows(cli.cfg, cli.script, log, cli.log, work, marks, reached);
      marks := marks + [reached];
      SteadyBefore(log, cli.log, from, at, c);
      if SpecAccepted(c.spec) && SparesChildren(cli.cfg, work[done], c.spec.ns) && SteadySince(cli.log, from, c)
         && (forall i :: 0 <= i <= done ==> OnTrack(cli.cfg, cli.script, work, was, c, i))
      {
        assert OnTrack(cli.cfg, cli.script, work, was, c, done);
        StillOnTrack(cli.cfg, cli.script, work, was, marks, c, done);
      }
      done := done + 1;
    }
    EveryState(cli);
  }

  lemma SteadyBefore(log: seq<Record>, later: seq<Record>, from: nat, at: nat, c: Contour)
    requires log <= later && from <= at
    ensures SteadySince(later, from, c) ==> SteadySince(log, from, c) && SteadySince(later, at, c)
  {
    hide Steady;
    if SteadySince(later, from, c) {
      forall m | from <= m < |log| ensures Steady(log[m].state, c) {
        assert later[m] == log[m];
      }
    }
  }

  lemma StillOnTrack(cfg: Config, script: seq<Turn>, work: seq<Work>, marks: seq<Mark>, more: seq<Mark>, c: Contour, done: nat)
    requires done < |work| && |marks| == done + 1 && marks <= more && |more| == done + 2
    requires forall i :: 0 <= i <= done ==> OnTrack(cfg, script, work, marks, c, i)
    requires var k := Stage(Goods(script, work, marks, c, done));
      && AtStage(cfg, more[done + 1].state, c,
                 if GoodAt(script, work, more, c, done) then Raised(k) else k)
      && (work[done] == Request(c.name) && k >= 3 ==> more[done + 1].writes == marks[done].writes)
    ensures forall i :: 0 <= i <= done + 1 ==> OnTrack(cfg, script, work, more, c, i)
  {
    hide AtStage, Good;
    forall i | 0 <= i <= done + 1 ensures OnTrack(cfg, script, work, more, c, i) {
      if i <= done {
        assert OnTrack(cfg, script, work, marks, c, i);
        GoodsPrefix(script, work, marks, more, c, i);
        if i > 0 {
          GoodsPrefix(script, work, marks, more, c, i - 1);
        }
      } else {
        GoodsPrefix(script, work, marks, more, c, done);
      }
    }
  }

  /** Three good requests, wherever they fall in the run, and the Contour is settled. */
  lemma ThreeGoodRequestsSettle(cfg: Config, script: seq<Turn>, work: seq<Work>, marks: seq<Mark>, c: Contour, i: nat)
    requires OnTrack(cfg, script, work, marks, c, i) && Goods(script, work, marks, c, i) >= 3
    ensures AllSettled(cfg, marks[i].state, c, 0, CHILDREN) && Distance(cfg, marks[i].state, c) == 0
  {
    hide AtStage, Good, AllSettled;
    LastStageIsSettled(cfg, marks[i].state, c);
  }

  lemma EveryState(cli: Cluster)
    requires cli.Valid()
    ensures forall k :: 0 <= k < |cli.log| ==> Inv(cli.cfg, cli.log[k].state)
  {
    hide Legal, Inv;
    forall k | 0 <= k < |cli.log| ensures Inv(cli.cfg, cli.log[k].state) {
      InvAlways(cli.cfg, cli.log, k);
    }
  }
}
