/** Contours in the store: who else is there, validation, and the finalizer
    (internal/objects/contour, pkg/validation). */
module Contours {
  import opened Wrappers
  import opened Api
  import opened Protocol
  import opened Cluster
  import opened Retryable
  import opened Validation
  import Slice

  /** A copy of a Contour read earlier: if the stored one still has its version, it is it. */
  ghost predicate Known(s: State, contour: Contour) {
    && contour.version <= s.version
    && (contour.name in s.contours && s.contours[contour.name].version == contour.version ==>
          s.contours[contour.name] == contour)
  }

  /** What the code learns when it asks who shares the namespace, and who else there is. */
  ghost predicate SeesSharing(s: State, contour: Contour) {
    Shares(s, contour) && !Misfires(s, contour.name)
  }

  ghost predicate SeesOthers(s: State, n: Name) {
    OthersExist(s, n) && !Misfires(s, n)
  }

  method OtherContoursExist(cli: Cluster, contour: Contour)
    returns (exist: bool, items: seq<Contour>, err: Option<Error>)
    requires cli.Valid()
    modifies cli`state, cli`clock, cli`log
    ensures cli.Advanced() && cli.clock == old(cli.clock) + 1 && cli.state.objects == old(cli.state.objects)
    ensures !Touches(old(cli.Now()).acts, contour.name) ==>
      At(cli.state.contours, contour.name) == At(old(cli.state.contours), contour.name)
    ensures Faultless(cli.script, old(cli.clock), cli.clock) ==> err.None?
    ensures old(cli.Calm()) ==> cli.state == old(cli.state) && cli.log == old(cli.log) && err.None?
    ensures err.Some? <==> FailsAt(cli.script, old(cli.clock))
    ensures err.None? && exist ==> Lists(items, old(cli.state.contours), old(cli.state.contours).Keys)
    ensures err.None? ==>
      ((exist <==> OthersExist(old(cli.state), contour.name)) <==> !Misfires(old(cli.state), contour.name))
  {
    hide cli.Calm, Attributed, Legal, Inv;
    ghost var s := cli.state;
    var reply := cli.ListContours();
    if reply.Failed? {
      return false, [], Some(Failure("failed to list contours"));
    }
    items := reply.value;
    ShortcutIff(s, contour.name, items);
    if |items| == 0 || (|items| == 1 && items[0].name.name == contour.name.name) {
      return false, [], None;
    }
    return true, items, None;
  }

  lemma ShortcutIff(s: State, n: Name, items: seq<Contour>)
    requires Lists(items, s.contours, s.contours.Keys)
    ensures var exist := !(|items| == 0 || (|items| == 1 && items[0].name.name == n.name));
      (exist <==> OthersExist(s, n)) <==> !Misfires(s, n)
  {
    forall m | m in s.contours ensures Listed(items, m) {}
    if |items| == 1 {
      assert items[0].name in s.contours;
      forall m | m in s.contours ensures m == items[0].name {
        assert Listed(items, m);
      }
      assert s.contours.Keys == {items[0].name};
    } else if |items| >= 2 {
      assert items[0].name in s.contours && items[1].name in s.contours && items[0].name != items[1].name;
    }
  }

  method OtherContoursExistInSpecNs(cli: Cluster, contour: Contour) returns (exist: bool, err: Option<Error>)
    requires cli.Valid()
    modifies cli`state, cli`clock, cli`log
    ensures cli.Advanced() && cli.clock == old(cli.clock) + 1 && cli.state.objects == old(cli.state.objects)
    ensures !Touches(old(cli.Now()).acts, contour.name) ==>
      At(cli.state.contours, contour.name) == At(old(cli.state.contours), contour.name)
    ensures Faultless(cli.script, old(cli.clock), cli.clock) ==> err.None?
    ensures old(cli.Calm()) ==> cli.state == old(cli.state) && cli.log == old(cli.log) && err.None?
    ensures err.Some? <==> FailsAt(cli.script, old(cli.clock))
    ensures err.None? ==>
      (exist <==> Shares(old(cli.state), contour) && !Misfires(old(cli.state), contour.name))
  {
    hide cli.Calm, Attributed, Legal, Inv;
    ghost var s := cli.state;
    var others, contours, listErr := OtherContoursExist(cli, contour);
    if listErr.Some? {
      return false, listErr;
    }
    if others {
      for i := 0 to |contours|
        invariant forall k :: 0 <= k < i ==> contours[k].name == contour.name || contours[k].spec.ns != contour.spec.ns
      {
        var c := contours[i];
        if c.name.name == contour.name.name && c.name.ns == contour.name.ns {
          continue;
        }
        if c.spec.ns == contour.spec.ns {
          assert c.name in s.contours && s.contours[c.name] == c;
          return true, None;
        }
      }
      forall n | n in s.contours && n != contour.name ensures s.contours[n].spec.ns != contour.spec.ns {
        assert Listed(contours, n);
      }
    }
    return false, None;
  }

  /** The part of validation that only looks at the spec. */
  ghost predicate SpecAccepted(spec: Spec) {
    && ValidContainerPorts(spec.containerPorts)
    && (spec.publishing.NodePortService? && spec.nodePorts.Some? ==> AcceptableNodePorts(spec.nodePorts.value))
    && (spec.publishing.LoadBalancerService? ==> spec.loadBalancer.valid)
  }

  /** Node ports given as a list with fewer than two entries crash the check. */
  ghost predicate SpecCrashes(spec: Spec) {
    && ValidContainerPorts(spec.containerPorts) && spec.publishing.NodePortService?
    && spec.nodePorts.Some? && CrashesCheck(spec.nodePorts.value)
  }

  method ValidateContour(cli: Cluster, contour: Contour) returns (check: Check)
    requires cli.Valid()
    modifies cli`state, cli`clock, cli`log
    ensures cli.Advanced() && cli.clock == old(cli.clock) + 1 && cli.state.objects == old(cli.state.objects)
    ensures !Touches(old(cli.Now()).acts, contour.name) ==>
      At(cli.state.contours, contour.name) == At(old(cli.state.contours), contour.name)
    ensures old(cli.Calm()) ==> cli.state == old(cli.state) && cli.log == old(cli.log)
    ensures check.Accepted? <==>
      !FailsAt(cli.script, old(cli.clock)) && !SeesSharing(old(cli.state), contour) && SpecAccepted(contour.spec)
    ensures check.Crashed? <==>
      !FailsAt(cli.script, old(cli.clock)) && !SeesSharing(old(cli.state), contour) && SpecCrashes(contour.spec)
    ensures check.Accepted? && contour.name in old(cli.state.contours) ==> !Shares(old(cli.state), contour)
    ensures check.Crashed? && contour.name in old(cli.state.contours) ==> !Shares(old(cli.state), contour)
    ensures Faultless(cli.script, old(cli.clock), cli.clock) && !Shares(old(cli.state), contour) ==>
      (check.Accepted? <==> SpecAccepted(contour.spec)) && (check.Crashed? <==> SpecCrashes(contour.spec))
    ensures old(cli.Calm()) && !Shares(old(cli.state), contour) ==>
      (check.Accepted? <==> SpecAccepted(contour.spec)) && (check.Crashed? <==> SpecCrashes(contour.spec))
  {
    hide cli.Calm, Attributed, Legal, Inv, Evolves, ValidContainerPorts;
    var exist, err := OtherContoursExistInSpecNs(cli, contour);
    if err.Some? {
      return Rejected("failed to verify if other contours exist");
    }
    if exist {
      return Rejected("other contours exist in namespace");
    }
    check := ContainerPorts(contour.spec.containerPorts);
    if !check.Accepted? {
      return;
    }
    if contour.spec.publishing.NodePortService? {
      check := NodePorts(contour.spec.nodePorts);
      if !check.Accepted? {
        return;
      }
    }
    if contour.spec.publishing.LoadBalancerService? && !contour.spec.loadBalancer.valid {
      return Rejected("invalid load balancer parameters");
    }
  }

  // ---- Finalizer -----------------------------------------------------------------------------

  /** Entry k of the log replaces the finalizers of a Contour that was then as in this copy,
      and nothing else. */
  ghost predicate RefinalizedAt(log: seq<Record>, k: nat, contour: Contour, finalizers: seq<string>) {
    && 0 < k < |log| && At(log[k - 1].state.contours, contour.name) == Some(contour)
    && log[k] == Record(Event.Finalizers(contour.name), WithContour(log[k - 1].state, contour.(finalizers := finalizers)))
  }

  ghost predicate Refinalized(log: seq<Record>, from: nat, contour: Contour, finalizers: seq<string>) {
    exists k :: from < k < |log| && RefinalizedAt(log, k, contour, finalizers)
  }

  lemma RefinalizedLater(log: seq<Record>, later: seq<Record>, from: nat, earlier: nat, contour: Contour, finalizers: seq<string>)
    requires Refinalized(log, from, contour, finalizers) && log <= later && earlier <= from
    ensures Refinalized(later, earlier, contour, finalizers)
  {
    var k: nat :| from < k < |log| && RefinalizedAt(log, k, contour, finalizers);
    assert RefinalizedAt(later, k, contour, finalizers);
  }

  lemma RefinalizedNow(log: seq<Record>, later: seq<Record>, s: State, contour: Contour, finalizers: seq<string>)
    requires log != [] && log[|log| - 1].state == s && log <= later && |log| < |later|
    requires At(s.contours, contour.name) == Some(contour)
    requires later[|log|] == Record(Event.Finalizers(contour.name), WithContour(s, contour.(finalizers := finalizers)))
    ensures Refinalized(later, |log| - 1, contour, finalizers)
  {
    assert later[|log| - 1] == log[|log| - 1];
    assert RefinalizedAt(later, |log|, contour, finalizers);
  }

  method EnsureFinalizer(cli: Cluster, contour: Contour) returns (err: Option<Error>)
    requires cli.Valid() && cli.WorksFor(contour.name) && Known(cli.state, contour)
    modifies cli`state, cli`clock, cli`log, cli`writes, cli`contourSteps
    ensures cli.Advanced() && cli.state.objects == old(cli.state.objects)
    ensures err.Some? ==> err.value.Failure?
    ensures err.None? && !contour.IsFinalized() ==>
      Refinalized(cli.log, |old(cli.log)| - 1, contour, contour.finalizers + [FINALIZER])
    ensures err.None? && !contour.IsFinalized() ==>
      Holds(cli.state, contour.name, contour.spec.ns)
    ensures Faultless(cli.script, old(cli.clock), cli.clock) && At(old(cli.state.contours), contour.name) == Some(contour) ==> err.None?
    ensures old(cli.Calm()) && !contour.IsFinalized() && At(old(cli.state.contours), contour.name) == Some(contour) ==>
      err.None? && cli.state == WithContour(old(cli.state), contour.(finalizers := contour.finalizers + [FINALIZER]))
  {
    hide cli.Calm, Attributed, Legal, Inv;
    ghost var s, log := cli.state, cli.log;
    var found := Slice.ContainsString(contour.finalizers, FINALIZER);
    if !found {
      var updated := contour.(finalizers := contour.finalizers + [FINALIZER]);
      assert FINALIZER in updated.finalizers;
      var ack := cli.UpdateContour(updated);
      if ack != Done {
        return Some(Failure("failed to add finalizer"));
      }
      LogBegun(cli.cfg, log);
      RefinalizedNow(log, cli.log, s, contour, updated.finalizers);
    }
    return None;
  }

  method EnsureFinalizerRemoved(cli: Cluster, contour: Contour) returns (err: Option<Error>)
    requires cli.Valid() && cli.WorksFor(contour.name) && Known(cli.state, contour)
    requires contour.IsFinalized() ==> NoWorkloadOf(cli.state, contour.name)
    modifies cli`state, cli`clock, cli`log, cli`writes, cli`contourSteps
    ensures cli.Valid() && old(cli.log) <= cli.log && old(cli.clock) <= cli.clock && (old(cli.Calm()) ==> cli.Calm())
    ensures cli.state.objects == old(cli.state.objects)
    ensures err.None? && contour.IsFinalized() ==>
      Refinalized(cli.log, |old(cli.log)| - 1, contour, Slice.Without(contour.finalizers, FINALIZER))
    ensures Faultless(cli.script, old(cli.clock), cli.clock) && At(old(cli.state.contours), contour.name) == Some(contour) ==> err.None?
    ensures Faultless(cli.script, old(cli.clock), cli.clock) && err.Some? ==> cli.contourSteps == old(cli.contourSteps)
    ensures !contour.IsFinalized() ==> cli.state == old(cli.state) && err.None?
    ensures old(cli.Calm()) && contour.IsFinalized() && At(old(cli.state.contours), contour.name) == Some(contour) ==>
      && err.None?
      && cli.state == WithContour(old(cli.state), contour.(finalizers := Slice.Without(contour.finalizers, FINALIZER)))
  {
    hide cli.Calm, Attributed, Legal, Inv, NoWorkloadOf, Evolves;
    ghost var s, log := cli.state, cli.log;
    var found := Slice.ContainsString(contour.finalizers, FINALIZER);
    if found {
      var kept := Slice.RemoveString(contour.finalizers, FINALIZER);
      var ack := cli.UpdateContour(contour.(finalizers := kept));
      if ack != Done {
        return Some(Failure("failed to remove finalizer"));
      }
      LogBegun(cli.cfg, log);
      RefinalizedNow(log, cli.log, s, contour, kept);
    }
    return None;
  }
}
