/** Drift detection (internal/equality/equality.go): does a stored object still match the
    desired one, and if not, what should be written? */
module Equality {
  import opened Wrappers
  import opened Api

  /** Panics stands for the out-of-range index of the NodePort comparison. */
  datatype Verdict = Same | Drifted(updated: Object) | Panics

  // ---- Kinds whose fields are all managed ------------------------------------------

  /** The comparison of Namespaces, ServiceAccounts, roles, bindings, Deployments and
      DaemonSets: every field the model gives them is compared and copied. */
  function ConfigChanged(current: Object, expected: Object): Option<Object> {
    if current.labels != expected.labels || current.body != expected.body
    then Some(Object(expected.labels, expected.body)) else None
  }

  // ---- Kinds that keep something of the stored object ------------------------------

  /** Only the data counts; labels other than the owner's survive. */
  function CfgMapChanged(current: Object, expected: Object): Option<Object>
    requires current.body.ConfigMap? && expected.body.ConfigMap?
  {
    if current.body.data != expected.body.data then Some(current.(body := expected.body)) else None
  }

  /** Job-generated template labels are ignored; only the presence of both owner labels
      counts. An absent label map is the empty one here. */
  function JobConfigChanged(current: Object, expected: Object): Option<Object>
    requires current.body.Job? && expected.body.Job?
  {
    if || current.labels != expected.labels
       || current.body.parallelism != expected.body.parallelism
       || current.body.backoffLimit != expected.body.backoffLimit
       || (current.body.templateLabels != map[]
           && (OWNING_NAME_LABEL !in current.body.templateLabels || OWNING_NS_LABEL !in current.body.templateLabels))
       || current.body.account != expected.body.account
       || current.body.template != expected.body.template
    then Some(expected) else None
  }

  function ClusterIPServiceChanged(current: Object, expected: Object): Option<Object>
    requires current.body.Service? && expected.body.Service?
  {
    var c, e := current.body.service, expected.body.service;
    var ports := if |c.ports| != |e.ports| then c.(ports := e.ports)
                 else if c.ports != e.ports then c.(ports := e.ports) else c;
    var selected := if c.selector != e.selector then ports.(selector := e.selector) else ports;
    var affine := if c.sessionAffinity != e.sessionAffinity then selected.(sessionAffinity := e.sessionAffinity) else selected;
    var typed := if c.serviceType != e.serviceType then affine.(serviceType := e.serviceType) else affine;
    if c.ports != e.ports || c.selector != e.selector || c.sessionAffinity != e.sessionAffinity || c.serviceType != e.serviceType
    then Some(current.(body := Service(current.body.annotations, typed))) else None
  }

  /** The stored ports with everything but their node ports taken from the expected list;
      lists of different lengths are replaced whole. */
  function PatchedPorts(current: seq<ServicePort>, expected: seq<ServicePort>): seq<ServicePort> {
    if |current| != |expected| then expected
    else seq(|current|, i requires 0 <= i < |current| => expected[i].(nodePort := current[i].nodePort))
  }

  /** A load balancer Service with every managed field as expected, keeping the labels, the
      cluster IP and the node ports it has. */
  function LoadBalancerPatch(current: Object, expected: Object): Object
    requires current.body.Service? && expected.body.Service?
  {
    var c, e := current.body.service, expected.body.service;
    current.(body := Service(expected.body.annotations,
                             e.(ports := PatchedPorts(c.ports, e.ports), clusterIP := c.clusterIP)))
  }

  function NodePortPatch(current: Object, expected: Object): Object
    requires current.body.Service? && expected.body.Service?
  {
    var c, e := current.body.service, expected.body.service;
    current.(body := Service(expected.body.annotations,
                             e.(loadBalancerIP := c.loadBalancerIP, clusterIP := c.clusterIP)))
  }

  /** Patches a copy of the stored port list in place, field by field. */
  method LoadBalancerServiceChanged(current: Object, expected: Object) returns (updated: Option<Object>)
    requires current.body.Service? && expected.body.Service?
    ensures updated == if LoadBalancerPatch(current, expected) == current then None
                       else Some(LoadBalancerPatch(current, expected))
  {
    var c, e := current.body.service, expected.body.service;
    var changed := false;
    var spec := c;
    if |c.ports| != |e.ports| {
      spec := spec.(ports := e.ports);
      changed := true;
    } else {
      var ports := new ServicePort[|c.ports|](i requires 0 <= i < |c.ports| => c.ports[i]);
      for i := 0 to |c.ports|
        invariant forall k :: 0 <= k < i ==> ports[k] == PatchedPorts(c.ports, e.ports)[k]
        invariant forall k :: i <= k < |c.ports| ==> ports[k] == c.ports[k]
        invariant changed <==> exists k :: 0 <= k < i && ports[k] != c.ports[k]
      {
        var p, q := c.ports[i], e.ports[i];
        ghost var before := changed;
        if p.name != q.name {
          ports[i] := ports[i].(name := q.name);
          changed := true;
        }
        if p.protocol != q.protocol {
          ports[i] := ports[i].(protocol := q.protocol);
          changed := true;
        }
        if p.port != q.port {
          ports[i] := ports[i].(port := q.port);
          changed := true;
        }
        if p.targetPort != q.targetPort {
          ports[i] := ports[i].(targetPort := q.targetPort);
          changed := true;
        }
        assert changed <==> before || ports[i] != c.ports[i];
      }
      assert ports[..] == PatchedPorts(c.ports, e.ports);
      spec := spec.(ports := ports[..]);
      assert changed <==> ports[..] != c.ports;
    }
    if c.selector != e.selector {
      spec := spec.(selector := e.selector);
      changed := true;
    }
    if c.externalTrafficPolicy != e.externalTrafficPolicy {
      spec := spec.(externalTrafficPolicy := e.externalTrafficPolicy);
      changed := true;
    }
    if c.sessionAffinity != e.sessionAffinity {
      spec := spec.(sessionAffinity := e.sessionAffinity);
      changed := true;
    }
    if c.serviceType != e.serviceType {
      spec := spec.(serviceType := e.serviceType);
      changed := true;
    }
    var annotations := current.body.annotations;
    if current.body.annotations != expected.body.annotations {
      annotations := expected.body.annotations;
      changed := true;
    }
    if c.loadBalancerIP != e.loadBalancerIP {
      spec := spec.(loadBalancerIP := e.loadBalancerIP);
      changed := true;
    }
    if !changed {
      return None;
    }
    updated := Some(current.(body := Service(annotations, spec)));
  }

  /** Walks the stored ports, indexing the expected list by the same position. */
  method NodePortServiceChanged(current: Object, expected: Object) returns (verdict: Verdict)
    requires current.body.Service? && expected.body.Service?
    ensures verdict.Panics? <==> |current.body.service.ports| > |expected.body.service.ports|
    ensures !verdict.Panics? ==>
      verdict == if NodePortPatch(current, expected) == current then Same else Drifted(NodePortPatch(current, expected))
  {
    var c, e := current.body.service, expected.body.service;
    var changed := false;
    var spec := c;
    if |c.ports| != |e.ports| {
      spec := spec.(ports := e.ports);
      changed := true;
    }
    for i := 0 to |c.ports|
      invariant i <= |e.ports|
      invariant spec == c.(ports := if changed then e.ports else c.ports)
      invariant changed <==> |c.ports| != |e.ports| || exists k :: 0 <= k < i && c.ports[k] != e.ports[k]
    {
      if i >= |e.ports| {
        return Panics;
      }
      if c.ports[i] != e.ports[i] {
        spec := spec.(ports := e.ports);
        changed := true;
      }
    }
    assert changed <==> c.ports != e.ports;
    assert spec.ports == e.ports;
    if c.selector != e.selector {
      spec := spec.(selector := e.selector);
      changed := true;
    }
    if c.externalTrafficPolicy != e.externalTrafficPolicy {
      spec := spec.(externalTrafficPolicy := e.externalTrafficPolicy);
      changed := true;
    }
    if c.sessionAffinity != e.sessionAffinity {
      spec := spec.(sessionAffinity := e.sessionAffinity);
      changed := true;
    }
    if c.serviceType != e.serviceType {
      spec := spec.(serviceType := e.serviceType);
      changed := true;
    }
    var annotations := current.body.annotations;
    if current.body.annotations != expected.body.annotations {
      annotations := expected.body.annotations;
      changed := true;
    }
    if !changed {
      return Same;
    }
    verdict := Drifted(current.(body := Service(annotations, spec)));
  }

  // ---- One view of all of them -----------------------------------------------------

  function ToVerdict(updated: Option<Object>): Verdict {
    match updated
    case None => Same
    case Some(o) => Drifted(o)
  }

  /** The comparison the operator applies to an object of this kind; publishing picks the
      one for Services. */
  function Drift(current: Object, expected: Object, publishing: PublishingType): Verdict
    requires current.Kind() == expected.Kind()
  {
    match current.body
    case ConfigMap(_) => ToVerdict(CfgMapChanged(current, expected))
    case Job(_, _, _, _, _) => ToVerdict(JobConfigChanged(current, expected))
    case Service(_, c) =>
      (match publishing
      case ClusterIPService => ToVerdict(ClusterIPServiceChanged(current, expected))
      case LoadBalancerService =>
        if LoadBalancerPatch(current, expected) == current then Same else Drifted(LoadBalancerPatch(current, expected))
      case NodePortService =>
        (if |c.ports| > |expected.body.service.ports| then Panics
        else if NodePortPatch(current, expected) == current then Same
        else Drifted(NodePortPatch(current, expected))))
    case _ => ToVerdict(ConfigChanged(current, expected))
  }

  /** Do the fields the operator manages agree? Written per kind, without reference to how
      drift is repaired. */
  ghost predicate ManagedAgree(a: Object, b: Object, publishing: PublishingType)
    requires a.Kind() == b.Kind()
  {
    match a.body
    case ConfigMap(data) => data == b.body.data
    case Job(parallelism, backoffLimit, templateLabels, account, template) =>
      && a.labels == b.labels && parallelism == b.body.parallelism && backoffLimit == b.body.backoffLimit
      && account == b.body.account && template == b.body.template && (templateLabels != map[] ==> OwnerOf(templateLabels).Some?)
    case Service(annotations, s) =>
      var t := b.body.service;
      && s.selector == t.selector && s.sessionAffinity == t.sessionAffinity
      && s.serviceType == t.serviceType && |s.ports| == |t.ports|
      && (forall i :: 0 <= i < |s.ports| ==>
            && s.ports[i].name == t.ports[i].name && s.ports[i].protocol == t.ports[i].protocol
            && s.ports[i].port == t.ports[i].port && s.ports[i].targetPort == t.ports[i].targetPort
            && (!publishing.LoadBalancerService? ==> s.ports[i].nodePort == t.ports[i].nodePort))
      && (!publishing.ClusterIPService? ==>
            annotations == b.body.annotations && s.externalTrafficPolicy == t.externalTrafficPolicy)
      && (publishing.LoadBalancerService? ==> s.loadBalancerIP == t.loadBalancerIP)
    case _ => a == b
  }

  /** What a repair leaves alone: the labels of a ConfigMap or a Service; of a Service the
      cluster IP, for load balancers the node port of every position of a list whose length did
      not change, and otherwise the load balancer address; with a cluster IP only, also the
      annotations and the traffic policy. */
  ghost predicate ServerFieldsKept(before: Object, after: Object, publishing: PublishingType)
    requires before.Kind() == after.Kind()
  {
    && (before.body.ConfigMap? ==> after.labels == before.labels)
    && (before.body.Service? ==>
      && after.body.service.clusterIP == before.body.service.clusterIP
      && after.labels == before.labels
      && (!publishing.LoadBalancerService? ==> after.body.service.loadBalancerIP == before.body.service.loadBalancerIP)
      && (publishing.ClusterIPService? ==>
            && after.body.annotations == before.body.annotations
            && after.body.service.externalTrafficPolicy == before.body.service.externalTrafficPolicy)
      && (publishing.LoadBalancerService? && |after.body.service.ports| == |before.body.service.ports| ==>
            forall i :: 0 <= i < |after.body.service.ports| ==> after.body.service.ports[i].nodePort == before.body.service.ports[i].nodePort))
  }

  /** Drift is reported exactly when some managed field differs. */
  lemma DriftIffManagedDiffer(current: Object, expected: Object, publishing: PublishingType)
    requires current.Kind() == expected.Kind()
    ensures Drift(current, expected, publishing).Same? <==> ManagedAgree(current, expected, publishing)
  {
    if current.body.Service? {
      var c, e := current.body.service.ports, expected.body.service.ports;
      if |c| == |e| {
        assert PatchedPorts(c, e) == c <==> forall i :: 0 <= i < |c| ==> e[i].(nodePort := c[i].nodePort) == c[i];
        assert c == e <==> forall i :: 0 <= i < |c| ==> c[i] == e[i];
      }
    }
  }

  lemma RepairKeeps(current: Object, expected: Object, publishing: PublishingType)
    requires current.Kind() == expected.Kind() && Drift(current, expected, publishing).Drifted?
    ensures Drift(current, expected, publishing).updated.Kind() == expected.Kind()
    ensures ServerFieldsKept(current, Drift(current, expected, publishing).updated, publishing)
  {
  }

  /** The repaired object needs no further repair, agrees with the expected one, and keeps
      what the server decided. */
  lemma DriftIsRepairedOnce(current: Object, expected: Object, publishing: PublishingType)
    requires current.Kind() == expected.Kind()
    requires Drift(current, expected, publishing).Drifted?
    requires expected.body.Job? ==> OwnerOf(expected.body.templateLabels).Some?
    ensures var updated := Drift(current, expected, publishing).updated;
      && updated.Kind() == expected.Kind()
      && Drift(updated, expected, publishing) == Same
      && ManagedAgree(updated, expected, publishing)
      && ServerFieldsKept(current, updated, publishing)
  {
    hide ServerFieldsKept;
    var updated := Drift(current, expected, publishing).updated;
    assert updated.Kind() == expected.Kind();
    RepairKeeps(current, expected, publishing);
    if current.body.Service? {
      var ports := PatchedPorts(current.body.service.ports, expected.body.service.ports);
      assert PatchedPorts(ports, expected.body.service.ports) == ports;
    }
    DriftIffManagedDiffer(updated, expected, publishing);
  }

  /** Comparing ports by position reads past the expected list exactly when the stored
      Service has more ports, for NodePort publishing only. */
  lemma DriftPanicsIff(current: Object, expected: Object, publishing: PublishingType)
    requires current.Kind() == expected.Kind()
    ensures Drift(current, expected, publishing).Panics? <==>
      current.body.Service? && publishing.NodePortService? && |current.body.service.ports| > |expected.body.service.ports|
  {
    if current.body.Service? {}
  }

  /** The comparison of Deployment and of DaemonSet selectors. */
  predicate SelectorsDiffer(current: Object, expected: Object)
    requires current.Selector().Some? && expected.Selector().Some?
  {
    current.Selector() != expected.Selector()
  }

  predicate ContourStatusChanged(current: Status, expected: Status) {
    || current.availableContours != expected.availableContours
    || current.availableEnvoys != expected.availableEnvoys
    || current.conditions != expected.conditions
  }
}
