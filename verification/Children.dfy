/** The sixteen objects of a Contour, in the order the operator ensures them, and what one
    attempt at each may leave behind. */
module Children {
  import opened Wrappers
  import opened Api
  import opened Validation
  import opened Builders
  import opened Equality

  /** The operator's configuration; certgenJob is the job name it derives from the image. */
  datatype Config = Config(contourImage: string, envoyImage: string, certgenJob: string)

  const CHILDREN := 16
  const FIRST_WORKLOAD := 10
  const JOB := 11
  const DEPLOYMENT := 12
  const DAEMONSET := 13
  const CONTOUR_SERVICE := 14
  const ENVOY_SERVICE := 15

  function ClusterName(ns: string): string {
    "contour-" + ns
  }

  /** Where child i of a Contour with this spec namespace lives. */
  function KeyAt(cfg: Config, ns: string, i: nat): Key
    requires i < CHILDREN
  {
    match i
    case 0 => Key(NamespaceKind, "", ns)
    case 1 => Key(ServiceAccountKind, ns, "contour")
    case 2 => Key(ServiceAccountKind, ns, "envoy")
    case 3 => Key(ServiceAccountKind, ns, "contour-certgen")
    case 4 => Key(ClusterRoleKind, "", ClusterName(ns))
    case 5 => Key(ClusterRoleBindingKind, "", ClusterName(ns))
    case 6 => Key(RoleKind, ns, "contour-certgen")
    case 7 => Key(RoleBindingKind, ns, "contour")
    case 8 => Key(RoleKind, ns, "contour")
    case 9 => Key(RoleBindingKind, ns, "contour-rolebinding")
    case 10 => Key(ConfigMapKind, ns, "contour")
    case 11 => Key(JobKind, ns, cfg.certgenJob)
    case 12 => Key(DeploymentKind, ns, "contour")
    case 13 => Key(DaemonSetKind, ns, "envoy")
    case 14 => Key(ServiceKind, ns, "contour")
    case _ => Key(ServiceKind, ns, "envoy")
  }

  predicate IsWorkload(kind: Kind) {
    kind in {ConfigMapKind, JobKind, DeploymentKind, DaemonSetKind, ServiceKind}
  }

  function AppLabels(app: string, contour: Contour): Labels {
    map["app.kubernetes.io/name" := app, "app.kubernetes.io/instance" := contour.name.name,
        "app.kubernetes.io/component" := "ingress-controller",
        "app.kubernetes.io/managed-by" := "contour-operator"]
  }

  function BodyAt(cfg: Config, contour: Contour, i: nat): Body
    requires i < CHILDREN
  {
    var spec := contour.spec;
    match i
    case 0 => Namespace
    case 1 => ServiceAccount
    case 2 => ServiceAccount
    case 3 => ServiceAccount
    case 4 => ClusterRole(Fixed("contour"))
    case 5 => ClusterRoleBinding([Subject("contour", spec.ns)], ClusterName(spec.ns))
    case 6 => Role(Fixed("certgen"))
    case 7 => RoleBinding([Subject("contour-certgen", spec.ns)], "contour-certgen")
    case 8 => Role(Fixed("controller"))
    case 9 => RoleBinding([Subject("contour", spec.ns)], "contour")
    case 10 => ConfigMap(Rendered("config", [], spec.configSettings, []))
    case 11 => Job(1, 1, OwnerLabels(contour.name), "contour-certgen", Rendered("certgen", [], 0, [cfg.contourImage]))
    case 12 => Deployment(PodOwnerSpec(map["app" := "contour"], map["app" := "contour"], "contour", [],
                            Rendered("contour", spec.containerPorts, spec.contourSettings, [cfg.contourImage])))
    case 13 => DaemonSet(PodOwnerSpec(map["app" := "envoy"], map["app" := "envoy"], "envoy", spec.containerPorts,
                            Rendered("envoy", [], spec.envoySettings, [cfg.contourImage, cfg.envoyImage])))
    case 14 => Service(map[], ServiceSpec([ServicePort("xds", "TCP", XDS_PORT, XDS_PORT, Unset)], map["app" := "contour"],
                                          ClusterIP, "None", "", "", Unset))
    case _ => EnvoyService(contour).body
  }

  function LabelsAt(contour: Contour, i: nat): Labels
    requires i < CHILDREN
  {
    var owner := OwnerLabels(contour.name);
    match i
    case 11 => AppLabels("contour-certgen", contour) + map["app.kubernetes.io/part-of" := "project-contour"] + owner
    case 12 => AppLabels("contour", contour) + owner
    case 13 => AppLabels("contour", contour) + owner
    case _ => owner
  }

  /** Child i as the operator wants it. */
  function Desired(cfg: Config, contour: Contour, i: nat): Object
    requires i < CHILDREN
  {
    Object(LabelsAt(contour, i), BodyAt(cfg, contour, i))
  }

  lemma DesiredFits(cfg: Config, contour: Contour, i: nat)
    requires i < CHILDREN
    ensures Desired(cfg, contour, i).Kind() == KeyAt(cfg, contour.spec.ns, i).kind
    ensures Owns(contour.name, Desired(cfg, contour, i))
    ensures i == JOB ==> OwnerOf(Desired(cfg, contour, i).body.templateLabels) == Some(contour.name)
  {
    hide OwnerOf, AppLabels, OwnerLabels;
    OwnerLabelsName(contour.name);
    LabelsName(contour, i);
  }

  lemma OwnerLabelsName(owner: Name)
    ensures OwnerOf(OwnerLabels(owner)) == Some(owner)
  {
    AddedLabelsName(map[], owner);
    assert map[] + OwnerLabels(owner) == OwnerLabels(owner);
  }

  lemma LabelsName(contour: Contour, i: nat)
    requires i < CHILDREN
    ensures OwnerOf(LabelsAt(contour, i)) == Some(contour.name)
  {
    hide OwnerOf, AppLabels, OwnerLabels;
    OwnerLabelsName(contour.name);
    AddedLabelsName(AppLabels("contour-certgen", contour) + map["app.kubernetes.io/part-of" := "project-contour"], contour.name);
    AddedLabelsName(AppLabels("contour", contour), contour.name);
  }

  /** The sixteen keys are different objects. */
  lemma KeysDistinct(cfg: Config, ns: string, i: nat, j: nat)
    requires i < CHILDREN && j < CHILDREN && i != j
    ensures KeyAt(cfg, ns, i) != KeyAt(cfg, ns, j)
  {
    assert |"contour"| == 7 && |"envoy"| == 5 && |"contour-certgen"| == 15 && |"contour-rolebinding"| == 19;
  }

  /** Different spec namespaces mean different objects, the cluster-scoped ones included. */
  lemma KeysDisjoint(cfg: Config, ns: string, ns': string, i: nat, j: nat)
    requires i < CHILDREN && j < CHILDREN && ns != ns'
    ensures KeyAt(cfg, ns, i) != KeyAt(cfg, ns', j)
  {
    assert ClusterName(ns)[8..] == ns && ClusterName(ns')[8..] == ns';
  }

  /** The sixteen objects, by name. */
  lemma ChildrenAre(cfg: Config, ns: string, k: Key)
    ensures (exists i :: 0 <= i < CHILDREN && k == KeyAt(cfg, ns, i)) <==>
      k in {Key(NamespaceKind, "", ns),
            Key(ServiceAccountKind, ns, "contour"), Key(ServiceAccountKind, ns, "envoy"), Key(ServiceAccountKind, ns, "contour-certgen"),
            Key(ClusterRoleKind, "", "contour-" + ns), Key(ClusterRoleBindingKind, "", "contour-" + ns),
            Key(RoleKind, ns, "contour-certgen"), Key(RoleBindingKind, ns, "contour"),
            Key(RoleKind, ns, "contour"), Key(RoleBindingKind, ns, "contour-rolebinding"),
            Key(ConfigMapKind, ns, "contour"), Key(JobKind, ns, cfg.certgenJob),
            Key(DeploymentKind, ns, "contour"), Key(DaemonSetKind, ns, "envoy"),
            Key(ServiceKind, ns, "contour"), Key(ServiceKind, ns, "envoy")}
  {
    var _ := [KeyAt(cfg, ns, 0), KeyAt(cfg, ns, 1), KeyAt(cfg, ns, 2), KeyAt(cfg, ns, 3), KeyAt(cfg, ns, 4), KeyAt(cfg, ns, 5),
              KeyAt(cfg, ns, 6), KeyAt(cfg, ns, 7), KeyAt(cfg, ns, 8), KeyAt(cfg, ns, 9), KeyAt(cfg, ns, 10), KeyAt(cfg, ns, 11),
              KeyAt(cfg, ns, 12), KeyAt(cfg, ns, 13), KeyAt(cfg, ns, 14), KeyAt(cfg, ns, 15)];
  }

  /** The workloads fit together: each Service selects the pods one workload makes and owns, and
      every pod runs as a service account of the same namespace. */
  lemma WorkloadsFitTogether(cfg: Config, contour: Contour)
    ensures var deployment, daemonSet := Desired(cfg, contour, DEPLOYMENT).body.deployment, Desired(cfg, contour, DAEMONSET).body.daemonSet;
      var xds, envoy := Desired(cfg, contour, CONTOUR_SERVICE).body.service, Desired(cfg, contour, ENVOY_SERVICE).body.service;
      && xds.selector == deployment.podLabels == deployment.selector == map["app" := "contour"]
      && envoy.selector == daemonSet.podLabels == daemonSet.selector == map["app" := "envoy"]
      && xds.ports == [ServicePort("xds", "TCP", 8001, 8001, Unset)] && xds.serviceType == ClusterIP && xds.sessionAffinity == "None"
      && deployment.account == "contour" && daemonSet.account == "envoy" && Desired(cfg, contour, JOB).body.account == "contour-certgen"
      && Desired(cfg, contour, JOB).body.parallelism == 1 && Desired(cfg, contour, JOB).body.backoffLimit == 1
    ensures forall account :: account in {"contour", "envoy", "contour-certgen"} ==>
      exists i :: 1 <= i <= 3 && KeyAt(cfg, contour.spec.ns, i) == Key(ServiceAccountKind, contour.spec.ns, account)
  {
    var ns := contour.spec.ns;
    assert KeyAt(cfg, ns, 1).name == "contour" && KeyAt(cfg, ns, 2).name == "envoy" && KeyAt(cfg, ns, 3).name == "contour-certgen";
  }

  /** From accepted container ports the Envoy Service aims at ports of the same names that the
      DaemonSet's pods open. */
  lemma EnvoyServiceReachesPods(cfg: Config, contour: Contour, p: ServicePort)
    requires ValidContainerPorts(contour.spec.containerPorts)
    requires p in Desired(cfg, contour, ENVOY_SERVICE).body.service.ports
    ensures exists i :: 0 <= i < |Desired(cfg, contour, DAEMONSET).body.daemonSet.ports|
                        && Desired(cfg, contour, DAEMONSET).body.daemonSet.ports[i] == ContainerPort(p.name, p.targetPort)
  {
    hide EnvoyPorts, DistinctPorts, TargetOf;
    ValidatedPortsBuildService(contour);
    var cps, ports := contour.spec.containerPorts, EnvoyService(contour).body.service.ports;
    var k :| 0 <= k < |ports| && ports[k] == p;
    assert Bare(ports)[k] == BarePort(p);
    assert p.name == "http" || p.name == "https";
    var i := PortAt(cps, p.name);
    TargetIsUnique(cps, p.name, i);
    assert Desired(cfg, contour, DAEMONSET).body.daemonSet.ports[i] == ContainerPort(p.name, p.targetPort);
  }

  /** Which settings reach which child: a change of the spec or of an image calls for another
      object exactly where it says so. */
  lemma SettingsReach(cfg: Config, cfg': Config, c: Contour, c': Contour, i: nat)
    requires i < CHILDREN && c.name == c'.name && c.spec.ns == c'.spec.ns
    ensures Desired(cfg, c, i) == Desired(cfg', c', i) <==>
      && (i == 10 ==> c.spec.configSettings == c'.spec.configSettings)
      && (i in {JOB, DEPLOYMENT, DAEMONSET} ==> cfg.contourImage == cfg'.contourImage)
      && (i == DAEMONSET ==> cfg.envoyImage == cfg'.envoyImage)
      && (i in {DEPLOYMENT, DAEMONSET} ==> c.spec.containerPorts == c'.spec.containerPorts)
      && (i == DEPLOYMENT ==> c.spec.contourSettings == c'.spec.contourSettings)
      && (i == DAEMONSET ==> c.spec.envoySettings == c'.spec.envoySettings)
      && (i == ENVOY_SERVICE ==> EnvoyService(c) == EnvoyService(c'))
  {
    hide EnvoyPorts, OwnerLabels;
    assert EnvoyService(c).labels == EnvoyService(c').labels;
  }

  /** The labels of the children: the owner's, and on the pods' makers who made them and for
      which Contour. */
  lemma LabelsSpelled(cfg: Config, contour: Contour, i: nat)
    requires i < CHILDREN
    ensures var labels := Desired(cfg, contour, i).labels;
      if i in {JOB, DEPLOYMENT, DAEMONSET} then
        && labels["app.kubernetes.io/name"] == (if i == JOB then "contour-certgen" else "contour")
        && labels["app.kubernetes.io/instance"] == contour.name.name
        && labels["app.kubernetes.io/component"] == "ingress-controller"
        && labels["app.kubernetes.io/managed-by"] == "contour-operator"
        && ("app.kubernetes.io/part-of" in labels <==> i == JOB)
      else labels == OwnerLabels(contour.name)
  {
  }

  // ---- The API server's part -------------------------------------------------------------

  function AssignPort(p: ServicePort): ServicePort {
    if p.nodePort.Unset? then p.(nodePort := Auto) else p
  }

  function AssignPorts(ports: seq<ServicePort>, serviceType: ServiceType): seq<ServicePort> {
    if serviceType.ClusterIP? then ports
    else seq(|ports|, i requires 0 <= i < |ports| => AssignPort(ports[i]))
  }

  /** An object as stored: a Service keeps or gets a cluster IP, and node ports where its
      type uses them. */
  function Admitted(stored: Option<Object>, obj: Object): Object {
    match obj.body
    case Service(annotations, s) =>
      var ip := if !s.clusterIP.Unset? then s.clusterIP
                else if stored.Some? && stored.value.body.Service? && !stored.value.body.service.clusterIP.Unset?
                then stored.value.body.service.clusterIP else Auto;
      Object(obj.labels, Service(annotations, s.(ports := AssignPorts(s.ports, s.serviceType), clusterIP := ip)))
    case _ => obj
  }

  /** Ports left open get a number from the server exactly where nodes listen, for load balancers
      as for node port publishing, and nothing else about a port changes. */
  lemma ServerAssigns(stored: Option<Object>, obj: Object, i: nat)
    requires obj.body.Service? && i < |obj.body.service.ports|
    ensures var admitted, p := Admitted(stored, obj), obj.body.service.ports[i];
      && admitted.body.Service? && |admitted.body.service.ports| == |obj.body.service.ports|
      && admitted.body.service.ports[i] ==
         if p.nodePort.Unset? && obj.body.service.serviceType in {LoadBalancerType, NodePortType} then p.(nodePort := Auto) else p
  {
  }

  // ---- One attempt -------------------------------------------------------------------------

  function Publishing(contour: Contour, i: nat): PublishingType {
    if i == ENVOY_SERVICE then contour.spec.publishing else ClusterIPService
  }

  predicate SelectorDiffers(current: Object, desired: Object)
    requires current.Kind() == desired.Kind()
  {
    current.Selector().Some? && SelectorsDiffer(current, desired)
  }

  predicate Fits(cfg: Config, contour: Contour, i: nat, current: Option<Object>)
    requires i < CHILDREN
  {
    current.Some? ==> current.value.Kind() == Desired(cfg, contour, i).Kind()
  }

  /** What an update writes: the repaired copy, or the desired object itself for the Contour
      Service. */
  function Repair(cfg: Config, contour: Contour, i: nat, updated: Object): Object
    requires i < CHILDREN
  {
    if i == CONTOUR_SERVICE then Desired(cfg, contour, i) else updated
  }

  /** Child i after one undisturbed attempt, given what was there before. */
  function Next(cfg: Config, contour: Contour, i: nat, current: Option<Object>): Option<Object>
    requires i < CHILDREN && Fits(cfg, contour, i, current)
  {
    var desired := Desired(cfg, contour, i);
    match current
    case None => Some(Admitted(None, desired))
    case Some(obj) =>
      if !Owns(contour.name, obj) then current
      else if SelectorDiffers(obj, desired) then None
      else match Drift(obj, desired, Publishing(contour, i))
        case Same => current
        case Panics => current
        case Drifted(updated) =>
          Some(Admitted(if i == JOB then None else current, Repair(cfg, contour, i, updated)))
  }

  /** What any attempt may leave, whatever calls fail: the old value, the next one, or for a
      drifted Job nothing. */
  predicate Possible(cfg: Config, contour: Contour, i: nat, before: Option<Object>, after: Option<Object>)
    requires i < CHILDREN && Fits(cfg, contour, i, before)
  {
    || after == before
    || after == Next(cfg, contour, i, before)
    || (i == JOB && after == None && before.Some? && Owns(contour.name, before.value)
        && Drift(before.value, Desired(cfg, contour, i), Publishing(contour, i)).Drifted?)
  }

  /** How far child i is from settled: 2 for a selector mismatch, 1 when absent or drifted,
      0 when the operator has nothing to do, an object of somebody else's included. */
  function Rank(cfg: Config, contour: Contour, i: nat, current: Option<Object>): nat
    requires i < CHILDREN && Fits(cfg, contour, i, current)
  {
    match current
    case None => 1
    case Some(obj) =>
      if !Owns(contour.name, obj) then 0
      else if SelectorDiffers(obj, Desired(cfg, contour, i)) then 2
      else if Drift(obj, Desired(cfg, contour, i), Publishing(contour, i)).Same? then 0 else 1
  }

  /** The two ways an Envoy Service published by node port never settles: more stored ports
      than desired ones, which crashes the comparison, or a desired port without a number,
      which the server fills in and the next comparison wants unset again. */
  predicate Settles(cfg: Config, contour: Contour, i: nat, current: Option<Object>)
    requires i < CHILDREN && Fits(cfg, contour, i, current)
  {
    i == ENVOY_SERVICE && contour.spec.publishing.NodePortService?
    && (current.None? || Rank(cfg, contour, i, current) > 0) ==>
      && (forall k :: 0 <= k < |EnvoyPorts(contour.spec)| ==> !EnvoyPorts(contour.spec)[k].nodePort.Unset?)
      && (current.Some? ==> |current.value.body.service.ports| <= |EnvoyPorts(contour.spec)|)
  }

  lemma AdmittedKeeps(stored: Option<Object>, obj: Object)
    ensures Admitted(stored, obj).labels == obj.labels
    ensures Admitted(stored, obj).Kind() == obj.Kind()
    ensures !obj.body.Service? ==> Admitted(stored, obj) == obj
  {
  }

  /** Whatever an attempt leaves is the old object or one that names this Contour. */
  lemma NextIsOwned(cfg: Config, contour: Contour, i: nat, before: Option<Object>)
    requires i < CHILDREN && Fits(cfg, contour, i, before)
    ensures var after := Next(cfg, contour, i, before);
      && Fits(cfg, contour, i, after)
      && (after.Some? && after != before ==> Owns(contour.name, after.value))
      && (after.None? ==> i in {DEPLOYMENT, DAEMONSET} && before.Some? && Owns(contour.name, before.value))
  {
    var desired := Desired(cfg, contour, i);
    DesiredFits(cfg, contour, i);
    AdmittedKeeps(None, desired);
    if before.Some? && Owns(contour.name, before.value) && !SelectorDiffers(before.value, desired) {
      var verdict := Drift(before.value, desired, Publishing(contour, i));
      if verdict.Drifted? {
        DriftIsRepairedOnce(before.value, desired, Publishing(contour, i));
        var written := Repair(cfg, contour, i, verdict.updated);
        AdmittedKeeps(if i == JOB then None else before, written);
        RepairLabels(before.value, desired, Publishing(contour, i));
      }
    }
  }

  /** An attempt removes exactly an owned Deployment or DaemonSet with another pod selector. */
  lemma RemovesIff(cfg: Config, contour: Contour, i: nat, before: Option<Object>)
    requires i < CHILDREN && Fits(cfg, contour, i, before)
    ensures Next(cfg, contour, i, before).None? <==>
      && i in {DEPLOYMENT, DAEMONSET} && before.Some? && Owns(contour.name, before.value)
      && before.value.Selector() != Some(map["app" := if i == DEPLOYMENT then "contour" else "envoy"])
  {
    hide OwnerOf, EnvoyPorts, Drift, Admitted;
    DesiredFits(cfg, contour, i);
  }

  lemma RepairLabels(current: Object, desired: Object, publishing: PublishingType)
    requires current.Kind() == desired.Kind() && Drift(current, desired, publishing).Drifted?
    ensures Drift(current, desired, publishing).updated.labels in {current.labels, desired.labels}
  {
  }

  /** A stored desired object is settled, unless it is an Envoy Service with unset node ports. */
  lemma AdmittedSettled(cfg: Config, contour: Contour, i: nat, stored: Option<Object>, written: Object)
    requires i < CHILDREN && written.Kind() == Desired(cfg, contour, i).Kind()
    requires Drift(written, Desired(cfg, contour, i), Publishing(contour, i)) == Same
    ensures var again := Drift(Admitted(stored, written), Desired(cfg, contour, i), Publishing(contour, i));
      again == Same <==> !(written.body.Service? && Publishing(contour, i).NodePortService?
                           && exists k :: 0 <= k < |written.body.service.ports| && written.body.service.ports[k].nodePort.Unset?)
  {
    var desired := Desired(cfg, contour, i);
    var publishing := Publishing(contour, i);
    var result := Admitted(stored, written);
    AdmittedKeeps(stored, written);
    DriftIffManagedDiffer(written, desired, publishing);
    DriftIffManagedDiffer(result, desired, publishing);
    DesiredFits(cfg, contour, i);
    if written.body.Service? {
      DesiredServiceType(cfg, contour, i);
    }
  }

  lemma DesiredServiceType(cfg: Config, contour: Contour, i: nat)
    requires i < CHILDREN && Desired(cfg, contour, i).body.Service?
    ensures Desired(cfg, contour, i).body.service.serviceType == EnvoyServiceType(Publishing(contour, i))
  {
    DesiredFits(cfg, contour, i);
  }
}
