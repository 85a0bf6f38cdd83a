/** The API types the operator reads and writes: Contours and the objects it manages. */
module Api {
  import opened Wrappers

  type Labels = map<string, string>

  const OWNING_NAME_LABEL := "contour.operator.projectcontour.io/owning-contour-name"
  const OWNING_NS_LABEL := "contour.operator.projectcontour.io/owning-contour-namespace"
  const FINALIZER := "contour.operator.projectcontour.io/finalizer"
  const AVAILABLE := "Available"

  /** A namespaced name. */
  datatype Name = Name(ns: string, name: string)

  // ---- Contour -------------------------------------------------------------------

  datatype PublishingType = LoadBalancerService | NodePortService | ClusterIPService

  datatype ContainerPort = ContainerPort(name: string, number: int)

  /** An optional number behind a pointer: the address is what == compares in the source. */
  datatype Pointer = Pointer(address: nat, number: int)

  datatype NodePort = NodePort(name: string, number: Option<Pointer>)

  /** Load balancer settings as the service builder renders them, with the verdict of the
      address and provider checks. */
  datatype LoadBalancer = LoadBalancer(annotations: Labels, address: string, valid: bool)

  /** The three settings fields stand for the parts of the spec that only reach rendered
      templates: replicas, ingress class and Contour placement; Envoy placement; gateway
      controller and external name services. */
  datatype Spec = Spec(
    ns: string,
    removeOnDeletion: bool,
    publishing: PublishingType,
    containerPorts: seq<ContainerPort>,
    nodePorts: Option<seq<NodePort>>,
    loadBalancer: LoadBalancer,
    contourSettings: int,
    envoySettings: int,
    configSettings: int)

  datatype ConditionStatus = True | False | Unknown

  datatype Condition = Condition(
    kind: string,
    status: ConditionStatus,
    reason: string,
    message: string,
    observedGeneration: int,
    transitionTime: int)

  datatype Status = Status(availableContours: int, availableEnvoys: int, conditions: seq<Condition>)

  datatype Contour = Contour(
    name: Name,
    spec: Spec,
    finalizers: seq<string>,
    deleting: bool,
    status: Status,
    version: nat)
  {
    predicate IsFinalized() {
      FINALIZER in finalizers
    }
  }

  // ---- Managed objects -----------------------------------------------------------

  datatype Kind =
    | NamespaceKind | ServiceAccountKind
    | ClusterRoleKind | ClusterRoleBindingKind | RoleKind | RoleBindingKind
    | ConfigMapKind | JobKind | DeploymentKind | DaemonSetKind | ServiceKind

  datatype Key = Key(kind: Kind, ns: string, name: string)

  /** Rendered content the model does not look into: a function of the inputs it names, or
      something somebody else wrote. */
  datatype Content =
    | Fixed(what: string)
    | Rendered(what: string, ports: seq<ContainerPort>, settings: int, images: seq<string>)
    | Foreign(id: int)

  datatype Subject = Subject(name: string, ns: string)

  /** The spec of a Deployment or a DaemonSet: which pods it owns, and of its pods the labels,
      the service account, the ports and everything else. */
  datatype PodOwnerSpec = PodOwnerSpec(
    selector: Labels,
    podLabels: Labels,
    account: string,
    ports: seq<ContainerPort>,
    template: Content)

  /** A cluster IP or a node port; Auto marks one the API server picked. */
  datatype Assigned = Unset | Chosen(value: int) | Auto

  datatype ServicePort = ServicePort(name: string, protocol: string, port: int, targetPort: int, nodePort: Assigned)

  datatype ServiceType = ClusterIP | NodePortType | LoadBalancerType

  datatype ServiceSpec = ServiceSpec(
    ports: seq<ServicePort>,
    selector: Labels,
    serviceType: ServiceType,
    sessionAffinity: string,
    externalTrafficPolicy: string,
    loadBalancerIP: string,
    clusterIP: Assigned)

  datatype Body =
    | Namespace
    | ServiceAccount
    | ClusterRole(clusterRules: Content)
    | ClusterRoleBinding(clusterSubjects: seq<Subject>, clusterRoleRef: string)
    | Role(rules: Content)
    | RoleBinding(subjects: seq<Subject>, roleRef: string)
    | ConfigMap(data: Content)
    | Job(parallelism: int, backoffLimit: int, templateLabels: Labels, account: string, template: Content)
    | Deployment(deployment: PodOwnerSpec)
    | DaemonSet(daemonSet: PodOwnerSpec)
    | Service(annotations: Labels, service: ServiceSpec)

  datatype Object = Object(labels: Labels, body: Body)
  {
    function Kind(): Kind {
      match body
      case Namespace => NamespaceKind
      case ServiceAccount => ServiceAccountKind
      case ClusterRole(_) => ClusterRoleKind
      case ClusterRoleBinding(_, _) => ClusterRoleBindingKind
      case Role(_) => RoleKind
      case RoleBinding(_, _) => RoleBindingKind
      case ConfigMap(_) => ConfigMapKind
      case Job(_, _, _, _, _) => JobKind
      case Deployment(_) => DeploymentKind
      case DaemonSet(_) => DaemonSetKind
      case Service(_, _) => ServiceKind
    }

    /** The pod selector of a Deployment or a DaemonSet. */
    function Selector(): Option<Labels> {
      match body
      case Deployment(spec) => Some(spec.selector)
      case DaemonSet(spec) => Some(spec.selector)
      case _ => None
    }
  }

  datatype DeploymentConditionStatus = CondTrue | CondFalse | CondUnknown | CondOther

  datatype DeploymentCondition = DeploymentCondition(kind: string, status: DeploymentConditionStatus, message: string)

  /** What the workload controllers report: available pods, and a Deployment's conditions. */
  datatype Health = Health(available: int, conditions: seq<DeploymentCondition>)

  // ---- Ownership -----------------------------------------------------------------

  /** True when labels hold every entry of m (pkg/labels/labels.go). */
  predicate Exist(labels: Labels, m: Labels) {
    forall k :: k in m ==> k in labels && labels[k] == m[k]
  }

  function OwnerLabels(owner: Name): Labels {
    map[OWNING_NAME_LABEL := owner.name, OWNING_NS_LABEL := owner.ns]
  }

  /** The Contour the two owner labels point at, when both are there. */
  function OwnerOf(labels: Labels): Option<Name> {
    if OWNING_NAME_LABEL in labels && OWNING_NS_LABEL in labels
    then Some(Name(labels[OWNING_NS_LABEL], labels[OWNING_NAME_LABEL]))
    else None
  }

  predicate Owns(owner: Name, obj: Object) {
    OwnerOf(obj.labels) == Some(owner)
  }

  /** The ownership guard reads back exactly the owner the labels name, so two Contours
      never both pass it on one object. */
  lemma GuardReadsOwner(labels: Labels, owner: Name)
    ensures Exist(labels, OwnerLabels(owner)) <==> OwnerOf(labels) == Some(owner)
  {
    assert |OWNING_NAME_LABEL| != |OWNING_NS_LABEL|;
    var m := OwnerLabels(owner);
    assert OWNING_NAME_LABEL in m && OWNING_NS_LABEL in m;
    assert m[OWNING_NAME_LABEL] == owner.name && m[OWNING_NS_LABEL] == owner.ns;
    if OwnerOf(labels) == Some(owner) {
      assert forall k :: k in m ==> k == OWNING_NAME_LABEL || k == OWNING_NS_LABEL;
    }
  }

  /** The guard in front of every update and delete. */
  predicate Guarded(owner: Name, obj: Object): (ok: bool)
    ensures ok <==> Owns(owner, obj)
  {
    GuardReadsOwner(obj.labels, owner);
    Exist(obj.labels, OwnerLabels(owner))
  }

  /** Labels built by adding the owner labels to others name that owner, its name under the one
      label and its namespace under the other. */
  lemma AddedLabelsName(extra: Labels, owner: Name)
    ensures OwnerOf(extra + OwnerLabels(owner)) == Some(owner)
    ensures extra + OwnerLabels(owner) ==
      extra["contour.operator.projectcontour.io/owning-contour-name" := owner.name]
           ["contour.operator.projectcontour.io/owning-contour-namespace" := owner.ns]
  {
    assert |OWNING_NAME_LABEL| != |OWNING_NS_LABEL|;
  }
}
