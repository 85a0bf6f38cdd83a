/** The objects the operator wants to exist for a Contour (internal/objects). */
module Builders {
  import opened Wrappers
  import opened Api
  import opened Validation

  const XDS_PORT := 8001
  const HTTP_PORT := 80
  const HTTPS_PORT := 443

  // ---- Envoy service ports -----------------------------------------------------------

  function ServicePortFor(port: ContainerPort, number: int): ServicePort {
    ServicePort(port.name, "TCP", number, port.number, Unset)
  }

  /** The service ports for a container port list, stopping once both names were seen. */
  function CollectPorts(ports: seq<ContainerPort>, httpFound: bool, httpsFound: bool): seq<ServicePort> {
    if ports == [] || (httpFound && httpsFound) then []
    else if ports[0].name == "http" then
      [ServicePortFor(ports[0], HTTP_PORT)] + CollectPorts(ports[1..], true, httpsFound)
    else if ports[0].name == "https" then
      [ServicePortFor(ports[0], HTTPS_PORT)] + CollectPorts(ports[1..], httpFound, true)
    else CollectPorts(ports[1..], httpFound, httpsFound)
  }

  method EnvoyServicePorts(containerPorts: seq<ContainerPort>) returns (ports: seq<ServicePort>)
    ensures ports == CollectPorts(containerPorts, false, false)
  {
    ports := [];
    var httpFound, httpsFound := false, false;
    for i := 0 to |containerPorts|
      invariant CollectPorts(containerPorts, false, false) == ports + CollectPorts(containerPorts[i..], httpFound, httpsFound)
    {
      var port := containerPorts[i];
      assert containerPorts[i..][1..] == containerPorts[i + 1..];
      if httpFound && httpsFound {
        break;
      }
      if port.name == "http" {
        httpFound := true;
        ports := ports + [ServicePortFor(port, HTTP_PORT)];
      } else if port.name == "https" {
        httpsFound := true;
        ports := ports + [ServicePortFor(port, HTTPS_PORT)];
      }
    }
  }

  /** A pointer to zero leaves the node port unset. */
  function NodePortValue(number: int): Assigned {
    if number == 0 then Unset else Chosen(number)
  }

  function SetNodePort(ports: seq<ServicePort>, p: NodePort): (set': seq<ServicePort>)
    ensures |set'| == |ports|
  {
    seq(|ports|, i requires 0 <= i < |ports| =>
      if p.number.Some? && ports[i].name == p.name then ports[i].(nodePort := NodePortValue(p.number.value.number)) else ports[i])
  }

  function SetNodePorts(ports: seq<ServicePort>, nodePorts: seq<NodePort>): (set': seq<ServicePort>)
    ensures |set'| == |ports|
  {
    if nodePorts == [] then ports
    else SetNodePort(SetNodePorts(ports, nodePorts[..|nodePorts| - 1]), nodePorts[|nodePorts| - 1])
  }

  /** Writes the specified node ports into the service ports, in place, by name. */
  method ApplyNodePorts(ports: array<ServicePort>, nodePorts: seq<NodePort>)
    modifies ports
    ensures ports[..] == SetNodePorts(old(ports[..]), nodePorts)
  {
    ghost var was := ports[..];
    for n := 0 to |nodePorts|
      invariant ports[..] == SetNodePorts(was, nodePorts[..n])
    {
      var p := nodePorts[n];
      assert nodePorts[..n + 1][..n] == nodePorts[..n];
      ghost var before := ports[..];
      if p.number.Some? {
        for i := 0 to ports.Length
          invariant forall k :: 0 <= k < i ==> ports[k] == SetNodePort(before, p)[k]
          invariant forall k :: i <= k < ports.Length ==> ports[k] == before[k]
        {
          if ports[i].name == p.name {
            ports[i] := ports[i].(nodePort := NodePortValue(p.number.value.number));
          }
        }
      }
      assert ports[..] == SetNodePort(before, p);
    }
    assert nodePorts[..|nodePorts|] == nodePorts;
  }

  function SpecifiedNodePorts(spec: Spec): seq<NodePort> {
    if spec.publishing.NodePortService? && spec.nodePorts.Some? then spec.nodePorts.value else []
  }

  function EnvoyPorts(spec: Spec): seq<ServicePort> {
    SetNodePorts(CollectPorts(spec.containerPorts, false, false), SpecifiedNodePorts(spec))
  }

  function EnvoyServiceType(publishing: PublishingType): ServiceType {
    match publishing
    case LoadBalancerService => LoadBalancerType
    case NodePortService => NodePortType
    case ClusterIPService => ClusterIP
  }

  function EnvoyService(contour: Contour): Object {
    var spec := contour.spec;
    var lb := spec.publishing.LoadBalancerService?;
    Object(OwnerLabels(contour.name),
           Service(if lb then spec.loadBalancer.annotations else map[],
                   ServiceSpec(EnvoyPorts(spec), map["app" := "envoy"], EnvoyServiceType(spec.publishing), "None",
                               if spec.publishing.ClusterIPService? then "" else "Local",
                               if lb then spec.loadBalancer.address else "",
                               Unset)))
  }

  method DesiredEnvoyService(contour: Contour) returns (svc: Object)
    ensures svc == EnvoyService(contour)
  {
    var spec := contour.spec;
    var collected := EnvoyServicePorts(spec.containerPorts);
    var ports := new ServicePort[|collected|](i requires 0 <= i < |collected| => collected[i]);
    assert ports[..] == collected;
    var policy := if spec.publishing.LoadBalancerService? || spec.publishing.NodePortService? then "Local" else "";
    var annotations: Labels, address := map[], "";
    if spec.publishing.LoadBalancerService? {
      annotations := spec.loadBalancer.annotations;
      address := spec.loadBalancer.address;
    }
    if spec.publishing.NodePortService? && spec.nodePorts.Some? {
      ApplyNodePorts(ports, spec.nodePorts.value);
    }
    svc := Object(OwnerLabels(contour.name),
                  Service(annotations,
                          ServiceSpec(ports[..], map["app" := "envoy"], EnvoyServiceType(spec.publishing), "None",
                                      policy, address, Unset)));
  }

  /** What the Envoy Service is for each publishing type: outside traffic reaches it through a
      load balancer or a port of every node, and then stays on the node it came to; address and
      annotations are those asked for of a load balancer, and nobody else gets any. */
  lemma EnvoyServiceSpelled(contour: Contour)
    ensures var svc, publishing := EnvoyService(contour), contour.spec.publishing;
      && svc.body.Service? && OwnerOf(svc.labels) == Some(contour.name)
      && var s := svc.body.service;
         && (s.serviceType == LoadBalancerType <==> publishing == LoadBalancerService)
         && (s.serviceType == NodePortType <==> publishing == NodePortService)
         && (s.serviceType == ClusterIP <==> publishing == ClusterIPService)
         && s.externalTrafficPolicy == (if publishing == ClusterIPService then "" else "Local")
         && (publishing == LoadBalancerService ==>
               s.loadBalancerIP == contour.spec.loadBalancer.address && svc.body.annotations == contour.spec.loadBalancer.annotations)
         && (publishing != LoadBalancerService ==> s.loadBalancerIP == "" && svc.body.annotations == map[])
         && s.selector == map["app" := "envoy"] && s.sessionAffinity == "None" && s.clusterIP == Unset
  {
    AddedLabelsName(map[], contour.name);
    assert map[] + OwnerLabels(contour.name) == OwnerLabels(contour.name);
  }

  // ---- What validation buys the builder -------------------------------------------------

  lemma {:induction false} CollectNone(ports: seq<ContainerPort>, httpFound: bool, httpsFound: bool)
    requires !httpFound ==> !HasPort(ports, "http")
    requires !httpsFound ==> !HasPort(ports, "https")
    requires httpFound ==> httpsFound || !HasPort(ports, "http")
    requires httpsFound ==> httpFound || !HasPort(ports, "https")
    ensures CollectPorts(ports, httpFound, httpsFound) == []
  {
    if ports != [] && !(httpFound && httpsFound) {
      assert ports[0].name != "http" && ports[0].name != "https";
      HasPortTail(ports, "http");
      HasPortTail(ports, "https");
      CollectNone(ports[1..], httpFound, httpsFound);
    }
  }

  lemma HasPortTail(ports: seq<ContainerPort>, name: string)
    requires ports != []
    ensures HasPort(ports, name) <==> ports[0].name == name || HasPort(ports[1..], name)
  {
    if i :| 0 <= i < |ports| && ports[i].name == name {
      if i > 0 { assert ports[1..][i - 1].name == name; }
    }
    var rest := ports[1..];
    if i :| 0 <= i < |rest| && rest[i].name == name {
      assert ports[i + 1].name == name;
    }
  }

  lemma PortAt(ports: seq<ContainerPort>, name: string) returns (i: nat)
    requires HasPort(ports, name)
    ensures i < |ports| && ports[i].name == name
  {
    i :| 0 <= i < |ports| && ports[i].name == name;
  }

  /** The number of the first container port with a name. */
  function TargetOf(ports: seq<ContainerPort>, name: string): int
    requires HasPort(ports, name)
  {
    HasPortTailFact(ports, name);
    if ports[0].name == name then ports[0].number else TargetOf(ports[1..], name)
  }

  lemma HasPortTailFact(ports: seq<ContainerPort>, name: string)
    requires HasPort(ports, name)
    ensures ports != [] && (ports[0].name != name ==> HasPort(ports[1..], name))
  {
    HasPortTail(ports, name);
  }

  lemma {:induction false} TargetIsUnique(ports: seq<ContainerPort>, name: string, i: nat)
    requires DistinctPorts(ports) && i < |ports| && ports[i].name == name
    ensures HasPort(ports, name) && TargetOf(ports, name) == ports[i].number
  {
    if i > 0 {
      assert ports[0].name != name;
      TargetIsUnique(ports[1..], name, i - 1);
    }
  }

  predicate OneFor(ports: seq<ServicePort>, name: string, number: int, target: int) {
    |ports| == 1 && ports[0] == ServicePort(name, "TCP", number, target, Unset)
  }

  lemma {:induction false} CollectOther(ports: seq<ContainerPort>, httpFound: bool)
    requires DistinctPorts(ports)
    requires HasPort(ports, if httpFound then "https" else "http")
    requires !HasPort(ports, if httpFound then "http" else "https")
    ensures OneFor(CollectPorts(ports, httpFound, !httpFound), if httpFound then "https" else "http",
                   if httpFound then HTTPS_PORT else HTTP_PORT, TargetOf(ports, if httpFound then "https" else "http"))
  {
    var name := if httpFound then "https" else "http";
    HasPortTail(ports, "http");
    HasPortTail(ports, "https");
    if ports[0].name == name {
      assert CollectPorts(ports[1..], true, true) == [];
    } else {
      CollectOther(ports[1..], httpFound);
    }
  }

  /** Two ports, one http at 80 and one https at 443, each aimed at the container port of
      its own name. */
  ghost predicate PublishesBoth(ports: seq<ServicePort>, containerPorts: seq<ContainerPort>)
    requires ValidContainerPorts(containerPorts)
  {
    var http := ServicePort("http", "TCP", 80, TargetOf(containerPorts, "http"), Unset);
    var https := ServicePort("https", "TCP", 443, TargetOf(containerPorts, "https"), Unset);
    ports == [http, https] || ports == [https, http]
  }

  lemma {:induction false} CollectBoth(ports: seq<ContainerPort>)
    requires ValidContainerPorts(ports)
    ensures PublishesBoth(CollectPorts(ports, false, false), ports)
  {
    HasPortTail(ports, "http");
    HasPortTail(ports, "https");
    var rest := ports[1..];
    if ports[0].name == "http" {
      NoOtherNamed(ports);
      CollectOther(rest, true);
    } else if ports[0].name == "https" {
      NoOtherNamed(ports);
      CollectOther(rest, false);
    } else {
      CollectBoth(rest);
    }
  }

  lemma NoOtherNamed(ports: seq<ContainerPort>)
    requires DistinctPorts(ports) && ports != []
    ensures !HasPort(ports[1..], ports[0].name)
  {
    forall i | 0 <= i < |ports[1..]| ensures ports[1..][i].name != ports[0].name {
      assert ports[1..][i] == ports[i + 1];
    }
  }

  predicate Exposes(ports: seq<ContainerPort>, number: int) {
    exists i :: 0 <= i < |ports| && ports[i].number == number
  }

  lemma TargetsDistinct(ports: seq<ContainerPort>)
    requires ValidContainerPorts(ports)
    ensures TargetOf(ports, "http") != TargetOf(ports, "https")
    ensures Exposes(ports, TargetOf(ports, "http")) && Exposes(ports, TargetOf(ports, "https"))
  {
    var i := PortAt(ports, "http");
    var j := PortAt(ports, "https");
    TargetIsUnique(ports, "http", i);
    TargetIsUnique(ports, "https", j);
    assert ports[i].name != ports[j].name;
  }

  function BarePort(p: ServicePort): ServicePort {
    p.(nodePort := Unset)
  }

  function Bare(ports: seq<ServicePort>): seq<ServicePort> {
    seq(|ports|, i requires 0 <= i < |ports| => BarePort(ports[i]))
  }

  /** Entry n is the last one of this name that gives a number. */
  ghost predicate LastNumbered(nodePorts: seq<NodePort>, n: nat, name: string) {
    && n < |nodePorts| && nodePorts[n].name == name && nodePorts[n].number.Some?
    && forall m :: n < m < |nodePorts| && nodePorts[m].name == name ==> nodePorts[m].number.None?
  }

  ghost predicate Unnumbered(nodePorts: seq<NodePort>, name: string) {
    forall n :: 0 <= n < |nodePorts| && nodePorts[n].name == name ==> nodePorts[n].number.None?
  }

  /** Node ports go to the service ports of their name, the last number given winning; nothing
      else about a port changes. */
  lemma {:induction false} LastNumberWins(ports: seq<ServicePort>, nodePorts: seq<NodePort>, i: nat, n: nat)
    requires i < |ports|
    ensures BarePort(SetNodePorts(ports, nodePorts)[i]) == BarePort(ports[i])
    ensures LastNumbered(nodePorts, n, ports[i].name) ==>
      var number := nodePorts[n].number.value.number;
      SetNodePorts(ports, nodePorts)[i].nodePort == if number == 0 then Unset else Chosen(number)
    ensures Unnumbered(nodePorts, ports[i].name) ==> SetNodePorts(ports, nodePorts)[i].nodePort == ports[i].nodePort
  {
    if nodePorts != [] {
      var init := nodePorts[..|nodePorts| - 1];
      LastNumberWins(ports, init, i, n);
      if Unnumbered(nodePorts, ports[i].name) {
        assert Unnumbered(init, ports[i].name);
      }
      if LastNumbered(nodePorts, n, ports[i].name) && n < |init| {
        assert LastNumbered(init, n, ports[i].name);
        assert nodePorts[|init|].name == ports[i].name ==> nodePorts[|init|].number.None?;
      }
    }
  }

  /** A Service built from validated ports has exactly two ports, each aimed at the one
      container port of its name, and the two targets differ. */
  lemma ValidatedPortsBuildService(contour: Contour)
    requires ValidContainerPorts(contour.spec.containerPorts)
    ensures var cps, ports := contour.spec.containerPorts, EnvoyService(contour).body.service.ports;
      && PublishesBoth(Bare(ports), cps) && (!contour.spec.publishing.NodePortService? ==> ports == Bare(ports))
      && TargetOf(cps, "http") != TargetOf(cps, "https")
      && Exposes(cps, TargetOf(cps, "http")) && Exposes(cps, TargetOf(cps, "https"))
  {
    var spec := contour.spec;
    var collected := CollectPorts(spec.containerPorts, false, false);
    CollectBoth(spec.containerPorts);
    TargetsDistinct(spec.containerPorts);
    forall i | 0 <= i < |collected| ensures BarePort(EnvoyPorts(spec)[i]) == collected[i] {
      LastNumberWins(collected, SpecifiedNodePorts(spec), i, 0);
    }
    assert Bare(EnvoyPorts(spec)) == collected;
  }

  /** For node port publishing each specified number lands on the service port of its own
      name and nowhere else; a port without one is left to the API server. */
  lemma NodePortsLandByName(contour: Contour, i: nat, n: nat)
    requires ValidContainerPorts(contour.spec.containerPorts) && contour.spec.publishing.NodePortService? && i < 2
    ensures |EnvoyPorts(contour.spec)| == 2 && EnvoyPorts(contour.spec)[0].name != EnvoyPorts(contour.spec)[1].name
    ensures var port, nodePorts := EnvoyPorts(contour.spec)[i], contour.spec.nodePorts;
      && (nodePorts.Some? && LastNumbered(nodePorts.value, n, port.name) ==>
            var number := nodePorts.value[n].number.value.number;
            port.nodePort == if number == 0 then Unset else Chosen(number))
      && (nodePorts.Some? && Unnumbered(nodePorts.value, port.name) ==> port.nodePort == Unset)
      && (nodePorts.None? ==> port.nodePort == Unset)
  {
    CollectBoth(contour.spec.containerPorts);
    assert |"http"| != |"https"|;
    var collected := CollectPorts(contour.spec.containerPorts, false, false);
    LastNumberWins(collected, SpecifiedNodePorts(contour.spec), 0, n);
    LastNumberWins(collected, SpecifiedNodePorts(contour.spec), 1, n);
  }
}
