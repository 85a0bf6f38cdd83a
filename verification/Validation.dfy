/** Port checks on a Contour's spec (pkg/validation/validation.go). */
module Validation {
  import opened Wrappers
  import opened Api
  import Slice

  /** Crashed stands for an index out of range. */
  datatype Check = Accepted | Rejected(why: string) | Crashed

  ghost predicate DistinctPorts(ports: seq<ContainerPort>) {
    forall i, j :: 0 <= i < j < |ports| ==> ports[i].name != ports[j].name && ports[i].number != ports[j].number
  }

  predicate HasPort(ports: seq<ContainerPort>, name: string) {
    exists i :: 0 <= i < |ports| && ports[i].name == name
  }

  /** What the API promises of container ports. */
  ghost predicate ValidContainerPorts(ports: seq<ContainerPort>) {
    DistinctPorts(ports) && HasPort(ports, "http") && HasPort(ports, "https")
  }

  function Numbers(ports: seq<ContainerPort>): (numbers: seq<int>)
    ensures |numbers| == |ports| && forall i :: 0 <= i < |ports| ==> numbers[i] == ports[i].number
  {
    seq(|ports|, i requires 0 <= i < |ports| => ports[i].number)
  }

  function Names(ports: seq<ContainerPort>): (names: seq<string>)
    ensures |names| == |ports| && forall i :: 0 <= i < |ports| ==> names[i] == ports[i].name
  {
    seq(|ports|, i requires 0 <= i < |ports| => ports[i].name)
  }

  method ContainerPorts(ports: seq<ContainerPort>) returns (check: Check)
    ensures !check.Crashed?
    ensures check.Accepted? <==> ValidContainerPorts(ports)
  {
    var numsFound: seq<int>, namesFound: seq<string> := [], [];
    var httpFound, httpsFound := false, false;
    for i := 0 to |ports|
      invariant numsFound == Numbers(ports[..i]) && namesFound == Names(ports[..i])
      invariant DistinctPorts(ports[..i])
      invariant httpFound <==> HasPort(ports[..i], "http")
      invariant httpsFound <==> HasPort(ports[..i], "https")
    {
      var port := ports[i];
      var numSeen := Slice.ContainsInt32(numsFound, port.number);
      if |numsFound| > 0 && numSeen {
        DuplicateRejected(ports, i);
        return Rejected("duplicate container port number");
      }
      numsFound := numsFound + [port.number];
      var nameSeen := Slice.ContainsString(namesFound, port.name);
      if |namesFound| > 0 && nameSeen {
        DuplicateRejected(ports, i);
        return Rejected("duplicate container port name");
      }
      namesFound := namesFound + [port.name];
      HasPortSnoc(ports, i, "http");
      HasPortSnoc(ports, i, "https");
      if port.name == "http" {
        httpFound := true;
      } else if port.name == "https" {
        httpsFound := true;
      }
    }
    assert ports[..|ports|] == ports;
    if httpFound && httpsFound {
      return Accepted;
    }
    return Rejected("http and https container ports are unspecified");
  }

  lemma DuplicateRejected(ports: seq<ContainerPort>, i: nat)
    requires i < |ports|
    requires ports[i].number in Numbers(ports[..i]) || ports[i].name in Names(ports[..i])
    ensures !DistinctPorts(ports)
  {
    if ports[i].number in Numbers(ports[..i]) {
      var k :| 0 <= k < i && Numbers(ports[..i])[k] == ports[i].number;
      assert ports[k].number == ports[i].number;
    } else {
      var k :| 0 <= k < i && Names(ports[..i])[k] == ports[i].name;
      assert ports[k].name == ports[i].name;
    }
  }

  lemma HasPortSnoc(ports: seq<ContainerPort>, i: nat, name: string)
    requires i < |ports|
    ensures HasPort(ports[..i + 1], name) <==> HasPort(ports[..i], name) || ports[i].name == name
  {
    var before, after := ports[..i], ports[..i + 1];
    if k :| 0 <= k < |before| && before[k].name == name {
      assert after[k].name == name;
    }
    if k :| 0 <= k < |after| && after[k].name == name {
      if k < i { assert before[k].name == name; }
    }
    assert after[i] == ports[i];
  }

  predicate NodePortNamesKnown(ports: seq<NodePort>) {
    forall i :: 0 <= i < |ports| ==> ports[i].name == "http" || ports[i].name == "https"
  }

  predicate AcceptableNodePorts(ports: seq<NodePort>) {
    && NodePortNamesKnown(ports) && |ports| >= 2 && ports[0].name != ports[1].name
    && (ports[0].number.Some? && ports[1].number.Some? ==>
          ports[0].number.value.address != ports[1].number.value.address)
  }

  /** The check looks at two entries of a list that has fewer. */
  predicate CrashesCheck(ports: seq<NodePort>) {
    NodePortNamesKnown(ports) && |ports| < 2
  }

  /** Node ports: only the first two entries are compared, and numbers by address. */
  method NodePorts(nodePorts: Option<seq<NodePort>>) returns (check: Check)
    ensures check.Crashed? <==> nodePorts.Some? && CrashesCheck(nodePorts.value)
    ensures check.Accepted? <==> (nodePorts.Some? ==> AcceptableNodePorts(nodePorts.value))
  {
    if nodePorts.None? {
      // The server picks the numbers.
      return Accepted;
    }
    var ports := nodePorts.value;
    for i := 0 to |ports|
      invariant NodePortNamesKnown(ports[..i])
    {
      if ports[i].name != "http" && ports[i].name != "https" {
        return Rejected("invalid port name");
      }
    }
    assert ports[..|ports|] == ports;
    if |ports| < 2 {
      return Crashed;
    }
    if ports[0].name == ports[1].name {
      return Rejected("duplicate nodeport names detected");
    }
    if ports[0].number.Some? && ports[1].number.Some? {
      if ports[0].number.value.address == ports[1].number.value.address {
        return Rejected("duplicate nodeport port numbers detected");
      }
    }
    return Accepted;
  }

  /** The rule the API documents: two ports named http and https, with different numbers. */
  predicate DocumentedNodePorts(ports: seq<NodePort>) {
    && |ports| == 2
    && ((ports[0].name == "http" && ports[1].name == "https") || (ports[0].name == "https" && ports[1].name == "http"))
    && (ports[0].number.Some? && ports[1].number.Some? ==> ports[0].number.value.number != ports[1].number.value.number)
  }

  predicate PointersSound(ports: seq<NodePort>) {
    forall i, j :: 0 <= i < |ports| && 0 <= j < |ports| && ports[i].number.Some? && ports[j].number.Some?
                   && ports[i].number.value.address == ports[j].number.value.address
                   ==> ports[i].number.value.number == ports[j].number.value.number
  }

  predicate SameNumberTwice(ports: seq<NodePort>) {
    && |ports| >= 2 && ports[0].number.Some? && ports[1].number.Some?
    && ports[0].number.value.number == ports[1].number.value.number
    && ports[0].number.value.address != ports[1].number.value.address
  }

  predicate SharedPointer(ports: seq<NodePort>) {
    && |ports| >= 2 && ports[0].number.Some? && ports[1].number.Some?
    && ports[0].number.value.address == ports[1].number.value.address
  }

  /** The check meets the documented rule except on lists it lets through: the first two
      entries bear different valid names and either give the same number through two pointers,
      or are followed by further entries. */
  method CheckDocumented(ports: seq<NodePort>) returns (check: Check)
    requires PointersSound(ports)
    ensures (check.Accepted? <==> DocumentedNodePorts(ports)) <==>
      !(NodePortNamesKnown(ports) && |ports| >= 2 && ports[0].name != ports[1].name
        && (SameNumberTwice(ports) || (|ports| > 2 && !SharedPointer(ports))))
  {
    check := NodePorts(Some(ports));
  }

  /** The same number through two pointers, and a third entry, are both let through; a single
      entry crashes the check. The API server admits exactly two entries, so only the first of
      these inputs can come from it. */
  lemma LetThroughExamples()
    ensures var twice := [NodePort("http", Some(Pointer(1, 30080))), NodePort("https", Some(Pointer(2, 30080)))];
      PointersSound(twice) && AcceptableNodePorts(twice) && !DocumentedNodePorts(twice)
    ensures var three := [NodePort("http", None), NodePort("https", None), NodePort("https", None)];
      AcceptableNodePorts(three) && !DocumentedNodePorts(three)
    ensures CrashesCheck([NodePort("http", None)])
  {
  }
}
