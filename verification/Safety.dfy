/** What holds in every state of every run: any sequence of requests, with any faults, user
    edits between any two calls, and changes by others between requests. */
module Safety {
  import opened Wrappers
  import opened Api
  import opened Children
  import opened Protocol
  import opened Cluster
  import opened Conditions

  // ---- Runs ------------------------------------------------------------------------------------

  lemma {:induction false} InvAlways(cfg: Config, log: seq<Record>, k: nat)
    requires Legal(cfg, log) && Inv(cfg, log[0].state) && k < |log|
    ensures Inv(cfg, log[k].state)
  {
    hide Inv, Step;
    if k > 0 {
      InvAlways(cfg, log, k - 1);
      assert LegalAt(cfg, log, k);
      StepKeepsInv(cfg, log[k - 1].state, log[k].event, log[k].state);
    }
  }

  /** Every workload that names an owner names one that is in the store, holds the finalizer
      and has the workload's namespace; and all of a namespace name the same one. */
  lemma SingleOwnerAndNoOrphans(cli: Cluster, m: nat, k: Key, l: Key)
    requires cli.Valid() && m < |cli.log|
    requires var s := cli.log[m].state;
      && k in s.objects && IsWorkload(k.kind) && OwnerOf(s.objects[k].labels).Some?
      && l in s.objects && IsWorkload(l.kind) && OwnerOf(s.objects[l].labels).Some? && l.ns == k.ns
    ensures var s := cli.log[m].state;
      var owner := OwnerOf(s.objects[k].labels).value;
      && OwnerOf(s.objects[l].labels) == Some(owner)
      && owner in s.contours && "contour.operator.projectcontour.io/finalizer" in s.contours[owner].finalizers && s.contours[owner].spec.ns == k.ns
      && exists i :: FIRST_WORKLOAD <= i < CHILDREN && k == KeyAt(cli.cfg, k.ns, i)
  {
    InvAlways(cli.cfg, cli.log, m);
    var s := cli.log[m].state;
    assert Holds(s, OwnerOf(s.objects[k].labels).value, k.ns) && IsWorkloadKey(cli.cfg, k);
  }

  /** A Contour that is gone, or not finalized, owns no workload. */
  lemma GoneOwnsNothing(cli: Cluster, m: nat, n: Name)
    requires cli.Valid() && m < |cli.log|
    requires n in cli.log[m].state.contours ==> !cli.log[m].state.contours[n].IsFinalized()
    ensures NoWorkloadOf(cli.log[m].state, n)
  {
    InvAlways(cli.cfg, cli.log, m);
    var s := cli.log[m].state;
    forall k | k in s.objects && IsWorkload(k.kind) ensures !Owns(n, s.objects[k]) {
      if OwnerOf(s.objects[k].labels).Some? {
        assert Holds(s, OwnerOf(s.objects[k].labels).value, k.ns);
      }
    }
  }

  /** The finalizer only goes, by whatever step, when the Contour owns no workload. */
  lemma ReleaseIsClean(cli: Cluster, k: nat, n: Name, ns: string)
    requires cli.Valid() && 0 < k < |cli.log|
    requires Holds(cli.log[k - 1].state, n, ns) && !Holds(cli.log[k].state, n, ns)
    ensures cli.log[k].event == Event.Finalizers(n)
    ensures NoWorkloadOf(cli.log[k - 1].state, n) && NoWorkloadOf(cli.log[k].state, n)
  {
    hide NoOrphans, OneOwner, WellKinded, MayWrite, MayDelete, NoWorkloadOf, Act, KeyAt, OwnerOf;
    InvAlways(cli.cfg, cli.log, k - 1);
    assert LegalAt(cli.cfg, cli.log, k);
    var s, t, event := cli.log[k - 1].state, cli.log[k].state, cli.log[k].event;
    if event.User? {
      ActKeeps(cli.cfg, s, event.act);
    } else if event.Finalizers? {
      FinalizersTouchOne(cli.cfg, s, event.name, t);
      SameWorkloads(s, t, n);
    }
  }

  lemma SameWorkloads(s: State, t: State, n: Name)
    requires t.objects == s.objects
    ensures NoWorkloadOf(s, n) ==> NoWorkloadOf(t, n)
  {
  }

  lemma FinalizersTouchOne(cfg: Config, s: State, n: Name, t: State)
    requires Versioned(s) && Step(cfg, s, Event.Finalizers(n), t)
    ensures t.objects == s.objects
    ensures forall m :: m != n ==> At(t.contours, m) == At(s.contours, m)
  {
  }

  /** A workload is only written while its Contour is the tenant of the namespace, and the
      namespace and all nine RBAC objects exist. */
  lemma WorkloadWritesAreGated(cli: Cluster, k: nat)
    requires cli.Valid() && 0 < k < |cli.log|
    requires cli.log[k].event.Create? || cli.log[k].event.Update?
    requires cli.log[k].event.child >= FIRST_WORKLOAD
    ensures Tenant(cli.log[k - 1].state, cli.log[k].event.who)
    ensures forall i :: 0 <= i < FIRST_WORKLOAD ==> KeyAt(cli.cfg, cli.log[k].event.who.spec.ns, i) in cli.log[k - 1].state.objects
  {
    assert LegalAt(cli.cfg, cli.log, k);
  }

  /** What is fixed once an object is there is never changed by an update: nothing of a Job, no
      pod selector, no cluster IP. */
  lemma UpdatesKeepWhatIsFixed(cli: Cluster, k: nat)
    requires cli.Valid() && 0 < k < |cli.log| && cli.log[k].event.Update?
    ensures cli.log[k].event.child < CHILDREN
    ensures var key := KeyAt(cli.cfg, cli.log[k].event.who.spec.ns, cli.log[k].event.child);
      && key in cli.log[k - 1].state.objects && key in cli.log[k].state.objects && key.kind != JobKind
      && var before, after := cli.log[k - 1].state.objects[key].body, cli.log[k].state.objects[key].body;
         && (key.kind == DeploymentKind ==> before.Deployment? && after.Deployment? && before.deployment.selector == after.deployment.selector)
         && (key.kind == DaemonSetKind ==> before.DaemonSet? && after.DaemonSet? && before.daemonSet.selector == after.daemonSet.selector)
         && (key.kind == ServiceKind && before.Service? && !before.service.clusterIP.Unset? ==>
               after.Service? && after.service.clusterIP == before.service.clusterIP)
  {
    hide NoOrphans, OneOwner, KeyAt, Tenant, Ready, OwnerOf;
    InvAlways(cli.cfg, cli.log, k - 1);
    InvAlways(cli.cfg, cli.log, k);
    assert LegalAt(cli.cfg, cli.log, k);
  }

  // ---- Statuses ------------------------------------------------------------------------------------

  ghost predicate StatusesUnique(s: State) {
    forall n :: n in s.contours ==> HasUniqueKinds(s.contours[n].status)
  }

  /** The condition types of every Contour stay unique in every run: users do not write
      statuses, and syncs do not repeat a type. */
  lemma {:induction false} StatusesStayUnique(cli: Cluster, k: nat)
    requires cli.Valid() && k < |cli.log| && StatusesUnique(cli.log[0].state)
    ensures StatusesUnique(cli.log[k].state)
  {
    if k > 0 {
      StatusesStayUnique(cli, k - 1);
      assert LegalAt(cli.cfg, cli.log, k);
      StepKeepsUnique(cli.cfg, cli.log[k - 1].state, cli.log[k].event, cli.log[k].state);
    }
  }

  lemma StepKeepsUnique(cfg: Config, s: State, event: Event, t: State)
    requires Step(cfg, s, event, t) && StatusesUnique(s)
    ensures StatusesUnique(t)
  {
    hide MayWrite, MayDelete, KeyAt, HasUniqueKinds;
    assert HasUniqueKinds(Status(0, 0, [])) by { EmptyIsUnique(); }
    if event.Finalizers? {
      var fs: seq<string> :| t == WithContour(s, s.contours[event.name].(finalizers := fs));
    } else if event.StatusUpdate? {
      MergeIsUnique(s.contours[event.name].status, t.contours[event.name].status, event.update);
    }
  }

  lemma MergeIsUnique(status: Status, merged: Status, update: Condition)
    requires HasUniqueKinds(status) && merged.conditions == Merge1(status.conditions, update)
    ensures HasUniqueKinds(merged)
  {
    MergeKeepsUnique(status.conditions, update);
  }

  lemma EmptyIsUnique()
    ensures HasUniqueKinds(Status(0, 0, []))
  {
  }

  /** The conditions that status steps on a Contour carried, between two positions of the log. */
  ghost function Updates(log: seq<Record>, a: nat, b: nat, n: Name): seq<Condition>
    requires b < |log|
    decreases b
  {
    if b <= a then []
    else
      var event := log[b].event;
      Updates(log, a, b - 1, n) + if event.StatusUpdate? && event.name == n then [event.update] else []
  }

  ghost predicate Present(log: seq<Record>, a: nat, b: nat, n: Name) {
    forall m :: a <= m <= b && m < |log| ==> n in log[m].state.contours
  }

  /** One step changes the status of a Contour that is there before and after only if it is a
      status step on it. */
  lemma StatusStep(cfg: Config, s: State, event: Event, t: State, n: Name)
    requires Step(cfg, s, event, t) && Versioned(s) && n in s.contours && n in t.contours
    ensures event.StatusUpdate? && event.name == n ==>
      t.contours[n].status.conditions == Merge1(s.contours[n].status.conditions, event.update) && event.update.kind == AVAILABLE
    ensures !(event.StatusUpdate? && event.name == n) ==> t.contours[n].status == s.contours[n].status
  {
    hide MayWrite, MayDelete, KeyAt, Act, WithContour;
    if event.Finalizers? {
      FinalizersKeepStatus(cfg, s, event.name, t);
    } else if event.User? {
      UsersKeepStatus(s, event.act, n);
    }
  }

  lemma UsersKeepStatus(s: State, act: UserAct, n: Name)
    requires n in s.contours && n in Act(s, act).contours
    ensures Act(s, act).contours[n].status == s.contours[n].status
  {
  }

  lemma FinalizersKeepStatus(cfg: Config, s: State, n: Name, t: State)
    requires Step(cfg, s, Event.Finalizers(n), t) && Versioned(s)
    ensures forall m :: m in s.contours && m in t.contours ==> t.contours[m].status == s.contours[m].status
  {
  }

  /** From a moment when its list was empty, as a new Contour's is, the conditions stored for a
      Contour are what replaying its status steps gives. */
  lemma {:induction false} ConditionsAreReplayed(cli: Cluster, a: nat, b: nat, n: Name)
    requires cli.Valid() && a <= b < |cli.log| && Present(cli.log, a, b, n)
    requires cli.log[a].state.contours[n].status.conditions == []
    ensures AllAvailable(Updates(cli.log, a, b, n))
    ensures cli.log[b].state.contours[n].status.conditions == Replay(Updates(cli.log, a, b, n))
    decreases b
  {
    hide Step, Merge1;
    if a < b {
      ConditionsAreReplayed(cli, a, b - 1, n);
      InvAlways(cli.cfg, cli.log, b - 1);
      assert LegalAt(cli.cfg, cli.log, b);
      assert n in cli.log[b - 1].state.contours && n in cli.log[b].state.contours;
      StatusStep(cli.cfg, cli.log[b - 1].state, cli.log[b].event, cli.log[b].state, n);
      var event, before := cli.log[b].event, Updates(cli.log, a, b - 1, n);
      if event.StatusUpdate? && event.name == n {
        assert (before + [event.update])[..|before|] == before;
      } else {
        assert before + [] == before;
      }
    }
  }

  /** In every state after the first status step there is one Available entry: it says what the
      last step said, and its transition time is that of the first step of the last block with
      an equal status. */
  lemma StoredTransitionTime(cli: Cluster, a: nat, b: nat, n: Name)
    requires cli.Valid() && a <= b < |cli.log| && Present(cli.log, a, b, n)
    requires cli.log[a].state.contours[n].status.conditions == [] && Updates(cli.log, a, b, n) != []
    ensures var updates := Updates(cli.log, a, b, n);
      var last, stored := updates[|updates| - 1], cli.log[b].state.contours[n].status.conditions;
      && |stored| == 1 && stored[0].kind == AVAILABLE
      && stored[0].status == last.status && stored[0].reason == last.reason && stored[0].message == last.message
      && stored[0].transitionTime == updates[BlockStart(updates)].transitionTime
  {
    hide Legal, Inv;
    ConditionsAreReplayed(cli, a, b, n);
    TransitionTimeLaw(Updates(cli.log, a, b, n));
  }

  /** Without a status step on it, a Contour that stays keeps its status. */
  lemma {:induction false} StatusStays(cli: Cluster, a: nat, b: nat, n: Name)
    requires cli.Valid() && a <= b < |cli.log| && Present(cli.log, a, b, n)
    requires forall k :: a < k <= b ==> !(cli.log[k].event.StatusUpdate? && cli.log[k].event.name == n)
    ensures cli.log[b].state.contours[n].status == cli.log[a].state.contours[n].status
    decreases b
  {
    hide Step;
    if a < b {
      StatusStays(cli, a, b - 1, n);
      InvAlways(cli.cfg, cli.log, b - 1);
      assert LegalAt(cli.cfg, cli.log, b);
      assert n in cli.log[b - 1].state.contours && n in cli.log[b].state.contours;
      StatusStep(cli.cfg, cli.log[b - 1].state, cli.log[b].event, cli.log[b].state, n);
    }
  }

  /** Without a finalizer step on it, a finalized Contour stays. */
  lemma {:induction false} HolderStays(cli: Cluster, a: nat, b: nat, n: Name, ns: string)
    requires cli.Valid() && a <= b < |cli.log| && Holds(cli.log[a].state, n, ns)
    requires forall k :: a < k <= b ==> cli.log[k].event != Event.Finalizers(n)
    ensures forall m :: a <= m <= b ==> Holds(cli.log[m].state, n, ns)
    decreases b
  {
    hide Legal, Inv, Holds, NoWorkloadOf;
    if a < b {
      HolderStays(cli, a, b - 1, n, ns);
      if !Holds(cli.log[b].state, n, ns) {
        ReleaseIsClean(cli, b, n, ns);
        assert false;
      }
    }
  }

  /** While it is held, a Contour that is going goes on going. */
  lemma {:induction false} GoingStays(cli: Cluster, a: nat, b: nat, n: Name, ns: string)
    requires cli.Valid() && a <= b < |cli.log| && forall m :: a <= m <= b ==> Holds(cli.log[m].state, n, ns)
    requires n in cli.log[a].state.contours && cli.log[a].state.contours[n].deleting
    ensures n in cli.log[b].state.contours && cli.log[b].state.contours[n].deleting
    decreases b
  {
    hide Step, Inv;
    if a < b {
      GoingStays(cli, a, b - 1, n, ns);
      InvAlways(cli.cfg, cli.log, b - 1);
      assert LegalAt(cli.cfg, cli.log, b);
      assert Holds(cli.log[b - 1].state, n, ns) && Holds(cli.log[b].state, n, ns);
      GoingStep(cli.cfg, cli.log[b - 1].state, cli.log[b].event, cli.log[b].state, n);
    }
  }

  lemma GoingStep(cfg: Config, s: State, event: Event, t: State, n: Name)
    requires Inv(cfg, s) && Step(cfg, s, event, t) && n in s.contours && n in t.contours && s.contours[n].IsFinalized()
    ensures s.contours[n].deleting ==> t.contours[n].deleting
  {
    hide MayWrite, MayDelete, KeyAt, Act, NoOrphans, OneOwner, WellKinded;
    if event.User? {
      ActKeeps(cfg, s, event.act);
    } else if event.Finalizers? {
      var fs: seq<string> :| t == WithContour(s, s.contours[event.name].(finalizers := fs));
    }
  }

  // ---- Ownership -----------------------------------------------------------------------------------

  /** The step is somebody's who may not touch this object: not tampering with it, and not an
      operator write on behalf of its owner. */
  ghost predicate Stranger(event: Event, key: Key, owner: Option<Name>) {
    match event
    case Tamper(k) => k != key
    case Create(who, _) => true
    case Update(who, _) => Some(who.name) != owner
    case Delete(who, _, _) => Some(who.name) != owner
    case _ => true
  }

  /** An object stays exactly as it is, over any stretch of a run, while only strangers act:
      without the two owner labels, whatever the operator does; with them, whatever it does
      for other Contours. */
  lemma {:induction false} StrangersLeaveAlone(cli: Cluster, a: nat, b: nat, key: Key)
    requires cli.Valid() && a <= b < |cli.log| && key in cli.log[a].state.objects
    requires forall k :: a < k <= b ==> Stranger(cli.log[k].event, key, OwnerOf(cli.log[a].state.objects[key].labels))
    ensures At(cli.log[b].state.objects, key) == Some(cli.log[a].state.objects[key])
    decreases b - a
  {
    if a < b {
      StrangersLeaveAlone(cli, a, b - 1, key);
      assert LegalAt(cli.cfg, cli.log, b) && Stranger(cli.log[b].event, key, OwnerOf(cli.log[a].state.objects[key].labels));
      StrangerStep(cli.cfg, cli.log[b - 1].state, cli.log[b].event, cli.log[b].state, key);
    }
  }

  lemma StrangerStep(cfg: Config, s: State, event: Event, t: State, key: Key)
    requires Step(cfg, s, event, t) && key in s.objects && Stranger(event, key, OwnerOf(s.objects[key].labels))
    ensures At(t.objects, key) == Some(s.objects[key])
  {
    hide KeyAt, MayWrite;
    if event.Tamper? {
      assert key != event.key;
    }
  }

  /** Only users, and the operator while it handles a request for that very Contour, change a
      Contour. */
  lemma OnlyItsRequestWritesAContour(cli: Cluster, k: nat, n: Name)
    requires cli.Valid() && 0 < k < |cli.log| && !cli.log[k].event.User?
    requires At(cli.log[k].state.contours, n) != At(cli.log[k - 1].state.contours, n)
    ensures VisitAt(cli.visits, k).Some? && VisitAt(cli.visits, k).value.name == n
  {
    hide NoOrphans, OneOwner, WellKinded, MayWrite, MayDelete;
    InvAlways(cli.cfg, cli.log, k - 1);
    assert LegalAt(cli.cfg, cli.log, k) && Credited(cli.log, cli.visits, k);
    var s, t, event := cli.log[k - 1].state, cli.log[k].state, cli.log[k].event;
    if event.Finalizers? {
      FinalizersTouchOne(cli.cfg, s, event.name, t);
    }
  }

  /** Since the request at hand was taken up, the operator has acted for its Contour alone. */
  lemma RequestActsForOne(cli: Cluster, k: nat)
    requires cli.Valid() && cli.visits != [] && cli.visits[|cli.visits| - 1].from <= k < |cli.log|
    requires ActorOf(cli.log[k].event).Some?
    ensures cli.WorksFor(ActorOf(cli.log[k].event).value)
  {
    assert Credited(cli.log, cli.visits, k);
  }

  /** Every step on a child was computed from a Contour exactly as it once was in the store. */
  lemma StepsComeFromTheStore(cli: Cluster, k: nat)
    requires cli.Valid() && k < |cli.log| && SubjectOf(cli.log[k].event).Some?
    ensures var who := SubjectOf(cli.log[k].event).value;
      exists j :: 0 <= j < k && At(cli.log[j].state.contours, who.name) == Some(who)
  {
    hide Legal, Inv;
    assert Credited(cli.log, cli.visits, k);
    var visit := VisitAt(cli.visits, k).value;
    LatestVisit(cli.visits, k);
    VisitIsOne(cli.visits, k);
    assert Taken(cli.log, visit);
  }

  lemma {:induction false} VisitIsOne(visits: seq<Visit>, k: nat)
    ensures VisitAt(visits, k).Some? ==> VisitAt(visits, k).value in visits
  {
    if visits != [] && visits[|visits| - 1].from > k {
      VisitIsOne(visits[..|visits| - 1], k);
    }
  }

  // ---- Namespaces ----------------------------------------------------------------------------------

  /** Whenever a namespace disappears and nobody tampered with it, the operator deleted it for
      a Contour that owned it, named it and asked for its removal; it is not one of the
      protected ones; and at the moment of an earlier check no other Contour named it, unless
      the asking Contour was gone by then and its single survivor a namesake. */
  lemma NamespaceRemovalHasCause(cli: Cluster, k: nat, ns: string)
    requires cli.Valid() && 0 < k < |cli.log|
    requires Key(NamespaceKind, "", ns) in cli.log[k - 1].state.objects
    requires Key(NamespaceKind, "", ns) !in cli.log[k].state.objects
    ensures var event, key := cli.log[k].event, Key(NamespaceKind, "", ns);
      || event == Tamper(key)
      || (event.Delete? && event.who.spec.ns == ns && event.who.spec.removeOnDeletion && ns !in {"contour-operator", "default", "kube-system"}
          && Owns(event.who.name, cli.log[k - 1].state.objects[key])
          && event.checkedAt < k
          && var then' := cli.log[event.checkedAt].state;
             (Shares(then', event.who) ==> Misfires(then', event.who.name) && !event.who.IsFinalized()))
  {
    hide MayWrite, Shares, Misfires;
    assert LegalAt(cli.cfg, cli.log, k);
    var event, key := cli.log[k].event, Key(NamespaceKind, "", ns);
    if event.Delete? {
      var gone := KeyAt(cli.cfg, event.who.spec.ns, event.child);
      assert gone == key;
      OnlyNamespaceChild(cli.cfg, event.who.spec.ns, event.child);
    }
  }

  lemma OnlyNamespaceChild(cfg: Config, ns: string, i: nat)
    requires i < CHILDREN && KeyAt(cfg, ns, i).kind == NamespaceKind
    ensures i == 0
  {
  }

  /** contour-operator, default and kube-system outlive every run in which nobody else deletes
      them. */
  lemma {:induction false} ProtectedSurvive(cli: Cluster, a: nat, b: nat, ns: string)
    requires cli.Valid() && a <= b < |cli.log|
    requires ns == "contour-operator" || ns == "default" || ns == "kube-system"
    requires Key(NamespaceKind, "", ns) in cli.log[a].state.objects
    requires forall k :: a < k <= b ==> cli.log[k].event != Tamper(Key(NamespaceKind, "", ns))
    ensures Key(NamespaceKind, "", ns) in cli.log[b].state.objects
    decreases b - a
  {
    if a < b {
      ProtectedSurvive(cli, a, b - 1, ns);
      if Key(NamespaceKind, "", ns) !in cli.log[b].state.objects {
        NamespaceRemovalHasCause(cli, b, ns);
        assert false;
      }
    }
  }

  /** The misfire is real: a Contour that another deletion step has already reaped, whose only
      survivor is a namesake elsewhere with the same spec namespace, passes the check although
      the namespace is in use. */
  lemma MisfireExample(spec: Spec)
    ensures var gone := Contour(Name("a", "contour"), spec, [], true, Status(0, 0, []), 0);
      var survivor := Contour(Name("b", "contour"), spec, [FINALIZER], false, Status(0, 0, []), 1);
      var s := State(map[], map[survivor.name := survivor], map[], 1);
      Versioned(s) && Shares(s, gone) && Misfires(s, gone.name) && CheckedAlone(s, gone)
  {
    var gone := Contour(Name("a", "contour"), spec, [], true, Status(0, 0, []), 0);
    var survivor := Contour(Name("b", "contour"), spec, [FINALIZER], false, Status(0, 0, []), 1);
    var s := State(map[], map[survivor.name := survivor], map[], 1);
    assert survivor.name in s.contours && survivor.name != gone.name;
    assert s.contours.Keys == {survivor.name};
  }

  // ---- RBAC ------------------------------------------------------------------------------------------

  /** Whenever one of the nine RBAC objects disappears and nobody tampered with it, the operator
      deleted it for a Contour that owned it; a role no longer had a binding of that Contour;
      and at the moment of an earlier check no other Contour named the namespace, for
      cluster-scoped ones no other Contour existed, unless the shortcut misfired. */
  lemma RbacRemovalHasCause(cli: Cluster, k: nat, ns: string, i: nat)
    requires cli.Valid() && 0 < k < |cli.log| && 1 <= i < FIRST_WORKLOAD
    requires KeyAt(cli.cfg, ns, i) in cli.log[k - 1].state.objects && KeyAt(cli.cfg, ns, i) !in cli.log[k].state.objects
    ensures var event, key, s := cli.log[k].event, KeyAt(cli.cfg, ns, i), cli.log[k - 1].state;
      || event == Tamper(key)
      || (&& event.Delete? && event.who.spec.ns == ns && event.child == i && Owns(event.who.name, s.objects[key])
          && (IsBoundRole(i) && KeyAt(cli.cfg, ns, i + 1) in s.objects ==>
                !Owns(event.who.name, s.objects[KeyAt(cli.cfg, ns, i + 1)]))
          && event.checkedAt < k
          && var asked := cli.log[event.checkedAt].state;
             if IsClusterScoped(i)
             then OthersExist(asked, event.who.name) ==> Misfires(asked, event.who.name) && !event.who.IsFinalized()
             else Shares(asked, event.who) ==> Misfires(asked, event.who.name) && !event.who.IsFinalized())
  {
    hide MayWrite, Shares, Misfires, OthersExist, KeyAt;
    assert LegalAt(cli.cfg, cli.log, k);
    var event := cli.log[k].event;
    if event.Create? || event.Update? || event.Delete? {
      OneChildMoved(cli.cfg, cli.log[k - 1].state, event, cli.log[k].state, ns, i);
    }
  }

  /** Every binding the Contour owns in this namespace refers to a role that exists. */
  ghost predicate BindingsRefer(cfg: Config, objects: map<Key, Object>, n: Name, ns: string) {
    forall i :: i in {5, 7, 9} && KeyAt(cfg, ns, i) in objects && Owns(n, objects[KeyAt(cfg, ns, i)]) ==>
      RefersToItsRole(cfg, objects, ns, i, objects[KeyAt(cfg, ns, i)])
  }

  /** No other Contour names the namespace. */
  ghost predicate HasToItself(s: State, n: Name, ns: string) {
    forall m :: m in s.contours && s.contours[m].spec.ns == ns ==> m == n
  }

  /** Nobody else touches a role or a binding of the namespace in this step. */
  ghost predicate SparesRbac(cfg: Config, event: Event, ns: string) {
    event.Tamper? ==> forall i :: 4 <= i < FIRST_WORKLOAD ==> event.key != KeyAt(cfg, ns, i)
  }

  /** From the moment a request is taken up, and after every single call of any sequence of
      passes, while a Contour has its spec namespace to itself and nobody else touches the
      roles and bindings there, its bindings refer to roles that exist. */
  lemma {:induction false} BindingsAlwaysRefer(cli: Cluster, v: nat, b: nat, n: Name, ns: string)
    requires cli.Valid() && v < |cli.visits| && 0 < cli.visits[v].from <= b + 1 <= |cli.log|
    requires BindingsRefer(cli.cfg, cli.log[cli.visits[v].from - 1].state.objects, n, ns)
    requires forall k :: cli.visits[v].from - 1 <= k < b ==> HasToItself(cli.log[k].state, n, ns)
    requires forall k :: cli.visits[v].from <= k <= b ==> SparesRbac(cli.cfg, cli.log[k].event, ns)
    ensures BindingsRefer(cli.cfg, cli.log[b].state.objects, n, ns)
    decreases b
  {
    hide BindingsRefer, Step, SparesRbac;
    if cli.visits[v].from <= b {
      BindingsAlwaysRefer(cli, v, b - 1, n, ns);
      assert LegalAt(cli.cfg, cli.log, b);
      ActsOnOwnGround(cli, v, b, n, ns);
      BindingsStillRefer(cli.cfg, cli.log[b - 1].state, cli.log[b].event, cli.log[b].state, n, ns);
    }
  }

  /** Whenever the operator writes a binding, it gives one service account of the namespace one
      role, the certificate Job's the certgen role and Contour's the others, and both exist. */
  lemma BindingWritesAreGrounded(cli: Cluster, k: nat)
    requires cli.Valid() && 0 < k < |cli.log| && (cli.log[k].event.Create? || cli.log[k].event.Update?)
    requires cli.log[k].event.child in {5, 7, 9}
    ensures var event, objects := cli.log[k].event, cli.log[k - 1].state.objects;
      var ns, key := event.who.spec.ns, KeyAt(cli.cfg, event.who.spec.ns, event.child);
      && key in cli.log[k].state.objects
      && var body := cli.log[k].state.objects[key].body;
         && (event.child == 5 ==>
               && body == ClusterRoleBinding([Subject("contour", ns)], "contour-" + ns)
               && Key(ClusterRoleKind, "", "contour-" + ns) in objects && Key(ServiceAccountKind, ns, "contour") in objects)
         && (event.child == 7 ==>
               && body == RoleBinding([Subject("contour-certgen", ns)], "contour-certgen")
               && Key(RoleKind, ns, "contour-certgen") in objects && Key(ServiceAccountKind, ns, "contour-certgen") in objects)
         && (event.child == 9 ==>
               && body == RoleBinding([Subject("contour", ns)], "contour")
               && Key(RoleKind, ns, "contour") in objects && Key(ServiceAccountKind, ns, "contour") in objects)
  {
    hide Tenant, Ready, OwnerOf;
    assert LegalAt(cli.cfg, cli.log, k);
  }

  /** Every role binding the Contour owns in this namespace binds its service account, which
      exists. */
  ghost predicate RoleBindingsBind(cfg: Config, objects: map<Key, Object>, n: Name, ns: string) {
    forall i :: i in {7, 9} && KeyAt(cfg, ns, i) in objects && Owns(n, objects[KeyAt(cfg, ns, i)]) ==>
      BindsItsAccount(cfg, objects, ns, i, objects[KeyAt(cfg, ns, i)])
  }

  /** Nobody else touches the service accounts and role bindings there. */
  ghost predicate SparesAccounts(cfg: Config, event: Event, ns: string) {
    event.Tamper? ==> forall i :: i in {1, 3, 7, 9} ==> event.key != KeyAt(cfg, ns, i)
  }

  /** The same for service accounts as BindingsAlwaysRefer says of roles: after every single call
      of any sequence of passes, a role binding of a Contour that has its spec namespace to
      itself binds a service account that exists. */
  lemma {:induction false} RoleBindingsAlwaysBind(cli: Cluster, v: nat, b: nat, n: Name, ns: string)
    requires cli.Valid() && v < |cli.visits| && 0 < cli.visits[v].from <= b + 1 <= |cli.log|
    requires RoleBindingsBind(cli.cfg, cli.log[cli.visits[v].from - 1].state.objects, n, ns)
    requires forall k :: cli.visits[v].from - 1 <= k < b ==> HasToItself(cli.log[k].state, n, ns)
    requires forall k :: cli.visits[v].from <= k <= b ==> SparesAccounts(cli.cfg, cli.log[k].event, ns)
    ensures RoleBindingsBind(cli.cfg, cli.log[b].state.objects, n, ns)
    decreases b
  {
    hide RoleBindingsBind, Step, SparesAccounts;
    if cli.visits[v].from <= b {
      RoleBindingsAlwaysBind(cli, v, b - 1, n, ns);
      assert LegalAt(cli.cfg, cli.log, b);
      ActsOnOwnGround(cli, v, b, n, ns);
      RoleBindingsStillBind(cli.cfg, cli.log[b - 1].state, cli.log[b].event, cli.log[b].state, n, ns);
    }
  }

  lemma RoleBindingsStillBind(cfg: Config, s: State, event: Event, t: State, n: Name, ns: string)
    requires Step(cfg, s, event, t) && SparesAccounts(cfg, event, ns) && RoleBindingsBind(cfg, s.objects, n, ns)
    requires SubjectOf(event).Some? && SubjectOf(event).value.spec.ns == ns ==> SubjectOf(event).value.name == n
    ensures RoleBindingsBind(cfg, t.objects, n, ns)
  {
    hide KeyAt, Tenant, Ready;
    forall i | i in {7, 9} && KeyAt(cfg, ns, i) in t.objects && Owns(n, t.objects[KeyAt(cfg, ns, i)])
      ensures BindsItsAccount(cfg, t.objects, ns, i, t.objects[KeyAt(cfg, ns, i)])
    {
      if event.Create? || event.Update? || event.Delete? {
        OneChildMoved(cfg, s, event, t, ns, i);
        OneChildMoved(cfg, s, event, t, ns, AccountOf(i));
        assert RoleBindingOf(AccountOf(i)) == i;
      } else if event.Tamper? {
        assert event.key != KeyAt(cfg, ns, i) && event.key != KeyAt(cfg, ns, AccountOf(i));
      }
    }
  }

  /** Steps computed from a Contour that was in the store when its request was taken up are
      this Contour's, if they concern a namespace it had to itself at the time. */
  lemma ActsOnOwnGround(cli: Cluster, v: nat, b: nat, n: Name, ns: string)
    requires cli.Valid() && v < |cli.visits| && 0 < cli.visits[v].from <= b < |cli.log|
    requires forall k :: cli.visits[v].from - 1 <= k < b ==> HasToItself(cli.log[k].state, n, ns)
    ensures SubjectOf(cli.log[b].event).Some? && SubjectOf(cli.log[b].event).value.spec.ns == ns ==>
      SubjectOf(cli.log[b].event).value.name == n
  {
    hide Legal, Inv;
    var event := cli.log[b].event;
    assert Credited(cli.log, cli.visits, b);
    if SubjectOf(event).Some? && SubjectOf(event).value.spec.ns == ns {
      VisitAtLater(cli.visits, v, b);
      LatestVisit(cli.visits, b);
      var visit := VisitAt(cli.visits, b).value;
      assert Taken(cli.log, visit);
      assert HasToItself(cli.log[visit.from - 1].state, n, ns);
    }
  }

  lemma {:induction false} LatestVisit(visits: seq<Visit>, k: nat)
    ensures VisitAt(visits, k).Some? ==> VisitAt(visits, k).value.from <= k
  {
    if visits != [] && visits[|visits| - 1].from > k {
      LatestVisit(visits[..|visits| - 1], k);
    }
  }

  lemma BindingsStillRefer(cfg: Config, s: State, event: Event, t: State, n: Name, ns: string)
    requires Step(cfg, s, event, t) && SparesRbac(cfg, event, ns) && BindingsRefer(cfg, s.objects, n, ns)
    requires SubjectOf(event).Some? && SubjectOf(event).value.spec.ns == ns ==> SubjectOf(event).value.name == n
    ensures BindingsRefer(cfg, t.objects, n, ns)
  {
    hide KeyAt, Tenant, Ready;
    forall i | i in {5, 7, 9} && KeyAt(cfg, ns, i) in t.objects && Owns(n, t.objects[KeyAt(cfg, ns, i)])
      ensures RefersToItsRole(cfg, t.objects, ns, i, t.objects[KeyAt(cfg, ns, i)])
    {
      if event.Create? || event.Update? || event.Delete? {
        OneChildMoved(cfg, s, event, t, ns, i);
        OneChildMoved(cfg, s, event, t, ns, i - 1);
      } else if event.Tamper? {
        assert event.key != KeyAt(cfg, ns, i) && event.key != KeyAt(cfg, ns, i - 1);
      }
    }
  }

  /** An operator step leaves child i of a namespace alone unless it is its very subject. */
  lemma OneChildMoved(cfg: Config, s: State, event: Event, t: State, ns: string, i: nat)
    requires Step(cfg, s, event, t) && i < CHILDREN && (event.Create? || event.Update? || event.Delete?)
    ensures At(t.objects, KeyAt(cfg, ns, i)) == At(s.objects, KeyAt(cfg, ns, i)) || (event.who.spec.ns == ns && event.child == i)
  {
    hide KeyAt, MayWrite;
    if event.who.spec.ns != ns {
      KeysDisjoint(cfg, event.who.spec.ns, ns, event.child, i);
    } else if event.child != i {
      KeysDistinct(cfg, ns, event.child, i);
    }
  }
}
