/** The reconcile protocol as a transition system: what users and the operator may do to the
    shared store, and the invariants every such step keeps. */
module Protocol {
  import opened Wrappers
  import opened Api
  import opened Children
  import Conditions

  datatype State = State(
    objects: map<Key, Object>,
    contours: map<Name, Contour>,
    health: map<Key, Health>,
    version: nat)

  // ---- Users -----------------------------------------------------------------------------

  /** What happens between two calls of the operator: people edit Contours, and workload
      controllers report health. */
  datatype UserAct =
    | CreateContour(name: Name, spec: Spec, finalizers: seq<string>)
    | EditContour(name: Name, spec: Spec, finalizers: seq<string>)
    | DeleteContour(name: Name)
    | Report(key: Key, health: Health)

  /** A Contour that is being deleted goes once its last finalizer does. */
  function Reaped(contours: map<Name, Contour>, n: Name): map<Name, Contour> {
    if n in contours && contours[n].deleting && contours[n].finalizers == [] then contours - {n} else contours
  }

  function WithContour(s: State, contour: Contour): State {
    s.(contours := Reaped(s.contours[contour.name := contour.(version := s.version + 1)], contour.name),
       version := s.version + 1)
  }

  /** Edits that move a Contour to another spec namespace, or take the operator's finalizer
      off, are outside the model and do nothing. */
  function Act(s: State, act: UserAct): State {
    match act
    case CreateContour(n, spec, finalizers) =>
      if n in s.contours then s
      else WithContour(s, Contour(n, spec, finalizers, false, Status(0, 0, []), 0))
    case EditContour(n, spec, finalizers) =>
      if n !in s.contours || spec.ns != s.contours[n].spec.ns
         || (s.contours[n].IsFinalized() && FINALIZER !in finalizers) then s
      else WithContour(s, s.contours[n].(spec := spec, finalizers := finalizers, name := n))
    case DeleteContour(n) =>
      if n !in s.contours then s
      else WithContour(s, s.contours[n].(deleting := true, name := n))
    case Report(key, health) => s.(health := s.health[key := health])
  }

  /** How Contours may change while the operator is not writing them. */
  ghost predicate Evolves(s: State, t: State) {
    && s.version <= t.version
    && (forall n :: n in t.contours && t.contours[n].version <= s.version ==>
          n in s.contours && t.contours[n] == s.contours[n])
    && (forall n :: n in s.contours && s.contours[n].IsFinalized() ==>
          n in t.contours && t.contours[n].IsFinalized()
          && t.contours[n].spec.ns == s.contours[n].spec.ns
          && (s.contours[n].deleting ==> t.contours[n].deleting))
  }

  lemma EvolvesTransitive(s: State, t: State, u: State)
    requires Evolves(s, t) && Evolves(t, u)
    ensures Evolves(s, u)
  {
  }

  // ---- Invariants ----------------------------------------------------------------------------

  ghost predicate WellKinded(s: State) {
    forall k :: k in s.objects ==> s.objects[k].Kind() == k.kind
  }

  ghost predicate Versioned(s: State) {
    forall n :: n in s.contours ==> s.contours[n].name == n && s.contours[n].version <= s.version
  }

  ghost predicate IsWorkloadKey(cfg: Config, k: Key) {
    exists i :: FIRST_WORKLOAD <= i < CHILDREN && k == KeyAt(cfg, k.ns, i)
  }

  /** The Contour n is in the store, holds the operator's finalizer, and has this spec
      namespace. */
  ghost predicate Holds(s: State, n: Name, ns: string) {
    n in s.contours && s.contours[n].IsFinalized() && s.contours[n].spec.ns == ns
  }

  /** Every workload that names an owner is at one of the operator's keys, and its owner
      still holds the namespace. */
  ghost predicate NoOrphans(cfg: Config, s: State) {
    forall k :: k in s.objects && IsWorkload(k.kind) && OwnerOf(s.objects[k].labels).Some? ==>
      IsWorkloadKey(cfg, k) && Holds(s, OwnerOf(s.objects[k].labels).value, k.ns)
  }

  /** All workloads of a namespace that name an owner name the same one. */
  ghost predicate OneOwner(s: State) {
    forall k, l :: k in s.objects && l in s.objects && IsWorkload(k.kind) && IsWorkload(l.kind) && k.ns == l.ns
                   && OwnerOf(s.objects[k].labels).Some? && OwnerOf(s.objects[l].labels).Some?
                   ==> OwnerOf(s.objects[k].labels) == OwnerOf(s.objects[l].labels)
  }

  ghost predicate Inv(cfg: Config, s: State) {
    WellKinded(s) && Versioned(s) && NoOrphans(cfg, s) && OneOwner(s)
  }

  // ---- The operator ----------------------------------------------------------------------------

  /** The Contour holds its spec namespace and no workload there names anybody else. */
  ghost predicate Tenant(s: State, contour: Contour) {
    && Holds(s, contour.name, contour.spec.ns)
    && (forall k :: k in s.objects && IsWorkload(k.kind) && k.ns == contour.spec.ns && OwnerOf(s.objects[k].labels).Some? ==>
          Owns(contour.name, s.objects[k]))
  }

  /** The namespace and the nine RBAC objects exist. */
  ghost predicate Ready(cfg: Config, objects: map<Key, Object>, ns: string) {
    forall i :: 0 <= i < FIRST_WORKLOAD ==> KeyAt(cfg, ns, i) in objects
  }

  predicate IsBinding(i: nat) { i in {5, 7, 9} }

  predicate IsBoundRole(i: nat) { i in {4, 6, 8} }

  function RoleRefOf(body: Body): Option<string> {
    match body
    case ClusterRoleBinding(_, role) => Some(role)
    case RoleBinding(_, role) => Some(role)
    case _ => None
  }

  /** A binding refers to the role ensured just before it. */
  ghost predicate RefersToItsRole(cfg: Config, objects: map<Key, Object>, ns: string, i: nat, obj: Object)
    requires IsBinding(i)
  {
    RoleRefOf(obj.body) == Some(KeyAt(cfg, ns, i - 1).name) && KeyAt(cfg, ns, i - 1) in objects
  }

  function SubjectsOf(body: Body): seq<Subject> {
    match body
    case ClusterRoleBinding(subjects, _) => subjects
    case RoleBinding(subjects, _) => subjects
    case _ => []
  }

  /** The child that is the service account a binding gives its role to. */
  function AccountOf(i: nat): nat {
    if i == 7 then 3 else 1
  }

  /** A binding gives its role to one service account of the Contour, which exists. */
  ghost predicate BindsItsAccount(cfg: Config, objects: map<Key, Object>, ns: string, i: nat, obj: Object) {
    SubjectsOf(obj.body) == [Subject(KeyAt(cfg, ns, AccountOf(i)).name, ns)] && KeyAt(cfg, ns, AccountOf(i)) in objects
  }

  ghost predicate MayWrite(cfg: Config, s: State, who: Contour, i: nat, obj: Object)
    requires i < CHILDREN
  {
    && Owns(who.name, obj) && obj.Kind() == KeyAt(cfg, who.spec.ns, i).kind
    && (i >= FIRST_WORKLOAD ==> Tenant(s, who) && Ready(cfg, s.objects, who.spec.ns))
    && (IsBinding(i) ==>
          RefersToItsRole(cfg, s.objects, who.spec.ns, i, obj) && BindsItsAccount(cfg, s.objects, who.spec.ns, i, obj))
  }

  /** The role binding that gives a role to the service account at child i. */
  function RoleBindingOf(i: nat): nat {
    if i == 3 then 7 else 9
  }

  const PROTECTED := {"contour-operator", "default", "kube-system"}

  ghost predicate MayDelete(cfg: Config, s: State, who: Contour, i: nat)
    requires i < CHILDREN
  {
    var key := KeyAt(cfg, who.spec.ns, i);
    && key in s.objects && Owns(who.name, s.objects[key])
    && (IsBoundRole(i) ==>
          var binding := KeyAt(cfg, who.spec.ns, i + 1);
          !(binding in s.objects && Owns(who.name, s.objects[binding])))
    && (i in {1, 3} ==>
          var binding := KeyAt(cfg, who.spec.ns, RoleBindingOf(i));
          !(binding in s.objects && Owns(who.name, s.objects[binding])))
    && (i == 0 ==> who.spec.removeOnDeletion && who.spec.ns !in PROTECTED)
  }

  ghost predicate NoWorkloadOf(s: State, n: Name) {
    forall k :: k in s.objects && IsWorkload(k.kind) ==> !Owns(n, s.objects[k])
  }

  /** Another Contour has the same spec namespace. */
  ghost predicate Shares(s: State, contour: Contour) {
    exists n :: n in s.contours && n != contour.name && s.contours[n].spec.ns == contour.spec.ns
  }

  /** The one case the shortcut for a single Contour gets wrong: the asking Contour is gone,
      and the only one left bears its name in another namespace. */
  ghost predicate Misfires(s: State, n: Name) {
    n !in s.contours && exists m :: s.contours.Keys == {m} && m.name == n.name
  }

  /** There is another Contour. */
  ghost predicate OthersExist(s: State, n: Name) {
    exists m :: m in s.contours && m != n
  }

  /** What the check before deleting a namespace or the RBAC objects in it establishes: no
      other Contour named the namespace, unless the shortcut misfired, which it cannot for a
      finalized Contour. */
  ghost predicate CheckedAlone(s: State, contour: Contour) {
    && (Shares(s, contour) ==> Misfires(s, contour.name))
    && (contour.IsFinalized() ==> !Shares(s, contour))
  }

  /** What the check before deleting cluster-scoped RBAC objects establishes: there was no
      other Contour at all, with the same reservation. */
  ghost predicate CheckedOnly(s: State, contour: Contour) {
    && (OthersExist(s, contour.name) ==> Misfires(s, contour.name))
    && (contour.IsFinalized() ==> !OthersExist(s, contour.name))
  }

  predicate IsClusterScoped(i: nat) { i in {4, 5} }

  ghost predicate Checked(s: State, contour: Contour, i: nat) {
    if IsClusterScoped(i) then CheckedOnly(s, contour) else CheckedAlone(s, contour)
  }

  datatype Event =
    | Start
    | User(act: UserAct)
    | Tamper(key: Key)
    | Create(who: Contour, child: nat)
    | Update(who: Contour, child: nat)
    | Delete(who: Contour, child: nat, checkedAt: nat)
    | Finalizers(name: Name)
    | StatusUpdate(name: Name, update: Condition)

  ghost predicate Stored(cfg: Config, s: State, who: Contour, i: nat, t: State)
    requires i < CHILDREN
  {
    var key := KeyAt(cfg, who.spec.ns, i);
    key in t.objects && t == s.(objects := s.objects[key := t.objects[key]])
  }

  ghost predicate HasUniqueKinds(status: Status) {
    Conditions.UniqueKinds(status.conditions)
  }

  /** What an update may not change: anything of a Job, a pod selector, an assigned cluster IP. */
  ghost predicate Updatable(before: Object, after: Object) {
    && !before.body.Job? && before.Selector() == after.Selector()
    && (before.body.Service? && !before.body.service.clusterIP.Unset? ==>
          after.body.Service? && after.body.service.clusterIP == before.body.service.clusterIP)
  }

  /** One legal step. */
  ghost predicate Step(cfg: Config, s: State, event: Event, t: State) {
    match event
    case Start => false
    case User(act) => t == Act(s, act)
    case Tamper(key) =>
      && t.contours == s.contours && t.version == s.version && t.health == s.health
      && t.objects == Put(s.objects, key, At(t.objects, key))
      && (key in t.objects ==>
            && t.objects[key].Kind() == key.kind
            && (IsWorkload(key.kind) && OwnerOf(t.objects[key].labels).Some? ==>
                  key in s.objects && OwnerOf(s.objects[key].labels) == OwnerOf(t.objects[key].labels)))
    case Create(who, i) =>
      && i < CHILDREN && KeyAt(cfg, who.spec.ns, i) !in s.objects
      && Stored(cfg, s, who, i, t) && MayWrite(cfg, s, who, i, t.objects[KeyAt(cfg, who.spec.ns, i)])
    case Update(who, i) =>
      && i < CHILDREN && KeyAt(cfg, who.spec.ns, i) in s.objects
      && Owns(who.name, s.objects[KeyAt(cfg, who.spec.ns, i)])
      && KeyAt(cfg, who.spec.ns, i) in t.objects
      && Updatable(s.objects[KeyAt(cfg, who.spec.ns, i)], t.objects[KeyAt(cfg, who.spec.ns, i)])
      && Stored(cfg, s, who, i, t) && MayWrite(cfg, s, who, i, t.objects[KeyAt(cfg, who.spec.ns, i)])
    case Delete(who, i, _) =>
      && i < CHILDREN && MayDelete(cfg, s, who, i)
      && t == s.(objects := s.objects - {KeyAt(cfg, who.spec.ns, i)})
    case Finalizers(n) =>
      && n in s.contours
      && (exists fs: seq<string> :: t == WithContour(s, s.contours[n].(finalizers := fs)))
      && (Holds(s, n, s.contours[n].spec.ns) && !Holds(t, n, s.contours[n].spec.ns) ==> NoWorkloadOf(s, n))
    case StatusUpdate(n, update) =>
      && n in s.contours && n in t.contours && update.kind == AVAILABLE
      && t.contours[n].status.conditions == Conditions.Merge1(s.contours[n].status.conditions, update)
      && t == s.(contours := s.contours[n := s.contours[n].(status := t.contours[n].status, version := s.version + 1)],
                 version := s.version + 1)
  }

  // ---- Steps keep the invariants -------------------------------------------------------------

  lemma ActKeeps(cfg: Config, s: State, act: UserAct)
    requires Inv(cfg, s)
    ensures Inv(cfg, Act(s, act)) && Evolves(s, Act(s, act)) && Act(s, act).objects == s.objects
  {
    match act
    case CreateContour(n, spec, finalizers) =>
      if n !in s.contours { PutKeeps(cfg, s, Contour(n, spec, finalizers, false, Status(0, 0, []), 0)); }
    case EditContour(n, spec, finalizers) =>
      if Act(s, act) != s { PutKeeps(cfg, s, s.contours[n].(spec := spec, finalizers := finalizers, name := n)); }
    case DeleteContour(n) =>
      if n in s.contours { PutKeeps(cfg, s, s.contours[n].(deleting := true, name := n)); }
    case Report(key, health) => KeepersKeep(cfg, s, Act(s, act));
  }

  /** Writing a Contour that holds its namespace if the stored one does. */
  lemma PutKeeps(cfg: Config, s: State, contour: Contour)
    requires Inv(cfg, s)
    requires contour.name in s.contours && s.contours[contour.name].IsFinalized() ==>
      var stored := s.contours[contour.name];
      contour.IsFinalized() && contour.spec.ns == stored.spec.ns && (stored.deleting ==> contour.deleting)
    ensures var t := WithContour(s, contour);
      Inv(cfg, t) && Evolves(s, t) && t.objects == s.objects
  {
    hide NoOrphans, OneOwner, WellKinded;
    var t := WithContour(s, contour);
    assert forall n :: n != contour.name ==> At(t.contours, n) == At(s.contours, n);
    assert contour.IsFinalized() ==> contour.name in t.contours;
    KeepersKeep(cfg, s, t);
  }

  /** As long as objects stay and holders keep holding, nothing is orphaned. */
  lemma KeepersKeep(cfg: Config, s: State, t: State)
    requires Inv(cfg, s) && t.objects == s.objects && Versioned(t) && Evolves(s, t)
    ensures Inv(cfg, t)
  {
    forall k | k in t.objects && IsWorkload(k.kind) && OwnerOf(t.objects[k].labels).Some?
      ensures IsWorkloadKey(cfg, k) && Holds(t, OwnerOf(t.objects[k].labels).value, k.ns)
    {
      assert Holds(s, OwnerOf(s.objects[k].labels).value, k.ns);
    }
  }

  lemma WorkloadIndex(cfg: Config, ns: string, i: nat)
    requires i < CHILDREN
    ensures IsWorkload(KeyAt(cfg, ns, i).kind) <==> i >= FIRST_WORKLOAD
    ensures i >= FIRST_WORKLOAD ==> KeyAt(cfg, ns, i).ns == ns && IsWorkloadKey(cfg, KeyAt(cfg, ns, i))
  {
    if i >= FIRST_WORKLOAD {
      assert KeyAt(cfg, ns, i) == KeyAt(cfg, KeyAt(cfg, ns, i).ns, i);
    }
  }

  lemma WriteKeeps(cfg: Config, s: State, who: Contour, i: nat, t: State)
    requires Inv(cfg, s) && i < CHILDREN && Stored(cfg, s, who, i, t)
    requires MayWrite(cfg, s, who, i, t.objects[KeyAt(cfg, who.spec.ns, i)])
    ensures Inv(cfg, t)
  {
    var key := KeyAt(cfg, who.spec.ns, i);
    WorkloadIndex(cfg, who.spec.ns, i);
    forall k | k in t.objects && IsWorkload(k.kind) && OwnerOf(t.objects[k].labels).Some?
      ensures IsWorkloadKey(cfg, k) && Holds(t, OwnerOf(t.objects[k].labels).value, k.ns)
    {
      if k != key {
        assert Holds(s, OwnerOf(s.objects[k].labels).value, k.ns);
      }
    }
    forall k, l | k in t.objects && l in t.objects && IsWorkload(k.kind) && IsWorkload(l.kind) && k.ns == l.ns
                  && OwnerOf(t.objects[k].labels).Some? && OwnerOf(t.objects[l].labels).Some?
      ensures OwnerOf(t.objects[k].labels) == OwnerOf(t.objects[l].labels)
    {
      if k == key && l != key {
        assert Owns(who.name, s.objects[l]);
      } else if l == key && k != key {
        assert Owns(who.name, s.objects[k]);
      }
    }
  }

  lemma RemovalKeeps(cfg: Config, s: State, key: Key)
    requires Inv(cfg, s)
    ensures Inv(cfg, s.(objects := s.objects - {key}))
  {
    var t := s.(objects := s.objects - {key});
    forall k | k in t.objects && IsWorkload(k.kind) && OwnerOf(t.objects[k].labels).Some?
      ensures IsWorkloadKey(cfg, k) && Holds(t, OwnerOf(t.objects[k].labels).value, k.ns)
    {
      assert Holds(s, OwnerOf(s.objects[k].labels).value, k.ns);
    }
  }

  lemma TamperKeeps(cfg: Config, s: State, key: Key, t: State)
    requires Inv(cfg, s) && Step(cfg, s, Tamper(key), t)
    ensures Inv(cfg, t)
  {
    forall k | k in t.objects && IsWorkload(k.kind) && OwnerOf(t.objects[k].labels).Some?
      ensures IsWorkloadKey(cfg, k) && Holds(t, OwnerOf(t.objects[k].labels).value, k.ns)
    {
      assert k in s.objects && OwnerOf(s.objects[k].labels) == OwnerOf(t.objects[k].labels);
      assert Holds(s, OwnerOf(s.objects[k].labels).value, k.ns);
    }
  }

  lemma FinalizersKeep(cfg: Config, s: State, n: Name, t: State)
    requires Inv(cfg, s) && Step(cfg, s, Finalizers(n), t)
    ensures Inv(cfg, t)
  {
    var fs: seq<string> :| t == WithContour(s, s.contours[n].(finalizers := fs));
    assert Versioned(t);
    forall k | k in t.objects && IsWorkload(k.kind) && OwnerOf(t.objects[k].labels).Some?
      ensures IsWorkloadKey(cfg, k) && Holds(t, OwnerOf(t.objects[k].labels).value, k.ns)
    {
      var owner := OwnerOf(s.objects[k].labels).value;
      assert Holds(s, owner, k.ns);
      if owner == n {
        assert Owns(n, s.objects[k]);
      }
    }
  }

  /** Every legal step, the operator's and everybody else's, keeps the invariants. */
  lemma StepKeepsInv(cfg: Config, s: State, event: Event, t: State)
    requires Inv(cfg, s) && Step(cfg, s, event, t)
    ensures Inv(cfg, t)
  {
    match event
    case User(act) => ActKeeps(cfg, s, act);
    case Tamper(key) => TamperKeeps(cfg, s, key, t);
    case Create(who, i) => WriteKeeps(cfg, s, who, i, t);
    case Update(who, i) => WriteKeeps(cfg, s, who, i, t);
    case Delete(who, i, _) => RemovalKeeps(cfg, s, KeyAt(cfg, who.spec.ns, i));
    case Finalizers(n) => FinalizersKeep(cfg, s, n, t);
    case StatusUpdate(n, _) => KeepersKeep(cfg, s, t);
    case Start =>
  }

  // ---- Tenancy ---------------------------------------------------------------------------------

  /** A validated, finalized Contour is the tenant of its namespace: nobody who could own
      workloads there remains. */
  lemma ValidatedIsTenant(cfg: Config, s: State, contour: Contour)
    requires Inv(cfg, s) && Holds(s, contour.name, contour.spec.ns) && !Shares(s, contour)
    ensures Tenant(s, contour)
  {
    forall k | k in s.objects && IsWorkload(k.kind) && k.ns == contour.spec.ns && OwnerOf(s.objects[k].labels).Some?
      ensures Owns(contour.name, s.objects[k])
    {
      var owner := OwnerOf(s.objects[k].labels).value;
      assert Holds(s, owner, k.ns);
    }
  }

  /** Tenancy survives users, and the Contour's own writes. */
  lemma TenantStays(s: State, t: State, contour: Contour)
    requires Tenant(s, contour) && Evolves(s, t)
    requires forall k :: k in t.objects ==>
      (k in s.objects && t.objects[k] == s.objects[k]) || Owns(contour.name, t.objects[k])
    ensures Tenant(t, contour)
  {
  }

  // ---- The log -----------------------------------------------------------------------------------

  datatype Record = Record(event: Event, state: State)

  /** Entry k of the log is legal after the entries before it. A namespace and RBAC objects are
      only deleted after a check of an earlier moment, recorded in the log. */
  ghost predicate LegalAt(cfg: Config, log: seq<Record>, k: nat)
    requires 0 < k < |log|
  {
    && Step(cfg, log[k - 1].state, log[k].event, log[k].state)
    && (log[k].event.Delete? && log[k].event.child < FIRST_WORKLOAD ==>
          log[k].event.checkedAt < k && Checked(log[log[k].event.checkedAt].state, log[k].event.who, log[k].event.child))
  }

  ghost predicate Legal(cfg: Config, log: seq<Record>) {
    && log != [] && log[0].event == Start
    && forall k :: 0 < k < |log| ==> LegalAt(cfg, log, k)
  }

  lemma LegalGrows(cfg: Config, log: seq<Record>, r: Record)
    requires Legal(cfg, log)
    requires Step(cfg, log[|log| - 1].state, r.event, r.state)
    requires r.event.Delete? && r.event.child < FIRST_WORKLOAD ==>
      r.event.checkedAt < |log| && Checked(log[r.event.checkedAt].state, r.event.who, r.event.child)
    ensures Legal(cfg, log + [r])
  {
    var grown := log + [r];
    forall k | 0 < k < |grown| ensures LegalAt(cfg, grown, k) {
      if k < |log| {
        assert LegalAt(cfg, log, k);
        assert grown[k] == log[k] && grown[k - 1] == log[k - 1];
      }
    }
  }

  lemma LogBegun(cfg: Config, log: seq<Record>)
    requires Legal(cfg, log)
    ensures log != []
  {
  }

  // ---- On whose behalf ---------------------------------------------------------------------------

  /** The Contour an operator step acts for. */
  function ActorOf(event: Event): Option<Name> {
    match event
    case Create(who, _) => Some(who.name)
    case Update(who, _) => Some(who.name)
    case Delete(who, _, _) => Some(who.name)
    case Finalizers(n) => Some(n)
    case StatusUpdate(n, _) => Some(n)
    case _ => None
  }

  /** The Contour an operator step was computed from, for steps on children. */
  function SubjectOf(event: Event): Option<Contour> {
    match event
    case Create(who, _) => Some(who)
    case Update(who, _) => Some(who)
    case Delete(who, _, _) => Some(who)
    case _ => None
  }

  /** A request for a Contour, taken up when the log had this length, and the Contour as it
      then was. */
  datatype Visit = Visit(from: nat, name: Name, found: Option<Contour>)

  /** The request that was being handled when entry k was made. */
  ghost function VisitAt(visits: seq<Visit>, k: nat): Option<Visit> {
    if visits == [] then None
    else if visits[|visits| - 1].from <= k then Some(visits[|visits| - 1])
    else VisitAt(visits[..|visits| - 1], k)
  }

  /** The step was made for the Contour of this request, as the request found it. */
  ghost predicate MadeFor(event: Event, visit: Option<Visit>) {
    ActorOf(event).Some? ==>
      && visit.Some? && visit.value.name == ActorOf(event).value
      && (SubjectOf(event).Some? ==> visit.value.found == SubjectOf(event))
  }

  ghost predicate Credited(log: seq<Record>, visits: seq<Visit>, k: nat)
    requires k < |log|
  {
    MadeFor(log[k].event, VisitAt(visits, k))
  }

  /** The request was taken up at this moment of the log. */
  ghost predicate Taken(log: seq<Record>, visit: Visit) {
    0 < visit.from <= |log| && visit.found == At(log[visit.from - 1].state.contours, visit.name)
  }

  /** Requests were taken up one after the other, and every operator step was made for the
      Contour whose request was being handled. */
  ghost predicate Attributed(log: seq<Record>, visits: seq<Visit>) {
    && (forall i :: 0 <= i < |visits| ==> Taken(log, visits[i]))
    && (forall i, j :: 0 <= i < j < |visits| ==> visits[i].from <= visits[j].from)
    && (forall k :: 0 <= k < |log| ==> Credited(log, visits, k))
  }

  lemma AttributedGrows(log: seq<Record>, visits: seq<Visit>, r: Record)
    requires Attributed(log, visits)
    requires MadeFor(r.event, if visits == [] then None else Some(visits[|visits| - 1]))
    ensures Attributed(log + [r], visits)
  {
    var grown := log + [r];
    forall i | 0 <= i < |visits| ensures Taken(grown, visits[i]) {
      assert Taken(log, visits[i]);
    }
    forall k | 0 <= k < |grown| ensures Credited(grown, visits, k) {
      if k < |log| {
        assert Credited(log, visits, k);
      } else if visits != [] {
        assert Taken(log, visits[|visits| - 1]);
      }
    }
  }

  lemma AttributedVisit(log: seq<Record>, visits: seq<Visit>, visit: Visit)
    requires Attributed(log, visits) && Taken(log, visit) && visit.from == |log|
    ensures Attributed(log, visits + [visit])
  {
    var more := visits + [visit];
    assert more[..|visits|] == visits;
    forall i | 0 <= i < |more| ensures Taken(log, more[i]) {
      if i < |visits| {
        assert Taken(log, visits[i]);
      }
    }
    forall i, j | 0 <= i < j < |more| ensures more[i].from <= more[j].from {
      if j == |visits| {
        assert Taken(log, visits[i]);
      }
    }
    forall k | 0 <= k < |log| ensures Credited(log, more, k) {
      assert Credited(log, visits, k);
    }
  }

  /** Entries made since a request was taken up belong to it or to a later one. */
  lemma {:induction false} VisitAtLater(visits: seq<Visit>, v: nat, k: nat)
    requires v < |visits| && visits[v].from <= k
    requires forall i, j :: 0 <= i < j < |visits| ==> visits[i].from <= visits[j].from
    ensures VisitAt(visits, k).Some? && VisitAt(visits, k).value in visits
    ensures visits[v].from <= VisitAt(visits, k).value.from
  {
    var last := |visits| - 1;
    if visits[last].from > k {
      VisitAtLater(visits[..last], v, k);
    }
  }

  // ---- Steps on Contours ---------------------------------------------------------------------------

  /** The operator wrote a Contour: its finalizers or its status. */
  predicate IsContourStep(event: Event) {
    event.Finalizers? || event.StatusUpdate?
  }

  ghost function ContourSteps(log: seq<Record>): nat {
    if log == [] then 0
    else ContourSteps(log[..|log| - 1]) + if IsContourStep(log[|log| - 1].event) then 1 else 0
  }

  lemma ContourStepsGrow(log: seq<Record>, r: Record)
    ensures ContourSteps(log + [r]) == ContourSteps(log) + if IsContourStep(r.event) then 1 else 0
  {
    assert (log + [r])[..|log|] == log;
  }

  lemma {:induction false} ContourStepsMonotone(log: seq<Record>, later: seq<Record>)
    requires log <= later
    ensures ContourSteps(log) <= ContourSteps(later)
    decreases |later|
  {
    if |log| < |later| {
      ContourStepsMonotone(log, later[..|later| - 1]);
    } else {
      assert log == later;
    }
  }

  /** Where the count did not grow, no Contour was written. */
  lemma {:induction false} NoContourStep(log: seq<Record>, later: seq<Record>, k: nat)
    requires log <= later && ContourSteps(later) == ContourSteps(log) && |log| <= k < |later|
    ensures !IsContourStep(later[k].event)
    decreases |later|
  {
    var init := later[..|later| - 1];
    ContourStepsMonotone(log, init);
    if k < |init| {
      NoContourStep(log, init, k);
    }
  }

  /** Where it grew by one, that one step is all there was. */
  lemma {:induction false} OneContourStep(log: seq<Record>, later: seq<Record>, at: nat, k: nat)
    requires log <= later && ContourSteps(later) == ContourSteps(log) + 1
    requires |log| <= at < |later| && IsContourStep(later[at].event) && |log| <= k < |later| && IsContourStep(later[k].event)
    ensures k == at
    decreases |later|
  {
    var init := later[..|later| - 1];
    ContourStepsMonotone(log, init);
    if IsContourStep(later[|later| - 1].event) {
      if at < |init| { NoContourStep(log, init, at); }
      if k < |init| { NoContourStep(log, init, k); }
    } else {
      OneContourStep(log, init, at, k);
    }
  }

  /** Since this position a user has changed, removed or created the Contour. */
  ghost predicate UserMoved(log: seq<Record>, from: nat, n: Name) {
    exists k :: from < k < |log| && MovesAt(log, k, n)
  }

  ghost predicate MovesAt(log: seq<Record>, k: nat, n: Name)
    requires 0 < k < |log|
  {
    log[k].event.User? && At(log[k].state.contours, n) != At(log[k - 1].state.contours, n)
  }

  /** A Contour that changed while the operator wrote none was changed by a user. */
  lemma {:induction false} MovedByUser(cfg: Config, log: seq<Record>, from: nat, m: nat, n: Name)
    requires Legal(cfg, log) && from <= m < |log| && At(log[m].state.contours, n) != At(log[from].state.contours, n)
    requires forall k :: from < k <= m ==> !IsContourStep(log[k].event)
    ensures UserMoved(log, from, n)
    decreases m
  {
    hide MayWrite, MayDelete, KeyAt;
    assert LegalAt(cfg, log, m);
    if log[m].event.User? && At(log[m].state.contours, n) != At(log[m - 1].state.contours, n) {
      assert MovesAt(log, m, n);
    } else {
      assert At(log[m].state.contours, n) == At(log[m - 1].state.contours, n);
      MovedByUser(cfg, log, from, m - 1, n);
    }
  }
}
