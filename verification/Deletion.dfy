/** Deleting RBAC objects and the namespace (internal/objects/rbac.go,
    internal/objects/namespace/namespace.go). */
module Deletion {
  import opened Wrappers
  import opened Api
  import opened Children
  import opened Protocol
  import opened Cluster
  import opened Contours
  import opened Retryable
  import opened Ensure

  /** Deletion passes only remove, and only objects that name the Contour. */
  ghost predicate Pruned(s: State, t: State, n: Name) {
    forall k :: At(t.objects, k) == At(s.objects, k) || (k !in t.objects && k in s.objects && Owns(n, s.objects[k]))
  }

  lemma PrunedTransitive(s: State, t: State, u: State, n: Name)
    requires Pruned(s, t, n) && Pruned(t, u, n)
    ensures Pruned(s, u, n)
  {
    forall k ensures At(u.objects, k) == At(s.objects, k) || (k !in u.objects && k in s.objects && Owns(n, s.objects[k])) {
      assert At(t.objects, k) == At(s.objects, k) || (k !in t.objects && k in s.objects && Owns(n, s.objects[k]));
      assert At(u.objects, k) == At(t.objects, k) || (k !in u.objects && k in t.objects && Owns(n, t.objects[k]));
    }
  }

  /** What is gone stays gone under further pruning. */
  lemma NotOursStays(cfg: Config, s: State, t: State, contour: Contour, i: nat)
    requires Pruned(s, t, contour.name) && i < CHILDREN && NotOurs(cfg, s, contour, i)
    ensures NotOurs(cfg, t, contour, i)
  {
    hide KeyAt, OwnerOf;
  }

  lemma RemovalPrunes(cfg: Config, s: State, t: State, contour: Contour, i: nat)
    requires Removal(cfg, s, t, contour, i)
    ensures Pruned(s, t, contour.name)
  {
    hide KeyAt, OwnerOf;
    var key := KeyAt(cfg, contour.spec.ns, i);
    forall k ensures At(t.objects, k) == At(s.objects, k) || (k !in t.objects && k in s.objects && Owns(contour.name, s.objects[k])) {
      if k != key { assert At(s.objects, k) == At(t.objects, k); }
    }
  }

  // ---- Which children may go -------------------------------------------------------------------

  const WORKLOADS: set<nat> := {10, 11, 12, 13, 14, 15}
  const NAMESPACED_RBAC: set<nat> := {1, 2, 3, 6, 7, 8, 9}
  const CLUSTER_RBAC: set<nat> := {4, 5}

  ghost predicate Among(cfg: Config, ns: string, doomed: set<nat>, k: Key) {
    exists i :: i in doomed && i < CHILDREN && k == KeyAt(cfg, ns, i)
  }

  /** Nothing but these children has changed. */
  ghost predicate Confined(cfg: Config, ns: string, s: State, t: State, doomed: set<nat>) {
    forall k :: !Among(cfg, ns, doomed, k) ==> At(t.objects, k) == At(s.objects, k)
  }

  lemma ConfinedJoin(cfg: Config, ns: string, s: State, t: State, u: State, a: set<nat>, b: set<nat>)
    requires Confined(cfg, ns, s, t, a) && Confined(cfg, ns, t, u, b)
    ensures Confined(cfg, ns, s, u, a + b)
  {
    hide KeyAt;
    forall k | !Among(cfg, ns, a + b, k) ensures At(u.objects, k) == At(s.objects, k) {
      AmongMore(cfg, ns, a, b, k);
    }
  }

  lemma AmongMore(cfg: Config, ns: string, a: set<nat>, b: set<nat>, k: Key)
    ensures Among(cfg, ns, a, k) || Among(cfg, ns, b, k) ==> Among(cfg, ns, a + b, k)
  {
    hide KeyAt;
    if Among(cfg, ns, a, k) {
      var i :| i in a && i < CHILDREN && k == KeyAt(cfg, ns, i);
      assert i in a + b;
    } else if Among(cfg, ns, b, k) {
      var i :| i in b && i < CHILDREN && k == KeyAt(cfg, ns, i);
      assert i in a + b;
    }
  }

  lemma ConfinedSelf(cfg: Config, ns: string, s: State, t: State, doomed: set<nat>)
    requires t.objects == s.objects
    ensures Confined(cfg, ns, s, t, doomed)
  {
  }

  lemma RemovalConfined(cfg: Config, s: State, t: State, contour: Contour, i: nat)
    requires Removal(cfg, s, t, contour, i)
    ensures Confined(cfg, contour.spec.ns, s, t, {i})
  {
    hide KeyAt;
    forall k | !Among(cfg, contour.spec.ns, {i}, k) ensures At(t.objects, k) == At(s.objects, k) {
      assert i in {i};
    }
  }

  /** None of these children is left to the Contour. */
  ghost predicate AllGone(cfg: Config, s: State, contour: Contour, doomed: set<nat>) {
    forall i :: i in doomed && i < CHILDREN ==> NotOurs(cfg, s, contour, i)
  }

  lemma GoneStays(cfg: Config, s: State, t: State, contour: Contour, doomed: set<nat>)
    requires Pruned(s, t, contour.name) && AllGone(cfg, s, contour, doomed)
    ensures AllGone(cfg, t, contour, doomed)
  {
    hide KeyAt, Pruned, NotOurs;
    forall i | i in doomed && i < CHILDREN ensures NotOurs(cfg, t, contour, i) {
      assert NotOurs(cfg, s, contour, i);
      NotOursStays(cfg, s, t, contour, i);
    }
  }

  /** The RBAC objects a deletion pass goes for, given the states in which it asked. */
  ghost function DoomedRbac(shared: State, others: State, contour: Contour): set<nat> {
    (if SeesSharing(shared, contour) then {} else NAMESPACED_RBAC) +
    (if SeesOthers(others, contour.name) then {} else CLUSTER_RBAC)
  }

  // ---- RBAC ------------------------------------------------------------------------------------

  datatype Entry = Entry(child: nat, obj: Object)

  /** How many of the nine RBAC objects are namespaced; they come first. */
  const NAMESPACED := 7

  /** The place of an RBAC object in the order of deletion: each binding right before its role. */
  function Rank9(i: nat): (place: nat)
    ensures place <= 8
  {
    match i
    case 9 => 0 case 8 => 1 case 7 => 2 case 6 => 3 case 1 => 4 case 2 => 5 case 3 => 6 case 5 => 7 case _ => 8
  }

  predicate Listed9(i: nat) { 1 <= i <= 9 }

  /** The entries are what exists of places lo up to hi, in that order. */
  ghost predicate Collected(cfg: Config, s: State, contour: Contour, entries: seq<Entry>, lo: nat, hi: nat) {
    && lo <= hi <= 9
    && (forall t :: 0 <= t < |entries| ==>
          Listed9(entries[t].child) && lo <= Rank9(entries[t].child) < hi
          && Here(cfg, s, contour, entries[t].child) == Some(entries[t].obj))
    && (forall t, u :: 0 <= t < u < |entries| ==> Rank9(entries[t].child) < Rank9(entries[u].child))
    && (forall i :: Listed9(i) && lo <= Rank9(i) < hi && Here(cfg, s, contour, i).Some? ==>
          exists t :: 0 <= t < |entries| && entries[t].child == i)
  }

  /** Looks up one object and appends it when found. */
  method Collect(cli: Cluster, contour: Contour, i: nat, entries: seq<Entry>, ghost lo: nat)
    returns (extended: seq<Entry>, err: Option<Error>)
    requires cli.Valid() && Listed9(i)
    requires Collected(cli.cfg, cli.state, contour, entries, lo, Rank9(i))
    modifies cli`state, cli`clock, cli`log
    ensures cli.Advanced() && cli.state.objects == old(cli.state.objects)
    ensures Faultless(cli.script, old(cli.clock), cli.clock) ==> err.None?
    ensures old(cli.Calm()) ==> err.None? && cli.state == old(cli.state) && cli.log == old(cli.log)
    ensures err.None? ==> Collected(cli.cfg, cli.state, contour, extended, lo, Rank9(i) + 1)
  {
    hide cli.Calm, Attributed, Legal, Inv, Evolves, KeyAt, Collected;
    ghost var s := cli.state;
    var reply := cli.GetObject(KeyAt(cli.cfg, contour.spec.ns, i));
    CollectedStays(cli.cfg, s, cli.state, contour, entries, lo, Rank9(i));
    if reply.Failed? {
      return entries, Some(Failure("failed to get object"));
    }
    extended := if reply.Found? then entries + [Entry(i, reply.value)] else entries;
    CollectedGrows(cli.cfg, cli.state, contour, entries, extended, lo, i);
    return extended, None;
  }

  lemma CollectedStays(cfg: Config, s: State, t: State, contour: Contour, entries: seq<Entry>, lo: nat, hi: nat)
    requires Collected(cfg, s, contour, entries, lo, hi) && t.objects == s.objects
    ensures Collected(cfg, t, contour, entries, lo, hi)
  {
    hide KeyAt;
    assert forall i: nat :: i < CHILDREN ==> Here(cfg, s, contour, i) == Here(cfg, t, contour, i);
  }

  lemma Rank9Injective(i: nat, j: nat)
    requires Listed9(i) && Listed9(j) && Rank9(i) == Rank9(j)
    ensures i == j
  {
  }

  lemma CollectedGrows(cfg: Config, s: State, contour: Contour, entries: seq<Entry>, extended: seq<Entry>, lo: nat, i: nat)
    requires Listed9(i) && Collected(cfg, s, contour, entries, lo, Rank9(i))
    requires extended == match Here(cfg, s, contour, i) case Some(obj) => entries + [Entry(i, obj)] case None => entries
    ensures Collected(cfg, s, contour, extended, lo, Rank9(i) + 1)
  {
    hide KeyAt, Here, Rank9;
    forall j | Listed9(j) && lo <= Rank9(j) < Rank9(i) + 1 && Here(cfg, s, contour, j).Some?
      ensures exists t :: 0 <= t < |extended| && extended[t].child == j
    {
      if Rank9(j) < Rank9(i) {
        var t :| 0 <= t < |entries| && entries[t].child == j;
        assert extended[t].child == j;
      } else {
        Rank9Injective(i, j);
        assert extended[|entries|].child == j;
      }
    }
  }

  /** Places lo up to hi, as children. */
  ghost function Range(lo: nat, hi: nat): set<nat> {
    (if lo == 0 then NAMESPACED_RBAC else {}) + (if hi == 9 then CLUSTER_RBAC else {})
  }

  lemma InRange(lo: nat, hi: nat, i: nat)
    requires (lo == 0 || lo == NAMESPACED) && (hi == NAMESPACED || hi == 9)
    ensures i in Range(lo, hi) <==> Listed9(i) && lo <= Rank9(i) < hi
    ensures Listed9(i) ==> (Rank9(i) < NAMESPACED <==> !IsClusterScoped(i))
  {
  }

  /** Deletes the collected objects that name the Contour, stopping at the first failure. The
      checks that allow it were made at two positions of the log. */
  method DeleteEntries(cli: Cluster, contour: Contour, entries: seq<Entry>, ghost lo: nat, ghost hi: nat,
                       ghost sharedAt: nat, ghost othersAt: nat)
    returns (err: Option<Error>)
    requires cli.Valid() && cli.WorksOn(contour) && Collected(cli.cfg, cli.state, contour, entries, lo, hi)
    requires (lo == 0 || lo == NAMESPACED) && (hi == NAMESPACED || hi == 9)
    requires lo == 0 ==> sharedAt < |cli.log| && CheckedAlone(cli.log[sharedAt].state, contour)
    requires hi == 9 ==> othersAt < |cli.log| && CheckedOnly(cli.log[othersAt].state, contour)
    modifies cli`state, cli`clock, cli`log, cli`writes
    ensures cli.Advanced() && Pruned(old(cli.state), cli.state, contour.name)
    ensures Confined(cli.cfg, contour.spec.ns, old(cli.state), cli.state, Range(lo, hi))
    ensures err.None? ==> AllGone(cli.cfg, cli.state, contour, Range(lo, hi))
    ensures old(cli.clock) <= cli.clock && Prompt(cli.script, old(cli.clock), cli.clock, err.Some?)
    ensures Faultless(cli.script, old(cli.clock), cli.clock) ==> err.None?
    ensures old(cli.Calm()) ==> err.None? && OnlyObjects(old(cli.state), cli.state)
  {
    hide cli.Calm, cli.Valid, Evolves, KeyAt, OwnerOf, MayDelete, Collected, Pruned, NotOurs, Here, Confined,
      CheckedAlone, CheckedOnly, Range, Rank9;
    ghost var s := cli.state;
    SameContoursEvolve(s, s);
    PrunedSelf(s, s, contour.name);
    ConfinedSelf(cli.cfg, contour.spec.ns, s, s, Range(lo, hi));
    CollectedChildren(cli.cfg, s, contour, entries, lo, hi);
    for t := 0 to |entries|
      invariant cli.Advanced() && Pruned(s, cli.state, contour.name)
      invariant Confined(cli.cfg, contour.spec.ns, s, cli.state, Range(lo, hi))
      invariant forall u :: 0 <= u < t ==> NotOurs(cli.cfg, cli.state, contour, entries[u].child)
      invariant forall u :: t <= u < |entries| ==> Here(cli.cfg, cli.state, contour, entries[u].child) == Some(entries[u].obj)
      invariant Prompt(cli.script, old(cli.clock), cli.clock, false)
      invariant old(cli.Calm()) ==> OnlyObjects(s, cli.state)
    {
      var entry := entries[t];
      ghost var mid := cli.state;
      if Guarded(contour.name, entry.obj) {
        EntryDeletable(cli.cfg, s, mid, contour, entries, lo, hi, t);
        InRange(lo, hi, entry.child);
        ghost var checkedAt := if IsClusterScoped(entry.child) then othersAt else sharedAt;
        var ack := cli.DeleteObject(contour, entry.child, KeyAt(cli.cfg, contour.spec.ns, entry.child), checkedAt);
        EvolvesTransitive(s, mid, cli.state);
        OneGone(cli.cfg, mid, cli.state, contour, entry.child);
        PrunedTransitive(s, mid, cli.state, contour.name);
        OneConfined(cli.cfg, contour.spec.ns, s, mid, cli.state, Range(lo, hi), entry.child);
        if ack == Refused {
          return Some(Failure("failed to delete object"));
        }
        EntryGone(cli.cfg, s, mid, cli.state, contour, entries, lo, hi, t);
      } else {
        NotNamed(cli.cfg, mid, contour, entry);
      }
    }
    EntriesCover(cli.cfg, s, cli.state, contour, entries, lo, hi);
    return None;
  }

  lemma OneConfined(cfg: Config, ns: string, s: State, mid: State, t: State, doomed: set<nat>, i: nat)
    requires Confined(cfg, ns, s, mid, doomed) && i in doomed && i < CHILDREN
    requires var key := KeyAt(cfg, ns, i); t.objects == mid.objects || t.objects == mid.objects - {key}
    ensures Confined(cfg, ns, s, t, doomed)
  {
    hide KeyAt;
    assert Confined(cfg, ns, mid, t, {i}) by {
      forall k | !Among(cfg, ns, {i}, k) ensures At(t.objects, k) == At(mid.objects, k) {
        assert i in {i};
      }
    }
    ConfinedJoin(cfg, ns, s, mid, t, doomed, {i});
    assert doomed + {i} == doomed;
  }

  lemma CollectedChildren(cfg: Config, s: State, contour: Contour, entries: seq<Entry>, lo: nat, hi: nat)
    requires Collected(cfg, s, contour, entries, lo, hi)
    ensures forall t :: 0 <= t < |entries| ==>
      Listed9(entries[t].child) && lo <= Rank9(entries[t].child) < hi
      && Here(cfg, s, contour, entries[t].child) == Some(entries[t].obj)
  {
    hide KeyAt;
  }

  lemma NotNamed(cfg: Config, s: State, contour: Contour, entry: Entry)
    requires entry.child < CHILDREN && Here(cfg, s, contour, entry.child) == Some(entry.obj) && !Owns(contour.name, entry.obj)
    ensures NotOurs(cfg, s, contour, entry.child)
  {
    hide KeyAt, OwnerOf;
  }

  /** One entry deleted, the earlier ones stay gone and the later ones are still there. */
  lemma EntryGone(cfg: Config, s: State, mid: State, now: State, contour: Contour, entries: seq<Entry>, lo: nat, hi: nat, t: nat)
    requires Collected(cfg, s, contour, entries, lo, hi) && t < |entries| && Pruned(mid, now, contour.name)
    requires var key := KeyAt(cfg, contour.spec.ns, entries[t].child);
      key !in now.objects && (now.objects == mid.objects || now.objects == mid.objects - {key})
    ensures NotOurs(cfg, now, contour, entries[t].child)
    ensures forall u :: 0 <= u < t && NotOurs(cfg, mid, contour, entries[u].child) ==> NotOurs(cfg, now, contour, entries[u].child)
    ensures forall u :: t < u < |entries| ==>
      Here(cfg, now, contour, entries[u].child) == Here(cfg, mid, contour, entries[u].child)
  {
    hide KeyAt, OwnerOf, Pruned;
    forall u | 0 <= u < t && NotOurs(cfg, mid, contour, entries[u].child) ensures NotOurs(cfg, now, contour, entries[u].child) {
      NotOursStays(cfg, mid, now, contour, entries[u].child);
    }
    forall u | t < u < |entries| ensures Here(cfg, now, contour, entries[u].child) == Here(cfg, mid, contour, entries[u].child) {
      KeysDistinct(cfg, contour.spec.ns, entries[t].child, entries[u].child);
    }
  }

  lemma EntriesCover(cfg: Config, s: State, now: State, contour: Contour, entries: seq<Entry>, lo: nat, hi: nat)
    requires Collected(cfg, s, contour, entries, lo, hi) && Pruned(s, now, contour.name)
    requires forall u :: 0 <= u < |entries| ==> NotOurs(cfg, now, contour, entries[u].child)
    requires (lo == 0 || lo == NAMESPACED) && (hi == NAMESPACED || hi == 9)
    ensures AllGone(cfg, now, contour, Range(lo, hi))
  {
    hide KeyAt, OwnerOf, Rank9, Range;
    forall i | i in Range(lo, hi) && i < CHILDREN ensures NotOurs(cfg, now, contour, i) {
      InRange(lo, hi, i);
      if Here(cfg, s, contour, i).Some? {
        var t :| 0 <= t < |entries| && entries[t].child == i;
      }
    }
  }

  lemma OneGone(cfg: Config, s: State, t: State, contour: Contour, i: nat)
    requires i < CHILDREN && Here(cfg, s, contour, i).Some? && Owns(contour.name, Here(cfg, s, contour, i).value)
    requires var key := KeyAt(cfg, contour.spec.ns, i);
      t.objects == s.objects || t.objects == s.objects - {key}
    ensures Pruned(s, t, contour.name)
  {
    hide KeyAt, OwnerOf;
  }

  /** Whatever comes before an entry in the order is no longer ours when its turn comes. */
  lemma EarlierGone(cfg: Config, s: State, mid: State, contour: Contour, entries: seq<Entry>, lo: nat, hi: nat, t: nat, j: nat)
    requires Collected(cfg, s, contour, entries, lo, hi) && t < |entries| && Pruned(s, mid, contour.name)
    requires forall u :: 0 <= u < t ==> NotOurs(cfg, mid, contour, entries[u].child)
    requires Listed9(j) && lo <= Rank9(j) < Rank9(entries[t].child)
    ensures NotOurs(cfg, mid, contour, j)
  {
    hide KeyAt, OwnerOf, Rank9, Pruned, NotOurs;
    if Here(cfg, s, contour, j).Some? {
      var u :| 0 <= u < |entries| && entries[u].child == j;
      assert u < t;
    } else {
      assert NotOurs(cfg, s, contour, j) by { NothingHere(cfg, s, contour, j); }
      NotOursStays(cfg, s, mid, contour, j);
    }
  }

  lemma NothingHere(cfg: Config, s: State, contour: Contour, i: nat)
    requires i < CHILDREN && Here(cfg, s, contour, i).None?
    ensures NotOurs(cfg, s, contour, i)
  {
  }

  /** When its turn comes, an owned role no longer has a binding of ours, and a service account
      no longer a role binding. */
  lemma EntryDeletable(cfg: Config, s: State, mid: State, contour: Contour, entries: seq<Entry>, lo: nat, hi: nat, t: nat)
    requires Collected(cfg, s, contour, entries, lo, hi) && t < |entries| && (lo == 0 || lo == NAMESPACED)
    requires Pruned(s, mid, contour.name)
    requires forall u :: 0 <= u < t ==> NotOurs(cfg, mid, contour, entries[u].child)
    requires Here(cfg, mid, contour, entries[t].child) == Some(entries[t].obj)
    requires Owns(contour.name, entries[t].obj)
    ensures MayDelete(cfg, mid, contour, entries[t].child)
  {
    hide KeyAt, OwnerOf, Pruned;
    var i := entries[t].child;
    if IsBoundRole(i) {
      EarlierGone(cfg, s, mid, contour, entries, lo, hi, t, i + 1);
    }
    if i in {1, 3} {
      EarlierGone(cfg, s, mid, contour, entries, lo, hi, t, RoleBindingOf(i));
    }
  }

  /** The deleted Contour's copy is of one that is still there if it held the finalizer. */
  ghost predicate StillHeld(s: State, contour: Contour) {
    contour.IsFinalized() ==> contour.name in s.contours && s.contours[contour.name].IsFinalized()
  }

  lemma StillHeldStays(s: State, t: State, contour: Contour)
    requires StillHeld(s, contour) && Evolves(s, t)
    ensures StillHeld(t, contour)
  {
  }

  /** What not seeing anybody establishes. */
  lemma UnseenIsChecked(s: State, contour: Contour)
    requires StillHeld(s, contour)
    ensures !SeesSharing(s, contour) ==> CheckedAlone(s, contour)
    ensures !SeesOthers(s, contour.name) ==> CheckedOnly(s, contour)
  {
  }

  lemma SeenByContours(s: State, t: State, contour: Contour)
    requires t.contours == s.contours
    ensures SeesSharing(t, contour) <==> SeesSharing(s, contour)
    ensures SeesOthers(t, contour.name) <==> SeesOthers(s, contour.name)
  {
  }

  /** Looks up what may be deleted: the namespaced objects unless another Contour is seen with
      the spec namespace, the cluster ones unless any other Contour is seen. */
  method CollectDeletable(cli: Cluster, contour: Contour)
    returns (entries: seq<Entry>, err: Option<Error>, ghost lo: nat, ghost hi: nat, ghost othersAt: nat)
    requires cli.Valid() && StillHeld(cli.state, contour)
    modifies cli`state, cli`clock, cli`log
    ensures cli.Advanced() && cli.state.objects == old(cli.state.objects)
    ensures |old(cli.log)| - 1 <= othersAt < |cli.log| && StillHeld(cli.log[othersAt].state, contour)
    ensures err.None? ==> Collected(cli.cfg, cli.state, contour, entries, lo, hi)
    ensures err.None? ==> lo == if SeesSharing(old(cli.state), contour) then NAMESPACED else 0
    ensures err.None? ==> hi == if SeesOthers(cli.log[othersAt].state, contour.name) then NAMESPACED else 9
    ensures Faultless(cli.script, old(cli.clock), cli.clock) ==> err.None?
    ensures old(cli.Calm()) ==> err.None? && cli.state == old(cli.state) && cli.log[othersAt].state == old(cli.state)
  {
    hide cli.Calm, Attributed, Inv, Evolves, KeyAt, Step, LegalAt, Collected, Shares, OthersExist, Misfires,
      StillHeld;
    ghost var s := cli.state;
    othersAt := |cli.log| - 1;
    var exist, others := false, [];
    entries, lo, hi := [], NAMESPACED, NAMESPACED;
    exist, err := OtherContoursExistInSpecNs(cli, contour);
    if err.Some? {
      return;
    }
    ghost var a := cli.state;
    if !exist {
      lo := 0;
      entries, err := CollectNamespaced(cli, contour);
      EvolvesTransitive(s, a, cli.state);
      if err.Some? {
        return;
      }
    } else {
      NothingCollected(cli.cfg, cli.state, contour, NAMESPACED);
    }
    ghost var second := cli.state;
    othersAt := |cli.log| - 1;
    StillHeldStays(s, second, contour);
    exist, others, err := OtherContoursExist(cli, contour);
    ghost var third := cli.state;
    EvolvesTransitive(s, second, third);
    if err.Some? {
      return;
    }
    CollectedStays(cli.cfg, second, cli.state, contour, entries, lo, NAMESPACED);
    MisfireMeansOthers(second, contour.name);
    if !exist {
      hi := 9;
      entries, err := CollectCluster(cli, contour, entries, lo);
      EvolvesTransitive(s, third, cli.state);
    }
  }

  /** Deletes RBAC objects that name the Contour: the namespaced ones unless another Contour
      was seen with the spec namespace, the cluster ones unless any other was seen; those are
      kept as they are. */
  method EnsureRBACDeleted(cli: Cluster, contour: Contour) returns (err: Option<Error>, ghost othersAt: nat)
    requires cli.Valid() && cli.WorksOn(contour) && StillHeld(cli.state, contour)
    modifies cli`state, cli`clock, cli`log, cli`writes
    ensures cli.Advanced() && Pruned(old(cli.state), cli.state, contour.name)
    ensures |old(cli.log)| - 1 <= othersAt < |cli.log|
    ensures var doomed := DoomedRbac(old(cli.state), cli.log[othersAt].state, contour);
      && Confined(cli.cfg, contour.spec.ns, old(cli.state), cli.state, doomed)
      && (err.None? ==> AllGone(cli.cfg, cli.state, contour, doomed))
    ensures Faultless(cli.script, old(cli.clock), cli.clock) ==> err.None?
    ensures old(cli.Calm()) ==> err.None? && OnlyObjects(old(cli.state), cli.state)
    ensures old(cli.Calm()) ==> cli.log[othersAt].state == old(cli.state)
  {
    hide cli.Calm, Attributed, Inv, Evolves, KeyAt, Step, LegalAt, Pruned, Collected, NotOurs, Confined, SeesSharing,
      SeesOthers, CheckedAlone, CheckedOnly, StillHeld;
    ghost var s, sharedAt := cli.state, |cli.log| - 1;
    var entries;
    ghost var lo, hi;
    entries, err, lo, hi, othersAt := CollectDeletable(cli, contour);
    ghost var before := cli.state;
    PrunedSelf(s, before, contour.name);
    ConfinedSelf(cli.cfg, contour.spec.ns, s, before, DoomedRbac(s, cli.log[othersAt].state, contour));
    if err.Some? {
      return;
    }
    UnseenIsChecked(s, contour);
    UnseenIsChecked(cli.log[othersAt].state, contour);
    assert Range(lo, hi) == DoomedRbac(s, cli.log[othersAt].state, contour);
    ghost var log1 := cli.log;
    err := DeleteEntries(cli, contour, entries, lo, hi, sharedAt, othersAt);
    assert cli.log[othersAt] == log1[othersAt];
    EvolvesTransitive(s, before, cli.state);
    PrunedTransitive(s, before, cli.state, contour.name);
    ConfinedSelf(cli.cfg, contour.spec.ns, s, before, Range(lo, hi));
    ConfinedJoin(cli.cfg, contour.spec.ns, s, before, cli.state, Range(lo, hi), Range(lo, hi));
    assert Range(lo, hi) + Range(lo, hi) == Range(lo, hi);
  }

  method CollectCluster(cli: Cluster, contour: Contour, found: seq<Entry>, ghost lo: nat)
    returns (entries: seq<Entry>, err: Option<Error>)
    requires cli.Valid() && Collected(cli.cfg, cli.state, contour, found, lo, NAMESPACED)
    modifies cli`state, cli`clock, cli`log
    ensures cli.Advanced() && cli.state.objects == old(cli.state.objects)
    ensures Faultless(cli.script, old(cli.clock), cli.clock) ==> err.None?
    ensures old(cli.Calm()) ==> err.None? && cli.state == old(cli.state) && cli.log == old(cli.log)
    ensures err.None? ==> Collected(cli.cfg, cli.state, contour, entries, lo, 9)
  {
    hide cli.Calm, Attributed, Legal, Inv, Evolves, KeyAt, Collected;
    ghost var s := cli.state;
    entries, err := Collect(cli, contour, 5, found, lo);
    if err.Some? {
      return;
    }
    ghost var a := cli.state;
    entries, err := Collect(cli, contour, 4, entries, lo);
    EvolvesTransitive(s, a, cli.state);
  }

  lemma PrunedSelf(s: State, t: State, n: Name)
    requires t.objects == s.objects
    ensures Pruned(s, t, n)
  {
  }

  lemma NothingCollected(cfg: Config, s: State, contour: Contour, lo: nat)
    requires lo <= 9
    ensures Collected(cfg, s, contour, [], lo, lo)
  {
  }

  lemma MisfireMeansOthers(s: State, n: Name)
    ensures Misfires(s, n) ==> OthersExist(s, n)
  {
    if Misfires(s, n) {
      var m :| s.contours.Keys == {m} && m.name == n.name;
      assert m in s.contours;
    }
  }

  method CollectNamespaced(cli: Cluster, contour: Contour) returns (entries: seq<Entry>, err: Option<Error>)
    requires cli.Valid()
    modifies cli`state, cli`clock, cli`log
    ensures cli.Advanced() && cli.state.objects == old(cli.state.objects)
    ensures Faultless(cli.script, old(cli.clock), cli.clock) ==> err.None?
    ensures old(cli.Calm()) ==> err.None? && cli.state == old(cli.state) && cli.log == old(cli.log)
    ensures err.None? ==> Collected(cli.cfg, cli.state, contour, entries, 0, NAMESPACED)
  {
    hide cli.Calm, Attributed, Legal, Inv, Evolves, KeyAt, Collected;
    ghost var s := cli.state;
    NothingCollected(cli.cfg, s, contour, 0);
    entries, err := Collect(cli, contour, 9, [], 0);
    if err.Some? { return; }
    ghost var a := cli.state;
    entries, err := Collect(cli, contour, 8, entries, 0);
    EvolvesTransitive(s, a, cli.state);
    if err.Some? { return; }
    a := cli.state;
    entries, err := Collect(cli, contour, 7, entries, 0);
    EvolvesTransitive(s, a, cli.state);
    if err.Some? { return; }
    a := cli.state;
    entries, err := Collect(cli, contour, 6, entries, 0);
    EvolvesTransitive(s, a, cli.state);
    if err.Some? { return; }
    for i := 1 to 4
      invariant cli.Advanced() && cli.state.objects == s.objects && err.None?
      invariant old(cli.Calm()) ==> cli.state == s && cli.log == old(cli.log)
      invariant Collected(cli.cfg, cli.state, contour, entries, 0, 3 + i)
    {
      a := cli.state;
      entries, err := Collect(cli, contour, i, entries, 0);
      EvolvesTransitive(s, a, cli.state);
      if err.Some? { return; }
    }
  }

  // ---- The namespace -------------------------------------------------------------------------------

  ghost predicate RemovalExpected(contour: Contour) {
    contour.spec.removeOnDeletion && contour.spec.ns !in PROTECTED
  }

  /** Whether the namespace is to go, given the state in which the pass asked who shares it. */
  ghost function DoomedNamespace(asked: State, contour: Contour): set<nat> {
    if RemovalExpected(contour) && !SeesSharing(asked, contour) then {0} else {}
  }

  method EnsureNamespaceDeleted(cli: Cluster, contour: Contour)
    returns (expected: bool, err: Option<Error>, ghost askedAt: nat)
    requires cli.Valid() && cli.WorksOn(contour) && StillHeld(cli.state, contour)
    modifies cli`state, cli`clock, cli`log, cli`writes
    ensures cli.Advanced() && Pruned(old(cli.state), cli.state, contour.name)
    ensures expected <==> RemovalExpected(contour)
    ensures expected <==>
      && contour.spec.removeOnDeletion
      && contour.spec.ns != "contour-operator" && contour.spec.ns != "default" && contour.spec.ns != "kube-system"
    ensures !expected ==> err.None? && cli.state == old(cli.state) && cli.clock == old(cli.clock)
    ensures |old(cli.log)| - 1 <= askedAt < |cli.log|
    ensures var doomed := DoomedNamespace(cli.log[askedAt].state, contour);
      && Confined(cli.cfg, contour.spec.ns, old(cli.state), cli.state, doomed)
      && (err.None? ==> AllGone(cli.cfg, cli.state, contour, doomed))
    ensures Faultless(cli.script, old(cli.clock), cli.clock) ==> err.None?
    ensures old(cli.Calm()) ==> err.None? && OnlyObjects(old(cli.state), cli.state)
    ensures old(cli.Calm()) ==> cli.log[askedAt].state == old(cli.state)
  {
    hide cli.Calm, Attributed, Inv, KeyAt, Step, LegalAt, OwnerOf, Evolves, Shares, Misfires, Confined, CheckedAlone,
      StillHeld;
    ghost var s := cli.state;
    askedAt := |cli.log| - 1;
    SameContoursEvolve(s, s);
    ConfinedSelf(cli.cfg, contour.spec.ns, s, s, {});
    if !contour.spec.removeOnDeletion || contour.spec.ns in PROTECTED {
      return false, None, askedAt;
    }
    var key := KeyAt(cli.cfg, contour.spec.ns, 0);
    var reply := cli.GetObject(key);
    ghost var checked := cli.state;
    ConfinedSelf(cli.cfg, contour.spec.ns, s, checked, {});
    ConfinedSelf(cli.cfg, contour.spec.ns, s, checked, {0});
    if reply.NotFound? {
      return true, None, askedAt;
    }
    if reply.Failed? {
      return true, Some(Failure("failed to get namespace")), askedAt;
    }
    if Guarded(contour.name, reply.value) {
      askedAt := |cli.log| - 1;
      StillHeldStays(s, checked, contour);
      UnseenIsChecked(checked, contour);
      var exist, listErr := OtherContoursExistInSpecNs(cli, contour);
      ghost var mid := cli.state;
      EvolvesTransitive(s, checked, mid);
      ConfinedSelf(cli.cfg, contour.spec.ns, s, mid, {});
      ConfinedSelf(cli.cfg, contour.spec.ns, s, mid, {0});
      if listErr.Some? {
        return true, listErr, askedAt;
      }
      if !exist {
        var ack := cli.DeleteObject(contour, 0, key, askedAt);
        EvolvesTransitive(s, mid, cli.state);
        OneConfined(cli.cfg, contour.spec.ns, s, mid, cli.state, {0}, 0);
        return true, if ack == Refused then Some(Failure("failed to delete namespace")) else None, askedAt;
      }
    }
    return true, None, askedAt;
  }
}
