/** Ensuring one child: the three shapes get/create/update, get/create/delete-on-selector
    mismatch, and delete-and-recreate (internal/objects). */
module Ensure {
  import opened Wrappers
  import opened Api
  import opened Builders
  import opened Equality
  import opened Children
  import opened Ranks
  import opened Protocol
  import opened Cluster
  import opened Retryable

  /** What running one step of a reconcile amounts to; Panicked ends the operator process. */
  datatype Outcome = Ran(err: Option<Error>) | Panicked

  /** What an attempt at child i needs: for a workload, tenancy of a complete namespace; for a
      binding, its role and its service account. */
  ghost predicate Prepared(cfg: Config, s: State, contour: Contour, i: nat) {
    && i < CHILDREN
    && (i >= FIRST_WORKLOAD ==> Tenant(s, contour) && Ready(cfg, s.objects, contour.spec.ns))
    && (IsBinding(i) ==>
          KeyAt(cfg, contour.spec.ns, i - 1) in s.objects && KeyAt(cfg, contour.spec.ns, AccountOf(i)) in s.objects)
  }

  function Here(cfg: Config, s: State, contour: Contour, i: nat): Option<Object>
    requires i < CHILDREN
  {
    At(s.objects, KeyAt(cfg, contour.spec.ns, i))
  }

  lemma HereFits(cfg: Config, s: State, contour: Contour, i: nat)
    requires i < CHILDREN && WellKinded(s)
    ensures Fits(cfg, contour, i, Here(cfg, s, contour, i))
  {
    hide KeyAt, Desired;
    DesiredFits(cfg, contour, i);
  }

  /** What an attempt at child i may have done to the store, faults or not: nothing but that
      child changed, and it is one of the values an attempt can leave. */
  ghost predicate Attempt(cfg: Config, s: State, t: State, contour: Contour, i: nat)
  {
    && i < CHILDREN && WellKinded(s)
    && OnlyAtKey(s.objects, t.objects, KeyAt(cfg, contour.spec.ns, i))
    && (HereFits(cfg, s, contour, i); Possible(cfg, contour, i, Here(cfg, s, contour, i), Here(cfg, t, contour, i)))
  }

  /** The child is where an undisturbed attempt leaves it. */
  ghost predicate Reached(cfg: Config, s: State, t: State, contour: Contour, i: nat)
  {
    && i < CHILDREN && WellKinded(s)
    && (HereFits(cfg, s, contour, i); Here(cfg, t, contour, i) == Next(cfg, contour, i, Here(cfg, s, contour, i)))
  }

  ghost predicate Settled(cfg: Config, s: State, contour: Contour, i: nat)
  {
    && i < CHILDREN && WellKinded(s)
    && (HereFits(cfg, s, contour, i); Rank(cfg, contour, i, Here(cfg, s, contour, i)) == 0)
  }

  /** Whatever a completed attempt writes is allowed. */
  lemma WriteAllowed(cfg: Config, s: State, contour: Contour, i: nat)
    requires Prepared(cfg, s, contour, i) && WellKinded(s)
    requires var here := Here(cfg, s, contour, i);
      here.None? || (Owns(contour.name, here.value)
                     && here.value.Kind() == Desired(cfg, contour, i).Kind()
                     && !SelectorDiffers(here.value, Desired(cfg, contour, i))
                     && Drift(here.value, Desired(cfg, contour, i), Publishing(contour, i)).Drifted?)
    ensures Fits(cfg, contour, i, Here(cfg, s, contour, i))
    ensures Next(cfg, contour, i, Here(cfg, s, contour, i)).Some?
    ensures MayWrite(cfg, s, contour, i, Next(cfg, contour, i, Here(cfg, s, contour, i)).value)
    ensures Here(cfg, s, contour, i).Some? && i != JOB ==>
      Updatable(Here(cfg, s, contour, i).value, Next(cfg, contour, i, Here(cfg, s, contour, i)).value)
  {
    hide Tenant, Ready, Desired, KeyAt, Drift, Repair, Updatable;
    var here := Here(cfg, s, contour, i);
    HereFits(cfg, s, contour, i);
    DesiredFits(cfg, contour, i);
    AdmittedKeeps(None, Desired(cfg, contour, i));
    if here.Some? {
      RepairIsSettled(cfg, contour, i, here.value);
      if i != JOB {
        UpdateIsPossible(cfg, contour, i, here.value);
      }
      AdmittedKeeps(if i == JOB then None else here,
                    Repair(cfg, contour, i, Drift(here.value, Desired(cfg, contour, i), Publishing(contour, i)).updated));
    }
    if IsBinding(i) {
      BindingRefers(cfg, s, contour, i);
    }
  }

  lemma UpdateIsPossible(cfg: Config, contour: Contour, i: nat, current: Object)
    requires i < CHILDREN && i != JOB && current.Kind() == Desired(cfg, contour, i).Kind()
    requires Owns(contour.name, current) && !SelectorDiffers(current, Desired(cfg, contour, i))
    requires Drift(current, Desired(cfg, contour, i), Publishing(contour, i)).Drifted?
    ensures Next(cfg, contour, i, Some(current)).Some? && Updatable(current, Next(cfg, contour, i, Some(current)).value)
  {
    hide Next, OwnerOf, EnvoyPorts, Drift;
    UpdateLeaves(cfg, contour, i, current);
    DesiredFits(cfg, contour, i);
  }

  lemma BindingRefers(cfg: Config, s: State, contour: Contour, i: nat)
    requires IsBinding(i) && Prepared(cfg, s, contour, i) && WellKinded(s)
    requires Fits(cfg, contour, i, Here(cfg, s, contour, i))
    requires var here := Here(cfg, s, contour, i);
      here.None? || (Owns(contour.name, here.value)
                     && Drift(here.value, Desired(cfg, contour, i), Publishing(contour, i)).Drifted?)
    ensures Next(cfg, contour, i, Here(cfg, s, contour, i)).Some?
    ensures RefersToItsRole(cfg, s.objects, contour.spec.ns, i, Next(cfg, contour, i, Here(cfg, s, contour, i)).value)
    ensures BindsItsAccount(cfg, s.objects, contour.spec.ns, i, Next(cfg, contour, i, Here(cfg, s, contour, i)).value)
  {
    hide Tenant, Ready;
    var ns := contour.spec.ns;
    assert RoleRefOf(BodyAt(cfg, contour, i)) == Some(KeyAt(cfg, ns, i - 1).name);
    assert SubjectsOf(BodyAt(cfg, contour, i)) == [Subject(KeyAt(cfg, ns, AccountOf(i)).name, ns)];
  }

  // ---- Get, create, update if owned -------------------------------------------------------------

  /** The first shape, for a child whose comparison cannot crash. */
  method EnsureObject(cli: Cluster, contour: Contour, i: nat, desired: Object) returns (err: Option<Error>)
    requires cli.Valid() && cli.WorksOn(contour) && Prepared(cli.cfg, cli.state, contour, i)
    requires desired == Desired(cli.cfg, contour, i) && i !in {JOB, DEPLOYMENT, DAEMONSET, ENVOY_SERVICE}
    modifies cli`state, cli`clock, cli`log, cli`writes
    ensures old(cli.clock) < cli.clock
    ensures cli.Advanced() && Attempt(cli.cfg, old(cli.state), cli.state, contour, i)
    ensures err.None? ==> Reached(cli.cfg, old(cli.state), cli.state, contour, i)
    ensures Faultless(cli.script, old(cli.clock), cli.clock) ==> err.None?
    ensures old(cli.Calm()) ==> err.None? && OnlyObjects(old(cli.state), cli.state)
    ensures Settled(cli.cfg, old(cli.state), contour, i) ==> cli.writes == old(cli.writes)
  {
    hide cli.Calm, Attributed, Legal, NoOrphans, OneOwner, Versioned, Tenant, Ready, Evolves, Desired, KeyAt,
      MayWrite, Admitted, Publishing, Drift, OwnerOf, Repair;
    ghost var s := cli.state;
    HereFits(cli.cfg, s, contour, i);
    DesiredFits(cli.cfg, contour, i);
    var key := KeyAt(cli.cfg, contour.spec.ns, i);
    var reply := cli.GetObject(key);
    ghost var mid := cli.state;
    PreparedStays(cli.cfg, s, mid, contour, i);
    if reply.Failed? {
      return Some(Failure("failed to get object"));
    }
    if reply.NotFound? {
      WriteAllowed(cli.cfg, cli.state, contour, i);
      var ack := cli.CreateObject(contour, i, key, desired);
      EvolvesTransitive(s, mid, cli.state);
      return if ack == Done then None else Some(Failure("failed to create object"));
    }
    var current := reply.value;
    if Guarded(contour.name, current) {
      NoSelector(cli.cfg, contour, i);
      PlainNeverPanics(cli.cfg, contour, i, current);
      var verdict := Drift(current, desired, Publishing(contour, i));
      if verdict.Drifted? {
        WriteAllowed(cli.cfg, cli.state, contour, i);
        var ack := cli.UpdateObject(contour, i, key, Repair(cli.cfg, contour, i, verdict.updated));
        EvolvesTransitive(s, mid, cli.state);
        return if ack == Done then None else Some(Failure("failed to update object"));
      }
    }
    return None;
  }

  lemma HasSelector(cfg: Config, contour: Contour, i: nat, current: Object)
    requires i == DEPLOYMENT || i == DAEMONSET
    requires current.Kind() == Desired(cfg, contour, i).Kind()
    ensures current.Selector().Some? && Desired(cfg, contour, i).Selector().Some?
  {
  }

  lemma NoSelector(cfg: Config, contour: Contour, i: nat)
    requires i < CHILDREN && i !in {DEPLOYMENT, DAEMONSET}
    ensures !Desired(cfg, contour, i).body.Deployment? && !Desired(cfg, contour, i).body.DaemonSet?
  {
  }

  lemma PlainNeverPanics(cfg: Config, contour: Contour, i: nat, current: Object)
    requires i < CHILDREN && i != ENVOY_SERVICE && current.Kind() == Desired(cfg, contour, i).Kind()
    ensures !Drift(current, Desired(cfg, contour, i), Publishing(contour, i)).Panics?
  {
    hide Desired;
    DriftPanicsIff(current, Desired(cfg, contour, i), Publishing(contour, i));
  }

  lemma PreparedStays(cfg: Config, s: State, t: State, contour: Contour, i: nat)
    requires Prepared(cfg, s, contour, i) && Evolves(s, t) && t.objects == s.objects
    ensures Prepared(cfg, t, contour, i)
  {
    if i >= FIRST_WORKLOAD {
      TenantStays(s, t, contour);
    }
  }

  // ---- What an attempt preserves -------------------------------------------------------------------

  /** An attempt at child i keeps tenancy and every namespace and RBAC object there is. */
  lemma AttemptKeeps(cfg: Config, s: State, t: State, contour: Contour, i: nat)
    requires Attempt(cfg, s, t, contour, i) && Evolves(s, t)
    ensures Tenant(s, contour) ==> Tenant(t, contour)
    ensures forall j :: 0 <= j < FIRST_WORKLOAD && KeyAt(cfg, contour.spec.ns, j) in s.objects ==>
      KeyAt(cfg, contour.spec.ns, j) in t.objects
    ensures WellKinded(t)
  {
    hide KeyAt, Next, Desired, Drift, Evolves, Tenant;
    HereFits(cfg, s, contour, i);
    NextIsOwned(cfg, contour, i, Here(cfg, s, contour, i));
    DesiredFits(cfg, contour, i);
    var key := KeyAt(cfg, contour.spec.ns, i);
    forall k | k in t.objects
      ensures (k in s.objects && t.objects[k] == s.objects[k]) || Owns(contour.name, t.objects[k])
      ensures t.objects[k].Kind() == k.kind
    {
      if k != key {
        assert At(s.objects, k) == At(t.objects, k);
      }
    }
    if Tenant(s, contour) {
      TenantStays(s, t, contour);
    }
    forall j | 0 <= j < FIRST_WORKLOAD && KeyAt(cfg, contour.spec.ns, j) in s.objects
      ensures KeyAt(cfg, contour.spec.ns, j) in t.objects
    {
      if j != i {
        KeysDistinct(cfg, contour.spec.ns, i, j);
        assert At(s.objects, KeyAt(cfg, contour.spec.ns, j)) == At(t.objects, KeyAt(cfg, contour.spec.ns, j));
      }
    }
  }

  /** In particular it leaves the next workload as well prepared as before. */
  lemma StillPrepared(cfg: Config, s: State, t: State, contour: Contour, i: nat, j: nat)
    requires Attempt(cfg, s, t, contour, i) && Evolves(s, t)
    requires FIRST_WORKLOAD <= j < CHILDREN && Prepared(cfg, s, contour, j)
    ensures Prepared(cfg, t, contour, j) && WellKinded(t)
  {
    hide KeyAt, Next, Desired, Drift, Evolves, Tenant, Attempt;
    AttemptKeeps(cfg, s, t, contour, i);
  }

  // ---- Deleting one workload ---------------------------------------------------------------------

  /** A deletion attempt at child i: nothing else changes, and only an owned object goes. */
  ghost predicate Removal(cfg: Config, s: State, t: State, contour: Contour, i: nat) {
    && i < CHILDREN && OnlyAtKey(s.objects, t.objects, KeyAt(cfg, contour.spec.ns, i))
    && var here := Here(cfg, s, contour, i);
       Here(cfg, t, contour, i) == here || (Here(cfg, t, contour, i).None? && Owns(contour.name, here.value))
  }

  ghost predicate NotOurs(cfg: Config, s: State, contour: Contour, i: nat)
    requires i < CHILDREN
  {
    Here(cfg, s, contour, i).Some? ==> !Owns(contour.name, Here(cfg, s, contour, i).value)
  }

  method EnsureObjectDeleted(cli: Cluster, contour: Contour, i: nat) returns (err: Option<Error>)
    requires cli.Valid() && cli.WorksOn(contour) && FIRST_WORKLOAD <= i < CHILDREN
    modifies cli`state, cli`clock, cli`log, cli`writes
    ensures cli.Advanced() && Removal(cli.cfg, old(cli.state), cli.state, contour, i)
    ensures err.None? ==> NotOurs(cli.cfg, cli.state, contour, i)
    ensures NotOurs(cli.cfg, old(cli.state), contour, i) ==> cli.writes == old(cli.writes)
    ensures Faultless(cli.script, old(cli.clock), cli.clock) ==> err.None?
    ensures old(cli.Calm()) ==> err.None? && OnlyObjects(old(cli.state), cli.state)
  {
    hide cli.Calm, Attributed, Legal, Inv, Evolves, KeyAt, OwnerOf;
    ghost var s := cli.state;
    var key := KeyAt(cli.cfg, contour.spec.ns, i);
    var reply := cli.GetObject(key);
    if reply.NotFound? {
      return None;
    }
    if reply.Failed? {
      return Some(Failure("failed to get object"));
    }
    ghost var mid := cli.state;
    if Guarded(contour.name, reply.value) {
      var ack := cli.DeleteObject(contour, i, key, 0);
      EvolvesTransitive(s, mid, cli.state);
      return if ack == Done || ack == Missing then None else Some(Failure("failed to delete object"));
    }
    return None;
  }

  // ---- Selector mismatch means delete now, create next time --------------------------------------

  method EnsureDeployment(cli: Cluster, contour: Contour) returns (outcome: Outcome)
    requires cli.Valid() && cli.WorksOn(contour) && Prepared(cli.cfg, cli.state, contour, DEPLOYMENT)
    modifies cli`state, cli`clock, cli`log, cli`writes
    ensures old(cli.clock) < cli.clock
    ensures cli.Advanced() && Attempt(cli.cfg, old(cli.state), cli.state, contour, DEPLOYMENT)
    ensures outcome == Ran(None) ==> Reached(cli.cfg, old(cli.state), cli.state, contour, DEPLOYMENT)
    ensures Faultless(cli.script, old(cli.clock), cli.clock) ==> outcome == Ran(None)
    ensures old(cli.Calm()) ==> outcome == Ran(None) && OnlyObjects(old(cli.state), cli.state)
    ensures Settled(cli.cfg, old(cli.state), contour, DEPLOYMENT) ==> cli.writes == old(cli.writes)
    ensures outcome.Panicked? <==> old(cli.Now()).fault != NoFault
  {
    hide cli.Calm, Attributed, Legal, NoOrphans, OneOwner, Versioned, Tenant, Ready, Evolves, Desired, KeyAt,
      Prepared, Attempt, Reached, Settled;
    ghost var s := cli.state;
    var key := KeyAt(cli.cfg, contour.spec.ns, DEPLOYMENT);
    var reply := cli.GetObject(key);
    if reply.Failed? {
      // Nobody looks at this error, and the comparison then reads a nil Deployment.
      NothingDone(cli.cfg, s, cli.state, contour, DEPLOYMENT);
      return Panicked;
    }
    var err := EnsureSelected(cli, contour, DEPLOYMENT, s, reply);
    return Ran(err);
  }

  method EnsureDaemonSet(cli: Cluster, contour: Contour) returns (err: Option<Error>)
    requires cli.Valid() && cli.WorksOn(contour) && Prepared(cli.cfg, cli.state, contour, DAEMONSET)
    modifies cli`state, cli`clock, cli`log, cli`writes
    ensures old(cli.clock) < cli.clock
    ensures cli.Advanced() && Attempt(cli.cfg, old(cli.state), cli.state, contour, DAEMONSET)
    ensures err.None? ==> Reached(cli.cfg, old(cli.state), cli.state, contour, DAEMONSET)
    ensures Faultless(cli.script, old(cli.clock), cli.clock) ==> err.None?
    ensures old(cli.Calm()) ==> err.None? && OnlyObjects(old(cli.state), cli.state)
    ensures Settled(cli.cfg, old(cli.state), contour, DAEMONSET) ==> cli.writes == old(cli.writes)
  {
    hide cli.Calm, Attributed, Legal, NoOrphans, OneOwner, Versioned, Tenant, Ready, Evolves, Desired, KeyAt,
      Prepared, Attempt, Reached, Settled;
    ghost var s := cli.state;
    var key := KeyAt(cli.cfg, contour.spec.ns, DAEMONSET);
    var reply := cli.GetObject(key);
    if reply.Failed? {
      NothingDone(cli.cfg, s, cli.state, contour, DAEMONSET);
      return Some(Failure("failed to get daemonset"));
    }
    err := EnsureSelected(cli, contour, DAEMONSET, s, reply);
  }

  lemma NothingDone(cfg: Config, s: State, t: State, contour: Contour, i: nat)
    requires i < CHILDREN && WellKinded(s) && t.objects == s.objects
    ensures Attempt(cfg, s, t, contour, i)
  {
    hide KeyAt, Next, Desired, Drift;
    HereFits(cfg, s, contour, i);
  }

  /** The part both share, after the read; s is the state before it. */
  method EnsureSelected(cli: Cluster, contour: Contour, i: nat, ghost s: State, reply: Reply<Object>)
    returns (err: Option<Error>)
    requires i == DEPLOYMENT || i == DAEMONSET
    requires cli.Valid() && cli.WorksOn(contour) && Prepared(cli.cfg, s, contour, i) && WellKinded(s)
    requires Evolves(s, cli.state) && cli.state.objects == s.objects && !reply.Failed?
    requires At(s.objects, KeyAt(cli.cfg, contour.spec.ns, i)) == if reply.Found? then Some(reply.value) else None
    modifies cli`state, cli`clock, cli`log, cli`writes
    ensures cli.Advanced() && Evolves(s, cli.state) && Attempt(cli.cfg, s, cli.state, contour, i)
    ensures err.None? ==> Reached(cli.cfg, s, cli.state, contour, i)
    ensures Faultless(cli.script, old(cli.clock), cli.clock) ==> err.None?
    ensures old(cli.Calm()) ==> err.None? && OnlyObjects(old(cli.state), cli.state)
    ensures Settled(cli.cfg, s, contour, i) ==> cli.writes == old(cli.writes)
  {
    hide cli.Calm, Attributed, Legal, NoOrphans, OneOwner, Versioned, Tenant, Ready, Evolves, Desired, KeyAt,
      MayWrite, Admitted, Publishing, Drift, OwnerOf;
    ghost var mid := cli.state;
    var desired := Desired(cli.cfg, contour, i);
    var key := KeyAt(cli.cfg, contour.spec.ns, i);
    HereFits(cli.cfg, s, contour, i);
    DesiredFits(cli.cfg, contour, i);
    PreparedStays(cli.cfg, s, mid, contour, i);
    SameContoursEvolve(mid, mid);
    if reply.NotFound? {
      WriteAllowed(cli.cfg, mid, contour, i);
      var ack := cli.CreateObject(contour, i, key, desired);
      EvolvesTransitive(s, mid, cli.state);
      return if ack == Done then None else Some(Failure("failed to create"));
    }
    var current := reply.value;
    HasSelector(cli.cfg, contour, i, current);
    if SelectorsDiffer(current, desired) {
      err := EnsureObjectDeleted(cli, contour, i);
      EvolvesTransitive(s, mid, cli.state);
      return;
    }
    if Guarded(contour.name, current) {
      PlainNeverPanics(cli.cfg, contour, i, current);
      var verdict := Drift(current, desired, Publishing(contour, i));
      if verdict.Drifted? {
        WriteAllowed(cli.cfg, mid, contour, i);
        var ack := cli.UpdateObject(contour, i, key, verdict.updated);
        EvolvesTransitive(s, mid, cli.state);
        return if ack == Done then None else Some(Failure("failed to update"));
      }
    }
    return None;
  }

  // ---- Delete and recreate ---------------------------------------------------------------------------

  /** One immediate try, then one a second for three seconds. */
  const JOB_CREATE_TRIES := 4

  method EnsureJob(cli: Cluster, contour: Contour) returns (err: Option<Error>)
    requires cli.Valid() && cli.WorksOn(contour) && Prepared(cli.cfg, cli.state, contour, JOB)
    modifies cli`state, cli`clock, cli`log, cli`writes
    ensures old(cli.clock) < cli.clock
    ensures cli.Advanced() && Attempt(cli.cfg, old(cli.state), cli.state, contour, JOB)
    ensures err.None? ==> Reached(cli.cfg, old(cli.state), cli.state, contour, JOB)
    ensures Faultless(cli.script, old(cli.clock), cli.clock) ==> err.None?
    ensures old(cli.Calm()) ==> err.None? && OnlyObjects(old(cli.state), cli.state)
    ensures Settled(cli.cfg, old(cli.state), contour, JOB) ==> cli.writes == old(cli.writes)
  {
    hide cli.Calm, Attributed, Legal, NoOrphans, OneOwner, Versioned, Tenant, Ready, Evolves, Desired, KeyAt,
      MayWrite, MayDelete, Admitted, Publishing;
    ghost var s := cli.state;
    var desired := Desired(cli.cfg, contour, JOB);
    var key := KeyAt(cli.cfg, contour.spec.ns, JOB);
    HereFits(cli.cfg, s, contour, JOB);
    DesiredFits(cli.cfg, contour, JOB);
    NoSelector(cli.cfg, contour, JOB);
    var reply := cli.GetObject(key);
    ghost var mid := cli.state;
    PreparedStays(cli.cfg, s, mid, contour, JOB);
    if reply.Failed? {
      return Some(Failure("failed to get job"));
    }
    if reply.NotFound? {
      WriteAllowed(cli.cfg, mid, contour, JOB);
      var ack := cli.CreateObject(contour, JOB, key, desired);
      EvolvesTransitive(s, mid, cli.state);
      return if ack == Done then None else Some(Failure("failed to create job"));
    }
    if Guarded(contour.name, reply.value) {
      err := RecreateJobIfNeeded(cli, contour, key, reply.value, desired);
      EvolvesTransitive(s, mid, cli.state);
      return;
    }
    return None;
  }

  /** Deletes a drifted Job of ours and creates it anew. */
  method RecreateJobIfNeeded(cli: Cluster, contour: Contour, key: Key, current: Object, desired: Object)
    returns (err: Option<Error>)
    requires cli.Valid() && cli.WorksOn(contour) && Prepared(cli.cfg, cli.state, contour, JOB)
    requires key == KeyAt(cli.cfg, contour.spec.ns, JOB) && desired == Desired(cli.cfg, contour, JOB)
    requires At(cli.state.objects, key) == Some(current) && Owns(contour.name, current)
    modifies cli`state, cli`clock, cli`log, cli`writes
    ensures cli.Advanced() && Attempt(cli.cfg, old(cli.state), cli.state, contour, JOB)
    ensures err.None? ==> Reached(cli.cfg, old(cli.state), cli.state, contour, JOB)
    ensures Faultless(cli.script, old(cli.clock), cli.clock) ==> err.None?
    ensures old(cli.Calm()) ==> err.None? && OnlyObjects(old(cli.state), cli.state)
    ensures Settled(cli.cfg, old(cli.state), contour, JOB) ==> cli.writes == old(cli.writes)
  {
    hide cli.Calm, Attributed, Legal, NoOrphans, OneOwner, Versioned, Tenant, Ready, Evolves, Desired, KeyAt,
      MayWrite, MayDelete, Admitted, Publishing;
    ghost var s := cli.state;
    HereFits(cli.cfg, s, contour, JOB);
    DesiredFits(cli.cfg, contour, JOB);
    NoSelector(cli.cfg, contour, JOB);
    PlainNeverPanics(cli.cfg, contour, JOB, current);
    JobRepair(cli.cfg, contour, current);
    SameContoursEvolve(s, s);
    var verdict := Drift(current, desired, Publishing(contour, JOB));
    if verdict.Same? {
      return None;
    }
    WorkloadDeletable(cli.cfg, s, contour, JOB);
    var ack := cli.DeleteObject(contour, JOB, key, 0);
    ghost var gone := cli.state;
    if ack == Refused {
      return Some(Failure("failed to delete job"));
    }
    StillPrepared(cli.cfg, s, gone, contour, JOB, JOB);
    err := RetryJobCreate(cli, contour, key, desired);
    EvolvesTransitive(s, gone, cli.state);
  }

  lemma WorkloadDeletable(cfg: Config, s: State, contour: Contour, i: nat)
    requires FIRST_WORKLOAD <= i < CHILDREN
    requires Here(cfg, s, contour, i).Some? && Owns(contour.name, Here(cfg, s, contour, i).value)
    ensures MayDelete(cfg, s, contour, i)
  {
  }

  lemma JobRepair(cfg: Config, contour: Contour, current: Object)
    requires current.Kind() == Desired(cfg, contour, JOB).Kind()
    ensures var verdict := Drift(current, Desired(cfg, contour, JOB), Publishing(contour, JOB));
      verdict.Drifted? ==> verdict.updated == Desired(cfg, contour, JOB)
  {
  }

  /** So many tries from this turn on are in vain: each is rejected, or its answer lost, and
      then the Job is there and no further try can succeed. */
  ghost predicate InVain(script: seq<Turn>, turn: nat, tries: nat)
    decreases tries
  {
    tries == 0 || (FailsAt(script, turn) && (script[turn].fault == Lose || InVain(script, turn + 1, tries - 1)))
  }

  /** Keeps trying to create the Job, four times at most; a try whose answer was lost makes the
      later ones fail. */
  method RetryJobCreate(cli: Cluster, contour: Contour, key: Key, desired: Object) returns (err: Option<Error>)
    requires cli.Valid() && cli.WorksOn(contour) && Prepared(cli.cfg, cli.state, contour, JOB)
    requires key == KeyAt(cli.cfg, contour.spec.ns, JOB) && desired == Desired(cli.cfg, contour, JOB)
    requires key !in cli.state.objects
    modifies cli`state, cli`clock, cli`log, cli`writes
    ensures cli.Advanced()
    ensures cli.state.objects == old(cli.state.objects)
      || cli.state.objects == old(cli.state.objects)[key := Admitted(None, desired)]
    ensures err.None? ==> cli.state.objects == old(cli.state.objects)[key := Admitted(None, desired)]
    ensures err.Some? <==> InVain(cli.script, old(cli.clock), 4)
    ensures err.Some? ==> cli.clock == old(cli.clock) + 4
    ensures Faultless(cli.script, old(cli.clock), cli.clock) ==> err.None?
    ensures old(cli.Calm()) ==> err.None? && OnlyObjects(old(cli.state), cli.state)
  {
    hide cli.Calm, Attributed, Legal, NoOrphans, OneOwner, Versioned, Tenant, Ready, Evolves, Desired, KeyAt,
      MayWrite, Admitted, Attempt;
    ghost var s := cli.state;
    ghost var created := s.objects[key := Admitted(None, desired)];
    SameContoursEvolve(s, s);
    for try := 0 to JOB_CREATE_TRIES
      invariant cli.Advanced() && Prepared(cli.cfg, cli.state, contour, JOB) && cli.clock == old(cli.clock) + try
      invariant InVain(cli.script, old(cli.clock), 4) <==> key in cli.state.objects || InVain(cli.script, cli.clock, 4 - try)
      invariant cli.state.objects == s.objects || cli.state.objects == created
      invariant Faultless(cli.script, old(cli.clock), cli.clock) ==> try == 0 && cli.state == s
      invariant old(cli.Calm()) ==> try == 0 && cli.state == s
    {
      ghost var mid := cli.state;
      CreateAllowed(cli.cfg, mid, contour, JOB);
      var ack := cli.CreateObject(contour, JOB, key, desired);
      EvolvesTransitive(s, mid, cli.state);
      if ack == Done {
        return None;
      }
      JobCreated(cli.cfg, mid, cli.state, contour, key, desired);
    }
    return Some(Failure("failed to create job"));
  }

  lemma CreateAllowed(cfg: Config, s: State, contour: Contour, i: nat)
    requires Prepared(cfg, s, contour, i) && !IsBinding(i)
    ensures MayWrite(cfg, s, contour, i, Admitted(None, Desired(cfg, contour, i)))
  {
    hide Tenant, Ready, Desired, KeyAt;
    DesiredFits(cfg, contour, i);
    AdmittedKeeps(None, Desired(cfg, contour, i));
  }

  lemma JobCreated(cfg: Config, s: State, t: State, contour: Contour, key: Key, desired: Object)
    requires Prepared(cfg, s, contour, JOB) && Evolves(s, t)
    requires key == KeyAt(cfg, contour.spec.ns, JOB) && desired == Desired(cfg, contour, JOB)
    requires t.objects == s.objects || t.objects == s.objects[key := Admitted(None, desired)]
    ensures Prepared(cfg, t, contour, JOB)
  {
    hide KeyAt, Desired, Evolves, Tenant, Admitted;
    DesiredFits(cfg, contour, JOB);
    AdmittedKeeps(None, desired);
    TenantStays(s, t, contour);
  }

  // ---- The Envoy Service -------------------------------------------------------------------------------

  method EnsureEnvoyService(cli: Cluster, contour: Contour) returns (outcome: Outcome)
    requires cli.Valid() && cli.WorksOn(contour) && Prepared(cli.cfg, cli.state, contour, ENVOY_SERVICE)
    modifies cli`state, cli`clock, cli`log, cli`writes
    ensures old(cli.clock) < cli.clock
    ensures cli.Advanced() && Attempt(cli.cfg, old(cli.state), cli.state, contour, ENVOY_SERVICE)
    ensures outcome == Ran(None) || outcome.Panicked? ==> Reached(cli.cfg, old(cli.state), cli.state, contour, ENVOY_SERVICE)
    ensures old(cli.Calm()) ==> OnlyObjects(old(cli.state), cli.state)
    ensures old(cli.Calm()) ==> Reached(cli.cfg, old(cli.state), cli.state, contour, ENVOY_SERVICE)
    ensures Faultless(cli.script, old(cli.clock), cli.clock) ==> outcome == Ran(None) || outcome == Panicked
    ensures old(cli.Calm()) ==> outcome == Ran(None) || outcome == Panicked
    ensures Settled(cli.cfg, old(cli.state), contour, ENVOY_SERVICE) ==>
      cli.writes == old(cli.writes) && !outcome.Panicked?
    ensures outcome.Panicked? <==> old(cli.Now()).fault == NoFault && ComparisonCrashes(cli.cfg, old(cli.state), contour)
    ensures Faultless(cli.script, old(cli.clock), cli.clock) ==>
      (outcome.Panicked? <==> ComparisonCrashes(cli.cfg, old(cli.state), contour))
    ensures old(cli.Calm()) ==> (outcome.Panicked? <==> ComparisonCrashes(cli.cfg, old(cli.state), contour))
  {
    hide cli.Calm, Attributed, Drift, ComparisonCrashes, Legal, NoOrphans, OneOwner, Versioned, Tenant, Ready,
      Evolves, Desired, KeyAt, MayWrite, Admitted, EnvoyPorts;
    ghost var s := cli.state;
    var desired := DesiredEnvoyService(contour);
    EnvoyDesired(cli.cfg, contour);
    var key := KeyAt(cli.cfg, contour.spec.ns, ENVOY_SERVICE);
    HereFits(cli.cfg, s, contour, ENVOY_SERVICE);
    DesiredFits(cli.cfg, contour, ENVOY_SERVICE);
    NoSelector(cli.cfg, contour, ENVOY_SERVICE);
    CrashesIff(cli.cfg, s, contour);
    var reply := cli.GetObject(key);
    ghost var mid := cli.state;
    PreparedStays(cli.cfg, s, mid, contour, ENVOY_SERVICE);
    if reply.Failed? {
      return Ran(Some(Failure("failed to get service")));
    }
    if reply.NotFound? {
      WriteAllowed(cli.cfg, mid, contour, ENVOY_SERVICE);
      var ack := cli.CreateObject(contour, ENVOY_SERVICE, key, desired);
      EvolvesTransitive(s, mid, cli.state);
      return if ack == Done then Ran(None) else Ran(Some(Failure("failed to create service")));
    }
    if !Guarded(contour.name, reply.value) {
      return Ran(None);
    }
    outcome := UpdateEnvoyServiceIfNeeded(cli, contour, reply.value, desired, s);
    EvolvesTransitive(s, mid, cli.state);
  }

  /** The stored Service is ours; s is the state before it was read. */
  method UpdateEnvoyServiceIfNeeded(cli: Cluster, contour: Contour, current: Object, desired: Object, ghost s: State)
    returns (outcome: Outcome)
    requires cli.Valid() && cli.WorksOn(contour) && Prepared(cli.cfg, cli.state, contour, ENVOY_SERVICE)
    requires desired == Desired(cli.cfg, contour, ENVOY_SERVICE) && s.objects == cli.state.objects
    requires Here(cli.cfg, s, contour, ENVOY_SERVICE) == Some(current) && Owns(contour.name, current)
    modifies cli`state, cli`clock, cli`log, cli`writes
    ensures cli.Advanced() && Attempt(cli.cfg, s, cli.state, contour, ENVOY_SERVICE)
    ensures outcome == Ran(None) || outcome.Panicked? ==> Reached(cli.cfg, s, cli.state, contour, ENVOY_SERVICE)
    ensures Faultless(cli.script, old(cli.clock), cli.clock) || old(cli.Calm()) ==> outcome == Ran(None) || outcome == Panicked
    ensures old(cli.Calm()) ==> OnlyObjects(old(cli.state), cli.state)
    ensures Settled(cli.cfg, s, contour, ENVOY_SERVICE) ==> cli.writes == old(cli.writes) && !outcome.Panicked?
    ensures WellKinded(s) && (outcome.Panicked? <==> ComparisonCrashes(cli.cfg, s, contour))
  {
    hide cli.Calm, Attributed, Drift, ComparisonCrashes, Legal, NoOrphans, OneOwner, Versioned, Tenant, Ready,
      Evolves, Desired, KeyAt, MayWrite, Admitted, EnvoyPorts, OwnerOf;
    assert WellKinded(s) by { SameObjectsKinds(cli.state, s); }
    var key := KeyAt(cli.cfg, contour.spec.ns, ENVOY_SERVICE);
    ghost var mid := cli.state;
    HereFits(cli.cfg, s, contour, ENVOY_SERVICE);
    DesiredFits(cli.cfg, contour, ENVOY_SERVICE);
    NoSelector(cli.cfg, contour, ENVOY_SERVICE);
    CrashesIff(cli.cfg, s, contour);
    SameContoursEvolve(mid, mid);
    EnvoyDesired(cli.cfg, contour);
    var verdict := CompareEnvoyService(contour, current, desired);
    if verdict.Panics? {
      return Panicked;
    }
    if verdict.Drifted? {
      WriteAllowed(cli.cfg, mid, contour, ENVOY_SERVICE);
      var ack := cli.UpdateObject(contour, ENVOY_SERVICE, key, verdict.updated);
      return if ack == Done then Ran(None) else Ran(Some(Failure("failed to update service")));
    }
    return Ran(None);
  }

  lemma SameObjectsKinds(s: State, t: State)
    requires WellKinded(s) && t.objects == s.objects
    ensures WellKinded(t)
  {
  }

  lemma CrashesIff(cfg: Config, s: State, contour: Contour)
    requires WellKinded(s)
    ensures ComparisonCrashes(cfg, s, contour) <==>
      && Here(cfg, s, contour, ENVOY_SERVICE).Some? && Owns(contour.name, Here(cfg, s, contour, ENVOY_SERVICE).value)
      && (HereFits(cfg, s, contour, ENVOY_SERVICE);
          Drift(Here(cfg, s, contour, ENVOY_SERVICE).value, Desired(cfg, contour, ENVOY_SERVICE), contour.spec.publishing).Panics?)
  {
    hide KeyAt, EnvoyPorts;
    HereFits(cfg, s, contour, ENVOY_SERVICE);
    DesiredFits(cfg, contour, ENVOY_SERVICE);
    EnvoyDesired(cfg, contour);
    if Here(cfg, s, contour, ENVOY_SERVICE).Some? {
      DriftPanicsIff(Here(cfg, s, contour, ENVOY_SERVICE).value, Desired(cfg, contour, ENVOY_SERVICE), contour.spec.publishing);
    }
  }

  lemma EnvoyDesired(cfg: Config, contour: Contour)
    ensures Desired(cfg, contour, ENVOY_SERVICE) == EnvoyService(contour)
  {
  }

  /** The stored Service is ours, published by node port, and has more ports than desired. */
  ghost predicate ComparisonCrashes(cfg: Config, s: State, contour: Contour) {
    && WellKinded(s) && contour.spec.publishing.NodePortService?
    && (HereFits(cfg, s, contour, ENVOY_SERVICE);
        var here := Here(cfg, s, contour, ENVOY_SERVICE);
        here.Some? && Owns(contour.name, here.value) && here.value.body.Service?
        && |here.value.body.service.ports| > |EnvoyPorts(contour.spec)|)
  }

  /** Dispatches to the comparison for the publishing type. */
  method CompareEnvoyService(contour: Contour, current: Object, desired: Object) returns (verdict: Verdict)
    requires current.body.Service? && desired.body.Service?
    ensures verdict == Drift(current, desired, contour.spec.publishing)
  {
    match contour.spec.publishing
    case NodePortService =>
      verdict := NodePortServiceChanged(current, desired);
    case ClusterIPService =>
      verdict := ToVerdict(ClusterIPServiceChanged(current, desired));
    case LoadBalancerService =>
      var updated := LoadBalancerServiceChanged(current, desired);
      verdict := ToVerdict(updated);
  }
}
