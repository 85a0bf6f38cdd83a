/** RBAC objects as a group: roles before bindings when ensuring, bindings before roles when
    deleting (internal/objects/rbac.go), and how attempts compose. */
module Rbac {
  import opened Wrappers
  import opened Api
  import opened Children
  import opened Protocol
  import opened Cluster
  import opened Retryable
  import opened Ensure

  // ---- Attempts at a range of children -------------------------------------------------------

  ghost predicate Outside(cfg: Config, ns: string, lo: nat, hi: nat, key: Key)
    requires hi <= CHILDREN
  {
    forall j :: lo <= j < hi ==> key != KeyAt(cfg, ns, j)
  }

  ghost predicate PossibleAt(cfg: Config, s: State, t: State, contour: Contour, j: nat)
    requires j < CHILDREN && WellKinded(s)
  {
    HereFits(cfg, s, contour, j);
    Possible(cfg, contour, j, Here(cfg, s, contour, j), Here(cfg, t, contour, j))
  }

  /** Attempts at children lo up to hi, in order: each is at a value an attempt can leave, and
      nothing else changed. */
  ghost predicate Attempts(cfg: Config, s: State, t: State, contour: Contour, lo: nat, hi: nat) {
    && hi <= CHILDREN && WellKinded(s) && WellKinded(t)
    && (forall j :: lo <= j < hi ==> PossibleAt(cfg, s, t, contour, j))
    && (forall k :: Outside(cfg, contour.spec.ns, lo, hi, k) ==> At(s.objects, k) == At(t.objects, k))
  }

  ghost predicate AllReached(cfg: Config, s: State, t: State, contour: Contour, lo: nat, hi: nat) {
    hi <= CHILDREN && forall j :: lo <= j < hi ==> Reached(cfg, s, t, contour, j)
  }

  ghost predicate AllSettled(cfg: Config, s: State, contour: Contour, lo: nat, hi: nat) {
    hi <= CHILDREN && forall j :: lo <= j < hi ==> Settled(cfg, s, contour, j)
  }

  lemma OutsideRange(cfg: Config, ns: string, lo: nat, hi: nat, i: nat)
    requires hi <= CHILDREN && i < CHILDREN && !(lo <= i < hi)
    ensures Outside(cfg, ns, lo, hi, KeyAt(cfg, ns, i))
  {
    hide KeyAt;
    forall j | lo <= j < hi ensures KeyAt(cfg, ns, i) != KeyAt(cfg, ns, j) {
      KeysDistinct(cfg, ns, i, j);
    }
  }

  /** Children outside the range are as they were. */
  lemma HereOutside(cfg: Config, s: State, t: State, contour: Contour, lo: nat, hi: nat, i: nat)
    requires Attempts(cfg, s, t, contour, lo, hi) && i < CHILDREN && !(lo <= i < hi)
    ensures Here(cfg, s, contour, i) == Here(cfg, t, contour, i)
  {
    hide KeyAt, PossibleAt;
    OutsideRange(cfg, contour.spec.ns, lo, hi, i);
  }

  lemma OneAttempt(cfg: Config, s: State, t: State, contour: Contour, i: nat)
    requires Attempt(cfg, s, t, contour, i) && Evolves(s, t)
    ensures Attempts(cfg, s, t, contour, i, i + 1)
    ensures Reached(cfg, s, t, contour, i) ==> AllReached(cfg, s, t, contour, i, i + 1)
  {
    hide KeyAt, Possible, Evolves, Next;
    AttemptKeeps(cfg, s, t, contour, i);
    forall k | Outside(cfg, contour.spec.ns, i, i + 1, k) ensures At(s.objects, k) == At(t.objects, k) {
      assert k != KeyAt(cfg, contour.spec.ns, i);
    }
  }

  lemma AttemptsJoin(cfg: Config, s: State, t: State, u: State, contour: Contour, lo: nat, mid: nat, hi: nat)
    requires lo <= mid <= hi
    requires Attempts(cfg, s, t, contour, lo, mid) && Attempts(cfg, t, u, contour, mid, hi)
    ensures Attempts(cfg, s, u, contour, lo, hi)
    ensures AllReached(cfg, s, t, contour, lo, mid) && AllReached(cfg, t, u, contour, mid, hi) ==>
      AllReached(cfg, s, u, contour, lo, hi)
  {
    hide KeyAt, Possible, Next, Here, WellKinded;
    forall j | lo <= j < hi
      ensures PossibleAt(cfg, s, u, contour, j)
      ensures j < mid && Reached(cfg, s, t, contour, j) ==> Reached(cfg, s, u, contour, j)
      ensures j >= mid && Reached(cfg, t, u, contour, j) ==> Reached(cfg, s, u, contour, j)
    {
      if j < mid {
        assert PossibleAt(cfg, s, t, contour, j);
        HereOutside(cfg, t, u, contour, mid, hi, j);
      } else {
        assert PossibleAt(cfg, t, u, contour, j);
        HereOutside(cfg, s, t, contour, lo, mid, j);
      }
    }
    forall k | Outside(cfg, contour.spec.ns, lo, hi, k) ensures At(s.objects, k) == At(u.objects, k) {
      assert Outside(cfg, contour.spec.ns, lo, mid, k) && Outside(cfg, contour.spec.ns, mid, hi, k);
    }
  }

  /** Stopping early is a shorter list of attempts, which is also a longer one. */
  lemma AttemptsWiden(cfg: Config, s: State, t: State, contour: Contour, lo: nat, hi: nat, wider: nat)
    requires lo <= hi <= wider <= CHILDREN && Attempts(cfg, s, t, contour, lo, hi)
    ensures Attempts(cfg, s, t, contour, lo, wider)
  {
    hide KeyAt, Next, WellKinded;
    forall j | lo <= j < wider ensures PossibleAt(cfg, s, t, contour, j) {
      if j >= hi {
        HereOutside(cfg, s, t, contour, lo, hi, j);
      }
    }
    forall k | Outside(cfg, contour.spec.ns, lo, wider, k) ensures At(s.objects, k) == At(t.objects, k) {
      assert Outside(cfg, contour.spec.ns, lo, hi, k);
    }
  }

  lemma NoAttempts(cfg: Config, s: State, t: State, contour: Contour, lo: nat)
    requires lo <= CHILDREN && WellKinded(s) && t.objects == s.objects
    ensures Attempts(cfg, s, t, contour, lo, lo) && AllReached(cfg, s, t, contour, lo, lo)
  {
  }

  /** Settled children stay settled while others are attempted. */
  lemma SettledOutside(cfg: Config, s: State, t: State, contour: Contour, lo: nat, mid: nat, hi: nat)
    requires lo <= mid <= hi && Attempts(cfg, s, t, contour, lo, mid) && AllSettled(cfg, s, contour, lo, hi)
    ensures AllSettled(cfg, t, contour, mid, hi)
  {
    hide KeyAt, Rank, WellKinded, Here;
    forall j | mid <= j < hi ensures Settled(cfg, t, contour, j) {
      assert Settled(cfg, s, contour, j);
      HereOutside(cfg, s, t, contour, lo, mid, j);
    }
  }

  /** Children already where they should be stay there while others are attempted. */
  lemma AllReachedOutside(cfg: Config, s: State, mid: State, t: State, contour: Contour, lo: nat, i: nat, hi: nat)
    requires AllReached(cfg, s, mid, contour, lo, i) && Attempts(cfg, mid, t, contour, i, hi)
    ensures AllReached(cfg, s, t, contour, lo, i)
  {
    hide KeyAt, Next, Attempts, Here;
    forall j | lo <= j < i ensures Reached(cfg, s, t, contour, j) {
      assert Reached(cfg, s, mid, contour, j);
      HereOutside(cfg, mid, t, contour, i, hi, j);
    }
  }

  /** A child of the first shape exists once an attempt succeeded. */
  lemma ReachedExists(cfg: Config, s: State, t: State, contour: Contour, i: nat)
    requires Reached(cfg, s, t, contour, i) && i < FIRST_WORKLOAD
    ensures KeyAt(cfg, contour.spec.ns, i) in t.objects
  {
    hide KeyAt, Next;
    HereFits(cfg, s, contour, i);
    NextIsOwned(cfg, contour, i, Here(cfg, s, contour, i));
  }

  // ---- Who may do what ---------------------------------------------------------------------------

  function RulesOf(body: Body): Option<Content> {
    match body
    case ClusterRole(rules) => Some(rules)
    case Role(rules) => Some(rules)
    case _ => None
  }

  /** The account, which exists, is the one that may do what these rules say, by a binding and a
      role that exist; what others put in their place is not looked into. */
  ghost predicate Grant(objects: map<Key, Object>, n: Name, binding: Key, role: Key, rules: Content, account: Subject) {
    && binding in objects && role in objects && Key(ServiceAccountKind, account.ns, account.name) in objects
    && (Owns(n, objects[binding]) ==>
          SubjectsOf(objects[binding].body) == [account] && RoleRefOf(objects[binding].body) == Some(role.name))
    && (Owns(n, objects[role]) ==> RulesOf(objects[role].body) == Some(rules))
  }

  /** Contour may watch the cluster and keep its own records, the certificate Job may write its
      secrets, and that is all. */
  ghost predicate Granted(objects: map<Key, Object>, n: Name, ns: string) {
    && Grant(objects, n, Key(ClusterRoleBindingKind, "", "contour-" + ns), Key(ClusterRoleKind, "", "contour-" + ns),
             Fixed("contour"), Subject("contour", ns))
    && Grant(objects, n, Key(RoleBindingKind, ns, "contour"), Key(RoleKind, ns, "contour-certgen"),
             Fixed("certgen"), Subject("contour-certgen", ns))
    && Grant(objects, n, Key(RoleBindingKind, ns, "contour-rolebinding"), Key(RoleKind, ns, "contour"),
             Fixed("controller"), Subject("contour", ns))
  }

  lemma ReachedBody(cfg: Config, s: State, t: State, contour: Contour, i: nat)
    requires Reached(cfg, s, t, contour, i) && 4 <= i < FIRST_WORKLOAD
    ensures Here(cfg, t, contour, i).Some?
    ensures Owns(contour.name, Here(cfg, t, contour, i).value) ==> Here(cfg, t, contour, i).value.body == BodyAt(cfg, contour, i)
  {
    hide KeyAt, OwnerOf;
    HereFits(cfg, s, contour, i);
    DesiredFits(cfg, contour, i);
    NextIsOwned(cfg, contour, i, Here(cfg, s, contour, i));
  }

  lemma RbacGrants(cfg: Config, s: State, t: State, contour: Contour)
    requires AllReached(cfg, s, t, contour, 1, FIRST_WORKLOAD)
    ensures Granted(t.objects, contour.name, contour.spec.ns)
  {
    hide Reached, OwnerOf;
    forall i | 1 <= i < FIRST_WORKLOAD ensures KeyAt(cfg, contour.spec.ns, i) in t.objects {
      assert Reached(cfg, s, t, contour, i);
      ReachedExists(cfg, s, t, contour, i);
    }
    assert KeyAt(cfg, contour.spec.ns, 1) in t.objects && KeyAt(cfg, contour.spec.ns, 3) in t.objects;
    GrantAt(cfg, s, t, contour, 5);
    GrantAt(cfg, s, t, contour, 7);
    GrantAt(cfg, s, t, contour, 9);
  }

  lemma GrantAt(cfg: Config, s: State, t: State, contour: Contour, i: nat)
    requires IsBinding(i) && Reached(cfg, s, t, contour, i) && Reached(cfg, s, t, contour, i - 1)
    requires KeyAt(cfg, contour.spec.ns, 1) in t.objects && KeyAt(cfg, contour.spec.ns, 3) in t.objects
    ensures Grant(t.objects, contour.name, KeyAt(cfg, contour.spec.ns, i), KeyAt(cfg, contour.spec.ns, i - 1),
                  Fixed(if i == 5 then "contour" else if i == 7 then "certgen" else "controller"),
                  Subject(if i == 7 then "contour-certgen" else "contour", contour.spec.ns))
  {
    hide Reached, OwnerOf;
    ReachedBody(cfg, s, t, contour, i);
    ReachedBody(cfg, s, t, contour, i - 1);
  }

  // ---- Ensuring ----------------------------------------------------------------------------------

  /** Ensures the next RBAC object; s is the state before the first one. */
  method EnsureNext(cli: Cluster, contour: Contour, ghost s: State, i: nat) returns (err: Option<Error>)
    requires cli.Valid() && cli.WorksOn(contour) && 1 <= i < FIRST_WORKLOAD && i < CHILDREN
    requires Evolves(s, cli.state) && Attempts(cli.cfg, s, cli.state, contour, 1, i)
    requires AllReached(cli.cfg, s, cli.state, contour, 1, i)
    modifies cli`state, cli`clock, cli`log, cli`writes
    ensures cli.Advanced() && Evolves(s, cli.state) && Attempts(cli.cfg, s, cli.state, contour, 1, i + 1)
    ensures AllReached(cli.cfg, s, cli.state, contour, 1, if err.None? then i + 1 else i)
    ensures Faultless(cli.script, old(cli.clock), cli.clock) ==> err.None?
    ensures old(cli.Calm()) ==> err.None? && OnlyObjects(old(cli.state), cli.state)
    ensures AllSettled(cli.cfg, s, contour, 1, FIRST_WORKLOAD) ==> cli.writes == old(cli.writes)
  {
    hide cli.Calm, Attributed, Legal, Inv, Evolves, KeyAt, Attempt, Attempts, Reached, Desired, Settled;
    ghost var before := cli.state;
    if IsBinding(i) {
      assert Reached(cli.cfg, s, before, contour, i - 1);
      ReachedExists(cli.cfg, s, before, contour, i - 1);
      assert Reached(cli.cfg, s, before, contour, AccountOf(i));
      ReachedExists(cli.cfg, s, before, contour, AccountOf(i));
    }
    err := EnsureObject(cli, contour, i, Desired(cli.cfg, contour, i));
    EvolvesTransitive(s, before, cli.state);
    OneAttempt(cli.cfg, before, cli.state, contour, i);
    AttemptsJoin(cli.cfg, s, before, cli.state, contour, 1, i, i + 1);
    AllReachedOutside(cli.cfg, s, before, cli.state, contour, 1, i, i + 1);
    if AllSettled(cli.cfg, s, contour, 1, FIRST_WORKLOAD) {
      SettledOutside(cli.cfg, s, before, contour, 1, i, FIRST_WORKLOAD);
      assert Settled(cli.cfg, before, contour, i);
    }
  }

  /** Ensures the nine RBAC objects in order, up to the first failure; those before child done
      were attempted, the others are as they were. */
  method EnsureRBAC(cli: Cluster, contour: Contour) returns (err: Option<Error>, ghost done: nat)
    requires cli.Valid() && cli.WorksOn(contour)
    modifies cli`state, cli`clock, cli`log, cli`writes
    ensures cli.Advanced() && 1 < done <= FIRST_WORKLOAD && Attempts(cli.cfg, old(cli.state), cli.state, contour, 1, done)
    ensures AllReached(cli.cfg, old(cli.state), cli.state, contour, 1, if err.None? then done else done - 1)
    ensures err.None? ==> done == FIRST_WORKLOAD
    ensures err.None? ==> Granted(cli.state.objects, contour.name, contour.spec.ns)
    ensures Faultless(cli.script, old(cli.clock), cli.clock) ==> err.None?
    ensures old(cli.Calm()) ==> err.None? && OnlyObjects(old(cli.state), cli.state)
    ensures AllSettled(cli.cfg, old(cli.state), contour, 1, FIRST_WORKLOAD) ==> cli.writes == old(cli.writes)
  {
    hide cli.Calm, cli.Valid, NoOrphans, OneOwner, Versioned, Evolves, Attempts, AllReached, AllSettled, WellKinded,
      Granted;
    ghost var s := cli.state;
    Begun(cli);
    NoAttempts(cli.cfg, s, s, contour, 1);
    SameContoursEvolve(s, s);
    done := 1;
    // Service accounts contour, envoy and contour-certgen.
    for i := 1 to 4
      invariant cli.Advanced() && Attempts(cli.cfg, s, cli.state, contour, 1, i)
      invariant AllReached(cli.cfg, s, cli.state, contour, 1, i)
      invariant old(cli.Calm()) ==> OnlyObjects(s, cli.state)
      invariant AllSettled(cli.cfg, s, contour, 1, FIRST_WORKLOAD) ==> cli.writes == old(cli.writes)
    {
      err := EnsureNext(cli, contour, s, i);
      done := i + 1;
      if err.Some? {
        return;
      }
    }
    // Cluster role and its binding.
    err := EnsureNext(cli, contour, s, 4);
    done := 5;
    if err.Some? {
      return;
    }
    err := EnsureNext(cli, contour, s, 5);
    done := 6;
    if err.Some? {
      return;
    }
    // Certgen role and its binding.
    err := EnsureNext(cli, contour, s, 6);
    done := 7;
    if err.Some? {
      return;
    }
    err := EnsureNext(cli, contour, s, 7);
    done := 8;
    if err.Some? {
      return;
    }
    // Controller role and its binding.
    err := EnsureNext(cli, contour, s, 8);
    done := 9;
    if err.Some? {
      return;
    }
    err := EnsureNext(cli, contour, s, 9);
    done := 10;
    if err.None? {
      RbacGrants(cli.cfg, s, cli.state, contour);
    }
  }
}
