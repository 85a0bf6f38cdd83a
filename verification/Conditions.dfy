/** Status conditions (internal/status/conditions.go). */
module Conditions {
  import opened Wrappers
  import opened Api

  // ---- Computing the Available condition -------------------------------------------

  function LowerChar(c: char): char {
    if 'A' <= c <= 'Z' then 'a' + (c - 'A') else c
  }

  function ToLower(s: string): string {
    seq(|s|, i requires 0 <= i < |s| => LowerChar(s[i]))
  }

  function Available(status: ConditionStatus, reason: string, message: string, now: int): Condition {
    Condition(AVAILABLE, status, reason, message, 0, now)
  }

  /** What one Deployment condition says, if it settles the question. */
  function Verdict(cond: DeploymentCondition, envoys: bool, now: int): Option<Condition> {
    if cond.kind != AVAILABLE then None
    else
      match cond.status
      case CondTrue =>
        if envoys then Some(Available(True, "ContourAvailable", "Contour has minimum availability.", now))
        else Some(Available(False, "ContourUnavailable", "Envoy daemonset does not have minimum availability.", now))
      case CondFalse =>
        if envoys then Some(Available(False, "ContourUnavailable", "Contour " + ToLower(cond.message), now))
        else Some(Available(False, "ContourUnavailable",
                            "Envoy daemonset does not have minimum availability. Contour " + ToLower(cond.message), now))
      case CondUnknown =>
        Some(Available(Unknown, "ContourUnknown: " + cond.message, "Contour status unknown. " + cond.message, now))
      case CondOther => None
  }

  /** The verdict of the first condition that gives one. */
  function FirstVerdict(conds: seq<DeploymentCondition>, envoys: bool, now: int): Condition {
    if conds == [] then Available(Unknown, "ContourUnknown", "Contour status unknown.", now)
    else match Verdict(conds[0], envoys, now)
      case Some(c) => c
      case None => FirstVerdict(conds[1..], envoys, now)
  }

  function AvailableCondition(deployment: Option<Health>, daemonSet: Option<Health>, now: int): Condition {
    if deployment.None? then Available(False, "ContourUnavailable", "Contour deployment does not exist.", now)
    else if daemonSet.None? then Available(False, "ContourUnavailable", "Envoy daemonset does not exist.", now)
    else FirstVerdict(deployment.value.conditions, daemonSet.value.available > 0, now)
  }

  method ComputeContourAvailableCondition(deployment: Option<Health>, daemonSet: Option<Health>, now: int)
    returns (condition: Condition)
    ensures condition == AvailableCondition(deployment, daemonSet, now)
  {
    if deployment.None? {
      return Available(False, "ContourUnavailable", "Contour deployment does not exist.", now);
    }
    if daemonSet.None? {
      return Available(False, "ContourUnavailable", "Envoy daemonset does not exist.", now);
    }
    var dsAvailable := daemonSet.value.available > 0;
    var conds := deployment.value.conditions;
    for i := 0 to |conds|
      invariant FirstVerdict(conds, dsAvailable, now) == FirstVerdict(conds[i..], dsAvailable, now)
    {
      assert conds[i..][1..] == conds[i + 1..];
      var verdict := Verdict(conds[i], dsAvailable, now);
      if verdict.Some? {
        return verdict.value;
      }
    }
    return Available(Unknown, "ContourUnknown", "Contour status unknown.", now);
  }

  predicate Decisive(cond: DeploymentCondition) {
    cond.kind == AVAILABLE && cond.status != CondOther
  }

  /** A Contour is reported available exactly when both workloads exist, the Deployment's
      first decisive Available condition is true, and some Envoy pod is available. */
  lemma AvailableIff(deployment: Option<Health>, daemonSet: Option<Health>, now: int)
    ensures AvailableCondition(deployment, daemonSet, now).status == True <==>
      && deployment.Some? && daemonSet.Some? && daemonSet.value.available > 0
      && var conds := deployment.value.conditions;
         exists i :: 0 <= i < |conds| && Decisive(conds[i]) && conds[i].status == CondTrue
                     && forall j :: 0 <= j < i ==> !Decisive(conds[j])
  {
    if deployment.Some? && daemonSet.Some? {
      FirstVerdictIff(deployment.value.conditions, daemonSet.value.available > 0, now);
    }
  }

  lemma {:induction false} FirstVerdictIff(conds: seq<DeploymentCondition>, envoys: bool, now: int)
    ensures FirstVerdict(conds, envoys, now).status == True <==>
      envoys && exists i :: 0 <= i < |conds| && Decisive(conds[i]) && conds[i].status == CondTrue
                            && forall j :: 0 <= j < i ==> !Decisive(conds[j])
  {
    if conds != [] && !Decisive(conds[0]) {
      var rest := conds[1..];
      FirstVerdictIff(rest, envoys, now);
      if i :| 0 <= i < |rest| && Decisive(rest[i]) && rest[i].status == CondTrue && forall j :: 0 <= j < i ==> !Decisive(rest[j]) {
        assert forall j :: 0 <= j < i + 1 ==> !Decisive(conds[j]) by {
          forall j | 0 <= j < i + 1 ensures !Decisive(conds[j]) {
            if j > 0 { assert conds[j] == rest[j - 1]; }
          }
        }
        assert conds[i + 1] == rest[i];
      }
      if i :| 0 <= i < |conds| && Decisive(conds[i]) && conds[i].status == CondTrue && forall j :: 0 <= j < i ==> !Decisive(conds[j]) {
        assert i > 0 && rest[i - 1] == conds[i];
        assert forall j :: 0 <= j < i - 1 ==> !Decisive(rest[j]) by {
          forall j | 0 <= j < i - 1 ensures !Decisive(rest[j]) { assert rest[j] == conds[j + 1]; }
        }
      }
    }
  }

  /** Condition i of a Deployment is the one that decides. */
  predicate DecidedBy(conds: seq<DeploymentCondition>, i: nat) {
    i < |conds| && Decisive(conds[i]) && forall j :: 0 <= j < i ==> !Decisive(conds[j])
  }

  lemma {:induction false} FirstVerdictAt(conds: seq<DeploymentCondition>, envoys: bool, now: int, i: nat)
    requires DecidedBy(conds, i)
    ensures Verdict(conds[i], envoys, now) == Some(FirstVerdict(conds, envoys, now))
  {
    if i > 0 {
      assert !Decisive(conds[0]);
      FirstVerdictAt(conds[1..], envoys, now, i - 1);
    }
  }

  lemma {:induction false} NoVerdict(conds: seq<DeploymentCondition>, envoys: bool, now: int)
    requires forall j :: 0 <= j < |conds| ==> !Decisive(conds[j])
    ensures FirstVerdict(conds, envoys, now) == Available(Unknown, "ContourUnknown", "Contour status unknown.", now)
  {
    if conds != [] {
      assert !Decisive(conds[0]);
      NoVerdict(conds[1..], envoys, now);
    }
  }

  lemma {:induction false} Deciding(conds: seq<DeploymentCondition>) returns (decider: Option<nat>)
    ensures decider.Some? ==> DecidedBy(conds, decider.value)
    ensures decider.None? ==> forall j :: 0 <= j < |conds| ==> !Decisive(conds[j])
  {
    if conds == [] {
      decider := None;
    } else if Decisive(conds[0]) {
      decider := Some(0);
    } else {
      var rest := Deciding(conds[1..]);
      decider := if rest.Some? then Some(rest.value + 1) else None;
      assert forall j :: 0 < j < |conds| ==> conds[j] == conds[1..][j - 1];
    }
  }

  predicate Says(c: Condition, status: ConditionStatus, reason: string, message: string) {
    c.kind == "Available" && c.status == status && c.reason == reason && c.message == message && c.observedGeneration == 0
  }

  /** What is reported when one condition of the Deployment decides: True only with an available
      Envoy pod; what the Deployment denies is False, what it does not know Unknown. */
  lemma DecidedSays(deployment: Health, daemonSet: Health, now: int, i: nat)
    requires DecidedBy(deployment.conditions, i)
    ensures var c, said, envoys := AvailableCondition(Some(deployment), Some(daemonSet), now), deployment.conditions[i], daemonSet.available > 0;
      && (said.status == CondTrue && envoys ==> Says(c, True, "ContourAvailable", "Contour has minimum availability."))
      && (said.status == CondTrue && !envoys ==>
            Says(c, False, "ContourUnavailable", "Envoy daemonset does not have minimum availability."))
      && (said.status == CondFalse && envoys ==> Says(c, False, "ContourUnavailable", "Contour " + ToLower(said.message)))
      && (said.status == CondFalse && !envoys ==>
            Says(c, False, "ContourUnavailable", "Envoy daemonset does not have minimum availability. Contour " + ToLower(said.message)))
      && (said.status == CondUnknown ==>
            Says(c, Unknown, "ContourUnknown: " + said.message, "Contour status unknown. " + said.message))
      && (said.status == CondTrue || said.status == CondFalse || said.status == CondUnknown) && c.transitionTime == now
  {
    FirstVerdictAt(deployment.conditions, daemonSet.available > 0, now, i);
  }

  /** What is reported when nothing decides: a missing Deployment and a missing DaemonSet are told
      apart, and a Deployment that says nothing decisive leaves it unknown. */
  lemma UndecidedSays(deployment: Option<Health>, daemonSet: Option<Health>, now: int)
    ensures deployment.None? ==>
      Says(AvailableCondition(deployment, daemonSet, now), False, "ContourUnavailable", "Contour deployment does not exist.")
    ensures deployment.Some? && daemonSet.None? ==>
      Says(AvailableCondition(deployment, daemonSet, now), False, "ContourUnavailable", "Envoy daemonset does not exist.")
    ensures deployment.Some? && daemonSet.Some?
            && (forall j :: 0 <= j < |deployment.value.conditions| ==> !Decisive(deployment.value.conditions[j])) ==>
      Says(AvailableCondition(deployment, daemonSet, now), Unknown, "ContourUnknown", "Contour status unknown.")
  {
    if deployment.Some? && daemonSet.Some?
       && forall j :: 0 <= j < |deployment.value.conditions| ==> !Decisive(deployment.value.conditions[j])
    {
      NoVerdict(deployment.value.conditions, daemonSet.value.available > 0, now);
    }
  }

  /** The status by itself, next to AvailableIff. */
  lemma StatusIff(deployment: Option<Health>, daemonSet: Option<Health>, now: int)
    ensures AvailableCondition(deployment, daemonSet, now).status == False <==>
      || deployment.None? || daemonSet.None?
      || exists i: nat :: DecidedBy(deployment.value.conditions, i)
                     && (deployment.value.conditions[i].status == CondFalse
                         || (deployment.value.conditions[i].status == CondTrue && daemonSet.value.available <= 0))
    ensures AvailableCondition(deployment, daemonSet, now).status == Unknown <==>
      && deployment.Some? && daemonSet.Some?
      && forall i: nat :: DecidedBy(deployment.value.conditions, i) ==> deployment.value.conditions[i].status == CondUnknown
    ensures AvailableCondition(deployment, daemonSet, now).status == True <==>
      AvailableCondition(deployment, daemonSet, now).reason == "ContourAvailable"
  {
    UndecidedSays(deployment, daemonSet, now);
    if deployment.Some? && daemonSet.Some? {
      var conds := deployment.value.conditions;
      var decider := Deciding(conds);
      if decider.Some? {
        DecidedSays(deployment.value, daemonSet.value, now, decider.value);
        var message := conds[decider.value].message;
        assert ("ContourUnknown: " + message)[7] == 'U' && "ContourAvailable"[7] == 'A';
        forall i: nat | DecidedBy(conds, i) ensures i == decider.value {
          assert !(i < decider.value) && !(decider.value < i);
        }
      }
    }
  }

  /** Lower case, letter by letter. */
  lemma Lowered(s: string, i: nat)
    requires i < |s|
    ensures |ToLower(s)| == |s| && ToLower(s)[i] == if 'A' <= s[i] <= 'Z' then s[i] + ' ' else s[i]
  {
  }

  // ---- Merging -----------------------------------------------------------------------

  predicate ConditionChanged(a: Condition, b: Condition) {
    a.status != b.status || a.reason != b.reason || a.message != b.message
  }

  /** A stored condition brought up to date: the transition time moves only with the status. */
  function Patched(cond: Condition, update: Condition): Condition {
    Condition(cond.kind, update.status, update.reason, update.message, update.observedGeneration,
              if cond.status != update.status then update.transitionTime else cond.transitionTime)
  }

  predicate Matches(cond: Condition, update: Condition) {
    cond.kind == update.kind
  }

  predicate Stale(cond: Condition, update: Condition) {
    Matches(cond, update) && ConditionChanged(cond, update)
  }

  predicate AnyMatch(conds: seq<Condition>, update: Condition) {
    exists i :: 0 <= i < |conds| && Matches(conds[i], update)
  }

  /** The list with its first stale entry for this update patched. */
  function PatchFirst(conds: seq<Condition>, update: Condition): (patched: seq<Condition>)
    ensures |patched| == |conds|
    ensures forall i :: 0 <= i < |conds| ==> patched[i].kind == conds[i].kind
  {
    if conds == [] then []
    else if Stale(conds[0], update) then [Patched(conds[0], update)] + conds[1..]
    else [conds[0]] + PatchFirst(conds[1..], update)
  }

  function PatchAll(conds: seq<Condition>, updates: seq<Condition>): (patched: seq<Condition>)
    ensures |patched| == |conds|
    ensures forall i :: 0 <= i < |conds| ==> patched[i].kind == conds[i].kind
  {
    if updates == [] then conds
    else PatchFirst(PatchAll(conds, updates[..|updates| - 1]), updates[|updates| - 1])
  }

  /** The updates no stored condition has the type of; updates never match one another. */
  function Additions(conds: seq<Condition>, updates: seq<Condition>): seq<Condition> {
    if updates == [] then []
    else
      var last := updates[|updates| - 1];
      Additions(conds, updates[..|updates| - 1]) + if AnyMatch(conds, last) then [] else [last]
  }

  function Merged(conds: seq<Condition>, updates: seq<Condition>): seq<Condition> {
    PatchAll(conds, updates) + Additions(conds, updates)
  }

  method Overwrite(conditions: array<Condition>, j: nat, update: Condition)
    requires j < conditions.Length
    modifies conditions
    ensures conditions[..] == old(conditions[..])[j := Patched(old(conditions[j]), update)]
  {
    var cond := conditions[j];
    var entry := cond.(status := update.status, reason := update.reason, message := update.message,
                       observedGeneration := update.observedGeneration);
    // A new message alone is no transition.
    if cond.status != update.status {
      entry := entry.(transitionTime := update.transitionTime);
    }
    conditions[j] := entry;
  }

  /** One round of the merge: overwrites the first stale entry for the update. */
  method MergeOne(conditions: array<Condition>, update: Condition) returns (add: bool)
    modifies conditions
    ensures conditions[..] == PatchFirst(old(conditions[..]), update)
    ensures add <==> !AnyMatch(old(conditions[..]), update)
  {
    ghost var was := conditions[..];
    add := true;
    for j := 0 to conditions.Length
      invariant conditions[..] == was
      invariant forall k :: 0 <= k < j ==> !Stale(was[k], update)
      invariant add <==> forall k :: 0 <= k < j ==> !Matches(was[k], update)
    {
      var cond := conditions[j];
      assert cond == was[j];
      if cond.kind == update.kind {
        add := false;
        if ConditionChanged(cond, update) {
          Overwrite(conditions, j, update);
          PatchFirstAt(was, update, j);
          assert Matches(was[j], update);
          return;
        }
      }
    }
    StaleCountZero(was, update);
    PatchFirstFixed(was, update);
  }

  lemma {:induction false} PatchFirstAt(conds: seq<Condition>, update: Condition, j: nat)
    requires j < |conds| && Stale(conds[j], update)
    requires forall k :: 0 <= k < j ==> !Stale(conds[k], update)
    ensures PatchFirst(conds, update) == conds[j := Patched(conds[j], update)]
  {
    if j > 0 {
      PatchFirstAt(conds[1..], update, j - 1);
    }
  }

  /** Overwrites matching entries in place and returns the list with the new types appended;
      the returned list is the argument itself when nothing was appended. */
  method MergeConditions(conditions: array<Condition>, updates: seq<Condition>) returns (merged: array<Condition>)
    modifies conditions
    ensures merged[..] == Merged(old(conditions[..]), updates)
    ensures conditions[..] == PatchAll(old(conditions[..]), updates)
    ensures merged == conditions || fresh(merged)
  {
    ghost var was := conditions[..];
    var additions: seq<Condition> := [];
    for i := 0 to |updates|
      invariant conditions[..] == PatchAll(was, updates[..i])
      invariant additions == Additions(was, updates[..i])
    {
      assert updates[..i + 1][..i] == updates[..i];
      var add := MergeOne(conditions, updates[i]);
      KindsDecideMatch(was, PatchAll(was, updates[..i]), updates[i]);
      if add {
        additions := additions + [updates[i]];
      }
    }
    assert updates[..|updates|] == updates;
    if additions == [] {
      return conditions;
    }
    var n := conditions.Length;
    var old' := conditions[..];
    merged := new Condition[n + |additions|](i requires 0 <= i < n + |additions| =>
      if i < n then old'[i] else additions[i - n]);
    assert merged[..] == old' + additions;
  }

  lemma KindsDecideMatch(a: seq<Condition>, b: seq<Condition>, update: Condition)
    requires |a| == |b| && forall i :: 0 <= i < |a| ==> a[i].kind == b[i].kind
    ensures AnyMatch(a, update) <==> AnyMatch(b, update)
  {
    if i :| 0 <= i < |a| && Matches(a[i], update) { assert Matches(b[i], update); }
    if i :| 0 <= i < |b| && Matches(b[i], update) { assert Matches(a[i], update); }
  }

  // ---- Laws ----------------------------------------------------------------------------

  function Merge1(conds: seq<Condition>, update: Condition): (merged: seq<Condition>) {
    PatchFirst(conds, update) + if AnyMatch(conds, update) then [] else [update]
  }

  lemma MergedOne(conds: seq<Condition>, update: Condition)
    ensures Merged(conds, [update]) == Merge1(conds, update)
  {
    assert [update][..0] == [];
    assert PatchAll(conds, []) == conds;
    assert Additions(conds, []) == [];
  }

  ghost predicate UniqueKinds(conds: seq<Condition>) {
    forall i, j :: 0 <= i < j < |conds| ==> conds[i].kind != conds[j].kind
  }

  function StaleCount(conds: seq<Condition>, update: Condition): nat {
    if conds == [] then 0 else (if Stale(conds[0], update) then 1 else 0) + StaleCount(conds[1..], update)
  }

  lemma {:induction false} PatchFirstFixed(conds: seq<Condition>, update: Condition)
    ensures PatchFirst(conds, update) == conds <==> StaleCount(conds, update) == 0
    ensures StaleCount(PatchFirst(conds, update), update) == if StaleCount(conds, update) == 0 then 0 else StaleCount(conds, update) - 1
  {
    if conds != [] {
      PatchFirstFixed(conds[1..], update);
      var patched := PatchFirst(conds, update);
      if Stale(conds[0], update) {
        assert patched[1..] == conds[1..];
        assert patched[0] != conds[0];
      } else {
        assert patched[1..] == PatchFirst(conds[1..], update);
      }
    }
  }

  /** A second merge of the same update changes nothing exactly when at most one stored entry
      was stale: a list with duplicate types is brought up to date one entry a merge. */
  lemma MergeIdempotentIff(conds: seq<Condition>, update: Condition)
    ensures Merge1(Merge1(conds, update), update) == Merge1(conds, update) <==> StaleCount(conds, update) <= 1
  {
    var once := Merge1(conds, update);
    PatchFirstFixed(conds, update);
    PatchFirstFixed(once, update);
    if AnyMatch(conds, update) {
      assert once == PatchFirst(conds, update);
      KindsDecideMatch(conds, once, update);
    } else {
      NoMatchNoStale(conds, update);
      assert once == conds + [update];
      StaleCountAppend(conds, update, update);
      assert once[|conds|] == update && Matches(once[|conds|], update);
    }
  }

  /** Two stale entries of one type: each merge repairs one of them. The API server keeps one
      entry per type, so such a list cannot come from it. */
  lemma MergeTwiceExample()
    ensures var stale := Condition(AVAILABLE, False, "Old", "", 0, 0);
      var conds, update := [stale, stale], Condition(AVAILABLE, True, "New", "", 0, 1);
      Merge1(Merge1(conds, update), update) != Merge1(conds, update)
  {
    var stale := Condition(AVAILABLE, False, "Old", "", 0, 0);
    var conds, update := [stale, stale], Condition(AVAILABLE, True, "New", "", 0, 1);
    var fresh' := Patched(stale, update);
    assert conds[1..] == [stale] && [fresh', stale][1..] == [stale] && [stale][1..] == [];
    assert Matches(conds[0], update) && Stale(conds[0], update) && !Stale(fresh', update);
    assert Merge1(conds, update) == [fresh', stale];
    assert Matches([fresh', stale][0], update);
    assert PatchFirst([stale], update) == [fresh'] + [];
    assert Merge1([fresh', stale], update) == [fresh', fresh'];
    assert fresh'.status != stale.status;
  }

  lemma {:induction false} NoMatchNoStale(conds: seq<Condition>, update: Condition)
    requires !AnyMatch(conds, update)
    ensures StaleCount(conds, update) == 0 && PatchFirst(conds, update) == conds
  {
    if conds != [] {
      assert !Matches(conds[0], update);
      forall i | 0 <= i < |conds[1..]| ensures !Matches(conds[1..][i], update) {
        assert conds[1..][i] == conds[i + 1];
      }
      NoMatchNoStale(conds[1..], update);
    }
  }

  lemma {:induction false} StaleCountAppend(conds: seq<Condition>, last: Condition, update: Condition)
    ensures StaleCount(conds + [last], update) == StaleCount(conds, update) + if Stale(last, update) then 1 else 0
  {
    if conds == [] {
      assert [] + [last] == [last] && [last][1..] == [];
    } else {
      assert (conds + [last])[1..] == conds[1..] + [last];
      StaleCountAppend(conds[1..], last, update);
    }
  }

  /** With unique types at most one entry is ever stale. */
  lemma {:induction false} UniqueKindsStale(conds: seq<Condition>, update: Condition)
    requires UniqueKinds(conds)
    ensures StaleCount(conds, update) <= 1
  {
    if conds != [] {
      assert UniqueKinds(conds[1..]);
      UniqueKindsStale(conds[1..], update);
      if Matches(conds[0], update) {
        forall i | 0 <= i < |conds[1..]| ensures !Matches(conds[1..][i], update) {
          assert conds[1..][i] == conds[i + 1];
        }
        NoMatchNoStale(conds[1..], update);
      }
    }
  }

  /** Merging keeps types unique, for a single update. */
  lemma MergeKeepsUnique(conds: seq<Condition>, update: Condition)
    requires UniqueKinds(conds)
    ensures UniqueKinds(Merge1(conds, update))
  {
    var merged := Merge1(conds, update);
    forall i, j | 0 <= i < j < |merged| ensures merged[i].kind != merged[j].kind {
      if j == |conds| {
        assert !Matches(conds[i], update);
      } else {
        assert merged[i].kind == conds[i].kind && merged[j].kind == conds[j].kind;
      }
    }
  }

  /** A stored list changes under a merge exactly when its entry of that type is missing or
      differs in status, reason or message: a fresh timestamp alone changes nothing. */
  lemma MergeChangesIff(conds: seq<Condition>, update: Condition)
    requires UniqueKinds(conds)
    ensures Merge1(conds, update) == conds <==>
      exists i :: 0 <= i < |conds| && Matches(conds[i], update) && !ConditionChanged(conds[i], update)
  {
    PatchFirstFixed(conds, update);
    UniqueKindsStale(conds, update);
    if AnyMatch(conds, update) {
      var i :| 0 <= i < |conds| && Matches(conds[i], update);
      StaleCountZero(conds, update);
    } else {
      NoMatchNoStale(conds, update);
      assert |Merge1(conds, update)| == |conds| + 1;
    }
  }

  lemma {:induction false} StaleCountZero(conds: seq<Condition>, update: Condition)
    ensures StaleCount(conds, update) == 0 <==> forall i :: 0 <= i < |conds| ==> !Stale(conds[i], update)
  {
    if conds != [] {
      StaleCountZero(conds[1..], update);
      if i :| 0 <= i < |conds| && Stale(conds[i], update) {
        if i > 0 { assert conds[1..][i - 1] == conds[i]; }
      }
      if i :| 0 <= i < |conds[1..]| && Stale(conds[1..][i], update) { assert conds[i + 1] == conds[1..][i]; }
    }
  }

  // ---- Runs ----------------------------------------------------------------------------

  /** The conditions left by a run of syncs, each merging one Available condition. */
  function Replay(updates: seq<Condition>): seq<Condition> {
    if updates == [] then [] else Merge1(Replay(updates[..|updates| - 1]), updates[|updates| - 1])
  }

  ghost predicate AllAvailable(updates: seq<Condition>) {
    forall i :: 0 <= i < |updates| ==> updates[i].kind == AVAILABLE
  }

  /** The index where the last block of updates with one status begins. */
  function BlockStart(updates: seq<Condition>): (start: nat)
    requires updates != []
    ensures start < |updates|
    ensures forall i :: start <= i < |updates| ==> updates[i].status == updates[|updates| - 1].status
    ensures start > 0 ==> updates[start - 1].status != updates[|updates| - 1].status
  {
    var n := |updates| - 1;
    if n == 0 || updates[n - 1].status != updates[n].status then n
    else BlockStart(updates[..n])
  }

  lemma MergeOntoNone(update: Condition)
    ensures Merge1([], update) == [update]
  {
    assert !AnyMatch([], update);
  }

  lemma MergeOntoOne(cond: Condition, update: Condition)
    requires Matches(cond, update)
    ensures Merge1([cond], update) == [if Stale(cond, update) then Patched(cond, update) else cond]
  {
    assert Matches([cond][0], update) && [cond][1..] == [];
  }

  /** After any run there is one Available entry: it says what the last update said, and its
      transition time is that of the first update of the last block with an equal status. */
  lemma {:induction false} TransitionTimeLaw(updates: seq<Condition>)
    requires updates != [] && AllAvailable(updates)
    ensures var last, stored := updates[|updates| - 1], Replay(updates);
      && |stored| == 1
      && stored[0].kind == AVAILABLE
      && stored[0].status == last.status && stored[0].reason == last.reason && stored[0].message == last.message
      && stored[0].transitionTime == updates[BlockStart(updates)].transitionTime
  {
    hide Merge1;
    var n := |updates| - 1;
    var init, last := updates[..n], updates[n];
    if n == 0 {
      assert Replay(init) == [];
      MergeOntoNone(last);
    } else {
      TransitionTimeLaw(init);
      var before := Replay(init);
      assert init[n - 1] == updates[n - 1];
      assert before == [before[0]];
      MergeOntoOne(before[0], last);
      if updates[n - 1].status == last.status {
        assert BlockStart(updates) == BlockStart(init);
      } else {
        assert BlockStart(updates) == n;
      }
    }
  }
}
