/** The API server the operator talks to. Every call is one turn of a script that decides
    whether the call fails and what users do right after it. */
module Cluster {
  import opened Wrappers
  import opened Api
  import opened Children
  import opened Protocol
  import Conditions

  /** Reject: the call fails without effect. Lose: it takes effect but the caller sees an
      error. Reads fail either way. */
  datatype Fault = NoFault | Reject | Lose

  datatype Turn = Turn(fault: Fault, acts: seq<UserAct>, time: int)

  datatype Reply<+T> = Found(value: T) | NotFound | Failed

  datatype Ack = Done | Missing | Conflict | Refused

  predicate Touches(acts: seq<UserAct>, n: Name) {
    exists j :: 0 <= j < |acts| && !acts[j].Report? && acts[j].name == n
  }

  /** The call of this turn fails, or its answer is lost. */
  ghost predicate FailsAt(script: seq<Turn>, turn: nat) {
    turn < |script| && script[turn].fault != NoFault
  }

  /** No call of these turns fails. */
  ghost predicate Faultless(script: seq<Turn>, from: nat, until: nat) {
    forall t :: from <= t < until && t < |script| ==> script[t].fault == NoFault
  }

  /** All calls of these turns work, or just the last one does not, and that is reported. */
  ghost predicate Prompt(script: seq<Turn>, from: nat, until: nat, failed: bool) {
    && (failed <==> !Faultless(script, from, until))
    && (failed ==> from < until && Faultless(script, from, until - 1))
  }

  /** No user act of these turns touches the Contour. */
  ghost predicate Untouched(script: seq<Turn>, from: nat, until: nat, n: Name) {
    forall t :: from <= t < until && t < |script| ==> !Touches(script[t].acts, n)
  }

  /** Contours and health are as they were. */
  predicate OnlyObjects(s: State, t: State) {
    t == s.(objects := t.objects)
  }

  /** Nothing but user steps since this position of the log. */
  ghost predicate OnlyUsersSince(log: seq<Record>, from: nat) {
    forall k :: from <= k < |log| ==> log[k].event.User?
  }

  class Cluster {
    const cfg: Config
    const script: seq<Turn>
    var state: State
    var clock: nat
    /** Every state the store has been in, with the step that led there. */
    ghost var log: seq<Record>
    /** The requests taken up so far. */
    ghost var visits: seq<Visit>
    /** How many object and finalizer writes the operator has issued. */
    ghost var writes: nat
    /** How many status writes it has issued. */
    ghost var statusWrites: nat
    /** How many of the steps in the log wrote a Contour. */
    ghost var contourSteps: nat

    constructor (cfg: Config, script: seq<Turn>, state: State)
      requires Inv(cfg, state)
      ensures Valid() && this.cfg == cfg && this.script == script && this.state == state
    {
      this.cfg, this.script, this.state := cfg, script, state;
      clock, writes, statusWrites, contourSteps := 0, 0, 0, 0;
      log, visits := [Record(Start, state)], [];
      assert [Record(Start, state)][..0] == [];
    }

    ghost predicate Valid()
      reads this
    {
      && Legal(cfg, log) && Inv(cfg, log[0].state) && log[|log| - 1].state == state && Inv(cfg, state)
      && Attributed(log, visits) && contourSteps == ContourSteps(log)
    }

    /** The request being handled is for this Contour. */
    ghost predicate WorksFor(n: Name)
      reads this`visits
    {
      visits != [] && visits[|visits| - 1].name == n
    }

    /** The request being handled found the Contour as in this copy. */
    ghost predicate WorksOn(contour: Contour)
      reads this`visits
    {
      WorksFor(contour.name) && visits[|visits| - 1].found == Some(contour)
    }

    /** Takes up a request. */
    ghost method Visiting(n: Name)
      requires Valid()
      modifies this`visits
      ensures Valid() && WorksFor(n) && visits == old(visits) + [Visit(|log|, n, At(state.contours, n))]
    {
      hide Inv, Attributed, LegalAt;
      AttributedVisit(log, visits, Visit(|log|, n, At(state.contours, n)));
      visits := visits + [Visit(|log|, n, At(state.contours, n))];
    }

    function Now(): Turn
      reads this`clock
    {
      if clock < |script| then script[clock] else Turn(NoFault, [], 0)
    }

    /** From here on nothing fails and nobody interferes. */
    ghost predicate Calm()
      reads this`clock
    {
      forall t :: clock <= t < |script| ==> script[t].fault == NoFault && script[t].acts == []
    }

    /** Time passed and the log grew, legally. */
    twostate predicate Advanced()
      reads this
    {
      && Valid() && old(clock) <= clock && old(log) <= log
      && Evolves(old(state), state)
      && (old(Calm()) ==> Calm())
    }

    /** Users take the rest of the turn. */
    method Users()
      requires Valid()
      modifies this`state, this`clock, this`log
      ensures Advanced() && clock == old(clock) + 1
      ensures state.objects == old(state.objects)
      ensures forall n :: !Touches(old(Now()).acts, n) ==> At(state.contours, n) == At(old(state.contours), n)
      ensures old(Now()).acts == [] ==> state == old(state) && log == old(log)
      ensures OnlyUsersSince(log, |old(log)|)
    {
      hide Step, NoOrphans, OneOwner, WellKinded;
      var acts := Now().acts;
      for j := 0 to |acts|
        invariant Valid() && clock == old(clock) && old(log) <= log
        invariant state.objects == old(state.objects)
        invariant Evolves(old(state), state)
        invariant forall n :: !Touches(acts, n) ==> At(state.contours, n) == At(old(state.contours), n)
        invariant acts == [] ==> state == old(state) && log == old(log)
        invariant OnlyUsersSince(log, |old(log)|)
      {
        ghost var before := state;
        ApplyAct(acts[j]);
        EvolvesTransitive(old(state), before, state);
        forall n | !Touches(acts, n) ensures At(state.contours, n) == At(before.contours, n) {
          ActTouchesOne(before, acts[j], n);
        }
      }
      clock := clock + 1;
    }

    method ApplyAct(act: UserAct)
      requires Valid()
      modifies this`state, this`log
      ensures Valid() && log == old(log) + [Record(User(act), state)]
      ensures state == Act(old(state), act) && state.objects == old(state.objects)
      ensures Evolves(old(state), state)
    {
      hide NoOrphans, OneOwner, WellKinded, Versioned, Evolves, Act, Attributed;
      AttributedGrows(log, visits, Record(User(act), Act(state, act)));
      ContourStepsGrow(log, Record(User(act), Act(state, act)));
      ActKeeps(cfg, state, act);
      LegalGrows(cfg, log, Record(User(act), Act(state, act)));
      log := log + [Record(User(act), Act(state, act))];
      state := Act(state, act);
    }

    /** Enters one operator step on an object, or somebody else's, in the log. */
    ghost method Enter(event: Event, t: State)
      requires Valid() && Step(cfg, state, event, t) && !IsContourStep(event)
      requires event.Delete? && event.child < FIRST_WORKLOAD ==>
        event.checkedAt < |log| && Checked(log[event.checkedAt].state, event.who, event.child)
      requires ActorOf(event).Some? ==> WorksFor(ActorOf(event).value)
      requires SubjectOf(event).Some? ==> WorksOn(SubjectOf(event).value)
      modifies this`log
      ensures Legal(cfg, log) && log == old(log) + [Record(event, t)] && Inv(cfg, t) && Attributed(log, visits)
      ensures contourSteps == ContourSteps(log)
    {
      hide Step, NoOrphans, OneOwner, WellKinded, Versioned, Checked, Attributed;
      ContourStepsGrow(log, Record(event, t));
      AttributedGrows(log, visits, Record(event, t));
      StepKeepsInv(cfg, state, event, t);
      LegalGrows(cfg, log, Record(event, t));
      log := log + [Record(event, t)];
    }

    /** Enters one operator step on a Contour in the log. */
    ghost method EnterContour(event: Event, t: State)
      requires Valid() && Step(cfg, state, event, t) && IsContourStep(event) && WorksFor(event.name)
      modifies this`log, this`contourSteps
      ensures Legal(cfg, log) && log == old(log) + [Record(event, t)] && Inv(cfg, t) && Attributed(log, visits)
      ensures contourSteps == old(contourSteps) + 1 == ContourSteps(log)
    {
      hide Step, NoOrphans, OneOwner, WellKinded, Versioned, Checked, Attributed;
      ContourStepsGrow(log, Record(event, t));
      AttributedGrows(log, visits, Record(event, t));
      StepKeepsInv(cfg, state, event, t);
      LegalGrows(cfg, log, Record(event, t));
      log, contourSteps := log + [Record(event, t)], contourSteps + 1;
    }

    // ---- Objects ---------------------------------------------------------------------------

    method GetObject(key: Key) returns (reply: Reply<Object>)
      requires Valid()
      modifies this`state, this`clock, this`log
      ensures Advanced() && clock == old(clock) + 1
      ensures state.objects == old(state.objects)
      ensures old(Calm()) ==> state == old(state) && log == old(log)
      ensures reply.Failed? <==> old(Now()).fault != NoFault
      ensures old(Calm()) ==> !reply.Failed?
      ensures reply.Found? ==> At(state.objects, key) == Some(reply.value) && reply.value.Kind() == key.kind
      ensures reply.NotFound? ==> key !in state.objects
    {
      hide Attributed, Legal, ContourSteps, NoOrphans, OneOwner, Versioned, Evolves;
      if Now().fault != NoFault {
        reply := Failed;
      } else if key in state.objects {
        reply := Found(state.objects[key]);
      } else {
        reply := NotFound;
      }
      Users();
    }

    /** What the workload controllers last reported for an object, if it exists. */
    method GetHealth(key: Key) returns (reply: Reply<Health>)
      requires Valid()
      modifies this`state, this`clock, this`log
      ensures Advanced() && clock == old(clock) + 1
      ensures state.objects == old(state.objects)
      ensures old(Calm()) ==> state == old(state) && log == old(log)
      ensures forall n :: !Touches(old(Now()).acts, n) ==> At(state.contours, n) == At(old(state.contours), n)
      ensures reply.Failed? <==> old(Now()).fault != NoFault
      ensures old(Calm()) ==> !reply.Failed?
      ensures reply.Found? ==> key in state.objects && reply.value == HealthOf(old(state), key)
      ensures reply.NotFound? ==> key !in state.objects
    {
      hide Attributed, Legal, ContourSteps, NoOrphans, OneOwner, Versioned, Evolves;
      if Now().fault != NoFault {
        reply := Failed;
      } else if key in state.objects {
        reply := Found(HealthOf(state, key));
      } else {
        reply := NotFound;
      }
      Users();
    }

    method CreateObject(ghost who: Contour, ghost i: nat, key: Key, obj: Object) returns (ack: Ack)
      requires Valid() && WorksOn(who) && i < CHILDREN && key == KeyAt(cfg, who.spec.ns, i)
      requires MayWrite(cfg, state, who, i, Admitted(None, obj))
      modifies this`state, this`clock, this`log, this`writes
      ensures Advanced() && clock == old(clock) + 1
      ensures state.objects == old(state.objects)
        || (key !in old(state.objects) && state.objects == old(state.objects)[key := Admitted(None, obj)])
      ensures ack == Done || ack == Refused
      ensures ack == Done ==> key !in old(state.objects) && state.objects == old(state.objects)[key := Admitted(None, obj)]
      ensures ack == Done <==> old(Now()).fault == NoFault && key !in old(state.objects)
      ensures old(Now()).fault != Reject && key !in old(state.objects) ==> key in state.objects
      ensures old(Now()).fault == Reject ==> state.objects == old(state.objects)
      ensures old(Calm()) ==> OnlyObjects(old(state), state) && (key !in old(state.objects) ==> ack == Done)
    {
      hide Attributed, Legal, ContourSteps, Inv, Evolves, MayWrite, Admitted;
      writes := writes + 1;
      ack := Refused;
      if Now().fault != Reject && key !in state.objects {
        if Now().fault == NoFault {
          ack := Done;
        }
        var t := state.(objects := state.objects[key := Admitted(None, obj)]);
        Enter(Event.Create(who, i), t);
        SameContoursEvolve(state, t);
        state := t;
        Users();
        EvolvesTransitive(old(state), t, state);
      } else {
        Users();
      }
    }

    method UpdateObject(ghost who: Contour, ghost i: nat, key: Key, obj: Object) returns (ack: Ack)
      requires Valid() && WorksOn(who) && i < CHILDREN && key == KeyAt(cfg, who.spec.ns, i)
      requires key in state.objects && Owns(who.name, state.objects[key])
      requires MayWrite(cfg, state, who, i, Admitted(Some(state.objects[key]), obj))
      requires Updatable(state.objects[key], Admitted(Some(state.objects[key]), obj))
      modifies this`state, this`clock, this`log, this`writes
      ensures Advanced() && clock == old(clock) + 1
      ensures state.objects == old(state.objects)
        || state.objects == old(state.objects)[key := Admitted(Some(old(state.objects)[key]), obj)]
      ensures ack == Done || ack == Refused
      ensures ack == Done ==> state.objects == old(state.objects)[key := Admitted(Some(old(state.objects)[key]), obj)]
      ensures ack == Done <==> old(Now()).fault == NoFault
      ensures old(Calm()) ==> OnlyObjects(old(state), state) && ack == Done
    {
      hide Attributed, Legal, ContourSteps, Inv, Evolves, MayWrite, Admitted, Updatable;
      writes := writes + 1;
      ack := Refused;
      if Now().fault != Reject {
        if Now().fault == NoFault {
          ack := Done;
        }
        var t := state.(objects := state.objects[key := Admitted(Some(state.objects[key]), obj)]);
        Enter(Event.Update(who, i), t);
        SameContoursEvolve(state, t);
        state := t;
        Users();
        EvolvesTransitive(old(state), t, state);
      } else {
        Users();
      }
    }

    method DeleteObject(ghost who: Contour, ghost i: nat, key: Key, ghost checkedAt: nat) returns (ack: Ack)
      requires Valid() && WorksOn(who) && i < CHILDREN && key == KeyAt(cfg, who.spec.ns, i)
      requires key in state.objects ==> MayDelete(cfg, state, who, i)
      requires i < FIRST_WORKLOAD ==> checkedAt < |log| && Checked(log[checkedAt].state, who, i)
      modifies this`state, this`clock, this`log, this`writes
      ensures Advanced() && clock == old(clock) + 1
      ensures state.objects == old(state.objects) || (key in old(state.objects) && state.objects == old(state.objects) - {key})
      ensures ack == Done || ack == Missing || ack == Refused
      ensures ack == Done || ack == Missing ==> key !in state.objects
      ensures ack == Refused <==> old(Now()).fault != NoFault
      ensures old(Calm()) ==> OnlyObjects(old(state), state) && ack != Refused
    {
      hide Attributed, Legal, ContourSteps, Inv, Evolves, MayDelete, Checked;
      writes := writes + 1;
      ack := Refused;
      if Now().fault == NoFault && key !in state.objects {
        ack := Missing;
        Users();
      } else if Now().fault != Reject && key in state.objects {
        if Now().fault == NoFault {
          ack := Done;
        }
        var t := state.(objects := state.objects - {key});
        Enter(Event.Delete(who, i, checkedAt), t);
        SameContoursEvolve(state, t);
        state := t;
        Users();
        EvolvesTransitive(old(state), t, state);
      } else {
        Users();
      }
    }

    /** Somebody else changes or removes an object, between two requests. Forged owner labels
        are outside the model: such a change is ignored. */
    method TamperWith(key: Key, obj: Option<Object>)
      requires Valid()
      modifies this`state, this`log
      ensures Valid() && old(log) <= log && (old(Calm()) ==> Calm())
      ensures state.contours == old(state.contours) && OnlyAtKey(old(state.objects), state.objects, key)
    {
      hide Attributed, Legal, ContourSteps, NoOrphans, OneOwner, Versioned, OwnerOf;
      if obj.Some? {
        if obj.value.Kind() != key.kind {
          return;
        }
        if IsWorkload(key.kind) && OwnerOf(obj.value.labels).Some?
           && (key !in state.objects || OwnerOf(state.objects[key].labels) != OwnerOf(obj.value.labels)) {
          return;
        }
      }
      var t := state.(objects := Put(state.objects, key, obj));
      Enter(Event.Tamper(key), t);
      state := t;
    }

    // ---- Contours --------------------------------------------------------------------------

    method GetContour(n: Name) returns (reply: Reply<Contour>)
      requires Valid()
      modifies this`state, this`clock, this`log
      ensures Advanced() && clock == old(clock) + 1
      ensures state.objects == old(state.objects)
      ensures old(Calm()) ==> state == old(state) && log == old(log)
      ensures forall m :: !Touches(old(Now()).acts, m) ==> At(state.contours, m) == At(old(state.contours), m)
      ensures reply.Failed? <==> old(Now()).fault != NoFault
      ensures old(Calm()) ==> !reply.Failed?
      ensures reply.Found? ==> At(old(state.contours), n) == Some(reply.value)
      ensures reply.Found? ==> reply.value.name == n && reply.value.version <= old(state.version)
      ensures reply.NotFound? ==> n !in old(state.contours)
    {
      hide Attributed, Legal, ContourSteps, NoOrphans, OneOwner, WellKinded, Evolves;
      if Now().fault != NoFault {
        reply := Failed;
      } else if n in state.contours {
        reply := Found(state.contours[n]);
      } else {
        reply := NotFound;
      }
      Users();
    }

    /** All Contours, in some order. */
    method ListContours() returns (reply: Reply<seq<Contour>>)
      requires Valid()
      modifies this`state, this`clock, this`log
      ensures Advanced() && clock == old(clock) + 1
      ensures state.objects == old(state.objects)
      ensures old(Calm()) ==> state == old(state) && log == old(log)
      ensures reply.Failed? <==> old(Now()).fault != NoFault
      ensures old(Calm()) ==> !reply.Failed?
      ensures !reply.NotFound?
      ensures forall n :: !Touches(old(Now()).acts, n) ==> At(state.contours, n) == At(old(state.contours), n)
      ensures reply.Found? ==> Lists(reply.value, old(state.contours), old(state.contours).Keys)
    {
      hide Attributed, Legal, ContourSteps, NoOrphans, OneOwner, WellKinded, Evolves;
      if Now().fault != NoFault {
        reply := Failed;
      } else {
        var items := ItemsOf(state.contours);
        reply := Found(items);
      }
      Users();
    }

    /** Writes only the status of a Contour, if the stored one is still the version given. */
    method UpdateStatus(updated: Contour, ghost update: Condition) returns (ack: Ack)
      requires Valid() && WorksFor(updated.name)
      requires update.kind == AVAILABLE
      requires updated.name in state.contours && state.contours[updated.name].version == updated.version ==>
        updated.status.conditions == Conditions.Merge1(state.contours[updated.name].status.conditions, update)
      modifies this`state, this`clock, this`log, this`statusWrites, this`contourSteps
      ensures Advanced() && clock == old(clock) + 1 && statusWrites == old(statusWrites) + 1
      ensures state.objects == old(state.objects)
      ensures ack == Missing ==> updated.name !in old(state.contours)
      ensures ack == Refused <==> old(Now()).fault != NoFault
      ensures ack == Conflict ==>
        updated.name in old(state.contours) && old(state.contours)[updated.name].version != updated.version
      ensures var n := updated.name;
        if n in old(state.contours) && old(state.contours)[n].version == updated.version && old(Now()).fault != Reject
        then |log| > |old(log)| && log[|old(log)|] == Record(StatusUpdate(n, update), WithStatus(old(state), n, updated.status))
          && contourSteps == old(contourSteps) + 1
        else ack != Done && OnlyUsersSince(log, |old(log)|) && contourSteps == old(contourSteps)
      ensures old(Calm()) && updated.name in old(state.contours) && old(state.contours)[updated.name].version == updated.version ==>
        ack == Done && state == WithStatus(old(state), updated.name, updated.status)
    {
      hide Attributed, Legal, ContourSteps, Evolves, NoOrphans, OneOwner, WellKinded;
      statusWrites := statusWrites + 1;
      var n := updated.name;
      ack := Refused;
      if Now().fault == Reject {
        Users();
      } else if n !in state.contours {
        ack := if Now().fault == NoFault then Missing else Refused;
        Users();
      } else if state.contours[n].version != updated.version {
        ack := if Now().fault == NoFault then Conflict else Refused;
        Users();
      } else {
        if Now().fault == NoFault {
          ack := Done;
        }
        var t := WithStatus(state, n, updated.status);
        StatusEvolves(cfg, state, n, updated.status, update);
        EnterContour(Event.StatusUpdate(n, update), t);
        state := t;
        Users();
        EvolvesTransitive(old(state), t, state);
      }
    }

    /** Writes a Contour back; refused when the stored one has moved on since it was read.
        Dropping the operator's finalizer requires that the Contour owns no workload. */
    method UpdateContour(updated: Contour) returns (ack: Ack)
      requires Valid() && WorksFor(updated.name)
      requires updated.name in state.contours && state.contours[updated.name].version == updated.version ==>
        var stored := state.contours[updated.name];
        && updated.spec == stored.spec
        && (stored.IsFinalized() && !updated.IsFinalized() ==> NoWorkloadOf(state, updated.name))
      modifies this`state, this`clock, this`log, this`writes, this`contourSteps
      ensures Valid() && clock == old(clock) + 1 && old(log) <= log && (old(Calm()) ==> Calm())
      ensures state.objects == old(state.objects)
      ensures updated.IsFinalized() ==> Evolves(old(state), state)
      ensures var n := updated.name;
        if n in old(state.contours) && old(state.contours)[n].version == updated.version && old(Now()).fault != Reject
        then |log| > |old(log)| && log[|old(log)|] ==
          Record(Event.Finalizers(n), WithContour(old(state), old(state.contours)[n].(finalizers := updated.finalizers)))
          && contourSteps == old(contourSteps) + 1
        else ack != Done && OnlyUsersSince(log, |old(log)|) && contourSteps == old(contourSteps)
      ensures old(Now()).fault == NoFault && updated.name in old(state.contours) ==>
        (old(state.contours)[updated.name].version == updated.version ==> ack == Done)
      ensures ack == Done && updated.IsFinalized() ==> Holds(state, updated.name, updated.spec.ns)
      ensures old(Calm()) && updated.name in old(state.contours) && old(state.contours)[updated.name].version == updated.version ==>
        ack == Done && state == WithContour(old(state), old(state.contours)[updated.name].(finalizers := updated.finalizers))
    {
      hide Attributed, Legal, ContourSteps, Evolves, NoOrphans, OneOwner, WellKinded, NoWorkloadOf, OnlyObjects, Touches, Step,
        WithContour, Holds;
      writes := writes + 1;
      var n := updated.name;
      ack := Refused;
      if Now().fault == Reject {
        Users();
      } else if n !in state.contours {
        ack := if Now().fault == NoFault then Missing else Refused;
        Users();
      } else if state.contours[n].version != updated.version {
        ack := if Now().fault == NoFault then Conflict else Refused;
        Users();
      } else {
        if Now().fault == NoFault {
          ack := Done;
        }
        var t := WithContour(state, state.contours[n].(finalizers := updated.finalizers));
        FinalizersLegal(cfg, state, n, updated.finalizers);
        EnterContour(Event.Finalizers(n), t);
        if updated.IsFinalized() {
          PutKeeps(cfg, state, state.contours[n].(finalizers := updated.finalizers));
        }
        state := t;
        Users();
        if updated.IsFinalized() {
          EvolvesTransitive(old(state), t, state);
          HoldStays(t, state, n, updated.spec.ns);
        }
      }
    }
  }

  lemma Begun(cli: Cluster)
    requires cli.Valid()
    ensures cli.log != [] && Inv(cli.cfg, cli.state)
  {
  }

  lemma LastIsNow(cli: Cluster)
    requires cli.Valid()
    ensures cli.log != [] && cli.log[|cli.log| - 1].state == cli.state
  {
  }

  method ItemsOf(contours: map<Name, Contour>) returns (items: seq<Contour>)
    requires forall n :: n in contours ==> contours[n].name == n
    ensures Lists(items, contours, contours.Keys)
  {
    items := [];
    var left := contours.Keys;
    while left != {}
      invariant left <= contours.Keys
      invariant Lists(items, contours, contours.Keys - left)
    {
      var n :| n in left;
      ghost var before := items;
      items := items + [contours[n]];
      left := left - {n};
      assert items[|before|].name == n;
      forall m | m in contours.Keys - left ensures Listed(items, m) {
        if m != n {
          assert Listed(before, m);
          var i :| 0 <= i < |before| && before[i].name == m;
          assert items[i].name == m;
        }
      }
    }
    assert contours.Keys - left == contours.Keys;
  }

  lemma FaultWidens(script: seq<Turn>, from: nat, until: nat, from': nat, until': nat)
    requires from' <= from <= until <= until'
    ensures Faultless(script, from', until') ==> Faultless(script, from, until)
  {
  }

  function WithStatus(s: State, n: Name, status: Status): State
    requires n in s.contours
  {
    s.(contours := s.contours[n := s.contours[n].(status := status, version := s.version + 1)], version := s.version + 1)
  }

  lemma StatusEvolves(cfg: Config, s: State, n: Name, status: Status, update: Condition)
    requires n in s.contours && Inv(cfg, s)
    requires update.kind == AVAILABLE && status.conditions == Conditions.Merge1(s.contours[n].status.conditions, update)
    ensures Evolves(s, WithStatus(s, n, status)) && Step(cfg, s, StatusUpdate(n, update), WithStatus(s, n, status))
  {
    hide NoOrphans, OneOwner, WellKinded;
  }

  lemma HoldStays(s: State, t: State, n: Name, ns: string)
    requires Evolves(s, t) && Holds(s, n, ns)
    ensures Holds(t, n, ns)
  {
  }

  lemma FinalizersLegal(cfg: Config, s: State, n: Name, finalizers: seq<string>)
    requires n in s.contours && s.contours[n].name == n
    requires s.contours[n].IsFinalized() && FINALIZER !in finalizers ==> NoWorkloadOf(s, n)
    ensures var t := WithContour(s, s.contours[n].(finalizers := finalizers));
      && Step(cfg, s, Event.Finalizers(n), t) && t.objects == s.objects
      && (FINALIZER in finalizers ==> Holds(t, n, s.contours[n].spec.ns))
  {
    hide NoWorkloadOf;
  }

  ghost predicate OnlyAtKey(a: map<Key, Object>, b: map<Key, Object>, key: Key) {
    forall k :: k != key ==> At(a, k) == At(b, k)
  }

  function HealthOf(s: State, key: Key): Health {
    if key in s.health then s.health[key] else Health(0, [])
  }

  lemma SameContoursEvolve(s: State, t: State)
    requires t.contours == s.contours && t.version == s.version
    ensures Evolves(s, t)
  {
  }

  lemma ActTouchesOne(s: State, act: UserAct, n: Name)
    requires act.Report? || act.name != n
    ensures At(Act(s, act).contours, n) == At(s.contours, n)
  {
  }

  /** A list of the Contours with these names, each once. */
  ghost predicate Lists(items: seq<Contour>, contours: map<Name, Contour>, names: set<Name>) {
    && (forall i :: 0 <= i < |items| ==> items[i].name in names && At(contours, items[i].name) == Some(items[i]))
    && (forall i, j :: 0 <= i < j < |items| ==> items[i].name != items[j].name)
    && (forall n :: n in names ==> Listed(items, n))
  }

  ghost predicate Listed(items: seq<Contour>, n: Name) {
    exists i :: 0 <= i < |items| && items[i].name == n
  }
}
