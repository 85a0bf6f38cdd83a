/** The distance of a child from settled, and how attempts change it. */
module Ranks {
  import opened Wrappers
  import opened Api
  import opened Builders
  import opened Equality
  import opened Children

  lemma RankAfterWrite(cfg: Config, contour: Contour, i: nat, stored: Option<Object>, written: Object)
    requires i < CHILDREN && written.Kind() == Desired(cfg, contour, i).Kind()
    requires Drift(written, Desired(cfg, contour, i), Publishing(contour, i)) == Same
    requires Owns(contour.name, written) && !SelectorDiffers(written, Desired(cfg, contour, i))
    ensures Fits(cfg, contour, i, Some(Admitted(stored, written)))
    ensures Rank(cfg, contour, i, Some(Admitted(stored, written))) ==
      if written.body.Service? && Publishing(contour, i).NodePortService?
         && exists k :: 0 <= k < |written.body.service.ports| && written.body.service.ports[k].nodePort.Unset?
      then 1 else 0
  {
    AdmittedKeeps(stored, written);
    AdmittedSettled(cfg, contour, i, stored, written);
  }

  lemma DesiredIsSettled(cfg: Config, contour: Contour, i: nat)
    requires i < CHILDREN
    ensures Drift(Desired(cfg, contour, i), Desired(cfg, contour, i), Publishing(contour, i)) == Same
    ensures Owns(contour.name, Desired(cfg, contour, i))
  {
    var desired := Desired(cfg, contour, i);
    DesiredFits(cfg, contour, i);
    DriftIffManagedDiffer(desired, desired, Publishing(contour, i));
  }

  /** What an update writes, for an owned object that drifted. */
  lemma RepairIsSettled(cfg: Config, contour: Contour, i: nat, current: Object)
    requires i < CHILDREN && current.Kind() == Desired(cfg, contour, i).Kind()
    requires Owns(contour.name, current) && !SelectorDiffers(current, Desired(cfg, contour, i))
    requires Drift(current, Desired(cfg, contour, i), Publishing(contour, i)).Drifted?
    ensures var written := Repair(cfg, contour, i, Drift(current, Desired(cfg, contour, i), Publishing(contour, i)).updated);
      && written.Kind() == Desired(cfg, contour, i).Kind()
      && Owns(contour.name, written) && !SelectorDiffers(written, Desired(cfg, contour, i))
      && Drift(written, Desired(cfg, contour, i), Publishing(contour, i)) == Same
      && (i == ENVOY_SERVICE && contour.spec.publishing.NodePortService? ==>
            written.body.service.ports == EnvoyPorts(contour.spec))
  {
    var desired := Desired(cfg, contour, i);
    DesiredFits(cfg, contour, i);
    DesiredIsSettled(cfg, contour, i);
    DriftIsRepairedOnce(current, desired, Publishing(contour, i));
    RepairLabels(current, desired, Publishing(contour, i));
  }

  /** What the store holds once an owned, drifted object has been updated: of a ConfigMap the
      labels it had, of the Envoy Service whatever a repair leaves alone, and otherwise the
      desired object and nothing else; the Contour Service gives up foreign labels and
      annotations but keeps its cluster IP. */
  lemma UpdateLeaves(cfg: Config, contour: Contour, i: nat, current: Object)
    requires i < CHILDREN && current.Kind() == Desired(cfg, contour, i).Kind()
    requires Owns(contour.name, current) && !SelectorDiffers(current, Desired(cfg, contour, i))
    requires Drift(current, Desired(cfg, contour, i), Publishing(contour, i)).Drifted?
    ensures var desired, left := Desired(cfg, contour, i), Next(cfg, contour, i, Some(current));
      && left.Some? && left.value.Kind() == desired.Kind()
      && (i == 10 ==> left.value == Object(current.labels, desired.body))
      && (i == CONTOUR_SERVICE ==>
            && left.value.labels == desired.labels && left.value.body.annotations == map[]
            && left.value.body.service.ports == desired.body.service.ports
            && left.value.body.service.clusterIP == (if current.body.service.clusterIP.Unset? then Auto else current.body.service.clusterIP))
      && (i == ENVOY_SERVICE ==>
            && left.value.labels == current.labels
            && (!current.body.service.clusterIP.Unset? ==> left.value.body.service.clusterIP == current.body.service.clusterIP))
      && (i !in {10, CONTOUR_SERVICE, ENVOY_SERVICE} ==> left.value == desired)
  {
    hide EnvoyPorts, OwnerOf;
    var desired := Desired(cfg, contour, i);
    DesiredFits(cfg, contour, i);
    var updated := Drift(current, desired, Publishing(contour, i)).updated;
    AdmittedKeeps(if i == JOB then None else Some(current), Repair(cfg, contour, i, updated));
    if i in {CONTOUR_SERVICE, ENVOY_SERVICE} {
      DriftKeepsService(current, desired, Publishing(contour, i));
    }
  }

  lemma DriftKeepsService(current: Object, desired: Object, publishing: PublishingType)
    requires current.body.Service? && desired.body.Service? && Drift(current, desired, publishing).Drifted?
    ensures var updated := Drift(current, desired, publishing).updated;
      updated.body.Service? && updated.labels == current.labels
      && updated.body.service.clusterIP == current.body.service.clusterIP
  {
  }

  /** One undisturbed attempt settles a child, or on a selector mismatch removes it so that
      the next one can. It makes progress exactly when the child is one that settles. */
  lemma NextIsCloser(cfg: Config, contour: Contour, i: nat, current: Option<Object>)
    requires i < CHILDREN && Fits(cfg, contour, i, current)
    ensures Fits(cfg, contour, i, Next(cfg, contour, i, current))
    ensures Rank(cfg, contour, i, Next(cfg, contour, i, current)) <= Rank(cfg, contour, i, current)
    ensures Rank(cfg, contour, i, current) == 0 ==> Next(cfg, contour, i, current) == current
    ensures Rank(cfg, contour, i, current) > 0 ==>
      (Rank(cfg, contour, i, Next(cfg, contour, i, current)) < Rank(cfg, contour, i, current) <==> Settles(cfg, contour, i, current))
    ensures Rank(cfg, contour, i, Next(cfg, contour, i, current)) <= 1
  {
    hide EnvoyPorts;
    var desired := Desired(cfg, contour, i);
    DesiredFits(cfg, contour, i);
    DesiredIsSettled(cfg, contour, i);
    if current.None? {
      RankAfterWrite(cfg, contour, i, None, desired);
    } else if Owns(contour.name, current.value) && !SelectorDiffers(current.value, desired) {
      var verdict := Drift(current.value, desired, Publishing(contour, i));
      DriftPanicsIff(current.value, desired, Publishing(contour, i));
      if verdict.Drifted? {
        RepairIsSettled(cfg, contour, i, current.value);
        RankAfterWrite(cfg, contour, i, if i == JOB then None else current, Repair(cfg, contour, i, verdict.updated));
      }
    }
  }

  /** No attempt, however it is disturbed, takes a child further away. */
  lemma PossibleIsNoWorse(cfg: Config, contour: Contour, i: nat, before: Option<Object>, after: Option<Object>)
    requires i < CHILDREN && Fits(cfg, contour, i, before) && Possible(cfg, contour, i, before, after)
    ensures Fits(cfg, contour, i, after)
    ensures Rank(cfg, contour, i, after) <= Rank(cfg, contour, i, before)
  {
    NextIsCloser(cfg, contour, i, before);
  }
}
