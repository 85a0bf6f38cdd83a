# Contour operator: a verified model of the reconciler

The operator keeps, for every `Contour` resource, sixteen objects in a Kubernetes API server: a
namespace, nine RBAC objects, and six workloads (a ConfigMap, a Job, a Deployment, a DaemonSet and two
Services). This project models the reconciler as a state machine over a shared store in which any call
may fail and users may step in between any two calls, and proves what every run keeps, how far a run is
from done, and what the operator leaves alone.

## How the model is laid out

* `Api`, `Children`: the resources and the sixteen children of a Contour. Rendered content the
  operator only compares (rule lists, pod templates, the configuration text) is a term over the inputs it
  depends on; labels, selectors, ports, role references and owners are spelled out. `Next`, `Possible`
  and `Rank` specify one attempt at a child: where it leads undisturbed, what it may leave when calls
  fail, and how far the child then is from settled.
* `Protocol`: the state of the store, what users may do, what a legal operator step is, and the
  invariant all steps keep. `Cluster` is the API server as a class. A script fixes, call by call, whether
  the call fails without effect, takes effect but reports an error, or works, and what users do right
  after it. A ghost log holds every state the store was in and the step that led there; `Valid` says
  that all of it is legal.
* `Equality`, `Builders`, `Validation`, `Slice`, `Retryable`, `Conditions`: drift detection, the
  Envoy Service and its ports, spec validation, list helpers, error aggregation and status conditions.
* `Contours`, `Ensure`, `Rbac`, `Deletion`, `StatusSync`: the operator's calls, object by object.
  `Ensure.EnsureObject` stands for all objects that are got, created, or updated if owned: the namespace,
  service accounts, roles, bindings, the ConfigMap and the Contour Service, which the repository writes out
  once per kind in packages under internal/objects. `Ensure.EnsureObjectDeleted` does the same for deletions.
* `EnsurePass`, `DeletePass`, `Controller`, `Run`: the two passes, one request, and whole runs.
* `Safety`, `Convergence`, `Progress`, `Laws`, `Isolation`: the main results about runs. `Laws` says what
  every item of a run keeps to, faults and users or not, and what follows for departures and for the status.

## Where the code does less than its comments say

* The test for other Contours compares only names when a single Contour is left, so it is wrong exactly
  when the asking Contour is already gone and the one left is a namesake in another namespace
  (`Contours.ShortcutIff`). A namespace still in use then passes the deletion check
  (`Safety.MisfireExample`); it cannot happen to a Contour that holds the finalizer.
* The node port check compares pointers, looks at the first two entries only, and reads past the end of a
  list with fewer than two (`Validation.CheckDocumented`, `Validation.NodePorts`,
  `Validation.LetThroughExamples`). The API type admits exactly two entries
  (api/v1alpha1/contour_types.go:299-300), so of these only one number given through two pointers can
  come from the server; the others need a Contour that did not pass through it.
* `mergeConditions` stops at the first stale entry, not at the first of the right type, so merging twice
  equals merging once exactly when at most one entry of that type is stale
  (`Conditions.MergeIdempotentIff`, `Conditions.MergeTwiceExample`). The API type keeps one entry per
  type (api/v1alpha1/contour_types.go:605-606), so two stale ones cannot come from the server, and in
  a run that starts with one per type there is never a second (`Safety.StatusesStayUnique`).
* An Envoy Service published by node port with a number left open never settles: the server fills the
  number in and each pass asks for it to be unset (`Convergence.EnvoyNeverSettles`). With more stored
  ports than desired ones the comparison crashes (`Equality.NodePortServiceChanged`).
* When RBAC is deleted the service accounts go before the cluster role binding that names one, and that
  binding stays while any other Contour exists, so it can outlive its account (internal/objects/rbac.go:126-157).
* A failed read of the Deployment, other than not found, crashes the operator (`Ensure.EnsureDeployment`).
* Errors are wrapped before they are aggregated, so the branch that requeues after a delay is never
  taken (`Retryable.WrappingHidesRetry`, `Controller.Reconcile`).

## Model

| member | source | states |
|---|---|---|
| Api.GuardReadsOwner | pkg/labels/labels.go:19-30 | The ownership guard passes exactly for the Contour the two owner labels name, so no two Contours pass it on one object |
| Api.AddedLabelsName | internal/objects/contour/contour.go:144-149 | Adding the owner labels to any others names that owner: its name under the one label, its namespace under the other, and nothing else changes |
| Slice.RemoveString | pkg/slice/slice.go:18-32 | Returns the list without any occurrence of the string |
| Slice.WithoutCounts | pkg/slice/slice.go:18-32 | Every other string occurs as often as before, the removed one not at all |
| Slice.WithoutKeepsOrder | pkg/slice/slice.go:18-32 | Removal distributes over concatenation, so what stays keeps its order |
| Slice.RemoveUndoesAppend | pkg/slice/slice.go:18-32 | Removing a string just appended to a list that lacked it gives the list back |
| Slice.ContainsString | pkg/slice/slice.go:35-42 | True exactly when the string is in the list |
| Slice.ContainsInt32 | pkg/slice/slice.go:45-52 | True exactly when the number is in the list |
| Retryable.NewMaybeRetryableAggregate | internal/retryableerror/retryableerror.go:53-72 | The loop computes the specified aggregate |
| Retryable.EarliestIsMinimum | internal/retryableerror/retryableerror.go:53-72 | The delay of a retryable aggregate is a lower bound that some entry attains |
| Retryable.ClassOf | internal/retryableerror/retryableerror.go:47-72 | Nil exactly when all entries are nil; retryable exactly when some entry is not nil and every such entry is retryable |
| Retryable.AggregationComposes | internal/retryableerror/retryableerror.go:53-72 | Aggregating the aggregates of two lists gives the kind and delay of aggregating their concatenation |
| Retryable.WrappingHidesRetry | internal/controller/controller.go:178-193 | A list of wrapped errors never aggregates to a retryable one |
| Equality.LoadBalancerServiceChanged | internal/equality/equality.go:170-234 | The in-place patch computes the specified one for port lists of any lengths, on a copy |
| Equality.NodePortServiceChanged | internal/equality/equality.go:239-285 | The same for node port publishing, crashing exactly when more ports are stored than desired, where the loop reads past the desired ones |
| Equality.DriftIffManagedDiffer | internal/equality/equality.go:28-285 | A comparison reports no change exactly when everything the operator manages agrees |
| Equality.DriftIsRepairedOnce | internal/equality/equality.go:28-285 | A reported change, once applied, is not reported again; it makes all managed fields agree and keeps what is not managed: labels of ConfigMaps and Services, cluster IP, node ports of load balancers, the address of other Services, annotations and traffic policy of cluster-internal ones |
| Builders.EnvoyServicePorts | internal/objects/service/service.go:221-250 | The loop over container ports computes the specified service ports |
| Builders.ApplyNodePorts | internal/objects/service/service.go:323-335 | The nested loops write the specified node ports in place |
| Builders.DesiredEnvoyService | internal/objects/service/service.go:221-340 | Builds, step by step, the Service that Builders.EnvoyServiceSpelled describes, for every publishing type |
| Builders.EnvoyServiceSpelled | internal/objects/service/service.go:244-337 | The Service type for each publishing type; traffic policy Local exactly for the two that are reached from outside; address and annotations of the spec for load balancers and none otherwise; it selects the Envoy pods |
| Builders.LastNumberWins | internal/objects/service/service.go:323-335 | A service port gets the last number given under its name, keeps its own without one, and nothing else about it changes |
| Builders.ValidatedPortsBuildService | pkg/validation/validation.go:63-88 | From any accepted container port list the Service has exactly http at 80 and https at 443, each aimed at the one container port of its name, and the targets differ |
| Builders.NodePortsLandByName | internal/objects/service/service.go:323-335 | For node port publishing each number lands on the port of its own name; a port without one, or with zero, stays unset |
| Builders.TargetIsUnique | pkg/validation/validation.go:63-88 | In an accepted list a name decides the target port |
| Validation.ContainerPorts | pkg/validation/validation.go:63-88 | Accepts exactly lists with distinct numbers and names that hold http and https |
| Validation.NodePorts | pkg/validation/validation.go:92-113 | Exactly which lists are accepted, and which crash the check |
| Validation.CheckDocumented | pkg/validation/validation.go:90-113 | The check meets the documented rule except on exactly characterized lists that it lets through |
| Validation.LetThroughExamples | pkg/validation/validation.go:99-110 | Lists the check lets through against the documented rule, and one it crashes on |
| Conditions.ComputeContourAvailableCondition | internal/status/conditions.go:29-110 | The scan computes the specified condition |
| Conditions.AvailableIff | internal/status/conditions.go:29-110 | Reported available exactly when both workloads exist, the Deployment's first decisive Available condition is true and some Envoy pod is available |
| Conditions.DecidedSays | internal/status/conditions.go:53-100 | When a Deployment condition decides, which status, reason and message are reported: True only with an available Envoy pod, False where the Deployment denies it or no pod is available, Unknown where it does not know |
| Conditions.UndecidedSays | internal/status/conditions.go:34-52 | A missing Deployment and a missing DaemonSet are False, told apart by message; a Deployment with nothing decisive to say is Unknown |
| Conditions.StatusIff | internal/status/conditions.go:29-110 | Exactly when False and exactly when Unknown is reported, in terms of the two healths, and that the reason ContourAvailable means True |
| Conditions.Lowered | internal/status/conditions.go:74-90 | Only upper-case ASCII letters of the message change, to their lower-case ones |
| Conditions.MergeConditions | internal/status/conditions.go:116-142 | The nested loops, overwriting the given array, compute the specified merge |
| Conditions.MergeIdempotentIff | internal/status/conditions.go:116-142 | Merging the same update twice equals merging it once exactly when at most one entry of its type is stale |
| Conditions.MergeTwiceExample | internal/status/conditions.go:121-133 | A list with two stale entries on which merging twice differs from merging once |
| Conditions.MergeKeepsUnique | internal/status/conditions.go:116-142 | Merging keeps condition types unique |
| Conditions.MergeChangesIff | internal/status/conditions.go:116-146 | With unique types a merge changes the list exactly when the type is missing or says something else, whatever the time |
| Conditions.TransitionTimeLaw | internal/status/conditions.go:116-146 | Over any sequence of Available updates from the empty list there is one entry, with the last update's content and the time of the first update of the trailing block of equal statuses |
| StatusSync.SyncWritesIff | internal/status/status.go:51-70 | A sync writes exactly when a count or the Available entry's status, reason or message differs from what is stored |
| StatusSync.SyncSettles | internal/status/status.go:51-70 | A second sync with the same readings has nothing to write, at whatever time |
| StatusSync.MovedMeansDisturbed | internal/status/status.go:77-82 | A Contour that moved during an attempt used up one of the other writers' interventions |
| StatusSync.NewStatus | internal/status/status.go:51-68 | Counts are taken where a workload was read, and the merge works on a copy of the stored conditions |
| StatusSync.SyncContour | internal/status/status.go:34-89 | With k interventions by other writers at most k+1 attempts of four calls; each attempt writes exactly when what it read calls for another status than the one it read, so the number of status writes is exact whatever users do; what is written is laid over the very Contour that was read, so no other change is lost; there is no error exactly if every attempt read both workloads and the last call worked, a Contour that is gone being none; without an error, or without faults however often it conflicts, the status was written, already right, or the Contour gone |
| Contours.ShortcutIff | internal/objects/contour/contour.go:100-109 | The answer is right exactly unless the asking Contour is gone and the only one left is a namesake |
| Contours.OtherContoursExist | internal/objects/contour/contour.go:100-109 | The same for the call, over the Contours in the store at that moment |
| Contours.OtherContoursExistInSpecNs | internal/objects/contour/contour.go:113-130 | True exactly when a different Contour has the same spec namespace and the shortcut does not misfire |
| Contours.ValidateContour | pkg/validation/validation.go:28-60 | Accepted, rejected and crashed are decided exactly, under any faults, by whether the list worked, whether somebody was seen to share the namespace at that moment, and the spec; an accepted Contour that is in the store has its namespace to itself then |
| Contours.EnsureFinalizer | internal/objects/contour/finalizer.go:29-38 | Success means the finalizer was appended to the very Contour that was read, in one write that changed nothing else; undisturbed it succeeds; no finalizer is ever taken off |
| Contours.EnsureFinalizerRemoved | internal/objects/contour/finalizer.go:42-52 | Success means exactly the operator's finalizer went from the very Contour that was read, the others staying in order; if the write works and the Contour is still as it was read it succeeds, whatever else users do, and if a working write does not succeed nothing was written; the removal needs a Contour that owns no workload |
| Cluster.Cluster.UpdateContour | internal/objects/contour/finalizer.go:29-52 | A write against an old version is refused and changes nothing; otherwise the finalizers are replaced, and a Contour being deleted disappears with its last one |
| Children.DesiredFits | internal/objects/contour/contour.go:144-149 | Every desired child names the Contour as owner, and the Job's template does too |
| Children.KeysDistinct | internal/controller/controller.go:195-216 | The sixteen children are different objects |
| Children.KeysDisjoint | internal/objects/rbac.go:50-84 | Children of Contours with different spec namespaces are different objects, cluster-scoped ones included |
| Children.ChildrenAre | internal/objects/rbac.go:36-84 | The children are exactly the sixteen objects of these kinds and names |
| Children.WorkloadsFitTogether | internal/objects/daemonset/daemonset.go:314-359 | Each Service selects the pods that one workload makes and owns; every pod runs as one of the three service accounts, the certificate Job as contour-certgen; Envoy is configured at 8001 |
| Children.EnvoyServiceReachesPods | internal/objects/daemonset/daemonset.go:128-136 | From accepted container ports every port of the Envoy Service aims at a port of the same name that the DaemonSet opens |
| Children.SettingsReach | internal/controller/controller.go:195-216 | Which settings and images reach which child: two specs or configurations call for the same object exactly if these agree |
| Children.LabelsSpelled | internal/objects/job/job.go:147-157 | Every child carries the owner labels, and the Deployment, DaemonSet and Job also the recommended ones |
| Children.NextIsOwned | internal/objects/job/job.go:184-201 | An attempt leaves the old object or one that names the Contour, and removes only a Deployment or DaemonSet it owns |
| Children.RemovesIff | internal/objects/deployment/deployment.go:80-86 | An attempt removes exactly an owned Deployment or DaemonSet with another pod selector |
| Children.ServerAssigns | internal/equality/equality.go:167-169 | Ports left open get a number from the server for load balancers and node port publishing, and only there |
| Ranks.RepairIsSettled | internal/equality/equality.go:28-443 | What an update writes is not reported as drifted again |
| Ranks.UpdateLeaves | internal/objects/service/service.go:379-418 | What an update of a drifted object leaves in the store, child by child: ConfigMap and Envoy Service keep their labels, the Contour Service is replaced but for its cluster IP, the others become exactly the desired object |
| Ranks.NextIsCloser | internal/objects/deployment/deployment.go:80-86 | An undisturbed attempt never raises the distance, leaves settled children alone, and makes progress exactly for a child that settles |
| Ranks.PossibleIsNoWorse | internal/objects/job/job.go:184-201 | No attempt raises the distance, whichever of its calls fail |
| Protocol.StepKeepsInv | internal/controller/controller.go:115-257 | Every legal step of users, others and the operator keeps: one owner per namespace, and no workload whose owner is gone, unfinalized or of another namespace |
| Protocol.ValidatedIsTenant | internal/controller/controller.go:132-157 | A finalized Contour whose namespace nobody shares finds no workload of anybody else there |
| Protocol.TenantStays | internal/controller/controller.go:173-216 | Users and the Contour's own writes do not end that |
| Ensure.EnsureObject | internal/objects/namespace/namespace.go:36-54 | Get, create, update if owned: only that child changes, to a value an attempt may leave; no error means it is where it should be; a settled child costs no write; without faults there is no error |
| Ensure.EnsureDeployment | internal/objects/deployment/deployment.go:69-90 | The same, deleting on a selector mismatch; crashes exactly when the first read fails |
| Ensure.EnsureDaemonSet | internal/objects/daemonset/daemonset.go:73-92 | The same, with the failed read reported |
| Ensure.EnsureJob | internal/objects/job/job.go:57-72 | The same for the Job, which is deleted and created anew when it drifted |
| Ensure.RecreateJobIfNeeded | internal/objects/job/job.go:184-201 | Only a drifted Job is touched, and after a failure it may be missing |
| Ensure.RetryJobCreate | internal/objects/job/job.go:213-224 | Success means the Job is there; it fails exactly if four tries in a row were rejected, or one whose answer was lost came before any that worked |
| Ensure.EnsureEnvoyService | internal/objects/service/service.go:137-151 | The same for the Envoy Service, crashing exactly when the first read works and the comparison reads past the desired ports |
| Ensure.CompareEnvoyService | internal/objects/service/service.go:394-418 | Each publishing type uses its own comparison |
| Ensure.EnsureObjectDeleted | internal/objects/deployment/deployment.go:92-111 | Only an owned workload is deleted; no error means none of ours is left |
| Ensure.WriteAllowed | internal/objects/rbac.go:61-82 | Whatever an attempt writes is a legal step: owned, of the right kind, a binding's role present |
| Rbac.EnsureRBAC | internal/objects/rbac.go:50-84 | The nine RBAC objects are attempted in order up to the first failure; those before it are where they should be, those after it as they were; without an error each of the three bindings gives its one service account its one role, with the rules meant for it, and account and role exist |
| Rbac.AttemptsJoin | internal/controller/controller.go:173-216 | Consecutive attempts at ranges of children compose |
| Deletion.EnsureRBACDeleted | internal/objects/rbac.go:88-174 | Only owned objects go; those another Contour was seen to need stay as they were; without an error none of ours is left of the others |
| Deletion.CollectDeletable | internal/objects/rbac.go:88-158 | Collects exactly what exists of the namespaced objects, or none exactly if another Contour is seen to share the namespace, and of the cluster objects, or none exactly if another Contour is seen at all |
| Deletion.DeleteEntries | internal/objects/rbac.go:159-172 | Only collected objects that name the Contour go, in order up to the first failure, which is the last call made; without an error none is left |
| Deletion.EntryDeletable | internal/objects/rbac.go:97-172 | When a role's turn comes none of our bindings to it is left, and when a service account's turn comes none of our role bindings to it |
| Deletion.EnsureNamespaceDeleted | internal/objects/namespace/namespace.go:61-93 | A deletion is expected exactly if asked for and the name is none of contour-operator, default and kube-system; if not, no call is made; only an owned namespace goes, and it stays as it was if another Contour was seen to share it |
| EnsurePass.EnsureWorkloads | internal/controller/controller.go:199-214 | A workload whose own calls work is where it should be, whatever failed before it; the result is nil exactly if every step succeeded |
| EnsurePass.EnsureFoundation | internal/controller/controller.go:195-196 | The namespace is where it should be if its own calls work, and so are all nine RBAC objects, whatever became of the namespace; there is an error exactly if one of the two failed |
| EnsurePass.EnsureContour | internal/controller/controller.go:173-216 | The result is nil exactly if the namespace, RBAC, every workload and the status sync succeeded; no workload is touched unless the first two did; past that gate each is tried, and in either case the status is synced at the end; each step is where it should be if its own calls work; it crashes exactly past the gate if the read of the Deployment fails, or the Envoy Service is read and has too many ports; without faults all children arrive whatever users do; a settled Contour costs no write |
| EnsurePass.AttemptsWriteOwned | pkg/labels/labels.go:19-30 | A pass changes an object only if it was absent or owned, and leaves it absent or owned |
| DeletePass.ClearedMeansNone | internal/controller/controller.go:231-254 | With its six keys clear, a Contour owns no workload anywhere |
| DeletePass.EnsureContourDeleted | internal/controller/controller.go:219-257 | Only owned children go, and of RBAC and the namespace only what nobody else was seen to need; each of the eight steps is done if its own calls work, whatever became of the others; the Contour is written only once all that is gone, even if the answer to the write is lost; without faults one pass takes the finalizer off and keeps the others in order, whatever users do elsewhere, unless the Contour is no longer as it was read, and then it writes nothing |
| Controller.SweptAlone | internal/objects/rbac.go:92-159 | A finished deletion leaves no workload, no namespaced RBAC object of a Contour that had its namespace to itself, and no cluster RBAC object of the only Contour |
| Controller.ReconcileDesired | internal/controller/controller.go:132-157 | The same for a Contour that is to stay: validated before anything is done, given the finalizer first, its children ensured only once it has it |
| Controller.ReconcileDeleted | internal/controller/controller.go:158-168 | The same for a Contour that is to go: exactly the doomed children go, the others stay; the Contour is written, or its finalizer gone, only once they are swept, answer or no answer; without faults the request finishes unless the Contour changed meanwhile |
| Controller.Reconcile | internal/controller/controller.go:115-170 | One request, under any faults: which objects may change and how; that a nil result means the finalizer was written, all children and the status are done, or everything was cleared and the finalizer released; that a Contour that stays keeps its finalizer, and one that goes is written only after the sweep; how many status writes there are, and where in the log the one that took effect is; that without faults a Contour that goes is finished with unless a user changed it meanwhile; that no delayed requeue is ever asked for; under any faults, exactly when it crashes: the Contour was read, is to stay, nobody was seen to share its namespace, and its spec crashes the check, or it is served and its pass crashes; what a request without faults achieves whatever users do; and exactly what an undisturbed request leaves and answers |
| Run.HandleWork | internal/controller/controller.go:115-170 | Requests are taken up in order until the first one with a cause to crash, every state of the run satisfies the invariant, and every item keeps to the laws on status writes, departures and crashes; a valid Contour with a namespace of its own gets as far as its fault-free requests bring it, whatever users, failed requests and requests for others do in between; once settled, requests for it issue no write, faults or not |
| Progress.GoodRequestAdvances | internal/controller/controller.go:132-157 | A fault-free request adds the finalizer, or brings every rank to at most one, or settles everything |
| Progress.OwnRequestKeeps | internal/controller/controller.go:173-216 | No request for the Contour, whichever calls fail and whatever users do, takes back what was reached |
| Progress.OtherRequestKeeps | internal/objects/rbac.go:50-84 | Nor does any request, deletions included, for a Contour with another spec namespace |
| Progress.HoldsMeanwhile | internal/objects/contour/finalizer.go:42-52 | While a request for another Contour is handled the finalizer stays |
| Progress.NextSyncIsQuiet | internal/status/status.go:70-71 | A sync that finds the status as an earlier one left it, and the same health, writes none, whatever happened in between |
| Run.ThreeGoodRequestsSettle | internal/controller/controller.go:115-170 | Three fault-free requests, wherever they fall in a run, bring the distance to zero, finalizer included |
| Laws.CrashHasCause | internal/controller/controller.go:115-216 | A run ends early only at a request with one of the exact causes; without faults it takes node port publishing with a list that is too short, or stored ports beyond the desired ones |
| Laws.ReleasedByItem | internal/controller/controller.go:219-257 | Whatever fails and whoever interferes, a Contour that stops being held while an item is handled was going, and the item is a request for it that swept everything others were not seen to need |
| Laws.NoReleaseWithoutSweep | internal/controller/controller.go:219-257 | Over any stretch of any run, a held Contour is let go only by a request for it that swept all that: workloads, RBAC objects, and the namespace if asked for |
| Laws.GoodRequestReleases | internal/controller/controller.go:219-257 | A Contour that is going is swept and let go, at the latest by the first fault-free request for it during which no user changes it, whatever users do elsewhere and other requests and failed ones do before |
| Laws.OnlySyncsWrite | internal/status/status.go:70-84 | Between two requests for a Contour that stays nothing but their status syncs writes it |
| Laws.LaterRequestIsQuiet | internal/status/status.go:70-71 | In any run, if one request got the status written or found it right, and the next one for the Contour reads the same health, that one writes none, whatever time it is and whatever users and other requests do in between |
| Protocol.MovedByUser | internal/controller/controller.go:248-254 | A Contour that changed while the operator wrote none was changed by a user |
| Safety.SingleOwnerAndNoOrphans | internal/controller/controller.go:132-157 | In every state of every run, the owned workloads of a namespace name one owner, which is in the store, finalized and has that spec namespace |
| Safety.GoneOwnsNothing | internal/controller/controller.go:248-254 | In every state of every run, a Contour that is gone or not finalized owns no workload |
| Safety.ReleaseIsClean | internal/controller/controller.go:248-254 | A finalized Contour stops being so only by the operator's own write, at a moment when it owns no workload |
| Safety.WorkloadWritesAreGated | internal/controller/controller.go:195-199 | Whenever a workload is written its Contour is tenant and the namespace and nine RBAC objects exist |
| Safety.UpdatesKeepWhatIsFixed | internal/objects/job/job.go:184-201 | No update in any run touches a Job, changes a pod selector, or changes an assigned cluster IP |
| Safety.StatusesStayUnique | internal/status/conditions.go:116-142 | Condition types stay unique in every state of every run, so the merge and quiescence laws apply |
| Safety.ConditionsAreReplayed | internal/status/conditions.go:116-146 | In every state of every run the conditions stored for a Contour are the merges of its status writes so far, in order, from the moment its list was empty |
| Safety.StoredTransitionTime | internal/status/conditions.go:116-146 | In every state after the first status write there is one Available entry; it says what the last write said, with the time of the first write of the trailing block of equal statuses |
| Safety.StatusStays | internal/status/status.go:70-84 | While no status write is made for a Contour that stays, its status is as it was, whatever users and the operator do |
| Safety.HolderStays | internal/objects/contour/finalizer.go:42-52 | Without a finalizer write by the operator a finalized Contour stays, and stays finalized |
| Safety.StrangersLeaveAlone | pkg/labels/labels.go:19-30 | Over any stretch of any run, an object stays as it is while nobody tampers with it and the operator does not act for its owner |
| Safety.OnlyItsRequestWritesAContour | internal/controller/controller.go:115-257 | Besides users, a Contour is only written by the operator while it handles a request for that very Contour |
| Safety.RequestActsForOne | internal/controller/controller.go:115-257 | Every operator step since a request was taken up is made for its Contour |
| Safety.StepsComeFromTheStore | internal/controller/controller.go:115-130 | Every step on a child was computed from a Contour exactly as it once was in the store |
| Safety.NamespaceRemovalHasCause | internal/objects/namespace/namespace.go:61-93 | A namespace that disappears was deleted for a Contour that owned it, named it and asked for it, after a check that found no other Contour naming it, or the shortcut misfired |
| Safety.RbacRemovalHasCause | internal/objects/rbac.go:88-172 | An RBAC object that disappears was deleted for a Contour that owned it, a role no longer having a binding of that Contour, after a check that found no other Contour in the namespace, for cluster roles none at all, or the shortcut misfired |
| Safety.ProtectedSurvive | internal/objects/namespace/namespace.go:30-34 | contour-operator, default and kube-system outlive every run |
| Safety.MisfireExample | internal/objects/contour/contour.go:100-109 | A state in which the check passes although the namespace is in use |
| Safety.BindingsAlwaysRefer | internal/objects/rbac.go:61-172 | From the moment a request is taken up, after every call of any passes, while a Contour has its namespace to itself and nobody else touches the roles and bindings there, each binding it owns refers to a role that exists |
| Safety.BindingWritesAreGrounded | internal/objects/rbac.go:61-82 | Whenever a binding is written, it gives the account contour-certgen the certgen role, or the account contour one of the two others, in the spec namespace, and account and role exist at that moment |
| Safety.RoleBindingsAlwaysBind | internal/objects/rbac.go:97-172 | The counterpart for service accounts: after every call of any passes each role binding a Contour owns in a namespace it has to itself binds its account, which exists, while nobody else touches these |
| Safety.ActsOnOwnGround | internal/controller/controller.go:115-130 | In a namespace a Contour has to itself, every operator step on a child is made for that Contour |
| Convergence.AttemptsLowerSum | internal/controller/controller.go:173-216 | No fault pattern in a pass raises the distance from settled |
| Convergence.EnvoyNeverSettles | internal/equality/equality.go:239-285 | An Envoy Service that does not settle in one undisturbed pass never does |
| Convergence.UnnumberedNodePortsNeverSettle | internal/equality/equality.go:239-285 | Node port publishing without node ports is such a case |
| Convergence.TwoPassesSettleIff | internal/controller/controller.go:137-216 | Two undisturbed passes bring the distance to zero exactly when the Envoy Service is one that settles |
| Convergence.SettledMeansAgreeing | internal/equality/equality.go:28-443 | At distance zero every child exists, and what the Contour owns agrees with the desired object in all managed fields and in its selector |
| Convergence.SettledStays | internal/controller/controller.go:173-216 | A pass over settled children, faults or not, changes no object |
| Convergence.NextStatusIsQuiet | internal/status/status.go:70-71 | After a pass that changed no object the next one writes no status |
| Convergence.Converge | internal/controller/controller.go:115-170 | Left alone for good, three requests settle a Contour, and the fourth issues no create, update, delete or status write |
| Isolation.RequestFrame | internal/objects/rbac.go:160-171 | One request, under any faults, leaves every object without the Contour's owner labels as it is, and what it creates or changes carries them |
| Isolation.RequestNeverRegresses | internal/controller/controller.go:115-170 | Under any faults and user edits a request neither raises the distance of a Contour that stays, its finalizer included, nor adds an owned object for one that goes |
| Isolation.PassesCommute | internal/objects/rbac.go:50-84 | Passes for Contours with different spec namespaces leave the same objects in either order |
| Isolation.SyncedButForTime | internal/status/conditions.go:116-142 | The time of a sync only shows in transition times |
| Isolation.ChangedAtAnyTime | internal/status/status.go:70-71 | Whether a sync finds something to write does not depend on its time, for any list of conditions |
| Isolation.RequestsCommute | internal/controller/controller.go:115-170 | Undisturbed requests for any two Contours that stay, with different spec namespaces, give the same objects, health and Contours in either order, up to transition times and versions, whether they are served, rejected, crash or only get the finalizer |
| Isolation.RequestIsLocal | internal/controller/controller.go:132-157 | What an undisturbed request does, by case, to the objects and the one Contour |
| Isolation.EitherOrder | internal/controller/controller.go:115-170 | Two copies of the operator that take up the same two requests in different order end up the same |

## Left out

- Start-up, flags, watches and the mapping of events to requests, logging, the kubectl-based helpers, the manifests and the gateway design.
- Caching: every read sees the store as it is at that call. A lagging cache would weaken what validation and the deletion checks establish.
- API-server admission, defaulting, owner-reference garbage collection and namespace cascade: a deletion removes one object at once; the server only assigns cluster IPs and node ports, and which number it picks is not modelled.
- Conflicts on updates of children: an update of a child may fail, but others change children only between requests, so a stale update never meets a newer object.
- Pod templates beyond pod labels, service account and Envoy's ports, rule lists and the configuration text: terms that differ when their inputs do. Nil and empty maps or lists are not told apart.
- Readiness as the workload controllers see it: counts and conditions that may change at any moment.
- Load balancer address and provider checks: one verdict of the spec; provider annotations are one managed field.
- Publishing types other than the three the API admits; the dispatch on the type is therefore total.
- Job name derivation from the image: a constant of the configuration, fixed for a run, as is the image itself.
- The time between the retries of Job creation: one try and three more, which may all fail.
- Changes of a Contour's spec namespace, removal of the operator's finalizer by users, and forged owner labels on workloads: taken not to happen.
- Changes of children by others while a request is being handled: they happen between requests.
- Run.HandleWork: for node port publishing convergence needs the Envoy Service to settle, because without that the code never converges (Convergence.EnvoyNeverSettles).
- Laws.LaterRequestIsQuiet: needs the workloads to report the same health to both requests, because users may report another at any call, and then the status is to be written.
- Laws.GoodRequestReleases: needs a request during which no user changes the Contour, because the final write is refused if the Contour is no longer the version that was read; a user who edits it during every request holds the release up for as long.
- Safety.RoleBindingsAlwaysBind: speaks of the two role bindings; the cluster role binding does lose its service account during a deletion.
- Safety.ReleaseIsClean: speaks of workloads, at the very step; that RBAC objects and the namespace are swept by the request that lets the Contour go is Laws.NoReleaseWithoutSweep.
- Convergence.Converge: needs a script without faults and user acts from its start on, because it promises a fourth request that writes nothing at all, status included; the statement for fault-free requests among faults and user acts is Run.HandleWork.
- Builders.DesiredEnvoyService: takes provider annotations and the load balancer address as one rendered field each, because they are finite branching on the provider without a loop.
- Conditions.ComputeContourAvailableCondition: lowers ASCII letters only in messages, because strings here carry no case mapping beyond that.
- Safety.NamespaceRemovalHasCause: does not say that no other Contour names the namespace at the moment of deletion, because one may be created between the check and the deletion.
