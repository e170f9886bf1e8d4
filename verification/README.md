# Dafny model of the gRPC cross-language xDS test framework

This project models the parts of the framework that keep properties over whole runs, and
proves those properties for every input, every run and every reachable state. Everything the
framework talks to (HTTP, gRPC, Kubernetes and Google Cloud) is a small nondeterministic
environment: it succeeds, refuses, answers 404 or 409, or loses the reply.
`dafny verify dfyconfig.toml` checks the whole project.

## What is modelled

**IAM policy editing** (`IamPolicy`, `IamWire`, `IamCache`, `IamProtocol`, `IamRetries`,
`IamReactions`, `IamInvariant`, `IamTheorems`, `IamAftermath`, `IamUniqueness`). A policy means a
set of (role, condition, member) grants. The protocol is a state machine of any number of add and
remove calls against one server. A step is one message sent, served, lost or received, or one
local decision. A request once sent may be delivered at any later time and any number of times, a
late reply may answer a re-send, and any fault may reach a waiting client whether or not its
request took effect. Calls run in processes, and each
process has its cache of the binding search, with its size and its order of eviction, through
which its searches for other accounts go as well. The two retry layers (re-send of the same
request after a transport or 5xx error; re-read after a conflict) are in the steps, and
`IamRetries` proves those steps equal to what the two retryers of `Retryers` decide;
`IamReactions` says what they come to, fault by fault, and what every failed call met. The main
results: in every state of every run the server's grants are the committed edits in commit order;
a normal return means that the goal held during the call, also when the call's own write
committed, lost its reply and then conflicted with itself; and after the return no copy of a
request commits any more.

**Traffic Director resources** (`CloudGraph`, `TdResources`, `TdState`, `TdManager`, `TdCleanup`,
`TdTheorems`, `TdOffers`, `TdSweep`, `TdSweepWitness`). The cloud is a graph of named resources,
and a delete is refused while a live resource refers to its target. `CloudGraph` says exactly what
one pass over a list of deletes leaves: what an unlisted live resource can reach. On that rest the
cleanup theorems for the plain, AppNet, Secure, Spiffe and Cloud Run managers, from every state
that any calls, failed midway or with lost replies, can reach; and the sweep by three managers in
turn. `TdManager` is the manager object with its attributes, its methods proved against `TdState`.
`TdOffers` spells out what each class creates, where and with which references, and proves that
its cleanup goes after exactly that.

**Backend health wait** (`BackendHealth`). The set of pending backends is changed while it is
iterated over; Python raises at the iterator's next step, even behind the last element, and the
retryer starts the next attempt. So an attempt moves at most one backend.

**Retries and Kubernetes errors** (`Retryers`, `K8sErrors`, `K8sOutcomes`), **channelz paging**
(`ChannelzPaging`), **the in-flight check** (`InFlight`), **the xDS control plane**
(`XdsResources`, `ControlPlane`, `FallbackUpdates`), **stats differences** (`StatsDiff`),
**URL map names and aggregation** (`UrlMapNames`) and **the container log reader** (`LogReader`,
`LogLines`). `Helpers` and `Wrappers` hold what several of them use.

## Where the code does less than it seems to

Each of these is proved as an exact condition, with a case in which it fails, the code being
modelled as it is.

- Revoking looks at one unconditional binding of the role, whichever the search returns. It
  works for every answer exactly when the binding holding the member is the role's only
  unconditional one (`RemoveAlwaysMeetsGoalIff`, `RemoveCanMissDuplicateBinding`). Over whole
  runs from a policy three things hold exactly when it has at most one unconditional binding per
  role: a removal that returned had its goal held (`RemovalsHoldIff`), the grants are the
  committed operations (`LogExplainsIff`), and conflicts with oneself heal without another write
  (`ConflictsHealIff`).
- The search is cached, 128 answers for each process. That is why a call that re-reads a
  revision gets the same binding again, and why on every policy a returned call never commits
  again. It takes 128 other searches of the process during the call to make that fail, and then
  it does for exactly the policies with two unconditional bindings of a role
  (`ReturnedAreDoneIff`, `ReturnedAreDoneOnEveryPolicy`).
- Resource names are told apart by the suffix of the run for one kind of resource only: the
  suffix `alt` collides with the alternative resources of a run without a suffix
  (`NamesEqualIff`, `NamesOfRunsCanCollide`).
- The IPv6 forwarding rule is created in the manager's region and deleted globally. Forced
  cleanup always empties exactly when the manager is not both regional and dualstack
  (`ForcedCleanupAlwaysEmptiesIff`), and from a given state exactly when no such rule is alive.
  A stranger's global rule of that name is what gets deleted instead (`OthersStay`,
  `StrangerCanBeDeleted`).
- `delete_alternative_url_map` clears the attribute of the main URL map
  (`AltUrlMapDeleteForgetsUrlMap`, `AltUrlMapDeleteCanLeak`). Within `cleanup` this is harmless.
- The sweep leaves the client TLS policy exactly when a live route leads to it, as a Spiffe
  manager's route can, and IPv6 resources with all they lead to exactly when its dualstack flag
  is off (`SweepExact`, `SweepEmptiesIff`, `SweepCanLeaveClientTls`, `SweepCanLeaveIpv6`).
- The health wait needs one attempt more than there are backends when all are healthy, whatever
  `replica_count` says, and fails when the last move comes at or after the timeout
  (`AllHealthySucceedsIff`), for the default times with 151 backends or more
  (`ManyBackendsFail`).
- Path matcher names collide between modules exactly when leading words of a class name moved
  into the module name (`PathMatcherNamesEqualIff`, `PathMatchersCanCollide`); hostnames never
  collide.
- The log reader's comment says that only full lines are processed. It holds after every chunk
  of a stream exactly when each chunk closes a line that is not empty, or is the first character
  of one (`StepExactIff`, `ExactThroughoutIff`). Otherwise a line is torn (`TornLine`), an empty
  one is added (`AddedLine`) or lost (`LostLine`); text never is (`StreamKeepsText`). The reader
  fails exactly on an empty chunk that comes first or right behind a newline (`FailsIff`).
- Equal snapshot versions mean equal contents only for fewer than 2^32 non-empty updates
  (`EqualVersionsEqualContents`, `VersionsWrapAround`).
- A constant retryer with neither an attempt limit nor a wait has no bound on its attempts
  (`ConstantRetryerBoundedIff`).

## Model

| member | source | states |
|---|---|---|
| IamPolicy.AddChangesOneGrant | framework/infrastructure/gcp/iam.py:376-400 | On every policy, whichever binding the search returned, adding makes the grants the old ones plus the one asked for; etag and version are carried over. |
| IamPolicy.RemoveTouchesOnlyItsGrant | framework/infrastructure/gcp/iam.py:418-446 | On every policy, removing takes away at most the one grant asked for and adds none. |
| IamPolicy.RemoveMeetsGoalIff | framework/infrastructure/gcp/iam.py:161-170 | For one answer of the search: the member is out afterwards iff no other unconditional binding of the role holds it. |
| IamPolicy.RemoveAlwaysMeetsGoalIff | framework/infrastructure/gcp/iam.py:418-445 | Revoking works for every answer of the search iff a binding holding the member is the role's only unconditional one. |
| IamPolicy.RemoveCanMissDuplicateBinding | framework/infrastructure/gcp/iam.py:161-170 | A concrete policy on which a revocation returns normally and the member stays. |
| IamPolicy.EditIsExact | framework/infrastructure/gcp/iam.py:367-446 | With one unconditional binding per role, an edit is the set operation on grants, is skipped iff the goal already holds, and meets its goal. |
| IamPolicy.OtherBindingsUntouched | framework/infrastructure/gcp/iam.py:52-59 | Conditional bindings and other roles' bindings are the same bindings before and after. |
| IamPolicy.UniquenessPreserved | framework/infrastructure/gcp/iam.py:52-59 | At most one binding per (role, condition), and at most one unconditional one per role, are kept by every edit. |
| IamWire.ExprRoundTrip | framework/infrastructure/gcp/iam.py:109-114 | Reading an expression's dictionary gives the expression back. |
| IamWire.BindingRoundTrip | framework/infrastructure/gcp/iam.py:137-155 | Reading any dictionary a binding can be written as (members in any order) gives the binding back. |
| IamWire.PolicyRoundTrip | framework/infrastructure/gcp/iam.py:172-190 | Reading any dictionary a policy can be written as (bindings and members in any order) gives the policy back. |
| IamWire.EveryPolicyHasADict | framework/infrastructure/gcp/iam.py:183-190 | Every policy has such a dictionary, so the round trip is never vacuous. |
| IamWire.PolicyReadableIff | framework/infrastructure/gcp/iam.py:137-181 | A response is read, instead of raising, iff it has an etag and each binding a role and, if any, a condition with an expression and known keys only. |
| IamWire.PolicyReadIff | framework/infrastructure/gcp/iam.py:109-190 | A response is read as a policy iff it has its etag and version and every binding, in any order and number, and nothing else; absent members, bindings and titles, descriptions and locations standing for none. |
| IamWire.ErrorsAre | framework/infrastructure/gcp/iam.py:137-181 | Which error it is otherwise: that of the first unreadable binding (KeyError for the role, TypeError for the condition), then the missing etag. |
| IamWire.ExprWritten | framework/infrastructure/gcp/iam.py:113-114 | What is written has all four keys, each with its own field. |
| IamRetries.AfterFaultIsByRetryers | framework/infrastructure/gcp/api.py:470-510 | The protocol's reaction to any fault, at any attempt and time, is what the request retryer inside the conflict retryer decides. |
| IamRetries.ExecuteRuns | framework/infrastructure/gcp/api.py:485-510 | Over a whole run at most eleven requests go out, each but the last answered by a transport failure or one of 429, 500, 502, 503 and 504, with waits of 1, 2, 4, 8 and then 10 seconds; a failure is that of the last request, and before the eleventh it has another status. |
| IamRetries.EtagRuns | framework/infrastructure/gcp/iam.py:39-49 | A read-modify-write is started again iff it met a conflict or a transport failure within 120 seconds, after the same waits, none at or after 130 seconds; any other error, and any success, ends the call. |
| IamRetries.ConflictsAreOfWrites | framework/infrastructure/gcp/iam.py:280-305 | A 409 is a conflict iff it answers a write; of a read it is an error like any other. |
| IamReactions.FaultReaction | framework/infrastructure/gcp/api.py:458-510 | How a waiting call takes any fault, by status, attempt and time: the same request again before the eleventh attempt, a new read after a conflict on a write or a lost connection in time, RetryError out of time, and the error with its status otherwise; nothing else changes. |
| IamReactions.OwnSteps | framework/infrastructure/gcp/iam.py:376-400 | The other steps: a call starts by reading, decides on the current revision, and returns without a request or sends one first write. |
| IamReactions.ConflictWithOneselfReturns | framework/infrastructure/gcp/iam.py:294-305 | Over every run: a 409 in time to the re-send of a write that did commit is followed by a read and, whatever the search answers, a return without another write; with one unconditional binding per role and nobody undoing it. |
| IamReactions.ErrorsAreAccountedFor | framework/infrastructure/gcp/api.py:458-510 | In every run a call that failed met a fault that accounts for it: never a conflict on a write in time, never a passing fault before the eleventh attempt. |
| IamInvariant.StepKeepsInv | framework/infrastructure/gcp/iam.py:280-305 | Every step keeps the invariant: distinct etags, every sent request an edit of the revision whose etag it carries, commit i based on revision i. |
| IamInvariant.RunInv | framework/infrastructure/gcp/iam.py:367-452 | The invariant holds in every state of every run. |
| IamInvariant.RevisionsUnique | framework/infrastructure/gcp/iam.py:52-59 | If the first policy has unique (unconditional) bindings, so has every revision. |
| IamInvariant.CommitIsExact | framework/infrastructure/gcp/iam.py:280-299 | Each commit changes the grants by exactly its operation and makes its goal true; for a removal, if the first policy has one unconditional binding per role. |
| IamTheorems.GrantsAreCommittedEdits | framework/infrastructure/gcp/iam.py:367-452 | In every state of every run the server's grants are the initial ones with the committed operations applied in commit order, if the first policy has one unconditional binding per role or no removal committed. |
| IamUniqueness.LogExplainsIff | framework/infrastructure/gcp/iam.py:367-452 | Over all runs from a policy, the grants are always the committed operations iff the policy has at most one unconditional binding per role. |
| IamTheorems.CommitTouchesOnlyItsGrant | framework/infrastructure/gcp/iam.py:280-305 | Whatever the policy, a commit changes at most its own grant and no other role's or conditional binding. |
| IamTheorems.NoRequestCommitsTwice | framework/infrastructure/gcp/api.py:485-510 | However often a request is re-sent or delivered late, it commits at most once. |
| IamTheorems.ReturnMeansGoalHeld | framework/infrastructure/gcp/iam.py:367-452 | A call that returned normally had, after its start, a moment at which its goal held on the server; an add on every policy, a removal if the first policy has one unconditional binding per role. |
| IamUniqueness.RemovalsHoldIff | framework/infrastructure/gcp/iam.py:418-446 | Over all runs from a policy, every removal that returned had such a moment iff the policy has at most one unconditional binding per role. |
| IamCache.UseKeepsNear | framework/infrastructure/gcp/iam.py:161-170 | A search for something else pushes a cached answer back by one place at most, so it takes a full cache of other searches to drop it. |
| IamAftermath.SearchAlwaysAnswers | framework/infrastructure/gcp/iam.py:161-170 | In every state of every run the cached search has an answer for a call that has read a policy, and one that the search itself could give. |
| IamAftermath.StepKeepsMemory | framework/infrastructure/gcp/iam.py:161-170 | Every step keeps that a call under way has the answer behind its latest request in its process's cache, behind no more entries than there were other searches. |
| IamAftermath.StepKeepsQuiet | framework/infrastructure/gcp/iam.py:376-385 | If the call remembers its answers, or roles have one unconditional binding each, every step keeps that it returns with all its requests naming superseded revisions; on every policy. |
| IamAftermath.ReturnedCallNeverCommitsAgain | framework/infrastructure/gcp/iam.py:39-49 | On every policy, no re-send or late duplicate of an add or a removal commits after its normal return, if the process made fewer than 128 other searches meanwhile; with one unconditional binding per role, regardless. |
| IamUniqueness.ReturnedAreDoneIff | framework/infrastructure/gcp/iam.py:161-170 | Over all runs from a policy with up to n other searches of the process during the call, no returned call ever commits again iff n is below the cache's 128 places or the policy has at most one unconditional binding per role. |
| IamUniqueness.ReturnedAreDoneOnEveryPolicy | framework/infrastructure/gcp/iam.py:39-49 | In particular none does, whatever the policy, in a process that makes its calls one after another. |
| IamTheorems.GoalSurvives | framework/infrastructure/gcp/iam.py:294-305 | On every policy, a goal once reached holds in later revisions unless the opposite operation on the same grant committed. |
| IamTheorems.SelfConflictHeals | framework/infrastructure/gcp/iam.py:294-305 | With one unconditional binding per role, a call whose own write committed with its reply lost re-reads and returns without writing again, unless someone undid its edit. |
| IamUniqueness.ConflictsHealIff | framework/infrastructure/gcp/iam.py:294-305 | Over all runs from a policy, every such conflict heals iff the policy has at most one unconditional binding per role; otherwise an add can write again. |
| CloudGraph.DeleteAllExact | framework/infrastructure/gcp/compute.py:850-877 | After one pass over a reverse topological list, a resource is left iff an unlisted live resource reaches it. |
| CloudGraph.StaysIff | framework/infrastructure/gcp/compute.py:850-877 | The same by one edge: a live resource stays iff it is not listed or something that stays refers to it; references of what stays are unchanged. |
| CloudGraph.DeleteAllClears | framework/infrastructure/gcp/compute.py:850-877 | A list nobody else refers to goes away entirely, and nothing else does. |
| CloudGraph.NoDeleteRefused | framework/infrastructure/gcp/compute.py:850-877 | In such a list no delete is refused: nothing refers to a resource when its turn comes. |
| CloudGraph.SecondPassIsNoop | framework/infrastructure/gcp/compute.py:863-877 | Deleting listed leftovers again changes nothing. |
| TdResources.NamesTellKindsApart | framework/infrastructure/traffic_director.py:210-217 | Under one prefix and suffix two resources of one API collection never get the same name. |
| TdResources.SuffixesTellRunsApart | framework/infrastructure/traffic_director.py:210-217 | One resource has different names in runs with different suffixes. |
| TdResources.NamesEqualIff | framework/infrastructure/traffic_director.py:210-217 | Between runs with different suffixes two names are equal iff one base name goes on with the first words of the other run's suffix. |
| TdResources.NamesOfRunsCanCollide | framework/infrastructure/traffic_director.py:210-217 | They can be: the forwarding rule of a run with suffix alt has the name of the alternative one of a run without. |
| TdResources.PlanAscending | framework/infrastructure/traffic_director.py:192-208 | The cleanups of all five manager classes delete in one common order of resource kinds, without repetition. |
| TdResources.AscendingIsReverseTopological | framework/infrastructure/traffic_director.py:192-208 | That order puts referrers first, in every cloud whose references are ones the managers make. |
| TdManager.CloudApi.Insert | framework/infrastructure/gcp/compute.py:804-825 | A name in use or a rejected insert changes nothing; otherwise the resource is there with its references, also when the reply is lost. |
| TdManager.CloudApi.Update | framework/infrastructure/gcp/compute.py:827-841 | A patch replaces the references of an existing resource, and only of that. |
| TdManager.CloudApi.Remove | framework/infrastructure/gcp/compute.py:850-877 | Only an existing, unreferred resource is removed; a 404 or a refusal is swallowed and changes nothing. |
| TdManager.TrafficDirectorManager.constructor | framework/infrastructure/traffic_director.py:103-149 | A new manager tracks nothing and leaves the cloud alone. |
| TdManager.TrafficDirectorManager.Ask | framework/infrastructure/traffic_director.py:219-848 | Any create or patch, by a method of its own with the source's branches, leaves cloud and attributes as specified, also when an attribute is missing or the reply is lost. |
| TdManager.TrafficDirectorManager.MakeCall | framework/infrastructure/traffic_director.py:643-681 | The attribute is set iff the insert was answered. |
| TdManager.TrafficDirectorManager.Remove | framework/infrastructure/traffic_director.py:683-717 | A delete, forced or not, leaves cloud and attributes as its specification says. |
| TdManager.TrafficDirectorManager.CleanupBase | framework/infrastructure/traffic_director.py:192-208 | The statements of the base cleanup amount to one pass over the base plan. |
| TdManager.TrafficDirectorManager.CleanupSecure | framework/infrastructure/traffic_director.py:1137-1143 | Likewise for the Secure cleanup. |
| TdManager.TrafficDirectorManager.CleanupAppNet | framework/infrastructure/traffic_director.py:1071-1075 | Likewise for the AppNet cleanup. |
| TdManager.TrafficDirectorManager.Cleanup | framework/infrastructure/mesh_resource_manager/cloud_run_mesh_manager.py:110-112 | Likewise for the cleanup of each class, by way of its base classes' cleanups. |
| TdCleanup.PreparedRefs | framework/infrastructure/traffic_director.py:521-565 | Every create and patch makes only references that its kind of resource may have. |
| TdCleanup.DoKeepsSound | framework/infrastructure/traffic_director.py:155-190 | Every call keeps the references well-typed and the tracked resources the manager's own. |
| TdCleanup.ReachableIsSound | framework/infrastructure/traffic_director.py:155-190 | So does every sequence of calls, failed, lost or not. |
| TdCleanup.RunDeletesIsDeleteAll | framework/infrastructure/traffic_director.py:192-208 | Running delete methods is one pass over the keys whose deletes are issued. |
| TdCleanup.IssuedByCleanup | framework/infrastructure/traffic_director.py:192-208 | A cleanup issues exactly the deletes of what is tracked when it starts (forced: of everything), the target proxy by the call of its kind. |
| TdCleanup.CleanupExact | framework/infrastructure/traffic_director.py:192-208 | A cleanup leaves exactly what a live resource that it does not delete can reach. |
| TdTheorems.CleanupEmptiesIff | framework/infrastructure/traffic_director.py:192-208 | A cleanup leaves none of the manager's resources iff each live one has its delete sent to the place where it lives. |
| TdTheorems.NoDeleteOnTheWayRefused | framework/infrastructure/traffic_director.py:192-208 | In that case no delete on the way is refused. |
| TdTheorems.OthersStay | framework/infrastructure/traffic_director.py:802-822 | A live resource of someone else is deleted iff it is a global rule with the name of a dualstack manager's IPv6 rule whose delete the cleanup sends; otherwise it is unchanged. |
| TdTheorems.StrangerCanBeDeleted | framework/infrastructure/traffic_director.py:782-822 | A regional dualstack manager, plain or AppNet, reaches such a state, and either cleanup then deletes the stranger's rule. |
| TdTheorems.ForcedCleanupEmptiesIff | framework/infrastructure/traffic_director.py:802-822 | Forced cleanup from any reachable state of any manager class leaves nothing iff no regional IPv6 forwarding rule is alive. |
| TdTheorems.ForcedCleanupAlwaysEmptiesIff | framework/infrastructure/traffic_director.py:782-822 | It does so from all reachable states iff the configuration is not both regional, as only plain and AppNet managers can be, and dualstack. |
| TdTheorems.ForcedCleanupOfGlobalClassesEmpties | framework/infrastructure/traffic_director.py:1088-1107 | Forced cleanup of the Secure, Spiffe and Cloud Run managers, which take no region, leaves nothing of their plan, which is what they offer (`TdOffers.GlobalClassesLeaveNoOffer`). |
| TdTheorems.SecondCleanupChangesNothing | framework/infrastructure/traffic_director.py:192-208 | From any reachable state a second cleanup leaves the cloud as it is, also after refused deletes. |
| TdTheorems.CreatesTrackAll | framework/infrastructure/traffic_director.py:219-281 | After any creates and patches without a lost reply everything alive is tracked, the proxy under the flag of its kind. |
| TdTheorems.CleanupAfterCreatesEmptiesIff | framework/infrastructure/traffic_director.py:192-208 | An ordinary cleanup after these leaves nothing iff no regional IPv6 forwarding rule is alive. |
| TdTheorems.ProxyDeletedByItsKind | framework/infrastructure/traffic_director.py:643-705 | The live target proxy is deleted by the call for its own kind, and by no other. |
| TdTheorems.AltUrlMapDeleteForgetsUrlMap | framework/infrastructure/traffic_director.py:632-641 | After this delete on its own, an ordinary cleanup leaves nothing iff the delete was skipped or there was no main URL map. |
| TdTheorems.AltUrlMapDeleteCanLeak | framework/infrastructure/traffic_director.py:632-641 | Every manager reaches, by creates that succeed, a state in which it does leak, while the cleanup alone leaves nothing. |
| TdOffers.Planned | framework/infrastructure/mesh_resource_manager/cloud_run_mesh_manager.py:89-112 | For each of the five classes, what cleanup goes after is what the class has create methods for, in the place where those put it. |
| TdOffers.CreatePutsItsResource | framework/infrastructure/traffic_director.py:219-848 | Each create that a class offers, for a free name and with what it needs tracked, puts its resource into its place with exactly these references, and into its attribute iff answered; with the protocol and the proxy's flag. |
| TdOffers.OtherCreatesChangeNothing | framework/infrastructure/traffic_director.py:567-681 | Any other create changes nothing but the proxy's flag on the way. |
| TdOffers.PatchReplacesReferences | framework/infrastructure/traffic_director.py:325-354 | A patch replaces the references of one tracked live resource: the URL map's service, the backends of a backend service, or adds the client TLS policy. |
| TdOffers.OtherPatchesChangeNothing | framework/infrastructure/traffic_director.py:325-354 | Any other patch changes nothing. |
| TdOffers.DeleteRemovesItsResource | framework/infrastructure/traffic_director.py:683-822 | A delete is sent iff forced or tracked, the HTTP proxy's by the flag, and removes its resource iff nothing refers to it; the attribute cleared is named, with the main URL map's for the alternative one. |
| TdOffers.ForcedCleanupLeavesNoOffer | framework/infrastructure/traffic_director.py:192-208 | Forced cleanup from any reachable state of any class leaves none of what the class offers where it creates it iff no IPv6 rule is alive in the manager's region. |
| TdOffers.GlobalClassesLeaveNoOffer | framework/infrastructure/mesh_resource_manager/cloud_run_mesh_manager.py:110-112 | So it leaves none for the classes without a region, the Cloud Run endpoint group in the serverless region included. |
| TdOffers.CleanupAfterCreatesLeavesNoOffer | framework/infrastructure/traffic_director.py:192-208 | The same of an ordinary cleanup after creates and patches without a lost reply. |
| TdOffers.EveryOfferComesAlive | framework/infrastructure/traffic_director.py:155-190 | Each resource on offer is alive in some state reached by creates that succeed, so none of this is about nothing. |
| TdSweep.CleanupTdForGke | bin/cleanup/cleanup.py:348-396 | The three forced cleanups amount to three passes over the Secure, AppNet and plain plans. |
| TdSweep.BackendServiceAfterSecure | bin/cleanup/cleanup.py:389-392 | After the first pass a backend service is left iff a live route refers to it, or the flag is off and a live IPv6 resource leads to it. |
| TdSweep.ClientTlsAfterSecure | bin/cleanup/cleanup.py:389-392 | After the first pass the client TLS policy is left iff a route holds it over a backend service, or the flag is off and a live IPv6 resource leads to it. |
| TdSweep.SweepExact | bin/cleanup/cleanup.py:348-396 | From any mix of global-scope leftovers, dualstack or not, the sweep leaves exactly: the client TLS policy if a route holds it, and, if its dualstack flag is off, IPv6 resources and what they lead to. |
| TdSweep.SweepLeavesOthers | bin/cleanup/cleanup.py:348-396 | Everyone else's resources are as they were. |
| TdSweep.SweepEmptiesIff | bin/cleanup/cleanup.py:348-396 | Whatever one global-scope plain, AppNet, Secure or Spiffe manager left, the sweep removes it all iff it is not a Spiffe manager's held client TLS policy, and no IPv6 resource is alive with the flag off. |
| TdSweepWitness.SweepCanLeaveClientTls | framework/infrastructure/mesh_resource_manager/spiffe_mesh_manager.py:61-98 | A Spiffe manager reaches, by creates that succeed, a state of which the sweep leaves the client TLS policy. |
| TdSweepWitness.SweepCanLeaveIpv6 | bin/cleanup/cleanup.py:348-396 | A global dualstack manager reaches a state of which a sweep without the flag leaves the IPv6 forwarding rule. |
| BackendHealth.HealthWait.RetryBackendsHealth | framework/infrastructure/gcp/compute.py:641-688 | One attempt, with the iterator's size check, moves the first healthy backend and raises, or lets an API error out, or answers with the verdict. |
| BackendHealth.WaitForBackendsHealthy | framework/infrastructure/gcp/compute.py:555-590 | The wait is a run of the constant retryer over such attempts; ValueError iff there are no backends or no replicas. |
| BackendHealth.WaitEndsExactly | framework/helpers/retryers.py:131-192 | An attempt that raised anything, or answered False, is repeated after the wait if it ended before the timeout, and otherwise ends the wait in a RetryError of its own; no wait ends in another failure. |
| BackendHealth.AttemptOutcome | framework/infrastructure/gcp/compute.py:641-688 | How an attempt comes out by what the pending backends report: cut short by a healthy one, raised by a failing query, else True iff none is pending or enough were seen healthy. |
| BackendHealth.HealthyFromSucceedsIff | framework/infrastructure/gcp/compute.py:555-590 | If every backend is healthy from some attempt on, the wait succeeds iff the last pending one is moved before the timeout, whatever earlier attempts met. |
| BackendHealth.OutageOnlyDelays | framework/infrastructure/gcp/compute.py:575-590 | If all queries of the first k attempts fail and everything is healthy behind them, the wait succeeds iff attempt k plus the number of backends ends before the timeout. |
| BackendHealth.PartitionKept | framework/infrastructure/gcp/compute.py:580-590 | Pending and healthy partition the backends before and after every attempt of every run. |
| BackendHealth.CutShortMovesOne | framework/infrastructure/gcp/compute.py:650-682 | An attempt cut short moves exactly one backend, a healthy one; any other attempt moves none. |
| BackendHealth.SuccessMeans | framework/infrastructure/gcp/compute.py:684-688 | Success means nobody is pending or enough backends were healthy, in an attempt in which no pending backend reported healthy. |
| BackendHealth.OneBackendPerAttempt | framework/infrastructure/gcp/compute.py:650-688 | Once all are healthy, each attempt moves one backend and is cut short while one is left; the next returns True. |
| BackendHealth.AllHealthySucceedsIff | framework/infrastructure/gcp/compute.py:555-590 | With everything healthy from the start the wait succeeds iff the attempt that moves the last backend ends before the timeout, and takes one attempt more than there are backends. |
| BackendHealth.ManyBackendsFail | framework/infrastructure/gcp/compute.py:555-583 | With the default times the wait fails for more than 150 backends that are all healthy from the start. |
| Retryers.Retry | framework/helpers/retryers.py:131-169 | In every environment in which some attempt is the last, the loop ends as a run over that environment's answers ends. |
| Retryers.TerminatesWhen | framework/helpers/retryers.py:146-152 | Some attempt is the last if attempts are limited, or if there is a timeout and each further attempt takes time or has a wait before it. |
| Retryers.EndsOnlyIfTerminates | framework/helpers/retryers.py:163-169 | And only if some attempt is the last does a call end at all: the loop asks no more than that. |
| Retryers.RunGuarantees | framework/helpers/retryers.py:131-192 | At most `attempts` calls; no start at or after timeout plus wait; a returned value was returned last and passed the check; otherwise RetryError with the last outcome, or a non-retryable exception. |
| Retryers.EndsExactly | framework/helpers/retryers.py:41-57 | For every attempt of a run: it is repeated after the wait iff it raised what is retried on or did not pass the check and neither limit is reached; at a limit it ends the run in a RetryError; any other attempt ends it with its own value or error. |
| Retryers.NonRetryableEndsRun | framework/helpers/retryers.py:41-57 | An exception that is not retried on ends the run at once and is the one raised. |
| Retryers.RunsAgree | framework/helpers/retryers.py:131-169 | The environment determines the run and its end. |
| Retryers.ExponentialStartsInTime | framework/helpers/retryers.py:60-90 | The exponential retryer starts no repeated attempt at or after the timeout plus the longest wait. |
| Retryers.AttemptsBoundedByTime | framework/helpers/retryers.py:148-152 | With waits of at least w, the attempts before the last two waits fit into the timeout. |
| Retryers.ConstantRetryerBoundedIff | framework/helpers/retryers.py:131-169 | There is a bound on the attempts of a constant retryer iff attempts are limited, the wait is positive or the timeout is zero. |
| Retryers.RetriesOnWhatWasAskedFor | framework/helpers/retryers.py:60-169 | Each of the three retryers retries on the exceptions asked for, of either way of asking, or on every Exception if none was; with at least one attempt, and no constant retryer without any limit. |
| Retryers.WaitsDouble | framework/helpers/retryers.py:84-86 | The waits that are used: 1, 2, 4, 8 and then 10 seconds; 10 four times, then 16 and 30. |
| K8sErrors.HandledAsItsCore | framework/infrastructure/k8s.py:319-360 | Every nesting of wrapped errors peels down to a core, and is handled as its core is. |
| K8sErrors.CoreIsUnique | framework/infrastructure/k8s.py:319-360 | There is one way to peel an error. |
| K8sErrors.KubernetesApiManager.Handle | framework/infrastructure/k8s.py:319-386 | The recursion terminates in the handling specified, which is that of the error's core; credentials are refreshed once iff `Refreshes` holds (`K8sOutcomes.RefreshesIff`). |
| K8sErrors.KubernetesApiManager.Execute | framework/infrastructure/k8s.py:298-317 | Every execution is a run as specified, one bare call, then the retryer its error picked; what that comes to, by the core of the error, is `K8sOutcomes.ExecuteByCore`. |
| K8sErrors.ExecuteGuarantees | framework/infrastructure/k8s.py:298-317 | A run ends in the value or error of the last call, NotFound, or RetryError with the last outcome; quick recovery makes at most four calls. |
| K8sErrors.Plain404EndsRun | framework/infrastructure/k8s.py:307-314 | A plain 404 at any call ends the run with NotFound and no further call. |
| K8sErrors.NotFoundIff | framework/infrastructure/k8s.py:298-317 | NotFound comes out iff the last call gave a plain 404 or NotFound, or the first one a wrapped 404. |
| K8sOutcomes.ExecuteByCore | framework/infrastructure/k8s.py:298-436 | The number of calls and the end, by the core of the first error: gone connections, 401, 504 and refused connections are retried for 180 seconds with short waits, 429 and the three texts of an overload with long ones, 409, other 500s and protocol errors three times; a 404 is NotFound, anything else is raised after one call. |
| K8sOutcomes.HiccupSucceedsIff | framework/infrastructure/k8s.py:397-431 | After a 409 and the like: at most three further calls, and success iff one of them returns with only retryable errors before it. |
| K8sOutcomes.TimedSucceedsIff | framework/infrastructure/k8s.py:376-436 | After a lost server or an overload: success iff some call returns with only retryable errors before it, the last of them within 180 seconds. |
| K8sOutcomes.CallsAreSpaced | framework/infrastructure/k8s.py:99-122 | The waits between those calls: 1, 2, 4, 8 and 10 seconds, or 10, 16 and 30, or 1. |
| K8sOutcomes.RefreshesIff | framework/infrastructure/k8s.py:319-386 | Credentials are refreshed iff the core of the error is a 401. |
| ChannelzPaging.ListIds | framework/rpc/grpc_channelz.py:169-250 | Against entities that come and go between pages, for the three listings: no id twice, only live ones, at most bound + 1 requests; every entity alive throughout is listed, unless asking for a socket fails that was on a page and is gone. |
| InFlight.CountersCount | framework/test_app/client_app.py:598-604 | Started minus succeeded minus failed is the number of calls in flight, at every moment of every history. |
| InFlight.EqualStartsMeanNone | framework/test_app/client_app.py:591-595 | Two samples have equal start counters iff no call started in between. |
| InFlight.CheckPassesIff | framework/test_app/client_app.py:542-596 | The check returns the channel iff it was READY at both samples, no call started in between, and one call was in flight throughout. |
| InFlight.ListedIff | framework/test_app/client_app.py:542-604 | A listed channel passes iff its own target has the one asked for in it, it is busy, and on reloading still busy with no call started; it breaks the search iff it is busy and the reload fails otherwise than by NotFound. |
| InFlight.FindActiveXdsChannel | framework/test_app/client_app.py:370-425 | Among the channels to the target the search returns the first that passes, raises the first RPC failure, of a reload or of the listing, and reports no active channel iff all were skipped. |
| XdsResources.ServiceNamesDiffer | framework/helpers/xds_resources.py:197-200 | EDS service names tell clusters apart. |
| ControlPlane.ControlService.constructor | docker/test-control-plane/test-control-plane.go:192-201 | The server starts with version 1 of nothing published. |
| ControlPlane.ControlService.RefreshSnapshot | docker/test-control-plane/test-control-plane.go:144-164 | The snapshot is replaced iff what is stored is accepted. |
| ControlPlane.ControlService.SetResources | docker/test-control-plane/test-control-plane.go:92-124 | Version, store and snapshot are as specified; the answer lists the whole store, or is a refusal. |
| ControlPlane.LastEntryCounts | docker/test-control-plane/test-control-plane.go:98-114 | Of the entries of a request about one key the last that says anything counts: without a body it deletes, with a message it sets; unparsable ones and other keys change nothing. |
| ControlPlane.AcceptsIff | docker/test-control-plane/test-control-plane.go:144-164 | What is stored is accepted iff it has no unknown type and the assignments and route configurations referred to are exactly those present. |
| ControlPlane.ControlService.StopOnRequest | docker/test-control-plane/test-control-plane.go:72-87 | Exactly the named filter is added, and the answer lists exactly the filters. |
| ControlPlane.ControlService.OnStreamRequest | docker/test-control-plane/test-control-plane.go:128-142 | The server stops iff one of the requested names is filtered for that type. |
| ControlPlane.CacheIsLastAccepted | docker/test-control-plane/test-control-plane.go:92-164 | At any time the cached snapshot is consistent and is version and store of the last accepted refresh. |
| ControlPlane.RefusedUpdatesGoOutLater | docker/test-control-plane/test-control-plane.go:98-114 | The store is the effect of all updates, refused ones included, and the next accepted one publishes all of it. |
| ControlPlane.StoreStaysKeyed | framework/helpers/xds_resources.py:172-182 | With keys that name their messages, snapshot resources are indexed by message name. |
| ControlPlane.EqualVersionsEqualContents | docker/test-control-plane/test-control-plane.go:95-97 | With fewer than 2^32 non-empty updates, equal published versions mean equal contents. |
| ControlPlane.VersionsWrapAround | docker/test-control-plane/test-control-plane.go:63 | After 2^32 updates the version repeats over other contents. |
| FallbackUpdates.ReflectsIsAccepted | framework/helpers/xds_resources.py:108-118 | A store of listeners, clusters and their own endpoint assignments is always accepted. |
| FallbackUpdates.UpdatesNeverRefused | framework/helpers/xds_resources.py:191-201 | From the start, no listener-and-cluster update is refused; published are the latest listener per name, every cluster ever named with its latest endpoints, and nothing else. |
| FallbackUpdates.PublishedUpdates | framework/helpers/xds_resources.py:43-118 | On the fields of the published messages: the listener routes to the cluster of its last update and has no route configurations, that cluster is there, and the assignment it names has the host and port of the cluster's last update; nothing else is there. |
| FallbackUpdates.ClientsAreLedToTheLatest | framework/helpers/xds_resources.py:191-201 | A client that follows listener, cluster and assignment is led to the latest address of the latest cluster of its listener, after any updates in any order; other names lead nowhere. |
| FallbackUpdates.RefusedThenPublished | framework/helpers/xds_resources.py:121-169 | A server listener without its route configuration is refused while the old snapshot stays, and goes out, with exactly the two resources, with its route configuration. |
| StatsDiff.DiffStatuses | framework/xds_k8s_testcase.py:427-432 | One method's difference, over any order of statuses; fails iff a counter dropped. |
| StatsDiff.DiffAccumulatedStatsPerMethod | framework/xds_k8s_testcase.py:419-440 | The difference, over any order of methods; fails iff one of the counters in `after` dropped. |
| StatsDiff.AfterIsBeforePlusDiff | framework/xds_k8s_testcase.py:426-440 | Before plus difference is after, for every counter in `after`. |
| StatsDiff.DiffListsWhatWentUp | framework/xds_k8s_testcase.py:419-440 | The difference has the methods of `after`, each with exactly the statuses that went up. |
| StatsDiff.DiffsTelescope | framework/xds_k8s_testcase.py:419-440 | Two consecutive differences of growing counters add up. |
| StatsDiff.SnapshotsTelescope | framework/xds_k8s_testcase.py:419-440 | Over any number of snapshots of growing counters, the differences of neighbours add up to that of the last and the first, for every counter. |
| StatsDiff.StatusCodesOkIff | framework/xds_k8s_testcase.py:499-524 | The status check passes iff the window had a completion with the expected status and no other status above the limit. |
| UrlMapNames.SplitCamelRoundTrip | framework/xds_url_map_testcase.py:65-69 | Splitting an ASCII class name can be undone. |
| UrlMapNames.NamesOfTwoWords | framework/xds_url_map_testcase.py:205-216 | The hostname and the path matcher name of a class of two words, spelled out. |
| UrlMapNames.HostnamesDiffer | framework/xds_url_map_testcase.py:205-211 | For one port, hostnames are equal iff module and class names are, whatever the module name contains. |
| UrlMapNames.PathMatchersOfOneModuleDiffer | framework/xds_url_map_testcase.py:213-216 | Path matcher names tell the classes of one module apart. |
| UrlMapNames.PathMatcherNamesEqualIff | framework/xds_url_map_testcase.py:213-216 | Two path matcher names are equal iff the test cases are, or leading words of one class name moved into the other's module name. |
| UrlMapNames.PathMatchersCanCollide | framework/xds_url_map_testcase.py:102-111 | Two classes of different files, both named so that the framework tracks them as test cases, with one path matcher name. |
| UrlMapNames.UrlMapChangeAggregator.ApplyChange | framework/xds_url_map_test_resources.py:64-93 | Appends exactly the changed pair. |
| UrlMapNames.ChangedIs | framework/xds_url_map_test_resources.py:75-88 | What is changed is a rule for the hostname alone and an empty matcher of the same name with the default service. |
| UrlMapNames.ChangeKeepsResolving | framework/xds_url_map_test_resources.py:64-93 | A change that keeps the generated names keeps every rule's path matcher present. |
| UrlMapNames.UrlMapChangeAggregator.ApplyAll | framework/xds_url_map_test_resources.py:64-93 | After any such changes the pairs have the generated names, in order, every host rule's matcher exists, and rules have equal hosts iff they are of the same test case. |
| LogReader.SplitLinesKeepsText | framework/helpers/docker.py:170 | The lines, joined, are the text without its terminators, and no terminator is left in a line. |
| LogReader.LogReaderLoop | framework/helpers/docker.py:163-172 | The loop computes the fold of chunks into logged lines and held text, or fails where it does. |
| LogReader.StreamKeepsText | framework/helpers/docker.py:163-172 | Logged lines, joined, plus the held text are the whole stream without terminators: nothing lost, doubled or reordered. |
| LogReader.SanitizeAllReplacesNul | framework/helpers/docker.py:98-101 | Of the logged lines only NUL characters are replaced, each by U+FFFD. |
| LogReader.HoldsIffMidLine | framework/helpers/docker.py:169 | Text is held back iff the stream is in the middle of a line. |
| LogReader.FailsIff | framework/helpers/docker.py:167-169 | The loop fails iff an empty chunk comes first or right behind a newline. |
| LogLines.SplitUnlines | framework/helpers/docker.py:170 | Splitting undoes writing lines out, with or without a last newline. |
| LogLines.SplitsAtEnds | framework/helpers/docker.py:170 | The first line is what stands before the first line end, one of ten characters or CR and LF together; a text without is one line, or none if it is empty. |
| LogLines.SplitWithNewline | framework/helpers/docker.py:170 | A newline behind a text adds an empty line iff the text does not end inside a line. |
| LogLines.StepExactIff | framework/helpers/docker.py:163-172 | From a reader that logged exactly the finished lines and holds exactly the rest, a non-empty chunk leads to such a reader iff rest and chunk end in a line that is not empty, or are a single character. |
| LogLines.ExactThroughoutIff | framework/helpers/docker.py:163-172 | Over a stream of non-empty chunks, after every chunk exactly the finished lines are logged and the rest is held iff every chunk meets that condition. |
| LogLines.TornLine | framework/helpers/docker.py:169-170 | A first chunk of several characters without a newline is torn: all but the last character is logged. |
| LogLines.HeldNewlineAddsLine | framework/helpers/docker.py:169-170 | A newline held back with the rest of a line adds an empty line to the log. |
| LogLines.AddedLine | framework/helpers/docker.py:169-170 | A two-chunk stream of two lines of which three are logged, the middle one empty. |
| LogLines.LostLine | framework/helpers/docker.py:170 | A one-chunk stream of two lines of which the empty second is not logged. |
| LogLines.LostAndAddedCancel | framework/helpers/docker.py:169-170 | A stream whose log is right in the end although it was not in between. |
| LogLines.WholeLinesLogged | framework/helpers/docker.py:167-172 | With nothing held, a chunk of whole lines is logged line by line; only of an empty last line nothing is logged. |

## Left out

IAM
- IamProtocol's network is more hostile than the real one, never less: faults and deliveries may come at any time. Assumed are that etags are never reused, that a set commits exactly when its etag is current, and that the policy is changed by the modelled calls alone. How long an outer attempt takes is left open (the step's `timedOut`), and the retryers' sleeps are in `IamRetries` only.
- IamTheorems.ReturnMeansGoalHeld: for removals it asks for one unconditional binding per role, because the property is false without, from every such policy (`IamUniqueness.RemovalsHoldIff`).
- IamTheorems.GrantsAreCommittedEdits: asks for the same when a removal committed (`IamUniqueness.LogExplainsIff`).
- IamAftermath.ReturnedCallNeverCommitsAgain: asks that the process made fewer than 128 other searches by the return, or for one unconditional binding per role, because the property is false with neither (`IamUniqueness.ReturnedAreDoneIff`). A search of the cache is one step.
- IamTheorems.SelfConflictHeals: asks for one unconditional binding per role, for adds as well (`IamUniqueness.ConflictsHealIff`).
- `auditConfigs` and other unknown keys of a response, responses with values of other types, service accounts and attestation rules.

Traffic Director
- TdManager.TrafficDirectorManager.Ask: the bodies of create and patch requests are kept as far as they refer to other resources; a TLS policy that is skipped for want of settings is a request not made. Content handed in by the caller is taken to use the generated name and to refer to the manager's own or to foreign resources.
- TdManager.TrafficDirectorManager.Remove: the delete methods are one method over the kind. A delete is answered by success, 404 or a refusal; errors that abort a cleanup midway are covered by starting the next one from the state reached. The five classes are one class with a `manager` setting.
- TdManager.CloudApi.Insert: the wait for the cloud operation, and the read of the created resource behind it, are part of the reply.
- Firewall rules, the `load_*` methods, the search for an unused port, and setups as such (any order of creates is covered).
- IPv6 creates are modelled for dualstack managers only, as the setup makes them. An empty region name is the same as none. Zonal network endpoint groups are foreign resources.
- TdSweep.SweepExact: covers the names the three managers go after, in global scope (Cloud Run's mesh and endpoint group are not among them), with the references such leftovers have; nobody else is taken to refer to them.
- The runner cleanups of Kubernetes deployments, and which leftovers a sweep picks by age and prefix.

Health wait, retries, Kubernetes
- BackendHealth.WaitForBackendsHealthy: asks that each further attempt has a wait before it (the code's is 4 seconds) or takes time; with neither there may be no end, as `ConstantRetryerBoundedIff` says. The health query's errors are one kind of error, and the note put together for the error is not modelled.
- Retryers.Retry: asks that some attempt is the last, which is exactly when a call ends (`EndsOnlyIfTerminates`). Sleeps take exactly their time; the messages and logging of retries are not modelled.
- K8sErrors.KubernetesApiManager.Handle: bodies and messages are ASCII strings, and reloading the client is a counter.

Channelz, in-flight calls
- ChannelzPaging.ListIds: yields the ids; the other fields, and failing page requests, are not modelled. A page is assumed to hold all live ids from the start asked for up to its largest, and to be empty only as the last one.
- InFlight.CheckPassesIff: a sample is taken at one moment.

Control plane
- ControlPlane.CacheIsLastAccepted: go-control-plane is not part of this model; consistency is taken to be that the EDS and RDS names referred to are exactly those present, and storing an accepted snapshot is taken to succeed. Messages are kept as names, references and a payload.
- Serving of snapshots to clients, and the exit of the process as such.

Stats, URL maps, logs
- StatsDiff.AfterIsBeforePlusDiff: a status missing from `after` is not looked at, as in the code; counters are unbounded integers.
- UrlMapNames.SplitCamelRoundTrip: ASCII class names starting with a capital letter.
- The metaclass that collects test cases, and URL map validation in the cloud.
- LogReader.LogReaderLoop: chunks are decoded text; a chunk that splits a UTF-8 sequence is not modelled, and neither are containers and threads.
- Steady-state and ratio assertions, version comparison, pretty printing, flags, credentials and port forwarding.
