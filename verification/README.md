# Kyma Environment Broker: a verified model

Kyma Environment Broker manages service instances (Kyma runtimes) behind the Open Service Broker API v2.16. It keeps
instances, operations and cloud-credential bindings for a long time and changes them through independent requests,
cron jobs and workers. This project models the parts whose correctness depends on how those changes combine, and
proves what they promise over all inputs and all runs.

| file | models |
|---|---|
| `Wrappers.dfy`, `Counting.dfy` | optional values; counting in sequences |
| `Parameters.dfy` | provisioning and update parameters, ERS context merges, request equality |
| `Broker.dfy` | Provision, Update, Deprovision, Expire, the suspension handler and worker steps as a state machine over stored instances, operations and queues |
| `BrokerInvariants.dfy` | the invariant of that machine; every request is reduced to a small change of the store |
| `BrokerTheorems.dfy`, `BrokerUpdates.dfy` | what holds over whole runs |
| `BrokerAnswers.dfy` | which requests are accepted, refused and with what status, and what they write |
| `BrokerExamples.dfy` | concrete runs from the empty store on which an expected property fails |
| `BrokerService.dfy` | the endpoints as methods on mutable storage, which keep the invariant and take the machine's steps |
| `AccountPool.dfy` | the hyperscaler account pool with interleaved callers, and the release of unused bindings |
| `SharedPool.dfy` | the least-used choice of shared bindings and its balance |
| `Networking.dfy` | IPv4 blocks as integers (section 3.1 of RFC 4632) and the networking validation |
| `Runtimes.dfy`, `Resolver.dfy` | the most recent operation of a runtime; the orchestration target resolver and its cache |
| `RuntimeInfo.dfy` | one-pass merging of joined rows against a group-by specification |
| `Avs.dfy` | current, original and remote status of the two AVS monitors with failing remote calls |
| `Cleanup.dfy`, `CisClient.dfy` | chunked concurrent cleanup over unbuffered channels; paging with retries |
| `MachineList.dfy` | in-place removal from an array while ranging over it |

How the model stands for the code:

- Stored operations are a sequence in creation order and an operation's id is its position. "The newest operation such
  that ..." is the last position such that ..., as in the storage queries ordered by creation time. The last operation
  of an instance skips pending ones, as the storage query does.
- One request is one step. Workers are steps of their own: start, finish, resolve the target secret, skip a step,
  remove the instance. They may happen in any order and at any time, which includes every order the process manager
  allows, with one exception that the manager guarantees: a deletion without steps left to retry succeeds only after
  its last stage, the removal of the instance (`cmd/broker/deprovisioning.go:86`,
  `internal/process/staged_manager.go:111-196`).
- A nil pointer or a "not found" answer is `None`. Failed checks that are not modelled, remote call outcomes, listings,
  regular expression matches and clocks are inputs.
- Where the code and an expected property disagree, the code is modelled as it is. One lemma gives the exact condition
  under which the property holds, and another an input on which it fails:

  | expected property | holds exactly as said by | fails on |
  |---|---|---|
  | a trial request repeated under the single-trial limit, or one with a target secret, gets the first id | `IdenticalReplay`, `IsEqualExactly` | `TrialReplayRefused`, `SecretReplayRefused` |
  | a trial request repeated after an unsuspension gets an id | `ReplayInAnyRun` | `UnsuspendedReplayRefused` |
  | the instance stores what the update operation holds (machine type, OIDC) | `UpdateAgreement` | `MachineTypeNotStored`, `EmptyOidcNotStored` |
  | autoscaler limits stay in order when an update names another plan | `ForeignPlanExactly` | `ForeignPlanExample` |
  | an accepted active flag is followed | `ActiveFlagFollowed` | `SuspensionNotStarted` |
  | a tenant holds one clean binding | `ClaimLeavesOne` | `BoundIsAttained`, for every number of callers |
  | release leaves bindings in use alone | `ReleaseMarksUsedExactly` | `SharedTenantHidesUse` |
  | release leaves bindings handed out after its check alone | `MarkAfterCheck` | `CallBetween`, for every such call |
  | the last operation is the newest | `LastOperationIsNewest` | `UpgradeHidesProvisioning` |
  | a reset restores the status | `ResetRestores`, `ResetRestoresExactly`, `ResetSequence` | `ActiveMonitorSticks`, and `FailedResetSticks` and `ResetTwice` for all inputs |
  | cleanup ends | `EndsExactly` | `NeverEnds` |
  | in-place removal is a filter | `RemovalIsFilterExactly` | `AdjacentNameSurvives`, `DuplicateOvershoots` |

- Preconditions are what the code relies on without checking: a deprovisioning operation exists for a stored inactive
  trial, a listed operation count above zero comes with data, a chunk size is positive, a least-used choice has
  bindings to choose from.
- The error text of the networking validation says 26 where the code compares with 23
  (`internal/broker/instance_create.go:481-483`). The model compares with 23.

## Model

| member | source | states |
|---|---|---|
| Parameters.IsEqualExactly | internal/dto.go:94-118 | The replay check accepts exactly the requests that name no target secret and differ from the stored one at most in target secret, licence type and platform provider. |
| Parameters.ValidatesExactly | internal/dto.go:139-159 | Limits validate exactly when the given or else default minimum is at most the given or else default maximum, for each of the four cases. |
| Parameters.OidcProvidedExactly | internal/dto.go:26-34 | OIDC counts as provided exactly when it differs from an object with all values empty. |
| Parameters.CarriesExactly | internal/dto.go:262-320 | A request carries a context update exactly when there is a context it would change. |
| Broker.Latest | internal/storage/postsql/read.go:260-281 | The operation found matches the query and no matching operation is newer; nothing is found only if nothing matches. |
| BrokerInvariants.RequestDelta | internal/broker/instance_update.go:84-167 | Every request of any kind inserts at most one operation and writes at most the instance it names, under the stated legality conditions. |
| BrokerInvariants.ContextDelta | internal/broker/instance_update.go:300-355 | Context processing keeps runtime parameters, inserts an operation only when it reports a suspension change, and keeps plan, credentials and subscription account. |
| BrokerInvariants.HandlerInserts | internal/suspension/handler.go:41-154 | The suspension handler inserts a suspension, or an unsuspension of a trial, or nothing, and reports a change whenever it inserts. |
| BrokerInvariants.StepKeepsInv | internal/broker/instance_deprovision.go:41-111 | Every request and every worker step keeps the whole store invariant: deletion order, closed instances, completed deletions without an instance, single provisioning, rooted records, plan agreement, kept credentials, inactive expired instances, complete queues. |
| BrokerInvariants.RunKeepsInv | internal/broker/instance_deprovision.go:41-111 | Every run keeps the store invariant. |
| BrokerInvariants.ReachableInv | internal/broker/instance_create.go:115-218 | Every store reached from the empty one satisfies the invariant; in particular each operation was queued exactly once, with its kind's workers, in creation order. |
| BrokerInvariants.RunExtends | internal/process/provisioning/resolve_creds.go:37-68 | Runs only append operations; stored ones keep instance, kind, plan and autoscaler, finished ones stay finished, and a started provisioning keeps its request. |
| BrokerInvariants.RunEvolves | internal/process/deprovisioning/remove_instance_step.go:50-78 | Over a run an instance keeps plan and subscription account until it is removed, and a removed one never comes back. |
| BrokerTheorems.AtMostOneDeletion | internal/broker/instance_deprovision.go:61-105 | In every reachable store an instance has at most one unfinished deletion, and it is its newest deprovisioning operation. |
| BrokerTheorems.DeprovisionTwice | internal/broker/instance_deprovision.go:61-110 | A second Deprovision call changes nothing and gives the same answer. |
| BrokerTheorems.RepeatedDeprovision | internal/broker/instance_deprovision.go:69-85 | While no worker steps, whatever requests arrive, Deprovision keeps returning the one ongoing deletion and inserts nothing. |
| BrokerTheorems.DeprovisionCloses | internal/broker/instance_deprovision.go:87-110 | Every Deprovision call on a stored instance returns its newest deprovisioning operation, one that answers later calls. |
| BrokerTheorems.DeprovisionAgain | internal/broker/instance_deprovision.go:45-110 | In every run of requests without worker steps, Expire included, Deprovision repeats its first answer and stores nothing more; for an instance already removed that answer is the plain success. |
| BrokerTheorems.ClosedIsOngoing | internal/process/deprovisioning/remove_instance_step.go:50-78 | A deletion that answers for a stored instance is still under way, since a completed one has removed the instance. |
| BrokerTheorems.DeprovisionGuarantee | internal/broker/instance_deprovision.go:61-110 | In a store that satisfies the invariant every answered Deprovision call leaves the answer as the one deletion under way and newest deprovisioning of the instance. |
| BrokerTheorems.ClosedIsLeftAlone | internal/broker/instance_deprovision.go:69-85 | Once a deletion answers for an instance, no request for it but Expire changes anything. |
| BrokerTheorems.NoUpdateAfterDeletion | internal/broker/instance_update.go:127-138 | Once a deletion is stored, every update of that instance is rejected without effect in every later state. |
| BrokerTheorems.DeletionRefusesUpdate | internal/broker/instance_update.go:114-138 | A stored deletion, even behind newer suspensions, makes every update a rejection without effect. |
| BrokerTheorems.ExpireTakesEffect | internal/expiration/handler.go:51-159 | Expire leaves the trial expired and inactive and returns its newest deprovisioning operation, which is unfinished: one under way, or else one new suspension. |
| BrokerTheorems.ExpiryIsFinal | internal/broker/instance_update.go:114-116 | An expired instance stays expired and inactive, and only deprovisioning operations are ever added for it. |
| BrokerTheorems.SuspendStops | internal/suspension/handler.go:106-127 | Suspending stops a running instance exactly when no older deprovisioning is unfinished. |
| BrokerTheorems.SuspendLeaves | internal/suspension/handler.go:106-127 | Suspending leaves an unfinished deprovisioning as the newest one, and an instance goes on running only if nothing was stored because of an older unfinished one. |
| BrokerTheorems.UnsuspendStarts | internal/suspension/handler.go:129-154 | Unsuspending an instance that is not expired makes it running. |
| BrokerTheorems.ActiveFlagFollowed | internal/suspension/handler.go:56-127 | After an accepted active flag the newest of provisioning and suspension agrees with it, except exactly when a suspension is asked for while an older one is unfinished. |
| BrokerTheorems.ProvisionNeverOverwrites | internal/broker/instance_create.go:152-159 | A request for a stored instance changes nothing. |
| BrokerTheorems.ProvisionedOnce | internal/broker/instance_create.go:152-188 | A non-trial instance id has exactly one provisioning operation in every later state. |
| BrokerTheorems.ReplayAnswer | internal/broker/instance_create.go:393-416 | The exact answer to a well-formed request for an existing id: trial limit, first id, or conflict; the store never changes. |
| BrokerTheorems.AcceptedHolds | internal/broker/instance_create.go:152-208 | The operation an accepted request is answered with, new or replayed, is the newest provisioning of a stored instance and holds that request. |
| BrokerTheorems.ProvisionReplay | internal/broker/instance_create.go:152-159 | Through any run after an accepted non-trial request, a well-formed request for the instance, on any plan, changes nothing: past the single-trial limit an equal secret-free one gets the first operation's id, any other a conflict. |
| BrokerTheorems.ReplayAmongProvisions | internal/broker/instance_create.go:152-159 | The same on every plan, trial included, for runs of Provision requests. |
| BrokerTheorems.ReplayInAnyRun | internal/broker/instance_update.go:328-335 | On every plan and through any run, a well-formed request not marked inactive changes nothing; it is answered as a replay of the first request until the instance is unsuspended, and refused by the limit or as a conflict from then on. |
| BrokerTheorems.UnsuspendedConflicts | internal/broker/instance_create.go:393-416 | Unsuspensions are stored as inactive, so after one no request that is not marked inactive equals the stored one. |
| BrokerTheorems.IdenticalReplay | internal/broker/instance_create.go:329-339 | Repeating an accepted request at once succeeds exactly when it names no secret and no single-trial limit applies. |
| BrokerTheorems.ProvisionRuns | internal/broker/instance_create.go:115-218 | Runs of Provision requests alone leave an existing instance and its one provisioning operation as they are, on every plan. |
| BrokerTheorems.SubscriptionAccountFixed | internal/model.go:153-159 | Through every run, whatever contexts and account movements it holds, the subscription's account is the account the instance was created for. |
| BrokerTheorems.ContextMerged | internal/broker/instance_update.go:317-337 | After an accepted context each optional value is the first present of request, provisioning operation (for credentials: the instance) and last operation. |
| BrokerTheorems.StepCredentials | internal/broker/instance_update.go:317-326 | One step leaves an instance with the credentials that step supplied, or else its old ones. |
| BrokerTheorems.CredentialsFollowRequests | internal/broker/instance_update.go:317-326 | Over any run the instance's credentials are the latest ones supplied by an accepted request, or those it started with. |
| BrokerTheorems.ElsewhereUnchanged | internal/broker/instance_update.go:348-354 | A request leaves every instance it does not name as it is. |
| BrokerUpdates.LimitsNeverCross | internal/dto.go:139-159 | In every run whose updates name no foreign plan, effective autoscaler minimum <= maximum in every instance and operation. |
| BrokerUpdates.StepKeepsSizes | internal/broker/instance_update.go:226-288 | One step that names no foreign plan keeps minimum <= maximum in every instance and operation. |
| BrokerUpdates.ForeignPlanExactly | internal/broker/instance_update.go:231-248 | From a store with all limits in order, an update naming any plan keeps all of them in order exactly when it does not go through, a condition on request and store, or the limits it leads to validate under the instance's own plan. |
| BrokerUpdates.AcceptedExactly | internal/broker/instance_update.go:193-248 | An update is answered with an operation exactly when no check refuses it, its context brings no suspension change, and it carries something valid under the plan it names. |
| BrokerUpdates.UpdateAgreement | internal/broker/instance_update.go:254-288 | After an accepted update instance and operation agree on autoscaler and administrators, and on machine type and OIDC exactly under the stated conditions. |
| BrokerUpdates.UpdateWrites | internal/dto.go:205-224 | Each autoscaler value and the administrators, in instance and operation, are the requested ones if given and the old ones otherwise; so are machine type and OIDC of the operation; nothing else of the parameters changes and the one new operation is queued. |
| BrokerUpdates.RejectedUpdate | internal/broker/instance_update.go:193-252 | A rejected update stores and queues nothing and leaves the runtime parameters of the instance alone. |
| BrokerAnswers.ProvisionExactly | internal/broker/instance_create.go:115-218 | 400 without effect for an inadmissible request or a second trial; for an unknown id one in-progress, queued operation and one instance holding the request, with the lite licence for two plans only; for a known id the stored operation's id or 409. |
| BrokerAnswers.DeprovisionExactly | internal/broker/instance_deprovision.go:45-105 | By the newest deprovisioning: returned when it is a deletion neither failed nor left with steps to retry, and otherwise a deletion with the instance's parameters is stored and queued. |
| BrokerAnswers.ExpireExactly | internal/expiration/handler.go:57-74 | Accepted exactly for stored trial instances; 404 for a missing one, 400 for another plan, both without effect. |
| BrokerAnswers.ExpireStores | internal/expiration/handler.go:115-147 | An accepted call stores and queues one suspension with the instance's parameters unless a deprovisioning is unfinished. |
| BrokerAnswers.HandlerExactly | internal/suspension/handler.go:41-154 | When the handler fails, when it reports a change, and which operation with which contents it stores, in terms of the instance's flag, the requested flag and the newest deprovisioning. |
| BrokerAnswers.UpdateRefusals | internal/broker/instance_update.go:90-138 | The status of each refusal, in order of the checks, all without effect. |
| BrokerAnswers.RefusedExactly | internal/broker/instance_update.go:90-138 | An update is not refused exactly when the instance is known, valid, not expired, its newest provisioning not failed and its newest deprovisioning, if any, a suspension. |
| BrokerAnswers.ContextExactly | internal/broker/instance_update.go:300-355 | When a context is turned down and when it brings a suspension change. |
| BrokerAnswers.UpdateAnswers | internal/broker/instance_update.go:139-248 | The answer to every update that is not refused: plain success, operation id or status, as one condition each on request and store. |
| BrokerAnswers.ContextIdentity | internal/broker/instance_update.go:317-346 | After an accepted context: active flag as requested or as the operations say, identities of the provisioning operation, and the requested account exactly when movement is enabled and one is given. |
| BrokerAnswers.StartCompletesContext | internal/process/deprovisioning/init.go:66-71 | A started operation keeps its own context values and takes missing ones from the last operation, field by field. |
| BrokerAnswers.StartedUpdateCompletesInstance | internal/process/update/initialisation_step.go:60-75 | A started update completes the instance's context from its own, field by field. |
| BrokerAnswers.FinishEnds | internal/process/staged_manager.go:181-196 | The end of any process but a deletion's success sets the operation's state and nothing else. |
| BrokerAnswers.SkippedDeletionIsRetried | internal/process/operation_manager.go:125-135 | A deletion that skipped a step ends with the instance still stored, and the next Deprovision stores a new one. |
| BrokerAnswers.ResolveWrites | internal/process/provisioning/resolve_creds.go:58-60 | The resolved secret is written into the operation and nothing else changes. |
| BrokerAnswers.DeletionCompletes | internal/process/deprovisioning/remove_instance_step.go:68-78 | Removal and end of a retry-free deletion leave no instance, a succeeded operation, and plain success for later Deprovision calls. |
| BrokerExamples.ForeignPlanExample | internal/broker/instance_update.go:231-248 | A run from the empty store, a provisioning and an update naming a larger plan, after which limits cross under the instance's own plan. |
| BrokerExamples.MachineTypeNotStored | internal/broker/instance_update.go:270-288 | A run after which the update operation has a machine type that the instance has not. |
| BrokerExamples.EmptyOidcNotStored | internal/broker/instance_update.go:254-288 | A run after which the update operation has an empty OIDC object that the instance has not. |
| BrokerExamples.SuspensionNotStarted | internal/suspension/handler.go:106-117 | A trial provisioned, suspended, unsuspended and suspended again before any worker steps: the last suspension is accepted and the instance goes on running. |
| BrokerExamples.UnsuspendedReplayRefused | internal/suspension/handler.go:129-154 | A trial suspended and unsuspended answers the request it was created with by a conflict. |
| BrokerExamples.TrialReplayRefused | internal/broker/instance_create.go:329-339 | A trial request repeated at once is rejected by the single-trial limit. |
| BrokerExamples.SecretReplayRefused | internal/dto.go:94-118 | A request with a target secret repeated at once conflicts with itself. |
| BrokerService.Service.Provision | internal/broker/instance_create.go:115-218 | Keeps the storage invariant. An accepted request's answer is the newest provisioning of a stored instance and holds the request; a rejection, and any request for a stored instance, changes nothing. |
| BrokerService.Service.Deprovision | internal/broker/instance_deprovision.go:41-111 | Keeps the storage invariant. Exactly for a stored instance the answer is an operation, a deletion under way and the newest deprovisioning; an old one is returned without storing anything. |
| BrokerService.Service.SuspendExpired | internal/expiration/handler.go:115-147 | The newest deprovisioning is unfinished and is the result; a suspension is stored only if it was finished or missing before. |
| BrokerService.Service.Expire | internal/expiration/handler.go:51-102 | Keeps the storage invariant. Accepted exactly for stored trial instances: then the instance is expired and inactive with an unfinished newest deprovisioning as the answer. Otherwise 404 or 400 and nothing changes. |
| BrokerService.Service.Suspend | internal/suspension/handler.go:106-127 | The newest deprovisioning is unfinished afterwards; the instance runs on only if nothing was stored because of an older unfinished one. |
| BrokerService.Service.Unsuspend | internal/suspension/handler.go:129-154 | The instance is running afterwards unless it is expired, and no deprovisioning is queued. |
| BrokerService.Service.HandleContextChange | internal/suspension/handler.go:41-104 | A reported change means a trial that runs, or whose newest deprovisioning is unfinished, as the flag asks; without a reported change, and after an error, nothing changed. |
| BrokerService.Service.ProcessContext | internal/broker/instance_update.go:300-369 | Overwriting the context field by field gives the machine's merged context and account movement. |
| BrokerService.Service.AcceptContext | internal/broker/instance_update.go:333-346 | Taking over the active flag and the account keeps the subscription's account. |
| BrokerService.Service.ProcessParameters | internal/broker/instance_update.go:193-298 | Overwriting instance parameters one by one gives the machine's updated instance, stored only when the source stores it. |
| BrokerService.Service.Update | internal/broker/instance_update.go:84-167 | Keeps the storage invariant. A rejected update stores no operation and leaves the parameters alone; an accepted one stores exactly one, and limits and administrators of both are the requested ones where given and the old ones otherwise. |
| BrokerService.Service.Serve | cmd/broker/main.go:480-505 | Any sequence of requests served by these methods is a run of the machine and keeps the invariant, so the run theorems hold of them. |
| AccountPool.First | common/hyperscaler/account_pool.go:154-166 | The first listed binding the selector matches; none only if none matches. |
| AccountPool.SelectsExactly | common/hyperscaler/account_pool.go:35-175 | Each query selects exactly the bindings that meet every requirement of its label selector, under the Kubernetes meaning of `l=v`, `l!=v` and `!l`. |
| AccountPool.StepBound | common/hyperscaler/account_pool.go:117-152 | No step of any caller lifts clean bindings plus pending claims of a key above a bound that covers the callers. |
| AccountPool.ClaimsBounded | common/hyperscaler/account_pool.go:63-152 | Over every interleaved run of N callers, clean bindings plus pending claims of a key stay within max(N, initial clean bindings). |
| AccountPool.SequentialCallerHoldsOne | common/hyperscaler/account_pool.go:117-152 | A single caller never brings a tenant beyond one clean binding. |
| AccountPool.ClaimLeavesOne | common/hyperscaler/account_pool.go:128-152 | A claim leaves its key with one clean binding exactly when a lookup would still miss at that moment. |
| AccountPool.BoundIsAttained | common/hyperscaler/account_pool.go:118-135 | For every N, an interleaved run gives a new tenant N clean bindings. |
| AccountPool.RunKeeps | common/hyperscaler/account_pool.go:63-152 | In every run labels are only added: a tenant to an untenanted unshared binding, or dirty; tenants and dirty marks stay, and returned bindings stay with their key. |
| AccountPool.KeysNeverShare | common/hyperscaler/account_pool.go:117-174 | Calls for different tenants, types or EU access values are never given the same binding. |
| AccountPool.SharedNeverClaimed | common/hyperscaler/account_pool.go:117-152 | Where no shared binding starts with a tenant, none ever gets one or is handed out. |
| AccountPool.CallIsARun | common/hyperscaler/account_pool.go:117-152 | An uninterrupted call is a run of the interleaved machine and returns a clean binding of its own key. |
| AccountPool.CredentialsExactly | common/hyperscaler/account_pool.go:117-152 | A call is answered exactly when the tenant has a clean binding or one is free; it gets the first clean one without a change, or else the first free one, whose tenant label is the only change. |
| AccountPool.ReleaseIsSafe | common/hyperscaler/account_provider.go:75-105 | Without tenants on shared bindings, release marks at most one binding, which is owned by the key and neither internal, shared nor used by a shoot. |
| AccountPool.ReleaseExactly | common/hyperscaler/account_provider.go:75-105 | Release changes nothing when an owned binding is internal, an owned unshared one dirty, or the first owned one in use; otherwise it marks exactly the first owned unshared one, if there is one. |
| AccountPool.ReleaseTwice | common/hyperscaler/account_provider.go:88-94 | A second release changes nothing, and after a mark none ever does. |
| AccountPool.ReleaseMarksUsedExactly | common/hyperscaler/account_provider.go:75-105 | Release marks a binding in use exactly when no owned binding is internal, no owned unshared one is dirty, the first owned unshared one is referenced by a shoot and the first owned one is not. |
| AccountPool.MarkAfterCheck | common/hyperscaler/account_pool.go:63-115 | Whatever happens between the unlocked use check and the locked mark, a marked binding handed out in between means an answered call of the tenant, and without one the binding was the tenant's at the check. If it is the tenant's only one, the first is an equivalence, and without an answered call it is the binding found unused. |
| AccountPool.CallBetween | common/hyperscaler/account_pool.go:117-126 | Every call that finds a tenant's binding right before the mark of that binding is left with a dirty binding. |
| AccountPool.SharedTenantHidesUse | common/hyperscaler/account_pool.go:63-115 | A concrete pool with a tenant on a shared binding where release marks a binding in use. |
| AccountPool.AccountPool.CredentialsSecretBinding | common/hyperscaler/account_pool.go:117-152 | Answered exactly when the tenant has a clean binding or one is free, with no other change than the tenant's label on a free one. |
| AccountPool.AccountPool.MarkSecretBindingAsDirty | common/hyperscaler/account_pool.go:63-88 | The dirty label on the first owned unshared binding is the only change; without such a binding nothing changes. |
| AccountPool.AccountPool.IsSecretBindingUsed | common/hyperscaler/account_pool.go:90-115 | The search loop finds a shoot exactly if one references the key's first binding. |
| AccountPool.AccountPool.MarkUnusedGardenerSecretBindingAsDirty | common/hyperscaler/account_provider.go:75-105 | Nothing changes when something keeps the binding claimed; otherwise the first owned unshared binding is marked dirty. |
| SharedPool.CountUsage | common/hyperscaler/shared_pool.go:56-78 | The counting loops give every listed binding its true number of shoots. |
| SharedPool.GetLeastUsed | common/hyperscaler/shared_pool.go:55-91 | The result is the first binding of minimal true shoot count, also with no shoots at all. |
| SharedPool.ListedExactly | common/hyperscaler/shared_pool.go:29-53 | The candidates are exactly the bindings that meet the selector for shared ones of the type, in order. |
| SharedPool.SharedCredentialsSecretBinding | common/hyperscaler/shared_pool.go:29-53 | The first least used shared binding of the type whatever the EU access flag, and an error exactly when no binding is shared and of the type. |
| SharedPool.StepSpread | common/hyperscaler/shared_pool.go:80-90 | One placement where the pool says keeps any spread bound of at least one. |
| SharedPool.SpreadStaysBounded | common/hyperscaler/shared_pool.go:80-90 | Placing each new shoot where the pool says keeps the usage spread within max(1, initial spread). |
| SharedPool.PoolEvensOut | common/hyperscaler/shared_pool.go:80-90 | After as many placements as fit below the fullest binding, the spread is at most one from any start. |
| Networking.ContainsIsRange | internal/broker/instance_create.go:443-455 | A canonical block contains by mask exactly the addresses of its range. |
| Networking.SharedMeansNested | internal/broker/instance_create.go:527-534 | A block sharing an address with one of no longer prefix lies inside it, base address included. |
| Networking.OverlapExactly | internal/broker/instance_create.go:527-534 | The two-sided base-address check reports an overlap exactly when the blocks share an address. |
| Networking.NestedOrDisjoint | internal/broker/instance_create.go:527-534 | Two canonical blocks are nested or disjoint. |
| Networking.SeedProblems | internal/broker/instance_create.go:489-494 | The loop reports exactly the seed blocks that share an address with the nodes, for any number of seeds. |
| Networking.ValidateNetworking | internal/broker/instance_create.go:457-525 | A request passes exactly when it has no networking section or an acceptable one, stated over address sets; and each problem is reported exactly when the section has it. |
| Networking.DefaultsAreAcceptable | internal/networking/cidr.go:3-9 | The platform's blocks are canonical and the default node block keeps clear of all of them. |
| Runtimes.ComputeLastOperation | common/runtime/model.go:170-212 | The chain of overwrites computes the newest of the list heads and the starting point. |
| Runtimes.TiesKeepTheEarlier | common/runtime/model.go:170-212 | A later list wins only with a time newer than the starting point's and every earlier list's. |
| Runtimes.LastOperationRecorded | common/runtime/model.go:170-212 | The result is a recorded operation, or the empty one. |
| Runtimes.LastOperationIsNewest | common/runtime/model.go:170-212 | With sorted listings the result is the globally newest operation, exactly unless a newer provisioning is hidden by a cluster upgrade. |
| Runtimes.UpgradeHidesProvisioning | common/runtime/model.go:170-180 | A listing whose newest operation is the provisioning while the cluster upgrade is returned. |
| Resolver.ResolveIds | common/orchestration/resolver.go:61-100 | An id is returned exactly when some include target and no exclude target matches one of its shoots. |
| Resolver.SelectedExactly | common/orchestration/resolver.go:138-228 | A shoot is selected exactly when its runtime is cached and in service, its window readable, and it is what the target asks for: the runtime id if given, otherwise every given pattern and name. |
| Resolver.ResolvedExactly | common/orchestration/resolver.go:135-246 | A runtime is returned for a target exactly when it describes, value by value, a shoot in service that meets the target. |
| Resolver.UniqueHasNoDuplicates | common/orchestration/resolver.go:85-97 | No runtime id is kept twice. |
| Resolver.UniqueKeepsOrder | common/orchestration/resolver.go:85-97 | The result lists first occurrences of ids in their order. |
| Resolver.ResolvedAllOrder | common/orchestration/resolver.go:135-231 | Matches come in the order of their target and, within a target, of their shoot. |
| Resolver.NeverResolvesGone | common/orchestration/resolver.go:151-159 | With sorted listings, distinct times and no hidden provisioning, a returned runtime's newest operation is no deprovisioning, suspension or unsucceeded provisioning or unsuspension. |
| Resolver.CacheHoldsLastListed | common/orchestration/resolver.go:112-133 | After any sequence of syncs the cache holds for each id the entry listed last, and nothing else. |
| Resolver.GardenerRuntimeResolver.SyncRuntimeOperations | common/orchestration/resolver.go:112-125 | The loop leaves the cache of the specification, keyed by runtime id. |
| Resolver.GardenerRuntimeResolver.Evaluate | common/orchestration/resolver.go:138-228 | The chain of skips selects a shoot exactly when it is in service and meets the target. |
| Resolver.GardenerRuntimeResolver.ResolveRuntimeTarget | common/orchestration/resolver.go:135-231 | The loop returns, in shoot order, exactly the runtimes that describe a shoot in service meeting the target. |
| Resolver.GardenerRuntimeResolver.Excluded | common/orchestration/resolver.go:74-83 | The loop gathers exactly the ids matched by some exclude target. |
| Resolver.GardenerRuntimeResolver.AddNew | common/orchestration/resolver.go:91-96 | The inner loop extends the unique runtimes so far by those of one more target. |
| Resolver.GardenerRuntimeResolver.Resolve | common/orchestration/resolver.go:61-100 | Result and cache equal the specification, no id appears twice, and a failed listing returns an error without touching the cache. |
| RuntimeInfo.Earliest | internal/appinfo/runtime_info.go:114-123 | The earliest provision row of an instance, first among equal times. |
| RuntimeInfo.LatestRemoval | internal/appinfo/runtime_info.go:124-136 | The latest non-suspension deprovision row of an instance, first among equal times. |
| RuntimeInfo.ItemFields | internal/appinfo/runtime_info.go:75-168 | Where each value of an item comes from: row or default, last operation for the time of change, times left out when zero, statuses from the earliest provisioning and latest non-suspension removal. |
| RuntimeInfo.FirstsAreFirst | internal/appinfo/runtime_info.go:77-106 | The item positions are the first rows of the instances: each instance once, in order of appearance, none missing. |
| RuntimeInfo.MergeRow | internal/appinfo/runtime_info.go:113-136 | Merging one row changes its item as the group-by specification demands and keeps both time maps exact. |
| RuntimeInfo.MapToDTO | internal/appinfo/runtime_info.go:68-140 | The one-pass loop yields the group-by items, and an error exactly when some instance's last operation cannot be read. |
| Avs.MaintenanceRemembers | internal/avs/internal_eval_assistant.go:123-129 | After a successful change to maintenance the original status is the one seen, if that was a status. |
| Avs.StatusRequests | internal/avs/delegator.go:138-149 | A missing monitor is left alone with success, a request for an unknown status without. |
| Avs.ResetGoesTo | internal/avs/delegator.go:103-117 | A successful reset puts the server at the remembered status, and at ACTIVE when that is none of the five statuses. |
| Avs.InMaintenanceExactly | internal/avs/evaluation_manager.go:64-78 | The evaluations are in maintenance exactly when every live one is. |
| Avs.ResetRestores | internal/avs/delegator.go:103-177 | After any number of failed attempts and one successful change whose read was valid, a reset restores the server's status, and reports success, exactly when that status was maintenance or the reset's write succeeds. |
| Avs.ResetSequence | internal/avs/delegator.go:103-177 | After the same, any number of resets leaves the server at its old status exactly after an odd number of writes, counted up to the first that fails, and in maintenance otherwise. |
| Avs.ResetRestoresExactly | internal/avs/delegator.go:103-177 | In general a failure-free reset restores the server's status exactly when the change read a valid status, or its read failed and the stored record held that status. |
| Avs.FailedResetSticks | internal/avs/delegator.go:103-172 | After a failed reset every later reset, whatever its remote calls do, reports success and leaves the server in maintenance. |
| Avs.ActiveMonitorSticks | internal/avs/delegator.go:103-172 | An active monitor that ends in maintenance after a failed and a successful reset. |
| Avs.StuckForever | internal/avs/delegator.go:103-117 | A monitor in maintenance that remembers maintenance stays so under any resets. |
| Avs.ResetTwice | internal/avs/delegator.go:103-117 | A reset repeated after it succeeded puts the server back in maintenance. |
| Avs.EvaluationManager.RefreshStatus | internal/avs/delegator.go:120-136 | Returns the server's status, or the stored one after a failed read, and records it on the one monitor. |
| Avs.EvaluationManager.SetMonitorStatus | internal/avs/delegator.go:138-177 | One monitor takes the specified step; the other one's record and every other remote evaluation stay as they are. |
| Avs.EvaluationManager.ResetMonitorStatus | internal/avs/delegator.go:103-117 | The same for a reset. |
| Avs.EvaluationManager.SetMaintenanceStatus | internal/avs/evaluation_manager.go:25-78 | Success puts both live monitors in maintenance; it fails exactly when one of the two changes does, and a failure of the internal one leaves the external one alone. |
| Avs.EvaluationManager.RestoreStatus | internal/avs/evaluation_manager.go:44-58 | Success resets both live monitors; it fails exactly when one of the two resets does, and a failure of the internal one leaves the external one alone. |
| Cleanup.Chunk | internal/cis/account_cleanup.go:91-103 | The pieces concatenate to the input, none is empty, and all but the last have the full size. |
| Cleanup.StepKeepsInv | internal/cis/account_cleanup.go:56-89 | Every step of every schedule keeps calls, errors and completions accounted for. |
| Cleanup.RunKeepsInv | internal/cis/account_cleanup.go:56-89 | So does every schedule. |
| Cleanup.EndIsClean | internal/cis/account_cleanup.go:40-89 | Whenever the main routine ends, each worker has called Deprovision once per found instance and gone, after exactly (failed calls + chunks) receives. |
| Cleanup.SchedulesEnd | internal/cis/account_cleanup.go:56-89 | No schedule is longer than the work at its start. |
| Cleanup.NoDeadlock | internal/cis/account_cleanup.go:56-68 | While the main routine waits and all lookups succeed, some step is possible. |
| Cleanup.Completes | internal/cis/account_cleanup.go:40-70 | Every partial schedule with chunks and successful lookups can be completed. |
| Cleanup.EndsExactly | internal/cis/account_cleanup.go:56-77 | The main routine can end exactly when there is a chunk and every lookup succeeds. |
| Cleanup.NeverEnds | internal/cis/account_cleanup.go:56-77 | Without chunks, or with one chunk whose lookup fails, no schedule ends the main routine. |
| CisClient.AppendSubaccounts | internal/cis/client.go:167-182 | Appends exactly the page's deletion events in order and keeps the range times right. |
| CisClient.DeletionsAreFiltered | internal/cis/client.go:167-182 | The deletions of a page are exactly its events of the deletion type, each once, in order. |
| CisClient.FetchSubaccounts | internal/cis/client.go:89-110 | For every service that ever stops the loop: it stops exactly at the first request that is given up on or fetches the last page; on success every page's deletions are collected once and in order. |
| CisClient.StopsWithinBudget | internal/cis/client.go:89-110 | A service with a last page stops the loop within (last page + 1) * (retries + 1) requests. |
| CisClient.FetchSubaccountsToDelete | internal/cis/client.go:71-110 | All ids of the pages fetched on success, none after an error; with a last page at most (last page + 1) * (retries + 1) requests, and success has fetched exactly the pages up to it. |
| CisClient.ConstantPageCount | internal/cis/client.go:91-101 | With a constant page count T the last page is page max(T, 0). |
| CisClient.ResultIsDetermined | internal/cis/client.go:89-110 | The pages alone determine a successful result, so retries leave no trace. |
| MachineList.RemoveMachineNames | internal/broker/plans.go:248-260 | The in-place loops leave what the sweep specification says, with cleared cells behind it, and panic exactly when it says so. |
| MachineList.SweptIsFilter | internal/broker/plans.go:248-260 | The sweep itself is a filter exactly when each run of listed names is as long as its first name is listed often. |
| MachineList.RemovalIsFilterExactly | internal/broker/plans.go:248-260 | For all inputs the removal is a filter exactly when each run of listed names is as long as its first name is listed often and no cleared cell is hit. |
| MachineList.DistinctRemovalExactly | internal/broker/plans.go:248-260 | For distinct non-empty names to remove: a filter exactly when no two of them are adjacent in the list. |
| MachineList.AdjacentNameSurvives | internal/broker/plans.go:248-260 | Of two adjacent listed names the second one stays. |
| MachineList.DuplicateOvershoots | internal/broker/plans.go:248-260 | A lone name listed twice for removal runs out of range. |

## Left out

- Storage failures, version conflicts and retries of the storage in requests: each request is one atomic step.
- HTTP, OAuth, JSON and schema validation, Kubernetes, Gardener and GraphQL clients: their outcomes are inputs.
- Parts of the provisioning validation that do not touch state (service id, EU access list, kubeconfig, region, Kyma version, lower-casing of the user id): one admissibility input, with the parameters as they are after it.
- Plan defaults depend on the plan only; the source also passes the cloud provider.
- Operation states of orchestrations (canceling, canceled, retrying) and upgrade operations: not produced by the modelled requests.
- Dashboard URLs, response labels, user agents and instance details copied between records.
- MarkAfterCheck: for a tenant with several bindings it is one direction only, because unordered listings leave open which of them an answered call and the mark see.
- Wall-clock time, ids and regular expressions: times are integers, ids positions, matching an input function.
- IPv6, IPv4-mapped addresses and the parsing of CIDR texts: a text is given as parsed or as malformed.
- CIS fetching from a service that never stops the loop, because every page reports a further page and no request is given up on: there is no result to describe.
- Creating, tagging and deleting AVS evaluations, the IAS and EDP clients, binding endpoints, configuration readers, weekday helpers: they would only add easy members.
- Aliasing of Go slices and maps beyond the modelled object: `MachineList` keeps the array, other collections are values in fields.
