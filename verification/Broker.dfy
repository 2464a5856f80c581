/**
 The service-instance lifecycle: Provision, Update, Deprovision, Expire and the
 suspension handler as steps over the stored instances, operations and queues
 (internal/broker/instance_create.go, instance_update.go, instance_deprovision.go,
 internal/expiration/handler.go, internal/suspension/handler.go).

 Operations are kept in creation order and an operation's id is its position, so
 "the newest operation such that ..." is the last position such that ... .
 */
module Broker {
  import opened Wrappers
  import opened Parameters

  const TRIAL_PLAN_ID := "7d55d31d-35ae-4438-bf13-6ffdfa107d9f"
  const AZURE_LITE_PLAN_ID := "8cb22518-aa26-44c5-91a0-e669ec9bf443"
  const LICENCE_TYPE_LITE := "TestDevelopmentAndDemo"

  datatype OperationKind = Provisioning | Deprovisioning | Updating

  datatype OperationState = Pending | InProgress | Succeeded | Failed

  /** `temporary` marks a suspension; `retrySteps` are the steps executed but not completed. */
  datatype Operation = Operation(
    instanceID: string,
    kind: OperationKind,
    state: OperationState,
    temporary: bool,
    retrySteps: seq<string>,
    params: ProvisioningParameters)

  datatype Instance = Instance(
    planID: string,
    globalAccountID: string,
    subscriptionGlobalAccountID: string,
    params: ProvisioningParameters,
    expired: bool)

  datatype Store = Store(
    instances: map<string, Instance>,
    ops: seq<Operation>,
    provisioning: seq<nat>,
    deprovisioning: seq<nat>,
    updating: seq<nat>)

  datatype Config = Config(
    processingEnabled: bool,
    subAccountMovementEnabled: bool,
    onlySingleTrialPerGA: bool,
    planDefaults: string -> Option<Bounds>)

  /** An OSB answer: an accepted asynchronous operation, a plain success, or an HTTP error. */
  datatype Response = Async(operation: nat) | Sync | Rejected(status: nat)

  /** `admissible` is the outcome of the checks not modelled here (service id, schema, networking, ...). */
  datatype ProvisionRequest = ProvisionRequest(
    instanceID: string,
    params: ProvisioningParameters,
    admissible: bool)

  datatype UpdateRequest = UpdateRequest(
    instanceID: string,
    planID: string,
    context: ErsContext,
    params: Option<UpdatingParameters>,
    schemaValid: bool,
    oidcValid: bool,
    asyncAllowed: bool)

  // ----- storage -----

  datatype Query = OfKind(kind: OperationKind) | Started

  predicate Matches(op: Operation, instanceID: string, q: Query) {
    && op.instanceID == instanceID
    && match q
       case OfKind(k) => op.kind == k
       case Started => op.state != Pending
  }

  /** The newest matching operation: the storage query ordered by creation time, descending. */
  function Latest(ops: seq<Operation>, instanceID: string, q: Query): (r: Option<nat>)
    ensures r.Some? ==> r.value < |ops| && Matches(ops[r.value], instanceID, q)
    ensures forall j :: 0 <= j < |ops| && Matches(ops[j], instanceID, q) ==> r.Some? && j <= r.value
  {
    if ops == [] then None
    else
      var n := |ops| - 1;
      if Matches(ops[n], instanceID, q) then Some(n) else Latest(ops[..n], instanceID, q)
  }

  function LatestDeprovisioning(s: Store, instanceID: string): (r: Option<nat>)
    ensures r.Some? ==> r.value < |s.ops| && Matches(s.ops[r.value], instanceID, OfKind(Deprovisioning))
  {
    Latest(s.ops, instanceID, OfKind(Deprovisioning))
  }

  /** Stores a new operation and hands its id to the queue of its kind. */
  function Insert(s: Store, op: Operation): Store {
    var id := |s.ops|;
    var s' := s.(ops := s.ops + [op]);
    match op.kind
    case Provisioning => s'.(provisioning := s.provisioning + [id])
    case Deprovisioning => s'.(deprovisioning := s.deprovisioning + [id])
    case Updating => s'.(updating := s.updating + [id])
  }

  function PutInstance(s: Store, instanceID: string, i: Instance): Store {
    s.(instances := s.instances[instanceID := i])
  }

  function SetOperation(s: Store, id: nat, op: Operation): Store
    requires id < |s.ops|
  {
    s.(ops := s.ops[id := op])
  }

  predicate Finished(op: Operation) {
    op.state == Succeeded || op.state == Failed
  }

  /** An unfinished operation that removes the instance. */
  predicate OngoingDeletion(op: Operation) {
    op.kind == Deprovisioning && !op.temporary && !Finished(op)
  }

  function NewDeprovisioning(instanceID: string, i: Instance): Operation {
    Operation(instanceID, Deprovisioning, Pending, false, [], i.params)
  }

  function NewSuspension(instanceID: string, i: Instance): Operation {
    Operation(instanceID, Deprovisioning, Pending, true, [], i.params)
  }

  function NewProvisioning(instanceID: string, params: ProvisioningParameters, state: OperationState): Operation {
    Operation(instanceID, Provisioning, state, false, [], params)
  }

  // ----- Provision -----

  /** The request as stored: trial and azure_lite plans get the lite licence type, others none. */
  function WithLicence(p: ProvisioningParameters): ProvisioningParameters {
    p.(parameters := p.parameters.(licenceType :=
      if p.planID == AZURE_LITE_PLAN_ID || p.planID == TRIAL_PLAN_ID then Some(LICENCE_TYPE_LITE) else None))
  }

  predicate AccountHasInstance(s: Store, globalAccountID: string) {
    exists i :: i in s.instances && s.instances[i].globalAccountID == globalAccountID
  }

  /** True when the single-trial limit turns the request down. */
  predicate TrialLimitHit(cfg: Config, s: Store, p: ProvisioningParameters) {
    p.planID == TRIAL_PLAN_ID && cfg.onlySingleTrialPerGA && AccountHasInstance(s, p.ersContext.globalAccountID)
  }

  /** The part of the request validation that does not look at the store. */
  predicate WellFormed(cfg: Config, r: ProvisionRequest) {
    && r.admissible
    && r.params.ersContext.globalAccountID != ""
    && r.params.ersContext.subAccountID != ""
    && r.params.ersContext.userID != ""
    && cfg.planDefaults(r.params.planID).Some?
    && Validates(r.params.parameters.autoScaler, cfg.planDefaults(r.params.planID).value)
  }

  function HandleExisting(s: Store, id: nat, input: ProvisioningParameters): Response
    requires id < |s.ops|
  {
    if !IsEqual(s.ops[id].params, input) then Rejected(409)
    else if s.ops[id].instanceID !in s.instances then Rejected(409)
    else Async(id)
  }

  function Provision(cfg: Config, s: Store, r: ProvisionRequest): (Store, Response) {
    if !WellFormed(cfg, r) || TrialLimitHit(cfg, s, r.params) then (s, Rejected(400))
    else
      var params := WithLicence(r.params);
      match Latest(s.ops, r.instanceID, OfKind(Provisioning))
      case Some(id) => (s, HandleExisting(s, id, params))
      case None =>
        var s1 := Insert(s, NewProvisioning(r.instanceID, params, InProgress));
        var i := Instance(params.planID, params.ersContext.globalAccountID, "", params, false);
        (PutInstance(s1, r.instanceID, i), Async(|s.ops|))
  }

  // ----- Deprovision -----

  /** The newest deprovisioning operation answers the call when no new one is needed. */
  predicate AnswersDeprovision(op: Operation) {
    !op.temporary && (!Finished(op) || (op.state == Succeeded && op.retrySteps == []))
  }

  function Deprovision(s: Store, instanceID: string): (Store, Response) {
    if instanceID !in s.instances then (s, Sync)
    else
      var last := LatestDeprovisioning(s, instanceID);
      if last.Some? && AnswersDeprovision(s.ops[last.value]) then (s, Async(last.value))
      else (Insert(s, NewDeprovisioning(instanceID, s.instances[instanceID])), Async(|s.ops|))
  }

  // ----- Expire -----

  function SuspendExpired(s: Store, instanceID: string, i: Instance): (Store, nat) {
    var last := LatestDeprovisioning(s, instanceID);
    if last.Some? && (s.ops[last.value].state == Pending || s.ops[last.value].state == InProgress)
    then (s, last.value)
    else (Insert(s, NewSuspension(instanceID, i)), |s.ops|)
  }

  function Deactivated(i: Instance): Instance {
    i.(params := i.params.(ersContext := i.params.ersContext.(active := Some(false))))
  }

  function Expire(s: Store, instanceID: string): (Store, Response) {
    if instanceID !in s.instances then (s, Rejected(404))
    else if s.instances[instanceID].planID != TRIAL_PLAN_ID then (s, Rejected(400))
    else
      var i := s.instances[instanceID].(expired := true);
      var (s1, id) := SuspendExpired(PutInstance(s, instanceID, i), instanceID, i);
      (PutInstance(s1, instanceID, Deactivated(i)), Async(id))
  }

  // ----- suspension handler -----

  datatype Handled = Handled(store: Store, changed: bool) | HandlerFailed

  function Suspend(s: Store, instanceID: string, i: Instance): Store {
    var last := LatestDeprovisioning(s, instanceID);
    if last.Some? && (s.ops[last.value].state == InProgress || s.ops[last.value].state == Pending) then s
    else Insert(s, NewSuspension(instanceID, i))
  }

  function Unsuspend(s: Store, instanceID: string, i: Instance): Store {
    if i.expired then s
    else Insert(s, NewProvisioning(instanceID, i.params, Pending))
  }

  /** The handler reads the newest deprovisioning operation of an inactive instance without a nil check. */
  predicate HandlerReady(s: Store, instanceID: string, i: Instance) {
    i.params.ersContext.active == Some(false) ==> LatestDeprovisioning(s, instanceID).Some?
  }

  function HandleContextChange(s: Store, instanceID: string, i: Instance, context: ErsContext): Handled
    requires HandlerReady(s, instanceID, i)
  {
    if i.planID != TRIAL_PLAN_ID then Handled(s, false)
    else
      var activated := GetOr(i.params.ersContext.active, true);
      var last := LatestDeprovisioning(s, instanceID);
      if context.active.None? || activated == context.active.value then
        if activated then Handled(s, false)
        else if s.ops[last.value].state == Failed then Handled(Suspend(s, instanceID, i), true)
        else Handled(s, false)
      else if context.active.value then
        if i.expired then Handled(s, false)
        else if last.Some? && !s.ops[last.value].temporary then Handled(s, false)
        else if last.Some? && s.ops[last.value].state == Failed then HandlerFailed
        else Handled(Unsuspend(s, instanceID, i), true)
      else Handled(Suspend(s, instanceID, i), true)
  }

  // ----- Update -----

  /** The checks made before anything is changed; None means the update goes ahead. */
  function UpdateRefusal(s: Store, u: UpdateRequest): Option<nat> {
    if u.instanceID !in s.instances then Some(404)
    else if u.params.Some? && !u.schemaValid then Some(400)
    else if s.instances[u.instanceID].expired then Some(400)
    else
      var prov := Latest(s.ops, u.instanceID, OfKind(Provisioning));
      var deprov := LatestDeprovisioning(s, u.instanceID);
      if prov.None? then Some(500)
      else if s.ops[prov.value].state == Failed then Some(422)
      else if deprov.Some? && !s.ops[deprov.value].temporary then Some(422)
      else None
  }

  /** Active unless a deprovisioning (suspension) is newer than the last provisioning. */
  function ExtractActive(s: Store, instanceID: string, prov: nat): bool {
    var deprov := LatestDeprovisioning(s, instanceID);
    deprov.None? || deprov.value < prov
  }

  /** The instance context rebuilt from the provisioning operation, the last operation and the request. */
  function MergedContext(s: Store, u: UpdateRequest, prov: nat, last: nat): ErsContext
    requires u.instanceID in s.instances && prov < |s.ops| && last < |s.ops|
  {
    var base := s.ops[prov].params.ersContext.(
    credentials := s.instances[u.instanceID].params.ersContext.credentials,
    active := Some(ExtractActive(s, u.instanceID, prov)));
    UpdateContext(InheritMissing(base, s.ops[last].params.ersContext), u.context)
  }

  /** Records the account an instance is moved to, keeping the first account as the subscription's. */
  function Moved(cfg: Config, i: Instance, globalAccountID: string): Instance {
    if cfg.subAccountMovementEnabled && i.globalAccountID != globalAccountID && globalAccountID != "" then
      i.(globalAccountID := globalAccountID,
      subscriptionGlobalAccountID :=
        if i.subscriptionGlobalAccountID == "" then i.globalAccountID else i.subscriptionGlobalAccountID)
    else i
  }

  function SubscriptionGlobalAccountID(i: Instance): string {
    if i.subscriptionGlobalAccountID != "" then i.subscriptionGlobalAccountID else i.globalAccountID
  }

  function WithContext(i: Instance, e: ErsContext): Instance {
    i.(params := i.params.(ersContext := e))
  }

  /** The instance as the context processing stores it. */
  function ContextStored(cfg: Config, i: Instance, context: ErsContext): Instance {
    var e := i.params.ersContext;
    Moved(cfg, WithContext(i, e.(active := FirstOf(context.active, e.active))), context.globalAccountID)
  }

  function ProcessContext(cfg: Config, s: Store, u: UpdateRequest): Handled
    requires UpdateRefusal(s, u).None?
  {
    var prov := Latest(s.ops, u.instanceID, OfKind(Provisioning)).value;
    var last := Latest(s.ops, u.instanceID, Started);
    if last.None? then HandlerFailed
    else
      var i := WithContext(s.instances[u.instanceID], MergedContext(s, u, prov, last.value));
      match HandleContextChange(s, u.instanceID, i, u.context)
      case HandlerFailed => HandlerFailed
      case Handled(s1, changed) => Handled(PutInstance(s1, u.instanceID, ContextStored(cfg, i, u.context)), changed)
  }

  function NewUpdate(instanceID: string, i: Instance, p: UpdatingParameters): Operation {
    var r := i.params.parameters;
    var r' := r.(
    oidc := FirstOf(p.oidc, r.oidc),
    administrators := if p.administrators != [] then p.administrators else r.administrators,
    autoScaler := UpdateAutoScaler(p.autoScaler, r.autoScaler),
    machineType := if MachineTypeGiven(p) then p.machineType else r.machineType);
    Operation(instanceID, Updating, Pending, false, [], i.params.(parameters := r'))
  }

  predicate MachineTypeGiven(p: UpdatingParameters) {
    p.machineType.Some? && p.machineType.value != ""
  }

  /** True when the update is written back to the instance. A machine type alone is not. */
  predicate Persisted(p: UpdatingParameters) {
    OidcProvided(p.oidc) || p.administrators != [] || UpdatesAutoScaler(p.autoScaler)
  }

  function UpdatedInstance(i: Instance, p: UpdatingParameters): Instance {
    var r := i.params.parameters;
    i.(params := i.params.(parameters := r.(
    oidc := if OidcProvided(p.oidc) then p.oidc else r.oidc,
    administrators := if p.administrators != [] then p.administrators else r.administrators,
    autoScaler := UpdateAutoScaler(p.autoScaler, r.autoScaler),
    machineType := if MachineTypeGiven(p) then p.machineType else r.machineType)))
  }

  /** The plan whose defaults an update is validated against. */
  function PlanForDefaults(i: Instance, u: UpdateRequest): string {
    if u.planID != "" then u.planID else i.params.planID
  }

  function ProcessParameters(cfg: Config, s: Store, u: UpdateRequest): (Store, Response)
    requires u.instanceID in s.instances
  {
    var i := s.instances[u.instanceID];
    var p := GetOr(u.params, NO_UPDATE);
    if u.params.None? && !CarriesContextUpdate(u.context) then (s, Sync)
    else if !u.asyncAllowed then (s, Rejected(422))
    else if OidcProvided(p.oidc) && !u.oidcValid then (s, Rejected(422))
    else
      var op := NewUpdate(u.instanceID, i, p);
      var defaults := cfg.planDefaults(PlanForDefaults(i, u));
      if defaults.None? then (s, Rejected(500))
      else if !Validates(op.params.parameters.autoScaler, defaults.value) then (s, Rejected(400))
      else
        var s1 := Insert(s, op);
        (if Persisted(p) then PutInstance(s1, u.instanceID, UpdatedInstance(i, p)) else s1, Async(|s.ops|))
  }

  function Update(cfg: Config, s: Store, u: UpdateRequest): (Store, Response) {
    var refusal := UpdateRefusal(s, u);
    if refusal.Some? then (s, Rejected(refusal.value))
    else if !cfg.processingEnabled then (s, Sync)
    else match ProcessContext(cfg, s, u)
         case HandlerFailed => (s, Rejected(500))
         case Handled(s1, changed) => if changed then (s1, Sync) else ProcessParameters(cfg, s1, u)
  }

  // ----- workers -----

  /** A started operation takes context values it misses from the last operation. */
  function StartedOperation(s: Store, op: Operation): Operation {
    var last := Latest(s.ops, op.instanceID, Started);
    var e := if last.Some? then InheritMissing(op.params.ersContext, s.ops[last.value].params.ersContext)
             else op.params.ersContext;
    op.(state := InProgress, params := op.params.(ersContext := e))
  }

  function Inherited(i: Instance, e: ErsContext): Instance {
    WithContext(i, InheritMissing(i.params.ersContext, e))
  }

  /** A worker moves a pending operation to "in progress"; an update also completes the instance's context. */
  function StartOperation(s: Store, id: nat): Store {
    if id >= |s.ops| || s.ops[id].state != Pending then s
    else
      var op := s.ops[id];
      var s1 := SetOperation(s, id, StartedOperation(s, op));
      if op.kind == Updating && op.instanceID in s.instances then
        PutInstance(s1, op.instanceID, Inherited(s.instances[op.instanceID], op.params.ersContext))
      else s1
  }

  /** A deletion that completed all its steps; such a deletion leaves no instance behind. */
  predicate DeletesInstance(op: Operation) {
    op.kind == Deprovisioning && !op.temporary && op.retrySteps == []
  }

  /**
   The process manager ends an operation. It reports success after the last stage only, and the last stage of a
   deprovisioning is the removal of the instance.
   */
  function FinishOperation(s: Store, id: nat, succeeded: bool): Store {
    if id >= |s.ops| || Finished(s.ops[id]) then s
    else if succeeded && DeletesInstance(s.ops[id]) && s.ops[id].instanceID in s.instances then s
    else SetOperation(s, id, s.ops[id].(state := if succeeded then Succeeded else Failed))
  }

  /** Credentials resolution writes the chosen secret into the provisioning operation. */
  function ResolveCredentials(s: Store, id: nat, secret: string): Store {
    if id >= |s.ops| || s.ops[id].state != InProgress || s.ops[id].kind != Provisioning then s
    else
      var p := s.ops[id].params;
      SetOperation(s, id, s.ops[id].(params := p.(parameters := p.parameters.(targetSecret := Some(secret)))))
  }

  function SkipStep(s: Store, id: nat, step: string): Store {
    if id >= |s.ops| || s.ops[id].state != InProgress || s.ops[id].kind != Deprovisioning then s
    else SetOperation(s, id, s.ops[id].(retrySteps := s.ops[id].retrySteps + [step]))
  }

  /** The last deprovisioning step deletes the instance, unless it is a suspension or steps are left to retry. */
  function RemoveInstance(s: Store, id: nat): Store {
    if id >= |s.ops| || s.ops[id].state != InProgress || !DeletesInstance(s.ops[id]) then s
    else
      var p := s.ops[id].params;
      var s1 := SetOperation(s, id, s.ops[id].(params := p.(ersContext := p.ersContext.(userID := ""))));
      s1.(instances := s.instances - {s.ops[id].instanceID})
  }

  // ----- runs -----

  datatype Event =
    | ProvisionCall(provision: ProvisionRequest)
    | UpdateCall(update: UpdateRequest)
    | DeprovisionCall(instanceID: string)
    | ExpireCall(instanceID: string)
    | StartStep(id: nat)
    | FinishStep(id: nat, succeeded: bool)
    | ResolveStep(id: nat, secret: string)
    | SkippedStep(id: nat, step: string)
    | RemoveStep(id: nat)

  predicate IsWorkerStep(e: Event) {
    e.StartStep? || e.FinishStep? || e.ResolveStep? || e.SkippedStep? || e.RemoveStep?
  }

  /** The instance a request names. */
  function Target(e: Event): string
    requires !IsWorkerStep(e)
  {
    match e
    case ProvisionCall(r) => r.instanceID
    case UpdateCall(u) => u.instanceID
    case DeprovisionCall(i) => i
    case ExpireCall(i) => i
  }

  function Step(cfg: Config, s: Store, e: Event): Store {
    match e
    case ProvisionCall(r) => Provision(cfg, s, r).0
    case UpdateCall(u) => Update(cfg, s, u).0
    case DeprovisionCall(i) => Deprovision(s, i).0
    case ExpireCall(i) => Expire(s, i).0
    case StartStep(id) => StartOperation(s, id)
    case FinishStep(id, ok) => FinishOperation(s, id, ok)
    case ResolveStep(id, secret) => ResolveCredentials(s, id, secret)
    case SkippedStep(id, step) => SkipStep(s, id, step)
    case RemoveStep(id) => RemoveInstance(s, id)
  }

  function Run(cfg: Config, s: Store, run: seq<Event>): Store
    decreases |run|
  {
    if run == [] then s else Run(cfg, Step(cfg, s, run[0]), run[1..])
  }

  const EMPTY := Store(map[], [], [], [], [])
}
