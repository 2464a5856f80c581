/**
 What every step of the lifecycle machine keeps. A request is first reduced to a Delta:
 it inserts at most one operation and writes at most one instance, under conditions
 collected in Lawful. The invariants are then proved once for lawful deltas and once
 for worker steps.
 */
module BrokerInvariants {
  import opened Wrappers
  import opened Parameters
  import opened Broker

  // ----- the invariant -----

  /** An unfinished deletion has no newer deprovisioning operation of its instance after it. */
  ghost predicate DeletionsAreNewest(ops: seq<Operation>) {
    forall j, k :: 0 <= j < k < |ops| && ops[j].instanceID == ops[k].instanceID
                   && ops[k].kind == Deprovisioning
                   ==> !OngoingDeletion(ops[j])
  }

  /** A suspension newer than a deletion belongs to an expired instance. */
  ghost predicate ClosedAfterDeletion(s: Store) {
    forall j, k :: 0 <= j < k < |s.ops| && s.ops[j].instanceID == s.ops[k].instanceID
                   && s.ops[j].kind == Deprovisioning && !s.ops[j].temporary
                   && s.ops[k].kind == Deprovisioning && s.ops[k].temporary
                   && s.ops[j].instanceID in s.instances
                   ==> s.instances[s.ops[j].instanceID].expired
  }

  /** A deletion that succeeded with nothing left to retry has removed its instance. */
  ghost predicate DeletedAreGone(s: Store) {
    forall j :: 0 <= j < |s.ops| ==> GoneIfDeleted(s, s.ops[j])
  }

  ghost predicate GoneIfDeleted(s: Store, op: Operation) {
    op.state == Succeeded && DeletesInstance(op) ==> op.instanceID !in s.instances
  }

  /** Only trial instances get a second provisioning operation, an unsuspension, and it is stored as inactive. */
  ghost predicate SingleProvisioning(ops: seq<Operation>) {
    forall j, k :: 0 <= j < k < |ops| && ops[j].instanceID == ops[k].instanceID
                   && ops[j].kind == Provisioning && ops[k].kind == Provisioning
                   ==> && ops[j].params.planID == TRIAL_PLAN_ID && ops[k].params.planID == TRIAL_PLAN_ID
                       && ops[k].params.ersContext.active == Some(false)
  }

  ghost predicate Provisioned(ops: seq<Operation>, i: string) {
    exists k :: 0 <= k < |ops| && Matches(ops[k], i, OfKind(Provisioning))
  }

  /** Every operation belongs to an instance that was provisioned. */
  ghost predicate OperationsRooted(ops: seq<Operation>) {
    forall j :: 0 <= j < |ops| ==> Provisioned(ops, ops[j].instanceID)
  }

  /** Every instance has a started provisioning operation, so the storage finds a last operation for it. */
  ghost predicate InstancesRooted(s: Store) {
    forall i :: i in s.instances ==> Rooted(s.ops, i) && Consistent(s.instances[i])
  }

  ghost predicate Rooted(ops: seq<Operation>, i: string) {
    exists k :: 0 <= k < |ops| && Matches(ops[k], i, OfKind(Provisioning)) && ops[k].state != Pending
  }

  ghost predicate Consistent(i: Instance) {
    i.planID == i.params.planID && i.globalAccountID != ""
  }

  ghost predicate PlansAgree(s: Store) {
    forall j :: 0 <= j < |s.ops| && s.ops[j].instanceID in s.instances
                ==> s.ops[j].params.planID == s.instances[s.ops[j].instanceID].planID
  }

  /** Credentials seen by an operation are never missing on its instance. */
  ghost predicate CredentialsKept(s: Store) {
    forall j :: 0 <= j < |s.ops| && s.ops[j].instanceID in s.instances
                && s.ops[j].params.ersContext.credentials.Some?
                ==> s.instances[s.ops[j].instanceID].params.ersContext.credentials.Some?
  }

  /** An expired instance is inactive. */
  ghost predicate ExpiredInactive(s: Store) {
    forall i :: i in s.instances && s.instances[i].expired
                ==> s.instances[i].params.ersContext.active == Some(false)
  }

  /** The ids of the operations of one kind, in creation order. */
  function IdsOf(ops: seq<Operation>, kind: OperationKind): seq<nat> {
    if ops == [] then []
    else
      var n := |ops| - 1;
      IdsOf(ops[..n], kind) + if ops[n].kind == kind then [n] else []
  }

  /** Every stored operation was queued exactly once, with the workers of its kind, in creation order. */
  ghost predicate QueuesComplete(s: Store) {
    && s.provisioning == IdsOf(s.ops, Provisioning)
    && s.deprovisioning == IdsOf(s.ops, Deprovisioning)
    && s.updating == IdsOf(s.ops, Updating)
  }

  ghost predicate Inv(s: Store) {
    && DeletionsAreNewest(s.ops)
    && ClosedAfterDeletion(s)
    && DeletedAreGone(s)
    && SingleProvisioning(s.ops)
    && OperationsRooted(s.ops)
    && InstancesRooted(s)
    && PlansAgree(s)
    && CredentialsKept(s)
    && ExpiredInactive(s)
    && QueuesComplete(s)
  }

  // ----- requests as deltas -----

  datatype Delta =
    | Unchanged
    | Created(instanceID: string, params: ProvisioningParameters)
    | Changed(instanceID: string, written: Instance, inserted: Option<Operation>)

  function NewInstance(p: ProvisioningParameters): Instance {
    Instance(p.planID, p.ersContext.globalAccountID, "", p, false)
  }

  function Apply(s: Store, d: Delta): Store {
    match d
    case Unchanged => s
    case Created(id, p) => PutInstance(Insert(s, NewProvisioning(id, p, InProgress)), id, NewInstance(p))
    case Changed(id, i, None) => PutInstance(s, id, i)
    case Changed(id, i, Some(op)) => Insert(PutInstance(s, id, i), op)
  }

  /** What a request may change on an existing instance. */
  ghost predicate Evolves(i: Instance, i': Instance) {
    && i'.planID == i.planID
    && i'.params.planID == i.params.planID
    && (i.globalAccountID != "" ==> i'.globalAccountID != "")
    && (i.globalAccountID != "" ==> SubscriptionGlobalAccountID(i') == SubscriptionGlobalAccountID(i))
    && (i.params.ersContext.credentials.Some? ==> i'.params.ersContext.credentials.Some?)
    && (i.expired ==> i'.expired)
    && (i'.expired ==>
          || i'.params.ersContext.active == Some(false)
          || (i.expired && i'.params.ersContext.active == i.params.ersContext.active))
  }

  /** The conditions under which a request inserts an operation for a stored instance. */
  ghost predicate LawfulInsert(s: Store, op: Operation) {
    && op.instanceID in s.instances
    && var i := s.instances[op.instanceID];
    var last := LatestDeprovisioning(s, op.instanceID);
    && op.state == Pending
    && op.params.planID == i.params.planID
    && (op.params.ersContext.credentials.Some? ==> i.params.ersContext.credentials.Some?)
    && (op.kind == Deprovisioning ==> last.None? || !OngoingDeletion(s.ops[last.value]))
    && (op.kind == Deprovisioning && op.temporary ==> last.None? || s.ops[last.value].temporary || i.expired)
    && (op.kind == Provisioning ==> i.planID == TRIAL_PLAN_ID && op.params.ersContext.active == Some(false))
    && (op.kind != Deprovisioning ==> !i.expired)
  }

  ghost predicate Lawful(s: Store, d: Delta) {
    match d
    case Unchanged => true
    case Created(id, p) =>
      && Latest(s.ops, id, OfKind(Provisioning)).None?
      && p.ersContext.globalAccountID != ""
    case Changed(id, i, op) =>
      && id in s.instances
      && Evolves(s.instances[id], i)
      && (op.Some? ==> op.value.instanceID == id && LawfulInsert(PutInstance(s, id, i), op.value))
  }

  ghost predicate Concerns(d: Delta, instanceID: string) {
    d.Unchanged? || d.instanceID == instanceID
  }

  lemma ProvisionDelta(cfg: Config, s: Store, r: ProvisionRequest) returns (d: Delta)
    ensures Provision(cfg, s, r).0 == Apply(s, d) && Lawful(s, d) && Concerns(d, r.instanceID)
  {
    d := Unchanged;
    if WellFormed(cfg, r) && !TrialLimitHit(cfg, s, r.params) {
      if Latest(s.ops, r.instanceID, OfKind(Provisioning)).None? {
        d := Created(r.instanceID, WithLicence(r.params));
      }
    }
  }

  lemma DeprovisionDelta(s: Store, id: string) returns (d: Delta)
    ensures Deprovision(s, id).0 == Apply(s, d) && Lawful(s, d) && Concerns(d, id)
  {
    d := Unchanged;
    if id in s.instances {
      var last := LatestDeprovisioning(s, id);
      if last.None? || !AnswersDeprovision(s.ops[last.value]) {
        var i := s.instances[id];
        d := Changed(id, i, Some(NewDeprovisioning(id, i)));
        assert s.instances[id := i] == s.instances;
      }
    }
  }

  lemma ExpireDelta(s: Store, id: string) returns (d: Delta)
    ensures Expire(s, id).0 == Apply(s, d) && Lawful(s, d) && Concerns(d, id)
  {
    d := Unchanged;
    if id in s.instances && s.instances[id].planID == TRIAL_PLAN_ID {
      var i := s.instances[id].(expired := true);
      var last := LatestDeprovisioning(s, id);
      if last.Some? && !Finished(s.ops[last.value]) {
        d := Changed(id, Deactivated(i), None);
      } else {
        d := Changed(id, Deactivated(i), Some(NewSuspension(id, i)));
      }
      assert s.instances[id := i][id := Deactivated(i)] == s.instances[id := Deactivated(i)];
    }
  }

  /** The handler inserts a suspension, an unsuspension of a trial, or nothing. */
  lemma HandlerInserts(s: Store, u: UpdateRequest, i: Instance) returns (op: Option<Operation>)
    requires UpdateRefusal(s, u).None?
    requires HandlerReady(s, u.instanceID, i)
    requires HandleContextChange(s, u.instanceID, i, u.context).Handled?
    ensures var h := HandleContextChange(s, u.instanceID, i, u.context);
            && h.store == (if op.Some? then Insert(s, op.value) else s)
            && (op.Some? ==> h.changed)
    ensures op.Some? ==> op.value == NewSuspension(u.instanceID, i)
                         || (op.value == NewProvisioning(u.instanceID, i.params, Pending) && i.planID == TRIAL_PLAN_ID
                             && i.params.ersContext.active == Some(false))
  {
    var h := HandleContextChange(s, u.instanceID, i, u.context);
    if h.store == s {
      op := None;
    } else if h.store == Insert(s, NewSuspension(u.instanceID, i)) {
      op := Some(NewSuspension(u.instanceID, i));
    } else {
      op := Some(NewProvisioning(u.instanceID, i.params, Pending));
    }
  }

  /** The instance written by the context processing, and the operation its handler may insert. */
  lemma ContextDelta(cfg: Config, s: Store, u: UpdateRequest) returns (i': Instance, op: Option<Operation>)
    requires UpdateRefusal(s, u).None? && ProcessContext(cfg, s, u).Handled?
    ensures ProcessContext(cfg, s, u).store == Apply(s, Changed(u.instanceID, i', op))
    ensures Lawful(s, Changed(u.instanceID, i', op))
    ensures op.Some? ==> ProcessContext(cfg, s, u).changed
    ensures !i'.expired
    ensures i'.params.parameters == s.instances[u.instanceID].params.parameters
    ensures op.Some? ==> op.value.params.parameters == i'.params.parameters
  {
    var prov := Latest(s.ops, u.instanceID, OfKind(Provisioning)).value;
    var last := Latest(s.ops, u.instanceID, Started).value;
    var i := WithContext(s.instances[u.instanceID], MergedContext(s, u, prov, last));
    op := HandlerInserts(s, u, i);
    i' := ContextStored(cfg, i, u.context);
    assert Evolves(s.instances[u.instanceID], i');
  }

  /** The parameter processing adds an update operation to an instance it may rewrite. */
  lemma ParametersDelta(cfg: Config, s: Store, u: UpdateRequest, i: Instance) returns (d: Delta)
    requires u.instanceID in s.instances && Evolves(s.instances[u.instanceID], i) && !i.expired
    ensures ProcessParameters(cfg, PutInstance(s, u.instanceID, i), u).0 == Apply(s, d)
    ensures Lawful(s, d) && Concerns(d, u.instanceID)
  {
    var s1 := PutInstance(s, u.instanceID, i);
    d := Changed(u.instanceID, i, None);
    if ProcessParameters(cfg, s1, u).1.Async? {
      var p := GetOr(u.params, NO_UPDATE);
      var i' := if Persisted(p) then UpdatedInstance(i, p) else i;
      d := Changed(u.instanceID, i', Some(NewUpdate(u.instanceID, i, p)));
      assert s1.instances[u.instanceID := i'] == s.instances[u.instanceID := i'];
    }
  }

  lemma UpdateDelta(cfg: Config, s: Store, u: UpdateRequest) returns (d: Delta)
    ensures Update(cfg, s, u).0 == Apply(s, d) && Lawful(s, d) && Concerns(d, u.instanceID)
  {
    d := Unchanged;
    if UpdateRefusal(s, u).None? && cfg.processingEnabled && ProcessContext(cfg, s, u).Handled? {
      var i, op := ContextDelta(cfg, s, u);
      d := Changed(u.instanceID, i, op);
      if !ProcessContext(cfg, s, u).changed {
        d := ParametersDelta(cfg, s, u, i);
      }
    }
  }

  lemma RequestDelta(cfg: Config, s: Store, e: Event) returns (d: Delta)
    requires !IsWorkerStep(e)
    ensures Step(cfg, s, e) == Apply(s, d) && Lawful(s, d) && Concerns(d, Target(e))
  {
    match e
    case ProvisionCall(r) => d := ProvisionDelta(cfg, s, r);
    case UpdateCall(u) => d := UpdateDelta(cfg, s, u);
    case DeprovisionCall(i) => d := DeprovisionDelta(s, i);
    case ExpireCall(i) => d := ExpireDelta(s, i);
  }

  // ----- writing an instance -----

  lemma PutKeepsClosed(s: Store, id: string, i: Instance)
    requires ClosedAfterDeletion(s) && DeletedAreGone(s) && id in s.instances && Evolves(s.instances[id], i)
    ensures ClosedAfterDeletion(PutInstance(s, id, i)) && DeletedAreGone(PutInstance(s, id, i))
  {
  }

  lemma PutKeepsAgreement(s: Store, id: string, i: Instance)
    requires PlansAgree(s) && CredentialsKept(s) && id in s.instances && Evolves(s.instances[id], i)
    ensures PlansAgree(PutInstance(s, id, i)) && CredentialsKept(PutInstance(s, id, i))
  {
  }

  lemma PutKeepsInstances(s: Store, id: string, i: Instance)
    requires InstancesRooted(s) && ExpiredInactive(s) && id in s.instances && Evolves(s.instances[id], i)
    ensures InstancesRooted(PutInstance(s, id, i)) && ExpiredInactive(PutInstance(s, id, i))
  {
  }

  lemma PutKeepsInv(s: Store, id: string, i: Instance)
    requires Inv(s) && id in s.instances && Evolves(s.instances[id], i)
    ensures Inv(PutInstance(s, id, i))
  {
    PutKeepsClosed(s, id, i);
    PutKeepsAgreement(s, id, i);
    PutKeepsInstances(s, id, i);
  }

  // ----- inserting an operation -----

  lemma IdsAppend(ops: seq<Operation>, op: Operation, kind: OperationKind)
    ensures IdsOf(ops + [op], kind) == IdsOf(ops, kind) + if op.kind == kind then [|ops|] else []
  {
    assert (ops + [op])[..|ops|] == ops;
  }

  lemma InsertKeepsQueues(s: Store, op: Operation)
    requires QueuesComplete(s)
    ensures QueuesComplete(Insert(s, op))
  {
    IdsAppend(s.ops, op, Provisioning);
    IdsAppend(s.ops, op, Deprovisioning);
    IdsAppend(s.ops, op, Updating);
  }

  lemma InsertKeepsRoots(ops: seq<Operation>, op: Operation, i: string)
    ensures Provisioned(ops, i) ==> Provisioned(ops + [op], i)
    ensures Rooted(ops, i) ==> Rooted(ops + [op], i)
  {
    if Provisioned(ops, i) {
      var k :| 0 <= k < |ops| && Matches(ops[k], i, OfKind(Provisioning));
      assert (ops + [op])[k] == ops[k];
    }
    if Rooted(ops, i) {
      var k :| 0 <= k < |ops| && Matches(ops[k], i, OfKind(Provisioning)) && ops[k].state != Pending;
      assert (ops + [op])[k] == ops[k];
    }
  }

  lemma InsertKeepsAllRoots(s: Store, op: Operation)
    requires OperationsRooted(s.ops) && InstancesRooted(s)
    requires Provisioned(s.ops + [op], op.instanceID)
    ensures OperationsRooted(Insert(s, op).ops) && InstancesRooted(Insert(s, op))
  {
    forall i
      ensures Provisioned(s.ops, i) ==> Provisioned(s.ops + [op], i)
      ensures Rooted(s.ops, i) ==> Rooted(s.ops + [op], i)
    {
      InsertKeepsRoots(s.ops, op, i);
    }
  }

  /** When the newest deprovisioning operation is no ongoing deletion, none is. */
  lemma NewestTellsAll(s: Store, id: string)
    requires DeletionsAreNewest(s.ops)
    ensures var last := LatestDeprovisioning(s, id);
            last.None? || !OngoingDeletion(s.ops[last.value])
            ==> forall j :: 0 <= j < |s.ops| && s.ops[j].instanceID == id ==> !OngoingDeletion(s.ops[j])
  {
    var last := LatestDeprovisioning(s, id);
    forall j | 0 <= j < |s.ops| && Matches(s.ops[j], id, OfKind(Deprovisioning)) && j != last.value
      ensures !OngoingDeletion(s.ops[j])
    {
      assert j < last.value;
    }
  }

  lemma InsertKeepsDeletionOrder(s: Store, op: Operation)
    requires DeletionsAreNewest(s.ops) && LawfulInsert(s, op)
    ensures DeletionsAreNewest(Insert(s, op).ops)
  {
    NewestTellsAll(s, op.instanceID);
  }

  lemma InsertKeepsClosed(s: Store, op: Operation)
    requires ClosedAfterDeletion(s) && DeletedAreGone(s) && LawfulInsert(s, op)
    ensures ClosedAfterDeletion(Insert(s, op)) && DeletedAreGone(Insert(s, op))
  {
    var last := LatestDeprovisioning(s, op.instanceID);
    forall j | 0 <= j < |s.ops| && Matches(s.ops[j], op.instanceID, OfKind(Deprovisioning)) && !s.ops[j].temporary
      ensures op.kind == Deprovisioning && op.temporary ==> s.instances[op.instanceID].expired
    {
      assert j < last.value || j == last.value;
    }
  }

  lemma InsertKeepsAgreement(s: Store, op: Operation)
    requires SingleProvisioning(s.ops) && PlansAgree(s) && CredentialsKept(s) && LawfulInsert(s, op)
    requires Consistent(s.instances[op.instanceID])
    ensures SingleProvisioning(Insert(s, op).ops) && PlansAgree(Insert(s, op)) && CredentialsKept(Insert(s, op))
  {
  }

  lemma InsertKeepsInv(s: Store, op: Operation)
    requires Inv(s) && LawfulInsert(s, op)
    ensures Inv(Insert(s, op))
  {
    InsertKeepsDeletionOrder(s, op);
    InsertKeepsClosed(s, op);
    InsertKeepsRoots(s.ops, op, op.instanceID);
    InsertKeepsAllRoots(s, op);
    InsertKeepsAgreement(s, op);
    InsertKeepsQueues(s, op);
  }

  // ----- creating an instance -----

  /** An instance that was never provisioned has no operation of any kind. */
  lemma FreshIsAlone(s: Store, id: string)
    requires OperationsRooted(s.ops) && Latest(s.ops, id, OfKind(Provisioning)).None?
    ensures forall j :: 0 <= j < |s.ops| ==> s.ops[j].instanceID != id
  {
  }

  lemma CreateKeepsOrder(s: Store, id: string, p: ProvisioningParameters)
    requires DeletionsAreNewest(s.ops) && SingleProvisioning(s.ops) && ClosedAfterDeletion(s)
    requires forall j :: 0 <= j < |s.ops| ==> s.ops[j].instanceID != id
    ensures var s' := Apply(s, Created(id, p));
            DeletionsAreNewest(s'.ops) && SingleProvisioning(s'.ops) && ClosedAfterDeletion(s')
  {
  }

  lemma CreateKeepsAgreement(s: Store, id: string, p: ProvisioningParameters)
    requires PlansAgree(s) && CredentialsKept(s) && ExpiredInactive(s) && DeletedAreGone(s)
    requires forall j :: 0 <= j < |s.ops| ==> s.ops[j].instanceID != id
    ensures var s' := Apply(s, Created(id, p));
            PlansAgree(s') && CredentialsKept(s') && ExpiredInactive(s') && DeletedAreGone(s')
  {
  }

  lemma CreateKeepsRoots(s: Store, id: string, p: ProvisioningParameters)
    requires OperationsRooted(s.ops) && InstancesRooted(s) && p.ersContext.globalAccountID != ""
    ensures OperationsRooted(Apply(s, Created(id, p)).ops) && InstancesRooted(Apply(s, Created(id, p)))
  {
    var op := NewProvisioning(id, p, InProgress);
    assert Matches((s.ops + [op])[|s.ops|], id, OfKind(Provisioning));
    InsertKeepsAllRoots(s, op);
  }

  lemma CreateKeepsInv(s: Store, id: string, p: ProvisioningParameters)
    requires Inv(s) && Lawful(s, Created(id, p))
    ensures Inv(Apply(s, Created(id, p)))
  {
    FreshIsAlone(s, id);
    CreateKeepsOrder(s, id, p);
    CreateKeepsAgreement(s, id, p);
    CreateKeepsRoots(s, id, p);
    InsertKeepsQueues(s, NewProvisioning(id, p, InProgress));
  }

  lemma ApplyKeepsInv(s: Store, d: Delta)
    requires Inv(s) && Lawful(s, d)
    ensures Inv(Apply(s, d))
  {
    match d
    case Unchanged =>
    case Created(id, p) => CreateKeepsInv(s, id, p);
    case Changed(id, i, None) => PutKeepsInv(s, id, i);
    case Changed(id, i, Some(op)) =>
      PutKeepsInv(s, id, i);
      InsertKeepsInv(PutInstance(s, id, i), op);
  }

  // ----- each endpoint -----

  lemma ProvisionKeepsInv(cfg: Config, s: Store, r: ProvisionRequest)
    requires Inv(s)
    ensures Inv(Provision(cfg, s, r).0)
  {
    var d := ProvisionDelta(cfg, s, r);
    ApplyKeepsInv(s, d);
  }

  lemma UpdateKeepsInv(cfg: Config, s: Store, u: UpdateRequest)
    requires Inv(s)
    ensures Inv(Update(cfg, s, u).0)
  {
    var d := UpdateDelta(cfg, s, u);
    ApplyKeepsInv(s, d);
  }

  lemma DeprovisionKeepsInv(s: Store, i: string)
    requires Inv(s)
    ensures Inv(Deprovision(s, i).0)
  {
    var d := DeprovisionDelta(s, i);
    ApplyKeepsInv(s, d);
  }

  lemma ExpireKeepsInv(s: Store, i: string)
    requires Inv(s)
    ensures Inv(Expire(s, i).0)
  {
    var d := ExpireDelta(s, i);
    ApplyKeepsInv(s, d);
  }

  // ----- worker steps -----

  /** What a worker may change on an operation. */
  ghost predicate Progresses(op: Operation, op': Operation) {
    && op'.instanceID == op.instanceID
    && op'.kind == op.kind
    && op'.temporary == op.temporary
    && op'.params.planID == op.params.planID
    && op'.params.parameters.autoScaler == op.params.parameters.autoScaler
    && op'.params.ersContext.active == op.params.ersContext.active
    && (Finished(op) ==> Finished(op'))
    && (op.state != Pending ==> op'.state != Pending)
    && (op.kind == Provisioning && op.state != Pending ==> SameRequest(op'.params, op.params))
  }

  ghost predicate CredentialsCovered(s: Store, op: Operation) {
    op.params.ersContext.credentials.Some? && op.instanceID in s.instances
    ==> s.instances[op.instanceID].params.ersContext.credentials.Some?
  }

  lemma SetKeepsOrder(s: Store, id: nat, op: Operation)
    requires DeletionsAreNewest(s.ops) && SingleProvisioning(s.ops) && ClosedAfterDeletion(s)
    requires id < |s.ops| && Progresses(s.ops[id], op)
    ensures var s' := SetOperation(s, id, op);
            DeletionsAreNewest(s'.ops) && SingleProvisioning(s'.ops) && ClosedAfterDeletion(s')
  {
  }

  lemma SetKeepsRoot(ops: seq<Operation>, id: nat, op: Operation, i: string)
    requires id < |ops| && Progresses(ops[id], op)
    ensures Provisioned(ops, i) ==> Provisioned(ops[id := op], i)
    ensures Rooted(ops, i) ==> Rooted(ops[id := op], i)
  {
    if Provisioned(ops, i) {
      var k :| 0 <= k < |ops| && Matches(ops[k], i, OfKind(Provisioning));
      assert Matches(ops[id := op][k], i, OfKind(Provisioning));
    }
    if Rooted(ops, i) {
      var k :| 0 <= k < |ops| && Matches(ops[k], i, OfKind(Provisioning)) && ops[k].state != Pending;
      assert Matches(ops[id := op][k], i, OfKind(Provisioning));
    }
  }

  lemma SetKeepsRoots(s: Store, id: nat, op: Operation)
    requires OperationsRooted(s.ops) && InstancesRooted(s)
    requires id < |s.ops| && Progresses(s.ops[id], op)
    ensures OperationsRooted(SetOperation(s, id, op).ops) && InstancesRooted(SetOperation(s, id, op))
  {
    forall i
      ensures Provisioned(s.ops, i) ==> Provisioned(s.ops[id := op], i)
      ensures Rooted(s.ops, i) ==> Rooted(s.ops[id := op], i)
    {
      SetKeepsRoot(s.ops, id, op, i);
    }
  }

  lemma {:induction false} SetKeepsIds(ops: seq<Operation>, id: nat, op: Operation, kind: OperationKind)
    requires id < |ops| && op.kind == ops[id].kind
    ensures IdsOf(ops[id := op], kind) == IdsOf(ops, kind)
  {
    var n := |ops| - 1;
    if id == n {
      assert ops[id := op][..n] == ops[..n];
    } else {
      assert ops[id := op][..n] == ops[..n][id := op];
      SetKeepsIds(ops[..n], id, op, kind);
    }
  }

  lemma SetKeepsAgreement(s: Store, id: nat, op: Operation)
    requires PlansAgree(s) && CredentialsKept(s) && DeletedAreGone(s)
    requires id < |s.ops| && Progresses(s.ops[id], op) && CredentialsCovered(s, op) && GoneIfDeleted(s, op)
    ensures PlansAgree(SetOperation(s, id, op)) && CredentialsKept(SetOperation(s, id, op))
    ensures DeletedAreGone(SetOperation(s, id, op))
  {
  }

  lemma SetKeepsQueues(s: Store, id: nat, op: Operation)
    requires QueuesComplete(s) && id < |s.ops| && op.kind == s.ops[id].kind
    ensures QueuesComplete(SetOperation(s, id, op))
  {
    SetKeepsIds(s.ops, id, op, Provisioning);
    SetKeepsIds(s.ops, id, op, Deprovisioning);
    SetKeepsIds(s.ops, id, op, Updating);
  }

  lemma SetKeepsInv(s: Store, id: nat, op: Operation)
    requires Inv(s) && id < |s.ops| && Progresses(s.ops[id], op) && CredentialsCovered(s, op) && GoneIfDeleted(s, op)
    ensures Inv(SetOperation(s, id, op))
  {
    SetKeepsOrder(s, id, op);
    SetKeepsRoots(s, id, op);
    SetKeepsAgreement(s, id, op);
    SetKeepsQueues(s, id, op);
  }

  lemma StartProgresses(s: Store, id: nat)
    requires CredentialsKept(s) && id < |s.ops| && s.ops[id].state == Pending
    ensures Progresses(s.ops[id], StartedOperation(s, s.ops[id]))
    ensures CredentialsCovered(s, StartedOperation(s, s.ops[id]))
  {
  }

  lemma InheritEvolves(i: Instance, e: ErsContext)
    ensures Evolves(i, Inherited(i, e))
  {
  }

  lemma StartKeepsInv(s: Store, id: nat)
    requires Inv(s)
    ensures Inv(StartOperation(s, id))
  {
    if id < |s.ops| && s.ops[id].state == Pending {
      var op := s.ops[id];
      StartProgresses(s, id);
      SetKeepsInv(s, id, StartedOperation(s, op));
      var s1 := SetOperation(s, id, StartedOperation(s, op));
      if op.kind == Updating && op.instanceID in s.instances {
        InheritEvolves(s.instances[op.instanceID], op.params.ersContext);
        PutKeepsInv(s1, op.instanceID, Inherited(s.instances[op.instanceID], op.params.ersContext));
      }
    }
  }

  function Without(s: Store, instanceID: string): Store {
    s.(instances := s.instances - {instanceID})
  }

  lemma DropKeepsClosed(s: Store, instanceID: string)
    requires ClosedAfterDeletion(s) && DeletedAreGone(s)
    ensures ClosedAfterDeletion(Without(s, instanceID)) && DeletedAreGone(Without(s, instanceID))
  {
    var s' := Without(s, instanceID);
    forall j | 0 <= j < |s'.ops|
      ensures GoneIfDeleted(s', s'.ops[j])
    {
      assert GoneIfDeleted(s, s.ops[j]);
    }
  }

  lemma DropKeepsAgreement(s: Store, instanceID: string)
    requires PlansAgree(s) && CredentialsKept(s)
    ensures PlansAgree(Without(s, instanceID)) && CredentialsKept(Without(s, instanceID))
  {
  }

  lemma DropKeepsInstances(s: Store, instanceID: string)
    requires InstancesRooted(s) && ExpiredInactive(s)
    ensures InstancesRooted(Without(s, instanceID)) && ExpiredInactive(Without(s, instanceID))
  {
  }

  lemma DropKeepsInv(s: Store, instanceID: string)
    requires Inv(s)
    ensures Inv(Without(s, instanceID))
  {
    DropKeepsClosed(s, instanceID);
    DropKeepsAgreement(s, instanceID);
    DropKeepsInstances(s, instanceID);
  }

  lemma RemoveKeepsInv(s: Store, id: nat)
    requires Inv(s)
    ensures Inv(RemoveInstance(s, id))
  {
    if RemoveInstance(s, id) != s {
      var p := s.ops[id].params;
      var op := s.ops[id].(params := p.(ersContext := p.ersContext.(userID := "")));
      SetKeepsInv(s, id, op);
      DropKeepsInv(SetOperation(s, id, op), op.instanceID);
    }
  }

  lemma FinishKeepsInv(s: Store, id: nat, succeeded: bool)
    requires Inv(s)
    ensures Inv(FinishOperation(s, id, succeeded))
  {
    if FinishOperation(s, id, succeeded) != s {
      SetKeepsInv(s, id, s.ops[id].(state := if succeeded then Succeeded else Failed));
    }
  }

  lemma ResolveKeepsInv(s: Store, id: nat, secret: string)
    requires Inv(s)
    ensures Inv(ResolveCredentials(s, id, secret))
  {
    if ResolveCredentials(s, id, secret) != s {
      var p := s.ops[id].params;
      SetKeepsInv(s, id, s.ops[id].(params := p.(parameters := p.parameters.(targetSecret := Some(secret)))));
    }
  }

  lemma SkipKeepsInv(s: Store, id: nat, step: string)
    requires Inv(s)
    ensures Inv(SkipStep(s, id, step))
  {
    if SkipStep(s, id, step) != s {
      SetKeepsInv(s, id, s.ops[id].(retrySteps := s.ops[id].retrySteps + [step]));
    }
  }

  lemma StartStepKeepsInv(cfg: Config, s: Store, e: Event)
    requires Inv(s) && e.StartStep?
    ensures Inv(Step(cfg, s, e))
  {
    StartKeepsInv(s, e.id);
  }

  lemma FinishStepKeepsInv(cfg: Config, s: Store, e: Event)
    requires Inv(s) && e.FinishStep?
    ensures Inv(Step(cfg, s, e))
  {
    FinishKeepsInv(s, e.id, e.succeeded);
  }

  lemma ResolveStepKeepsInv(cfg: Config, s: Store, e: Event)
    requires Inv(s) && e.ResolveStep?
    ensures Inv(Step(cfg, s, e))
  {
    ResolveKeepsInv(s, e.id, e.secret);
  }

  lemma SkippedStepKeepsInv(cfg: Config, s: Store, e: Event)
    requires Inv(s) && e.SkippedStep?
    ensures Inv(Step(cfg, s, e))
  {
    SkipKeepsInv(s, e.id, e.step);
  }

  lemma RemoveStepKeepsInv(cfg: Config, s: Store, e: Event)
    requires Inv(s) && e.RemoveStep?
    ensures Inv(Step(cfg, s, e))
  {
    RemoveKeepsInv(s, e.id);
  }

  lemma WorkerKeepsInv(cfg: Config, s: Store, e: Event)
    requires Inv(s) && IsWorkerStep(e)
    ensures Inv(Step(cfg, s, e))
  {
    if e.StartStep? {
      StartStepKeepsInv(cfg, s, e);
    } else if e.FinishStep? {
      FinishStepKeepsInv(cfg, s, e);
    } else if e.ResolveStep? {
      ResolveStepKeepsInv(cfg, s, e);
    } else if e.SkippedStep? {
      SkippedStepKeepsInv(cfg, s, e);
    } else {
      RemoveStepKeepsInv(cfg, s, e);
    }
  }

  // ----- runs -----

  lemma StepKeepsInv(cfg: Config, s: Store, e: Event)
    requires Inv(s)
    ensures Inv(Step(cfg, s, e))
  {
    if IsWorkerStep(e) {
      WorkerKeepsInv(cfg, s, e);
    } else {
      var d := RequestDelta(cfg, s, e);
      ApplyKeepsInv(s, d);
    }
  }

  lemma {:induction false} RunKeepsInv(cfg: Config, s: Store, run: seq<Event>)
    requires Inv(s)
    ensures Inv(Run(cfg, s, run))
    decreases |run|
  {
    if run != [] {
      StepKeepsInv(cfg, s, run[0]);
      RunKeepsInv(cfg, Step(cfg, s, run[0]), run[1..]);
    }
  }

  lemma ReachableInv(cfg: Config, run: seq<Event>)
    ensures Inv(Run(cfg, EMPTY, run))
  {
    RunKeepsInv(cfg, EMPTY, run);
  }

  // ----- what a run does to one operation and one instance -----

  ghost predicate Extends(ops: seq<Operation>, ops': seq<Operation>) {
    |ops| <= |ops'| && forall j :: 0 <= j < |ops| ==> Progresses(ops[j], ops'[j])
  }

  lemma ApplyExtends(s: Store, d: Delta)
    ensures Extends(s.ops, Apply(s, d).ops)
  {
  }

  lemma WorkerExtends(cfg: Config, s: Store, e: Event)
    requires CredentialsKept(s) && IsWorkerStep(e)
    ensures Extends(s.ops, Step(cfg, s, e).ops)
  {
    var s' := Step(cfg, s, e);
    if e.StartStep? && e.id < |s.ops| && s.ops[e.id].state == Pending {
      StartProgresses(s, e.id);
    }
    if s'.ops != s.ops {
      assert s'.ops == s.ops[e.id := s'.ops[e.id]];
      SetExtends(s.ops, e.id, s'.ops[e.id]);
    }
  }

  lemma SetExtends(ops: seq<Operation>, id: nat, op: Operation)
    requires id < |ops| && Progresses(ops[id], op)
    ensures Extends(ops, ops[id := op])
  {
  }

  lemma StepExtends(cfg: Config, s: Store, e: Event)
    requires CredentialsKept(s)
    ensures Extends(s.ops, Step(cfg, s, e).ops)
  {
    if IsWorkerStep(e) {
      WorkerExtends(cfg, s, e);
    } else {
      var d := RequestDelta(cfg, s, e);
      ApplyExtends(s, d);
    }
  }

  lemma {:induction false} RunExtends(cfg: Config, s: Store, run: seq<Event>)
    requires Inv(s)
    ensures Extends(s.ops, Run(cfg, s, run).ops)
    decreases |run|
  {
    if run != [] {
      StepExtends(cfg, s, run[0]);
      StepKeepsInv(cfg, s, run[0]);
      RunExtends(cfg, Step(cfg, s, run[0]), run[1..]);
    }
  }

  lemma ApplyEvolves(s: Store, d: Delta, i: string)
    requires InstancesRooted(s) && Lawful(s, d)
    ensures var s' := Apply(s, d);
            && (i in s.instances ==> i in s'.instances && Evolves(s.instances[i], s'.instances[i]))
            && (i !in s.instances && i in s'.instances ==> !Provisioned(s.ops, i))
  {
  }

  lemma WorkerEvolves(cfg: Config, s: Store, e: Event, i: string)
    requires IsWorkerStep(e)
    ensures var s' := Step(cfg, s, e);
            i in s'.instances ==> i in s.instances && Evolves(s.instances[i], s'.instances[i])
  {
    if e.StartStep? && e.id < |s.ops| && i in s.instances {
      InheritEvolves(s.instances[i], s.ops[e.id].params.ersContext);
    }
  }

  /** A step evolves a stored instance or removes it, and never brings a provisioned one back. */
  lemma StepEvolves(cfg: Config, s: Store, e: Event, i: string)
    requires InstancesRooted(s)
    ensures var s' := Step(cfg, s, e);
            && (i in s.instances && i in s'.instances ==> Evolves(s.instances[i], s'.instances[i]))
            && (i !in s.instances && Provisioned(s.ops, i) ==> i !in s'.instances)
  {
    if IsWorkerStep(e) {
      WorkerEvolves(cfg, s, e, i);
    } else {
      var d := RequestDelta(cfg, s, e);
      ApplyEvolves(s, d, i);
    }
  }

  lemma ProvisionedStays(ops: seq<Operation>, ops': seq<Operation>, i: string)
    requires Extends(ops, ops') && Provisioned(ops, i)
    ensures Provisioned(ops', i)
  {
    var k :| 0 <= k < |ops| && Matches(ops[k], i, OfKind(Provisioning));
    assert Progresses(ops[k], ops'[k]) && Matches(ops'[k], i, OfKind(Provisioning));
  }

  /** Over a run a stored instance evolves until it is removed; once removed it stays away. */
  lemma {:induction false} RunEvolves(cfg: Config, s: Store, run: seq<Event>, i: string)
    requires Inv(s) && Provisioned(s.ops, i)
    ensures i in Run(cfg, s, run).instances ==>
              i in s.instances && Evolves(s.instances[i], Run(cfg, s, run).instances[i])
    decreases |run|
  {
    if run != [] {
      var s1, s' := Step(cfg, s, run[0]), Run(cfg, s, run);
      StepEvolvesOn(cfg, s, run[0], i);
      StepKeepsInv(cfg, s, run[0]);
      RunEvolves(cfg, s1, run[1..], i);
      if i in s'.instances {
        EvolvesTransitive(s.instances[i], s1.instances[i], s'.instances[i]);
      }
    }
  }

  lemma EvolvesTransitive(a: Instance, b: Instance, c: Instance)
    requires Evolves(a, b) && Evolves(b, c)
    ensures Evolves(a, c)
  {
  }

  lemma StepEvolvesOn(cfg: Config, s: Store, e: Event, i: string)
    requires InstancesRooted(s) && CredentialsKept(s) && Provisioned(s.ops, i)
    ensures var s' := Step(cfg, s, e);
            && Provisioned(s'.ops, i)
            && (i in s'.instances ==> i in s.instances && Evolves(s.instances[i], s'.instances[i]))
  {
    StepEvolves(cfg, s, e, i);
    StepExtends(cfg, s, e);
    ProvisionedStays(s.ops, Step(cfg, s, e).ops, i);
  }
}
