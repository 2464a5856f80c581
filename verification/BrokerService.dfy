/**
 The endpoints as they run: methods that read the storage, overwrite instance fields one by one,
 insert operations and append to the queues. Each takes the step of the same name in module Broker,
 keeps the storage invariant, and states what its caller can rely on afterwards.
 */
module BrokerService {
  import opened Wrappers
  import opened Parameters
  import B = Broker
  import I = BrokerInvariants
  import T = BrokerTheorems
  import U = BrokerUpdates
  import A = BrokerAnswers

  class Service {
    const cfg: B.Config
    var instances: map<string, B.Instance>
    var ops: seq<B.Operation>
    var provisioning: seq<nat>
    var deprovisioning: seq<nat>
    var updating: seq<nat>

    ghost function State(): B.Store
      reads this
    {
      B.Store(instances, ops, provisioning, deprovisioning, updating)
    }

    /** The storage is in a state that requests and workers can lead to. */
    ghost predicate Valid()
      reads this
    {
      I.Inv(State())
    }

    constructor (cfg: B.Config)
      ensures this.cfg == cfg && State() == B.EMPTY && Valid()
    {
      this.cfg := cfg;
      instances, ops, provisioning, deprovisioning, updating := map[], [], [], [], [];
    }

    /** Stores the operation, then queues its id. */
    method InsertAndQueue(op: B.Operation) returns (id: nat)
      modifies this`ops, this`provisioning, this`deprovisioning, this`updating
      ensures id == |old(ops)| && State() == B.Insert(old(State()), op)
    {
      id := |ops|;
      ops := ops + [op];
      match op.kind
      case Provisioning => provisioning := provisioning + [id];
      case Deprovisioning => deprovisioning := deprovisioning + [id];
      case Updating => updating := updating + [id];
    }

    /**
     An accepted request has an instance, and the newest provisioning operation of the instance is the answer and
     holds that request. Anything else, and any request for a stored instance, changes nothing.
     */
    method Provision(r: B.ProvisionRequest) returns (response: B.Response)
      requires Valid()
      modifies this
      ensures Valid() && (State(), response) == B.Provision(cfg, old(State()), r)
      ensures response.Async? ==>
                r.instanceID in instances && T.HeldBy(State(), r.instanceID, r.params, response.operation)
      ensures response.Rejected? || r.instanceID in old(instances) ==> State() == old(State())
    {
      ghost var s0 := State();
      response := HandleProvision(r);
      I.ProvisionKeepsInv(cfg, s0, r);
      T.AcceptedHolds(cfg, s0, r);
      T.ProvisionUnchanged(cfg, s0, r);
    }

    /** The body of Provision: the checks in their order, then the operation and the instance. */
    method HandleProvision(r: B.ProvisionRequest) returns (response: B.Response)
      modifies this
      ensures (State(), response) == B.Provision(cfg, old(State()), r)
    {
      if !B.WellFormed(cfg, r) {
        return B.Rejected(400);
      }
      if r.params.planID == B.TRIAL_PLAN_ID && cfg.onlySingleTrialPerGA {
        var ga := r.params.ersContext.globalAccountID;
        if exists i :: i in instances && instances[i].globalAccountID == ga {
          return B.Rejected(400);
        }
      }
      var params := B.WithLicence(r.params);
      var existing := B.Latest(ops, r.instanceID, B.OfKind(B.Provisioning));
      if existing.Some? {
        if !IsEqual(ops[existing.value].params, params) {
          return B.Rejected(409);
        }
        if ops[existing.value].instanceID !in instances {
          return B.Rejected(409);
        }
        return B.Async(existing.value);
      }
      var id := InsertAndQueue(B.NewProvisioning(r.instanceID, params, B.InProgress));
      instances := instances[r.instanceID :=
        B.Instance(params.planID, params.ersContext.globalAccountID, "", params, false)];
      response := B.Async(id);
    }

    /**
     For a stored instance the answer is a deletion under way, and it is the instance's newest deprovisioning
     operation; a call while one is under way stores nothing.
     */
    method Deprovision(instanceID: string) returns (response: B.Response)
      requires Valid()
      modifies this
      ensures Valid() && (State(), response) == B.Deprovision(old(State()), instanceID)
      ensures response.Async? <==> instanceID in old(instances)
      ensures response.Async? ==> T.AnsweredBy(State(), instanceID, response.operation)
      ensures response.Async? && response.operation < |old(ops)| ==> State() == old(State())
      ensures instances == old(instances)
    {
      ghost var s0 := State();
      response := HandleDeprovision(instanceID);
      I.DeprovisionKeepsInv(s0, instanceID);
      T.DeprovisionAnswer(s0, instanceID);
      T.DeprovisionGuarantee(s0, instanceID);
    }

    /** The body of Deprovision: looks for a deletion that answers, and stores one otherwise. */
    method HandleDeprovision(instanceID: string) returns (response: B.Response)
      modifies this
      ensures (State(), response) == B.Deprovision(old(State()), instanceID)
    {
      if instanceID !in instances {
        return B.Sync;
      }
      var existing := B.Latest(ops, instanceID, B.OfKind(B.Deprovisioning));
      if existing.Some? && !ops[existing.value].temporary {
        var op := ops[existing.value];
        if op.state != B.Failed && op.state != B.Succeeded {
          return B.Async(existing.value);
        }
        if op.state == B.Succeeded && |op.retrySteps| == 0 {
          return B.Async(existing.value);
        }
      }
      var id := InsertAndQueue(B.NewDeprovisioning(instanceID, instances[instanceID]));
      response := B.Async(id);
    }

    /** Leaves an unfinished deprovisioning as the instance's newest one, storing a suspension only if there is none. */
    method SuspendExpired(instanceID: string) returns (id: nat)
      requires instanceID in instances
      modifies this
      ensures (State(), id) == B.SuspendExpired(old(State()), instanceID, old(instances[instanceID]))
      ensures T.Unfinished(State(), instanceID, id) && instances == old(instances)
      ensures if T.Unfinished(old(State()), instanceID, id) then State() == old(State())
              else id == |old(ops)| && ops[id].temporary
    {
      T.SuspendExpiredLeaves(State(), instanceID, instances[instanceID]);
      var last := B.Latest(ops, instanceID, B.OfKind(B.Deprovisioning));
      if last.Some? {
        match ops[last.value].state
        case Pending => return last.value;
        case InProgress => return last.value;
        case Succeeded =>
        case Failed =>
      }
      id := InsertAndQueue(B.NewSuspension(instanceID, instances[instanceID]));
    }

    /**
     Exactly the trial instances can be expired. An accepted call leaves the instance expired and inactive, with an
     unfinished deprovisioning as its answer; any other changes nothing.
     */
    method Expire(instanceID: string) returns (response: B.Response)
      requires Valid()
      modifies this
      ensures Valid() && (State(), response) == B.Expire(old(State()), instanceID)
      ensures response.Async? <==> instanceID in old(instances) && old(instances)[instanceID].planID == B.TRIAL_PLAN_ID
      ensures !response.Async? ==> response == B.Rejected(if instanceID in old(instances) then 400 else 404)
      ensures response.Async? ==>
                && T.Unfinished(State(), instanceID, response.operation)
                && instanceID in instances && instances[instanceID].expired
                && instances[instanceID].params.ersContext.active == Some(false)
      ensures !response.Async? ==> State() == old(State())
    {
      ghost var s0 := State();
      response := HandleExpire(instanceID);
      I.ExpireKeepsInv(s0, instanceID);
      A.ExpireExactly(s0, instanceID);
      if instanceID in s0.instances && s0.instances[instanceID].planID == B.TRIAL_PLAN_ID {
        T.ExpireTakesEffect(s0, instanceID);
      }
    }

    /** The body of Expire: sets the expiration time, suspends the runtime and deactivates the instance in turn. */
    method HandleExpire(instanceID: string) returns (response: B.Response)
      modifies this
      ensures (State(), response) == B.Expire(old(State()), instanceID)
    {
      if instanceID !in instances {
        return B.Rejected(404);
      }
      if instances[instanceID].planID != B.TRIAL_PLAN_ID {
        return B.Rejected(400);
      }
      if !instances[instanceID].expired {
        instances := instances[instanceID := instances[instanceID].(expired := true)];
      }
      ghost var expiring := old(instances)[instanceID].(expired := true);
      assert instances == old(instances)[instanceID := expiring];
      var id := SuspendExpired(instanceID);
      var i := instances[instanceID];
      if i.params.ersContext.active != Some(false) {
        instances := instances[instanceID := B.Deactivated(i)];
      }
      assert instances == old(instances)[instanceID := expiring][instanceID := B.Deactivated(expiring)];
      response := B.Async(id);
    }

    /** Afterwards the newest deprovisioning is unfinished, and a running instance stopped unless one already was. */
    method Suspend(instanceID: string, i: B.Instance)
      modifies this
      ensures State() == B.Suspend(old(State()), instanceID, i)
      ensures exists id: nat :: T.Unfinished(State(), instanceID, id)
      ensures T.Running(State(), instanceID) ==>
                State() == old(State()) && exists id: nat :: T.Unfinished(old(State()), instanceID, id)
      ensures instances == old(instances)
    {
      T.SuspendLeaves(State(), instanceID, i);
      var last := B.Latest(ops, instanceID, B.OfKind(B.Deprovisioning));
      if last.Some? && (ops[last.value].state == B.InProgress || ops[last.value].state == B.Pending) {
        return;
      }
      var _ := InsertAndQueue(B.NewSuspension(instanceID, i));
    }

    /** Makes the instance running, unless it is expired. */
    method Unsuspend(instanceID: string, i: B.Instance)
      modifies this
      ensures State() == B.Unsuspend(old(State()), instanceID, i)
      ensures if i.expired then State() == old(State()) else T.Running(State(), instanceID)
      ensures instances == old(instances) && deprovisioning == old(deprovisioning)
    {
      if !i.expired {
        T.UnsuspendStarts(State(), instanceID, i);
      }
      if i.expired {
        return;
      }
      var _ := InsertAndQueue(B.NewProvisioning(instanceID, i.params, B.Pending));
    }

    /**
     The suspension handler; `ok` is false when it returns an error. A reported change means that the instance runs,
     or that its newest deprovisioning is unfinished, as the flag asks; otherwise nothing changed.
     */
    method HandleContextChange(instanceID: string, i: B.Instance, context: ErsContext)
      returns (changed: bool, ok: bool)
      requires B.HandlerReady(State(), instanceID, i)
      modifies this
      ensures B.HandleContextChange(old(State()), instanceID, i, context)
              == if ok then B.Handled(State(), changed) else B.HandlerFailed
      ensures !ok || !changed ==> State() == old(State())
      ensures changed ==> i.planID == B.TRIAL_PLAN_ID
      ensures changed ==> if context.active == Some(true) then T.Running(State(), instanceID)
                          else exists id: nat :: T.Unfinished(State(), instanceID, id)
      ensures instances == old(instances)
    {
      if i.planID != B.TRIAL_PLAN_ID {
        return false, true;
      }
      var activated := true;
      if i.params.ersContext.active.Some? {
        activated := i.params.ersContext.active.value;
      }
      var last := B.Latest(ops, instanceID, B.OfKind(B.Deprovisioning));
      if context.active.None? || activated == context.active.value {
        if activated {
          return false, true;
        }
        if ops[last.value].state == B.Failed {
          Suspend(instanceID, i);
          return true, true;
        }
        return false, true;
      }
      if context.active.value {
        if i.expired {
          return false, true;
        }
        if last.Some? && !ops[last.value].temporary {
          return false, true;
        }
        if last.Some? && ops[last.value].state == B.Failed {
          return false, false;
        }
        Unsuspend(instanceID, i);
        return true, true;
      }
      Suspend(instanceID, i);
      return true, true;
    }

    /** Rebuilds the instance's context field by field and stores the instance. */
    method ProcessContext(u: B.UpdateRequest) returns (changed: bool, ok: bool)
      requires B.UpdateRefusal(State(), u).None?
      modifies this
      ensures B.ProcessContext(cfg, old(State()), u) == if ok then B.Handled(State(), changed) else B.HandlerFailed
      ensures !ok ==> State() == old(State())
    {
      var prov := B.Latest(ops, u.instanceID, B.OfKind(B.Provisioning)).value;
      var last := B.Latest(ops, u.instanceID, B.Started);
      if last.None? {
        return false, false;
      }
      var i := RebuildContext(u, prov, last.value);
      changed, ok := HandleContextChange(u.instanceID, i, u.context);
      if !ok {
        return;
      }
      i := AcceptContext(i, u.context);
      instances := instances[u.instanceID := i];
    }

    /** The provisioning operation's context, completed from the instance, the last operation and the request. */
    method RebuildContext(u: B.UpdateRequest, prov: nat, last: nat) returns (i: B.Instance)
      requires u.instanceID in instances && prov < |ops| && last < |ops|
      ensures i == B.WithContext(instances[u.instanceID], B.MergedContext(State(), u, prov, last))
    {
      i := instances[u.instanceID];
      var credentials := i.params.ersContext.credentials;
      var e := ops[prov].params.ersContext;
      e := e.(credentials := credentials);
      var deprov := B.Latest(ops, u.instanceID, B.OfKind(B.Deprovisioning));
      e := e.(active := Some(deprov.None? || deprov.value < prov));
      e := InheritMissing(e, ops[last].params.ersContext);
      e := UpdateContext(e, u.context);
      i := i.(params := i.params.(ersContext := e));
    }

    /** Takes the active flag and an account movement over from the request; the first account is remembered. */
    method AcceptContext(instance: B.Instance, context: ErsContext) returns (i: B.Instance)
      ensures i == B.ContextStored(cfg, instance, context)
      ensures instance.globalAccountID != "" ==>
                B.SubscriptionGlobalAccountID(i) == B.SubscriptionGlobalAccountID(instance)
    {
      i := instance;
      if context.active.Some? {
        var e := i.params.ersContext.(active := context.active);
        i := i.(params := i.params.(ersContext := e));
      }
      if cfg.subAccountMovementEnabled {
        if i.globalAccountID != context.globalAccountID && context.globalAccountID != "" {
          if i.subscriptionGlobalAccountID == "" {
            i := i.(subscriptionGlobalAccountID := i.globalAccountID);
          }
          i := i.(globalAccountID := context.globalAccountID);
        }
      }
    }

    /** Stores the update operation and then writes the given parameters into the instance one by one. */
    method ProcessParameters(u: B.UpdateRequest) returns (response: B.Response)
      requires u.instanceID in instances
      modifies this
      ensures (State(), response) == B.ProcessParameters(cfg, old(State()), u)
    {
      if u.params.None? && !CarriesContextUpdate(u.context) {
        return B.Sync;
      }
      if !u.asyncAllowed {
        return B.Rejected(422);
      }
      var p := GetOr(u.params, NO_UPDATE);
      if OidcProvided(p.oidc) && !u.oidcValid {
        return B.Rejected(422);
      }
      var i := instances[u.instanceID];
      var op := B.NewUpdate(u.instanceID, i, p);
      var defaults := cfg.planDefaults(B.PlanForDefaults(i, u));
      if defaults.None? {
        return B.Rejected(500);
      }
      if !Validates(op.params.parameters.autoScaler, defaults.value) {
        return B.Rejected(400);
      }
      var id := InsertAndQueue(op);

      var updateStorage := false;
      var r := i.params.parameters;
      if OidcProvided(p.oidc) {
        r := r.(oidc := p.oidc);
        updateStorage := true;
      }
      if |p.administrators| != 0 {
        r := r.(administrators := p.administrators);
        updateStorage := true;
      }
      r := r.(autoScaler := UpdateAutoScaler(p.autoScaler, r.autoScaler));
      if UpdatesAutoScaler(p.autoScaler) {
        updateStorage := true;
      }
      if p.machineType.Some? && p.machineType.value != "" {
        r := r.(machineType := p.machineType);
      }
      if updateStorage {
        instances := instances[u.instanceID := i.(params := i.params.(parameters := r))];
      }
      response := B.Async(id);
    }

    /**
     A rejected update stores no operation and leaves the instance's parameters alone. An accepted one stores exactly
     one, whose autoscaler limits and administrators are those of the instance: the requested ones where given, and the
     old ones otherwise.
     */
    method Update(u: B.UpdateRequest) returns (response: B.Response)
      requires Valid()
      modifies this
      ensures Valid() && (State(), response) == B.Update(cfg, old(State()), u)
      ensures response.Rejected? ==> ops == old(ops) && U.ParametersKept(old(State()), State(), u.instanceID)
      ensures response.Async? ==>
                && response.operation == |old(ops)| && |ops| == |old(ops)| + 1
                && u.instanceID in old(instances) && u.instanceID in instances
                && U.LimitsAgree(instances[u.instanceID], ops[response.operation])
                && U.Written(old(instances)[u.instanceID].params.parameters, GetOr(u.params, NO_UPDATE),
                             instances[u.instanceID].params.parameters)
    {
      ghost var s0 := State();
      response := HandleUpdate(u);
      I.UpdateKeepsInv(cfg, s0, u);
      U.UpdateGuarantee(cfg, s0, u);
    }

    /** The body of Update: the refusals in their order, then the context, then the parameters. */
    method HandleUpdate(u: B.UpdateRequest) returns (response: B.Response)
      modifies this
      ensures (State(), response) == B.Update(cfg, old(State()), u)
    {
      if u.instanceID !in instances {
        return B.Rejected(404);
      }
      if u.params.Some? && !u.schemaValid {
        return B.Rejected(400);
      }
      if instances[u.instanceID].expired {
        return B.Rejected(400);
      }
      var prov := B.Latest(ops, u.instanceID, B.OfKind(B.Provisioning));
      if prov.None? {
        return B.Rejected(500);
      }
      if ops[prov.value].state == B.Failed {
        return B.Rejected(422);
      }
      var deprov := B.Latest(ops, u.instanceID, B.OfKind(B.Deprovisioning));
      if deprov.Some? && !ops[deprov.value].temporary {
        return B.Rejected(422);
      }
      if !cfg.processingEnabled {
        return B.Sync;
      }
      var changed, ok := ProcessContext(u);
      if !ok {
        return B.Rejected(500);
      }
      if changed {
        return B.Sync;
      }
      response := ProcessParameters(u);
    }

    /** Requests served one after the other make a run of the machine, so its run theorems hold of these methods. */
    method Serve(requests: seq<B.Event>)
      requires Valid() && forall k :: 0 <= k < |requests| ==> !B.IsWorkerStep(requests[k])
      modifies this
      ensures Valid() && State() == B.Run(cfg, old(State()), requests)
    {
      assert requests[0..] == requests;
      for n := 0 to |requests|
        invariant Valid() && B.Run(cfg, State(), requests[n..]) == B.Run(cfg, old(State()), requests)
      {
        assert requests[n..][0] == requests[n] && requests[n..][1..] == requests[n + 1..];
        ServeOne(requests[n]);
      }
    }

    method ServeOne(e: B.Event)
      requires Valid() && !B.IsWorkerStep(e)
      modifies this
      ensures Valid() && State() == B.Step(cfg, old(State()), e)
    {
      ghost var s0 := State();
      Dispatch(e);
      I.StepKeepsInv(cfg, s0, e);
    }

    /** Hands a request to the body of its endpoint. */
    method Dispatch(e: B.Event)
      requires !B.IsWorkerStep(e)
      modifies this
      ensures State() == B.Step(cfg, old(State()), e)
    {
      if e.ProvisionCall? {
        var _ := HandleProvision(e.provision);
      } else if e.UpdateCall? {
        var _ := HandleUpdate(e.update);
      } else if e.DeprovisionCall? {
        var _ := HandleDeprovision(e.instanceID);
      } else {
        var _ := HandleExpire(e.instanceID);
      }
    }
  }
}
