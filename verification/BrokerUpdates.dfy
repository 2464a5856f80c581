/**
 Parameter updates: autoscaler limits that never cross in any stored record, and how far the
 stored instance and the update operation agree.
 */
module BrokerUpdates {
  import opened Wrappers
  import opened Parameters
  import opened Broker
  import opened BrokerInvariants

  // ----- autoscaler limits over runs -----

  /** The effective minimum does not exceed the effective maximum under the record's own plan. */
  predicate Sized(cfg: Config, p: ProvisioningParameters) {
    cfg.planDefaults(p.planID).Some? && Validates(p.parameters.autoScaler, cfg.planDefaults(p.planID).value)
  }

  ghost predicate AllSized(cfg: Config, s: Store) {
    && (forall j :: 0 <= j < |s.ops| ==> Sized(cfg, s.ops[j].params))
    && (forall i :: i in s.instances ==> Sized(cfg, s.instances[i].params))
  }

  /** An update that names no plan, or the instance's own. */
  predicate NamesOwnPlan(s: Store, e: Event) {
    e.UpdateCall? && e.update.instanceID in s.instances ==>
      e.update.planID == "" || e.update.planID == s.instances[e.update.instanceID].params.planID
  }

  ghost predicate RunNamesOwnPlans(cfg: Config, s: Store, run: seq<Event>)
    decreases |run|
  {
    run != [] ==> NamesOwnPlan(s, run[0]) && RunNamesOwnPlans(cfg, Step(cfg, s, run[0]), run[1..])
  }

  ghost predicate SizedDelta(cfg: Config, d: Delta) {
    match d
    case Unchanged => true
    case Created(_, p) => Sized(cfg, p)
    case Changed(_, i, op) => Sized(cfg, i.params) && (op.Some? ==> Sized(cfg, op.value.params))
  }

  lemma ApplyKeepsSizes(cfg: Config, s: Store, d: Delta)
    requires AllSized(cfg, s) && SizedDelta(cfg, d)
    ensures AllSized(cfg, Apply(s, d))
  {
  }

  lemma ParametersKeepSizes(cfg: Config, s: Store, u: UpdateRequest)
    requires AllSized(cfg, s) && u.instanceID in s.instances && NamesOwnPlan(s, UpdateCall(u))
    ensures AllSized(cfg, ProcessParameters(cfg, s, u).0)
  {
    var i := s.instances[u.instanceID];
    var p := GetOr(u.params, NO_UPDATE);
    assert PlanForDefaults(i, u) == i.params.planID;
    if ProcessParameters(cfg, s, u).1.Async? {
      var op := NewUpdate(u.instanceID, i, p);
      assert Sized(cfg, op.params);
      assert Sized(cfg, UpdatedInstance(i, p).params);
    }
  }

  lemma UpdateKeepsSizes(cfg: Config, s: Store, u: UpdateRequest)
    requires AllSized(cfg, s) && NamesOwnPlan(s, UpdateCall(u))
    ensures AllSized(cfg, Update(cfg, s, u).0)
  {
    if UpdateRefusal(s, u).None? && cfg.processingEnabled && ProcessContext(cfg, s, u).Handled? {
      var i, op := ContextDelta(cfg, s, u);
      ApplyKeepsSizes(cfg, s, Changed(u.instanceID, i, op));
      if !ProcessContext(cfg, s, u).changed {
        ParametersKeepSizes(cfg, ProcessContext(cfg, s, u).store, u);
      }
    }
  }

  lemma WorkerKeepsSizes(cfg: Config, s: Store, e: Event)
    requires AllSized(cfg, s) && IsWorkerStep(e)
    ensures AllSized(cfg, Step(cfg, s, e))
  {
  }

  lemma ProvisionKeepsSizes(cfg: Config, s: Store, r: ProvisionRequest)
    requires AllSized(cfg, s)
    ensures AllSized(cfg, Provision(cfg, s, r).0)
  {
  }

  lemma RemovalKeepsSizes(cfg: Config, s: Store, i: string)
    requires AllSized(cfg, s)
    ensures AllSized(cfg, Deprovision(s, i).0) && AllSized(cfg, Expire(s, i).0)
  {
  }

  lemma StepKeepsSizes(cfg: Config, s: Store, e: Event)
    requires AllSized(cfg, s) && NamesOwnPlan(s, e)
    ensures AllSized(cfg, Step(cfg, s, e))
  {
    match e
    case ProvisionCall(r) => ProvisionKeepsSizes(cfg, s, r);
    case UpdateCall(u) => UpdateKeepsSizes(cfg, s, u);
    case DeprovisionCall(i) => RemovalKeepsSizes(cfg, s, i);
    case ExpireCall(i) => RemovalKeepsSizes(cfg, s, i);
    case _ => WorkerKeepsSizes(cfg, s, e);
  }

  /** In every run whose updates name no foreign plan, limits never cross in any instance or operation. */
  lemma {:induction false} LimitsNeverCross(cfg: Config, s: Store, run: seq<Event>)
    requires AllSized(cfg, s) && RunNamesOwnPlans(cfg, s, run)
    ensures AllSized(cfg, Run(cfg, s, run))
    decreases |run|
  {
    if run != [] {
      StepKeepsSizes(cfg, s, run[0]);
      LimitsNeverCross(cfg, Step(cfg, s, run[0]), run[1..]);
    }
  }

  /** The limits an update leads to. */
  function RequestedLimits(s: Store, u: UpdateRequest): AutoScaler
    requires u.instanceID in s.instances
  {
    UpdateAutoScaler(GetOr(u.params, NO_UPDATE).autoScaler, s.instances[u.instanceID].params.parameters.autoScaler)
  }

  /** The request carries an update, and one that passes the checks under the plan it names. */
  predicate CarriesValidUpdate(cfg: Config, s: Store, u: UpdateRequest)
    requires u.instanceID in s.instances
  {
    var named := cfg.planDefaults(if u.planID != "" then u.planID else s.instances[u.instanceID].params.planID);
    && (u.params.Some? || CarriesContextUpdate(u.context))
    && u.asyncAllowed
    && (OidcProvided(GetOr(u.params, NO_UPDATE).oidc) ==> u.oidcValid)
    && named.Some? && Validates(RequestedLimits(s, u), named.value)
  }

  /** No check refuses the request, its context is accepted without a suspension or unsuspension, and its update too. */
  predicate UpdateGoesThrough(cfg: Config, s: Store, u: UpdateRequest) {
    && UpdateRefusal(s, u).None? && cfg.processingEnabled
    && ProcessContext(cfg, s, u).Handled? && !ProcessContext(cfg, s, u).changed
    && CarriesValidUpdate(cfg, s, u)
  }

  /** An update is answered with an operation exactly when it goes through. */
  lemma AcceptedExactly(cfg: Config, s: Store, u: UpdateRequest)
    ensures Update(cfg, s, u).1.Async? <==> UpdateGoesThrough(cfg, s, u)
  {
    if UpdateRefusal(s, u).None? && cfg.processingEnabled && ProcessContext(cfg, s, u).Handled? {
      var i, op := ContextDelta(cfg, s, u);
      var s1 := ProcessContext(cfg, s, u).store;
      SameUpdate(cfg, s, s1, u);
      ParametersAccepted(cfg, s1, u);
    }
  }

  lemma SameUpdate(cfg: Config, s: Store, s1: Store, u: UpdateRequest)
    requires u.instanceID in s.instances && u.instanceID in s1.instances
    requires s1.instances[u.instanceID].params.planID == s.instances[u.instanceID].params.planID
    requires s1.instances[u.instanceID].params.parameters == s.instances[u.instanceID].params.parameters
    ensures CarriesValidUpdate(cfg, s1, u) == CarriesValidUpdate(cfg, s, u)
  {
  }

  lemma ParametersAccepted(cfg: Config, s: Store, u: UpdateRequest)
    requires u.instanceID in s.instances
    ensures ProcessParameters(cfg, s, u).1.Async? <==> CarriesValidUpdate(cfg, s, u)
  {
  }

  /**
   Whatever plan an update names, the limits stay in order in all records exactly when it does not go through or the
   limits it leads to validate under the instance's own plan.
   */
  lemma ForeignPlanExactly(cfg: Config, s: Store, u: UpdateRequest)
    requires AllSized(cfg, s) && u.instanceID in s.instances
    ensures var own := cfg.planDefaults(s.instances[u.instanceID].params.planID);
            AllSized(cfg, Update(cfg, s, u).0)
            <==> (UpdateGoesThrough(cfg, s, u) ==> Validates(RequestedLimits(s, u), own.value))
  {
    AcceptedExactly(cfg, s, u);
    SizedExactly(cfg, s, u);
  }

  lemma SizedExactly(cfg: Config, s: Store, u: UpdateRequest)
    requires AllSized(cfg, s) && u.instanceID in s.instances
    ensures var own := cfg.planDefaults(s.instances[u.instanceID].params.planID);
            AllSized(cfg, Update(cfg, s, u).0)
            <==> (Update(cfg, s, u).1.Async? ==> Validates(RequestedLimits(s, u), own.value))
  {
    if UpdateRefusal(s, u).None? && cfg.processingEnabled && ProcessContext(cfg, s, u).Handled? {
      var i, op := ContextDelta(cfg, s, u);
      ApplyKeepsSizes(cfg, s, Changed(u.instanceID, i, op));
      if !ProcessContext(cfg, s, u).changed {
        ParametersSizedExactly(cfg, ProcessContext(cfg, s, u).store, u);
      }
    }
  }

  lemma ParametersSizedExactly(cfg: Config, s: Store, u: UpdateRequest)
    requires AllSized(cfg, s) && u.instanceID in s.instances
    ensures var own := cfg.planDefaults(s.instances[u.instanceID].params.planID);
            AllSized(cfg, ProcessParameters(cfg, s, u).0)
            <==> (ProcessParameters(cfg, s, u).1.Async? ==> Validates(RequestedLimits(s, u), own.value))
  {
    if ProcessParameters(cfg, s, u).1.Async? {
      ParametersAgree(cfg, s, u);
      var s' := ProcessParameters(cfg, s, u).0;
      var i, p := s.instances[u.instanceID], GetOr(u.params, NO_UPDATE);
      assert s'.ops[|s.ops|] == NewUpdate(u.instanceID, i, p);
      if Validates(RequestedLimits(s, u), cfg.planDefaults(i.params.planID).value) {
        assert Sized(cfg, UpdatedInstance(i, p).params);
      } else {
        assert !Sized(cfg, s'.ops[|s.ops|].params);
      }
    }
  }

  // ----- agreement of instance and operation -----

  /**
   After an accepted update the instance and the operation agree on autoscaler and administrators. They agree on
   the machine type unless only a new machine type was given, and on OIDC unless an empty OIDC object was given.
   */
  lemma UpdateAgreement(cfg: Config, s: Store, u: UpdateRequest)
    requires Update(cfg, s, u).1.Async?
    ensures u.instanceID in s.instances
    ensures var (s', r) := Update(cfg, s, u);
            && r.operation == |s.ops| && |s'.ops| == |s.ops| + 1 && u.instanceID in s'.instances
    ensures var s' := Update(cfg, s, u).0;
            var before := s.instances[u.instanceID].params.parameters;
            var stored := s'.instances[u.instanceID].params.parameters;
            var op := s'.ops[|s.ops|].params.parameters;
            var p := GetOr(u.params, NO_UPDATE);
            && stored.autoScaler == op.autoScaler == UpdateAutoScaler(p.autoScaler, before.autoScaler)
            && stored.administrators == op.administrators
            && (stored.machineType == op.machineType
                <==> || OidcProvided(p.oidc) || |p.administrators| > 0 || p.autoScaler != NO_AUTOSCALER
                     || p.machineType in {None, Some(""), before.machineType})
            && (stored.oidc == op.oidc
                <==> OidcProvided(p.oidc) || p.oidc.None? || p.oidc == before.oidc)
  {
    var i, op := ContextDelta(cfg, s, u);
    ParametersAgree(cfg, ProcessContext(cfg, s, u).store, u);
  }

  /**
   What an accepted update writes: a requested value where one is given, and the old one otherwise. Of machine type
   and OIDC, the instance takes only what UpdateAgreement says.
   */
  ghost predicate Written(before: RuntimeParameters, p: UpdatingParameters, after: RuntimeParameters) {
    && after.autoScaler.min == (if p.autoScaler.min.Some? then p.autoScaler.min else before.autoScaler.min)
    && after.autoScaler.max == (if p.autoScaler.max.Some? then p.autoScaler.max else before.autoScaler.max)
    && after.autoScaler.maxSurge
       == (if p.autoScaler.maxSurge.Some? then p.autoScaler.maxSurge else before.autoScaler.maxSurge)
    && after.autoScaler.maxUnavailable
       == (if p.autoScaler.maxUnavailable.Some? then p.autoScaler.maxUnavailable else before.autoScaler.maxUnavailable)
    && after.administrators == (if |p.administrators| > 0 then p.administrators else before.administrators)
    && (after.machineType == before.machineType || after.machineType == p.machineType)
    && (after.oidc == before.oidc || after.oidc == p.oidc)
    && after.targetSecret == before.targetSecret && after.licenceType == before.licenceType && after.rest == before.rest
  }

  /** Field by field, what an accepted update leaves in the instance and in the new, queued operation. */
  lemma UpdateWrites(cfg: Config, s: Store, u: UpdateRequest)
    requires Update(cfg, s, u).1.Async?
    ensures u.instanceID in s.instances
    ensures var s' := Update(cfg, s, u).0;
            && |s'.ops| == |s.ops| + 1 && s'.ops[..|s.ops|] == s.ops && u.instanceID in s'.instances
            && s'.updating == s.updating + [|s.ops|]
    ensures var s' := Update(cfg, s, u).0;
            var before := s.instances[u.instanceID].params.parameters;
            var p := GetOr(u.params, NO_UPDATE);
            var op := s'.ops[|s.ops|];
            && Written(before, p, s'.instances[u.instanceID].params.parameters)
            && Written(before, p, op.params.parameters)
            && op.params.parameters.oidc == (if p.oidc.Some? then p.oidc else before.oidc)
            && op.params.parameters.machineType
               == (if p.machineType.Some? && p.machineType.value != "" then p.machineType else before.machineType)
            && op.instanceID == u.instanceID && op.kind == Updating && op.state == Pending
            && op.params.planID == s.instances[u.instanceID].params.planID
  {
    var i, op := ContextDelta(cfg, s, u);
    ParametersWrite(cfg, ProcessContext(cfg, s, u).store, u);
  }

  lemma ParametersWrite(cfg: Config, s: Store, u: UpdateRequest)
    requires u.instanceID in s.instances && ProcessParameters(cfg, s, u).1.Async?
    ensures var s' := ProcessParameters(cfg, s, u).0;
            var before := s.instances[u.instanceID].params.parameters;
            var p := GetOr(u.params, NO_UPDATE);
            && s'.ops == s.ops + [NewUpdate(u.instanceID, s.instances[u.instanceID], p)]
            && s'.updating == s.updating + [|s.ops|] && u.instanceID in s'.instances
            && Written(before, p, s'.instances[u.instanceID].params.parameters)
            && Written(before, p, s'.ops[|s.ops|].params.parameters)
  {
  }

  lemma ParametersAgree(cfg: Config, s: Store, u: UpdateRequest)
    requires u.instanceID in s.instances && ProcessParameters(cfg, s, u).1.Async?
    ensures var (s', r) := ProcessParameters(cfg, s, u);
            var i := s.instances[u.instanceID];
            var p := GetOr(u.params, NO_UPDATE);
            && r.operation == |s.ops|
            && s'.ops == s.ops + [NewUpdate(u.instanceID, i, p)]
            && u.instanceID in s'.instances
            && s'.instances[u.instanceID] == (if Persisted(p) then UpdatedInstance(i, p) else i)
  {
  }

  /** A rejected update stores no operation and leaves the instance's parameters as they were. */
  lemma RejectedUpdate(cfg: Config, s: Store, u: UpdateRequest)
    requires Update(cfg, s, u).1.Rejected?
    ensures var s' := Update(cfg, s, u).0;
            && s'.ops == s.ops && s'.updating == s.updating && s'.instances.Keys == s.instances.Keys
            && (u.instanceID in s.instances ==>
                  s'.instances[u.instanceID].params.parameters == s.instances[u.instanceID].params.parameters)
  {
    if UpdateRefusal(s, u).None? && cfg.processingEnabled && ProcessContext(cfg, s, u).Handled? {
      var i, op := ContextDelta(cfg, s, u);
      ParametersRejected(cfg, ProcessContext(cfg, s, u).store, u);
    }
  }

  lemma ParametersRejected(cfg: Config, s: Store, u: UpdateRequest)
    requires u.instanceID in s.instances
    ensures !ProcessParameters(cfg, s, u).1.Async? ==> ProcessParameters(cfg, s, u).0 == s
  {
  }

  /** The runtime parameters of the instance are the same in both stores. */
  ghost predicate ParametersKept(s: Store, s': Store, i: string) {
    && s'.instances.Keys == s.instances.Keys
    && (i in s.instances ==> s'.instances[i].params.parameters == s.instances[i].params.parameters)
  }

  ghost predicate LimitsAgree(i: Instance, op: Operation) {
    && i.params.parameters.autoScaler == op.params.parameters.autoScaler
    && i.params.parameters.administrators == op.params.parameters.administrators
  }

  /** What a caller learns from the answer to an update. */
  lemma UpdateGuarantee(cfg: Config, s: Store, u: UpdateRequest)
    ensures var (s', r) := Update(cfg, s, u);
            && (r.Rejected? ==> s'.ops == s.ops && ParametersKept(s, s', u.instanceID))
            && (r.Async? ==>
                  && r.operation == |s.ops| && |s'.ops| == |s.ops| + 1 && u.instanceID in s.instances
                  && u.instanceID in s'.instances && LimitsAgree(s'.instances[u.instanceID], s'.ops[r.operation])
                  && Written(s.instances[u.instanceID].params.parameters, GetOr(u.params, NO_UPDATE),
                             s'.instances[u.instanceID].params.parameters))
  {
    if Update(cfg, s, u).1.Rejected? {
      RejectedUpdate(cfg, s, u);
    } else if Update(cfg, s, u).1.Async? {
      UpdateAgreement(cfg, s, u);
      UpdateWrites(cfg, s, u);
    }
  }
}
