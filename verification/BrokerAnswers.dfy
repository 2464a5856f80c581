/**
 Which requests are accepted, which are refused and with what status, and what an accepted one writes, field by
 field, in terms of the request and the store alone.
 */
module BrokerAnswers {
  import opened Wrappers
  import opened Parameters
  import opened Broker
  import opened BrokerInvariants
  import opened BrokerTheorems
  import opened BrokerUpdates

  /** Operation `id` is of the kind and no newer operation of the instance is. */
  ghost predicate IsNewestOf(ops: seq<Operation>, i: string, kind: OperationKind, id: int) {
    && 0 <= id < |ops| && ops[id].instanceID == i && ops[id].kind == kind
    && forall k :: id < k < |ops| && ops[k].instanceID == i ==> ops[k].kind != kind
  }

  ghost predicate HasKind(ops: seq<Operation>, i: string, kind: OperationKind) {
    exists k :: 0 <= k < |ops| && ops[k].instanceID == i && ops[k].kind == kind
  }

  lemma LatestIsNewest(ops: seq<Operation>, i: string, kind: OperationKind)
    ensures Latest(ops, i, OfKind(kind)).Some? <==> HasKind(ops, i, kind)
    ensures forall id :: IsNewestOf(ops, i, kind, id) <==> 0 <= id && Latest(ops, i, OfKind(kind)) == Some(id)
  {
    var r := Latest(ops, i, OfKind(kind));
    if HasKind(ops, i, kind) {
      var k :| 0 <= k < |ops| && ops[k].instanceID == i && ops[k].kind == kind;
      assert Matches(ops[k], i, OfKind(kind));
    }
    forall id | IsNewestOf(ops, i, kind, id)
      ensures r == Some(id)
    {
      assert Matches(ops[id], i, OfKind(kind));
    }
    if r.Some? {
      forall k | r.value < k < |ops| && ops[k].instanceID == i
        ensures ops[k].kind != kind
      {
        assert Matches(ops[k], i, OfKind(kind)) <==> ops[k].kind == kind;
      }
    }
  }

  // ----- Provision -----

  /** The request names accounts and user, passes the other checks, and its limits are in order under its plan. */
  ghost predicate Provisionable(cfg: Config, r: ProvisionRequest) {
    var e, plan := r.params.ersContext, cfg.planDefaults(r.params.planID);
    && r.admissible && "" !in {e.globalAccountID, e.subAccountID, e.userID}
    && plan.Some?
    && var limits := r.params.parameters.autoScaler;
    GetOr(limits.min, plan.value.min) <= GetOr(limits.max, plan.value.max)
  }

  /** A trial request of an account that already has an instance, where only one is allowed. */
  ghost predicate SecondTrial(cfg: Config, s: Store, p: ProvisioningParameters) {
    && cfg.onlySingleTrialPerGA && p.planID == TRIAL_PLAN_ID
    && exists i :: i in s.instances && s.instances[i].globalAccountID == p.ersContext.globalAccountID
  }

  /** What is stored of a request: only the licence type differs, and only two plans get one. */
  ghost predicate StoredAs(p: ProvisioningParameters, stored: ProvisioningParameters) {
    && stored == p.(parameters := p.parameters.(licenceType := stored.parameters.licenceType))
    && stored.parameters.licenceType
       == if p.planID in {TRIAL_PLAN_ID, AZURE_LITE_PLAN_ID} then Some("TestDevelopmentAndDemo") else None
  }

  /** An unknown id gets 400 or is created; a known one gets 400, its operation or 409. */
  lemma ProvisionExactly(cfg: Config, s: Store, r: ProvisionRequest)
    ensures !Provisionable(cfg, r) || SecondTrial(cfg, s, r.params) ==> Provision(cfg, s, r) == (s, Rejected(400))
    ensures Provisionable(cfg, r) && !SecondTrial(cfg, s, r.params) && !HasKind(s.ops, r.instanceID, Provisioning) ==>
              ProvisionCreates(cfg, s, r)
    ensures forall id :: Provisionable(cfg, r) && !SecondTrial(cfg, s, r.params)
                         && IsNewestOf(s.ops, r.instanceID, Provisioning, id) ==>
              Provision(cfg, s, r)
              == (s, if r.instanceID in s.instances && r.params.parameters.targetSecret.None?
                        && SameRequest(s.ops[id].params, r.params) then Async(id) else Rejected(409))
  {
    assert Provisionable(cfg, r) <==> WellFormed(cfg, r);
    assert SecondTrial(cfg, s, r.params) <==> TrialLimitHit(cfg, s, r.params);
    LatestIsNewest(s.ops, r.instanceID, Provisioning);
    var id := Latest(s.ops, r.instanceID, OfKind(Provisioning));
    if id.Some? {
      IsEqualExactly(s.ops[id.value].params, WithLicence(r.params));
    }
  }

  /** The request is stored as a new instance and one new provisioning operation in progress, which is queued. */
  ghost predicate ProvisionCreates(cfg: Config, s: Store, r: ProvisionRequest) {
    var (s', answer) := Provision(cfg, s, r);
    && answer == Async(|s.ops|) && |s'.ops| == |s.ops| + 1 && s'.ops[..|s.ops|] == s.ops
    && s'.instances.Keys == s.instances.Keys + {r.instanceID}
    && (forall i :: i in s.instances && i != r.instanceID ==> s'.instances[i] == s.instances[i])
    && s'.provisioning == s.provisioning + [|s.ops|]
    && s'.deprovisioning == s.deprovisioning && s'.updating == s.updating
    && var op, i := s'.ops[|s.ops|], s'.instances[r.instanceID];
    && op.instanceID == r.instanceID && op.kind == Provisioning && op.state == InProgress
    && StoredAs(r.params, op.params) && i.params == op.params
    && i.planID == r.params.planID && i.globalAccountID == r.params.ersContext.globalAccountID
    && i.subscriptionGlobalAccountID == "" && !i.expired
  }

  // ----- Deprovision -----

  /** The last operation of the store is a new, queued deprovisioning of the instance with the given parameters. */
  ghost predicate StoresDeprovisioning(s: Store, s': Store, i: string, temporary: bool, p: ProvisioningParameters) {
    && |s'.ops| == |s.ops| + 1 && s'.ops[..|s.ops|] == s.ops
    && s'.deprovisioning == s.deprovisioning + [|s.ops|]
    && s'.provisioning == s.provisioning && s'.updating == s.updating && s'.instances.Keys == s.instances.Keys
    && var op := s'.ops[|s.ops|];
    && op.instanceID == i && op.kind == Deprovisioning && op.state == Pending && op.temporary == temporary
    && op.retrySteps == [] && op.params == p
  }

  /**
   Deprovision returns the newest deprovisioning if that is a deletion not failed and without steps to retry, and
   stores a deletion with the instance's parameters otherwise.
   */
  lemma DeprovisionExactly(s: Store, i: string)
    ensures i !in s.instances ==> Deprovision(s, i) == (s, Sync)
    ensures i in s.instances && !HasKind(s.ops, i, Deprovisioning) ==>
              StoresDeprovisioning(s, Deprovision(s, i).0, i, false, s.instances[i].params)
    ensures i in s.instances ==> forall id :: IsNewestOf(s.ops, i, Deprovisioning, id) ==>
              var op := s.ops[id];
              if op.temporary || op.state == Failed || (op.state == Succeeded && op.retrySteps != [])
              then StoresDeprovisioning(s, Deprovision(s, i).0, i, false, s.instances[i].params)
              else Deprovision(s, i) == (s, Async(id))
  {
    LatestIsNewest(s.ops, i, Deprovisioning);
  }

  // ----- Expire -----

  /** Only trial instances can be expired: a missing one gets 404, any other 400, and neither changes anything. */
  lemma ExpireExactly(s: Store, i: string)
    ensures Expire(s, i).1.Async? <==> i in s.instances && s.instances[i].planID == TRIAL_PLAN_ID
    ensures i !in s.instances ==> Expire(s, i) == (s, Rejected(404))
    ensures i in s.instances && s.instances[i].planID != TRIAL_PLAN_ID ==> Expire(s, i) == (s, Rejected(400))
  {
  }

  /** An accepted Expire stores a suspension with the instance's parameters, unless a deprovisioning is under way. */
  lemma ExpireStores(s: Store, i: string)
    requires Expire(s, i).1.Async?
    ensures var s' := Expire(s, i).0;
            if exists n: nat :: Unfinished(s, i, n) then s'.ops == s.ops && s'.deprovisioning == s.deprovisioning
            else StoresDeprovisioning(s, s', i, true, s.instances[i].params)
  {
    var last := LatestDeprovisioning(s, i);
    assert LatestDeprovisioning(PutInstance(s, i, s.instances[i].(expired := true)), i) == last;
    if last.Some? && !Finished(s.ops[last.value]) {
      assert Unfinished(s, i, last.value);
    }
  }

  // ----- the suspension handler -----

  predicate Activated(i: Instance) {
    i.params.ersContext.active != Some(false)
  }

  /** The request asks for an inactive trial to run. */
  predicate AsksToRun(i: Instance, context: ErsContext) {
    i.planID == TRIAL_PLAN_ID && !Activated(i) && context.active == Some(true)
  }

  /** The request asks for an active trial to stop, or leaves an inactive one whose suspension failed. */
  predicate AsksToStop(s: Store, id: string, i: Instance, context: ErsContext)
    requires HandlerReady(s, id, i)
  {
    && i.planID == TRIAL_PLAN_ID
    && if Activated(i) then context.active == Some(false)
       else context.active != Some(true) && s.ops[LatestDeprovisioning(s, id).value].state == Failed
  }

  /** The last deprovisioning does not stand in the way of an unsuspension: there is none, or a suspension. */
  predicate OnlySuspended(s: Store, id: string) {
    var last := LatestDeprovisioning(s, id);
    last.None? || s.ops[last.value].temporary
  }

  predicate LastFailed(s: Store, id: string) {
    var last := LatestDeprovisioning(s, id);
    last.Some? && s.ops[last.value].state == Failed
  }

  /** The last operation of the store is a new, queued and pending provisioning of the instance. */
  ghost predicate StoresUnsuspension(s: Store, s': Store, i: string, p: ProvisioningParameters) {
    && |s'.ops| == |s.ops| + 1 && s'.ops[..|s.ops|] == s.ops
    && s'.provisioning == s.provisioning + [|s.ops|]
    && s'.deprovisioning == s.deprovisioning && s'.updating == s.updating && s'.instances == s.instances
    && var op := s'.ops[|s.ops|];
    && op.instanceID == i && op.kind == Provisioning && op.state == Pending && !op.temporary && op.params == p
  }

  /**
   The handler fails exactly when a trial is to run after a failed suspension. It reports a change exactly when a
   trial is to run and may, or is to stop; and it stores an unsuspension in the first case, and in the second a
   suspension unless a deprovisioning is under way.
   */
  lemma HandlerExactly(s: Store, id: string, i: Instance, context: ErsContext)
    requires HandlerReady(s, id, i)
    ensures var h := HandleContextChange(s, id, i, context);
            var runs := AsksToRun(i, context) && !i.expired && OnlySuspended(s, id);
            var stops := AsksToStop(s, id, i, context);
            && (h.HandlerFailed? <==> runs && LastFailed(s, id))
            && (h.Handled? ==> (h.changed <==> runs || stops))
            && (h.Handled? && runs ==> StoresUnsuspension(s, h.store, id, i.params))
            && (h.Handled? && stops ==>
                  if exists n: nat :: Unfinished(s, id, n) then h.store == s
                  else StoresDeprovisioning(s, h.store, id, true, i.params))
            && (h.Handled? && !runs && !stops ==> h.store == s)
  {
    var last := LatestDeprovisioning(s, id);
    if last.Some? && !Finished(s.ops[last.value]) {
      assert Unfinished(s, id, last.value);
    }
  }

  // ----- Update -----

  /** What is checked before anything else: the first failing check decides the status. */
  lemma UpdateRefusals(cfg: Config, s: Store, u: UpdateRequest)
    ensures var known := u.instanceID in s.instances;
            var valid := known && (u.params.None? || u.schemaValid) && !s.instances[u.instanceID].expired;
            && (!known ==> Update(cfg, s, u) == (s, Rejected(404)))
            && (known && !valid ==> Update(cfg, s, u) == (s, Rejected(400)))
            && (valid && !HasKind(s.ops, u.instanceID, Provisioning) ==> Update(cfg, s, u) == (s, Rejected(500)))
            && (valid ==>
                  forall id :: IsNewestOf(s.ops, u.instanceID, Provisioning, id) && s.ops[id].state == Failed ==>
                    Update(cfg, s, u) == (s, Rejected(422)))
            && (valid && HasKind(s.ops, u.instanceID, Provisioning) ==>
                  forall id :: IsNewestOf(s.ops, u.instanceID, Deprovisioning, id) && !s.ops[id].temporary ==>
                    Update(cfg, s, u) == (s, Rejected(422)))
  {
    LatestIsNewest(s.ops, u.instanceID, Provisioning);
    LatestIsNewest(s.ops, u.instanceID, Deprovisioning);
  }

  /** Nothing else is refused at this stage. */
  lemma RefusedExactly(s: Store, u: UpdateRequest)
    ensures UpdateRefusal(s, u).None?
            <==> && u.instanceID in s.instances && (u.params.None? || u.schemaValid)
                 && !s.instances[u.instanceID].expired
                 && (exists id :: IsNewestOf(s.ops, u.instanceID, Provisioning, id) && s.ops[id].state != Failed)
                 && (forall id :: IsNewestOf(s.ops, u.instanceID, Deprovisioning, id) ==> s.ops[id].temporary)
  {
    LatestIsNewest(s.ops, u.instanceID, Provisioning);
    LatestIsNewest(s.ops, u.instanceID, Deprovisioning);
    var prov := Latest(s.ops, u.instanceID, OfKind(Provisioning));
    if prov.Some? {
      assert IsNewestOf(s.ops, u.instanceID, Provisioning, prov.value);
    }
    var deprov := Latest(s.ops, u.instanceID, OfKind(Deprovisioning));
    if deprov.Some? {
      assert IsNewestOf(s.ops, u.instanceID, Deprovisioning, deprov.value);
    }
  }

  /**
   A context is turned down exactly when the instance never started an operation, or a stopped trial is to run after
   a failed suspension. An accepted one brings a suspension change exactly when a stopped trial is to run, a running
   one to stop, or a stopped one to stay so whose suspension failed.
   */
  lemma ContextExactly(cfg: Config, s: Store, u: UpdateRequest)
    requires UpdateRefusal(s, u).None?
    ensures var trial, running := s.instances[u.instanceID].planID == TRIAL_PLAN_ID, Running(s, u.instanceID);
            var runs := trial && !running && u.context.active == Some(true);
            var stops := trial && if running then u.context.active == Some(false)
                                  else u.context.active != Some(true) && LastFailed(s, u.instanceID);
            var h := ProcessContext(cfg, s, u);
            && (h.Handled? <==> Latest(s.ops, u.instanceID, Started).Some? && !(runs && LastFailed(s, u.instanceID)))
            && (h.Handled? ==> (h.changed <==> runs || stops))
  {
    var prov := Latest(s.ops, u.instanceID, OfKind(Provisioning)).value;
    var last := Latest(s.ops, u.instanceID, Started);
    if last.Some? {
      var i := WithContext(s.instances[u.instanceID], MergedContext(s, u, prov, last.value));
      assert i.params.ersContext.active == Some(Running(s, u.instanceID));
      HandlerExactly(s, u.instanceID, i, u.context);
    }
  }

  /** The request carries something to update. */
  predicate Carries(u: UpdateRequest) {
    u.params.Some? || CarriesContextUpdate(u.context)
  }

  /**
   The answers to an update that is not refused: plain success when processing is off, when the context brought a
   suspension change, or when there is nothing to update; then the checks of the update, the first failing one
   deciding the status.
   */
  lemma UpdateAnswers(cfg: Config, s: Store, u: UpdateRequest)
    requires UpdateRefusal(s, u).None?
    ensures !cfg.processingEnabled ==> Update(cfg, s, u) == (s, Sync)
    ensures cfg.processingEnabled && !ProcessContext(cfg, s, u).Handled? ==> Update(cfg, s, u) == (s, Rejected(500))
    ensures ContextAccepted(cfg, s, u) ==>
              var answer, quiet := Update(cfg, s, u).1, !ProcessContext(cfg, s, u).changed;
              var i, p := s.instances[u.instanceID], GetOr(u.params, NO_UPDATE);
              var named := cfg.planDefaults(if u.planID != "" then u.planID else i.params.planID);
              var oidcOk := OidcProvided(p.oidc) ==> u.oidcValid;
              && (answer == Sync <==> !quiet || !Carries(u))
              && (quiet && Carries(u) && (!u.asyncAllowed || !oidcOk) ==> answer == Rejected(422))
              && (quiet && Carries(u) && u.asyncAllowed && oidcOk ==>
                    && (named.None? ==> answer == Rejected(500))
                    && (named.Some? ==>
                          answer == if Validates(RequestedLimits(s, u), named.value) then Async(|s.ops|)
                                    else Rejected(400)))
  {
    if ContextAccepted(cfg, s, u) {
      var i, op := ContextDelta(cfg, s, u);
    }
  }

  /** After an accepted context: the active flag, the identities and the account the instance has moved to. */
  lemma ContextIdentity(cfg: Config, s: Store, u: UpdateRequest)
    requires ContextAccepted(cfg, s, u)
    ensures u.instanceID in Update(cfg, s, u).0.instances
    ensures var prov := s.ops[Latest(s.ops, u.instanceID, OfKind(Provisioning)).value].params.ersContext;
            var i := Update(cfg, s, u).0.instances[u.instanceID];
            var e := i.params.ersContext;
            && e.tenantID == prov.tenantID && e.subAccountID == prov.subAccountID && e.userID == prov.userID
            && e.active == (if u.context.active.Some? then u.context.active else Some(Running(s, u.instanceID)))
    ensures var before := s.instances[u.instanceID].globalAccountID;
            Update(cfg, s, u).0.instances[u.instanceID].globalAccountID
            == if cfg.subAccountMovementEnabled && u.context.globalAccountID != "" then u.context.globalAccountID
               else before
  {
    ParametersKeepContext(cfg, ProcessContext(cfg, s, u).store, u);
  }

  // ----- workers -----

  /** A started operation keeps its own context values and takes missing ones from the last operation. */
  lemma StartCompletesContext(s: Store, id: nat)
    requires id < |s.ops| && s.ops[id].state == Pending && Latest(s.ops, s.ops[id].instanceID, Started).Some?
    ensures var before := s.ops[id].params.ersContext;
            var last := s.ops[Latest(s.ops, s.ops[id].instanceID, Started).value].params.ersContext;
            var s' := StartOperation(s, id);
            var e := s'.ops[id].params.ersContext;
            && s'.ops[id].state == InProgress
            && e.credentials == (if before.credentials.Some? then before.credentials else last.credentials)
            && e.commercialModel
               == (if before.commercialModel.Some? then before.commercialModel else last.commercialModel)
            && e.licenseType == (if before.licenseType.Some? then before.licenseType else last.licenseType)
            && e.origin == (if before.origin.Some? then before.origin else last.origin)
            && e.platform == (if before.platform.Some? then before.platform else last.platform)
            && e.region == (if before.region.Some? then before.region else last.region)
  {
  }

  /** The end of a process other than a deletion's success sets the state and nothing else. */
  lemma FinishEnds(s: Store, id: nat, succeeded: bool)
    requires id < |s.ops| && !Finished(s.ops[id])
    requires succeeded ==> s.ops[id].kind != Deprovisioning || s.ops[id].temporary || s.ops[id].retrySteps != []
    ensures FinishOperation(s, id, succeeded)
            == s.(ops := s.ops[id := s.ops[id].(state := if succeeded then Succeeded else Failed)])
  {
  }

  /**
   A deletion that skipped a step ends without removing the instance, and the next Deprovision call starts a new one
   with the instance's parameters.
   */
  lemma SkippedDeletionIsRetried(s: Store, id: nat, step: string)
    requires id < |s.ops| && s.ops[id].state == InProgress && OngoingDeletion(s.ops[id])
    requires s.ops[id].instanceID in s.instances
    requires IsNewestOf(s.ops, s.ops[id].instanceID, Deprovisioning, id)
    ensures var i := s.ops[id].instanceID;
            var s' := FinishOperation(RemoveInstance(SkipStep(s, id, step), id), id, true);
            && s'.instances == s.instances && s'.ops[id].retrySteps == s.ops[id].retrySteps + [step]
            && StoresDeprovisioning(s', Deprovision(s', i).0, i, false, s.instances[i].params)
  {
    var i := s.ops[id].instanceID;
    var s' := FinishOperation(RemoveInstance(SkipStep(s, id, step), id), id, true);
    assert s'.ops == s.ops[id := s'.ops[id]];
    assert IsNewestOf(s'.ops, i, Deprovisioning, id);
    DeprovisionExactly(s', i);
  }

  /** A started update completes the context of its instance from its own. */
  lemma StartedUpdateCompletesInstance(s: Store, id: nat)
    requires id < |s.ops| && s.ops[id].state == Pending && s.ops[id].kind == Updating
    requires s.ops[id].instanceID in s.instances
    ensures var i := s.ops[id].instanceID;
            var before, given := s.instances[i].params.ersContext, s.ops[id].params.ersContext;
            var s' := StartOperation(s, id);
            && i in s'.instances
            && var e := s'.instances[i].params.ersContext;
            && e.credentials == (if before.credentials.Some? then before.credentials else given.credentials)
            && e.commercialModel
               == (if before.commercialModel.Some? then before.commercialModel else given.commercialModel)
            && e.licenseType == (if before.licenseType.Some? then before.licenseType else given.licenseType)
            && e.origin == (if before.origin.Some? then before.origin else given.origin)
            && e.platform == (if before.platform.Some? then before.platform else given.platform)
            && e.region == (if before.region.Some? then before.region else given.region)
            && e.active == before.active && s'.instances[i].params.parameters == s.instances[i].params.parameters
  {
  }

  /** The resolved secret is written into a provisioning operation in progress, and nothing else is. */
  lemma ResolveWrites(s: Store, id: nat, secret: string)
    requires id < |s.ops| && s.ops[id].state == InProgress && s.ops[id].kind == Provisioning
    ensures var s' := ResolveCredentials(s, id, secret);
            && |s'.ops| == |s.ops| && s'.ops[id].params.parameters.targetSecret == Some(secret)
            && (forall k :: 0 <= k < |s.ops| && k != id ==> s'.ops[k] == s.ops[k]) && s'.instances == s.instances
  {
  }

  /**
   A deletion under way with nothing left to retry is completed by the removal and the end of its process: the
   instance is gone, the operation has succeeded, and Deprovision answers with a plain success from then on.
   */
  lemma DeletionCompletes(s: Store, id: nat)
    requires id < |s.ops| && s.ops[id].state == InProgress && s.ops[id].kind == Deprovisioning
    requires !s.ops[id].temporary && s.ops[id].retrySteps == []
    ensures var i := s.ops[id].instanceID;
            var s' := FinishOperation(RemoveInstance(s, id), id, true);
            && s'.instances.Keys == s.instances.Keys - {i}
            && s'.ops[id].state == Succeeded && Deprovision(s', i) == (s', Sync)
  {
  }
}
