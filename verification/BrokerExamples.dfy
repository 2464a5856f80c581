/**
 Concrete runs from the empty store on which an expected property fails. Each one belongs to a theorem that says
 exactly when the property holds.
 */
module BrokerExamples {
  import opened Wrappers
  import opened Parameters
  import opened Broker
  import BrokerInvariants
  import opened BrokerTheorems
  import opened BrokerUpdates

  const CONTEXT := ErsContext("tenant", "sub", "ga", "user", None, None, None, None, None, None, None)
  const PARAMETERS := RuntimeParameters(NO_AUTOSCALER, None, None, None, [], None, "")
  const EMPTY_OIDC := Oidc("", "", "", [], "", "")

  function PlanBounds(plan: string): Option<Bounds> {
    Some(if plan == "large" then Bounds(1, 100) else Bounds(1, 10))
  }

  function Settings(onlySingleTrialPerGA: bool): Config {
    Config(true, true, onlySingleTrialPerGA, PlanBounds)
  }

  function ProvisionOf(plan: string, parameters: RuntimeParameters): ProvisionRequest {
    ProvisionRequest("i", ProvisioningParameters(plan, "service", CONTEXT, parameters, "", ""), true)
  }

  function UpdateWith(plan: string, p: UpdatingParameters): UpdateRequest {
    UpdateRequest("i", plan, CONTEXT, Some(p), true, true, true)
  }

  function Activation(active: bool): UpdateRequest {
    UpdateRequest("i", TRIAL_PLAN_ID, CONTEXT.(active := Some(active)), None, true, true, true)
  }

  /** The store after the first request of a plan was accepted. */
  function AfterProvision(plan: string): Store {
    var p := WithLicence(ProvisionOf(plan, PARAMETERS).params);
    Store(map["i" := Instance(plan, "ga", "", p, false)],
          [NewProvisioning("i", p, InProgress)], [0], [], [])
  }

  lemma FirstProvision(limited: bool, plan: string)
    ensures Provision(Settings(limited), EMPTY, ProvisionOf(plan, PARAMETERS)) == (AfterProvision(plan), Async(0))
  {
    var cfg, r := Settings(limited), ProvisionOf(plan, PARAMETERS);
    assert WellFormed(cfg, r) && !TrialLimitHit(cfg, EMPTY, r.params);
    var (s, answer) := Provision(cfg, EMPTY, r);
    assert s.instances == AfterProvision(plan).instances;
    assert s.ops == AfterProvision(plan).ops;
    assert s.provisioning == [0];
  }

  // ----- replays -----

  /** A trial request repeated at once runs into the single-trial limit. */
  lemma TrialReplayRefused() returns (cfg: Config, r: ProvisionRequest)
    ensures Provision(cfg, EMPTY, r).1 == Async(0)
    ensures Provision(cfg, Provision(cfg, EMPTY, r).0, r).1 == Rejected(400)
  {
    cfg, r := Settings(true), ProvisionOf(TRIAL_PLAN_ID, PARAMETERS);
    FirstProvision(true, TRIAL_PLAN_ID);
    var s := AfterProvision(TRIAL_PLAN_ID);
    assert "i" in s.instances && AccountHasInstance(s, "ga");
    assert TrialLimitHit(cfg, s, r.params);
  }

  /** A request that names a target secret conflicts with itself. */
  lemma SecretReplayRefused() returns (cfg: Config, r: ProvisionRequest)
    ensures Provision(cfg, EMPTY, r).1 == Async(0)
    ensures Provision(cfg, Provision(cfg, EMPTY, r).0, r).1 == Rejected(409)
  {
    cfg, r := Settings(false), ProvisionOf("small", PARAMETERS.(targetSecret := Some("s")));
    assert WellFormed(cfg, r) && !TrialLimitHit(cfg, EMPTY, r.params);
    ReplayAmongProvisions(cfg, EMPTY, r, [], r);
  }

  // ----- updates -----

  /** On a freshly provisioned instance the newest provisioning and the last operation are operation 0. */
  lemma OnlyOperation(plan: string)
    ensures var ops := AfterProvision(plan).ops;
            && Latest(ops, "i", OfKind(Provisioning)) == Latest(ops, "i", Started) == Some(0)
            && Latest(ops, "i", OfKind(Deprovisioning)).None?
  {
    var ops := AfterProvision(plan).ops;
    assert Matches(ops[0], "i", OfKind(Provisioning)) && Matches(ops[0], "i", Started);
  }

  lemma UpdateAccepted(plan: string, named: string, p: UpdatingParameters)
    requires plan != TRIAL_PLAN_ID && named != ""
    requires Validates(UpdateAutoScaler(p.autoScaler, NO_AUTOSCALER), PlanBounds(named).value)
    ensures Update(Settings(false), AfterProvision(plan), UpdateWith(named, p)).1 == Async(1)
  {
    OnlyOperation(plan);
    var cfg, s, u := Settings(false), AfterProvision(plan), UpdateWith(named, p);
    assert UpdateRefusal(s, u).None?;
    var h := ProcessContext(cfg, s, u);
    assert h.Handled? && !h.changed;
    assert h.store.ops == s.ops && h.store.instances["i"].params.parameters == s.instances["i"].params.parameters;
  }

  /** A minimum of 50, accepted under the larger plan the update names, crosses the own plan's maximum of 10. */
  lemma ForeignPlanExample() returns (cfg: Config, r: ProvisionRequest, u: UpdateRequest)
    ensures AllSized(cfg, Run(cfg, EMPTY, [ProvisionCall(r)]))
    ensures !AllSized(cfg, Run(cfg, EMPTY, [ProvisionCall(r), UpdateCall(u)]))
  {
    cfg, r, u := Settings(false), ProvisionOf("small", PARAMETERS), UpdateWith("large", MINIMUM_50);
    FirstProvision(false, "small");
    ForeignUpdateCrosses();
    TwoSteps(cfg, ProvisionCall(r), UpdateCall(u));
  }

  const MINIMUM_50 := NO_UPDATE.(autoScaler := NO_AUTOSCALER.(min := Some(50)))

  lemma ForeignUpdateCrosses()
    ensures AllSized(Settings(false), AfterProvision("small"))
    ensures var s := Update(Settings(false), AfterProvision("small"), UpdateWith("large", MINIMUM_50)).0;
            !AllSized(Settings(false), s)
  {
    UpdateAccepted("small", "large", MINIMUM_50);
    SizedExactly(Settings(false), AfterProvision("small"), UpdateWith("large", MINIMUM_50));
  }

  lemma TwoSteps(cfg: Config, a: Event, b: Event)
    ensures Run(cfg, EMPTY, [a]) == Step(cfg, EMPTY, a)
    ensures Run(cfg, EMPTY, [a, b]) == Step(cfg, Step(cfg, EMPTY, a), b)
  {
    RunCons(cfg, EMPTY, a, []);
    RunCons(cfg, EMPTY, a, [b]);
    RunCons(cfg, Step(cfg, EMPTY, a), b, []);
    assert [a] + [b] == [a, b];
  }

  lemma RunCons(cfg: Config, s: Store, e: Event, rest: seq<Event>)
    ensures Run(cfg, s, [e] + rest) == Run(cfg, Step(cfg, s, e), rest)
  {
    assert ([e] + rest)[1..] == rest;
  }

  /** A machine type alone reaches the update operation and not the instance. */
  lemma MachineTypeNotStored() returns (cfg: Config, r: ProvisionRequest, u: UpdateRequest)
    ensures var s := Run(cfg, EMPTY, [ProvisionCall(r)]);
            && Update(cfg, s, u).1 == Async(1)
            && |Update(cfg, s, u).0.ops| == 2 && u.instanceID in Update(cfg, s, u).0.instances
            && Update(cfg, s, u).0.instances[u.instanceID].params.parameters.machineType
               != Update(cfg, s, u).0.ops[1].params.parameters.machineType
  {
    cfg, r := Settings(false), ProvisionOf("small", PARAMETERS);
    u := UpdateWith("small", NO_UPDATE.(machineType := Some("m5.xlarge")));
    FirstProvision(false, "small");
    RunCons(cfg, EMPTY, ProvisionCall(r), []);
    UpdateAccepted("small", "small", u.params.value);
    UpdateAgreement(cfg, AfterProvision("small"), u);
  }

  /** An empty OIDC object reaches the update operation and not the instance. */
  lemma EmptyOidcNotStored() returns (cfg: Config, r: ProvisionRequest, u: UpdateRequest)
    ensures var s := Run(cfg, EMPTY, [ProvisionCall(r)]);
            && Update(cfg, s, u).1 == Async(1)
            && |Update(cfg, s, u).0.ops| == 2 && u.instanceID in Update(cfg, s, u).0.instances
            && Update(cfg, s, u).0.instances[u.instanceID].params.parameters.oidc
               != Update(cfg, s, u).0.ops[1].params.parameters.oidc
  {
    cfg, r := Settings(false), ProvisionOf("small", PARAMETERS);
    u := UpdateWith("small", NO_UPDATE.(oidc := Some(EMPTY_OIDC)));
    FirstProvision(false, "small");
    RunCons(cfg, EMPTY, ProvisionCall(r), []);
    UpdateAccepted("small", "small", u.params.value);
    UpdateAgreement(cfg, AfterProvision("small"), u);
  }

  // ----- the active flag -----

  /** A trial instance "i" whose last operations are those of `ops`, ready for another context update. */
  ghost predicate Trial(s: Store, ops: seq<(OperationKind, OperationState)>) {
    && "i" in s.instances && s.instances["i"].planID == TRIAL_PLAN_ID && !s.instances["i"].expired
    && |s.ops| == |ops|
    && forall k :: 0 <= k < |ops| ==>
      && s.ops[k].instanceID == "i" && s.ops[k].kind == ops[k].0 && s.ops[k].state == ops[k].1
      && s.ops[k].temporary == (ops[k].0 == Deprovisioning)
  }

  /** Asking for a suspension of a running trial stores one. */
  lemma TrialSuspends(s: Store)
    requires Trial(s, [(Provisioning, InProgress)])
    ensures Trial(Update(Settings(false), s, Activation(false)).0,
                  [(Provisioning, InProgress), (Deprovisioning, Pending)])
  {
    assert Matches(s.ops[0], "i", OfKind(Provisioning)) && Matches(s.ops[0], "i", Started);
    assert LatestDeprovisioning(s, "i").None?;
  }

  /** Asking for it to run again stores an unsuspension while the suspension is still waiting. */
  lemma TrialResumes(s: Store)
    requires Trial(s, [(Provisioning, InProgress), (Deprovisioning, Pending)])
    ensures Trial(Update(Settings(false), s, Activation(true)).0,
                  [(Provisioning, InProgress), (Deprovisioning, Pending), (Provisioning, Pending)])
  {
    assert Matches(s.ops[0], "i", OfKind(Provisioning)) && Matches(s.ops[0], "i", Started);
    assert Matches(s.ops[1], "i", OfKind(Deprovisioning));
    assert LatestDeprovisioning(s, "i") == Some(1);
    assert Latest(s.ops, "i", OfKind(Provisioning)) == Some(0) && Latest(s.ops, "i", Started) == Some(0);
  }

  /** Asking for a second suspension then stores none. */
  lemma TrialSwallows(s: Store)
    requires Trial(s, [(Provisioning, InProgress), (Deprovisioning, Pending), (Provisioning, Pending)])
    ensures ContextAccepted(Settings(false), s, Activation(false)) && SuspensionSwallowed(s, Activation(false))
  {
    assert Matches(s.ops[0], "i", Started) && Matches(s.ops[2], "i", OfKind(Provisioning));
    assert Matches(s.ops[1], "i", OfKind(Deprovisioning));
    assert LatestDeprovisioning(s, "i") == Some(1);
    assert Latest(s.ops, "i", OfKind(Provisioning)) == Some(2) && Latest(s.ops, "i", Started) == Some(0);
  }

  /** The events that suspend and unsuspend a trial before any worker steps. */
  const OFF_AND_ON := [UpdateCall(Activation(false))] + ([UpdateCall(Activation(true))] + [])

  lemma TrialRun()
    ensures Trial(Run(Settings(false), AfterProvision(TRIAL_PLAN_ID), OFF_AND_ON),
                  [(Provisioning, InProgress), (Deprovisioning, Pending), (Provisioning, Pending)])
  {
    var cfg, s0 := Settings(false), AfterProvision(TRIAL_PLAN_ID);
    var s1 := Update(cfg, s0, Activation(false)).0;
    TrialSuspends(s0);
    TrialResumes(s1);
    RunCons(cfg, s0, UpdateCall(Activation(false)), [UpdateCall(Activation(true))] + []);
    RunCons(cfg, s1, UpdateCall(Activation(true)), []);
  }

  /**
   A trial is provisioned, suspended, unsuspended and suspended again before any worker steps: the last suspension
   is accepted and the instance goes on running.
   */
  lemma SuspensionNotStarted() returns (cfg: Config, run: seq<Event>, u: UpdateRequest)
    ensures var s := Run(cfg, EMPTY, run);
            && ContextAccepted(cfg, s, u) && u.context.active == Some(false)
            && Running(Update(cfg, s, u).0, u.instanceID)
  {
    cfg, u := Settings(false), Activation(false);
    var first := ProvisionCall(ProvisionOf(TRIAL_PLAN_ID, PARAMETERS));
    run := [first] + OFF_AND_ON;
    FirstProvision(false, TRIAL_PLAN_ID);
    RunCons(cfg, EMPTY, first, OFF_AND_ON);
    TrialRun();
    var s := Run(cfg, AfterProvision(TRIAL_PLAN_ID), OFF_AND_ON);
    TrialSwallows(s);
    ActiveFlagFollowed(cfg, s, u);
  }

  /** A trial suspended and unsuspended refuses the request it was created with. */
  lemma UnsuspendedReplayRefused() returns (cfg: Config, r: ProvisionRequest, run: seq<Event>)
    ensures Provision(cfg, EMPTY, r).1 == Async(0)
    ensures Provision(cfg, Run(cfg, Provision(cfg, EMPTY, r).0, run), r).1 == Rejected(409)
  {
    cfg, r, run := Settings(false), ProvisionOf(TRIAL_PLAN_ID, PARAMETERS), OFF_AND_ON;
    FirstProvision(false, TRIAL_PLAN_ID);
    TrialRun();
    var s := Run(cfg, AfterProvision(TRIAL_PLAN_ID), OFF_AND_ON);
    assert Matches(s.ops[2], "i", OfKind(Provisioning));
    BrokerInvariants.ReachableInv(cfg, []);
    ReplayInAnyRun(cfg, EMPTY, r, run, r);
  }
}
