/**
 What the lifecycle promises over whole runs: one deletion at a time, idempotent
 deprovisioning and provisioning, no update after a deletion, final expiry, a followed
 active flag, a fixed subscription account, and credentials that follow the latest
 request.
 */
module BrokerTheorems {
  import opened Wrappers
  import opened Parameters
  import opened Broker
  import opened BrokerInvariants

  // ----- deprovisioning -----

  /** In every reachable store an instance has at most one unfinished deletion, and it is its newest one. */
  lemma AtMostOneDeletion(cfg: Config, run: seq<Event>, j: nat, k: nat)
    requires var ops := Run(cfg, EMPTY, run).ops;
             && j < |ops| && k < |ops| && ops[j].instanceID == ops[k].instanceID
             && OngoingDeletion(ops[j]) && OngoingDeletion(ops[k])
    ensures j == k
    ensures var s := Run(cfg, EMPTY, run);
            LatestDeprovisioning(s, s.ops[j].instanceID) == Some(j)
  {
    ReachableInv(cfg, run);
    var s := Run(cfg, EMPTY, run);
    assert DeletionsAreNewest(s.ops);
    assert Matches(s.ops[j], s.ops[j].instanceID, OfKind(Deprovisioning));
  }

  /** Deprovisioning twice in a row inserts nothing the second time and returns the same answer. */
  lemma DeprovisionTwice(s: Store, i: string)
    ensures var (s1, r1) := Deprovision(s, i);
            Deprovision(s1, i) == (s1, r1)
  {
    var (s1, r1) := Deprovision(s, i);
    if s1 != s {
      assert Matches(s1.ops[|s.ops|], i, OfKind(Deprovisioning));
    }
  }

  /** The deletion `id` answers every Deprovision call for instance `i`. */
  ghost predicate AnsweredBy(s: Store, i: string, id: nat) {
    && i in s.instances
    && LatestDeprovisioning(s, i) == Some(id)
    && OngoingDeletion(s.ops[id])
  }

  lemma LatestAppend(ops: seq<Operation>, op: Operation, i: string, q: Query)
    ensures Latest(ops + [op], i, q) == if Matches(op, i, q) then Some(|ops|) else Latest(ops, i, q)
  {
    assert (ops + [op])[..|ops|] == ops;
  }

  lemma ApplyKeepsAnswer(s: Store, d: Delta, i: string, id: nat)
    requires Rooted(s.ops, i) && AnsweredBy(s, i, id) && Lawful(s, d)
    ensures Rooted(Apply(s, d).ops, i) && AnsweredBy(Apply(s, d), i, id)
  {
    match d
    case Unchanged =>
    case Created(c, p) =>
      assert c != i;
      InsertKeepsRoots(s.ops, NewProvisioning(c, p, InProgress), i);
      LatestAppend(s.ops, NewProvisioning(c, p, InProgress), i, OfKind(Deprovisioning));
    case Changed(c, w, None) =>
    case Changed(c, w, Some(op)) =>
      InsertKeepsRoots(s.ops, op, i);
      LatestAppend(s.ops, op, i, OfKind(Deprovisioning));
  }

  /** While no worker steps, whatever requests arrive, every Deprovision call returns the one ongoing deletion. */
  lemma {:induction false} RepeatedDeprovision(cfg: Config, s: Store, run: seq<Event>, i: string, id: nat)
    requires Rooted(s.ops, i) && AnsweredBy(s, i, id)
    requires forall k :: 0 <= k < |run| ==> !IsWorkerStep(run[k])
    ensures var s' := Run(cfg, s, run);
            AnsweredBy(s', i, id) && Deprovision(s', i) == (s', Async(id))
    decreases |run|
  {
    if run != [] {
      var d := RequestDelta(cfg, s, run[0]);
      ApplyKeepsAnswer(s, d, i, id);
      RepeatedDeprovision(cfg, Step(cfg, s, run[0]), run[1..], i, id);
    }
  }

  /** The newest deprovisioning operation of a stored instance answers Deprovision calls. */
  ghost predicate ClosedBy(s: Store, i: string, id: nat) {
    && i in s.instances
    && LatestDeprovisioning(s, i) == Some(id)
    && AnswersDeprovision(s.ops[id])
  }

  /** Provision, Update and Deprovision leave a closed instance and everything else as it is. */
  lemma ClosedIsLeftAlone(cfg: Config, s: Store, e: Event, i: string, id: nat)
    requires Rooted(s.ops, i) && ClosedBy(s, i, id) && !IsWorkerStep(e) && e != ExpireCall(i) && Target(e) == i
    ensures Step(cfg, s, e) == s
  {
  }

  /** A deletion that answers for a stored instance is still under way: a completed one has removed the instance. */
  lemma ClosedIsOngoing(s: Store, i: string, id: nat)
    requires DeletedAreGone(s) && ClosedBy(s, i, id)
    ensures AnsweredBy(s, i, id)
  {
    assert GoneIfDeleted(s, s.ops[id]);
  }

  /** Every Deprovision call on a stored instance returns its newest deprovisioning operation, one that answers. */
  lemma DeprovisionCloses(s: Store, i: string)
    requires i in s.instances
    ensures var (s1, r) := Deprovision(s, i);
            r.Async? && ClosedBy(s1, i, r.operation)
  {
    var (s1, r) := Deprovision(s, i);
    if s1 != s {
      assert Matches(s1.ops[|s.ops|], i, OfKind(Deprovisioning));
    }
  }

  /**
   While no worker steps, whatever requests arrive, Expire among them, Deprovision repeats its first answer and
   inserts nothing more: the same operation id, or the plain success for an instance already removed.
   */
  lemma DeprovisionAgain(cfg: Config, s: Store, run: seq<Event>, i: string)
    requires Inv(s) && Provisioned(s.ops, i)
    requires forall k :: 0 <= k < |run| ==> !IsWorkerStep(run[k])
    ensures var (s1, r) := Deprovision(s, i);
            var s' := Run(cfg, s1, run);
            Deprovision(s', i) == (s', r)
  {
    if i in s.instances {
      var (s1, r) := Deprovision(s, i);
      DeprovisionStarts(s, i);
      RepeatedDeprovision(cfg, s1, run, i, r.operation);
    } else {
      RunEvolves(cfg, s, run, i);
    }
  }

  /** A Deprovision call on a stored instance leaves a deletion under way, which is its answer. */
  lemma DeprovisionStarts(s: Store, i: string)
    requires Inv(s) && i in s.instances
    ensures var (s1, r) := Deprovision(s, i);
            r.Async? && Rooted(s1.ops, i) && AnsweredBy(s1, i, r.operation)
  {
    DeprovisionKeepsInv(s, i);
    DeprovisionCloses(s, i);
    var (s1, r) := Deprovision(s, i);
    ClosedIsOngoing(s1, i, r.operation);
  }

  /** Deprovision answers with an operation exactly for a stored instance, and with an old one only without effect. */
  lemma DeprovisionAnswer(s: Store, i: string)
    ensures var (s', r) := Deprovision(s, i);
            && s'.instances == s.instances
            && (r.Async? <==> i in s.instances)
            && (r.Async? && r.operation < |s.ops| ==> s' == s)
  {
  }

  lemma DeprovisionGuarantee(s: Store, i: string)
    requires Inv(s)
    ensures var (s', r) := Deprovision(s, i);
            r.Async? ==> AnsweredBy(s', i, r.operation)
  {
    DeprovisionAnswer(s, i);
    if i in s.instances {
      DeprovisionStarts(s, i);
    }
  }

  // ----- no update after a deletion, no return from expiry -----

  /** Once a deletion was stored, every update of that instance is refused in every later state. */
  lemma NoUpdateAfterDeletion(cfg: Config, s: Store, run: seq<Event>, j: nat, u: UpdateRequest)
    requires Inv(s) && j < |s.ops|
    requires s.ops[j].kind == Deprovisioning && !s.ops[j].temporary && s.ops[j].instanceID == u.instanceID
    ensures var s' := Run(cfg, s, run);
            Update(cfg, s', u).0 == s' && Update(cfg, s', u).1.Rejected?
  {
    RunExtends(cfg, s, run);
    RunKeepsInv(cfg, s, run);
    DeletionRefusesUpdate(cfg, Run(cfg, s, run), j, u);
  }

  lemma DeletionRefusesUpdate(cfg: Config, s: Store, j: nat, u: UpdateRequest)
    requires ClosedAfterDeletion(s) && j < |s.ops|
    requires s.ops[j].kind == Deprovisioning && !s.ops[j].temporary && s.ops[j].instanceID == u.instanceID
    ensures Update(cfg, s, u).0 == s && Update(cfg, s, u).1.Rejected?
  {
    assert Matches(s.ops[j], u.instanceID, OfKind(Deprovisioning));
    var last := LatestDeprovisioning(s, u.instanceID);
    assert last.value == j || j < last.value;
  }

  /** The only operations added for an expired or removed instance are deprovisioning ones. */
  ghost predicate OnlyDeprovisioningSince(ops: seq<Operation>, ops': seq<Operation>, i: string) {
    forall k :: |ops| <= k < |ops'| && ops'[k].instanceID == i ==> ops'[k].kind == Deprovisioning
  }

  ghost predicate NeverActiveAgain(s: Store, i: string) {
    Provisioned(s.ops, i) && (i in s.instances ==> s.instances[i].expired)
  }

  lemma ApplyAfterExpiry(s: Store, d: Delta, i: string)
    requires Lawful(s, d) && NeverActiveAgain(s, i)
    ensures OnlyDeprovisioningSince(s.ops, Apply(s, d).ops, i)
  {
    if d.Changed? && d.inserted.Some? && d.instanceID == i {
      assert d.written.expired;
    }
  }

  lemma StepAfterExpiry(cfg: Config, s: Store, e: Event, i: string)
    requires NeverActiveAgain(s, i)
    ensures OnlyDeprovisioningSince(s.ops, Step(cfg, s, e).ops, i)
  {
    if !IsWorkerStep(e) {
      var d := RequestDelta(cfg, s, e);
      ApplyAfterExpiry(s, d, i);
    }
  }

  lemma StepKeepsExpired(cfg: Config, s: Store, e: Event, i: string)
    requires InstancesRooted(s) && CredentialsKept(s) && NeverActiveAgain(s, i)
    ensures NeverActiveAgain(Step(cfg, s, e), i)
  {
    StepExtends(cfg, s, e);
    ProvisionedStays(s.ops, Step(cfg, s, e).ops, i);
    StepEvolves(cfg, s, e, i);
  }

  /** An expired instance stays expired and inactive, and is never provisioned or updated again. */
  lemma {:induction false} ExpiryIsFinal(cfg: Config, s: Store, run: seq<Event>, i: string)
    requires Inv(s) && NeverActiveAgain(s, i)
    ensures var s' := Run(cfg, s, run);
            && OnlyDeprovisioningSince(s.ops, s'.ops, i)
            && (i in s'.instances ==> s'.instances[i].expired
                                      && s'.instances[i].params.ersContext.active == Some(false))
    decreases |run|
  {
    if run != [] {
      var s1 := Step(cfg, s, run[0]);
      StepAfterExpiry(cfg, s, run[0], i);
      StepKeepsExpired(cfg, s, run[0], i);
      StepKeepsInv(cfg, s, run[0]);
      StepExtends(cfg, s, run[0]);
      RunExtends(cfg, s1, run[1..]);
      ExpiryIsFinal(cfg, s1, run[1..], i);
    }
  }

  /**
   Expiring a trial instance marks it expired and inactive for good, and its newest deprovisioning operation, which
   is the one returned, is unfinished: the one already under way, or else a new suspension.
   */
  lemma ExpireTakesEffect(s: Store, i: string)
    requires i in s.instances && s.instances[i].planID == TRIAL_PLAN_ID
    ensures var (s', r) := Expire(s, i);
            && r.Async? && LatestDeprovisioning(s', i) == Some(r.operation) && !Finished(s'.ops[r.operation])
            && i in s'.instances && s'.instances[i].expired
            && s'.instances[i].params.ersContext.active == Some(false)
            && (r.operation < |s.ops| ==> s'.ops == s.ops)
            && (r.operation >= |s.ops| ==> s'.ops[r.operation].temporary && |s'.ops| == |s.ops| + 1)
  {
    var s' := Expire(s, i).0;
    var e := s.instances[i].(expired := true);
    assert LatestDeprovisioning(PutInstance(s, i, e), i) == LatestDeprovisioning(s, i);
    if s'.ops != s.ops {
      assert Matches(s'.ops[|s.ops|], i, OfKind(Deprovisioning));
    }
  }

  /** Operation `id` is the newest deprovisioning of the instance and not finished. */
  ghost predicate Unfinished(s: Store, i: string, id: nat) {
    LatestDeprovisioning(s, i) == Some(id) && !Finished(s.ops[id])
  }

  lemma SuspendExpiredLeaves(s: Store, id: string, i: Instance)
    ensures var (s', n) := SuspendExpired(s, id, i);
            && Unfinished(s', id, n)
            && if Unfinished(s, id, n) then s' == s else n == |s.ops| && s'.ops[n].temporary
  {
    LatestAppend(s.ops, NewSuspension(id, i), id, OfKind(Deprovisioning));
  }

  // ----- the active flag -----

  /** True when no suspension is newer than the last provisioning. */
  predicate Running(s: Store, i: string) {
    var prov := Latest(s.ops, i, OfKind(Provisioning));
    prov.Some? && ExtractActive(s, i, prov.value)
  }

  /** A suspension is asked for while an older one is still unfinished. */
  predicate SuspensionSwallowed(s: Store, u: UpdateRequest) {
    var last := LatestDeprovisioning(s, u.instanceID);
    u.context.active == Some(false) && Running(s, u.instanceID) && last.Some? && !Finished(s.ops[last.value])
  }

  lemma ParametersKeepRunning(cfg: Config, s: Store, u: UpdateRequest)
    requires u.instanceID in s.instances
    ensures Running(ProcessParameters(cfg, s, u).0, u.instanceID) == Running(s, u.instanceID)
  {
    var op := NewUpdate(u.instanceID, s.instances[u.instanceID], GetOr(u.params, NO_UPDATE));
    LatestAppend(s.ops, op, u.instanceID, OfKind(Provisioning));
    LatestAppend(s.ops, op, u.instanceID, OfKind(Deprovisioning));
  }

  /** Suspending stops a runtime exactly when no older suspension is still unfinished. */
  lemma SuspendStops(s: Store, id: string, i: Instance)
    requires Running(s, id)
    ensures var last := LatestDeprovisioning(s, id);
            Running(Suspend(s, id, i), id) <==> last.Some? && !Finished(s.ops[last.value])
  {
    LatestAppend(s.ops, NewSuspension(id, i), id, OfKind(Provisioning));
    LatestAppend(s.ops, NewSuspension(id, i), id, OfKind(Deprovisioning));
  }

  /** Suspending never starts a runtime. */
  lemma SuspendStaysStopped(s: Store, id: string, i: Instance)
    requires Latest(s.ops, id, OfKind(Provisioning)).Some? && !Running(s, id)
    ensures !Running(Suspend(s, id, i), id)
  {
    LatestAppend(s.ops, NewSuspension(id, i), id, OfKind(Provisioning));
    LatestAppend(s.ops, NewSuspension(id, i), id, OfKind(Deprovisioning));
  }

  /** Suspending leaves an unfinished deprovisioning, and changes nothing for an instance that goes on running. */
  lemma SuspendLeaves(s: Store, id: string, i: Instance)
    ensures exists n: nat :: Unfinished(Suspend(s, id, i), id, n)
    ensures Running(Suspend(s, id, i), id) ==> Suspend(s, id, i) == s && exists n: nat :: Unfinished(s, id, n)
  {
    var last := LatestDeprovisioning(s, id);
    LatestAppend(s.ops, NewSuspension(id, i), id, OfKind(Provisioning));
    LatestAppend(s.ops, NewSuspension(id, i), id, OfKind(Deprovisioning));
    if last.Some? && !Finished(s.ops[last.value]) {
      assert Unfinished(s, id, last.value) && Suspend(s, id, i) == s;
    } else {
      assert Unfinished(Suspend(s, id, i), id, |s.ops|);
    }
  }

  lemma UnsuspendStarts(s: Store, id: string, i: Instance)
    requires !i.expired
    ensures Running(Unsuspend(s, id, i), id)
  {
    LatestAppend(s.ops, NewProvisioning(id, i.params, Pending), id, OfKind(Provisioning));
    LatestAppend(s.ops, NewProvisioning(id, i.params, Pending), id, OfKind(Deprovisioning));
  }

  lemma HandlerFollowsFlag(s: Store, u: UpdateRequest, i: Instance)
    requires UpdateRefusal(s, u).None? && HandlerReady(s, u.instanceID, i)
    requires i.planID == TRIAL_PLAN_ID && !i.expired && u.context.active.Some?
    requires i.params.ersContext.active == Some(Running(s, u.instanceID))
    requires HandleContextChange(s, u.instanceID, i, u.context).Handled?
    ensures Running(HandleContextChange(s, u.instanceID, i, u.context).store, u.instanceID) == u.context.active.value
            <==> !SuspensionSwallowed(s, u)
  {
    if Running(s, u.instanceID) {
      SuspendStops(s, u.instanceID, i);
    } else {
      SuspendStaysStopped(s, u.instanceID, i);
      UnsuspendStarts(s, u.instanceID, i);
    }
  }

  lemma ContextFollowsFlag(cfg: Config, s: Store, u: UpdateRequest)
    requires UpdateRefusal(s, u).None? && ProcessContext(cfg, s, u).Handled?
    requires u.context.active.Some? && s.instances[u.instanceID].planID == TRIAL_PLAN_ID
    ensures Running(ProcessContext(cfg, s, u).store, u.instanceID) == u.context.active.value
            <==> !SuspensionSwallowed(s, u)
  {
    var prov := Latest(s.ops, u.instanceID, OfKind(Provisioning)).value;
    var last := Latest(s.ops, u.instanceID, Started).value;
    var i := WithContext(s.instances[u.instanceID], MergedContext(s, u, prov, last));
    HandlerFollowsFlag(s, u, i);
    assert ProcessContext(cfg, s, u).store.ops == HandleContextChange(s, u.instanceID, i, u.context).store.ops;
  }

  /**
   When an update of a trial instance with an active flag is accepted, the newest of its provisioning and
   deprovisioning operations agrees with the flag, except exactly when the flag asks for a suspension while an
   older suspension is still unfinished: then none is started.
   */
  lemma ActiveFlagFollowed(cfg: Config, s: Store, u: UpdateRequest)
    requires ContextAccepted(cfg, s, u) && u.context.active.Some?
    requires s.instances[u.instanceID].planID == TRIAL_PLAN_ID
    ensures Running(Update(cfg, s, u).0, u.instanceID) == u.context.active.value <==> !SuspensionSwallowed(s, u)
  {
    ContextFollowsFlag(cfg, s, u);
    var s1 := ProcessContext(cfg, s, u).store;
    ParametersKeepRunning(cfg, s1, u);
    assert Update(cfg, s, u).0 == s1 || Update(cfg, s, u).0 == ProcessParameters(cfg, s1, u).0;
  }

  // ----- provisioning -----

  /** The call that stores a new instance under a fresh operation id. */
  ghost predicate Accepts(cfg: Config, s: Store, r: ProvisionRequest) {
    Provision(cfg, s, r).1 == Async(|s.ops|)
  }

  /** Operation `id` is the newest provisioning of the instance and holds the request. */
  ghost predicate HeldBy(s: Store, i: string, p: ProvisioningParameters, id: nat) {
    Latest(s.ops, i, OfKind(Provisioning)) == Some(id) && SameRequest(s.ops[id].params, p)
  }

  /** The operation an accepted request is answered with, new or not, holds that request for a stored instance. */
  lemma AcceptedHolds(cfg: Config, s: Store, r: ProvisionRequest)
    ensures var (s', answer) := Provision(cfg, s, r);
            answer.Async? ==> r.instanceID in s'.instances && HeldBy(s', r.instanceID, r.params, answer.operation)
  {
    var id := Latest(s.ops, r.instanceID, OfKind(Provisioning));
    if id.Some? {
      IsEqualExactly(s.ops[id.value].params, WithLicence(r.params));
    } else {
      LatestAppend(s.ops, NewProvisioning(r.instanceID, WithLicence(r.params), InProgress), r.instanceID,
                   OfKind(Provisioning));
    }
  }

  lemma ProvisionUnchanged(cfg: Config, s: Store, r: ProvisionRequest)
    requires InstancesRooted(s)
    ensures Provision(cfg, s, r).1.Rejected? || r.instanceID in s.instances ==> Provision(cfg, s, r).0 == s
  {
    if r.instanceID in s.instances {
      ProvisionNeverOverwrites(cfg, s, r);
    }
  }

  /** Provision never overwrites a stored instance. */
  lemma ProvisionNeverOverwrites(cfg: Config, s: Store, r: ProvisionRequest)
    requires InstancesRooted(s) && r.instanceID in s.instances
    ensures Provision(cfg, s, r).0 == s
  {
    assert Rooted(s.ops, r.instanceID);
  }

  /** A non-trial instance id keeps its one provisioning operation through every run. */
  lemma ProvisionedOnce(cfg: Config, s: Store, run: seq<Event>, id: nat)
    requires Inv(s) && id < |s.ops|
    requires s.ops[id].kind == Provisioning && s.ops[id].params.planID != TRIAL_PLAN_ID
    ensures var ops := Run(cfg, s, run).ops;
            forall k :: 0 <= k < |ops| && Matches(ops[k], s.ops[id].instanceID, OfKind(Provisioning)) ==> k == id
    ensures Latest(Run(cfg, s, run).ops, s.ops[id].instanceID, OfKind(Provisioning)) == Some(id)
  {
    RunExtends(cfg, s, run);
    RunKeepsInv(cfg, s, run);
    OnlyProvisioning(Run(cfg, s, run).ops, id);
  }

  lemma OnlyProvisioning(ops: seq<Operation>, id: nat)
    requires SingleProvisioning(ops) && id < |ops|
    requires ops[id].kind == Provisioning && ops[id].params.planID != TRIAL_PLAN_ID
    ensures forall k :: 0 <= k < |ops| && Matches(ops[k], ops[id].instanceID, OfKind(Provisioning)) ==> k == id
    ensures Latest(ops, ops[id].instanceID, OfKind(Provisioning)) == Some(id)
  {
    assert Matches(ops[id], ops[id].instanceID, OfKind(Provisioning));
  }

  /** The answer to a well-formed request for an id whose newest provisioning operation is `id`. */
  lemma ReplayAnswer(cfg: Config, s: Store, id: nat, q: ProvisionRequest)
    requires id < |s.ops| && Latest(s.ops, q.instanceID, OfKind(Provisioning)) == Some(id)
    requires q.instanceID in s.instances && WellFormed(cfg, q)
    ensures Provision(cfg, s, q) ==
            (s, if TrialLimitHit(cfg, s, q.params) then Rejected(400)
                else if q.params.parameters.targetSecret.None? && SameRequest(s.ops[id].params, q.params)
                then Async(id)
                else Rejected(409))
  {
    IsEqualExactly(s.ops[id].params, WithLicence(q.params));
  }

  /** What a second request `q` gets when `r` was accepted as operation `id`. */
  function AnswerToReplay(cfg: Config, s: Store, r: ProvisionRequest, id: nat, q: ProvisionRequest): Response {
    if TrialLimitHit(cfg, s, q.params) then Rejected(400)
    else if q.params.parameters.targetSecret.None? && SameRequest(r.params, q.params) then Async(id)
    else Rejected(409)
  }

  /**
   After an accepted request for a non-trial plan, whatever happens in between, a well-formed request for the
   same instance changes nothing; past the single-trial limit it gets the first operation's id when it names no
   target secret and equals the first request, and a conflict otherwise.
   */
  lemma ProvisionReplay(cfg: Config, s: Store, r: ProvisionRequest, run: seq<Event>, q: ProvisionRequest)
    requires Inv(s) && Accepts(cfg, s, r) && r.params.planID != TRIAL_PLAN_ID
    requires q.instanceID == r.instanceID && WellFormed(cfg, q)
    ensures var s' := Run(cfg, Provision(cfg, s, r).0, run);
            r.instanceID in s'.instances ==> Provision(cfg, s', q) == (s', AnswerToReplay(cfg, s', r, |s.ops|, q))
  {
    ProvisionKeepsInv(cfg, s, r);
    AcceptedStores(cfg, s, r);
    var s1 := Provision(cfg, s, r).0;
    FirstRequestKept(cfg, s1, run, |s.ops|);
    var s' := Run(cfg, s1, run);
    if r.instanceID in s'.instances {
      SecondAnswer(cfg, s', r, |s.ops|, q);
    }
  }

  /** ReplayAnswer in terms of the request behind the stored operation. */
  lemma SecondAnswer(cfg: Config, s: Store, r: ProvisionRequest, id: nat, q: ProvisionRequest)
    requires id < |s.ops| && Latest(s.ops, q.instanceID, OfKind(Provisioning)) == Some(id)
    requires q.instanceID in s.instances && WellFormed(cfg, q)
    requires SameRequest(s.ops[id].params, WithLicence(r.params))
    ensures Provision(cfg, s, q) == (s, AnswerToReplay(cfg, s, r, id, q))
  {
    ReplayAnswer(cfg, s, id, q);
  }

  /**
   On every plan, after an accepted request and whatever happens in between, a well-formed request for the instance
   that is not marked inactive changes nothing. It is answered as a replay of the first request as long as the
   instance was not unsuspended; after an unsuspension, even the very first request is refused.
   */
  lemma ReplayInAnyRun(cfg: Config, s: Store, r: ProvisionRequest, run: seq<Event>, q: ProvisionRequest)
    requires Inv(s) && Accepts(cfg, s, r)
    requires q.instanceID == r.instanceID && WellFormed(cfg, q) && q.params.ersContext.active != Some(false)
    ensures var s' := Run(cfg, Provision(cfg, s, r).0, run);
            r.instanceID in s'.instances ==>
              Provision(cfg, s', q) ==
              (s', if Latest(s'.ops, r.instanceID, OfKind(Provisioning)) == Some(|s.ops|)
                   then AnswerToReplay(cfg, s', r, |s.ops|, q)
                   else if TrialLimitHit(cfg, s', q.params) then Rejected(400) else Rejected(409))
  {
    ProvisionKeepsInv(cfg, s, r);
    AcceptedStores(cfg, s, r);
    var s1 := Provision(cfg, s, r).0;
    var s' := Run(cfg, s1, run);
    RunKeepsRequest(cfg, s1, run, |s.ops|);
    if r.instanceID in s'.instances {
      if Latest(s'.ops, r.instanceID, OfKind(Provisioning)) == Some(|s.ops|) {
        SecondAnswer(cfg, s', r, |s.ops|, q);
      } else {
        UnsuspendedConflicts(cfg, s', |s.ops|, q);
      }
    }
  }

  /** A started provisioning keeps its request, and the run its single-provisioning invariant. */
  lemma RunKeepsRequest(cfg: Config, s: Store, run: seq<Event>, id: nat)
    requires Inv(s) && id < |s.ops| && s.ops[id].kind == Provisioning && s.ops[id].state != Pending
    ensures var ops := Run(cfg, s, run).ops;
            && SingleProvisioning(ops) && id < |ops| && SameRequest(ops[id].params, s.ops[id].params)
            && Matches(ops[id], s.ops[id].instanceID, OfKind(Provisioning))
  {
    RunExtends(cfg, s, run);
    RunKeepsInv(cfg, s, run);
  }

  /** Once an instance was unsuspended, a request not marked inactive equals no stored one any more. */
  lemma UnsuspendedConflicts(cfg: Config, s: Store, first: nat, q: ProvisionRequest)
    requires SingleProvisioning(s.ops) && q.instanceID in s.instances && WellFormed(cfg, q)
    requires first < |s.ops| && Matches(s.ops[first], q.instanceID, OfKind(Provisioning))
    requires Latest(s.ops, q.instanceID, OfKind(Provisioning)) != Some(first)
    requires q.params.ersContext.active != Some(false)
    ensures Provision(cfg, s, q) == (s, if TrialLimitHit(cfg, s, q.params) then Rejected(400) else Rejected(409))
  {
    var id := Latest(s.ops, q.instanceID, OfKind(Provisioning)).value;
    assert first < id;
    ReplayAnswer(cfg, s, id, q);
  }

  /** A started non-trial provisioning stays the newest one of its instance and keeps its request. */
  lemma FirstRequestKept(cfg: Config, s: Store, run: seq<Event>, id: nat)
    requires Inv(s) && id < |s.ops| && s.ops[id].kind == Provisioning && s.ops[id].state != Pending
    requires s.ops[id].params.planID != TRIAL_PLAN_ID
    ensures var ops := Run(cfg, s, run).ops;
            && id < |ops| && SameRequest(ops[id].params, s.ops[id].params)
            && Latest(ops, s.ops[id].instanceID, OfKind(Provisioning)) == Some(id)
  {
    RunExtends(cfg, s, run);
    ProvisionedOnce(cfg, s, run, id);
  }

  lemma AcceptedStores(cfg: Config, s: Store, r: ProvisionRequest)
    requires Accepts(cfg, s, r)
    ensures var s1 := Provision(cfg, s, r).0;
            && s1.ops == s.ops + [NewProvisioning(r.instanceID, WithLicence(r.params), InProgress)]
            && s1.instances == s.instances[r.instanceID := NewInstance(WithLicence(r.params))]
  {
  }

  /** Replaying an accepted request at once succeeds exactly when it names no secret and no trial limit applies. */
  lemma IdenticalReplay(cfg: Config, s: Store, r: ProvisionRequest)
    requires Accepts(cfg, s, r)
    ensures var s1 := Provision(cfg, s, r).0;
            && Provision(cfg, s1, r).0 == s1
            && (Provision(cfg, s1, r).1 == Async(|s.ops|)
                <==> && r.params.parameters.targetSecret.None?
                     && !(r.params.planID == TRIAL_PLAN_ID && cfg.onlySingleTrialPerGA))
  {
    var s1 := Provision(cfg, s, r).0;
    AcceptedStores(cfg, s, r);
    assert Matches(s1.ops[|s.ops|], r.instanceID, OfKind(Provisioning));
    assert s1.instances[r.instanceID].globalAccountID == r.params.ersContext.globalAccountID;
    ReplayAnswer(cfg, s1, |s.ops|, r);
  }

  /** Runs of Provision requests alone leave an existing instance and its operation as they are, on any plan. */
  lemma {:induction false} ProvisionRuns(cfg: Config, s: Store, run: seq<Event>, i: string, id: nat)
    requires id < |s.ops| && Latest(s.ops, i, OfKind(Provisioning)) == Some(id) && i in s.instances
    requires forall k :: 0 <= k < |run| ==> run[k].ProvisionCall?
    ensures var s' := Run(cfg, s, run);
            && id < |s'.ops| && s'.ops[id] == s.ops[id]
            && Latest(s'.ops, i, OfKind(Provisioning)) == Some(id)
            && i in s'.instances && s'.instances[i] == s.instances[i]
    decreases |run|
  {
    if run != [] {
      var r := run[0].provision;
      var s1 := Provision(cfg, s, r).0;
      if s1 != s {
        AcceptedStores(cfg, s, r);
        assert s1.ops[..|s.ops|] == s.ops;
      }
      ProvisionRuns(cfg, s1, run[1..], i, id);
    }
  }

  /** The replay law for runs of Provision requests alone, on every plan: the first id, a conflict, or the limit. */
  lemma ReplayAmongProvisions(cfg: Config, s: Store, r: ProvisionRequest, run: seq<Event>, q: ProvisionRequest)
    requires Accepts(cfg, s, r) && q.instanceID == r.instanceID && WellFormed(cfg, q)
    requires forall k :: 0 <= k < |run| ==> run[k].ProvisionCall?
    ensures var s' := Run(cfg, Provision(cfg, s, r).0, run);
            Provision(cfg, s', q) == (s', AnswerToReplay(cfg, s', r, |s.ops|, q))
  {
    var s1 := Provision(cfg, s, r).0;
    AcceptedStores(cfg, s, r);
    LatestAppend(s.ops, s1.ops[|s.ops|], r.instanceID, OfKind(Provisioning));
    ProvisionRuns(cfg, s1, run, r.instanceID, |s.ops|);
    SecondAnswer(cfg, Run(cfg, s1, run), r, |s.ops|, q);
  }

  // ----- account movement -----

  /** Through every run the subscription's account stays the account the instance was created for. */
  lemma SubscriptionAccountFixed(cfg: Config, s: Store, r: ProvisionRequest, run: seq<Event>)
    requires Inv(s) && Accepts(cfg, s, r)
    ensures var s' := Run(cfg, Provision(cfg, s, r).0, run);
            r.instanceID in s'.instances ==>
              SubscriptionGlobalAccountID(s'.instances[r.instanceID]) == r.params.ersContext.globalAccountID
  {
    var s1 := Provision(cfg, s, r).0;
    AcceptedStores(cfg, s, r);
    ProvisionKeepsInv(cfg, s, r);
    assert Matches(s1.ops[|s.ops|], r.instanceID, OfKind(Provisioning));
    RunEvolves(cfg, s1, run, r.instanceID);
  }

  // ----- the ERS context -----

  /** The request's context reaches the stored instance, whatever becomes of its parameters. */
  predicate ContextAccepted(cfg: Config, s: Store, u: UpdateRequest) {
    UpdateRefusal(s, u).None? && cfg.processingEnabled && ProcessContext(cfg, s, u).Handled?
  }

  /** Parameter processing leaves context and account of the instance alone. */
  lemma ParametersKeepContext(cfg: Config, s: Store, u: UpdateRequest)
    requires u.instanceID in s.instances
    ensures var s' := ProcessParameters(cfg, s, u).0;
            && u.instanceID in s'.instances
            && s'.instances[u.instanceID].params.ersContext == s.instances[u.instanceID].params.ersContext
            && s'.instances[u.instanceID].globalAccountID == s.instances[u.instanceID].globalAccountID
  {
  }

  /** The stored context after an accepted request: each value from the first source that has one. */
  lemma ContextMerged(cfg: Config, s: Store, u: UpdateRequest)
    requires ContextAccepted(cfg, s, u)
    ensures u.instanceID in Update(cfg, s, u).0.instances
    ensures var prov := s.ops[Latest(s.ops, u.instanceID, OfKind(Provisioning)).value].params.ersContext;
            var last := s.ops[Latest(s.ops, u.instanceID, Started).value].params.ersContext;
            var old' := s.instances[u.instanceID].params.ersContext;
            var e := Update(cfg, s, u).0.instances[u.instanceID].params.ersContext;
            && e.credentials == FirstOf(u.context.credentials, FirstOf(old'.credentials, last.credentials))
            && e.commercialModel
               == FirstOf(u.context.commercialModel, FirstOf(prov.commercialModel, last.commercialModel))
            && e.licenseType == FirstOf(u.context.licenseType, FirstOf(prov.licenseType, last.licenseType))
            && e.origin == FirstOf(u.context.origin, FirstOf(prov.origin, last.origin))
            && e.platform == FirstOf(u.context.platform, FirstOf(prov.platform, last.platform))
            && e.region == FirstOf(u.context.region, FirstOf(prov.region, last.region))
            && e.globalAccountID == prov.globalAccountID
  {
    ParametersKeepContext(cfg, ProcessContext(cfg, s, u).store, u);
  }

  /** Credentials a step supplies to instance `i`. */
  function SuppliedCredentials(cfg: Config, s: Store, e: Event, i: string): Option<Credentials> {
    if e.UpdateCall? && e.update.instanceID == i && ContextAccepted(cfg, s, e.update)
    then e.update.context.credentials else None
  }

  /** The latest credentials supplied in a run, starting from `current`. */
  function LatestCredentials(cfg: Config, s: Store, run: seq<Event>, i: string, current: Option<Credentials>)
    : Option<Credentials>
    decreases |run|
  {
    if run == [] then current
    else LatestCredentials(cfg, Step(cfg, s, run[0]), run[1..], i,
                           FirstOf(SuppliedCredentials(cfg, s, run[0], i), current))
  }

  lemma ApplyElsewhere(s: Store, d: Delta, i: string)
    requires i in s.instances && (d.Unchanged? || d.instanceID != i)
    ensures i in Apply(s, d).instances && Apply(s, d).instances[i] == s.instances[i]
  {
  }

  /** A request leaves the instances it does not name alone. */
  lemma ElsewhereUnchanged(cfg: Config, s: Store, e: Event, i: string)
    requires i in s.instances && !IsWorkerStep(e) && Target(e) != i
    ensures i in Step(cfg, s, e).instances && Step(cfg, s, e).instances[i] == s.instances[i]
  {
    var d := RequestDelta(cfg, s, e);
    ApplyElsewhere(s, d, i);
  }

  lemma UpdateCredentials(cfg: Config, s: Store, u: UpdateRequest)
    requires CredentialsKept(s) && u.instanceID in s.instances
    ensures var s' := Update(cfg, s, u).0;
            && u.instanceID in s'.instances
            && s'.instances[u.instanceID].params.ersContext.credentials
               == FirstOf(if ContextAccepted(cfg, s, u) then u.context.credentials else None,
                          s.instances[u.instanceID].params.ersContext.credentials)
  {
    if ContextAccepted(cfg, s, u) {
      ContextMerged(cfg, s, u);
      var last := Latest(s.ops, u.instanceID, Started).value;
      assert s.ops[last].instanceID == u.instanceID;
    }
  }

  lemma WorkerCredentials(cfg: Config, s: Store, e: Event, i: string)
    requires CredentialsKept(s) && i in s.instances && IsWorkerStep(e) && i in Step(cfg, s, e).instances
    ensures Step(cfg, s, e).instances[i].params.ersContext.credentials
            == s.instances[i].params.ersContext.credentials
  {
  }

  lemma StepCredentials(cfg: Config, s: Store, e: Event, i: string)
    requires Rooted(s.ops, i) && CredentialsKept(s) && i in s.instances && i in Step(cfg, s, e).instances
    ensures Step(cfg, s, e).instances[i].params.ersContext.credentials
            == FirstOf(SuppliedCredentials(cfg, s, e, i), s.instances[i].params.ersContext.credentials)
  {
    if IsWorkerStep(e) {
      WorkerCredentials(cfg, s, e, i);
    } else if Target(e) != i {
      ElsewhereUnchanged(cfg, s, e, i);
    } else if e.UpdateCall? {
      UpdateCredentials(cfg, s, e.update);
    }
  }

  /** Over any run the instance's credentials are the latest ones supplied, or those it started with. */
  lemma {:induction false} CredentialsFollowRequests(cfg: Config, s: Store, run: seq<Event>, i: string)
    requires Inv(s) && i in s.instances && i in Run(cfg, s, run).instances
    ensures Run(cfg, s, run).instances[i].params.ersContext.credentials
            == LatestCredentials(cfg, s, run, i, s.instances[i].params.ersContext.credentials)
    decreases |run|
  {
    if run != [] {
      var s1 := Step(cfg, s, run[0]);
      StepKeepsInv(cfg, s, run[0]);
      assert Rooted(s.ops, i);
      StepExtends(cfg, s, run[0]);
      ProvisionedStays(s.ops, s1.ops, i);
      RunEvolves(cfg, s1, run[1..], i);
      StepCredentials(cfg, s, run[0], i);
      CredentialsFollowRequests(cfg, s1, run[1..], i);
    }
  }
}
