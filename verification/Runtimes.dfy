/** Runtimes as listed by the broker, and the most recent operation of one (common/runtime/model.go). */
module Runtimes {
  import opened Wrappers

  datatype OperationType = Untyped | Provision | Deprovision | UpgradeKyma | UpgradeCluster | Update
                         | Suspension | Unsuspension

  /** Times are integers; 0 is Go's zero time, before every real creation time. */
  datatype Operation = Operation(id: string, state: string, kind: OperationType, createdAt: int)

  const NO_OPERATION := Operation("", "", Untyped, 0)

  datatype OperationsData = OperationsData(data: seq<Operation>, count: int)

  datatype Status = Status(
    provisioning: Option<Operation>,
    deprovisioning: Option<Operation>,
    upgradingKyma: Option<OperationsData>,
    upgradingCluster: Option<OperationsData>,
    update: Option<OperationsData>,
    suspension: Option<OperationsData>,
    unsuspension: Option<OperationsData>)

  datatype RuntimeDTO = RuntimeDTO(
    instanceID: string,
    runtimeID: string,
    globalAccountID: string,
    subAccountID: string,
    planName: string,
    region: string,
    status: Status)

  predicate NonEmpty(d: Option<OperationsData>) {
    d.Some? && d.value.count > 0
  }

  /** A positive count promises a first element, which the source reads without a check. */
  predicate Readable(d: Option<OperationsData>) {
    NonEmpty(d) ==> d.value.data != []
  }

  predicate AllReadable(s: Status) {
    && Readable(s.upgradingKyma) && Readable(s.upgradingCluster) && Readable(s.update)
    && Readable(s.suspension) && Readable(s.unsuspension)
  }

  /** The first listed operation, under the type of its list. */
  function Head(d: Option<OperationsData>, kind: OperationType): Option<Operation>
    requires Readable(d)
  {
    if NonEmpty(d) then Some(d.value.data[0].(kind := kind)) else None
  }

  /** The candidate if it is newer than `op`, otherwise `op`. */
  function Later(op: Operation, candidate: Option<Operation>): (r: Operation)
    ensures r == op || candidate == Some(r)
    ensures op.createdAt <= r.createdAt
    ensures candidate.Some? ==> candidate.value.createdAt <= r.createdAt
  {
    if candidate.Some? && candidate.value.createdAt > op.createdAt then candidate.value else op
  }

  function Typed(o: Option<Operation>, kind: OperationType): Option<Operation> {
    if o.Some? then Some(o.value.(kind := kind)) else None
  }

  /** A cluster upgrade replaces the provisioning without a comparison. */
  function StartingPoint(s: Status): Operation
    requires AllReadable(s)
  {
    GetOr(FirstOf(Head(s.upgradingCluster, UpgradeCluster), Typed(s.provisioning, Provision)), NO_OPERATION)
  }

  /** The newest of `op` and the candidates, the earlier one on equal times. */
  function LatestOf(op: Operation, candidates: seq<Option<Operation>>): (r: Operation)
    ensures r == op || Some(r) in candidates
    ensures op.createdAt <= r.createdAt
    ensures forall c :: c in candidates && c.Some? ==> c.value.createdAt <= r.createdAt
    decreases |candidates|
  {
    if candidates == [] then op else LatestOf(Later(op, candidates[0]), candidates[1..])
  }

  function LaterCandidates(s: Status): seq<Option<Operation>>
    requires AllReadable(s)
  {
    [Head(s.upgradingKyma, UpgradeKyma), Head(s.unsuspension, Unsuspension), Head(s.suspension, Suspension),
     Typed(s.deprovisioning, Deprovision), Head(s.update, Update)]
  }

  function LastOperation(s: Status): Operation
    requires AllReadable(s)
  {
    LatestOf(StartingPoint(s), LaterCandidates(s))
  }

  /** One comparison of the chain: a newer first element overwrites the operation found so far. */
  method Overwrite(op: Operation, d: Option<OperationsData>, kind: OperationType) returns (op': Operation)
    requires Readable(d)
    ensures op' == Later(op, Head(d, kind))
  {
    op' := op;
    if NonEmpty(d) && d.value.data[0].createdAt > op.createdAt {
      op' := d.value.data[0];
      op' := op'.(kind := kind);
    }
  }

  /** The source's chain of comparisons, each overwriting `op`. */
  method ComputeLastOperation(s: Status) returns (op: Operation)
    requires AllReadable(s)
    ensures op == LastOperation(s)
  {
    op := NO_OPERATION;
    if s.provisioning.Some? {
      op := s.provisioning.value.(kind := Provision);
    }
    if NonEmpty(s.upgradingCluster) {
      op := s.upgradingCluster.value.data[0].(kind := UpgradeCluster);
    }
    ghost var op0 := op;
    op := Overwrite(op, s.upgradingKyma, UpgradeKyma);
    op := Overwrite(op, s.unsuspension, Unsuspension);
    op := Overwrite(op, s.suspension, Suspension);
    ghost var op3 := op;
    if s.deprovisioning.Some? && s.deprovisioning.value.createdAt > op.createdAt {
      op := s.deprovisioning.value.(kind := Deprovision);
    }
    assert op == Later(op3, Typed(s.deprovisioning, Deprovision));
    op := Overwrite(op, s.update, Update);
    LatestOfFive(op0, LaterCandidates(s));
  }

  lemma LatestOfFive(op: Operation, c: seq<Option<Operation>>)
    requires |c| == 5
    ensures LatestOf(op, c) == Later(Later(Later(Later(Later(op, c[0]), c[1]), c[2]), c[3]), c[4])
  {
    var op1 := Later(op, c[0]);
    var op2 := Later(op1, c[1]);
    var op3 := Later(op2, c[2]);
    var op4 := Later(op3, c[3]);
    assert LatestOf(op4, c[4..]) == Later(op4, c[4]);
    assert LatestOf(op3, c[3..]) == LatestOf(op4, c[4..]) by { assert c[3..][1..] == c[4..]; }
    assert LatestOf(op2, c[2..]) == LatestOf(op3, c[3..]) by { assert c[2..][1..] == c[3..]; }
    assert LatestOf(op1, c[1..]) == LatestOf(op2, c[2..]) by { assert c[1..][1..] == c[2..]; }
  }

  // ----- equal times -----

  /** Candidate i is `r` and newer than `op` and every candidate before it. */
  ghost predicate FirstNewest(op: Operation, candidates: seq<Option<Operation>>, i: nat, r: Operation) {
    && i < |candidates| && candidates[i] == Some(r) && op.createdAt < r.createdAt
    && forall j :: 0 <= j < i && candidates[j].Some? ==> candidates[j].value.createdAt < r.createdAt
  }

  /** A candidate wins only if it is newer than the starting point and than every candidate before it. */
  lemma {:induction false} TiesKeepTheEarlier(op: Operation, candidates: seq<Option<Operation>>) returns (i: nat)
    ensures LatestOf(op, candidates) == op || FirstNewest(op, candidates, i, LatestOf(op, candidates))
    decreases |candidates|
  {
    i := 0;
    if candidates != [] {
      var first, rest := Later(op, candidates[0]), candidates[1..];
      var r := LatestOf(first, rest);
      var k := TiesKeepTheEarlier(first, rest);
      if r != first {
        assert forall j :: 0 < j < |candidates| ==> candidates[j] == rest[j - 1];
        i := k + 1;
      }
    }
  }

  // ----- the newest recorded operation -----

  ghost predicate Holds(d: Option<OperationsData>, kind: OperationType, o: Operation) {
    d.Some? && exists i :: 0 <= i < |d.value.data| && o == d.value.data[i].(kind := kind)
  }

  /** `o` is one of the runtime's operations, under the type of the list it is in. */
  ghost predicate Recorded(s: Status, o: Operation) {
    || (s.provisioning.Some? && o == s.provisioning.value.(kind := Provision))
    || RecordedLater(s, o)
  }

  /** `o` is recorded as something other than the provisioning. */
  ghost predicate RecordedLater(s: Status, o: Operation) {
    || (s.deprovisioning.Some? && o == s.deprovisioning.value.(kind := Deprovision))
    || Holds(s.upgradingKyma, UpgradeKyma, o)
    || Holds(s.upgradingCluster, UpgradeCluster, o)
    || Holds(s.update, Update, o)
    || Holds(s.suspension, Suspension, o)
    || Holds(s.unsuspension, Unsuspension, o)
  }

  ghost predicate IsNewest(s: Status, o: Operation) {
    Recorded(s, o) && forall x :: Recorded(s, x) ==> x.createdAt <= o.createdAt
  }

  /** The listing is sorted newest first, counted right and has real creation times. */
  ghost predicate Listed(d: Option<OperationsData>) {
    d.Some? ==>
      && d.value.count == |d.value.data|
      && forall i :: 0 <= i < |d.value.data| ==> 0 < d.value.data[i].createdAt <= d.value.data[0].createdAt
  }

  ghost predicate WellListed(s: Status) {
    && Listed(s.upgradingKyma) && Listed(s.upgradingCluster) && Listed(s.update)
    && Listed(s.suspension) && Listed(s.unsuspension)
    && (s.provisioning.Some? ==> 0 < s.provisioning.value.createdAt)
    && (s.deprovisioning.Some? ==> 0 < s.deprovisioning.value.createdAt)
  }

  /** The provisioning is newer than everything else although the cluster was upgraded. */
  ghost predicate ProvisioningHidden(s: Status) {
    && s.provisioning.Some? && NonEmpty(s.upgradingCluster)
    && forall x :: RecordedLater(s, x) ==> x.createdAt < s.provisioning.value.createdAt
  }

  /** The head of a list is in the list and no element is newer. */
  lemma HeadIsNewest(d: Option<OperationsData>, kind: OperationType)
    requires Readable(d) && Listed(d)
    ensures Head(d, kind).Some? ==> Holds(d, kind, Head(d, kind).value)
    ensures forall x :: Holds(d, kind, x) ==> Head(d, kind).Some? && x.createdAt <= Head(d, kind).value.createdAt
  {
  }

  lemma CandidatesRecorded(s: Status, c: Option<Operation>)
    requires AllReadable(s) && WellListed(s) && c in LaterCandidates(s) && c.Some?
    ensures RecordedLater(s, c.value)
  {
    HeadIsNewest(s.upgradingKyma, UpgradeKyma);
    HeadIsNewest(s.unsuspension, Unsuspension);
    HeadIsNewest(s.suspension, Suspension);
    HeadIsNewest(s.update, Update);
  }

  /** Every later operation is covered by the head of its list. */
  lemma CandidatesCover(s: Status, x: Operation) returns (c: Option<Operation>)
    requires AllReadable(s) && WellListed(s) && RecordedLater(s, x)
    ensures c.Some? && x.createdAt <= c.value.createdAt
    ensures c in LaterCandidates(s) || c == Head(s.upgradingCluster, UpgradeCluster)
  {
    var cs := LaterCandidates(s);
    if Holds(s.upgradingKyma, UpgradeKyma, x) {
      HeadIsNewest(s.upgradingKyma, UpgradeKyma);
      c := cs[0];
    } else if Holds(s.unsuspension, Unsuspension, x) {
      HeadIsNewest(s.unsuspension, Unsuspension);
      c := cs[1];
    } else if Holds(s.suspension, Suspension, x) {
      HeadIsNewest(s.suspension, Suspension);
      c := cs[2];
    } else if Holds(s.update, Update, x) {
      HeadIsNewest(s.update, Update);
      c := cs[4];
    } else if Holds(s.upgradingCluster, UpgradeCluster, x) {
      HeadIsNewest(s.upgradingCluster, UpgradeCluster);
      c := Head(s.upgradingCluster, UpgradeCluster);
    } else {
      c := cs[3];
    }
  }

  /** No later operation is newer than the result. */
  lemma LastOperationCovers(s: Status, x: Operation)
    requires AllReadable(s) && WellListed(s) && RecordedLater(s, x)
    ensures x.createdAt <= LastOperation(s).createdAt
  {
    var c := CandidatesCover(s, x);
  }

  /** The result is recorded, as a later operation if the cluster was upgraded. */
  lemma LastOperationRecorded(s: Status)
    requires AllReadable(s) && WellListed(s)
    ensures LastOperation(s) == NO_OPERATION || Recorded(s, LastOperation(s))
    ensures NonEmpty(s.upgradingCluster) ==> RecordedLater(s, LastOperation(s))
  {
    var o := LastOperation(s);
    if o != StartingPoint(s) {
      CandidatesRecorded(s, Some(o));
    } else {
      HeadIsNewest(s.upgradingCluster, UpgradeCluster);
    }
  }

  /** For a runtime with any operation, the result is the newest one unless the provisioning is hidden. */
  lemma LastOperationIsNewest(s: Status, o: Operation)
    requires AllReadable(s) && WellListed(s) && Recorded(s, o)
    ensures IsNewest(s, LastOperation(s)) <==> !ProvisioningHidden(s)
  {
    LastOperationRecorded(s);
    forall x | RecordedLater(s, x)
      ensures x.createdAt <= LastOperation(s).createdAt
    {
      LastOperationCovers(s, x);
    }
    var p := if s.provisioning.Some? then s.provisioning.value.(kind := Provision) else NO_OPERATION;
    if s.provisioning.Some? {
      assert Recorded(s, p);
    }
  }

  /** A cluster upgrade of time 1 hides a provisioning of time 2. */
  lemma UpgradeHidesProvisioning() returns (s: Status, newest: Operation)
    ensures AllReadable(s) && WellListed(s) && IsNewest(s, newest) && newest.kind == Provision
    ensures LastOperation(s).kind == UpgradeCluster && LastOperation(s).createdAt < newest.createdAt
  {
    var upgrade := Operation("u", "succeeded", UpgradeCluster, 1);
    newest := Operation("p", "in progress", Provision, 2);
    s := Status(Some(newest), None, None, Some(OperationsData([upgrade], 1)), None, None, None);
    assert Recorded(s, newest);
  }
}
