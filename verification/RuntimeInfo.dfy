/**
 The runtime info endpoint (internal/appinfo/runtime_info.go): rows of instances joined with their operations
 are merged in one pass into one item per instance.
 */
module RuntimeInfo {
  import opened Wrappers

  const PROVISION := "provision"
  const DEPROVISION := "deprovision"
  const SERVICE_NAME := "kymaruntime"

  /** An instance joined with one of its operations. Time 0 is Go's zero time; `rest` are fields copied as they are. */
  datatype Row = Row(
    instanceID: string,
    platformRegion: string,
    serviceName: string,
    planID: string,
    planName: string,
    rest: string,
    createdAt: int,
    updatedAt: int,
    deletedAt: int,
    kind: string,
    state: string,
    description: string,
    opCreatedAt: int,
    isSuspension: bool)

  datatype OperationStatus = OperationStatus(state: string, description: string)

  datatype Item = Item(
    instanceID: string,
    region: string,
    serviceName: string,
    planID: string,
    planName: string,
    rest: string,
    createdAt: Option<int>,
    updatedAt: Option<int>,
    deletedAt: Option<int>,
    provisioning: Option<OperationStatus>,
    deprovisioning: Option<OperationStatus>)

  /** What the storage answers when asked for the last operation of an instance. */
  datatype LastOperation = NotFound | Found(updatedAt: int) | Error

  datatype Handler = Handler(defaultRegion: string, planNames: string -> string, lastOperation: string -> LastOperation)

  function IfNotZero(t: int): Option<int> {
    if t == 0 then None else Some(t)
  }

  function OrDefault(s: string, default: string): string {
    if s == "" then default else s
  }

  function StatusOf(r: Row): OperationStatus {
    OperationStatus(r.state, r.description)
  }

  /** The item of an instance before any operation status is filled in. */
  function NewItem(h: Handler, r: Row): Item {
    var last := h.lastOperation(r.instanceID);
    Item(r.instanceID, OrDefault(r.platformRegion, h.defaultRegion), OrDefault(r.serviceName, SERVICE_NAME), r.planID,
         OrDefault(r.planName, h.planNames(r.planID)), r.rest, IfNotZero(r.createdAt),
         IfNotZero(if last.Found? then last.updatedAt else r.updatedAt), IfNotZero(r.deletedAt), None, None)
  }

  // ----- the group-by specification -----

  predicate IsProvision(r: Row, id: string) {
    r.instanceID == id && r.kind == PROVISION
  }

  predicate IsRemoval(r: Row, id: string) {
    r.instanceID == id && r.kind == DEPROVISION && !r.isSuspension
  }

  /** The earliest provision row of an instance, the first one among equal times. */
  function Earliest(rows: seq<Row>, id: string): (r: Option<nat>)
    ensures r.Some? ==> r.value < |rows| && IsProvision(rows[r.value], id)
    ensures forall j :: 0 <= j < |rows| && IsProvision(rows[j], id) ==>
              r.Some? && (rows[r.value].opCreatedAt < rows[j].opCreatedAt
                          || (rows[r.value].opCreatedAt == rows[j].opCreatedAt && r.value <= j))
  {
    if rows == [] then None
    else
      var n := |rows| - 1;
      var r := Earliest(rows[..n], id);
      if IsProvision(rows[n], id) && (r.None? || rows[n].opCreatedAt < rows[r.value].opCreatedAt) then Some(n) else r
  }

  /** The latest removal row of an instance, the first one among equal times. */
  function LatestRemoval(rows: seq<Row>, id: string): (r: Option<nat>)
    ensures r.Some? ==> r.value < |rows| && IsRemoval(rows[r.value], id)
    ensures forall j :: 0 <= j < |rows| && IsRemoval(rows[j], id) ==>
              r.Some? && (rows[r.value].opCreatedAt > rows[j].opCreatedAt
                          || (rows[r.value].opCreatedAt == rows[j].opCreatedAt && r.value <= j))
  {
    if rows == [] then None
    else
      var n := |rows| - 1;
      var r := LatestRemoval(rows[..n], id);
      if IsRemoval(rows[n], id) && (r.None? || rows[n].opCreatedAt > rows[r.value].opCreatedAt) then Some(n) else r
  }

  function StatusAt(rows: seq<Row>, at: Option<nat>): Option<OperationStatus>
    requires at.Some? ==> at.value < |rows|
  {
    if at.Some? then Some(StatusOf(rows[at.value])) else None
  }

  /** The item of the instance whose first row is `first`. */
  function ItemFor(h: Handler, rows: seq<Row>, first: nat): Item
    requires first < |rows|
  {
    var id := rows[first].instanceID;
    NewItem(h, rows[first]).(provisioning := StatusAt(rows, Earliest(rows, id)),
    deprovisioning := StatusAt(rows, LatestRemoval(rows, id)))
  }

  /**
   Where every value of an item comes from: names and region from the instance's first row or their defaults, the
   time of change from the last operation if there is one, times left out when zero, and the two operation statuses
   from the earliest provisioning and the latest removal.
   */
  lemma ItemFields(h: Handler, rows: seq<Row>, first: nat)
    requires first < |rows|
    ensures var row, item := rows[first], ItemFor(h, rows, first);
            && item.instanceID == row.instanceID && item.planID == row.planID && item.rest == row.rest
            && item.region == (if row.platformRegion != "" then row.platformRegion else h.defaultRegion)
            && item.serviceName == (if row.serviceName != "" then row.serviceName else "kymaruntime")
            && item.planName == (if row.planName != "" then row.planName else h.planNames(row.planID))
            && (item.createdAt.None? <==> row.createdAt == 0)
            && (item.createdAt.Some? ==> item.createdAt.value == row.createdAt)
            && (item.deletedAt.None? <==> row.deletedAt == 0)
            && (item.deletedAt.Some? ==> item.deletedAt.value == row.deletedAt)
    ensures var row, item := rows[first], ItemFor(h, rows, first);
            var changed := match h.lastOperation(row.instanceID)
                           case Found(updatedAt) => updatedAt
                           case _ => row.updatedAt;
            (item.updatedAt.None? <==> changed == 0) && (item.updatedAt.Some? ==> item.updatedAt.value == changed)
    ensures var id, item := rows[first].instanceID, ItemFor(h, rows, first);
            && (item.provisioning.None?
                <==> forall j :: 0 <= j < |rows| && rows[j].instanceID == id ==> rows[j].kind != "provision")
            && (item.deprovisioning.None?
                <==> forall j :: 0 <= j < |rows| && rows[j].instanceID == id ==>
                       rows[j].kind != "deprovision" || rows[j].isSuspension)
            && (item.provisioning.Some? ==>
                  && item.provisioning.value.state == rows[Earliest(rows, id).value].state
                  && item.provisioning.value.description == rows[Earliest(rows, id).value].description)
            && (item.deprovisioning.Some? ==>
                  && item.deprovisioning.value.state == rows[LatestRemoval(rows, id).value].state
                  && item.deprovisioning.value.description == rows[LatestRemoval(rows, id).value].description)
  {
    var id := rows[first].instanceID;
    assert forall j :: 0 <= j < |rows| && rows[j].instanceID == id ==>
        IsProvision(rows[j], id) == (rows[j].kind == "provision");
    assert forall j :: 0 <= j < |rows| && rows[j].instanceID == id ==>
        IsRemoval(rows[j], id) == (rows[j].kind == "deprovision" && !rows[j].isSuspension);
  }

  predicate Occurs(rows: seq<Row>, id: string) {
    exists j :: 0 <= j < |rows| && rows[j].instanceID == id
  }

  /** The positions of the first rows of the instances, in order. */
  function Firsts(rows: seq<Row>): (f: seq<nat>)
    ensures forall k :: 0 <= k < |f| ==> f[k] < |rows|
  {
    if rows == [] then []
    else
      var n := |rows| - 1;
      Firsts(rows[..n]) + if Occurs(rows[..n], rows[n].instanceID) then [] else [n]
  }

  lemma FirstsLast(rows: seq<Row>)
    requires rows != []
    ensures var n := |rows| - 1;
            Firsts(rows) == Firsts(rows[..n]) + if Occurs(rows[..n], rows[n].instanceID) then [] else [n]
  {
  }

  /** `first` is the first row of its instance. */
  ghost predicate IsFirst(rows: seq<Row>, first: nat) {
    first < |rows| && !Occurs(rows[..first], rows[first].instanceID)
  }

  lemma {:induction false} FirstsUnseen(rows: seq<Row>)
    ensures forall k :: 0 <= k < |Firsts(rows)| ==> IsFirst(rows, Firsts(rows)[k])
  {
    if rows != [] {
      var n := |rows| - 1;
      var f := Firsts(rows[..n]);
      FirstsUnseen(rows[..n]);
      FirstsLast(rows);
      forall k | 0 <= k < |Firsts(rows)|
        ensures IsFirst(rows, Firsts(rows)[k])
      {
        if k < |f| {
          assert IsFirst(rows[..n], f[k]);
          assert rows[..n][..f[k]] == rows[..f[k]];
        }
      }
    }
  }

  lemma {:induction false} FirstsIncrease(rows: seq<Row>)
    ensures forall k, l :: 0 <= k < l < |Firsts(rows)| ==> Firsts(rows)[k] < Firsts(rows)[l]
  {
    if rows != [] {
      FirstsIncrease(rows[..|rows| - 1]);
      FirstsLast(rows);
    }
  }

  ghost predicate HasFirst(rows: seq<Row>, id: string) {
    exists k :: 0 <= k < |Firsts(rows)| && rows[Firsts(rows)[k]].instanceID == id
  }

  lemma FirstStays(rows: seq<Row>, id: string)
    requires rows != [] && HasFirst(rows[..|rows| - 1], id)
    ensures HasFirst(rows, id)
  {
    var n := |rows| - 1;
    var f := Firsts(rows[..n]);
    var k :| 0 <= k < |f| && rows[..n][f[k]].instanceID == id;
    FirstsLast(rows);
    assert Firsts(rows)[k] == f[k];
  }

  lemma {:induction false} FirstsCover(rows: seq<Row>, id: string)
    requires Occurs(rows, id)
    ensures HasFirst(rows, id)
  {
    var n := |rows| - 1;
    if Occurs(rows[..n], id) {
      FirstsCover(rows[..n], id);
      FirstStays(rows, id);
    } else {
      assert rows == rows[..n] + [rows[n]];
      OccursStep(rows[..n], rows[n], id);
      FirstsLast(rows);
      assert Firsts(rows)[|Firsts(rows[..n])|] == n;
    }
  }

  /** Firsts lists each instance once, at its first row, in order of appearance. */
  lemma FirstsAreFirst(rows: seq<Row>)
    ensures forall k :: 0 <= k < |Firsts(rows)| ==> IsFirst(rows, Firsts(rows)[k])
    ensures forall k, l :: 0 <= k < l < |Firsts(rows)| ==> Firsts(rows)[k] < Firsts(rows)[l]
    ensures forall j :: 0 <= j < |rows| ==> HasFirst(rows, rows[j].instanceID)
  {
    FirstsUnseen(rows);
    FirstsIncrease(rows);
    forall j | 0 <= j < |rows|
      ensures HasFirst(rows, rows[j].instanceID)
    {
      FirstsCover(rows, rows[j].instanceID);
    }
  }

  // ----- one more row -----

  predicate IsEarlier(rows: seq<Row>, row: Row) {
    var e := Earliest(rows, row.instanceID);
    row.kind == PROVISION && (e.None? || row.opCreatedAt < rows[e.value].opCreatedAt)
  }

  predicate IsLaterRemoval(rows: seq<Row>, row: Row) {
    var l := LatestRemoval(rows, row.instanceID);
    row.kind == DEPROVISION && !row.isSuspension && (l.None? || row.opCreatedAt > rows[l.value].opCreatedAt)
  }

  lemma EarliestStep(rows: seq<Row>, row: Row, id: string)
    ensures Earliest(rows + [row], id)
            == if id == row.instanceID && IsEarlier(rows, row) then Some(|rows|) else Earliest(rows, id)
  {
    assert (rows + [row])[..|rows|] == rows;
  }

  lemma RemovalStep(rows: seq<Row>, row: Row, id: string)
    ensures LatestRemoval(rows + [row], id)
            == if id == row.instanceID && IsLaterRemoval(rows, row) then Some(|rows|) else LatestRemoval(rows, id)
  {
    assert (rows + [row])[..|rows|] == rows;
  }

  /** The statuses one row adds to its item. */
  function Merged(i: Item, row: Row, provisions: bool, removes: bool): Item {
    i.(provisioning := if provisions then Some(StatusOf(row)) else i.provisioning,
    deprovisioning := if removes then Some(StatusOf(row)) else i.deprovisioning)
  }

  /** A row changes the item of its own instance only. */
  lemma ItemForStep(h: Handler, rows: seq<Row>, row: Row, first: nat)
    requires first < |rows|
    ensures ItemFor(h, rows + [row], first)
            == if rows[first].instanceID == row.instanceID
               then Merged(ItemFor(h, rows, first), row, IsEarlier(rows, row), IsLaterRemoval(rows, row))
               else ItemFor(h, rows, first)
  {
    EarliestStep(rows, row, rows[first].instanceID);
    RemovalStep(rows, row, rows[first].instanceID);
  }

  lemma NewItemStep(h: Handler, rows: seq<Row>, row: Row)
    requires !Occurs(rows, row.instanceID)
    ensures ItemFor(h, rows + [row], |rows|)
            == Merged(NewItem(h, row), row, IsEarlier(rows, row), IsLaterRemoval(rows, row))
  {
    EarliestStep(rows, row, row.instanceID);
    RemovalStep(rows, row, row.instanceID);
  }

  lemma FirstsStep(rows: seq<Row>, row: Row)
    ensures Firsts(rows + [row]) == Firsts(rows) + if Occurs(rows, row.instanceID) then [] else [|rows|]
  {
    assert (rows + [row])[..|rows|] == rows;
  }

  lemma OccursStep(rows: seq<Row>, row: Row, id: string)
    ensures Occurs(rows + [row], id) <==> Occurs(rows, id) || id == row.instanceID
  {
    if Occurs(rows, id) {
      var j :| 0 <= j < |rows| && rows[j].instanceID == id;
      assert (rows + [row])[j].instanceID == id;
    }
    if id == row.instanceID {
      assert (rows + [row])[|rows|].instanceID == id;
    }
  }

  // ----- what the loop keeps -----

  ghost predicate ItemsRepresent(h: Handler, rows: seq<Row>, items: seq<Item>) {
    && |items| == |Firsts(rows)|
    && forall k :: 0 <= k < |items| ==> items[k] == ItemFor(h, rows, Firsts(rows)[k])
  }

  ghost predicate Indexed(rows: seq<Row>, indexer: map<string, nat>, id: string) {
    if id in indexer
    then indexer[id] < |Firsts(rows)| && rows[Firsts(rows)[indexer[id]]].instanceID == id
    else !Occurs(rows, id)
  }

  ghost predicate IndexRepresents(rows: seq<Row>, indexer: map<string, nat>) {
    forall id :: Indexed(rows, indexer, id)
  }

  function Get(m: map<string, int>, id: string): Option<int> {
    if id in m then Some(m[id]) else None
  }

  function TimeAt(rows: seq<Row>, at: Option<nat>): Option<int>
    requires at.Some? ==> at.value < |rows|
  {
    if at.Some? then Some(rows[at.value].opCreatedAt) else None
  }

  ghost predicate ProvisionTimes(rows: seq<Row>, times: map<string, int>) {
    forall id :: Get(times, id) == TimeAt(rows, Earliest(rows, id))
  }

  ghost predicate RemovalTimes(rows: seq<Row>, times: map<string, int>) {
    forall id :: Get(times, id) == TimeAt(rows, LatestRemoval(rows, id))
  }

  function Stamped(times: map<string, int>, row: Row, takes: bool): map<string, int> {
    if takes then times[row.instanceID := row.opCreatedAt] else times
  }

  lemma IndexStep(rows: seq<Row>, row: Row, indexer: map<string, nat>)
    requires IndexRepresents(rows, indexer)
    ensures IndexRepresents(rows + [row], if row.instanceID in indexer then indexer
                                          else indexer[row.instanceID := |Firsts(rows)|])
  {
    var indexer' := if row.instanceID in indexer then indexer else indexer[row.instanceID := |Firsts(rows)|];
    FirstsStep(rows, row);
    assert Indexed(rows, indexer, row.instanceID);
    forall id
      ensures Indexed(rows + [row], indexer', id)
    {
      assert Indexed(rows, indexer, id);
      OccursStep(rows, row, id);
    }
  }

  lemma ProvisionTimesStep(rows: seq<Row>, row: Row, times: map<string, int>)
    requires ProvisionTimes(rows, times)
    ensures ProvisionTimes(rows + [row], Stamped(times, row, IsEarlier(rows, row)))
  {
    var times' := Stamped(times, row, IsEarlier(rows, row));
    forall id
      ensures Get(times', id) == TimeAt(rows + [row], Earliest(rows + [row], id))
    {
      EarliestStep(rows, row, id);
      assert Get(times, id) == TimeAt(rows, Earliest(rows, id));
    }
  }

  lemma RemovalTimesStep(rows: seq<Row>, row: Row, times: map<string, int>)
    requires RemovalTimes(rows, times)
    ensures RemovalTimes(rows + [row], Stamped(times, row, IsLaterRemoval(rows, row)))
  {
    var times' := Stamped(times, row, IsLaterRemoval(rows, row));
    forall id
      ensures Get(times', id) == TimeAt(rows + [row], LatestRemoval(rows + [row], id))
    {
      RemovalStep(rows, row, id);
      assert Get(times, id) == TimeAt(rows, LatestRemoval(rows, id));
    }
  }

  /** No instance is listed twice in Firsts. */
  lemma FirstsDistinct(rows: seq<Row>, k: nat, l: nat)
    requires k < l < |Firsts(rows)|
    ensures rows[Firsts(rows)[k]].instanceID != rows[Firsts(rows)[l]].instanceID
  {
    FirstsAreFirst(rows);
    var f := Firsts(rows);
    assert rows[..f[l]][f[k]] == rows[f[k]];
  }

  /** The items after a row's statuses went into the item at idx. */
  function Filled(rows: seq<Row>, row: Row, items: seq<Item>, idx: nat): seq<Item>
    requires idx < |items|
  {
    items[idx := Merged(items[idx], row, IsEarlier(rows, row), IsLaterRemoval(rows, row))]
  }

  lemma ItemsStep(h: Handler, rows: seq<Row>, row: Row, items: seq<Item>, idx: nat)
    requires ItemsRepresent(h, rows, items)
    requires idx < |items| && rows[Firsts(rows)[idx]].instanceID == row.instanceID
    ensures ItemsRepresent(h, rows + [row], Filled(rows, row, items, idx))
  {
    var items' := Filled(rows, row, items, idx);
    FirstsStep(rows, row);
    forall k | 0 <= k < |items|
      ensures items'[k] == ItemFor(h, rows + [row], Firsts(rows)[k])
    {
      ItemForStep(h, rows, row, Firsts(rows)[k]);
      if k < idx {
        FirstsDistinct(rows, k, idx);
      } else if idx < k {
        FirstsDistinct(rows, idx, k);
      }
    }
  }

  lemma ItemsStepNew(h: Handler, rows: seq<Row>, row: Row, items: seq<Item>)
    requires ItemsRepresent(h, rows, items) && !Occurs(rows, row.instanceID)
    ensures var items' := items + [NewItem(h, row)];
            ItemsRepresent(h, rows + [row], Filled(rows, row, items', |items|))
  {
    FirstsStep(rows, row);
    NewItemStep(h, rows, row);
    forall k | 0 <= k < |items|
      ensures ItemFor(h, rows + [row], Firsts(rows)[k]) == items[k]
    {
      ItemForStep(h, rows, row, Firsts(rows)[k]);
      assert rows[Firsts(rows)[k]].instanceID != row.instanceID;
    }
  }

  // ----- the one-pass loop -----

  /** A provision status is taken when it is the first one or earlier than all before. */
  method MergeProvision(row: Row, items: seq<Item>, idx: nat, times: map<string, int>)
    returns (items': seq<Item>, times': map<string, int>)
    requires idx < |items|
    ensures var takes := row.instanceID !in times || row.opCreatedAt < times[row.instanceID];
            items' == items[idx := Merged(items[idx], row, takes, false)] && times' == Stamped(times, row, takes)
  {
    items', times' := items, times;
    var seen := row.instanceID in times;
    var time := if seen then times[row.instanceID] else 0;
    if !seen {
      times' := times'[row.instanceID := row.opCreatedAt];
      items' := items'[idx := items'[idx].(provisioning := Some(StatusOf(row)))];
    }
    if row.opCreatedAt < time {
      times' := times'[row.instanceID := row.opCreatedAt];
      items' := items'[idx := items'[idx].(provisioning := Some(StatusOf(row)))];
    }
  }

  /** A removal status is taken when it is the first one or later than all before. */
  method MergeRemoval(row: Row, items: seq<Item>, idx: nat, times: map<string, int>)
    returns (items': seq<Item>, times': map<string, int>)
    requires idx < |items|
    ensures var takes := row.instanceID !in times || row.opCreatedAt > times[row.instanceID];
            items' == items[idx := Merged(items[idx], row, false, takes)] && times' == Stamped(times, row, takes)
  {
    items', times' := items, times;
    var seen := row.instanceID in times;
    var time := if seen then times[row.instanceID] else 0;
    if !seen {
      times' := times'[row.instanceID := row.opCreatedAt];
      items' := items'[idx := items'[idx].(deprovisioning := Some(StatusOf(row)))];
    }
    if row.opCreatedAt > time {
      times' := times'[row.instanceID := row.opCreatedAt];
      items' := items'[idx := items'[idx].(deprovisioning := Some(StatusOf(row)))];
    }
  }

  /** Fills a row's status into the item at idx. */
  method MergeRow(ghost rows: seq<Row>, row: Row, items: seq<Item>, idx: nat, provisions: map<string, int>,
                  removals: map<string, int>)
    returns (items': seq<Item>, provisions': map<string, int>, removals': map<string, int>)
    requires idx < |items| && ProvisionTimes(rows, provisions) && RemovalTimes(rows, removals)
    ensures items' == Filled(rows, row, items, idx)
    ensures ProvisionTimes(rows + [row], provisions') && RemovalTimes(rows + [row], removals')
  {
    items', provisions', removals' := items, provisions, removals;
    assert Get(provisions, row.instanceID) == TimeAt(rows, Earliest(rows, row.instanceID));
    assert Get(removals, row.instanceID) == TimeAt(rows, LatestRemoval(rows, row.instanceID));
    ProvisionTimesStep(rows, row, provisions);
    RemovalTimesStep(rows, row, removals);
    if row.kind == PROVISION {
      items', provisions' := MergeProvision(row, items, idx, provisions);
    } else if row.kind == DEPROVISION {
      if !row.isSuspension {
        items', removals' := MergeRemoval(row, items, idx, removals);
      }
    }
  }

  /** Finds the item of the row's instance, or starts a new one; false when its last operation cannot be read. */
  method LocateItem(h: Handler, ghost rows: seq<Row>, row: Row, items: seq<Item>, indexer: map<string, nat>)
    returns (ok: bool, items': seq<Item>, indexer': map<string, nat>)
    requires ItemsRepresent(h, rows, items) && IndexRepresents(rows, indexer)
    ensures ok <==> Occurs(rows, row.instanceID) || h.lastOperation(row.instanceID) != Error
    ensures ok ==> row.instanceID in indexer' && indexer'[row.instanceID] < |items'|
    ensures ok ==> IndexRepresents(rows + [row], indexer')
    ensures ok ==> ItemsRepresent(h, rows + [row], Filled(rows, row, items', indexer'[row.instanceID]))
  {
    ok, items', indexer' := true, items, indexer;
    assert Indexed(rows, indexer, row.instanceID);
    IndexStep(rows, row, indexer);
    if row.instanceID !in indexer {
      if h.lastOperation(row.instanceID) == Error {
        return false, items, indexer;
      }
      ItemsStepNew(h, rows, row, items);
      items' := items + [NewItem(h, row)];
      indexer' := indexer[row.instanceID := |items'| - 1];
    } else {
      ItemsStep(h, rows, row, items, indexer[row.instanceID]);
      assert Occurs(rows, row.instanceID);
    }
  }

  /** None when a last operation cannot be read; otherwise the items of the group-by specification. */
  method MapToDTO(h: Handler, rows: seq<Row>) returns (result: Option<seq<Item>>)
    ensures result.None? <==> exists j :: 0 <= j < |rows| && h.lastOperation(rows[j].instanceID) == Error
    ensures result.Some? ==> ItemsRepresent(h, rows, result.value)
  {
    var items: seq<Item> := [];
    var indexer: map<string, nat> := map[];
    var provisions: map<string, int> := map[];
    var removals: map<string, int> := map[];
    for i := 0 to |rows|
      invariant forall j :: 0 <= j < i ==> h.lastOperation(rows[j].instanceID) != Error
      invariant ItemsRepresent(h, rows[..i], items) && IndexRepresents(rows[..i], indexer)
      invariant ProvisionTimes(rows[..i], provisions) && RemovalTimes(rows[..i], removals)
    {
      var row := rows[i];
      assert rows[..i + 1] == rows[..i] + [row];
      var ok;
      ok, items, indexer := LocateItem(h, rows[..i], row, items, indexer);
      if !ok {
        return None;
      }
      items, provisions, removals := MergeRow(rows[..i], row, items, indexer[row.instanceID], provisions, removals);
    }
    assert rows[..|rows|] == rows;
    result := Some(items);
  }
}
