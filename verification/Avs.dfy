/**
 AVS monitor status (internal/avs/delegator.go, internal_eval_assistant.go, external_eval_assistant.go,
 evaluation_manager.go). Each of the two monitors keeps a current and an original status next to the status on
 the remote server; remote reads and writes may fail.
 */
module Avs {
  const ACTIVE := "ACTIVE"
  const MAINTENANCE := "MAINTENANCE"
  const INACTIVE := "INACTIVE"
  const RETIRED := "RETIRED"
  const DELETED := "DELETED"

  predicate ValidStatus(s: string) {
    s == ACTIVE || s == MAINTENANCE || s == INACTIVE || s == RETIRED || s == DELETED
  }

  /** What the broker stores about one evaluation; id 0 means it was never created. */
  datatype Evaluation = Evaluation(id: int, deleted: bool, current: string, original: string)

  predicate IsValid(e: Evaluation) {
    e.id != 0 && !e.deleted
  }

  /** The outcomes of the remote calls one request makes. */
  datatype Calls = Calls(readOk: bool, setOk: bool)

  /** The old current status becomes the original one, unless it is not a status at all. */
  function SetEvalStatus(e: Evaluation, status: string): Evaluation {
    e.(original := if ValidStatus(e.current) then e.current else e.original, current := status)
  }

  // ----- one monitor -----

  /** A monitor: the stored evaluation and the status on the server. */
  datatype Monitor = Monitor(e: Evaluation, remote: string)

  /** The status a request works with: the server's, or the stored one when the read fails. */
  function SeenStatus(m: Monitor, readOk: bool): string {
    if readOk then m.remote else m.e.current
  }

  function SetStatus(m: Monitor, status: string, c: Calls): (Monitor, bool) {
    if !IsValid(m.e) then (m, true)
    else if !ValidStatus(status) then (m, false)
    else
      var seen := SeenStatus(m, c.readOk);
      var e := SetEvalStatus(m.e, seen);
      if seen != status && !c.setOk then (Monitor(e, m.remote), false)
      else (Monitor(SetEvalStatus(e, status), if seen != status then status else m.remote), true)
  }

  function ResetTarget(e: Evaluation): string {
    if ValidStatus(e.original) then e.original else ACTIVE
  }

  function ResetStatus(m: Monitor, c: Calls): (Monitor, bool) {
    SetStatus(m, ResetTarget(m.e), c)
  }

  const ALL_OK := Calls(true, true)

  /** Attempts one after the other. */
  function SetRepeatedly(m: Monitor, status: string, cs: seq<Calls>): Monitor
    decreases |cs|
  {
    if cs == [] then m else SetRepeatedly(SetStatus(m, status, cs[0]).0, status, cs[1..])
  }

  ghost predicate AllFail(m: Monitor, status: string, cs: seq<Calls>)
    decreases |cs|
  {
    cs != [] ==> !SetStatus(m, status, cs[0]).1 && AllFail(SetStatus(m, status, cs[0]).0, status, cs[1..])
  }

  function ResetRepeatedly(m: Monitor, cs: seq<Calls>): Monitor
    decreases |cs|
  {
    if cs == [] then m else ResetRepeatedly(ResetStatus(m, cs[0]).0, cs[1..])
  }

  /** A missing monitor is left alone with success, and a request for an unknown status without. */
  lemma StatusRequests(m: Monitor, status: string, c: Calls)
    ensures !IsValid(m.e) ==> SetStatus(m, status, c) == (m, true)
    ensures IsValid(m.e) && status !in {"ACTIVE", "MAINTENANCE", "INACTIVE", "RETIRED", "DELETED"} ==>
              SetStatus(m, status, c) == (m, false)
  {
  }

  /** A reset that succeeds puts the server at the remembered status, and at ACTIVE when that is no status. */
  lemma ResetGoesTo(m: Monitor, c: Calls)
    requires IsValid(m.e) && c.readOk && ResetStatus(m, c).1
    ensures ResetStatus(m, c).0.remote
            == if m.e.original in {"ACTIVE", "MAINTENANCE", "INACTIVE", "RETIRED", "DELETED"} then m.e.original
               else "ACTIVE"
  {
  }

  // ----- restoring the status -----

  lemma {:induction false} FailuresKeepRemote(m: Monitor, status: string, cs: seq<Calls>)
    requires IsValid(m.e) && ValidStatus(status) && AllFail(m, status, cs)
    ensures var m' := SetRepeatedly(m, status, cs);
            m'.remote == m.remote && IsValid(m'.e)
    decreases |cs|
  {
    if cs != [] {
      FailuresKeepRemote(SetStatus(m, status, cs[0]).0, status, cs[1..]);
    }
  }

  /** After a successful change to maintenance, the original status is the one seen, if it was a status. */
  lemma MaintenanceRemembers(m: Monitor, c: Calls)
    requires IsValid(m.e) && SetStatus(m, MAINTENANCE, c).1
    ensures var seen := SeenStatus(m, c.readOk);
            var m' := SetStatus(m, MAINTENANCE, c).0;
            && IsValid(m'.e) && m'.e.current == MAINTENANCE
            && m'.e.original == (if ValidStatus(seen) then seen else SetEvalStatus(m.e, seen).original)
            && m'.remote == if seen != MAINTENANCE then MAINTENANCE else m.remote
  {
  }

  /**
   Any number of failed attempts, then a successful change to maintenance whose read returned a valid status, then
   one reset, whatever its remote calls do: the server is back at the status it had before exactly when that was
   maintenance or the reset's write succeeds, and then the reset reports success.
   */
  lemma ResetRestores(m: Monitor, failed: seq<Calls>, c: Calls, reset: Calls)
    requires IsValid(m.e) && ValidStatus(m.remote) && c.readOk
    requires AllFail(m, MAINTENANCE, failed)
    requires SetStatus(SetRepeatedly(m, MAINTENANCE, failed), MAINTENANCE, c).1
    ensures var m1 := SetStatus(SetRepeatedly(m, MAINTENANCE, failed), MAINTENANCE, c).0;
            && (ResetStatus(m1, reset).0.remote == m.remote <==> m.remote == MAINTENANCE || reset.setOk)
            && (ResetStatus(m1, reset).1 <==> m.remote == MAINTENANCE || reset.setOk)
  {
    FailuresKeepRemote(m, MAINTENANCE, failed);
    MaintenanceRemembers(SetRepeatedly(m, MAINTENANCE, failed), c);
  }

  /**
   In general, a failure-free reset after a successful change to maintenance restores the server's status exactly
   when the change read a valid status, or its read failed and the stored record happened to hold that status.
   */
  lemma ResetRestoresExactly(m: Monitor, c: Calls)
    requires IsValid(m.e) && SetStatus(m, MAINTENANCE, c).1
    ensures ResetStatus(SetStatus(m, MAINTENANCE, c).0, ALL_OK).0.remote == m.remote
            <==> if c.readOk then ValidStatus(m.remote)
                 else m.remote == if ValidStatus(m.e.current) then m.e.current else ResetTarget(m.e)
  {
    MaintenanceRemembers(m, c);
  }

  /** A monitor in maintenance whose original status is maintenance too. */
  ghost predicate Stuck(m: Monitor) {
    IsValid(m.e) && m.remote == MAINTENANCE && m.e.current == MAINTENANCE && m.e.original == MAINTENANCE
  }

  lemma ResetKeepsStuck(m: Monitor, c: Calls)
    requires Stuck(m)
    ensures Stuck(ResetStatus(m, c).0) && ResetStatus(m, c).1
  {
  }

  lemma {:induction false} StuckForever(m: Monitor, cs: seq<Calls>)
    requires Stuck(m)
    ensures Stuck(ResetRepeatedly(m, cs))
    decreases |cs|
  {
    if cs != [] {
      ResetKeepsStuck(m, cs[0]);
      StuckForever(ResetStatus(m, cs[0]).0, cs[1..]);
    }
  }

  /**
   A failed reset forgets the original status: from then on every reset reports success and leaves the server in
   maintenance, whatever the remote calls do.
   */
  lemma FailedResetSticks(m: Monitor, c: Calls, reset: Calls, later: seq<Calls>, next: Calls)
    requires IsValid(m.e) && SetStatus(m, MAINTENANCE, c).1
    requires SeenStatus(m, c.readOk) != MAINTENANCE || m.remote == MAINTENANCE
    requires var m1 := SetStatus(m, MAINTENANCE, c).0; !ResetStatus(m1, reset).1
    ensures var m2 := ResetStatus(SetStatus(m, MAINTENANCE, c).0, reset).0;
            var m3 := ResetRepeatedly(m2, later);
            m3.remote == MAINTENANCE && ResetStatus(m3, next).1
  {
    MaintenanceRemembers(m, c);
    var m2 := ResetStatus(SetStatus(m, MAINTENANCE, c).0, reset).0;
    StuckForever(m2, later);
    ResetKeepsStuck(ResetRepeatedly(m2, later), next);
  }

  /** A reset repeated after it succeeded undoes itself: the server is back in maintenance. */
  lemma ResetTwice(m: Monitor, c: Calls)
    requires IsValid(m.e) && SetStatus(m, MAINTENANCE, c).1 && m.remote != MAINTENANCE && c.readOk
    ensures var m1 := SetStatus(m, MAINTENANCE, c).0;
            var m2 := ResetStatus(m1, ALL_OK).0;
            ResetStatus(m2, ALL_OK).0.remote == MAINTENANCE
  {
    MaintenanceRemembers(m, c);
  }

  /** How many resets succeed in writing before the first one that does not. */
  function Flips(cs: seq<Calls>): nat
    decreases |cs|
  {
    if cs == [] || !cs[0].setOk then 0 else 1 + Flips(cs[1..])
  }

  /** A record that holds the server's status and another valid one to go back to. */
  ghost predicate Settled(m: Monitor) {
    IsValid(m.e) && m.e.current == m.remote && ValidStatus(m.remote) && ValidStatus(m.e.original)
  }

  lemma ResetFlips(m: Monitor, c: Calls)
    requires Settled(m)
    ensures var m' := ResetStatus(m, c).0;
            && Settled(m')
            && (c.setOk ==> m'.remote == m.e.original && m'.e.original == m.remote)
            && (!c.setOk ==> m'.remote == m.remote == m'.e.original)
  {
  }

  /** Resets swap the two statuses until the first failed write; from then on nothing changes. */
  lemma {:induction false} ResetsFlip(m: Monitor, cs: seq<Calls>)
    requires Settled(m)
    ensures ResetRepeatedly(m, cs).remote == if Flips(cs) % 2 == 0 then m.remote else m.e.original
    decreases |cs|
  {
    if cs != [] {
      ResetFlips(m, cs[0]);
      ResetsFlip(ResetStatus(m, cs[0]).0, cs[1..]);
    }
  }

  /**
   The law of any number of resets after a change to maintenance, whatever failed before it: the server is back at
   its old status exactly after an odd number of writes, counted up to the first that fails, and else in maintenance.
   */
  lemma ResetSequence(m: Monitor, failed: seq<Calls>, c: Calls, resets: seq<Calls>)
    requires IsValid(m.e) && ValidStatus(m.remote) && c.readOk
    requires AllFail(m, MAINTENANCE, failed)
    requires SetStatus(SetRepeatedly(m, MAINTENANCE, failed), MAINTENANCE, c).1
    ensures var m1 := SetStatus(SetRepeatedly(m, MAINTENANCE, failed), MAINTENANCE, c).0;
            ResetRepeatedly(m1, resets).remote == if Flips(resets) % 2 == 1 then m.remote else MAINTENANCE
  {
    FailuresKeepRemote(m, MAINTENANCE, failed);
    var m0 := SetRepeatedly(m, MAINTENANCE, failed);
    MaintenanceRemembers(m0, c);
    ResetsFlip(SetStatus(m0, MAINTENANCE, c).0, resets);
  }

  /** An active monitor set to maintenance, a reset whose write fails, a reset that works: still in maintenance. */
  lemma ActiveMonitorSticks() returns (m: Monitor)
    ensures m.remote == ACTIVE
    ensures var m1 := SetStatus(m, MAINTENANCE, ALL_OK).0;
            var m2 := ResetStatus(m1, Calls(true, false)).0;
            ResetStatus(m2, ALL_OK).0.remote == MAINTENANCE && ResetStatus(m2, ALL_OK).1
  {
    m := Monitor(Evaluation(1, false, ACTIVE, ACTIVE), ACTIVE);
  }

  // ----- both monitors -----

  datatype Which = Internal | External

  function Other(w: Which): Which {
    if w == Internal then External else Internal
  }

  datatype Lifecycle = Lifecycle(internal: Evaluation, external: Evaluation)

  function Of(d: Lifecycle, w: Which): Evaluation {
    if w == Internal then d.internal else d.external
  }

  function With(d: Lifecycle, w: Which, e: Evaluation): Lifecycle {
    if w == Internal then d.(internal := e) else d.(external := e)
  }

  predicate InMaintenance(d: Lifecycle) {
    && (IsValid(d.internal) ==> d.internal.current == MAINTENANCE)
    && (IsValid(d.external) ==> d.external.current == MAINTENANCE)
  }

  /** The evaluations are in maintenance exactly when every live one is. */
  lemma InMaintenanceExactly(d: Lifecycle)
    ensures InMaintenance(d) <==> forall w: Which :: IsValid(Of(d, w)) ==> Of(d, w).current == "MAINTENANCE"
  {
    assert Of(d, Internal) == d.internal && Of(d, External) == d.external;
  }

  /** The manager works on a lifecycle record that it changes in place, and on the server's evaluations. */
  class EvaluationManager {
    var data: Lifecycle
    var remote: map<int, string>

    constructor (data: Lifecycle, remote: map<int, string>)
      ensures this.data == data && this.remote == remote
    {
      this.data, this.remote := data, remote;
    }

    /** The server knows every live evaluation, and the two are different. */
    ghost predicate Known()
      reads this
    {
      && (IsValid(data.internal) ==> data.internal.id in remote)
      && (IsValid(data.external) ==> data.external.id in remote)
      && (IsValid(data.internal) && IsValid(data.external) ==> data.internal.id != data.external.id)
    }

    ghost function View(w: Which): Monitor
      reads this
    {
      var e := Of(data, w);
      Monitor(e, if e.id in remote then remote[e.id] else "")
    }

    method RefreshStatus(w: Which, readOk: bool) returns (status: string)
      requires Known() && IsValid(Of(data, w))
      modifies this`data
      ensures status == SeenStatus(old(View(w)), readOk)
      ensures data == With(old(data), w, SetEvalStatus(Of(old(data), w), status))
    {
      var e := Of(data, w);
      status := e.current;
      if readOk {
        status := remote[e.id];
      }
      data := With(data, w, SetEvalStatus(e, status));
    }

    /** Changes one monitor; the other one's record and remote status stay as they are. */
    method SetMonitorStatus(w: Which, status: string, c: Calls) returns (ok: bool)
      requires Known()
      modifies this
      ensures Known()
      ensures (View(w), ok) == SetStatus(old(View(w)), status, c)
      ensures Of(data, Other(w)) == Of(old(data), Other(w))
      ensures IsValid(Of(data, Other(w))) ==> View(Other(w)) == old(View(Other(w)))
      ensures remote.Keys == old(remote).Keys
      ensures forall id :: id in remote && id != Of(old(data), w).id ==> remote[id] == old(remote)[id]
    {
      var e := Of(data, w);
      if !IsValid(e) {
        return true;
      }
      if !ValidStatus(status) {
        return false;
      }
      var current := RefreshStatus(w, c.readOk);
      if current != status {
        if !c.setOk {
          return false;
        }
        remote := remote[e.id := status];
      }
      data := With(data, w, SetEvalStatus(Of(data, w), status));
      return true;
    }

    method ResetMonitorStatus(w: Which, c: Calls) returns (ok: bool)
      requires Known()
      modifies this
      ensures Known()
      ensures (View(w), ok) == ResetStatus(old(View(w)), c)
      ensures Of(data, Other(w)) == Of(old(data), Other(w))
      ensures IsValid(Of(data, Other(w))) ==> View(Other(w)) == old(View(Other(w)))
      ensures remote.Keys == old(remote).Keys
    {
      var status := Of(data, w).original;
      if !ValidStatus(status) {
        status := ACTIVE;
      }
      ok := SetMonitorStatus(w, status, c);
    }

    /** Changes the internal monitor, then the external one; a failure of the first stops before the second. */
    method SetMaintenanceStatus(internalCalls: Calls, externalCalls: Calls) returns (ok: bool)
      requires Known()
      modifies this
      ensures Known()
      ensures ok ==> InMaintenance(data)
      ensures ok && IsValid(data.internal) ==> data.internal.current == "MAINTENANCE"
      ensures ok && IsValid(data.external) ==> data.external.current == "MAINTENANCE"
      ensures ok && IsValid(data.internal) ==>
                (View(Internal), true) == SetStatus(old(View(Internal)), MAINTENANCE, internalCalls)
      ensures ok && IsValid(data.external) ==>
                (View(External), true) == SetStatus(old(View(External)), MAINTENANCE, externalCalls)
      ensures IsValid(old(data.internal)) && !SetStatus(old(View(Internal)), MAINTENANCE, internalCalls).1 ==>
                !ok && Of(data, External) == Of(old(data), External)
      ensures !ok ==>
                || (IsValid(old(data.internal)) && !SetStatus(old(View(Internal)), MAINTENANCE, internalCalls).1)
                || (IsValid(old(data.external)) && !SetStatus(old(View(External)), MAINTENANCE, externalCalls).1)
    {
      ok := SetMonitorStatus(Internal, MAINTENANCE, internalCalls);
      if !ok {
        return;
      }
      ok := SetMonitorStatus(External, MAINTENANCE, externalCalls);
    }

    /** Resets the internal monitor, then the external one; a failure of the first stops before the second. */
    method RestoreStatus(internalCalls: Calls, externalCalls: Calls) returns (ok: bool)
      requires Known()
      modifies this
      ensures Known()
      ensures ok && IsValid(data.internal) ==>
                (View(Internal), true) == ResetStatus(old(View(Internal)), internalCalls)
      ensures ok && IsValid(data.external) ==>
                (View(External), true) == ResetStatus(old(View(External)), externalCalls)
      ensures IsValid(old(data.internal)) && !ResetStatus(old(View(Internal)), internalCalls).1 ==>
                !ok && Of(data, External) == Of(old(data), External)
      ensures !ok ==>
                || (IsValid(old(data.internal)) && !ResetStatus(old(View(Internal)), internalCalls).1)
                || (IsValid(old(data.external)) && !ResetStatus(old(View(External)), externalCalls).1)
    {
      ok := ResetMonitorStatus(Internal, internalCalls);
      if !ok {
        return;
      }
      ok := ResetMonitorStatus(External, externalCalls);
    }
  }
}
