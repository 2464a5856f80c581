/**
 The subaccount cleanup (internal/cis/account_cleanup.go): the fetched subaccounts are cut into chunks, one worker
 per chunk triggers deprovisioning, and the main routine receives errors and completions over unbuffered channels.
 */
module Cleanup {
  import opened Wrappers
  import opened Counting

  // ----- chunks -----

  function Concat(pieces: seq<seq<string>>): seq<string> {
    if pieces == [] then [] else Concat(pieces[..|pieces| - 1]) + pieces[|pieces| - 1]
  }

  /** The pieces concatenate to the data, none is empty, and all but the last have the full size. */
  method Chunk(amount: nat, data: seq<string>) returns (divided: seq<seq<string>>)
    requires amount > 0
    ensures Concat(divided) == data
    ensures forall k :: 0 <= k < |divided| ==> 0 < |divided[k]| <= amount
    ensures forall k :: 0 <= k < |divided| - 1 ==> |divided[k]| == amount
    ensures divided == [] <==> data == []
  {
    divided := [];
    var i := 0;
    while i < |data|
      invariant Concat(divided) == data[..if i < |data| then i else |data|]
      invariant forall k :: 0 <= k < |divided| ==> 0 < |divided[k]| <= amount
      invariant i < |data| ==> forall k :: 0 <= k < |divided| ==> |divided[k]| == amount
      invariant forall k :: 0 <= k < |divided| - 1 ==> |divided[k]| == amount
      invariant divided == [] <==> i == 0
    {
      var end := i + amount;
      if end > |data| {
        end := |data|;
      }
      assert (divided + [data[i..end]])[..|divided|] == divided;
      assert data[..i] + data[i..end] == data[..end];
      divided := divided + [data[i..end]];
      i := i + amount;
    }
  }

  // ----- workers and the main routine -----

  /**
   A worker before its lookup, with instances left to deprovision (none left: sending "done"), sending the error of
   the last call, sending the lookup error, or gone - announced by "done" or not.
   */
  datatype Worker =
    | Waiting
    | Calling(todo: seq<string>)
    | Reporting(todo: seq<string>)
    | LookupFailed
    | Announced
    | Abandoned

  /** `calls` logs the Deprovision calls of each worker, `failed` counts those that returned an error. */
  datatype System = System(
    workers: seq<Worker>,
    chunks: int,
    isDone: bool,
    calls: seq<seq<string>>,
    failed: nat,
    errorsReceived: nat,
    donesReceived: nat)

  /** What the storage lookup of each worker's chunk yields; None is a failed lookup. */
  type Lookups = seq<Option<seq<string>>>

  datatype Event = Lookup(w: nat) | Call(w: nat, ok: bool) | ReceiveError(w: nat) | ReceiveDone(w: nat)

  function Start(n: nat): System {
    System(seq(n, _ => Waiting), n, false, seq(n, _ => []), 0, 0, 0)
  }

  predicate Enabled(s: System, e: Event) {
    e.w < |s.workers| && |s.calls| == |s.workers| &&
    match e
    case Lookup(w) => s.workers[w] == Waiting
    case Call(w, _) => s.workers[w].Calling? && s.workers[w].todo != []
    case ReceiveError(w) => !s.isDone && (s.workers[w].Reporting? || s.workers[w].LookupFailed?)
    case ReceiveDone(w) => !s.isDone && s.workers[w] == Calling([])
  }

  function Next(s: System, found: Lookups, e: Event): System
    requires |found| == |s.workers| && Enabled(s, e)
  {
    match e
    case Lookup(w) =>
      s.(workers := s.workers[w := if found[w].Some? then Calling(found[w].value) else LookupFailed])
    case Call(w, ok) =>
      var x, rest := s.workers[w].todo[0], s.workers[w].todo[1..];
      s.(workers := s.workers[w := if ok then Calling(rest) else Reporting(rest)],
      calls := s.calls[w := s.calls[w] + [x]],
      failed := if ok then s.failed else s.failed + 1)
    case ReceiveError(w) =>
      s.(workers := s.workers[w := if s.workers[w].Reporting? then Calling(s.workers[w].todo) else Abandoned],
      errorsReceived := s.errorsReceived + 1)
    case ReceiveDone(w) =>
      s.(workers := s.workers[w := Announced],
      chunks := s.chunks - 1,
      isDone := s.chunks - 1 == 0,
      donesReceived := s.donesReceived + 1)
  }

  ghost predicate Reaches(s: System, found: Lookups, run: seq<Event>, s': System)
    requires |found| == |s.workers|
    decreases |run|
  {
    if run == [] then s == s'
    else Enabled(s, run[0]) && Reaches(Next(s, found, run[0]), found, run[1..], s')
  }

  // ----- what every step keeps -----

  const IsReporting := (w: Worker) => w.Reporting?
  const IsAbandoned := (w: Worker) => w.Abandoned?
  const IsAnnounced := (w: Worker) => w.Announced?

  /** A worker's calls so far and the instances left are what its lookup found; a failed lookup never announces. */
  predicate WorkerOk(w: Worker, calls: seq<string>, found: Option<seq<string>>) {
    match w
    case Waiting => calls == []
    case Calling(todo) => found == Some(calls + todo)
    case Reporting(todo) => found == Some(calls + todo)
    case LookupFailed => found.None?
    case Abandoned => found.None?
    case Announced => found == Some(calls)
  }

  ghost predicate Inv(s: System, found: Lookups) {
    && |s.calls| == |s.workers| == |found|
    && (forall w :: 0 <= w < |s.workers| ==> WorkerOk(s.workers[w], s.calls[w], found[w]))
    && s.chunks == |s.workers| - s.donesReceived
    && s.donesReceived == CountIf(s.workers, IsAnnounced)
    && s.failed + CountIf(s.workers, IsAbandoned) == s.errorsReceived + CountIf(s.workers, IsReporting)
    && (s.isDone <==> s.chunks == 0 && |s.workers| > 0)
  }

  lemma {:induction false} CountNone(n: nat, p: Worker -> bool)
    requires !p(Waiting)
    ensures CountIf(seq(n, _ => Waiting), p) == 0
  {
    CountZero(seq(n, _ => Waiting), p);
  }

  lemma StartInv(found: Lookups)
    ensures Inv(Start(|found|), found)
  {
    CountNone(|found|, IsAnnounced);
    CountNone(|found|, IsAbandoned);
    CountNone(|found|, IsReporting);
  }

  lemma StepKeepsWorkers(s: System, found: Lookups, e: Event)
    requires |s.calls| == |s.workers| == |found| && Enabled(s, e)
    requires forall w :: 0 <= w < |s.workers| ==> WorkerOk(s.workers[w], s.calls[w], found[w])
    ensures var s' := Next(s, found, e);
            && |s'.calls| == |s'.workers| == |found|
            && forall w :: 0 <= w < |s'.workers| ==> WorkerOk(s'.workers[w], s'.calls[w], found[w])
  {
    var w := e.w;
    assert WorkerOk(s.workers[w], s.calls[w], found[w]);
    match e
    case Lookup(_) =>
      assert found[w].Some? ==> s.calls[w] + found[w].value == found[w].value;
    case Call(_, _) =>
      assert s.calls[w] + s.workers[w].todo == (s.calls[w] + [s.workers[w].todo[0]]) + s.workers[w].todo[1..];
    case ReceiveError(_) =>
    case ReceiveDone(_) =>
      assert s.calls[w] + [] == s.calls[w];
  }

  lemma StepKeepsInv(s: System, found: Lookups, e: Event)
    requires Inv(s, found) && Enabled(s, e)
    ensures Inv(Next(s, found, e), found)
  {
    StepKeepsWorkers(s, found, e);
    var w := Next(s, found, e).workers[e.w];
    assert Next(s, found, e).workers == s.workers[e.w := w];
    CountUpdate(s.workers, IsAnnounced, e.w, w);
    CountUpdate(s.workers, IsAbandoned, e.w, w);
    CountUpdate(s.workers, IsReporting, e.w, w);
  }

  lemma {:induction false} RunKeepsInv(s: System, found: Lookups, run: seq<Event>, s': System)
    requires Inv(s, found) && Reaches(s, found, run, s')
    ensures Inv(s', found)
    decreases |run|
  {
    if run != [] {
      StepKeepsInv(s, found, run[0]);
      RunKeepsInv(Next(s, found, run[0]), found, run[1..], s');
    }
  }

  // ----- the end of a run -----

  ghost predicate AllFound(found: Lookups) {
    forall w :: 0 <= w < |found| ==> found[w].Some?
  }

  /**
   Whenever the main routine ends, every worker has announced itself, has called Deprovision once for each instance
   it found, in order, and the number of receives is that of the failed calls plus that of the chunks.
   */
  lemma EndIsClean(found: Lookups, run: seq<Event>, s: System)
    requires Reaches(Start(|found|), found, run, s) && s.isDone
    ensures |found| > 0 && AllFound(found) && |s.workers| == |s.calls| == |found|
    ensures forall w :: 0 <= w < |found| ==> s.workers[w] == Announced && found[w] == Some(s.calls[w])
    ensures s.errorsReceived + s.donesReceived == s.failed + |found|
  {
    StartInv(found);
    RunKeepsInv(Start(|found|), found, run, s);
    AllCounted(s.workers, IsAnnounced);
    CountZero(s.workers, IsAbandoned);
    CountZero(s.workers, IsReporting);
    forall w | 0 <= w < |found|
      ensures s.workers[w] == Announced && found[w] == Some(s.calls[w])
    {
      assert IsAnnounced(s.workers[w]);
      assert WorkerOk(s.workers[w], s.calls[w], found[w]);
    }
  }

  lemma {:induction false} AllCounted(s: seq<Worker>, p: Worker -> bool)
    requires CountIf(s, p) == |s|
    ensures forall i :: 0 <= i < |s| ==> p(s[i])
  {
    if s != [] {
      AllCounted(s[..|s| - 1], p);
      assert forall i :: 0 <= i < |s| - 1 ==> s[..|s| - 1][i] == s[i];
    }
  }

  // ----- every schedule ends -----

  function Work(w: Worker, found: Option<seq<string>>): nat {
    match w
    case Waiting => if found.Some? then 2 * |found.value| + 2 else 2
    case Calling(todo) => 2 * |todo| + 1
    case Reporting(todo) => 2 * |todo| + 2
    case LookupFailed => 1
    case Announced => 0
    case Abandoned => 0
  }

  function TotalWork(workers: seq<Worker>, found: Lookups): nat
    requires |workers| == |found|
  {
    if workers == [] then 0
    else
      var n := |workers| - 1;
      TotalWork(workers[..n], found[..n]) + Work(workers[n], found[n])
  }

  lemma {:induction false} WorkUpdate(workers: seq<Worker>, found: Lookups, i: nat, w: Worker)
    requires |workers| == |found| && i < |workers|
    ensures TotalWork(workers[i := w], found)
            == TotalWork(workers, found) - Work(workers[i], found[i]) + Work(w, found[i])
  {
    var n := |workers| - 1;
    if i == n {
      assert workers[i := w][..n] == workers[..n];
    } else {
      assert workers[i := w][..n] == workers[..n][i := w];
      WorkUpdate(workers[..n], found[..n], i, w);
    }
  }

  lemma StepDoesWork(s: System, found: Lookups, e: Event)
    requires |found| == |s.workers| && Enabled(s, e)
    ensures TotalWork(Next(s, found, e).workers, found) < TotalWork(s.workers, found)
  {
    var w := Next(s, found, e).workers[e.w];
    assert Next(s, found, e).workers == s.workers[e.w := w];
    WorkUpdate(s.workers, found, e.w, w);
  }

  /** No schedule is longer than the work at its start. */
  lemma {:induction false} SchedulesEnd(s: System, found: Lookups, run: seq<Event>, s': System)
    requires |found| == |s.workers| && Reaches(s, found, run, s')
    ensures |s'.workers| == |found|
    ensures |run| + TotalWork(s'.workers, found) <= TotalWork(s.workers, found)
    decreases |run|
  {
    if run != [] {
      StepDoesWork(s, found, run[0]);
      SchedulesEnd(Next(s, found, run[0]), found, run[1..], s');
    }
  }

  /** While the main routine waits and all lookups succeed, some step is possible: there is no deadlock. */
  lemma NoDeadlock(s: System, found: Lookups) returns (e: Event)
    requires Inv(s, found) && AllFound(found) && |found| > 0 && !s.isDone
    ensures Enabled(s, e)
  {
    var w := NotAnnounced(s.workers);
    assert WorkerOk(s.workers[w], s.calls[w], found[w]);
    match s.workers[w]
    case Waiting => e := Lookup(w);
    case Reporting(_) => e := ReceiveError(w);
    case Calling(todo) => e := if todo == [] then ReceiveDone(w) else Call(w, true);
  }

  lemma {:induction false} NotAnnounced(s: seq<Worker>) returns (w: nat)
    requires CountIf(s, IsAnnounced) < |s|
    ensures w < |s| && !s[w].Announced?
  {
    var n := |s| - 1;
    if !s[n].Announced? {
      w := n;
    } else {
      w := NotAnnounced(s[..n]);
      assert s[..n][w] == s[w];
    }
  }

  /** With at least one chunk and all lookups succeeding, every partial schedule can be completed. */
  lemma {:induction false} Completes(s: System, found: Lookups) returns (run: seq<Event>, s': System)
    requires Inv(s, found) && AllFound(found) && |found| > 0
    ensures Reaches(s, found, run, s') && s'.isDone
    decreases TotalWork(s.workers, found)
  {
    if s.isDone {
      run, s' := [], s;
    } else {
      var e := NoDeadlock(s, found);
      StepKeepsInv(s, found, e);
      StepDoesWork(s, found, e);
      var rest;
      rest, s' := Completes(Next(s, found, e), found);
      run := [e] + rest;
    }
  }

  ghost predicate CanEnd(found: Lookups) {
    exists run, s :: Reaches(Start(|found|), found, run, s) && s.isDone
  }

  /** The main routine can end exactly when there is a chunk and every lookup succeeds. */
  lemma EndsExactly(found: Lookups)
    ensures CanEnd(found) <==> |found| > 0 && AllFound(found)
  {
    if |found| > 0 && AllFound(found) {
      StartInv(found);
      var run, s := Completes(Start(|found|), found);
      assert CanEnd(found);
    } else if CanEnd(found) {
      var run, s :| Reaches(Start(|found|), found, run, s) && s.isDone;
      EndIsClean(found, run, s);
    }
  }

  /** Nothing to clean up, or one lookup that fails: the main routine waits forever. */
  lemma NeverEnds()
    ensures !CanEnd([]) && !CanEnd([None])
  {
    EndsExactly([]);
    EndsExactly([None]);
  }
}
