/**
 Fetching the deleted subaccounts from the CIS event service (internal/cis/client.go): page after page, with a
 limited number of retries for each page.
 */
module CisClient {
  import opened Wrappers
  import opened Counting

  const EVENT_TYPE := "Subaccount_Deletion"

  datatype Event = Event(creationTime: int, subAccount: string, kind: string)

  datatype Page = Page(total: int, totalPages: int, events: seq<Event>)

  /** How an attempt to request a page ends. Rate limiting is temporary, any other error is not. */
  datatype Attempt = Ok | Temporary | Permanent

  /** The page a successful request for page p returns, and the outcome of the n-th request. */
  datatype Service = Service(page: nat -> Page, attempt: nat -> Attempt)

  datatype Subaccounts = Subaccounts(total: int, ids: seq<string>, from: Option<int>, to: Option<int>)

  const EMPTY := Subaccounts(0, [], None, None)

  // ----- what is to be collected -----

  /** A deletion event with the total its page reported. */
  datatype Deletion = Deletion(id: string, time: int, total: int)

  function DeletionsOf(events: seq<Event>, total: int): seq<Deletion> {
    if events == [] then []
    else
      var e := events[|events| - 1];
      DeletionsOf(events[..|events| - 1], total) +
      if e.kind == EVENT_TYPE then [Deletion(e.subAccount, e.creationTime, total)] else []
  }

  /** The deletions of the first n pages, in order. */
  function Deletions(s: Service, n: nat): seq<Deletion> {
    if n == 0 then [] else Deletions(s, n - 1) + DeletionsOf(s.page(n - 1).events, s.page(n - 1).total)
  }

  /**
   `acc` holds exactly the deletions `ds`: their ids in order, the first one's time as `from`, and as `to` the time
   of the last one whose position equals the total reported with it.
   */
  ghost predicate Collects(acc: Subaccounts, ds: seq<Deletion>) {
    && |acc.ids| == |ds|
    && (forall k :: 0 <= k < |ds| ==> acc.ids[k] == ds[k].id)
    && acc.from == (if ds == [] then None else Some(ds[0].time))
    && (acc.to.None? ==> forall k :: 0 <= k < |ds| ==> ds[k].total != k + 1)
    && (acc.to.Some? ==> exists k :: LastComplete(ds, k) && acc.to.value == ds[k].time)
  }

  /** Position k is the last one that completes the total reported with it. */
  ghost predicate LastComplete(ds: seq<Deletion>, k: int) {
    0 <= k < |ds| && ds[k].total == k + 1 && forall j :: k < j < |ds| ==> ds[j].total != j + 1
  }

  lemma LastCompleteExtends(ds: seq<Deletion>, d: Deletion, k: int)
    requires LastComplete(ds, k) && d.total != |ds| + 1
    ensures LastComplete(ds + [d], k)
  {
  }

  /** The deletions collected after one more event. */
  function WithEvent(ds: seq<Deletion>, e: Event, total: int): seq<Deletion> {
    if e.kind == EVENT_TYPE then ds + [Deletion(e.subAccount, e.creationTime, total)] else ds
  }

  lemma DeletionsStep(ds: seq<Deletion>, events: seq<Event>, i: nat, total: int)
    requires i < |events|
    ensures ds + DeletionsOf(events[..i + 1], total)
            == WithEvent(ds + DeletionsOf(events[..i], total), events[i], total)
  {
    assert events[..i + 1][..i] == events[..i];
  }

  /** `ds` are the events of the deletion type at positions `at`, each once and in order, and there are no others. */
  ghost predicate FilteredAt(events: seq<Event>, total: int, ds: seq<Deletion>, at: seq<nat>) {
    && |at| == |ds|
    && (forall i :: 0 <= i < |at| ==> at[i] < |events| && IsDeletion(events[at[i]], total, ds[i]))
    && (forall i, j :: 0 <= i < j < |at| ==> at[i] < at[j])
    && (forall n: nat :: n < |events| && events[n].kind == "Subaccount_Deletion" ==> n in at)
  }

  ghost predicate IsDeletion(e: Event, total: int, d: Deletion) {
    e.kind == "Subaccount_Deletion" && d.id == e.subAccount && d.time == e.creationTime && d.total == total
  }

  lemma {:induction false} DeletionsAreFiltered(events: seq<Event>, total: int) returns (at: seq<nat>)
    ensures FilteredAt(events, total, DeletionsOf(events, total), at)
  {
    at := [];
    if events != [] {
      var n := |events| - 1;
      at := DeletionsAreFiltered(events[..n], total);
      assert events == events[..n] + [events[n]];
      if events[n].kind == EVENT_TYPE {
        FilterTakes(events[..n], events[n], total, DeletionsOf(events[..n], total), at);
        at := at + [n];
      } else {
        FilterSkips(events[..n], events[n], total, DeletionsOf(events[..n], total), at);
      }
    }
  }

  lemma FilterTakes(events: seq<Event>, e: Event, total: int, ds: seq<Deletion>, at: seq<nat>)
    requires FilteredAt(events, total, ds, at) && e.kind == "Subaccount_Deletion"
    ensures FilteredAt(events + [e], total, ds + [Deletion(e.subAccount, e.creationTime, total)], at + [|events|])
  {
    var at' := at + [|events|];
    forall n: nat | n < |events + [e]| && (events + [e])[n].kind == "Subaccount_Deletion"
      ensures n in at'
    {
      if n == |events| {
        assert at'[|at|] == n;
      } else {
        assert n in at;
      }
    }
  }

  lemma FilterSkips(events: seq<Event>, e: Event, total: int, ds: seq<Deletion>, at: seq<nat>)
    requires FilteredAt(events, total, ds, at) && e.kind != "Subaccount_Deletion"
    ensures FilteredAt(events + [e], total, ds, at)
  {
  }

  method AppendSubaccounts(page: Page, acc: Subaccounts, ghost ds: seq<Deletion>) returns (acc': Subaccounts)
    requires Collects(acc, ds) && acc.total == page.total
    ensures Collects(acc', ds + DeletionsOf(page.events, page.total)) && acc'.total == acc.total
  {
    acc' := acc;
    ghost var collected := ds;
    assert ds + DeletionsOf(page.events[..0], page.total) == ds;
    for i := 0 to |page.events|
      invariant collected == ds + DeletionsOf(page.events[..i], page.total)
      invariant Collects(acc', collected) && acc'.total == page.total
    {
      DeletionsStep(ds, page.events, i, page.total);
      acc' := AppendEvent(page.events[i], acc', collected);
      collected := WithEvent(collected, page.events[i], page.total);
    }
    assert page.events[..|page.events|] == page.events;
  }

  /** Events of another type are skipped. */
  method AppendEvent(e: Event, acc: Subaccounts, ghost ds: seq<Deletion>) returns (acc': Subaccounts)
    requires Collects(acc, ds)
    ensures acc'.total == acc.total
    ensures Collects(acc', WithEvent(ds, e, acc.total))
  {
    acc' := acc;
    if e.kind != EVENT_TYPE {
      return;
    }
    ghost var d := Deletion(e.subAccount, e.creationTime, acc.total);
    acc' := acc'.(ids := acc'.ids + [e.subAccount]);
    if acc'.from.None? {
      acc' := acc'.(from := Some(e.creationTime));
    }
    if acc'.total == |acc'.ids| {
      acc' := acc'.(to := Some(e.creationTime));
      assert LastComplete(ds + [d], |ds|);
    } else if acc.to.Some? {
      ghost var k :| LastComplete(ds, k) && acc.to.value == ds[k].time;
      LastCompleteExtends(ds, d, k);
    }
  }

  // ----- when the loop stops -----

  function Successes(s: Service, n: nat): nat {
    if n == 0 then 0 else Successes(s, n - 1) + if s.attempt(n - 1) == Ok then 1 else 0
  }

  /** How many of the first n requests, counted back from the last one, ended in a temporary error. */
  function Streak(s: Service, n: nat): nat {
    if n > 0 && s.attempt(n - 1) == Temporary then Streak(s, n - 1) + 1 else 0
  }

  /** The n-th request is the one given up on: a permanent error, or one temporary error too many in a row. */
  ghost predicate GivesUp(s: Service, maxRetries: int, n: nat) {
    && n > 0
    && (s.attempt(n - 1) == Permanent || Streak(s, n) > Max(maxRetries, 0))
  }

  /** Page `last` is the first one whose number reaches the page count reported with it. */
  ghost predicate IsLast(s: Service, last: nat) {
    s.page(last).totalPages <= last && forall p :: 0 <= p < last ==> s.page(p).totalPages > p
  }

  /** The n-th request is the loop's last one: it is given up on, or it fetched the last page. */
  ghost predicate Stops(s: Service, maxRetries: int, n: nat) {
    GivesUp(s, maxRetries, n) || FetchedLast(s, n)
  }

  ghost predicate FetchedLast(s: Service, n: nat) {
    n > 0 && s.attempt(n - 1) == Ok && IsLast(s, Successes(s, n) - 1)
  }

  /** The most requests that the first n pages can take: one and its retries for each. */
  function Budget(maxRetries: int, n: nat): nat {
    if n == 0 then 0 else Budget(maxRetries, n - 1) + Max(maxRetries, 0) + 1
  }

  lemma {:induction false} BudgetIsProduct(maxRetries: int, n: nat)
    ensures Budget(maxRetries, n) == n * (Max(maxRetries, 0) + 1)
  {
    if n > 0 {
      BudgetIsProduct(maxRetries, n - 1);
      assert n * (Max(maxRetries, 0) + 1) == (n - 1) * (Max(maxRetries, 0) + 1) + (Max(maxRetries, 0) + 1);
    }
  }

  lemma {:induction false} BudgetGrows(maxRetries: int, m: nat, n: nat)
    requires m <= n
    ensures Budget(maxRetries, m) <= Budget(maxRetries, n)
  {
    if m < n {
      BudgetGrows(maxRetries, m, n - 1);
    }
  }

  /** The loop has made n requests, fetched `page` pages and retried the next one `retries` times. */
  ghost predicate At(s: Service, maxRetries: int, n: nat, page: nat, retries: nat) {
    && Successes(s, n) == page
    && retries <= Max(maxRetries, 0)
    && n <= Budget(maxRetries, page) + retries
    && Streak(s, n) == retries
    && !GivesUp(s, maxRetries, n)
  }

  /** None of the requests before the n-th is the last one. */
  ghost predicate NotStopped(s: Service, maxRetries: int, n: nat) {
    forall k: nat :: k < n ==> !Stops(s, maxRetries, k)
  }

  lemma Retried(s: Service, maxRetries: int, n: nat, page: nat, retries: nat)
    requires At(s, maxRetries, n, page, retries) && s.attempt(n) == Temporary && retries < maxRetries
    ensures At(s, maxRetries, n + 1, page, retries + 1)
  {
  }

  lemma Fetched(s: Service, maxRetries: int, n: nat, page: nat, retries: nat)
    requires At(s, maxRetries, n, page, retries) && s.attempt(n) == Ok
    ensures At(s, maxRetries, n + 1, page + 1, 0)
  {
  }

  lemma GivenUp(s: Service, maxRetries: int, n: nat, page: nat, retries: nat)
    requires At(s, maxRetries, n, page, retries) && s.attempt(n) != Ok
    requires s.attempt(n) == Permanent || retries >= maxRetries
    ensures GivesUp(s, maxRetries, n + 1) && Successes(s, n + 1) == page && n + 1 <= Budget(maxRetries, page + 1)
  {
  }

  /** With a last page, the loop stops within one request and its retries for each page up to it. */
  lemma {:induction false} StopsFrom(s: Service, maxRetries: int, last: nat, n: nat, page: nat, retries: nat)
    returns (end: nat)
    requires IsLast(s, last) && page <= last && At(s, maxRetries, n, page, retries)
    ensures Stops(s, maxRetries, end) && end <= Budget(maxRetries, last + 1)
    decreases last - page, Max(maxRetries, 0) - retries
  {
    if s.attempt(n) == Ok {
      Fetched(s, maxRetries, n, page, retries);
      if page == last {
        end := n + 1;
      } else {
        end := StopsFrom(s, maxRetries, last, n + 1, page + 1, 0);
      }
    } else if s.attempt(n) == Temporary && retries < maxRetries {
      Retried(s, maxRetries, n, page, retries);
      end := StopsFrom(s, maxRetries, last, n + 1, page, retries + 1);
    } else {
      GivenUp(s, maxRetries, n, page, retries);
      BudgetGrows(maxRetries, page + 1, last + 1);
      end := n + 1;
    }
  }

  /** A service with a last page always brings the loop to an end, within the product of pages and attempts. */
  lemma StopsWithinBudget(s: Service, maxRetries: int, last: nat) returns (end: nat)
    requires IsLast(s, last)
    ensures Stops(s, maxRetries, end) && end <= (last + 1) * (Max(maxRetries, 0) + 1)
  {
    end := StopsFrom(s, maxRetries, last, 0, 0, 0);
    BudgetIsProduct(maxRetries, last + 1);
  }

  /** The deletions of the first n pages are collected and the total is that of the last of them. */
  ghost predicate Gathered(s: Service, n: nat, acc: Subaccounts) {
    Collects(acc, Deletions(s, n)) && (n > 0 ==> acc.total == s.page(n - 1).total)
  }

  /** Processes a fetched page: the page count, the total and the deletions it reports. */
  method TakePage(s: Service, p: nat, acc: Subaccounts) returns (totalPages: int, acc': Subaccounts)
    requires Gathered(s, p, acc)
    ensures totalPages == s.page(p).totalPages
    ensures Gathered(s, p + 1, acc')
  {
    var page := s.page(p);
    totalPages := page.totalPages;
    acc' := acc.(total := page.total);
    acc' := AppendSubaccounts(page, acc', Deletions(s, p));
  }

  /** After `page` pages the loop goes on exactly if every one of them reported a page beyond it. */
  ghost predicate Counts(s: Service, page: nat, totalPages: int) {
    && totalPages == (if page == 0 then 0 else s.page(page - 1).totalPages)
    && forall p :: 0 <= p < page - 1 ==> s.page(p).totalPages > p
  }

  /** Where the loop is before its next request, and whether it has stopped. */
  ghost predicate Looping(s: Service, maxRetries: int, end: nat, n: nat, page: nat, retries: nat, totalPages: int) {
    && At(s, maxRetries, n, page, retries) && Counts(s, page, totalPages)
    && NotStopped(s, maxRetries, n) && Stops(s, maxRetries, end) && n <= end
    && (page > totalPages ==> FetchedLast(s, n))
  }

  lemma GoesOn(s: Service, maxRetries: int, end: nat, n: nat, page: nat, retries: nat, totalPages: int)
    requires Looping(s, maxRetries, end, n, page, retries, totalPages) && page <= totalPages
    ensures !Stops(s, maxRetries, n) && NotStopped(s, maxRetries, n + 1) && n < end
    ensures Counts(s, page + 1, s.page(page).totalPages)
  {
  }

  lemma LoopFetched(s: Service, maxRetries: int, end: nat, n: nat, page: nat, retries: nat, totalPages: int)
    requires Looping(s, maxRetries, end, n, page, retries, totalPages) && page <= totalPages && s.attempt(n) == Ok
    ensures n < end && Looping(s, maxRetries, end, n + 1, page + 1, 0, s.page(page).totalPages)
  {
    GoesOn(s, maxRetries, end, n, page, retries, totalPages);
    Fetched(s, maxRetries, n, page, retries);
  }

  lemma LoopRetried(s: Service, maxRetries: int, end: nat, n: nat, page: nat, retries: nat, totalPages: int)
    requires Looping(s, maxRetries, end, n, page, retries, totalPages) && page <= totalPages
    requires s.attempt(n) == Temporary && retries < maxRetries
    ensures n < end && Looping(s, maxRetries, end, n + 1, page, retries + 1, totalPages)
  {
    GoesOn(s, maxRetries, end, n, page, retries, totalPages);
    Retried(s, maxRetries, n, page, retries);
  }

  lemma LoopGivenUp(s: Service, maxRetries: int, end: nat, n: nat, page: nat, retries: nat, totalPages: int)
    requires Looping(s, maxRetries, end, n, page, retries, totalPages) && page <= totalPages
    requires s.attempt(n) == Permanent || (s.attempt(n) == Temporary && retries >= maxRetries)
    ensures n < end && GivesUp(s, maxRetries, n + 1) && NotStopped(s, maxRetries, n + 1)
  {
    GoesOn(s, maxRetries, end, n, page, retries, totalPages);
    GivenUp(s, maxRetries, n, page, retries);
  }

  /** What the loop does after a request: takes the page, counts a retry, or fails. */
  method AfterRequest(s: Service, maxRetries: int, ghost end: nat, requests: nat, currentPage: nat, retries: nat,
                      totalPages: int, acc: Subaccounts)
    returns (failed: bool, currentPage': nat, retries': nat, totalPages': int, acc': Subaccounts)
    requires Looping(s, maxRetries, end, requests, currentPage, retries, totalPages) && currentPage <= totalPages
    requires Gathered(s, currentPage, acc)
    ensures requests < end
    ensures failed ==> GivesUp(s, maxRetries, requests + 1) && NotStopped(s, maxRetries, requests + 1)
    ensures !failed ==> Looping(s, maxRetries, end, requests + 1, currentPage', retries', totalPages')
    ensures !failed ==> Gathered(s, currentPage', acc')
  {
    failed, currentPage', retries', totalPages', acc' := false, currentPage, retries, totalPages, acc;
    var outcome := s.attempt(requests);
    if outcome == Ok {
      LoopFetched(s, maxRetries, end, requests, currentPage, retries, totalPages);
      totalPages', acc' := TakePage(s, currentPage, acc);
      retries', currentPage' := 0, currentPage + 1;
    } else if outcome == Temporary && retries < maxRetries {
      LoopRetried(s, maxRetries, end, requests, currentPage, retries, totalPages);
      retries' := retries + 1;
    } else {
      LoopGivenUp(s, maxRetries, end, requests, currentPage, retries, totalPages);
      failed := true;
    }
  }

  lemma LoopEnds(s: Service, maxRetries: int, end: nat, n: nat, page: nat, retries: nat, totalPages: int)
    requires Looping(s, maxRetries, end, n, page, retries, totalPages) && page > totalPages
    ensures Stops(s, maxRetries, n) && !GivesUp(s, maxRetries, n) && Successes(s, n) == page
  {
  }

  /**
   The loop, for any service that ever stops it: `end` is some request the loop cannot get past. The requests stop at
   the first one given up on or at the one that fetches the last page. In the second case every page was fetched once
   and its deletions collected once, in order, whatever was retried in between.
   */
  method FetchSubaccounts(s: Service, maxRetries: int, ghost end: nat) returns (r: Option<Subaccounts>, requests: nat)
    requires Stops(s, maxRetries, end)
    ensures requests <= end && Stops(s, maxRetries, requests) && NotStopped(s, maxRetries, requests)
    ensures r.None? <==> GivesUp(s, maxRetries, requests)
    ensures r.Some? ==> Gathered(s, Successes(s, requests), r.value)
  {
    var currentPage: nat, totalPages, retries: nat := 0, 0, 0;
    var acc := EMPTY;
    requests := 0;
    while currentPage <= totalPages
      invariant Looping(s, maxRetries, end, requests, currentPage, retries, totalPages)
      invariant Gathered(s, currentPage, acc)
      decreases end - requests
    {
      var failed;
      failed, currentPage, retries, totalPages, acc :=
        AfterRequest(s, maxRetries, end, requests, currentPage, retries, totalPages, acc);
      requests := requests + 1;
      if failed {
        return None, requests;
      }
    }
    LoopEnds(s, maxRetries, end, requests, currentPage, retries, totalPages);
    r := Some(acc);
  }

  /** The ids of the first n pages' deletions. */
  function DeletedIds(s: Service, n: nat): seq<string> {
    seq(|Deletions(s, n)|, k requires 0 <= k < |Deletions(s, n)| => Deletions(s, n)[k].id)
  }

  /**
   All ids or, after an error, none. With a last page there are at most (last + 1) * (maxRetries + 1) requests, and a
   success has fetched exactly the pages up to it.
   */
  method FetchSubaccountsToDelete(s: Service, maxRetries: int, ghost end: nat)
    returns (ids: seq<string>, ok: bool, requests: nat)
    requires Stops(s, maxRetries, end)
    ensures requests <= end && Stops(s, maxRetries, requests) && NotStopped(s, maxRetries, requests)
    ensures ok <==> !GivesUp(s, maxRetries, requests)
    ensures ids == if ok then DeletedIds(s, Successes(s, requests)) else []
    ensures forall last: nat :: IsLast(s, last) ==>
              requests <= (last + 1) * (Max(maxRetries, 0) + 1) && (ok ==> Successes(s, requests) == last + 1)
  {
    var r;
    r, requests := FetchSubaccounts(s, maxRetries, end);
    forall last: nat | IsLast(s, last)
      ensures requests <= (last + 1) * (Max(maxRetries, 0) + 1) && (r.Some? ==> Successes(s, requests) == last + 1)
    {
      BoundedBy(s, maxRetries, requests, last);
    }
    if r.None? {
      return [], false, requests;
    }
    return r.value.ids, true, requests;
  }

  lemma BoundedBy(s: Service, maxRetries: int, n: nat, last: nat)
    requires Stops(s, maxRetries, n) && NotStopped(s, maxRetries, n) && IsLast(s, last)
    ensures n <= (last + 1) * (Max(maxRetries, 0) + 1)
    ensures !GivesUp(s, maxRetries, n) ==> Successes(s, n) == last + 1
  {
    var end := StopsWithinBudget(s, maxRetries, last);
    assert n <= end;
    if !GivesUp(s, maxRetries, n) {
      LastIsUnique(s, Successes(s, n) - 1, last);
    }
  }

  lemma LastIsUnique(s: Service, a: nat, b: nat)
    requires IsLast(s, a) && IsLast(s, b)
    ensures a == b
  {
  }

  /** With the same page count T on every page, the last page is page T. */
  lemma ConstantPageCount(s: Service, count: int, last: nat)
    requires forall p: nat :: s.page(p).totalPages == count
    ensures IsLast(s, last) <==> last == Max(count, 0)
  {
    if IsLast(s, last) && last > 0 {
      assert s.page(last - 1).totalPages > last - 1;
    }
  }

  /** The pages alone determine a successful result, so retries leave no trace in it. */
  lemma ResultIsDetermined(a: Subaccounts, b: Subaccounts, ds: seq<Deletion>)
    requires Collects(a, ds) && Collects(b, ds) && a.total == b.total
    ensures a == b
  {
    assert a.ids == b.ids;
    if a.to.Some? {
      var k :| LastComplete(ds, k) && a.to.value == ds[k].time;
    }
    if b.to.Some? {
      var k :| LastComplete(ds, k) && b.to.value == ds[k].time;
    }
  }
}
