/**
 The hyperscaler account pool (common/hyperscaler/account_pool.go, account_provider.go): secret bindings
 claimed for tenants by labelling them. A call looks the tenant's binding up without a lock and, when there is
 none, claims a free one under the lock; calls of several callers interleave between these two steps.
 */
module AccountPool {
  import opened Wrappers
  import opened Counting

  datatype Label = Shared | Internal | TenantName | Dirty | EuAccess | HyperscalerType

  datatype Binding = Binding(name: string, labels: map<Label, string>)

  /** The tenant, hyperscaler type and EU access flag a call asks for. */
  datatype Key = Key(kind: string, tenant: string, euAccess: bool)

  // ----- label selectors -----

  predicate Has(b: Binding, l: Label, v: string) {
    l in b.labels && b.labels[l] == v
  }

  predicate EuSelector(b: Binding, euAccess: bool) {
    if euAccess then Has(b, EuAccess, "true") else EuAccess !in b.labels
  }

  predicate OwnedBy(b: Binding, k: Key) {
    Has(b, TenantName, k.tenant) && Has(b, HyperscalerType, k.kind) && EuSelector(b, k.euAccess)
  }

  /** The label selectors the pool lists bindings with. */
  datatype Query = CleanOwned(key: Key) | Free(key: Key) | Owned(key: Key) | OwnedUnshared(key: Key)
                 | InternalOwned(key: Key) | DirtyOwned(key: Key)

  predicate Selects(q: Query, b: Binding) {
    match q
    case CleanOwned(k) => OwnedBy(b, k) && Dirty !in b.labels
    case Free(k) =>
      && !Has(b, Shared, "true") && TenantName !in b.labels && Dirty !in b.labels
      && Has(b, HyperscalerType, k.kind) && EuSelector(b, k.euAccess)
    case Owned(k) => OwnedBy(b, k)
    case OwnedUnshared(k) => !Has(b, Shared, "true") && OwnedBy(b, k)
    case InternalOwned(k) => Has(b, Internal, "true") && OwnedBy(b, k)
    case DirtyOwned(k) => !Has(b, Shared, "true") && Has(b, Dirty, "true") && OwnedBy(b, k)
  }

  /** One requirement of a Kubernetes label selector: `l=v`, `l!=v` (which a missing label meets too), `!l`. */
  datatype Requirement = Is(l: Label, value: string) | IsNot(l: Label, value: string) | Absent(l: Label)

  predicate Meets(b: Binding, r: Requirement) {
    match r
    case Is(l, v) => l in b.labels && b.labels[l] == v
    case IsNot(l, v) => l !in b.labels || b.labels[l] != v
    case Absent(l) => l !in b.labels
  }

  function EuRequirement(euAccess: bool): Requirement {
    if euAccess then Is(EuAccess, "true") else Absent(EuAccess)
  }

  /** The selector of each query, requirement by requirement as the source lists them. */
  function SelectorOf(q: Query): seq<Requirement> {
    var k := q.key;
    var owned := [Is(TenantName, k.tenant), Is(HyperscalerType, k.kind), EuRequirement(k.euAccess)];
    match q
    case CleanOwned(_) => owned + [Absent(Dirty)]
    case Free(_) => [IsNot(Shared, "true"), Absent(TenantName), Absent(Dirty), Is(HyperscalerType, k.kind),
                     EuRequirement(k.euAccess)]
    case Owned(_) => owned
    case OwnedUnshared(_) => owned + [IsNot(Shared, "true")]
    case InternalOwned(_) => owned + [Is(Internal, "true")]
    case DirtyOwned(_) => owned + [IsNot(Shared, "true"), Is(Dirty, "true")]
  }

  /** A query selects exactly the bindings that meet every requirement of its selector. */
  lemma SelectsExactly(q: Query, b: Binding)
    ensures Selects(q, b) <==> forall i :: 0 <= i < |SelectorOf(q)| ==> Meets(b, SelectorOf(q)[i])
  {
    var rs := SelectorOf(q);
    if forall i :: 0 <= i < |rs| ==> Meets(b, rs[i]) {
      assert Meets(b, rs[0]) && Meets(b, rs[1]) && Meets(b, rs[2]);
      assert |rs| > 3 ==> Meets(b, rs[3]);
      assert |rs| > 4 ==> Meets(b, rs[4]);
    }
  }

  /** The first listed binding that matches (getSecretBinding). */
  function First(bs: seq<Binding>, q: Query): (r: Option<nat>)
    ensures r.Some? ==> r.value < |bs| && Selects(q, bs[r.value])
    ensures r.Some? ==> forall j :: 0 <= j < r.value ==> !Selects(q, bs[j])
    ensures r.None? ==> forall j :: 0 <= j < |bs| ==> !Selects(q, bs[j])
  {
    if bs == [] then None
    else
      var n := |bs| - 1;
      var r := First(bs[..n], q);
      if r.Some? then r else if Selects(q, bs[n]) then Some(n) else None
  }

  function Labelled(b: Binding, l: Label, v: string): Binding {
    b.(labels := b.labels[l := v])
  }

  // ----- interleaved calls -----

  /** A caller between calls, or past an unsuccessful lookup and not yet holding the lock. */
  datatype Caller = Idle | Missed(key: Key)

  /** `returned` logs which binding each call was given. */
  datatype Pool = Pool(bindings: seq<Binding>, callers: seq<Caller>, returned: seq<(Key, nat)>)

  /**
   One step of one caller. The listing may present bindings in any order, so a step carries the binding it saw
   first; None means it saw none. Failed API calls end a call without an effect.
   */
  datatype Event =
    | Lookup(caller: nat, key: Key, seen: Option<nat>)
    | Claim(caller: nat, seen: Option<nat>)
    | ClaimFails(caller: nat)
    | MarkDirty(key: Key, seen: Option<nat>)

  ghost predicate Seen(bs: seq<Binding>, q: Query, seen: Option<nat>) {
    match seen
    case Some(i) => i < |bs| && Selects(q, bs[i])
    case None => forall i :: 0 <= i < |bs| ==> !Selects(q, bs[i])
  }

  ghost predicate Enabled(p: Pool, e: Event) {
    match e
    case Lookup(c, k, seen) => c < |p.callers| && p.callers[c] == Idle && Seen(p.bindings, CleanOwned(k), seen)
    case Claim(c, seen) => c < |p.callers| && p.callers[c].Missed? && Seen(p.bindings, Free(p.callers[c].key), seen)
    case ClaimFails(c) => c < |p.callers| && p.callers[c].Missed?
    case MarkDirty(k, seen) => Seen(p.bindings, OwnedUnshared(k), seen)
  }

  ghost function Next(p: Pool, e: Event): Pool
    requires Enabled(p, e)
  {
    match e
    case Lookup(c, k, Some(i)) => p.(returned := p.returned + [(k, i)])
    case Lookup(c, k, None) => p.(callers := p.callers[c := Missed(k)])
    case Claim(c, Some(i)) =>
      var k := p.callers[c].key;
      Pool(p.bindings[i := Labelled(p.bindings[i], TenantName, k.tenant)],
           p.callers[c := Idle], p.returned + [(k, i)])
    case Claim(c, None) => p.(callers := p.callers[c := Idle])
    case ClaimFails(c) => p.(callers := p.callers[c := Idle])
    case MarkDirty(k, Some(i)) => p.(bindings := p.bindings[i := Labelled(p.bindings[i], Dirty, "true")])
    case MarkDirty(k, None) => p
  }

  /** `run` leads from p to p'. */
  ghost predicate Reaches(p: Pool, run: seq<Event>, p': Pool)
    decreases |run|
  {
    if run == [] then p == p'
    else Enabled(p, run[0]) && Reaches(Next(p, run[0]), run[1..], p')
  }

  // ----- how many bindings a tenant can hold -----

  function IsClean(k: Key): Binding -> bool {
    b => Selects(CleanOwned(k), b)
  }

  function IsPending(k: Key): Caller -> bool {
    c => c == Missed(k)
  }

  /** Clean bindings owned by the key. */
  ghost function Clean(p: Pool, k: Key): nat {
    CountIf(p.bindings, IsClean(k))
  }

  /** Calls for the key that are past a missed lookup. */
  ghost function Pending(p: Pool, k: Key): nat {
    CountIf(p.callers, IsPending(k))
  }

  /** A claim for `k` adds one clean binding to `k` and none to any other key. */
  lemma ClaimCounts(bs: seq<Binding>, i: nat, k: Key, k': Key)
    requires i < |bs| && Selects(Free(k), bs[i])
    ensures CountIf(bs[i := Labelled(bs[i], TenantName, k.tenant)], IsClean(k'))
            == CountIf(bs, IsClean(k')) + if k' == k then 1 else 0
  {
    CountUpdate(bs, IsClean(k'), i, Labelled(bs[i], TenantName, k.tenant));
  }

  /** Marking a binding dirty never adds a clean one. */
  lemma DirtyCounts(bs: seq<Binding>, i: nat, k: Key)
    requires i < |bs|
    ensures CountIf(bs[i := Labelled(bs[i], Dirty, "true")], IsClean(k)) <= CountIf(bs, IsClean(k))
  {
    CountUpdate(bs, IsClean(k), i, Labelled(bs[i], Dirty, "true"));
  }

  lemma StepBound(p: Pool, e: Event, k: Key, bound: int)
    requires Enabled(p, e) && Clean(p, k) + Pending(p, k) <= bound && |p.callers| <= bound
    ensures var p' := Next(p, e);
            Clean(p', k) + Pending(p', k) <= bound && |p'.callers| == |p.callers|
  {
    match e
    case Lookup(c, key, Some(i)) =>
    case Lookup(c, key, None) =>
      CountZero(p.bindings, IsClean(key));
      CountUpdate(p.callers, IsPending(k), c, Missed(key));
    case Claim(c, None) =>
      CountUpdate(p.callers, IsPending(k), c, Idle);
    case Claim(c, Some(i)) =>
      ClaimCounts(p.bindings, i, p.callers[c].key, k);
      CountUpdate(p.callers, IsPending(k), c, Idle);
    case ClaimFails(c) =>
      CountUpdate(p.callers, IsPending(k), c, Idle);
    case MarkDirty(key, None) =>
    case MarkDirty(key, Some(i)) =>
      DirtyCounts(p.bindings, i, k);
  }

  lemma {:induction false} RunBound(p: Pool, run: seq<Event>, p': Pool, k: Key, bound: int)
    requires Reaches(p, run, p') && Clean(p, k) + Pending(p, k) <= bound && |p.callers| <= bound
    ensures Clean(p', k) + Pending(p', k) <= bound
    decreases |run|
  {
    if run != [] {
      StepBound(p, run[0], k, bound);
      RunBound(Next(p, run[0]), run[1..], p', k, bound);
    }
  }

  ghost predicate AllIdle(p: Pool) {
    forall c :: 0 <= c < |p.callers| ==> p.callers[c] == Idle
  }

  /** With N callers a key never has more clean bindings and pending claims than max(N, what it started with). */
  lemma ClaimsBounded(p: Pool, run: seq<Event>, p': Pool, k: Key)
    requires AllIdle(p) && Reaches(p, run, p')
    ensures Clean(p', k) + Pending(p', k) <= Max(|p.callers|, Clean(p, k))
  {
    CountZero(p.callers, IsPending(k));
    RunBound(p, run, p', k, Max(|p.callers|, Clean(p, k)));
  }

  /** A single caller never brings a tenant beyond one clean binding. */
  lemma SequentialCallerHoldsOne(p: Pool, run: seq<Event>, p': Pool, k: Key)
    requires |p.callers| == 1 && AllIdle(p) && Clean(p, k) <= 1 && Reaches(p, run, p')
    ensures Clean(p', k) <= 1
  {
    ClaimsBounded(p, run, p', k);
  }

  /** A claim leaves its tenant with one clean binding exactly when a lookup would still miss at that moment. */
  lemma ClaimLeavesOne(p: Pool, c: nat, i: nat)
    requires Enabled(p, Claim(c, Some(i)))
    ensures var k := p.callers[c].key;
            Clean(Next(p, Claim(c, Some(i))), k) == 1 <==> Seen(p.bindings, CleanOwned(k), None)
  {
    var k := p.callers[c].key;
    ClaimCounts(p.bindings, i, k, k);
    CountZero(p.bindings, IsClean(k));
  }

  /** Every caller from `c` on looks up and misses. */
  lemma LookupAll(p: Pool, k: Key, c: nat) returns (run: seq<Event>, p': Pool)
    requires c <= |p.callers| && Seen(p.bindings, CleanOwned(k), None)
    requires forall j :: 0 <= j < c ==> p.callers[j] == Missed(k)
    requires forall j :: c <= j < |p.callers| ==> p.callers[j] == Idle
    ensures Reaches(p, run, p') && p'.bindings == p.bindings && |p'.callers| == |p.callers|
    ensures forall j :: 0 <= j < |p'.callers| ==> p'.callers[j] == Missed(k)
    decreases |p.callers| - c
  {
    if c == |p.callers| {
      run, p' := [], p;
    } else {
      var e := Lookup(c, k, None);
      var rest;
      rest, p' := LookupAll(Next(p, e), k, c + 1);
      run := [e] + rest;
    }
  }

  /** Every caller from `c` on claims the free binding of its own number. */
  lemma ClaimAll(p: Pool, k: Key, c: nat) returns (run: seq<Event>, p': Pool)
    requires c <= |p.callers| == |p.bindings| && Clean(p, k) == c
    requires forall j :: c <= j < |p.callers| ==> p.callers[j] == Missed(k) && Selects(Free(k), p.bindings[j])
    ensures Reaches(p, run, p') && Clean(p', k) == |p.callers|
    decreases |p.callers| - c
  {
    if c == |p.callers| {
      run, p' := [], p;
    } else {
      var e := Claim(c, Some(c));
      ClaimCounts(p.bindings, c, k, k);
      var rest;
      rest, p' := ClaimAll(Next(p, e), k, c + 1);
      run := [e] + rest;
    }
  }

  lemma {:induction false} ReachesTrans(p: Pool, run1: seq<Event>, p1: Pool, run2: seq<Event>, p2: Pool)
    requires Reaches(p, run1, p1) && Reaches(p1, run2, p2)
    ensures Reaches(p, run1 + run2, p2)
    decreases |run1|
  {
    if run1 == [] {
      assert run1 + run2 == run2;
    } else {
      assert (run1 + run2)[1..] == run1[1..] + run2;
      ReachesTrans(Next(p, run1[0]), run1[1..], p1, run2, p2);
    }
  }

  /** The bound is reached: N callers for a new tenant, interleaved, can end up with N clean bindings. */
  lemma BoundIsAttained(p: Pool, k: Key) returns (run: seq<Event>, p': Pool)
    requires AllIdle(p) && |p.callers| == |p.bindings|
    requires forall j :: 0 <= j < |p.bindings| ==> Selects(Free(k), p.bindings[j])
    ensures Reaches(p, run, p') && Clean(p', k) == |p.callers|
  {
    CountZero(p.bindings, IsClean(k));
    var lookups, p1 := LookupAll(p, k, 0);
    var claims;
    claims, p' := ClaimAll(p1, k, 0);
    ReachesTrans(p, lookups, p1, claims, p');
    run := lookups + claims;
  }

  // ----- what no run ever changes -----

  /** Everything a step may do to a binding: add a missing tenant to an unshared one, or add the dirty label. */
  ghost predicate Kept(b: Binding, b': Binding) {
    && b'.name == b.name
    && (forall l :: l in b.labels && l != Dirty ==> l in b'.labels && b'.labels[l] == b.labels[l])
    && (forall l :: l in b'.labels && l != TenantName && l != Dirty ==> l in b.labels)
    && (Dirty in b.labels ==> Dirty in b'.labels)
    && (Has(b, Dirty, "true") ==> Has(b', Dirty, "true"))
    && (TenantName in b'.labels && TenantName !in b.labels ==> !Has(b, Shared, "true"))
  }

  ghost predicate AllKept(bs: seq<Binding>, bs': seq<Binding>) {
    |bs'| == |bs| && forall i :: 0 <= i < |bs| ==> Kept(bs[i], bs'[i])
  }

  /** Every binding handed out belongs to the key of its call. */
  ghost predicate ReturnedOwned(p: Pool) {
    forall j :: 0 <= j < |p.returned| ==>
      p.returned[j].1 < |p.bindings| && OwnedBy(p.bindings[p.returned[j].1], p.returned[j].0)
  }

  lemma StepKeeps(p: Pool, e: Event)
    requires Enabled(p, e)
    ensures AllKept(p.bindings, Next(p, e).bindings)
  {
  }

  lemma KeptOwned(b: Binding, b': Binding, k: Key)
    requires Kept(b, b') && OwnedBy(b, k)
    ensures OwnedBy(b', k)
  {
  }

  lemma StepReturnsOwned(p: Pool, e: Event)
    requires Enabled(p, e) && ReturnedOwned(p)
    ensures ReturnedOwned(Next(p, e))
  {
    var p' := Next(p, e);
    StepKeeps(p, e);
    forall j | 0 <= j < |p'.returned|
      ensures p'.returned[j].1 < |p'.bindings| && OwnedBy(p'.bindings[p'.returned[j].1], p'.returned[j].0)
    {
      if j < |p.returned| {
        KeptOwned(p.bindings[p.returned[j].1], p'.bindings[p.returned[j].1], p.returned[j].0);
      }
    }
  }

  /** In every run tenants and dirty marks stay, unshared-only claims hold and returned bindings stay with their key. */
  lemma {:induction false} RunKeeps(p: Pool, run: seq<Event>, p': Pool)
    requires Reaches(p, run, p') && ReturnedOwned(p)
    ensures AllKept(p.bindings, p'.bindings) && ReturnedOwned(p')
    decreases |run|
  {
    if run != [] {
      StepKeeps(p, run[0]);
      StepReturnsOwned(p, run[0]);
      RunKeeps(Next(p, run[0]), run[1..], p');
      KeptTransitive(p.bindings, Next(p, run[0]).bindings, p'.bindings);
    }
  }

  lemma KeptTransitive(a: seq<Binding>, b: seq<Binding>, c: seq<Binding>)
    requires AllKept(a, b) && AllKept(b, c)
    ensures AllKept(a, c)
  {
    forall i | 0 <= i < |a|
      ensures Kept(a[i], c[i])
    {
      assert Kept(a[i], b[i]) && Kept(b[i], c[i]);
    }
  }

  /** Calls for different tenants, types or EU access values are never given the same binding. */
  lemma KeysNeverShare(p: Pool, run: seq<Event>, p': Pool, i: nat, j: nat)
    requires ReturnedOwned(p) && Reaches(p, run, p')
    requires i < |p'.returned| && j < |p'.returned| && p'.returned[i].1 == p'.returned[j].1
    ensures p'.returned[i].0 == p'.returned[j].0
  {
    RunKeeps(p, run, p');
  }

  ghost predicate SharedUntenanted(bs: seq<Binding>) {
    forall i :: 0 <= i < |bs| && Has(bs[i], Shared, "true") ==> TenantName !in bs[i].labels
  }

  /** When no shared binding has a tenant to begin with, no run gives one a tenant or hands one out. */
  lemma SharedNeverClaimed(p: Pool, run: seq<Event>, p': Pool)
    requires SharedUntenanted(p.bindings) && ReturnedOwned(p) && Reaches(p, run, p')
    ensures SharedUntenanted(p'.bindings)
    ensures forall j :: 0 <= j < |p'.returned| ==>
              p'.returned[j].1 < |p'.bindings| && !Has(p'.bindings[p'.returned[j].1], Shared, "true")
  {
    RunKeeps(p, run, p');
    forall i | 0 <= i < |p'.bindings| && Has(p'.bindings[i], Shared, "true")
      ensures TenantName !in p'.bindings[i].labels
    {
      assert Kept(p.bindings[i], p'.bindings[i]);
    }
  }

  // ----- release -----

  ghost predicate Referenced(b: Binding, shoots: seq<string>) {
    b.name in shoots
  }

  /** The pool after MarkSecretBindingAsDirty. */
  function Marked(bs: seq<Binding>, k: Key): seq<Binding> {
    var i := First(bs, OwnedUnshared(k));
    if i.None? then bs else bs[i.value := Labelled(bs[i.value], Dirty, "true")]
  }

  function IsUsed(bs: seq<Binding>, shoots: seq<string>, k: Key): bool {
    var i := First(bs, Owned(k));
    i.Some? && bs[i.value].name in shoots
  }

  /** The pool after MarkUnusedGardenerSecretBindingAsDirty. */
  function Release(bs: seq<Binding>, shoots: seq<string>, k: Key): seq<Binding> {
    if First(bs, InternalOwned(k)).Some? then bs
    else if First(bs, DirtyOwned(k)).Some? then bs
    else if IsUsed(bs, shoots, k) then bs
    else Marked(bs, k)
  }

  /** Without tenants on shared bindings, the binding checked for use is the binding marked. */
  lemma FirstOwnedUnshared(bs: seq<Binding>, k: Key)
    requires SharedUntenanted(bs)
    ensures First(bs, Owned(k)) == First(bs, OwnedUnshared(k))
  {
    var a, b := First(bs, Owned(k)), First(bs, OwnedUnshared(k));
    if a.Some? {
      assert Selects(OwnedUnshared(k), bs[a.value]);
    }
    if b.Some? {
      assert Selects(Owned(k), bs[b.value]);
    }
  }

  /** Position i is the first one the selector matches. */
  ghost predicate IsFirst(bs: seq<Binding>, q: Query, i: int) {
    0 <= i < |bs| && Selects(q, bs[i]) && forall j :: 0 <= j < i ==> !Selects(q, bs[j])
  }

  /** What keeps a release from marking: an internal binding, one already dirty, or a shoot on the first binding. */
  ghost predicate StaysClaimed(bs: seq<Binding>, shoots: seq<string>, k: Key) {
    || (exists i :: 0 <= i < |bs| && OwnedBy(bs[i], k) && Has(bs[i], Internal, "true"))
    || (exists i :: 0 <= i < |bs| && OwnedBy(bs[i], k) && !Has(bs[i], Shared, "true") && Has(bs[i], Dirty, "true"))
    || (exists i :: IsFirst(bs, Owned(k), i) && bs[i].name in shoots)
  }

  /** bs' is bs with the first unshared binding of the tenant marked dirty, or bs when the tenant has none. */
  ghost predicate FirstMarked(bs: seq<Binding>, k: Key, bs': seq<Binding>) {
    if exists i :: 0 <= i < |bs| && OwnedBy(bs[i], k) && !Has(bs[i], Shared, "true")
    then exists b :: IsFirst(bs, OwnedUnshared(k), b) && bs' == bs[b := bs[b].(labels := bs[b].labels[Dirty := "true"])]
    else bs' == bs
  }

  /** Release leaves a pool as it is when something keeps the binding claimed, and marks it otherwise. */
  lemma ReleaseExactly(bs: seq<Binding>, shoots: seq<string>, k: Key)
    ensures if StaysClaimed(bs, shoots, k) then Release(bs, shoots, k) == bs
            else FirstMarked(bs, k, Release(bs, shoots, k))
  {
    var internal, dirty := First(bs, InternalOwned(k)), First(bs, DirtyOwned(k));
    var a := First(bs, Owned(k));
    assert internal.Some? <==> exists i :: 0 <= i < |bs| && OwnedBy(bs[i], k) && Has(bs[i], Internal, "true");
    assert dirty.Some?
           <==> exists i :: 0 <= i < |bs| && OwnedBy(bs[i], k) && !Has(bs[i], Shared, "true")
                            && Has(bs[i], Dirty, "true");
    if a.Some? {
      assert IsFirst(bs, Owned(k), a.value);
      FirstIsOnly(bs, Owned(k), a.value);
    }
    MarkedExactly(bs, k);
  }

  lemma MarkedExactly(bs: seq<Binding>, k: Key)
    ensures FirstMarked(bs, k, Marked(bs, k))
  {
    var b := First(bs, OwnedUnshared(k));
    if b.Some? {
      assert IsFirst(bs, OwnedUnshared(k), b.value);
      assert OwnedBy(bs[b.value], k) && !Has(bs[b.value], Shared, "true");
    }
  }

  lemma FirstIsOnly(bs: seq<Binding>, q: Query, i: int)
    requires IsFirst(bs, q, i)
    ensures forall j :: IsFirst(bs, q, j) ==> j == i
  {
  }

  /** Release makes at most one binding dirty, and never an internal, shared or still referenced one. */
  lemma ReleaseIsSafe(bs: seq<Binding>, shoots: seq<string>, k: Key)
    requires SharedUntenanted(bs)
    ensures var bs' := Release(bs, shoots, k);
            bs' == bs
            || exists i :: 0 <= i < |bs| && bs' == bs[i := Labelled(bs[i], Dirty, "true")]
                           && OwnedBy(bs[i], k)
                           && !Has(bs[i], Internal, "true") && !Has(bs[i], Shared, "true")
                           && !Referenced(bs[i], shoots)
  {
    FirstOwnedUnshared(bs, k);
    var bs' := Release(bs, shoots, k);
    if bs' != bs {
      var i := First(bs, OwnedUnshared(k)).value;
      assert !Selects(InternalOwned(k), bs[i]);
    }
  }

  /** A second release changes nothing, and after a mark none ever will, whatever shoots are left by then. */
  lemma ReleaseTwice(bs: seq<Binding>, shoots: seq<string>, later: seq<string>, k: Key)
    ensures var bs' := Release(bs, shoots, k);
            && Release(bs', shoots, k) == bs'
            && (bs' != bs ==> Release(bs', later, k) == bs')
  {
    var bs' := Release(bs, shoots, k);
    if bs' != bs {
      var i := First(bs, OwnedUnshared(k)).value;
      assert Selects(DirtyOwned(k), bs'[i]);
    }
  }

  /** Release makes a binding dirty that some shoot references. */
  ghost predicate MarksUsed(bs: seq<Binding>, shoots: seq<string>, k: Key) {
    exists i :: 0 <= i < |bs| && Release(bs, shoots, k)[i] != bs[i] && Referenced(bs[i], shoots)
  }

  /**
   Release marks a binding in use exactly when the internal and dirty checks pass, the first unshared binding of the
   tenant is referenced, and the first binding of the tenant, the one checked for use, is not.
   */
  lemma ReleaseMarksUsedExactly(bs: seq<Binding>, shoots: seq<string>, k: Key)
    ensures MarksUsed(bs, shoots, k)
            <==> && (forall i :: 0 <= i < |bs| ==> !Selects(InternalOwned(k), bs[i]) && !Selects(DirtyOwned(k), bs[i]))
                 && First(bs, OwnedUnshared(k)).Some? && Referenced(bs[First(bs, OwnedUnshared(k)).value], shoots)
                 && !Referenced(bs[First(bs, Owned(k)).value], shoots)
  {
    var i := First(bs, OwnedUnshared(k));
    if i.Some? {
      assert Selects(Owned(k), bs[i.value]);
      if First(bs, DirtyOwned(k)).None? {
        assert !Selects(DirtyOwned(k), bs[i.value]);
      }
    }
  }

  /** With a tenant on a shared binding, release can mark a binding that a shoot still references. */
  lemma SharedTenantHidesUse() returns (bs: seq<Binding>, shoots: seq<string>, k: Key)
    ensures MarksUsed(bs, shoots, k)
  {
    k := Key("aws", "t", false);
    var shared := Binding("s", map[TenantName := "t", HyperscalerType := "aws", Shared := "true"]);
    var own := Binding("own", map[TenantName := "t", HyperscalerType := "aws"]);
    bs, shoots := [shared, own], ["own"];
    assert First(bs, Owned(k)) == Some(0) by { assert Selects(Owned(k), bs[0]); }
    assert First(bs, OwnedUnshared(k)) == Some(1) by { assert Selects(OwnedUnshared(k), bs[1]); }
    ReleaseMarksUsedExactly(bs, shoots, k);
  }

  // ----- release between other calls -----

  // The checks of a release only read, and hold no lock; its mark is the step MarkDirty. So anything may happen
  // between the check for use, in pool p, and the mark, in pool p'.

  /** The check for use saw the tenant's binding `seen`, or none, and no shoot that references it. */
  ghost predicate FoundUnused(p: Pool, shoots: seq<string>, k: Key, seen: Option<nat>) {
    Seen(p.bindings, Owned(k), seen) && (seen.Some? ==> !Referenced(p.bindings[seen.value], shoots))
  }

  /** Some call for the key was given a binding between p and p'. */
  ghost predicate AnsweredSince(p: Pool, p': Pool, k: Key) {
    exists n :: |p.returned| <= n < |p'.returned| && p'.returned[n].0 == k
  }

  /** Binding i was given to some call, of any key, between p and p'. */
  ghost predicate GivenSince(p: Pool, p': Pool, i: nat) {
    exists n :: |p.returned| <= n < |p'.returned| && p'.returned[n].1 == i
  }

  ghost predicate OnlyOwned(p: Pool, k: Key, j: nat) {
    j < |p.bindings| && OwnedBy(p.bindings[j], k)
    && forall i :: 0 <= i < |p.bindings| && OwnedBy(p.bindings[i], k) ==> i == j
  }

  lemma {:induction false} RunLogs(p: Pool, run: seq<Event>, p': Pool)
    requires Reaches(p, run, p')
    ensures p.returned <= p'.returned && |p'.bindings| == |p.bindings|
    decreases |run|
  {
    if run != [] {
      RunLogs(Next(p, run[0]), run[1..], p');
    }
  }

  /** A binding comes to a tenant only by a claim, which gives it to a call of that tenant. */
  lemma {:induction false} OwnershipIsGiven(p: Pool, run: seq<Event>, p': Pool, k: Key, i: nat)
    requires Reaches(p, run, p') && i < |p.bindings| == |p'.bindings|
    requires OwnedBy(p'.bindings[i], k) && !OwnedBy(p.bindings[i], k)
    ensures AnsweredSince(p, p', k)
    decreases |run|
  {
    var e := run[0];
    var p1 := Next(p, e);
    RunLogs(p1, run[1..], p');
    if OwnedBy(p1.bindings[i], k) {
      assert p1.returned[|p.returned|] == (k, i);
      assert p'.returned[|p.returned|] == (k, i);
    } else {
      OwnershipIsGiven(p1, run[1..], p', k, i);
      var n :| |p1.returned| <= n < |p'.returned| && p'.returned[n].0 == k;
      assert |p.returned| <= n;
    }
  }

  /**
   A release found the tenant's binding unused in p, anything happened since, and its mark hits binding j in p'. If j
   was handed out since the check, to anyone, a call of the tenant was answered since; if none was, j was the
   tenant's already in p. When j is the tenant's only binding this is exact: j was handed out since exactly when a
   call of the tenant was answered since, and if none was, j is the very binding that was checked.
   */
  lemma MarkAfterCheck(p: Pool, run: seq<Event>, p': Pool, shoots: seq<string>, k: Key, seen: Option<nat>, j: nat)
    requires ReturnedOwned(p) && FoundUnused(p, shoots, k, seen) && Reaches(p, run, p')
    requires Enabled(p', MarkDirty(k, Some(j)))
    ensures j < |p.bindings| == |p'.bindings|
    ensures GivenSince(p, p', j) ==> AnsweredSince(p, p', k)
    ensures !AnsweredSince(p, p', k) ==> OwnedBy(p.bindings[j], k)
    ensures OnlyOwned(p', k, j) ==> (GivenSince(p, p', j) <==> AnsweredSince(p, p', k))
    ensures OnlyOwned(p', k, j) && !AnsweredSince(p, p', k) ==> seen == Some(j) && !Referenced(p'.bindings[j], shoots)
  {
    RunKeeps(p, run, p');
    RunLogs(p, run, p');
    if GivenSince(p, p', j) {
      var n :| |p.returned| <= n < |p'.returned| && p'.returned[n].1 == j;
      assert OwnedBy(p'.bindings[j], p'.returned[n].0);
    }
    if !AnsweredSince(p, p', k) {
      OwnedBefore(p, run, p', k, j);
    }
    if OnlyOwned(p', k, j) {
      if AnsweredSince(p, p', k) {
        var n :| |p.returned| <= n < |p'.returned| && p'.returned[n].0 == k;
        assert OwnedBy(p'.bindings[p'.returned[n].1], k);
      } else {
        CheckedIsOwned(p, run, p', k, seen, j);
      }
    }
  }

  /** Without an answered call, what is the tenant's was the tenant's. */
  lemma OwnedBefore(p: Pool, run: seq<Event>, p': Pool, k: Key, j: nat)
    requires Reaches(p, run, p') && j < |p.bindings| == |p'.bindings|
    requires OwnedBy(p'.bindings[j], k) && !AnsweredSince(p, p', k)
    ensures OwnedBy(p.bindings[j], k)
  {
    if !OwnedBy(p.bindings[j], k) {
      OwnershipIsGiven(p, run, p', k, j);
    }
  }

  lemma CheckedIsOwned(p: Pool, run: seq<Event>, p': Pool, k: Key, seen: Option<nat>, j: nat)
    requires AllKept(p.bindings, p'.bindings) && Seen(p.bindings, Owned(k), seen) && Reaches(p, run, p')
    requires OnlyOwned(p', k, j) && !AnsweredSince(p, p', k)
    ensures seen == Some(j) && p'.bindings[j].name == p.bindings[j].name
  {
    assert Kept(p.bindings[j], p'.bindings[j]);
    OwnedBefore(p, run, p', k, j);
    assert Selects(Owned(k), p.bindings[j]);
    KeptOwned(p.bindings[seen.value], p'.bindings[seen.value], k);
  }

  /** Any call that finds its binding between check and mark is left with a binding that is dirty a step later. */
  lemma CallBetween(p: Pool, c: nat, k: Key, j: nat) returns (p': Pool)
    requires Enabled(p, Lookup(c, k, Some(j))) && !Has(p.bindings[j], Shared, "true")
    ensures Reaches(p, [Lookup(c, k, Some(j)), MarkDirty(k, Some(j))], p')
    ensures p'.returned == p.returned + [(k, j)] && |p'.bindings| == |p.bindings| && Has(p'.bindings[j], Dirty, "true")
  {
    var lookup, mark := Lookup(c, k, Some(j)), MarkDirty(k, Some(j));
    var p1 := Next(p, lookup);
    p' := Next(p1, mark);
    assert [lookup, mark][1..] == [mark] && [mark][1..] == [];
  }

  // ----- the pool object -----

  /** One uninterrupted call: the tenant's clean binding, or else the first free one, now labelled. */
  function Credentials(bs: seq<Binding>, k: Key): (seq<Binding>, Option<nat>) {
    var found, free := First(bs, CleanOwned(k)), First(bs, Free(k));
    if found.Some? then (bs, found)
    else if free.None? then (bs, None)
    else (bs[free.value := Labelled(bs[free.value], TenantName, k.tenant)], free)
  }

  /**
   A call is answered exactly when the tenant has a clean binding or there is a free one. It gives the tenant's own
   binding without a change, and otherwise a free one, on which the tenant's label is the only change.
   */
  ghost predicate Answers(bs: seq<Binding>, k: Key, bs': seq<Binding>, r: Option<nat>) {
    && (r.None? <==> forall i :: 0 <= i < |bs| ==> !Selects(CleanOwned(k), bs[i]) && !Selects(Free(k), bs[i]))
    && (r.None? ==> bs' == bs)
    && (r.Some? ==>
          && r.value < |bs|
          && if exists i :: 0 <= i < |bs| && Selects(CleanOwned(k), bs[i])
             then IsFirst(bs, CleanOwned(k), r.value) && bs' == bs
             else && IsFirst(bs, Free(k), r.value)
                  && bs' == bs[r.value := bs[r.value].(labels := bs[r.value].labels[TenantName := k.tenant])])
  }

  lemma CredentialsExactly(bs: seq<Binding>, k: Key)
    ensures var (bs', r) := Credentials(bs, k);
            Answers(bs, k, bs', r)
  {
  }

  /** An uninterrupted call is a run of the interleaved machine that returns a clean binding of its own key. */
  lemma CallIsARun(p: Pool, c: nat, k: Key) returns (run: seq<Event>, p': Pool)
    requires c < |p.callers| && p.callers[c] == Idle
    ensures Reaches(p, run, p') && p'.callers == p.callers
    ensures var (bs, r) := Credentials(p.bindings, k);
            && p'.bindings == bs
            && p'.returned == p.returned + (if r.Some? then [(k, r.value)] else [])
            && (r.Some? ==> r.value < |bs| && Selects(CleanOwned(k), bs[r.value]))
  {
    var found := First(p.bindings, CleanOwned(k));
    var lookup := Lookup(c, k, found);
    var p1 := Next(p, lookup);
    if found.Some? {
      run, p' := [lookup], p1;
      assert run[1..] == [];
    } else {
      var claim := Claim(c, First(p.bindings, Free(k)));
      run, p' := [lookup, claim], Next(p1, claim);
      assert run[1..] == [claim] && run[1..][1..] == [];
      assert p.callers[c := Missed(k)][c := Idle] == p.callers;
    }
  }

  /** Go's map of labels is updated in place on the stored bindings; the lock makes each claim one step. */
  class AccountPool {
    var bindings: seq<Binding>

    constructor (bindings: seq<Binding>)
      ensures this.bindings == bindings
    {
      this.bindings := bindings;
    }

    method CredentialsSecretBinding(k: Key) returns (r: Option<nat>)
      modifies this
      ensures (bindings, r) == Credentials(old(bindings), k)
      ensures Answers(old(bindings), k, bindings, r)
    {
      CredentialsExactly(bindings, k);
      r := First(bindings, CleanOwned(k));
      if r.Some? {
        return;
      }
      r := First(bindings, Free(k));
      if r.None? {
        return;
      }
      var b := bindings[r.value];
      var labels := b.labels[TenantName := k.tenant];
      bindings := bindings[r.value := b.(labels := labels)];
    }

    method MarkSecretBindingAsDirty(k: Key)
      modifies this
      ensures bindings == Marked(old(bindings), k) && FirstMarked(old(bindings), k, bindings)
    {
      MarkedExactly(bindings, k);
      var i := First(bindings, OwnedUnshared(k));
      if i.None? {
        return;
      }
      var b := bindings[i.value];
      var labels := b.labels[Dirty := "true"];
      bindings := bindings[i.value := b.(labels := labels)];
    }

    /** Searches the shoots for one that uses the tenant's binding. */
    method IsSecretBindingUsed(shoots: seq<string>, k: Key) returns (used: bool)
      ensures used == IsUsed(bindings, shoots, k)
    {
      var i := First(bindings, Owned(k));
      if i.None? {
        return false;
      }
      for n := 0 to |shoots|
        invariant bindings[i.value].name !in shoots[..n]
      {
        if shoots[n] == bindings[i.value].name {
          return true;
        }
      }
      return false;
    }

    method MarkUnusedGardenerSecretBindingAsDirty(shoots: seq<string>, k: Key)
      modifies this
      ensures bindings == Release(old(bindings), shoots, k)
      ensures if StaysClaimed(old(bindings), shoots, k) then bindings == old(bindings)
              else FirstMarked(old(bindings), k, bindings)
    {
      ReleaseExactly(bindings, shoots, k);
      var internal := First(bindings, InternalOwned(k));
      if internal.Some? {
        return;
      }
      var dirty := First(bindings, DirtyOwned(k));
      if dirty.Some? {
        return;
      }
      var used := IsSecretBindingUsed(shoots, k);
      if !used {
        MarkSecretBindingAsDirty(k);
      }
    }
  }
}
