/**
 The orchestration target resolver (common/orchestration/resolver.go): the runtimes an orchestration acts on are
 those matched by some include target and by no exclude target, each once.
 */
module Resolver {
  import opened Wrappers
  import R = Runtimes

  /** A Gardener shoot. The maintenance times are None when they do not parse. */
  datatype Shoot = Shoot(
    name: string,
    runtimeID: string,
    account: string,
    subAccount: string,
    region: string,
    windowBegin: Option<int>,
    windowEnd: Option<int>)

  datatype Target = Target(
    target: string,
    globalAccount: string,
    subAccount: string,
    region: string,
    runtimeID: string,
    planName: string,
    shoot: string,
    instanceID: string)

  datatype Runtime = Runtime(
    instanceID: string,
    runtimeID: string,
    globalAccountID: string,
    subAccountID: string,
    plan: string,
    region: string,
    shootName: string,
    windowBegin: int,
    windowEnd: int)

  type Cache = map<string, R.RuntimeDTO>

  /** A regular expression applied to a text; None stands for a pattern that does not compile. */
  type Matcher = (string, string) -> Option<bool>

  const TARGET_ALL := "all"
  const SUCCEEDED := "succeeded"

  /** The source reads list heads of cached runtimes without a check. */
  ghost predicate Readable(cache: Cache) {
    forall id :: id in cache ==> R.AllReadable(cache[id].status)
  }

  // ----- one target -----

  /** Runtimes being removed, suspended or not yet provisioned are left out. */
  predicate Skipped(op: R.Operation) {
    || op.kind == R.Deprovision || op.kind == R.Suspension
    || ((op.kind == R.Provision || op.kind == R.Unsuspension) && op.state != SUCCEEDED)
  }

  predicate Eligible(cache: Cache, s: Shoot)
    requires Readable(cache)
  {
    && s.runtimeID != "" && s.runtimeID in cache
    && !Skipped(R.LastOperation(cache[s.runtimeID].status))
    && s.windowBegin.Some? && s.windowEnd.Some?
  }

  predicate PatternMatches(m: Matcher, pattern: string, text: string) {
    pattern == "" || m(pattern, text) == Some(true)
  }

  /** A runtime id settles the match; otherwise every given field must match. */
  predicate TargetMatches(m: Matcher, t: Target, s: Shoot, r: R.RuntimeDTO) {
    if t.runtimeID != "" then t.runtimeID == s.runtimeID
    else
      && (t.instanceID == "" || t.instanceID == r.instanceID)
      && (t.shoot == "" || t.shoot == s.name)
      && (t.planName == "" || t.planName == r.planName)
      && PatternMatches(m, t.globalAccount, s.account)
      && PatternMatches(m, t.subAccount, s.subAccount)
      && PatternMatches(m, t.region, s.region)
      && (t.target == "" || t.target == TARGET_ALL)
  }

  predicate Selects(m: Matcher, cache: Cache, t: Target, s: Shoot)
    requires Readable(cache)
  {
    Eligible(cache, s) && TargetMatches(m, t, s, cache[s.runtimeID])
  }

  function ToRuntime(r: R.RuntimeDTO, s: Shoot): Runtime
    requires s.windowBegin.Some? && s.windowEnd.Some?
  {
    Runtime(r.instanceID, r.runtimeID, r.globalAccountID, r.subAccountID, r.planName, r.region, s.name,
            s.windowBegin.value, s.windowEnd.value)
  }

  /** The runtimes of the selected shoots, in shoot order. */
  function Resolved(m: Matcher, cache: Cache, t: Target, shoots: seq<Shoot>): seq<Runtime>
    requires Readable(cache)
  {
    if shoots == [] then []
    else
      var n := |shoots| - 1;
      Resolved(m, cache, t, shoots[..n]) +
      if Selects(m, cache, t, shoots[n]) then [ToRuntime(cache[shoots[n].runtimeID], shoots[n])] else []
  }

  /** The runtimes of several targets, target after target. */
  function ResolvedAll(m: Matcher, cache: Cache, ts: seq<Target>, shoots: seq<Shoot>): seq<Runtime>
    requires Readable(cache)
  {
    if ts == [] then []
    else ResolvedAll(m, cache, ts[..|ts| - 1], shoots) + Resolved(m, cache, ts[|ts| - 1], shoots)
  }

  // ----- include and exclude targets -----

  function Ids(rs: seq<Runtime>): set<string> {
    set r | r in rs :: r.runtimeID
  }

  /** Keeps the first runtime of every id that is not excluded. */
  function Unique(rs: seq<Runtime>, excluded: set<string>): (u: seq<Runtime>)
  {
    if rs == [] then []
    else
      var n := |rs| - 1;
      var u := Unique(rs[..n], excluded);
      if rs[n].runtimeID !in excluded && !(exists r :: r in u && r.runtimeID == rs[n].runtimeID)
      then u + [rs[n]] else u
  }

  lemma {:induction false} UniqueIds(rs: seq<Runtime>, excluded: set<string>)
    ensures Ids(Unique(rs, excluded)) == Ids(rs) - excluded
  {
    if rs != [] {
      var n := |rs| - 1;
      UniqueIds(rs[..n], excluded);
      assert rs == rs[..n] + [rs[n]];
      var u := Unique(rs[..n], excluded);
      assert Ids(rs) == Ids(rs[..n]) + {rs[n].runtimeID};
      assert Ids(u + [rs[n]]) == Ids(u) + {rs[n].runtimeID};
      assert (exists r :: r in u && r.runtimeID == rs[n].runtimeID) <==> rs[n].runtimeID in Ids(u);
    }
  }

  lemma UniqueStep(rs: seq<Runtime>, r: Runtime, excluded: set<string>)
    ensures var u := Unique(rs, excluded);
            && Unique(rs + [r], excluded) == (if r.runtimeID !in excluded && r.runtimeID !in Ids(u) then u + [r] else u)
            && Ids(u + [r]) == Ids(u) + {r.runtimeID}
  {
    assert (rs + [r])[..|rs|] == rs;
  }

  ghost predicate NoDuplicates(rs: seq<Runtime>) {
    forall i, j :: 0 <= i < j < |rs| ==> rs[i].runtimeID != rs[j].runtimeID
  }

  lemma {:induction false} UniqueHasNoDuplicates(rs: seq<Runtime>, excluded: set<string>)
    ensures NoDuplicates(Unique(rs, excluded))
  {
    if rs != [] {
      UniqueHasNoDuplicates(rs[..|rs| - 1], excluded);
    }
  }

  /** `at` is the position of the first runtime with its id. */
  ghost predicate FirstAt(rs: seq<Runtime>, at: nat) {
    at < |rs| && forall j :: 0 <= j < at ==> rs[j].runtimeID != rs[at].runtimeID
  }

  /** `u` lists the runtimes at the positions `at`, which increase and are first occurrences of their ids. */
  ghost predicate InFirstOrder(rs: seq<Runtime>, u: seq<Runtime>, at: seq<nat>) {
    && |at| == |u|
    && (forall i :: 0 <= i < |u| ==> FirstAt(rs, at[i]) && u[i] == rs[at[i]])
    && (forall i, j :: 0 <= i < j < |at| ==> at[i] < at[j])
  }

  /** The result keeps the order of first occurrence. */
  lemma {:induction false} UniqueKeepsOrder(rs: seq<Runtime>, excluded: set<string>) returns (at: seq<nat>)
    ensures InFirstOrder(rs, Unique(rs, excluded), at)
  {
    if rs == [] {
      at := [];
    } else {
      var n := |rs| - 1;
      var before, u := rs[..n], Unique(rs[..n], excluded);
      at := UniqueKeepsOrder(before, excluded);
      assert rs == before + [rs[n]];
      OrderExtends(before, rs[n], u, at);
      if Unique(rs, excluded) != u {
        NotSeenBefore(rs, excluded);
        OrderAppends(rs, u, at);
        at := at + [n];
      }
    }
  }

  /** One more runtime leaves the first occurrences where they are. */
  lemma OrderExtends(rs: seq<Runtime>, r: Runtime, u: seq<Runtime>, at: seq<nat>)
    requires InFirstOrder(rs, u, at)
    ensures InFirstOrder(rs + [r], u, at)
    ensures forall i :: 0 <= i < |at| ==> at[i] < |rs|
  {
    forall i | 0 <= i < |u|
      ensures FirstAt(rs + [r], at[i]) && u[i] == (rs + [r])[at[i]]
    {
      assert FirstAt(rs, at[i]);
    }
  }

  /** The last runtime follows in the order when its id is new. */
  lemma OrderAppends(rs: seq<Runtime>, u: seq<Runtime>, at: seq<nat>)
    requires rs != [] && InFirstOrder(rs, u, at) && FirstAt(rs, |rs| - 1)
    requires forall i :: 0 <= i < |at| ==> at[i] < |rs| - 1
    ensures InFirstOrder(rs, u + [rs[|rs| - 1]], at + [|rs| - 1])
  {
  }

  lemma NotSeenBefore(rs: seq<Runtime>, excluded: set<string>)
    requires rs != [] && rs[|rs| - 1].runtimeID !in excluded
    requires rs[|rs| - 1].runtimeID !in Ids(Unique(rs[..|rs| - 1], excluded))
    ensures FirstAt(rs, |rs| - 1)
  {
    var n := |rs| - 1;
    UniqueIds(rs[..n], excluded);
    forall j | 0 <= j < n
      ensures rs[j].runtimeID != rs[n].runtimeID
    {
      assert rs[..n][j] in rs[..n];
      assert rs[j].runtimeID in Ids(rs[..n]);
    }
  }

  // ----- ids in terms of targets -----

  /** Runtimes are cached under their own id. */
  ghost predicate Keyed(cache: Cache) {
    forall id :: id in cache ==> cache[id].runtimeID == id
  }

  ghost predicate MatchedBy(m: Matcher, cache: Cache, t: Target, shoots: seq<Shoot>, id: string)
    requires Readable(cache)
  {
    exists s :: s in shoots && Selects(m, cache, t, s) && s.runtimeID == id
  }

  ghost predicate MatchedBySome(m: Matcher, cache: Cache, ts: seq<Target>, shoots: seq<Shoot>, id: string)
    requires Readable(cache)
  {
    exists t :: t in ts && MatchedBy(m, cache, t, shoots, id)
  }

  lemma {:induction false} ResolvedIds(m: Matcher, cache: Cache, t: Target, shoots: seq<Shoot>, id: string)
    requires Readable(cache) && Keyed(cache)
    ensures id in Ids(Resolved(m, cache, t, shoots)) <==> MatchedBy(m, cache, t, shoots, id)
  {
    if shoots != [] {
      var n := |shoots| - 1;
      ResolvedIds(m, cache, t, shoots[..n], id);
      assert shoots == shoots[..n] + [shoots[n]];
      var rest := Resolved(m, cache, t, shoots[..n]);
      if Selects(m, cache, t, shoots[n]) {
        var r := ToRuntime(cache[shoots[n].runtimeID], shoots[n]);
        assert Ids(rest + [r]) == Ids(rest) + {r.runtimeID};
      }
    }
  }

  lemma {:induction false} ResolvedAllIds(m: Matcher, cache: Cache, ts: seq<Target>, shoots: seq<Shoot>, id: string)
    requires Readable(cache) && Keyed(cache)
    ensures id in Ids(ResolvedAll(m, cache, ts, shoots)) <==> MatchedBySome(m, cache, ts, shoots, id)
  {
    if ts != [] {
      var n := |ts| - 1;
      ResolvedAllIds(m, cache, ts[..n], shoots, id);
      ResolvedIds(m, cache, ts[n], shoots, id);
      assert ts == ts[..n] + [ts[n]];
      var a, b := ResolvedAll(m, cache, ts[..n], shoots), Resolved(m, cache, ts[n], shoots);
      assert Ids(a + b) == Ids(a) + Ids(b);
    }
  }

  /** The target selects the shoot and its runtime is `r`. */
  ghost predicate Yields(m: Matcher, cache: Cache, t: Target, s: Shoot, r: Runtime)
    requires Readable(cache)
  {
    Selects(m, cache, t, s) && r == ToRuntime(cache[s.runtimeID], s)
  }

  /** The shoot and its cached runtime are what the target asks for. */
  ghost predicate MeetsTarget(m: Matcher, t: Target, s: Shoot, r: R.RuntimeDTO) {
    && (t.runtimeID != "" ==> s.runtimeID == t.runtimeID)
    && (t.runtimeID == "" ==>
          && (t.globalAccount != "" ==> m(t.globalAccount, s.account) == Some(true))
          && (t.subAccount != "" ==> m(t.subAccount, s.subAccount) == Some(true))
          && (t.region != "" ==> m(t.region, s.region) == Some(true))
          && t.instanceID in {"", r.instanceID} && t.shoot in {"", s.name} && t.planName in {"", r.planName}
          && t.target in {"", "all"})
  }

  /** The shoot has a cached runtime that is provisioned and in service, and a readable maintenance window. */
  ghost predicate InService(cache: Cache, s: Shoot)
    requires Readable(cache)
  {
    && s.runtimeID != "" && s.runtimeID in cache && s.windowBegin.Some? && s.windowEnd.Some?
    && var last := R.LastOperation(cache[s.runtimeID].status);
    && last.kind != R.Deprovision && last.kind != R.Suspension
    && (last.kind == R.Provision || last.kind == R.Unsuspension ==> last.state == "succeeded")
  }

  /** The runtime reported for a shoot: the cached data, and the shoot's name and maintenance window. */
  ghost predicate Describes(r: Runtime, d: R.RuntimeDTO, s: Shoot) {
    && r.instanceID == d.instanceID && r.runtimeID == d.runtimeID && r.globalAccountID == d.globalAccountID
    && r.subAccountID == d.subAccountID && r.plan == d.planName && r.region == d.region
    && r.shootName == s.name && Some(r.windowBegin) == s.windowBegin && Some(r.windowEnd) == s.windowEnd
  }

  /** A shoot is selected exactly when it is in service and meets the target. */
  lemma SelectedExactly(m: Matcher, cache: Cache, t: Target, s: Shoot)
    requires Readable(cache)
    ensures Selects(m, cache, t, s) <==> InService(cache, s) && MeetsTarget(m, t, s, cache[s.runtimeID])
  {
  }

  /** A runtime is returned for a target exactly when it describes a shoot in service that meets the target. */
  lemma {:induction false} ResolvedExactly(m: Matcher, cache: Cache, t: Target, shoots: seq<Shoot>, r: Runtime)
    requires Readable(cache)
    ensures r in Resolved(m, cache, t, shoots) <==> ComesFromShoot(m, cache, t, shoots, r)
  {
    if shoots != [] {
      var n := |shoots| - 1;
      ResolvedExactly(m, cache, t, shoots[..n], r);
      SelectedExactly(m, cache, t, shoots[n]);
      assert shoots == shoots[..n] + [shoots[n]];
      if Selects(m, cache, t, shoots[n]) {
        assert r == ToRuntime(cache[shoots[n].runtimeID], shoots[n])
               <==> Describes(r, cache[shoots[n].runtimeID], shoots[n]);
      }
    }
  }

  ghost predicate ComesFromShoot(m: Matcher, cache: Cache, t: Target, shoots: seq<Shoot>, r: Runtime)
    requires Readable(cache)
  {
    exists s :: s in shoots && InService(cache, s) && MeetsTarget(m, t, s, cache[s.runtimeID])
                && Describes(r, cache[s.runtimeID], s)
  }

  /** The positions of the selected shoots, in increasing order, are where the resolved runtimes come from. */
  ghost predicate FromShoots(m: Matcher, cache: Cache, t: Target, shoots: seq<Shoot>, rs: seq<Runtime>, at: seq<nat>)
    requires Readable(cache)
  {
    && |at| == |rs|
    && (forall i :: 0 <= i < |at| ==> at[i] < |shoots| && Yields(m, cache, t, shoots[at[i]], rs[i]))
    && (forall i, j :: 0 <= i < j < |at| ==> at[i] < at[j])
  }

  lemma {:induction false} ResolvedOrder(m: Matcher, cache: Cache, t: Target, shoots: seq<Shoot>) returns (at: seq<nat>)
    requires Readable(cache)
    ensures FromShoots(m, cache, t, shoots, Resolved(m, cache, t, shoots), at)
  {
    if shoots == [] {
      at := [];
    } else {
      var n := |shoots| - 1;
      var rs := Resolved(m, cache, t, shoots[..n]);
      at := ResolvedOrder(m, cache, t, shoots[..n]);
      assert shoots == shoots[..n] + [shoots[n]];
      KeepShoots(m, cache, t, shoots[..n], shoots[n], rs, at);
      if Selects(m, cache, t, shoots[n]) {
        AppendShoot(m, cache, t, shoots, rs, at, ToRuntime(cache[shoots[n].runtimeID], shoots[n]));
        at := at + [n];
      }
    }
  }

  lemma KeepShoots(m: Matcher, cache: Cache, t: Target, shoots: seq<Shoot>, s: Shoot, rs: seq<Runtime>, at: seq<nat>)
    requires Readable(cache) && FromShoots(m, cache, t, shoots, rs, at)
    ensures FromShoots(m, cache, t, shoots + [s], rs, at)
    ensures forall i :: 0 <= i < |at| ==> at[i] < |shoots|
  {
  }

  /** The last shoot follows in the order when it is selected. */
  lemma AppendShoot(m: Matcher, cache: Cache, t: Target, shoots: seq<Shoot>, rs: seq<Runtime>, at: seq<nat>, r: Runtime)
    requires Readable(cache) && shoots != [] && FromShoots(m, cache, t, shoots, rs, at)
    requires forall i :: 0 <= i < |at| ==> at[i] < |shoots| - 1
    requires Yields(m, cache, t, shoots[|shoots| - 1], r)
    ensures FromShoots(m, cache, t, shoots, rs + [r], at + [|shoots| - 1])
  {
    var rs', at' := rs + [r], at + [|shoots| - 1];
    forall i | 0 <= i < |at'|
      ensures at'[i] < |shoots| && Yields(m, cache, t, shoots[at'[i]], rs'[i])
    {
      if i < |at| {
        assert at'[i] == at[i] && rs'[i] == rs[i];
      }
    }
  }

  /** Position (target, shoot) of a runtime among all targets; targets come first in the order. */
  predicate Before(a: (nat, nat), b: (nat, nat)) {
    a.0 < b.0 || (a.0 == b.0 && a.1 < b.1)
  }

  ghost predicate ComesFrom(m: Matcher, cache: Cache, ts: seq<Target>, shoots: seq<Shoot>, r: Runtime, at: (nat, nat))
    requires Readable(cache)
  {
    && at.0 < |ts| && at.1 < |shoots| && Selects(m, cache, ts[at.0], shoots[at.1])
    && r == ToRuntime(cache[shoots[at.1].runtimeID], shoots[at.1])
  }

  ghost predicate FromTargets(m: Matcher, cache: Cache, ts: seq<Target>, shoots: seq<Shoot>, rs: seq<Runtime>,
                              at: seq<(nat, nat)>)
    requires Readable(cache)
  {
    && |at| == |rs|
    && (forall i :: 0 <= i < |at| ==> ComesFrom(m, cache, ts, shoots, rs[i], at[i]))
    && (forall i, j :: 0 <= i < j < |at| ==> Before(at[i], at[j]))
  }

  /** The positions of one more target follow those of the targets before it. */
  lemma AppendTarget(m: Matcher, cache: Cache, ts: seq<Target>, t: Target, shoots: seq<Shoot>,
                     rs: seq<Runtime>, at: seq<(nat, nat)>, last: seq<Runtime>, positions: seq<nat>)
    requires Readable(cache)
    requires FromTargets(m, cache, ts, shoots, rs, at) && FromShoots(m, cache, t, shoots, last, positions)
    ensures FromTargets(m, cache, ts + [t], shoots, rs + last, at + AtTarget(|ts|, positions))
  {
    var at', rs' := at + AtTarget(|ts|, positions), rs + last;
    forall i | 0 <= i < |at'|
      ensures ComesFrom(m, cache, ts + [t], shoots, rs'[i], at'[i])
    {
      if i < |at| {
        assert ComesFrom(m, cache, ts, shoots, rs[i], at[i]);
      }
    }
    forall i, j | 0 <= i < j < |at'|
      ensures Before(at'[i], at'[j])
    {
      if i < |at| {
        assert ComesFrom(m, cache, ts, shoots, rs[i], at[i]);
      }
    }
  }

  function AtTarget(t: nat, positions: seq<nat>): (at: seq<(nat, nat)>)
    ensures |at| == |positions| && forall i :: 0 <= i < |at| ==> at[i] == (t, positions[i])
  {
    seq(|positions|, i requires 0 <= i < |positions| => (t, positions[i]))
  }

  /** Runtimes come in the order of their target and, within a target, of their shoot. */
  lemma {:induction false} ResolvedAllOrder(m: Matcher, cache: Cache, ts: seq<Target>, shoots: seq<Shoot>)
    returns (at: seq<(nat, nat)>)
    requires Readable(cache)
    ensures FromTargets(m, cache, ts, shoots, ResolvedAll(m, cache, ts, shoots), at)
  {
    if ts == [] {
      at := [];
    } else {
      var n := |ts| - 1;
      var before := ResolvedAllOrder(m, cache, ts[..n], shoots);
      var last := ResolvedOrder(m, cache, ts[n], shoots);
      AppendTarget(m, cache, ts[..n], ts[n], shoots, ResolvedAll(m, cache, ts[..n], shoots), before,
                   Resolved(m, cache, ts[n], shoots), last);
      assert ts[..n] + [ts[n]] == ts;
      at := before + AtTarget(n, last);
    }
  }

  function ResolveSpec(m: Matcher, cache: Cache, wanted: seq<Target>, unwanted: seq<Target>, shoots: seq<Shoot>)
    : seq<Runtime>
    requires Readable(cache)
  {
    Unique(ResolvedAll(m, cache, wanted, shoots), Ids(ResolvedAll(m, cache, unwanted, shoots)))
  }

  /** A runtime id is returned exactly when some include target and no exclude target matches one of its shoots. */
  lemma ResolveIds(m: Matcher, cache: Cache, wanted: seq<Target>, unwanted: seq<Target>, shoots: seq<Shoot>, id: string)
    requires Readable(cache) && Keyed(cache)
    ensures id in Ids(ResolveSpec(m, cache, wanted, unwanted, shoots))
            <==> MatchedBySome(m, cache, wanted, shoots, id) && !MatchedBySome(m, cache, unwanted, shoots, id)
  {
    var inc, exc := ResolvedAll(m, cache, wanted, shoots), ResolvedAll(m, cache, unwanted, shoots);
    UniqueIds(inc, Ids(exc));
    ResolvedAllIds(m, cache, wanted, shoots, id);
    ResolvedAllIds(m, cache, unwanted, shoots, id);
  }

  ghost predicate DistinctTimes(s: R.Status) {
    forall a, b :: R.Recorded(s, a) && R.Recorded(s, b) && a.createdAt == b.createdAt ==> a == b
  }

  /** Whenever every listing is sorted and no provisioning is hidden, a returned runtime's newest operation is
      neither a removal nor a suspension nor an unfinished provisioning or unsuspension. */
  lemma NeverResolvesGone(m: Matcher, cache: Cache, wanted: seq<Target>, unwanted: seq<Target>, shoots: seq<Shoot>,
                          id: string, newest: R.Operation)
    requires Readable(cache) && Keyed(cache)
    requires id in Ids(ResolveSpec(m, cache, wanted, unwanted, shoots)) && id in cache
    requires R.WellListed(cache[id].status) && !R.ProvisioningHidden(cache[id].status)
    requires R.IsNewest(cache[id].status, newest)
    requires DistinctTimes(cache[id].status)
    ensures !Skipped(newest)
  {
    ResolveIds(m, cache, wanted, unwanted, shoots, id);
    R.LastOperationIsNewest(cache[id].status, newest);
    assert newest == R.LastOperation(cache[id].status);
  }

  // ----- the cache -----

  function Synced(cache: Cache, listed: seq<R.RuntimeDTO>): Cache {
    if listed == [] then cache
    else
      var n := |listed| - 1;
      Synced(cache, listed[..n])[listed[n].runtimeID := listed[n]]
  }

  function SyncedAll(cache: Cache, listings: seq<seq<R.RuntimeDTO>>): Cache {
    if listings == [] then cache
    else Synced(SyncedAll(cache, listings[..|listings| - 1]), listings[|listings| - 1])
  }

  /** The last entry for an id in a listing. */
  function LastIn(listed: seq<R.RuntimeDTO>, id: string): Option<R.RuntimeDTO> {
    if listed == [] then None
    else
      var n := |listed| - 1;
      if listed[n].runtimeID == id then Some(listed[n]) else LastIn(listed[..n], id)
  }

  /** The entry for an id that was listed last over several listings. */
  function LastListed(listings: seq<seq<R.RuntimeDTO>>, id: string): Option<R.RuntimeDTO> {
    if listings == [] then None
    else FirstOf(LastIn(listings[|listings| - 1], id), LastListed(listings[..|listings| - 1], id))
  }

  function Get(cache: Cache, id: string): Option<R.RuntimeDTO> {
    if id in cache then Some(cache[id]) else None
  }

  lemma {:induction false} SyncedHolds(cache: Cache, listed: seq<R.RuntimeDTO>, id: string)
    ensures Get(Synced(cache, listed), id) == FirstOf(LastIn(listed, id), Get(cache, id))
  {
    if listed != [] {
      SyncedHolds(cache, listed[..|listed| - 1], id);
    }
  }

  /** After any sequence of syncs the cache holds, for each id, the entry listed last, if any was. */
  lemma {:induction false} CacheHoldsLastListed(listings: seq<seq<R.RuntimeDTO>>, id: string)
    ensures Get(SyncedAll(map[], listings), id) == LastListed(listings, id)
  {
    if listings != [] {
      var n := |listings| - 1;
      CacheHoldsLastListed(listings[..n], id);
      SyncedHolds(SyncedAll(map[], listings[..n]), listings[n], id);
    }
  }

  lemma {:induction false} SyncKeepsKeys(cache: Cache, listed: seq<R.RuntimeDTO>)
    requires Keyed(cache)
    ensures Keyed(Synced(cache, listed))
  {
    if listed != [] {
      SyncKeepsKeys(cache, listed[..|listed| - 1]);
    }
  }

  // ----- the resolver object -----

  class GardenerRuntimeResolver {
    const matcher: Matcher
    var runtimes: Cache

    ghost predicate Valid()
      reads this
    {
      Keyed(runtimes)
    }

    constructor (matcher: Matcher)
      ensures Valid() && this.matcher == matcher && runtimes == map[]
    {
      this.matcher := matcher;
      runtimes := map[];
    }

    method SyncRuntimeOperations(listed: seq<R.RuntimeDTO>)
      requires Valid()
      modifies this
      ensures Valid() && runtimes == Synced(old(runtimes), listed)
    {
      for i := 0 to |listed|
        invariant runtimes == Synced(old(runtimes), listed[..i])
      {
        assert listed[..i + 1][..i] == listed[..i];
        runtimes := runtimes[listed[i].runtimeID := listed[i]];
      }
      assert listed[..|listed|] == listed;
      SyncKeepsKeys(old(runtimes), listed);
    }

    /** The checks made on one shoot, in the source's order. */
    method Evaluate(t: Target, s: Shoot) returns (selected: bool)
      requires Readable(runtimes)
      ensures selected == Selects(matcher, runtimes, t, s)
      ensures selected <==> InService(runtimes, s) && MeetsTarget(matcher, t, s, runtimes[s.runtimeID])
    {
      if s.runtimeID == "" {
        return false;
      }
      if s.runtimeID !in runtimes {
        return false;
      }
      var r := runtimes[s.runtimeID];
      var op := R.ComputeLastOperation(r.status);
      if Skipped(op) {
        return false;
      }
      if s.windowBegin.None? || s.windowEnd.None? {
        return false;
      }
      if t.runtimeID != "" {
        return t.runtimeID == s.runtimeID;
      }
      if t.instanceID != "" && t.instanceID != r.instanceID {
        return false;
      }
      if t.shoot != "" && t.shoot != s.name {
        return false;
      }
      if t.planName != "" && t.planName != r.planName {
        return false;
      }
      if t.globalAccount != "" && matcher(t.globalAccount, s.account) != Some(true) {
        return false;
      }
      if t.subAccount != "" && matcher(t.subAccount, s.subAccount) != Some(true) {
        return false;
      }
      if t.region != "" && matcher(t.region, s.region) != Some(true) {
        return false;
      }
      return t.target == "" || t.target == TARGET_ALL;
    }

    method ResolveRuntimeTarget(t: Target, shoots: seq<Shoot>) returns (result: seq<Runtime>)
      requires Readable(runtimes)
      ensures result == Resolved(matcher, runtimes, t, shoots)
      ensures forall r :: r in result <==> ComesFromShoot(matcher, runtimes, t, shoots, r)
    {
      result := [];
      for i := 0 to |shoots|
        invariant result == Resolved(matcher, runtimes, t, shoots[..i])
      {
        assert shoots[..i + 1][..i] == shoots[..i];
        var selected := Evaluate(t, shoots[i]);
        if selected {
          result := result + [ToRuntime(runtimes[shoots[i].runtimeID], shoots[i])];
        }
      }
      assert shoots[..|shoots|] == shoots;
      forall r
        ensures r in result <==> ComesFromShoot(matcher, runtimes, t, shoots, r)
      {
        ResolvedExactly(matcher, runtimes, t, shoots, r);
      }
    }

    /** Collects the ids of the excluded runtimes. */
    method Excluded(unwanted: seq<Target>, shoots: seq<Shoot>) returns (excluded: set<string>)
      requires Readable(runtimes)
      ensures excluded == Ids(ResolvedAll(matcher, runtimes, unwanted, shoots))
    {
      excluded := {};
      for i := 0 to |unwanted|
        invariant excluded == Ids(ResolvedAll(matcher, runtimes, unwanted[..i], shoots))
      {
        assert unwanted[..i + 1][..i] == unwanted[..i];
        var rs := ResolveRuntimeTarget(unwanted[i], shoots);
        excluded := excluded + Ids(rs);
      }
      assert unwanted[..|unwanted|] == unwanted;
    }

    /** Appends the runtimes of one include target that are neither excluded nor already included. */
    method AddNew(rs: seq<Runtime>, ghost before: seq<Runtime>, excluded: set<string>, result: seq<Runtime>,
                  included: set<string>) returns (result': seq<Runtime>, included': set<string>)
      requires result == Unique(before, excluded) && included == Ids(result)
      ensures result' == Unique(before + rs, excluded) && included' == Ids(result')
    {
      result', included' := result, included;
      assert before + rs[..0] == before;
      for i := 0 to |rs|
        invariant result' == Unique(before + rs[..i], excluded) && included' == Ids(result')
      {
        assert before + rs[..i + 1] == (before + rs[..i]) + [rs[i]];
        UniqueStep(before + rs[..i], rs[i], excluded);
        if rs[i].runtimeID !in excluded && rs[i].runtimeID !in included' {
          included' := included' + {rs[i].runtimeID};
          result' := result' + [rs[i]];
        }
      }
      assert rs[..|rs|] == rs;
    }

    /** None stands for a failed listing of the shoots or of the runtimes. */
    method Resolve(wanted: seq<Target>, unwanted: seq<Target>, shootList: Option<seq<Shoot>>,
                   runtimeList: Option<seq<R.RuntimeDTO>>) returns (result: Option<seq<Runtime>>)
      requires Valid() && (runtimeList.Some? ==> Readable(Synced(runtimes, runtimeList.value)))
      modifies this
      ensures Valid()
      ensures result.None? <==> shootList.None? || runtimeList.None?
      ensures result.None? ==> runtimes == old(runtimes)
      ensures result.Some? ==>
                && runtimes == Synced(old(runtimes), runtimeList.value)
                && result.value == ResolveSpec(matcher, runtimes, wanted, unwanted, shootList.value)
                && NoDuplicates(result.value)
    {
      if shootList.None? || runtimeList.None? {
        return None;
      }
      var shoots := shootList.value;
      SyncRuntimeOperations(runtimeList.value);
      var excluded := Excluded(unwanted, shoots);
      var included: set<string> := {};
      var found: seq<Runtime> := [];
      for i := 0 to |wanted|
        invariant runtimes == Synced(old(runtimes), runtimeList.value)
        invariant found == Unique(ResolvedAll(matcher, runtimes, wanted[..i], shoots), excluded)
        invariant included == Ids(found)
      {
        assert wanted[..i + 1][..i] == wanted[..i];
        var rs := ResolveRuntimeTarget(wanted[i], shoots);
        found, included := AddNew(rs, ResolvedAll(matcher, runtimes, wanted[..i], shoots), excluded, found, included);
      }
      assert wanted[..|wanted|] == wanted;
      UniqueHasNoDuplicates(ResolvedAll(matcher, runtimes, wanted, shoots), excluded);
      result := Some(found);
    }
  }
}
