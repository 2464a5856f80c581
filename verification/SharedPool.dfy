/**
 The pool of shared secret bindings (common/hyperscaler/shared_pool.go): each request is given the binding
 that the fewest shoots use.
 */
module SharedPool {
  import opened Wrappers
  import opened Counting
  import A = AccountPool

  /** The number of shoots that use a binding. */
  function Usage(shoots: seq<string>, name: string): nat {
    if shoots == [] then 0
    else Usage(shoots[..|shoots| - 1], name) + if shoots[|shoots| - 1] == name then 1 else 0
  }

  /** `i` is the first binding of minimal usage. */
  ghost predicate FirstLeastUsed(bindings: seq<string>, shoots: seq<string>, i: nat) {
    && i < |bindings|
    && (forall j :: 0 <= j < |bindings| ==> Usage(shoots, bindings[i]) <= Usage(shoots, bindings[j]))
    && (forall j :: 0 <= j < i ==> Usage(shoots, bindings[i]) < Usage(shoots, bindings[j]))
  }

  /** Counts the shoots of every listed binding; shoots of other bindings are skipped. */
  method CountUsage(bindings: seq<string>, shoots: seq<string>) returns (count: map<string, nat>)
    ensures forall b :: b in bindings ==> b in count && count[b] == Usage(shoots, b)
  {
    count := map[];
    for i := 0 to |bindings|
      invariant forall b :: b in count <==> b in bindings[..i]
      invariant forall b :: b in count ==> count[b] == 0
    {
      count := count[bindings[i] := 0];
    }
    for i := 0 to |shoots|
      invariant forall b :: b in count <==> b in bindings
      invariant forall b :: b in count ==> count[b] == Usage(shoots[..i], b)
    {
      assert shoots[..i + 1][..i] == shoots[..i];
      var s := shoots[i];
      if s in count {
        count := count[s := count[s] + 1];
      }
    }
    assert shoots[..|shoots|] == shoots;
  }

  /** Returns the position of the chosen binding. With no shoots at all the first binding is returned at once. */
  method GetLeastUsed(bindings: seq<string>, shoots: seq<string>) returns (minIndex: nat)
    requires bindings != []
    ensures FirstLeastUsed(bindings, shoots, minIndex)
  {
    if shoots == [] {
      return 0;
    }
    var count := CountUsage(bindings, shoots);
    var min := count[bindings[0]];
    minIndex := 0;
    for i := 0 to |bindings|
      invariant minIndex < |bindings| && min == count[bindings[minIndex]]
      invariant forall j :: 0 <= j < i ==> min <= count[bindings[j]]
      invariant forall j :: 0 <= j < minIndex ==> min < count[bindings[j]]
    {
      if count[bindings[i]] < min {
        min := count[bindings[i]];
        minIndex := i;
      }
    }
  }

  /** The names of the shared bindings of a hyperscaler type, as listed. */
  function Listed(bs: seq<A.Binding>, kind: string): seq<string> {
    if bs == [] then []
    else
      var n := |bs| - 1;
      Listed(bs[..n], kind) +
      if A.Has(bs[n], A.Shared, "true") && A.Has(bs[n], A.HyperscalerType, kind) then [bs[n].name] else []
  }

  /** The binding meets the selector `shared=true,hyperscalerType=kind`. */
  ghost predicate IsShared(b: A.Binding, kind: string) {
    A.Meets(b, A.Is(A.Shared, "true")) && A.Meets(b, A.Is(A.HyperscalerType, kind))
  }

  /** `names` are those of the bindings at positions `at`, in order: the shared ones of the type and no others. */
  ghost predicate ListsShared(bs: seq<A.Binding>, kind: string, names: seq<string>, at: seq<nat>) {
    && |at| == |names|
    && (forall i :: 0 <= i < |at| ==> at[i] < |bs| && IsShared(bs[at[i]], kind) && names[i] == bs[at[i]].name)
    && (forall i, j :: 0 <= i < j < |at| ==> at[i] < at[j])
    && (forall n: nat :: n < |bs| && IsShared(bs[n], kind) ==> n in at)
  }

  lemma {:induction false} ListedExactly(bs: seq<A.Binding>, kind: string) returns (at: seq<nat>)
    ensures ListsShared(bs, kind, Listed(bs, kind), at)
  {
    at := [];
    if bs != [] {
      var n := |bs| - 1;
      at := ListedExactly(bs[..n], kind);
      assert bs == bs[..n] + [bs[n]];
      if IsShared(bs[n], kind) {
        ListOneMore(bs[..n], bs[n], kind, Listed(bs[..n], kind), at);
        at := at + [n];
      } else {
        ListSkips(bs[..n], bs[n], kind, Listed(bs[..n], kind), at);
      }
    }
  }

  lemma ListOneMore(bs: seq<A.Binding>, b: A.Binding, kind: string, names: seq<string>, at: seq<nat>)
    requires ListsShared(bs, kind, names, at) && IsShared(b, kind)
    ensures ListsShared(bs + [b], kind, names + [b.name], at + [|bs|])
  {
    var at' := at + [|bs|];
    forall n: nat | n < |bs + [b]| && IsShared((bs + [b])[n], kind)
      ensures n in at'
    {
      if n == |bs| {
        assert at'[|at|] == n;
      } else {
        assert n in at;
      }
    }
  }

  lemma ListSkips(bs: seq<A.Binding>, b: A.Binding, kind: string, names: seq<string>, at: seq<nat>)
    requires ListsShared(bs, kind, names, at) && !IsShared(b, kind)
    ensures ListsShared(bs + [b], kind, names, at)
  {
  }

  /** The least used shared binding of the type, whatever the EU access flag; an error when there is none. */
  method SharedCredentialsSecretBinding(bs: seq<A.Binding>, shoots: seq<string>, kind: string, euAccess: bool)
    returns (r: Option<string>)
    ensures r.None? <==> Listed(bs, kind) == []
    ensures r.None? <==> forall b :: b in bs ==> !IsShared(b, kind)
    ensures r.Some? ==> exists i: nat :: FirstLeastUsed(Listed(bs, kind), shoots, i) && r.value == Listed(bs, kind)[i]
  {
    var listed := Listed(bs, kind);
    ghost var at := ListedExactly(bs, kind);
    assert listed != [] ==> bs[at[0]] in bs;
    if listed == [] {
      return None;
    }
    var i := GetLeastUsed(listed, shoots);
    r := Some(listed[i]);
  }

  // ----- balance over runs -----

  /** Every two bindings differ by at most d shoots. */
  ghost predicate SpreadWithin(bindings: seq<string>, shoots: seq<string>, d: int) {
    forall i, j :: 0 <= i < |bindings| && 0 <= j < |bindings|
                   ==> Usage(shoots, bindings[i]) - Usage(shoots, bindings[j]) <= d
  }

  /** Each new shoot uses the binding the pool returned, or one the pool does not manage. */
  ghost predicate Fills(bindings: seq<string>, shoots: seq<string>, added: seq<string>)
    decreases |added|
  {
    added != [] ==>
      && (added[0] in bindings ==> exists i: nat :: FirstLeastUsed(bindings, shoots, i) && bindings[i] == added[0])
      && Fills(bindings, shoots + [added[0]], added[1..])
  }

  lemma UsageAppend(shoots: seq<string>, s: string, name: string)
    ensures Usage(shoots + [s], name) == Usage(shoots, name) + if s == name then 1 else 0
  {
    assert (shoots + [s])[..|shoots|] == shoots;
  }

  lemma StepSpread(bindings: seq<string>, shoots: seq<string>, s: string, d: int)
    requires 1 <= d && SpreadWithin(bindings, shoots, d)
    requires s in bindings ==> exists i: nat :: FirstLeastUsed(bindings, shoots, i) && bindings[i] == s
    ensures SpreadWithin(bindings, shoots + [s], d)
  {
    forall i, j | 0 <= i < |bindings| && 0 <= j < |bindings|
      ensures Usage(shoots + [s], bindings[i]) - Usage(shoots + [s], bindings[j]) <= d
    {
      UsageAppend(shoots, s, bindings[i]);
      UsageAppend(shoots, s, bindings[j]);
    }
  }

  /** Filling never widens the spread beyond the larger of one and the initial spread. */
  lemma {:induction false} SpreadStaysBounded(bindings: seq<string>, shoots: seq<string>, added: seq<string>, d: int)
    requires SpreadWithin(bindings, shoots, d) && Fills(bindings, shoots, added)
    ensures SpreadWithin(bindings, shoots + added, Max(1, d))
    decreases |added|
  {
    if added == [] {
      assert shoots + added == shoots;
    } else {
      StepSpread(bindings, shoots, added[0], Max(1, d));
      assert shoots + added == (shoots + [added[0]]) + added[1..];
      SpreadStaysBounded(bindings, shoots + [added[0]], added[1..], Max(1, d));
    }
  }

  // ----- an unbalanced pool evens out -----

  /** How many shoots fit below level m: the sum of what each binding lacks to reach m. */
  function Deficit(bindings: seq<string>, shoots: seq<string>, m: nat): int {
    if bindings == [] then 0
    else
      var n := |bindings| - 1;
      Deficit(bindings[..n], shoots, m) + m - Usage(shoots, bindings[n])
  }

  ghost predicate Distinct(bindings: seq<string>) {
    forall i, j :: 0 <= i < j < |bindings| ==> bindings[i] != bindings[j]
  }

  lemma {:induction false} DeficitStep(bindings: seq<string>, shoots: seq<string>, s: string, m: nat)
    requires Distinct(bindings)
    ensures Deficit(bindings, shoots + [s], m) == Deficit(bindings, shoots, m) - if s in bindings then 1 else 0
  {
    if bindings != [] {
      var n := |bindings| - 1;
      DeficitStep(bindings[..n], shoots, s, m);
      UsageAppend(shoots, s, bindings[n]);
      assert bindings == bindings[..n] + [bindings[n]];
    }
  }

  ghost predicate AtMost(bindings: seq<string>, shoots: seq<string>, m: nat) {
    forall i :: 0 <= i < |bindings| ==> Usage(shoots, bindings[i]) <= m
  }

  lemma {:induction false} DeficitNonNegative(bindings: seq<string>, shoots: seq<string>, m: nat)
    requires AtMost(bindings, shoots, m)
    ensures 0 <= Deficit(bindings, shoots, m)
    ensures Deficit(bindings, shoots, m) == 0 ==> forall i :: 0 <= i < |bindings| ==> Usage(shoots, bindings[i]) == m
  {
    if bindings != [] {
      var n := |bindings| - 1;
      assert forall i :: 0 <= i < n ==> bindings[..n][i] == bindings[i];
      DeficitNonNegative(bindings[..n], shoots, m);
    }
  }

  lemma StepAtMost(bindings: seq<string>, shoots: seq<string>, i: nat, m: nat)
    requires AtMost(bindings, shoots, m) && FirstLeastUsed(bindings, shoots, i)
    requires !SpreadWithin(bindings, shoots, 1)
    ensures AtMost(bindings, shoots + [bindings[i]], m)
  {
    var a, b :| 0 <= a < |bindings| && 0 <= b < |bindings|
                && Usage(shoots, bindings[a]) - Usage(shoots, bindings[b]) > 1;
    forall j | 0 <= j < |bindings|
      ensures Usage(shoots + [bindings[i]], bindings[j]) <= m
    {
      UsageAppend(shoots, bindings[i], bindings[j]);
      assert Usage(shoots, bindings[i]) <= Usage(shoots, bindings[b]);
    }
  }

  /** Once as many shoots were placed as fit below the fullest binding, the spread is at most one. */
  lemma {:induction false} PoolEvensOut(bindings: seq<string>, shoots: seq<string>, added: seq<string>, m: nat)
    requires Distinct(bindings) && AtMost(bindings, shoots, m) && Fills(bindings, shoots, added)
    requires forall k :: 0 <= k < |added| ==> added[k] in bindings
    requires Deficit(bindings, shoots, m) <= |added|
    ensures SpreadWithin(bindings, shoots + added, 1)
    decreases |added|
  {
    DeficitNonNegative(bindings, shoots, m);
    if SpreadWithin(bindings, shoots, 1) {
      SpreadStaysBounded(bindings, shoots, added, 1);
    } else {
      assert added != [];
      assert added[0] in bindings;
      var i: nat :| FirstLeastUsed(bindings, shoots, i) && bindings[i] == added[0];
      StepAtMost(bindings, shoots, i, m);
      DeficitStep(bindings, shoots, added[0], m);
      assert shoots + added == (shoots + [added[0]]) + added[1..];
      PoolEvensOut(bindings, shoots + [added[0]], added[1..], m);
    }
  }
}
