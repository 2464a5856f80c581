/**
 Removing machine names from a list in place while ranging over it (internal/broker/plans.go). Go fixes the number
 of iterations at the start but reads each element when its turn comes, from the array that is being shifted.
 */
module MachineList {
  import opened Wrappers

  /** How often a name is listed for removal. */
  function Times(name: string, remove: seq<string>): (n: nat)
    ensures n <= |remove|
    ensures n > 0 <==> name in remove
  {
    if remove == [] then 0
    else Times(name, remove[..|remove| - 1]) + if remove[|remove| - 1] == name then 1 else 0
  }

  /** What the removal is for: the names that are not to be removed. */
  function Filter(names: seq<string>, remove: seq<string>): seq<string> {
    if names == [] then []
    else (if names[0] in remove then [] else [names[0]]) + Filter(names[1..], remove)
  }

  /**
   What the loop leaves of `names`: a name listed c times takes c elements out, and the element that moves up to its
   place is passed over unexamined. None stands for a slice bounds panic.
   */
  function Swept(names: seq<string>, remove: seq<string>): Option<seq<string>>
    decreases |names|
  {
    if names == [] then Some([])
    else
      var c := Times(names[0], remove);
      if c > |names| then None
      else if c == |names| then Some([])
      else
        var rest := Swept(names[c + 1..], remove);
        if rest.None? then None else Some([names[c]] + rest.value)
  }

  /** With the empty name listed for removal, the cleared cells at the end of a shortened list match it. */
  predicate HitsCleared(names: seq<string>, remove: seq<string>) {
    "" in remove && exists i :: 0 <= i < |names| - 1 && names[i] in remove
  }

  function Removed(names: seq<string>, remove: seq<string>): Option<seq<string>> {
    if HitsCleared(names, remove) then None else Swept(names, remove)
  }

  // ----- the loop -----

  /** The sequence without the c elements from position i on. */
  function Cut(s: seq<string>, i: nat, c: nat): seq<string>
    requires i + c <= |s|
  {
    s[..i] + s[i + c..]
  }

  lemma CutOneMore(s: seq<string>, i: nat, c: nat)
    requires i + c < |s|
    ensures Cut(Cut(s, i, c), i, 1) == Cut(s, i, c + 1)
  {
  }

  /** The cells from position len on are cleared. */
  ghost predicate ClearedFrom(s: seq<string>, len: nat) {
    forall k :: len <= k < |s| ==> s[k] == ""
  }

  /** Shifts the element at position i out and clears the last cell. */
  method ShiftOut(a: array<string>, i: nat, len: nat)
    requires i < len <= a.Length && ClearedFrom(a[..], len)
    modifies a
    ensures a[..len - 1] == Cut(old(a[..len]), i, 1) && ClearedFrom(a[..], len - 1)
  {
    ghost var before := a[..];
    var j := i;
    while j < len - 1
      invariant i <= j <= len - 1
      invariant forall k :: 0 <= k < i || j <= k < a.Length ==> a[k] == before[k]
      invariant forall k :: i <= k < j ==> a[k] == before[k + 1]
    {
      a[j] := a[j + 1];
      j := j + 1;
    }
    a[len - 1] := "";
    ShiftedIsCut(before, a[..], i, len);
    assert a[..][..len - 1] == a[..len - 1] && before[..len] == old(a[..len]);
  }

  lemma ShiftedIsCut(before: seq<string>, after: seq<string>, i: nat, len: nat)
    requires i < len <= |before| == |after| && ClearedFrom(before, len) && after[len - 1] == ""
    requires forall k :: 0 <= k < i || len <= k < |after| ==> after[k] == before[k]
    requires forall k :: i <= k < len - 1 ==> after[k] == before[k + 1]
    ensures after[..len - 1] == Cut(before[..len], i, 1) && ClearedFrom(after, len - 1)
  {
  }

  /** The inner loop: the name read at position i takes out as many elements as it is listed. */
  method RemoveAt(a: array<string>, i: nat, len: nat, name: string, remove: seq<string>)
    returns (len': nat, ok: bool)
    requires len <= a.Length && ClearedFrom(a[..], len)
    modifies a
    ensures ok <==> name !in remove || i + Times(name, remove) <= len
    ensures ok ==> len' == len - Times(name, remove) && ClearedFrom(a[..], len')
    ensures ok && name !in remove ==> a[..] == old(a[..])
    ensures ok && name in remove ==> a[..len'] == Cut(old(a[..len]), i, Times(name, remove))
  {
    len', ok := len, true;
    ghost var whole, before := a[..], a[..len];
    ghost var c := 0;
    for n := 0 to |remove|
      invariant c == Times(name, remove[..n]) && len' == len - c && ClearedFrom(a[..], len')
      invariant c == 0 ==> a[..] == whole
      invariant c > 0 ==> i <= len' && a[..len'] == Cut(before, i, c)
    {
      assert remove[..n + 1][..n] == remove[..n];
      if name == remove[n] {
        if i >= len' {
          TimesGrows(name, remove, n + 1);
          return len', false;
        }
        assert a[..len'] == Cut(before, i, c);
        CutOneMore(before, i, c);
        ShiftOut(a, i, len');
        len', c := len' - 1, c + 1;
      }
    }
    assert remove[..|remove|] == remove;
  }

  lemma {:induction false} TimesGrows(name: string, remove: seq<string>, n: nat)
    requires n <= |remove|
    ensures Times(name, remove[..n]) <= Times(name, remove)
  {
    if n == |remove| {
      assert remove[..n] == remove;
    } else {
      assert remove[..|remove| - 1][..n] == remove[..n];
      TimesGrows(name, remove[..|remove| - 1], n);
    }
  }

  /** The part swept so far, followed by what sweeping the rest yields. */
  function Resume(s: seq<string>, i: nat, remove: seq<string>): Option<seq<string>> {
    if i >= |s| then Some(s)
    else
      var rest := Swept(s[i..], remove);
      if rest.None? then None else Some(s[..i] + rest.value)
  }

  lemma ResumeStart(s: seq<string>, remove: seq<string>)
    ensures Resume(s, 0, remove) == Swept(s, remove)
  {
    assert s[0..] == s;
    var rest := Swept(s, remove);
    assert rest.Some? ==> s[..0] + rest.value == rest.value;
  }

  /** One iteration at position i of the list s. */
  lemma ResumeStep(s: seq<string>, i: nat, remove: seq<string>)
    requires i < |s|
    ensures var c := Times(s[i], remove);
            Resume(s, i, remove) == if i + c > |s| then None else Resume(Cut(s, i, c), i + 1, remove)
  {
    var c := Times(s[i], remove);
    var t := s[i..];
    if i + c < |s| {
      var s', rest := Cut(s, i, c), Swept(t[c + 1..], remove);
      assert s'[i + 1..] == t[c + 1..];
      assert s'[..i + 1] == s[..i] + [t[c]];
      if rest.Some? {
        assert s[..i] + ([t[c]] + rest.value) == s'[..i + 1] + rest.value;
        assert i + 1 == |s'| ==> rest.value == [] && s'[..i + 1] + rest.value == s';
      }
    } else if i + c == |s| {
      assert Cut(s, i, c) == s[..i];
      assert s[..i] + [] == s[..i];
    }
  }

  /** Some removal has happened before position i exactly when one of the first i names is listed. */
  ghost predicate Progress(names: seq<string>, remove: seq<string>, i: nat, len: nat) {
    && i <= |names|
    && (len == |names| ==> forall k :: 0 <= k < i ==> names[k] !in remove)
    && (len != |names| ==> exists k :: 0 <= k < i && names[k] in remove)
  }

  /** One iteration of the outer loop. */
  method Iterate(a: array<string>, i: nat, len: nat, remove: seq<string>, ghost names: seq<string>)
    returns (len': nat, ok: bool)
    requires i < a.Length == |names| && len <= a.Length && ClearedFrom(a[..], len)
    requires len == a.Length ==> a[..] == names
    requires Progress(names, remove, i, len)
    modifies a
    ensures ok ==> len' <= a.Length && ClearedFrom(a[..], len') && (len' == a.Length ==> a[..] == names)
    ensures ok ==> Progress(names, remove, i + 1, len')
    ensures ok ==> Resume(a[..len'], i + 1, remove) == Resume(old(a[..len]), i, remove)
    ensures ok && "" in remove ==> i < len
    ensures !ok ==> HitsCleared(names, remove) || Resume(old(a[..len]), i, remove).None?
  {
    var name := a[i];
    ghost var s := a[..len];
    if i < len {
      assert s[i] == name;
      ResumeStep(s, i, remove);
      assert Cut(s, i, 0) == s;
    }
    len', ok := RemoveAt(a, i, len, name, remove);
    if ok && name !in remove {
      assert a[..len'] == s;
    }
    if ok && len == a.Length && name in remove {
      assert names[i] in remove;
    }
  }

  /** Removes in place and returns the new length; ok is false for a slice bounds panic. */
  method RemoveMachineNames(a: array<string>, remove: seq<string>) returns (len: nat, ok: bool)
    modifies a
    ensures ok ==> len <= a.Length && ClearedFrom(a[..], len)
    ensures Removed(old(a[..]), remove) == if ok then Some(a[..len]) else None
  {
    len, ok := a.Length, true;
    ghost var names := a[..];
    assert a[..len] == names;
    ResumeStart(names, remove);
    for i := 0 to a.Length
      invariant len <= a.Length && ClearedFrom(a[..], len) && (len == a.Length ==> a[..] == names)
      invariant Progress(names, remove, i, len)
      invariant Resume(a[..len], i, remove) == Swept(names, remove)
      invariant ok && ("" in remove && i == a.Length ==> forall k :: 0 <= k < i - 1 ==> names[k] !in remove)
    {
      len, ok := Iterate(a, i, len, remove, names);
      if !ok {
        return;
      }
    }
  }

  // ----- when the loop is a filter -----

  predicate AllListed(names: seq<string>, remove: seq<string>) {
    forall k :: 0 <= k < |names| ==> names[k] in remove
  }

  predicate NoneListed(names: seq<string>, remove: seq<string>) {
    forall k :: 0 <= k < |names| ==> names[k] !in remove
  }

  /** A run of listed names begins at i. */
  predicate RunStart(names: seq<string>, remove: seq<string>, i: int) {
    0 <= i < |names| && names[i] in remove && (i == 0 || names[i - 1] !in remove)
  }

  /** The run beginning at i is exactly c names long. */
  predicate RunLength(names: seq<string>, remove: seq<string>, i: nat, c: nat) {
    && i + c <= |names|
    && (forall k :: i <= k < i + c ==> names[k] in remove)
    && (i + c < |names| ==> names[i + c] !in remove)
  }

  /** Every run of listed names is as long as the number of times its first name is listed. */
  ghost predicate RunsMatch(names: seq<string>, remove: seq<string>) {
    forall i :: RunStart(names, remove, i) ==> RunLength(names, remove, i, Times(names[i], remove))
  }

  lemma {:induction false} FilterSplit(a: seq<string>, b: seq<string>, remove: seq<string>)
    ensures Filter(a + b, remove) == Filter(a, remove) + Filter(b, remove)
  {
    if a == [] {
      assert a + b == b;
    } else {
      assert (a + b)[1..] == a[1..] + b;
      FilterSplit(a[1..], b, remove);
    }
  }

  lemma {:induction false} FilterListed(names: seq<string>, remove: seq<string>)
    ensures NoneListed(Filter(names, remove), remove)
    ensures Filter(names, remove) == [] <==> AllListed(names, remove)
  {
    if names != [] {
      FilterListed(names[1..], remove);
      assert names == [names[0]] + names[1..];
    }
  }

  /** A sweep that leaves no listed name leaves at most as much as the filter. */
  lemma {:induction false} SweptAtMost(names: seq<string>, remove: seq<string>)
    requires Swept(names, remove).Some? && NoneListed(Swept(names, remove).value, remove)
    ensures |Swept(names, remove).value| <= |Filter(names, remove)|
    decreases |names|
  {
    if names != [] {
      var c := Times(names[0], remove);
      if c < |names| {
        var t := Swept(names, remove).value;
        var rest := Swept(names[c + 1..], remove).value;
        assert t == [names[c]] + rest && t[0] == names[c] && forall k :: 0 <= k < |rest| ==> rest[k] == t[k + 1];
        SweptAtMost(names[c + 1..], remove);
        SplitAt(names, remove, c);
      }
    }
  }

  /** The filter around position c. */
  lemma SplitAt(names: seq<string>, remove: seq<string>, c: nat)
    requires c < |names|
    ensures Filter(names, remove) == Filter(names[..c], remove)
                                     + (if names[c] in remove then [] else [names[c]])
                                     + Filter(names[c + 1..], remove)
  {
    assert names == names[..c] + names[c..];
    FilterSplit(names[..c], names[c..], remove);
    assert names[c..][1..] == names[c + 1..];
  }

  /** If the first run matches, the rest decides whether the sweep is the filter. */
  lemma SweptFrontMatching(names: seq<string>, remove: seq<string>, c: nat)
    requires names != [] && c == Times(names[0], remove) < |names| && RunLength(names, remove, 0, c)
    ensures Swept(names, remove) == Some(Filter(names, remove))
            <==> Swept(names[c + 1..], remove) == Some(Filter(names[c + 1..], remove))
  {
    var rest, kept := Swept(names[c + 1..], remove), Filter(names[c + 1..], remove);
    SplitAt(names, remove, c);
    FilterListed(names[..c], remove);
    assert Filter(names, remove) == [names[c]] + kept;
    if rest.Some? && [names[c]] + rest.value == [names[c]] + kept {
      assert rest.value == ([names[c]] + rest.value)[1..] == ([names[c]] + kept)[1..] == kept;
    }
  }

  /** A sweep that is the filter took out listed names only, and the name it passed over is unlisted. */
  lemma SweptFrontNeeds(names: seq<string>, remove: seq<string>, c: nat)
    requires names != [] && c == Times(names[0], remove) < |names|
    requires Swept(names, remove) == Some(Filter(names, remove))
    ensures RunLength(names, remove, 0, c)
  {
    PassedUnlisted(names, remove, c);
    SweptAtMost(names[c + 1..], remove);
    SplitAt(names, remove, c);
    assert Filter(names[..c], remove) == [];
    FilterListed(names[..c], remove);
    assert forall k :: 0 <= k < c ==> names[..c][k] == names[k];
  }

  lemma PassedUnlisted(names: seq<string>, remove: seq<string>, c: nat)
    requires names != [] && c == Times(names[0], remove) < |names|
    requires Swept(names, remove) == Some(Filter(names, remove))
    ensures names[c] !in remove
    ensures Swept(names[c + 1..], remove).Some? && NoneListed(Swept(names[c + 1..], remove).value, remove)
    ensures |Filter(names, remove)| == |Swept(names[c + 1..], remove).value| + 1
  {
    var rest := Swept(names[c + 1..], remove).value;
    var t := Filter(names, remove);
    assert t == [names[c]] + rest && t[0] == names[c] && forall k :: 0 <= k < |rest| ==> rest[k] == t[k + 1];
    FilterListed(names, remove);
  }

  /** The sweep is the filter exactly when the first run matches and the rest is swept as it is filtered. */
  lemma SweptFront(names: seq<string>, remove: seq<string>)
    requires names != []
    ensures var c := Times(names[0], remove);
            Swept(names, remove) == Some(Filter(names, remove))
            <==> && RunLength(names, remove, 0, c)
                 && (c < |names| ==> Swept(names[c + 1..], remove) == Some(Filter(names[c + 1..], remove)))
  {
    var c := Times(names[0], remove);
    if c == |names| {
      FilterListed(names, remove);
    } else if c < |names| {
      if RunLength(names, remove, 0, c) {
        SweptFrontMatching(names, remove, c);
      } else if Swept(names, remove) == Some(Filter(names, remove)) {
        SweptFrontNeeds(names, remove, c);
      }
    }
  }

  /** Past an unlisted name at position c, the runs of the rest are the later runs of the whole. */
  lemma RunsAfter(names: seq<string>, remove: seq<string>, c: nat, i: nat, n: nat)
    requires c < |names| && names[c] !in remove
    ensures RunStart(names[c + 1..], remove, i) <==> RunStart(names, remove, i + c + 1)
    ensures RunLength(names[c + 1..], remove, i, n) <==> RunLength(names, remove, i + c + 1, n)
  {
    var rest := names[c + 1..];
    if RunLength(rest, remove, i, n) {
      forall k | i + c + 1 <= k < i + c + 1 + n
        ensures names[k] in remove
      {
        assert names[k] == rest[k - c - 1];
      }
    }
  }

  /** Runs match in the whole exactly when the first one does and the rest's runs do. */
  lemma RunsMatchFront(names: seq<string>, remove: seq<string>)
    requires names != []
    ensures var c := Times(names[0], remove);
            RunsMatch(names, remove)
            <==> RunLength(names, remove, 0, c) && (c < |names| ==> RunsMatch(names[c + 1..], remove))
  {
    var c := Times(names[0], remove);
    if RunLength(names, remove, 0, c) {
      if c < |names| {
        RunsMatchRest(names, remove, c);
      } else {
        assert forall i :: RunStart(names, remove, i) ==> i == 0;
      }
    } else if c > 0 {
      assert RunStart(names, remove, 0);
    }
  }

  lemma RunsMatchRest(names: seq<string>, remove: seq<string>, c: nat)
    requires names != [] && c == Times(names[0], remove) < |names| && RunLength(names, remove, 0, c)
    ensures RunsMatch(names, remove) <==> RunsMatch(names[c + 1..], remove)
  {
    var rest := names[c + 1..];
    if RunsMatch(rest, remove) {
      forall j | RunStart(names, remove, j)
        ensures RunLength(names, remove, j, Times(names[j], remove))
      {
        if j > c {
          RunsAfter(names, remove, c, j - c - 1, Times(names[j], remove));
          assert rest[j - c - 1] == names[j];
        }
      }
    }
    if RunsMatch(names, remove) {
      forall i | RunStart(rest, remove, i)
        ensures RunLength(rest, remove, i, Times(rest[i], remove))
      {
        RunsAfter(names, remove, c, i, Times(rest[i], remove));
        assert rest[i] == names[i + c + 1];
      }
    }
  }

  lemma {:induction false} SweptIsFilter(names: seq<string>, remove: seq<string>)
    ensures Swept(names, remove) == Some(Filter(names, remove)) <==> RunsMatch(names, remove)
    decreases |names|
  {
    if names != [] {
      var c := Times(names[0], remove);
      SweptFront(names, remove);
      RunsMatchFront(names, remove);
      if c < |names| {
        SweptIsFilter(names[c + 1..], remove);
      }
    }
  }

  /** For all inputs: the loop filters exactly when every run matches and no cleared cell is hit. */
  lemma RemovalIsFilterExactly(names: seq<string>, remove: seq<string>)
    ensures Removed(names, remove) == Some(Filter(names, remove))
            <==> RunsMatch(names, remove) && !HitsCleared(names, remove)
  {
    SweptIsFilter(names, remove);
  }

  ghost predicate Distinct(s: seq<string>) {
    forall i, j :: 0 <= i < j < |s| ==> s[i] != s[j]
  }

  lemma {:induction false} DistinctTimes(name: string, remove: seq<string>)
    requires Distinct(remove)
    ensures Times(name, remove) <= 1
  {
    if remove != [] {
      var n := |remove| - 1;
      DistinctTimes(name, remove[..n]);
      if remove[n] == name {
        assert forall k :: 0 <= k < n ==> remove[..n][k] == remove[k];
      }
    }
  }

  ghost predicate NoAdjacent(names: seq<string>, remove: seq<string>) {
    forall i :: 0 <= i < |names| - 1 && names[i] in remove ==> names[i + 1] !in remove
  }

  /** For a removal list without duplicates or empty name: exactly when no two listed names are adjacent. */
  lemma DistinctRemovalExactly(names: seq<string>, remove: seq<string>)
    requires Distinct(remove) && "" !in remove
    ensures Removed(names, remove) == Some(Filter(names, remove)) <==> NoAdjacent(names, remove)
  {
    RemovalIsFilterExactly(names, remove);
    forall name
      ensures Times(name, remove) <= 1
    {
      DistinctTimes(name, remove);
    }
    if NoAdjacent(names, remove) {
      forall i | RunStart(names, remove, i)
        ensures RunLength(names, remove, i, Times(names[i], remove))
      {
      }
    }
    if RunsMatch(names, remove) {
      SingleRuns(names, remove);
    }
  }

  lemma SingleRuns(names: seq<string>, remove: seq<string>)
    requires RunsMatch(names, remove) && forall name :: Times(name, remove) <= 1
    ensures NoAdjacent(names, remove)
  {
    forall i | 0 <= i < |names| - 1 && names[i] in remove
      ensures names[i + 1] !in remove
    {
      var j := StartOfRun(names, remove, i);
      assert RunLength(names, remove, j, 1);
    }
  }

  /** The start of the run that position i is in. */
  lemma {:induction false} StartOfRun(names: seq<string>, remove: seq<string>, i: nat) returns (j: nat)
    requires i < |names| && names[i] in remove
    ensures j <= i && RunStart(names, remove, j)
    ensures forall k :: j <= k <= i ==> names[k] in remove
  {
    if i == 0 || names[i - 1] !in remove {
      j := i;
    } else {
      j := StartOfRun(names, remove, i - 1);
    }
  }

  /** Two adjacent listed names: the second one stays. */
  lemma AdjacentNameSurvives(x: string, y: string)
    requires x != y && x != "" && y != ""
    ensures Removed([x, y], [x, y]) == Some([y]) && Filter([x, y], [x, y]) == []
  {
    var names := [x, y];
    DistinctTimes(x, names);
    assert Times(x, names) == 1;
    assert names[2..] == [];
    assert Swept(names, names) == Some([y] + []) && [y] + [] == [y];
    assert "" !in names;
    assert names[0] in names && names[1] in names;
    FilterListed(names, names);
  }

  /** A name listed twice for removal and standing alone at the end: the second removal is out of range. */
  lemma DuplicateOvershoots(x: string)
    requires x != ""
    ensures Removed([x], [x, x]).None? && Filter([x], [x, x]) == []
  {
    assert Times(x, [x, x]) == 2 by {
      assert [x, x][..1] == [x] && [x, x][1..] == [x];
    }
    assert x in [x, x];
    FilterListed([x], [x, x]);
  }
}
