/** MATLAB-style membership test `ismember(a, b)` as `_compute` performs it with
    numpy: `isin`, boolean selection, `unique` with `return_inverse` and
    `return_index`. The composition is proved to give, for every element of `a`
    found in `b`, the lowest index of that value in `b`. Keys are zone ids (ints). */
module KeyAlignment {

  /** Result of `ismember`: the membership mask over `a` and the compressed
      index array (one entry per matched element of `a`). */
  datatype Match = Match(found: seq<bool>, index: seq<nat>)

  predicate StrictlySorted(u: seq<int>) {
    forall i, j :: 0 <= i < j < |u| ==> u[i] < u[j]
  }

  predicate NoDuplicates(s: seq<int>) {
    forall i, j :: 0 <= i < j < |s| ==> s[i] != s[j]
  }

  function CountTrue(mask: seq<bool>): nat {
    if |mask| == 0 then 0
    else CountTrue(mask[..|mask| - 1]) + (if mask[|mask| - 1] then 1 else 0)
  }

  /** `np.isin(a, b)`: entry i holds exactly when a[i] occurs in b. */
  function IsIn(a: seq<int>, b: seq<int>): (mask: seq<bool>)
    ensures |mask| == |a|
    ensures forall i :: 0 <= i < |a| ==> (mask[i] <==> a[i] in b)
  {
    seq(|a|, i requires 0 <= i < |a| => a[i] in b)
  }

  /** Boolean indexing `s[mask]`: the entries of s whose mask entry is true, in order. */
  function Select<T>(s: seq<T>, mask: seq<bool>): (r: seq<T>)
    requires |s| == |mask|
    ensures |r| == CountTrue(mask)
  {
    if |s| == 0 then []
    else Select(s[..|s| - 1], mask[..|s| - 1]) + (if mask[|s| - 1] then [s[|s| - 1]] else [])
  }

  /** The positions where mask is true, increasing. */
  function Positions(mask: seq<bool>): (ps: seq<nat>)
    ensures |ps| == CountTrue(mask)
    ensures forall k :: 0 <= k < |ps| ==> ps[k] < |mask| && mask[ps[k]]
    ensures forall k, l :: 0 <= k < l < |ps| ==> ps[k] < ps[l]
  {
    if |mask| == 0 then []
    else Positions(mask[..|mask| - 1]) + (if mask[|mask| - 1] then [|mask| - 1] else [])
  }

  /** The lowest index of v in b. */
  function FirstIndex(b: seq<int>, v: int): (j: nat)
    requires v in b
    ensures j < |b| && b[j] == v
    ensures forall i :: 0 <= i < j ==> b[i] != v
  {
    if b[0] == v then 0 else 1 + FirstIndex(b[1..], v)
  }

  /** For each value of vs, its lowest index in b. */
  function FirstIndices(b: seq<int>, vs: seq<int>): (r: seq<nat>)
    requires forall v :: v in vs ==> v in b
    ensures |r| == |vs|
    ensures forall t :: 0 <= t < |vs| ==> r[t] == FirstIndex(b, vs[t])
  {
    seq(|vs|, t requires 0 <= t < |vs| => FirstIndex(b, vs[t]))
  }

  /** Insert x into a strictly sorted sequence, keeping it strictly sorted. */
  function Insert(u: seq<int>, x: int): (r: seq<int>)
    requires StrictlySorted(u)
    ensures StrictlySorted(r)
    ensures forall v :: v in r <==> v in u || v == x
  {
    if |u| == 0 then [x]
    else if x < u[0] then [x] + u
    else if x == u[0] then u
    else
      var rest := Insert(u[1..], x);
      assert forall v :: v in u[1..] ==> u[0] < v;
      assert forall i :: 0 <= i < |rest| ==> rest[i] in rest;
      [u[0]] + rest
  }

  /** `np.unique(s)`: the distinct values of s in increasing order. */
  function Unique(s: seq<int>): (u: seq<int>)
    ensures StrictlySorted(u)
    ensures forall v :: v in u <==> v in s
  {
    if |s| == 0 then []
    else
      assert s == s[..|s| - 1] + [s[|s| - 1]];
      Insert(Unique(s[..|s| - 1]), s[|s| - 1])
  }

  /** `ismember(a, b)` with the default method, i.e. `_compute(a, b)`, in
      four stages. The membership mask over a is `IsIn`. The matched
      elements of a, in order, are `Select` of a by that mask. Their distinct
      values, sorted, are `Unique`, and each matched element's position among
      them is `FirstIndices`. The lowest position in b of each of those
      distinct values is `CommonIndex`, taken from the first-occurrence
      indices of b's own distinct values (`SelectedFirstIndices`); looking
      each matched element up there is `Gather`, and the whole index stage
      is `MatchIndex`. The result: which elements of a occur in b, and for
      each matched element the lowest position of its value in b, so that
      a[mask] == b[index] element-wise. */
  function IsMember(a: seq<int>, b: seq<int>): (m: Match)
    ensures |m.found| == |a|
    ensures forall i :: 0 <= i < |a| ==> (m.found[i] <==> a[i] in b)
    ensures |m.index| == CountTrue(m.found)
    ensures forall k :: 0 <= k < |m.index| ==>
              m.index[k] < |b| && b[m.index[k]] == Select(a, m.found)[k]
    ensures forall k, j :: 0 <= k < |m.index| && 0 <= j < m.index[k] ==> b[j] != b[m.index[k]]
  {
    MatchIndexFirst(a, b);
    Match(IsIn(a, b), MatchIndex(a, b))
  }

  /** `common_ind[common_inv]`: for each matched element of a, in order, the
      lowest index of its value in b. */
  function MatchIndex(a: seq<int>, b: seq<int>): (index: seq<nat>)
    ensures |index| == CountTrue(IsIn(a, b))
    ensures forall k :: 0 <= k < |index| ==>
              Select(a, IsIn(a, b))[k] in b && index[k] == FirstIndex(b, Select(a, IsIn(a, b))[k])
  {
    SelectIsInMembers(a, b);
    Gather(b, Select(a, IsIn(a, b)))
  }

  /** Every entry of the index array is the lowest position in b of the
      matched element it stands for. */
  lemma MatchIndexFirst(a: seq<int>, b: seq<int>)
    ensures forall k :: 0 <= k < |MatchIndex(a, b)| ==>
              MatchIndex(a, b)[k] < |b| && b[MatchIndex(a, b)[k]] == Select(a, IsIn(a, b))[k]
    ensures forall k, j :: 0 <= k < |MatchIndex(a, b)| && 0 <= j < MatchIndex(a, b)[k] ==> b[j] != b[MatchIndex(a, b)[k]]
  {
    var index := MatchIndex(a, b);
    var common := Select(a, IsIn(a, b));
    forall k | 0 <= k < |index|
      ensures index[k] < |b| && b[index[k]] == common[k]
      ensures forall j :: 0 <= j < index[k] ==> b[j] != b[index[k]]
    {
      assert index[k] == FirstIndex(b, common[k]);
    }
  }

  /** Every entry of the index array is a position of b. */
  lemma MatchIndexBounds(a: seq<int>, b: seq<int>)
    ensures forall k :: 0 <= k < |MatchIndex(a, b)| ==> MatchIndex(a, b)[k] < |b|
  {
    var index := MatchIndex(a, b);
    forall k | 0 <= k < |index| ensures index[k] < |b| {
      assert index[k] == FirstIndex(b, Select(a, IsIn(a, b))[k]);
    }
  }

  /** `common_ind[common_inv]` for common_unique = unique(common): for each
      value of common, in order, its lowest index in b. */
  function Gather(b: seq<int>, common: seq<int>): (index: seq<nat>)
    requires forall v :: v in common ==> v in b
    ensures |index| == |common|
    ensures forall k :: 0 <= k < |common| ==> index[k] == FirstIndex(b, common[k])
  {
    var commonUnique := Unique(common);
    var commonInv := FirstIndices(commonUnique, common);
    var commonInd := CommonIndex(b, commonUnique);
    seq(|common|, k requires 0 <= k < |common| => commonInd[commonInv[k]])
  }

  /** `b_ind[isin(b_unique, common_unique)]`: the lowest index in b of each
      value of cu, a sorted sequence of values that occur in b. */
  function CommonIndex(b: seq<int>, cu: seq<int>): (r: seq<nat>)
    requires StrictlySorted(cu)
    requires forall v :: v in cu ==> v in b
    ensures |r| == |cu|
    ensures forall p :: 0 <= p < |cu| ==> r[p] == FirstIndex(b, cu[p])
  {
    var bUnique := Unique(b);
    var bInd := FirstIndices(b, bUnique);
    SelectedFirstIndices(b, cu);
    Select(bInd, IsIn(bUnique, cu))
  }

  /** Entry k of the index array is the first position in b of the k-th
      matched element of a. */
  lemma IsMemberFirstIndex(a: seq<int>, b: seq<int>, k: nat)
    requires k < |IsMember(a, b).index|
    ensures IsMember(a, b).found == IsIn(a, b)
    ensures Select(a, IsIn(a, b))[k] in b
    ensures IsMember(a, b).index[k] == FirstIndex(b, Select(a, IsIn(a, b))[k])
  {
  }

  /** Selection commutes with indexing: the k-th selected entry is s at the
      k-th true position. */
  lemma {:induction false} SelectAt<T>(s: seq<T>, mask: seq<bool>, k: nat)
    requires |s| == |mask| && k < CountTrue(mask)
    ensures Select(s, mask)[k] == s[Positions(mask)[k]]
  {
    var n := |s| - 1;
    if k < CountTrue(mask[..n]) {
      SelectAt(s[..n], mask[..n], k);
    }
  }

  /** Selecting from s with isin(s, c) keeps exactly the values common to s and c. */
  lemma {:induction false} SelectIsInMembers(s: seq<int>, c: seq<int>)
    ensures forall v :: v in Select(s, IsIn(s, c)) <==> v in s && v in c
  {
    if |s| > 0 {
      var n := |s| - 1;
      assert IsIn(s, c)[..n] == IsIn(s[..n], c);
      SelectIsInMembers(s[..n], c);
      assert s == s[..n] + [s[n]];
    }
  }

  lemma SelectSorted(s: seq<int>, mask: seq<bool>)
    requires |s| == |mask| && StrictlySorted(s)
    ensures StrictlySorted(Select(s, mask))
  {
    var r := Select(s, mask);
    forall p, q | 0 <= p < q < |r| ensures r[p] < r[q] {
      SelectAt(s, mask, p);
      SelectAt(s, mask, q);
    }
  }

  /** A strictly sorted sequence is determined by its set of values. */
  lemma {:induction false} SortedUnique(x: seq<int>, y: seq<int>)
    requires StrictlySorted(x) && StrictlySorted(y)
    requires forall v :: v in x <==> v in y
    ensures x == y
  {
    if |x| == 0 {
      if |y| > 0 { HeadIsMember(y); assert false; }
    } else {
      assert x[0] in x;
      assert x[0] in y;
      if |y| == 0 { assert false; }
      assert y[0] in y;
      assert y[0] in x;
      assert x[0] == y[0];
      forall v ensures v in x[1..] <==> v in y[1..] {
        if v in x[1..] { assert v in y; assert v != y[0]; }
        if v in y[1..] { assert v in x; assert v != x[0]; }
      }
      SortedUnique(x[1..], y[1..]);
      assert x == [x[0]] + x[1..];
      assert y == [y[0]] + y[1..];
    }
  }

  lemma HeadIsMember(s: seq<int>)
    requires |s| > 0
    ensures s[0] in s
  {
  }

  /** The `common_ind` stage: selecting the first-occurrence indices of
      unique(b) with isin(unique(b), cu) gives, position by position, the
      first index in b of each value of cu, when cu is sorted and within b. */
  lemma SelectedFirstIndices(b: seq<int>, cu: seq<int>)
    requires StrictlySorted(cu)
    requires forall v :: v in cu ==> v in b
    ensures var bu := Unique(b);
            var sel := Select(FirstIndices(b, bu), IsIn(bu, cu));
            |sel| == |cu| && forall p :: 0 <= p < |cu| ==> sel[p] == FirstIndex(b, cu[p])
  {
    var bu := Unique(b);
    var keep := IsIn(bu, cu);
    var bInd := FirstIndices(b, bu);
    SelectIsInMembers(bu, cu);
    SelectSorted(bu, keep);
    SortedUnique(Select(bu, keep), cu);
    forall p | 0 <= p < |cu| ensures Select(bInd, keep)[p] == FirstIndex(b, cu[p]) {
      SelectAt(bInd, keep, p);
      SelectAt(bu, keep, p);
    }
  }

  /** On its own matched prefix `a[mask] == b[index]` element-wise, the
      docstring's promise. */
  lemma MatchedPairsAgree(a: seq<int>, b: seq<int>)
    ensures var m := IsMember(a, b);
            Select(a, m.found) == seq(|m.index|, k requires 0 <= k < |m.index| => b[m.index[k]])
  {
  }

  /** Matching a duplicate-free sequence against itself finds every element
      at its own position. */
  lemma SelfMatchIsIdentity(a: seq<int>)
    requires NoDuplicates(a)
    ensures IsMember(a, a).found == seq(|a|, i => true)
    ensures IsMember(a, a).index == seq(|a|, i => i)
  {
    var m := IsMember(a, a);
    forall i | 0 <= i < |a| ensures m.found[i] {
      assert a[i] in a;
    }
    IdentityMatch(a, m);
  }

  lemma IdentityMatch(a: seq<int>, m: Match)
    requires NoDuplicates(a)
    requires |m.found| == |a| && forall i :: 0 <= i < |a| ==> m.found[i]
    requires |m.index| == CountTrue(m.found)
    requires forall k :: 0 <= k < |m.index| ==> m.index[k] < |a| && a[m.index[k]] == Select(a, m.found)[k]
    ensures m.found == seq(|a|, i => true)
    ensures m.index == seq(|a|, i => i)
  {
    var all := seq(|a|, i => true);
    assert m.found == all;
    SelectAllTrue(a);
    CountTrueAll(m.found);
    IdentityIndices(a, m.index);
  }

  /** Indices that point at equal values of a duplicate-free sequence are
      the identity. */
  lemma IdentityIndices(a: seq<int>, index: seq<nat>)
    requires NoDuplicates(a) && |index| == |a|
    requires forall k :: 0 <= k < |a| ==> index[k] < |a| && a[index[k]] == a[k]
    ensures index == seq(|a|, i => i)
  {
  }

  lemma {:induction false} SelectAllTrue(s: seq<int>)
    ensures Select(s, seq(|s|, i => true)) == s
  {
    if |s| > 0 {
      var n := |s| - 1;
      assert seq(|s|, i => true)[..n] == seq(n, i => true);
      SelectAllTrue(s[..n]);
      assert s == s[..n] + [s[n]];
    }
  }

  /** Every element of a that is found is matched: the index array is as long
      as a exactly when all of a occurs in b. */
  lemma {:induction false} CountTrueAll(mask: seq<bool>)
    ensures CountTrue(mask) <= |mask|
    ensures CountTrue(mask) == |mask| <==> forall i :: 0 <= i < |mask| ==> mask[i]
  {
    if |mask| > 0 {
      var n := |mask| - 1;
      CountTrueAll(mask[..n]);
      assert forall i :: 0 <= i < n ==> mask[..n][i] == mask[i];
    }
  }
}
