/** Packed 64-bit edges, sorting, and the merges of sorted lists. */
module EdgeLists {
  import opened Sequences

  const V_RANGE: nat := 0x1_0000_0000
  const U_RANGE: nat := 0x800_0000
  const WORD: nat := 0x1_0000_0000_0000_0000

  function Encode(idx: nat, u: nat, v: nat): nat { (idx * U_RANGE + u) * V_RANGE + v }

  function EdgeIdx(e: nat): nat { e / V_RANGE / U_RANGE }

  function EdgeU(e: nat): nat { e / V_RANGE % U_RANGE }

  function EdgeV(e: nat): nat { e % V_RANGE }

  lemma EncodeRoundTrip(idx: nat, u: nat, v: nat)
    requires u < U_RANGE && v < V_RANGE
    ensures var e := Encode(idx, u, v); EdgeIdx(e) == idx && EdgeU(e) == u && EdgeV(e) == v
    ensures idx < 32 <==> Encode(idx, u, v) < WORD
  {
  }

  lemma DecodeRoundTrip(e: nat)
    ensures Encode(EdgeIdx(e), EdgeU(e), EdgeV(e)) == e
  {
  }

  /** The order of packed edges is the order of their parts. */
  lemma OrderOfParts(d: nat, e: nat)
    requires d <= e
    ensures EdgeIdx(d) <= EdgeIdx(e)
    ensures EdgeIdx(d) == EdgeIdx(e) ==> EdgeU(d) <= EdgeU(e)
    ensures EdgeIdx(d) == EdgeIdx(e) && EdgeU(d) == EdgeU(e) ==> EdgeV(d) <= EdgeV(e)
    ensures EdgeIdx(d) == EdgeIdx(e) && EdgeU(d) == EdgeU(e) && EdgeV(d) == EdgeV(e) ==> d == e
  {
  }

  lemma StrictAppend(r: seq<nat>, x: nat)
    requires Strict(r) && forall y :: y in r ==> y < x
    ensures Strict(r + [x])
  {
    assert forall k :: 0 <= k < |r| ==> r[k] in r;
  }

  /** A strictly ascending list is determined by its elements. */
  lemma StrictIsUnique(a: seq<nat>, b: seq<nat>)
    requires Strict(a) && Strict(b) && Elements(a) == Elements(b)
    ensures a == b
  {
    hide Elements;
    forall x
      ensures x in a <==> x in b
    {
      assert x in a <==> x in Elements(a);
    }
    SameStrict(a, b);
  }

  lemma {:induction false} SameStrict(a: seq<nat>, b: seq<nat>)
    requires Strict(a) && Strict(b) && forall x :: x in a <==> x in b
    ensures a == b
    decreases |a|
  {
    if a == [] {
      HeadIn(b);
    } else {
      SameHead(a, b);
      forall x
        ensures x in a[1..] <==> x in b[1..]
      {
        InTail(a, x);
        InTail(b, x);
      }
      SameStrict(a[1..], b[1..]);
      assert a == [a[0]] + a[1..] && b == [b[0]] + b[1..];
    }
  }

  lemma HeadIn(b: seq<nat>)
    ensures b != [] ==> b[0] in b
  {
  }

  lemma SameHead(a: seq<nat>, b: seq<nat>)
    requires a != [] && Strict(a) && Strict(b) && forall x :: x in a <==> x in b
    ensures b != [] && a[0] == b[0]
  {
    assert a[0] in b;
    var i :| 0 <= i < |b| && b[i] == a[0];
    assert b[0] in a;
    var j :| 0 <= j < |a| && a[j] == b[0];
  }

  lemma InTail(a: seq<nat>, x: nat)
    requires a != [] && Strict(a)
    ensures x in a[1..] <==> x in a && x != a[0]
  {
    if x in a && x != a[0] {
      var i :| 0 <= i < |a| && a[i] == x;
      assert a[1..][i - 1] == x;
    }
  }

  lemma ElementsConcat(a: seq<nat>, b: seq<nat>)
    ensures Elements(a + b) == Elements(a) + Elements(b)
  {
  }

  function Insert(sorted: seq<nat>, x: nat): seq<nat> {
    if sorted == [] || x < sorted[0] then [x] + sorted else [sorted[0]] + Insert(sorted[1..], x)
  }

  lemma {:induction false} InsertContents(sorted: seq<nat>, x: nat)
    ensures multiset(Insert(sorted, x)) == multiset(sorted) + multiset{x}
    decreases |sorted|
  {
    if sorted == [] || x < sorted[0] {
    } else {
      InsertContents(sorted[1..], x);
      assert sorted == [sorted[0]] + sorted[1..];
    }
  }

  lemma {:induction false} InsertAscends(sorted: seq<nat>, x: nat)
    requires Ascending(sorted)
    ensures Ascending(Insert(sorted, x))
    decreases |sorted|
  {
    if sorted == [] || x < sorted[0] {
    } else {
      InsertAscends(sorted[1..], x);
      InsertContents(sorted[1..], x);
      var r := Insert(sorted[1..], x);
      forall j | 0 <= j < |r|
        ensures sorted[0] <= r[j]
      {
        assert r[j] in multiset(r);
        assert r[j] == x || r[j] in sorted[1..];
      }
    }
  }

  method Sort(s: seq<nat>) returns (r: seq<nat>)
    ensures Ascending(r) && multiset(r) == multiset(s)
  {
    r := [];
    for i := 0 to |s|
      invariant Ascending(r) && multiset(r) == multiset(s[..i])
    {
      InsertAscends(r, s[i]);
      InsertContents(r, s[i]);
      assert s[..i + 1] == s[..i] + [s[i]];
      r := Insert(r, s[i]);
    }
    assert s[..|s|] == s;
  }

  /** Drops repetitions from a sorted list. */
  method Unique(s: seq<nat>) returns (r: seq<nat>)
    requires Ascending(s)
    ensures Strict(r) && forall x :: x in r <==> x in s
  {
    r := [];
    for i := 0 to |s|
      invariant Strict(r) && forall x :: x in r <==> x in s[..i]
      invariant i > 0 ==> r != [] && r[|r| - 1] == s[i - 1]
    {
      assert s[..i + 1] == s[..i] + [s[i]];
      if i == 0 || s[i] != s[i - 1] {
        StrictAppend(r, s[i]);
        r := r + [s[i]];
      }
    }
    assert s[..|s|] == s;
  }

  /** `r` is strictly ascending and ends below what is still to come. */
  ghost predicate Grown(r: seq<nat>, a: seq<nat>, i: nat, b: seq<nat>, j: nat)
    requires i <= |a| && j <= |b|
  {
    Strict(r) && (forall x, k :: x in r && i <= k < |a| ==> x < a[k]) && (forall x, k :: x in r && j <= k < |b| ==> x < b[k])
  }

  /** Merge of two strictly ascending lists. */
  method SetUnion(a: seq<nat>, b: seq<nat>) returns (r: seq<nat>)
    requires Strict(a) && Strict(b)
    ensures Strict(r) && forall x :: x in r <==> x in a || x in b
  {
    r := [];
    var i, j := 0, 0;
    while i < |a| || j < |b|
      invariant i <= |a| && j <= |b| && Grown(r, a, i, b, j)
      invariant forall x :: x in r <==> x in a[..i] || x in b[..j]
      decreases |a| - i + |b| - j
    {
      if i < |a| { assert a[..i + 1] == a[..i] + [a[i]]; }
      if j < |b| { assert b[..j + 1] == b[..j] + [b[j]]; }
      if j == |b| || (i < |a| && a[i] < b[j]) {
        StrictAppend(r, a[i]);
        r, i := r + [a[i]], i + 1;
      } else if i == |a| || b[j] < a[i] {
        StrictAppend(r, b[j]);
        r, j := r + [b[j]], j + 1;
      } else {
        StrictAppend(r, a[i]);
        r, i, j := r + [a[i]], i + 1, j + 1;
      }
    }
    assert a[..|a|] == a && b[..|b|] == b;
  }

  /** The elements of `a` that are not in the ascending list `b`. */
  method SetDifference(a: seq<nat>, b: seq<nat>) returns (r: seq<nat>)
    requires Strict(a) && Ascending(b)
    ensures Strict(r) && forall x :: x in r <==> x in a && x !in b
  {
    r := [];
    var i, j := 0, 0;
    while i < |a|
      invariant i <= |a| && j <= |b| && Strict(r)
      invariant forall x, k :: x in r && i <= k < |a| ==> x < a[k]
      invariant forall x :: x in r <==> x in a[..i] && x !in b
      invariant forall k, l :: 0 <= k < j && i <= l < |a| ==> b[k] <= a[l]
      invariant j < |b| ==> forall l :: 0 <= l < i ==> a[l] <= b[j]
      invariant forall k :: 0 <= k < j && i < |a| && b[k] == a[i] ==> false
      decreases |a| - i + |b| - j
    {
      assert a[..i + 1] == a[..i] + [a[i]];
      if j == |b| || a[i] < b[j] {
        StrictAppend(r, a[i]);
        r, i := r + [a[i]], i + 1;
      } else if b[j] < a[i] {
        j := j + 1;
      } else {
        i, j := i + 1, j + 1;
      }
    }
    assert a[..|a|] == a;
  }
}
