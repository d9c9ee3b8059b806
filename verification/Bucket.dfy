/** The bucket queue of the peeling: one doubly linked list per value, threaded through arrays. */
module Bucket {
  import opened Sequences

  const NIL := -1

  /** The neighbours of place `p` in a list. */
  function After(list: seq<nat>, p: nat): int { if p + 1 < |list| then list[p + 1] else NIL }

  function Before(list: seq<nat>, p: nat): int { if 0 < p <= |list| then list[p - 1] else NIL }

  /** The links of the element at place `p`. */
  ghost predicate NodeOk(list: seq<nat>, p: nat, next: seq<int>, prev: seq<int>)
    requires p < |list|
  {
    && list[p] < |next| == |prev| && next[list[p]] == After(list, p) && prev[list[p]] == Before(list, p)
  }

  /** `list` is threaded through `next` and `prev` from `head`. */
  ghost predicate Threaded(list: seq<nat>, head: int, next: seq<int>, prev: seq<int>) {
    && |next| == |prev| && head == (if list == [] then NIL else list[0])
    && forall p :: 0 <= p < |list| ==> NodeOk(list, p, next, prev)
  }

  /** The arrays after putting `id` in front of the list with head `head`. */
  function PushNext(next: seq<int>, id: nat, head: int): seq<int>
    requires id < |next|
  {
    next[id := head]
  }

  function PushPrev(prev: seq<int>, id: nat, head: int): seq<int>
    requires id < |prev|
  {
    if 0 <= head < |prev| then prev[id := NIL][head := id] else prev[id := NIL]
  }

  lemma PushOne(list: seq<nat>, next: seq<int>, prev: seq<int>, id: nat, p: nat)
    requires p < |list| && NodeOk(list, p, next, prev) && NodeOk(list, 0, next, prev) && Distinct(list)
    requires id < |next| && id !in list
    ensures NodeOk([id] + list, p + 1, PushNext(next, id, list[0]), PushPrev(prev, id, list[0]))
  {
    assert list[p] in list && list[0] in list;
  }

  lemma PushThreads(list: seq<nat>, head: int, next: seq<int>, prev: seq<int>, id: nat)
    requires Threaded(list, head, next, prev) && Distinct(list) && id < |next| && id !in list
    ensures Threaded([id] + list, id, PushNext(next, id, head), PushPrev(prev, id, head)) && Distinct([id] + list)
  {
    var l, n, r := [id] + list, PushNext(next, id, head), PushPrev(prev, id, head);
    forall p | 0 <= p < |l|
      ensures NodeOk(l, p, n, r)
    {
      if p == 0 {
        if list != [] {
          assert NodeOk(list, 0, next, prev) && list[0] in list;
        }
      } else {
        assert NodeOk(list, p - 1, next, prev) && NodeOk(list, 0, next, prev);
        PushOne(list, next, prev, id, p - 1);
      }
    }
  }

  /** Threads of a list without the touched elements are not affected. */
  lemma OtherThreads(list: seq<nat>, head: int, next: seq<int>, prev: seq<int>, next': seq<int>, prev': seq<int>)
    requires Threaded(list, head, next, prev) && |next'| == |prev'| == |next|
    requires forall id :: id in list && id < |next| ==> next'[id] == next[id] && prev'[id] == prev[id]
    ensures Threaded(list, head, next', prev')
  {
    forall p | 0 <= p < |list|
      ensures NodeOk(list, p, next', prev')
    {
      assert NodeOk(list, p, next, prev) && list[p] in list;
    }
  }

  /** The arrays after unlinking `id`. */
  function UnlinkNext(next: seq<int>, prev: seq<int>, id: nat): seq<int>
    requires id < |next| == |prev|
  {
    if 0 <= prev[id] < |next| then next[prev[id] := next[id]] else next
  }

  function UnlinkPrev(next: seq<int>, prev: seq<int>, id: nat): seq<int>
    requires id < |next| == |prev|
  {
    if 0 <= next[id] < |prev| then prev[next[id] := prev[id]] else prev
  }

  function Without(list: seq<nat>, p: nat): seq<nat>
    requires p < |list|
  {
    list[..p] + list[p + 1..]
  }

  lemma UnlinkThreads(list: seq<nat>, head: int, next: seq<int>, prev: seq<int>, p: nat)
    requires Threaded(list, head, next, prev) && Distinct(list) && p < |list| && list[p] < |next|
    ensures var id := list[p];
      Threaded(Without(list, p), if p == 0 then next[id] else head, UnlinkNext(next, prev, id), UnlinkPrev(next, prev, id))
    ensures Distinct(Without(list, p)) && list[p] !in Without(list, p)
  {
    var id, l := list[p], Without(list, p);
    var n, r := UnlinkNext(next, prev, id), UnlinkPrev(next, prev, id);
    assert NodeOk(list, p, next, prev);
    forall k | 0 <= k < |l|
      ensures NodeOk(l, k, n, r)
    {
      var j := Place(p, k);
      assert NodeOk(list, j, next, prev);
      if p > 0 { assert NodeOk(list, p - 1, next, prev); }
      if p + 1 < |list| { assert NodeOk(list, p + 1, next, prev); }
      UnlinkOne(list, next, prev, p, k);
    }
    WithoutDistinct(list, p);
  }

  lemma WithoutDistinct(list: seq<nat>, p: nat)
    requires Distinct(list) && p < |list|
    ensures Distinct(Without(list, p)) && list[p] !in Without(list, p)
    ensures forall x :: x in Without(list, p) <==> x in list && x != list[p]
  {
    assert list == list[..p] + [list[p]] + list[p + 1..];
  }

  /** Where the `k`-th element was before place `p` was removed. */
  function Place(p: nat, k: nat): nat { if k < p then k else k + 1 }

  lemma UnlinkOne(list: seq<nat>, next: seq<int>, prev: seq<int>, p: nat, k: nat)
    requires Distinct(list) && p < |list| && k < |list| - 1
    requires NodeOk(list, p, next, prev) && NodeOk(list, Place(p, k), next, prev)
    requires p > 0 ==> NodeOk(list, p - 1, next, prev)
    requires p + 1 < |list| ==> NodeOk(list, p + 1, next, prev)
    ensures NodeOk(Without(list, p), k, UnlinkNext(next, prev, list[p]), UnlinkPrev(next, prev, list[p]))
  {
    var l, j := Without(list, p), Place(p, k);
    assert l[k] == list[j] && list[j] != list[p];
    assert After(l, k) == if k + 1 == p then After(list, p) else After(list, j);
    assert Before(l, k) == if k == p then Before(list, p) else Before(list, j);
    assert p > 0 && j != p - 1 ==> list[j] != list[p - 1];
    assert p + 1 < |list| && j != p + 1 ==> list[j] != list[p + 1];
  }

  /** The heap of a bucket queue, as values. */
  datatype Store = Store(buckets: seq<int>, next: seq<int>, prev: seq<int>, values: seq<int>, lists: seq<seq<nat>>, present: set<nat>, min: nat)

  /** The list of value `v` is threaded and holds exactly the elements of that value. */
  ghost predicate ListOk(b: Store, v: nat)
    requires v < |b.lists| == |b.buckets|
  {
    && Threaded(b.lists[v], b.buckets[v], b.next, b.prev) && Distinct(b.lists[v])
    && (forall id :: id in b.lists[v] <==> id in b.present && id < |b.values| && b.values[id] == v)
    && (b.lists[v] != [] ==> b.min <= v)
  }

  ghost predicate StoreOk(b: Store) {
    && |b.buckets| == |b.lists| && |b.next| == |b.prev| == |b.values|
    && (forall id :: id in b.present ==> id < |b.values| && 0 <= b.values[id] < |b.lists|)
    && forall v :: 0 <= v < |b.lists| ==> ListOk(b, v)
  }

  /** `id` is put in front of the list of `value`. */
  function Pushed(b: Store, id: nat, value: nat): Store
    requires id < |b.next| == |b.prev| == |b.values| && value < |b.lists| == |b.buckets|
  {
    Store(b.buckets[value := id], PushNext(b.next, id, b.buckets[value]), PushPrev(b.prev, id, b.buckets[value]),
          b.values[id := value], b.lists[value := [id] + b.lists[value]], b.present + {id},
          if b.buckets[value] == NIL && b.min > value then value else b.min)
  }

  lemma PushKeeps(b: Store, id: nat, value: nat)
    requires StoreOk(b) && id < |b.values| && value < |b.lists| && id !in b.present
    ensures StoreOk(Pushed(b, id, value))
  {
    var b' := Pushed(b, id, value);
    assert ListOk(b, value);
    forall v | 0 <= v < |b.lists|
      ensures ListOk(b', v)
    {
      assert ListOk(b, v);
      if v == value {
        PushThreads(b.lists[v], b.buckets[v], b.next, b.prev, id);
      } else {
        if b.lists[value] != [] { assert b.lists[value][0] in b.lists[value]; }
        OtherThreads(b.lists[v], b.buckets[v], b.next, b.prev, b'.next, b'.prev);
      }
    }
  }

  /** `id` is taken out of the list of its value. */
  function Unlinked(b: Store, id: nat, v: nat, p: nat): Store
    requires id < |b.next| == |b.prev| && v < |b.lists| == |b.buckets| && p < |b.lists[v]|
  {
    Store(if b.prev[id] == NIL then b.buckets[v := b.next[id]] else b.buckets,
          UnlinkNext(b.next, b.prev, id), UnlinkPrev(b.next, b.prev, id), b.values,
          b.lists[v := Without(b.lists[v], p)], b.present - {id}, b.min)
  }

  lemma UnlinkKeeps(b: Store, id: nat, v: nat, p: nat)
    requires StoreOk(b) && v < |b.lists| && p < |b.lists[v]| && b.lists[v][p] == id && id < |b.next|
    ensures StoreOk(Unlinked(b, id, v, p))
  {
    var b' := Unlinked(b, id, v, p);
    assert ListOk(b, v) && NodeOk(b.lists[v], p, b.next, b.prev) && id in b.lists[v];
    forall u | 0 <= u < |b.lists|
      ensures ListOk(b', u)
    {
      assert ListOk(b, u);
      if u == v {
        UnlinkThreads(b.lists[v], b.buckets[v], b.next, b.prev, p);
        WithoutDistinct(b.lists[v], p);
      } else {
        if p > 0 { assert b.lists[v][p - 1] in b.lists[v]; }
        if p + 1 < |b.lists[v]| { assert b.lists[v][p + 1] in b.lists[v]; }
        OtherThreads(b.lists[u], b.buckets[u], b.next, b.prev, b'.next, b'.prev);
      }
    }
  }

  class NaiveBucket {
    const maxValue: nat
    const buckets: array<int>
    const next: array<int>
    const prev: array<int>
    const values: array<int>
    var currentMin: nat
    /** The elements in the queue, those that have been popped, and the list of every value. */
    ghost var present: set<nat>
    ghost var popped: set<nat>
    ghost var lists: seq<seq<nat>>

    ghost function Repr(): set<object> { {this, buckets, next, prev, values} }

    ghost function S(): Store
      reads this, buckets, next, prev, values
    {
      Store(buckets[..], next[..], prev[..], values[..], lists, present, currentMin)
    }

    ghost predicate Valid()
      reads this, buckets, next, prev, values
    {
      && buckets.Length == maxValue + 1 && StoreOk(S())
      && (forall id :: id in popped ==> id < values.Length && id !in present && values[id] == -1)
      && buckets != next && buckets != prev && buckets != values && next != prev && next != values && prev != values
    }

    constructor (maxValue: nat, elements: nat)
      ensures Valid() && this.maxValue == maxValue && values.Length == elements && present == {} == popped
      ensures fresh(buckets) && fresh(next) && fresh(prev) && fresh(values)
    {
      this.maxValue := maxValue;
      buckets := new int[maxValue + 1](_ => NIL);
      next := new int[elements](_ => NIL);
      prev := new int[elements](_ => NIL);
      values := new int[elements];
      currentMin := maxValue + 1;
      lists, present, popped := EmptyLists(maxValue + 1), {}, {};
    }

    /** Puts an element into the queue. */
    method Insert(id: nat, value: nat)
      requires Valid() && id < values.Length && value <= maxValue && id !in present
      modifies this, buckets, next, prev, values
      ensures Valid() && present == old(present) + {id} && popped == old(popped) - {id} && values[..] == old(values[..])[id := value]
    {
      ghost var b := S();
      PushKeeps(b, id, value);
      assert ListOk(b, value);
      values[id] := value;
      prev[id] := NIL;
      next[id] := buckets[value];
      if buckets[value] != NIL {
        assert NodeOk(lists[value], 0, b.next, b.prev);
        prev[buckets[value]] := id;
      } else if currentMin > value {
        currentMin := value;
      }
      buckets[value] := id;
      present, popped, lists := present + {id}, popped - {id}, lists[value := [id] + lists[value]];
      assert S() == Pushed(b, id, value);
    }

    /** Takes an element out of its list. */
    method Unlink(id: nat)
      requires Valid() && id in present
      modifies this`present, this`lists, buckets, next, prev
      ensures Valid() && present == old(present) - {id}
    {
      hide Distinct;
      ghost var b := S();
      var oldValue := values[id];
      assert ListOk(b, oldValue);
      ghost var p :| 0 <= p < |lists[oldValue]| && lists[oldValue][p] == id;
      assert NodeOk(lists[oldValue], p, b.next, b.prev);
      assert p > 0 ==> NodeOk(lists[oldValue], p - 1, b.next, b.prev);
      assert p + 1 < |lists[oldValue]| ==> NodeOk(lists[oldValue], p + 1, b.next, b.prev);
      UnlinkKeeps(b, id, oldValue, p);
      if prev[id] == NIL {
        buckets[oldValue] := next[id];
      } else {
        next[prev[id]] := next[id];
      }
      if next[id] != NIL {
        prev[next[id]] := prev[id];
      }
      present, lists := present - {id}, lists[oldValue := Without(lists[oldValue], p)];
      assert S() == Unlinked(b, id, oldValue, p);
    }

    /** Moves an element to the next smaller value. */
    method DecVal(id: nat)
      requires Valid() && id in present && values[id] > 0
      modifies this, buckets, next, prev, values
      ensures Valid() && present == old(present) && popped == old(popped) && values[..] == old(values[..])[id := old(values[id]) - 1]
    {
      Unlink(id);
      Insert(id, values[id] - 1);
    }

    /** An empty list is passed. */
    lemma AdvanceKeeps()
      requires Valid() && currentMin <= maxValue && buckets[currentMin] == NIL
      ensures StoreOk(S().(min := currentMin + 1))
    {
      var b, c := S(), S().(min := currentMin + 1);
      assert ListOk(b, currentMin);
      forall v | 0 <= v < |c.lists|
        ensures ListOk(c, v)
      {
        assert ListOk(b, v);
      }
    }

    /** No element has a smaller value than the current one. */
    lemma PresentBound()
      requires Valid()
      ensures forall x :: x in present ==> currentMin <= values[x] <= maxValue
    {
      var b := S();
      forall x | x in present
        ensures currentMin <= values[x] <= maxValue
      {
        assert ListOk(b, values[x]);
      }
    }

    /** Tells how far the peeling has got with an element: its value while it is queued, no less than the current
        one, and -1 once it has been popped. */
    method CurrentValue(id: nat) returns (v: int)
      requires Valid() && id < values.Length
      ensures v == values[id]
      ensures id in present ==> currentMin <= v <= maxValue
      ensures id in popped ==> v == -1
    {
      PresentBound();
      v := values[id];
    }

    /** The head of a list that is not empty is an element of its value. */
    lemma HeadIsPresent()
      requires Valid() && currentMin <= maxValue && buckets[currentMin] != NIL
      ensures buckets[currentMin] >= 0 && buckets[currentMin] in present && values[buckets[currentMin]] == currentMin
    {
      var b := S();
      assert ListOk(b, currentMin);
      assert b.lists[currentMin][0] in b.lists[currentMin];
    }

    /** The value of an element that has left the queue is marked. */
    method Forget(id: nat)
      requires Valid() && id !in present && id < values.Length
      modifies values, this`popped
      ensures Valid() && popped == old(popped) + {id} && values[..] == old(values[..])[id := -1]
    {
      ghost var b := S();
      values[id], popped := -1, popped + {id};
      ghost var c := S();
      forall v | 0 <= v < |c.lists|
        ensures ListOk(c, v)
      {
        assert ListOk(b, v);
      }
    }

    /** Takes out an element of the smallest value. */
    method PopMin() returns (ok: bool, id: nat, value: int)
      requires Valid()
      modifies this, buckets, next, prev, values
      ensures Valid() && (ok <==> old(present) != {})
      ensures ok ==> id in old(present) && present == old(present) - {id} && popped == old(popped) + {id} && value == old(values[id])
      ensures ok ==> forall x :: x in old(present) ==> value <= old(values[x])
      ensures ok ==> values[..] == old(values[..])[id := -1]
      ensures !ok ==> present == {} && popped == old(popped) && values[..] == old(values[..])
    {
      ok, id, value := false, 0, 0;
      while currentMin <= maxValue && buckets[currentMin] == NIL
        invariant Valid() && present == old(present) && popped == old(popped) && values[..] == old(values[..])
        decreases maxValue + 1 - currentMin
      {
        AdvanceKeeps();
        currentMin := currentMin + 1;
      }
      PresentBound();
      if currentMin <= maxValue {
        HeadIsPresent();
        id := buckets[currentMin];
        value := values[id];
        Unlink(id);
        Forget(id);
        ok := true;
      }
    }
  }

  function EmptyLists(n: nat): (ls: seq<seq<nat>>)
    ensures |ls| == n && forall v :: 0 <= v < n ==> ls[v] == []
  {
    seq(n, _ => [])
  }
}
