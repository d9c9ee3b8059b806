/** An open-addressing hash table with Robin Hood displacement: linear slots without wrap-around, a
    bound on probe lengths, growth by re-insertion, and erasure by backward shift. */
module RobinHood {
  import opened Powers
  import opened Sequences

  const MIN_LOOKUPS := 4

  /** A slot: `d` is the distance from the desired slot, negative when the slot is empty. */
  datatype Entry = Entry(d: int, key: nat, value: nat)
  {
    predicate HasValue() { d >= 0 }
  }

  const EMPTY := Entry(-1, 0, 0)
  const END := Entry(0, 0, 0)

  /** How keys are mapped to slots and table sizes are rounded. */
  datatype Policy = Policy(index: (nat, nat) -> nat, nextSize: nat -> nat)
  {
    /** Desired slots lie in the table; sizes are rounded up, to two at least. */
    ghost predicate Valid() {
      && (forall n: nat, k: nat :: index(n, k) < if n < 2 then 2 else n)
      && (forall n: nat :: nextSize(n) >= n && nextSize(n) >= 2)
    }
  }

  function Log2(n: nat): nat { if n < 2 then 0 else 1 + Log2(n / 2) }

  function ComputeMaxLookups(numBuckets: nat): (m: nat)
    ensures m >= MIN_LOOKUPS
  {
    if Log2(numBuckets) < MIN_LOOKUPS then MIN_LOOKUPS else Log2(numBuckets)
  }

  // ---- Contents ----

  /** A real slot, not the end marker, that holds a value. */
  predicate Live(s: seq<Entry>, i: int) { 0 <= i < |s| - 1 && s[i].HasValue() }

  ghost predicate Stored(s: seq<Entry>, k: nat) {
    exists i :: Live(s, i) && s[i].key == k
  }

  ghost predicate Maps(model: map<nat, nat>, e: Entry) {
    e.key in model && model[e.key] == e.value
  }

  /** The live slots are exactly the entries of `model`. */
  ghost predicate Holds(s: seq<Entry>, model: map<nat, nat>) {
    && (forall i :: Live(s, i) ==> Maps(model, s[i]))
    && (forall i, j :: Live(s, i) && Live(s, j) && s[i].key == s[j].key ==> i == j)
    && (forall k :: k in model ==> Stored(s, k))
  }

  /** The live slots and the entry in hand are exactly the entries of `model`. */
  ghost predicate HoldsWith(s: seq<Entry>, c: Entry, model: map<nat, nat>) {
    && (forall i :: Live(s, i) ==> Maps(model, s[i]) && s[i].key != c.key)
    && Maps(model, c)
    && (forall i, j :: Live(s, i) && Live(s, j) && s[i].key == s[j].key ==> i == j)
    && (forall k :: k in model ==> k == c.key || Stored(s, k))
  }

  lemma TakeUp(s: seq<Entry>, model: map<nat, nat>, c: Entry)
    requires Holds(s, model) && c.key !in model
    ensures HoldsWith(s, c, model[c.key := c.value])
  {
  }

  /** The contents do not depend on how far the entry in hand is from its slot. */
  lemma StillInHand(s: seq<Entry>, c: Entry, model: map<nat, nat>, d: int)
    requires HoldsWith(s, c, model)
    ensures HoldsWith(s, c.(d := d), model)
  {
  }

  lemma PutDown(s: seq<Entry>, c: Entry, model: map<nat, nat>, i: nat, d: int)
    requires HoldsWith(s, c, model) && i + 1 < |s| && !s[i].HasValue() && d >= 0
    ensures Holds(s[i := Entry(d, c.key, c.value)], model)
  {
    var s' := s[i := Entry(d, c.key, c.value)];
    assert Live(s', i);
    forall k | k in model
      ensures Stored(s', k)
    {
      if k != c.key {
        var j :| Live(s, j) && s[j].key == k;
        assert Live(s', j);
      }
    }
  }

  /** Exchanges the entry in hand with the one in slot `i`. */
  lemma Exchange(s: seq<Entry>, c: Entry, model: map<nat, nat>, i: nat, d: int, d': int)
    requires HoldsWith(s, c, model) && Live(s, i) && d >= 0
    ensures HoldsWith(s[i := Entry(d, c.key, c.value)], Entry(d', s[i].key, s[i].value), model)
  {
    var s', c' := s[i := Entry(d, c.key, c.value)], Entry(d', s[i].key, s[i].value);
    assert Live(s', i);
    forall k | k in model && k != c'.key
      ensures Stored(s', k)
    {
      if k != c.key {
        var j :| Live(s, j) && s[j].key == k;
        assert Live(s', j);
      }
    }
  }

  /** Putting the entry in hand into the slot of the new key undoes the insertion. */
  lemma RollBack(s: seq<Entry>, c: Entry, model: map<nat, nat>, k: nat, v: nat, i: nat)
    requires k !in model && HoldsWith(s, c, model[k := v]) && Live(s, i) && s[i].key == k
    ensures Holds(s[i := Entry(s[i].d, c.key, c.value)], model)
  {
    var s' := s[i := Entry(s[i].d, c.key, c.value)];
    assert Live(s', i);
    forall x | x in model
      ensures Stored(s', x)
    {
      if x != c.key {
        assert x in model[k := v] && Stored(s, x);
        var j :| Live(s, j) && s[j].key == x;
        assert Live(s', j);
      }
    }
  }

  // ---- Probe distances ----

  /** Distance of the slot before `i`; nothing lies before the first slot. */
  function Before(s: seq<Entry>, i: nat): int
    requires i <= |s|
  {
    if i == 0 then -1 else s[i - 1].d
  }

  /** Slot `i` is empty, or its entry lies where its distance says. */
  ghost predicate Placed(s: seq<Entry>, p: Policy, slots: nat, m: nat, i: nat)
    requires i < |s|
  {
    s[i].d == -1 || (0 <= s[i].d < m && p.index(slots, s[i].key) + s[i].d == i)
  }

  /** Distances grow by at most one from slot to slot. */
  ghost predicate Slow(s: seq<Entry>, i: nat)
    requires i < |s|
  {
    s[i].d <= Before(s, i) + 1
  }

  ghost predicate Probing(s: seq<Entry>, p: Policy, slots: nat, m: nat) {
    forall i :: 0 <= i < |s| - 1 ==> Placed(s, p, slots, m, i) && Slow(s, i)
  }

  ghost predicate Sized(s: seq<Entry>, slots: nat, m: nat) {
    slots >= 1 && m >= 3 && |s| == slots + m && s[|s| - 1].d == 0
  }

  /** Every slot between the desired slot of a stored key and its place passes the probe. */
  lemma {:induction false} ProbePasses(s: seq<Entry>, p: Policy, slots: nat, m: nat, i: nat, back: nat)
    requires Probing(s, p, slots, m) && Live(s, i) && back <= s[i].d
    ensures i >= back && s[i - back].d >= s[i].d - back
    decreases back
  {
    if back > 0 {
      ProbePasses(s, p, slots, m, i, back - 1);
      assert Slow(s, i - (back - 1)) && Placed(s, p, slots, m, i);
    }
  }

  /** The entry in hand may be put into slot `cur`. */
  ghost predicate Fits(s: seq<Entry>, p: Policy, slots: nat, m: nat, c: Entry, cur: nat) {
    && cur + 1 < |s| && 0 <= c.d < m && p.index(slots, c.key) + c.d == cur && c.d <= Before(s, cur) + 1
  }

  lemma PutKeepsProbing(s: seq<Entry>, p: Policy, slots: nat, m: nat, c: Entry, cur: nat)
    requires Probing(s, p, slots, m) && Fits(s, p, slots, m, c, cur) && s[cur].d < c.d
    ensures Probing(s[cur := c], p, slots, m)
  {
    var s' := s[cur := c];
    forall i | 0 <= i < |s'| - 1
      ensures Placed(s', p, slots, m, i) && Slow(s', i)
    {
      assert Placed(s, p, slots, m, i) && Slow(s, i);
    }
  }

  /** A slot of the sequence is empty while its successors still count from it. */
  ghost predicate ProbingButHole(s: seq<Entry>, p: Policy, slots: nat, m: nat, cur: nat) {
    && cur < |s| - 1 && s[cur].d == -1
    && (forall i :: 0 <= i < |s| - 1 ==> Placed(s, p, slots, m, i))
    && (forall i :: 0 <= i < |s| - 1 && i != cur + 1 ==> Slow(s, i))
    && (cur + 1 < |s| - 1 ==> s[cur + 1].d <= Before(s, cur) + 2)
  }

  /** Emptying a slot leaves a hole. */
  lemma MakeHole(s: seq<Entry>, p: Policy, slots: nat, m: nat, cur: nat)
    requires Probing(s, p, slots, m) && Live(s, cur)
    ensures ProbingButHole(s[cur := EMPTY], p, slots, m, cur)
  {
    var s' := s[cur := EMPTY];
    forall i | 0 <= i < |s'| - 1
      ensures Placed(s', p, slots, m, i) && (i != cur + 1 ==> Slow(s', i))
    {
      assert Placed(s, p, slots, m, i) && Slow(s, i);
    }
    assert Slow(s, cur);
    if cur + 1 < |s| - 1 { assert Slow(s, cur + 1); }
  }

  /** Shifting the next entry back moves the hole on. */
  lemma MoveHole(s: seq<Entry>, p: Policy, slots: nat, m: nat, cur: nat)
    requires ProbingButHole(s, p, slots, m, cur) && Live(s, cur + 1) && s[cur + 1].d > 0
    ensures ProbingButHole(s[cur := s[cur + 1].(d := s[cur + 1].d - 1)][cur + 1 := EMPTY], p, slots, m, cur + 1)
  {
    var s' := s[cur := s[cur + 1].(d := s[cur + 1].d - 1)][cur + 1 := EMPTY];
    forall i | 0 <= i < |s'| - 1
      ensures Placed(s', p, slots, m, i) && (i != cur + 2 ==> Slow(s', i))
    {
      assert Placed(s, p, slots, m, i) && Placed(s, p, slots, m, cur + 1) && (i != cur + 1 ==> Slow(s, i));
    }
    if cur + 2 < |s| - 1 { assert Slow(s, cur + 2); }
  }

  /** A hole before an entry in its desired slot, an empty slot or the end is no hole. */
  lemma CloseHole(s: seq<Entry>, p: Policy, slots: nat, m: nat, cur: nat)
    requires ProbingButHole(s, p, slots, m, cur) && s[cur + 1].d <= 0
    ensures Probing(s, p, slots, m)
  {
  }

  lemma DropEntry(s: seq<Entry>, model: map<nat, nat>, i: nat)
    requires Holds(s, model) && Live(s, i)
    ensures Holds(s[i := EMPTY], model - {s[i].key})
  {
    var s' := s[i := EMPTY];
    forall k | k in model - {s[i].key}
      ensures Stored(s', k)
    {
      assert Stored(s, k);
      var j :| Live(s, j) && s[j].key == k;
      assert Live(s', j);
    }
  }

  lemma ShiftEntry(s: seq<Entry>, model: map<nat, nat>, i: nat, d: int)
    requires Holds(s, model) && Live(s, i + 1) && !s[i].HasValue() && d >= 0
    ensures Holds(s[i := s[i + 1].(d := d)][i + 1 := EMPTY], model)
  {
    var s' := s[i := s[i + 1].(d := d)][i + 1 := EMPTY];
    assert Live(s', i);
    forall k | k in model
      ensures Stored(s', k)
    {
      assert Stored(s, k);
      var j :| Live(s, j) && s[j].key == k;
      if j != i + 1 { assert Live(s', j); }
    }
  }

  /** The entry in hand goes into slot `cur`; the one there is taken up for the next slot. */
  lemma SwapStep(s: seq<Entry>, p: Policy, slots: nat, m: nat, c: Entry, cur: nat)
    requires p.Valid() && slots >= 2 && Sized(s, slots, m) && Probing(s, p, slots, m)
    requires Fits(s, p, slots, m, c, cur) && 0 <= s[cur].d < c.d
    ensures Probing(s[cur := c], p, slots, m)
    ensures Fits(s[cur := c], p, slots, m, s[cur].(d := s[cur].d + 1), cur + 1)
  {
    PutKeepsProbing(s, p, slots, m, c, cur);
    assert Placed(s, p, slots, m, cur);
  }

  /** The entry in hand stays in hand for the next slot. */
  lemma PassStep(s: seq<Entry>, p: Policy, slots: nat, m: nat, c: Entry, cur: nat)
    requires p.Valid() && slots >= 2 && Sized(s, slots, m) && Fits(s, p, slots, m, c, cur) && s[cur].d >= c.d && c.d + 1 < m
    ensures Fits(s, p, slots, m, c.(d := c.d + 1), cur + 1)
  {
  }

  /** A new key goes into an empty slot that fits it. */
  lemma InsertStep(s: seq<Entry>, p: Policy, slots: nat, m: nat, model: map<nat, nat>, c: Entry, at: nat)
    requires Holds(s, model) && Probing(s, p, slots, m) && c.key !in model && Fits(s, p, slots, m, c, at) && s[at].d < 0
    ensures Holds(s[at := c], model[c.key := c.value]) && Probing(s[at := c], p, slots, m)
  {
    TakeUp(s, model, c);
    PutDown(s, c, model[c.key := c.value], at, c.d);
    PutKeepsProbing(s, p, slots, m, c, at);
  }

  /** A new key goes into an occupied slot that fits it; the entry there is taken up. */
  lemma DisplaceStep(s: seq<Entry>, p: Policy, slots: nat, m: nat, model: map<nat, nat>, c: Entry, at: nat)
    requires p.Valid() && slots >= 2 && Sized(s, slots, m)
    requires Holds(s, model) && Probing(s, p, slots, m) && c.key !in model && Fits(s, p, slots, m, c, at) && 0 <= s[at].d < c.d
    ensures HoldsWith(s[at := c], s[at].(d := s[at].d + 1), model[c.key := c.value]) && Probing(s[at := c], p, slots, m)
    ensures Fits(s[at := c], p, slots, m, s[at].(d := s[at].d + 1), at + 1)
  {
    TakeUp(s, model, c);
    Exchange(s, c, model[c.key := c.value], at, c.d, s[at].d + 1);
    SwapStep(s, p, slots, m, c, at);
  }

  /** `model` holds the entries of `m0` that lie in the first `i` slots of `s`. */
  ghost predicate Moved(s: seq<Entry>, m0: map<nat, nat>, model: map<nat, nat>, i: nat) {
    && (forall k :: k in model ==> k in m0 && model[k] == m0[k])
    && (forall k :: k in model ==> StoredBelow(s, k, i))
    && (forall j :: 0 <= j < i && Live(s, j) ==> s[j].key in model)
  }

  ghost predicate StoredBelow(s: seq<Entry>, k: nat, i: nat) {
    exists j :: 0 <= j < i && Live(s, j) && s[j].key == k
  }

  lemma NothingMoved(s: seq<Entry>, m0: map<nat, nat>)
    ensures Moved(s, m0, map[], 0)
  {
  }

  lemma MoveEntry(s: seq<Entry>, m0: map<nat, nat>, model: map<nat, nat>, i: nat)
    requires Holds(s, m0) && Moved(s, m0, model, i) && i < |s| - 1
    ensures Live(s, i) ==> s[i].key !in model && Moved(s, m0, model[s[i].key := s[i].value], i + 1)
    ensures !Live(s, i) ==> Moved(s, m0, model, i + 1)
  {
    forall k | k in model
      ensures StoredBelow(s, k, i + 1)
    {
      assert StoredBelow(s, k, i);
      var j :| 0 <= j < i && Live(s, j) && s[j].key == k;
    }
    if Live(s, i) {
      assert Maps(m0, s[i]);
      assert StoredBelow(s, s[i].key, i + 1);
      assert s[i].key in model ==> StoredBelow(s, s[i].key, i);
    }
  }

  lemma AllMoved(s: seq<Entry>, m0: map<nat, nat>, model: map<nat, nat>)
    requires |s| > 0 && Holds(s, m0) && Moved(s, m0, model, |s| - 1)
    ensures model == m0
  {
    forall k | k in m0
      ensures k in model
    {
      assert Stored(s, k);
    }
  }

  // ---- When a table has to grow ----

  /** Where the probe of an absent key stops that has come `distance` slots from its desired one. */
  function StopsAt(s: seq<Entry>, index: nat, distance: nat): nat
    decreases |s| - index - distance
  {
    if index + distance < |s| && s[index + distance].d >= distance then StopsAt(s, index, distance + 1) else distance
  }

  /** An entry `d` slots from its desired one, brought to slot `cur`, ends up in an empty slot: it takes the slot,
      or pushes the richer entry there on, or passes it, and none of them gets too far. */
  predicate Room(s: seq<Entry>, m: nat, d: nat, cur: nat)
    decreases |s| - cur
  {
    if cur >= |s| then false
    else if s[cur].d < 0 then true
    else if s[cur].d < d then Room(s, m, s[cur].d + 1, cur + 1)
    else if d + 1 == m then false
    else Room(s, m, d + 1, cur + 1)
  }

  lemma {:induction false} SameRoom(s: seq<Entry>, s': seq<Entry>, m: nat, d: nat, cur: nat)
    requires |s| == |s'| && forall i :: cur <= i < |s| ==> s[i] == s'[i]
    ensures Room(s, m, d, cur) == Room(s', m, d, cur)
    decreases |s| - cur
  {
    if cur < |s| && s[cur].d >= 0 {
      SameRoom(s, s', m, if s[cur].d < d then s[cur].d + 1 else d + 1, cur + 1);
    }
  }

  lemma EmptyIsRoom(s: seq<Entry>, m: nat, d: nat, cur: nat)
    requires cur < |s| && s[cur].d < 0
    ensures Room(s, m, d, cur)
  {
  }

  /** An entry that takes the slot of a richer one leaves it to that one to find room. */
  lemma TakenRoom(s: seq<Entry>, s': seq<Entry>, m: nat, d: nat, cur: nat)
    requires cur < |s| == |s'| && 0 <= s[cur].d < d && forall i :: cur < i < |s| ==> s[i] == s'[i]
    ensures Room(s, m, d, cur) == Room(s', m, s[cur].d + 1, cur + 1)
  {
    SameRoom(s, s', m, s[cur].d + 1, cur + 1);
  }

  /** A table and a key that is to be inserted. */
  datatype State = State(s: seq<Entry>, slots: nat, m: nat, model: map<nat, nat>, key: nat)

  /** The key cannot be inserted without growing the table: there is no table yet, the key would lie too far from
      its slot, the table would be more than half full, or no displacement makes room. */
  ghost predicate NeedsGrowth(p: Policy, t: State) {
    t.slots == 1 || 2 * (|t.model| + 1) > t.slots || Crowded(p, t)
  }

  ghost predicate Crowded(p: Policy, t: State) {
    var d := StopsAt(t.s, p.index(t.slots, t.key), 0);
    d == t.m || !Room(t.s, t.m, d, p.index(t.slots, t.key) + d)
  }

  /** The table is a good one, and the key is new to it and does not fit. */
  ghost predicate Full(p: Policy, t: State) {
    && p.Valid() && Sized(t.s, t.slots, t.m) && Holds(t.s, t.model) && Probing(t.s, p, t.slots, t.m)
    && t.key !in t.model && NeedsGrowth(p, t)
  }

  /** `t` is met while `r` is grown: at least twice the size, and only keys of `r`. */
  ghost predicate Grown(r: State, t: State) {
    t.slots >= 2 * r.slots && t.slots >= 4 && t.model.Keys + {t.key} <= r.model.Keys + {r.key}
  }

  /** Tables that had to grow, each while the one before it was grown. */
  ghost predicate Growths(p: Policy, chain: seq<State>) {
    && (forall i :: 0 <= i < |chain| ==> Full(p, chain[i]))
    && (forall i :: 0 < i < |chain| ==> Grown(chain[i - 1], chain[i]))
  }

  lemma FirstFull(p: Policy, chain: seq<State>)
    requires Growths(p, chain) && chain != []
    ensures NeedsGrowth(p, chain[0]) && chain[0].key !in chain[0].model
  {
    hide Holds, Probing, NeedsGrowth;
    assert Full(p, chain[0]);
  }

  lemma KeyIsNew(p: Policy, t: State)
    requires Full(p, t)
    ensures t.key !in t.model
  {
  }

  lemma GrowthsMore(p: Policy, t: State, chain: seq<State>)
    requires Full(p, t) && Growths(p, chain) && (chain != [] ==> Grown(t, chain[0]))
    ensures Growths(p, [t] + chain)
  {
    var c := [t] + chain;
    forall i | 0 <= i < |c|
      ensures Full(p, c[i]) && (i > 0 ==> Grown(c[i - 1], c[i]))
    {
      if i > 0 { assert Full(p, chain[i - 1]) && (i > 1 ==> Grown(chain[i - 2], chain[i - 1])); }
    }
  }

  lemma {:induction false} ChainSizes(p: Policy, chain: seq<State>, i: nat)
    requires Growths(p, chain) && i < |chain|
    ensures chain[i].slots >= Pow2(i) && chain[i].model.Keys + {chain[i].key} <= chain[0].model.Keys + {chain[0].key}
  {
    hide Holds, Probing, NeedsGrowth;
    if i == 0 {
      assert Full(p, chain[0]);
    } else {
      ChainSizes(p, chain, i - 1);
      assert Grown(chain[i - 1], chain[i]);
    }
  }

  /** Growth on growth is not for want of slots: once the size has been doubled often enough, a table that has to
      grow again maps too many keys to neighbouring slots. */
  lemma LateGrowths(p: Policy, chain: seq<State>, i: nat)
    requires Growths(p, chain) && 0 < i < |chain| && Pow2(i) >= 2 * (|chain[0].model| + 1)
    ensures Crowded(p, chain[i])
  {
    hide Holds, Probing, Sized, Crowded, Pow2;
    ChainSizes(p, chain, i);
    assert Full(p, chain[0]) && Full(p, chain[i]) && Grown(chain[i - 1], chain[i]);
    KeysFit(chain[0], chain[i]);
  }

  lemma KeysFit(r: State, t: State)
    requires r.key !in r.model && t.key !in t.model && t.model.Keys + {t.key} <= r.model.Keys + {r.key}
    ensures |t.model| <= |r.model|
  {
    assert |t.model.Keys + {t.key}| == |t.model| + 1 && |r.model.Keys + {r.key}| == |r.model| + 1;
    SubsetSize(t.model.Keys + {t.key}, r.model.Keys + {r.key});
  }

  // ---- Sizes ----

  /** The size that a table of `slots` slots grows to; the default table counts as having none. */
  function GrownSize(p: Policy, slots: nat): nat {
    p.nextSize(if slots < 2 then 4 else 2 * slots)
  }

  /** The size after `k` growths. */
  function GrownBy(p: Policy, slots: nat, k: nat): nat {
    if k == 0 then slots else GrownSize(p, GrownBy(p, slots, k - 1))
  }

  /** Growths alone lead from the one size to the other. */
  ghost predicate Sizes(p: Policy, from: nat, to: nat) {
    exists k: nat :: GrownBy(p, from, k) == to
  }

  lemma SameSize(p: Policy, slots: nat)
    ensures Sizes(p, slots, slots)
  {
    assert GrownBy(p, slots, 0) == slots;
  }

  lemma {:induction false} GrownTwice(p: Policy, slots: nat, j: nat, k: nat)
    ensures GrownBy(p, GrownBy(p, slots, j), k) == GrownBy(p, slots, j + k)
    decreases k
  {
    if k > 0 { GrownTwice(p, slots, j, k - 1); }
  }

  lemma SizesOn(p: Policy, from: nat, mid: nat, to: nat)
    requires Sizes(p, from, mid) && Sizes(p, mid, to)
    ensures Sizes(p, from, to)
  {
    var j: nat :| GrownBy(p, from, j) == mid;
    var k: nat :| GrownBy(p, mid, k) == to;
    GrownTwice(p, from, j, k);
  }

  lemma OneGrowth(p: Policy, slots: nat)
    ensures Sizes(p, slots, GrownSize(p, slots))
  {
    assert GrownBy(p, slots, 0) == slots;
    assert GrownBy(p, slots, 1) == GrownSize(p, slots);
  }

  /** Growing doubles the size at least. */
  lemma {:induction false} GrowthDoubles(p: Policy, slots: nat, k: nat)
    requires p.Valid() && slots >= 1
    ensures GrownBy(p, slots, k) >= slots && (k > 0 ==> GrownBy(p, slots, k) >= 2 * slots && GrownBy(p, slots, k) >= 4)
    decreases k
  {
    if k > 0 { GrowthDoubles(p, slots, k - 1); }
  }

  /** Sizes after a first growth are at least twice the size, and after none or some they are no smaller. */
  lemma SizesDouble(p: Policy, slots: nat, to: nat)
    requires p.Valid() && slots >= 1
    ensures Sizes(p, slots, to) ==> to >= slots
    ensures Sizes(p, GrownSize(p, slots), to) ==> to >= 2 * slots && to >= 4 && Sizes(p, slots, to)
  {
    if Sizes(p, slots, to) {
      var k: nat :| GrownBy(p, slots, k) == to;
      GrowthDoubles(p, slots, k);
    }
    if Sizes(p, GrownSize(p, slots), to) {
      var k: nat :| GrownBy(p, GrownSize(p, slots), k) == to;
      GrowthDoubles(p, GrownSize(p, slots), k);
      OneGrowth(p, slots);
      SizesOn(p, slots, GrownSize(p, slots), to);
    }
  }

  /** An insertion leaves the size as it is or grows it. */
  lemma SizesGo(p: Policy, from: nat, mid: nat, to: nat)
    requires Sizes(p, from, mid) && (mid == to || Sizes(p, GrownSize(p, mid), to))
    ensures Sizes(p, from, to)
  {
    hide GrownSize;
    if mid != to {
      OneGrowth(p, mid);
      SizesOn(p, from, mid, GrownSize(p, mid));
      SizesOn(p, from, GrownSize(p, mid), to);
    }
  }

  /** What became of the entry in hand at one slot. */
  datatype Outcome = Put | Carried | Stuck

  class Table {
    const policy: Policy
    var entries: array<Entry>
    var numSlotsMinusOne: nat
    var maxLookups: nat
    var numElements: nat
    /** What the table maps. */
    ghost var model: map<nat, nat>

    function Slots(): nat
      reads this
    {
      numSlotsMinusOne + 1
    }

    /** The place after the last real slot. */
    function End(): nat
      reads this
    {
      numSlotsMinusOne + maxLookups
    }

    /** The slots hold the entries of the model, wherever they lie. */
    ghost predicate Loose()
      reads this, entries
    {
      policy.Valid() && Bounded() && Sized(entries[..], Slots(), maxLookups) && Holds(entries[..], model)
    }

    /** The bound on probe lengths is the one for the size. */
    ghost predicate Bounded()
      reads this
    {
      maxLookups == if numSlotsMinusOne == 0 then MIN_LOOKUPS - 1 else ComputeMaxLookups(Slots())
    }

    /** At most half of the slots are taken. */
    ghost predicate HalfFull()
      reads this
    {
      numElements == 0 || 2 * numElements <= Slots()
    }

    ghost predicate Valid()
      reads this, entries
    {
      Loose() && Probing(entries[..], policy, Slots(), maxLookups) && numElements == |model| && HalfFull()
    }

    constructor (policy: Policy)
      requires policy.Valid()
      ensures Valid() && fresh(entries) && model == map[] && this.policy == policy
    {
      this.policy := policy;
      numSlotsMinusOne, maxLookups, numElements := 0, MIN_LOOKUPS - 1, 0;
      model := map[];
      entries := new Entry[MIN_LOOKUPS](i => if i == MIN_LOOKUPS - 1 then END else EMPTY);
    }

    /** The slot of `key`, or the end; `at` and `distance` tell where the probe stopped. */
    method Probe(key: nat) returns (found: bool, at: nat, distance: nat)
      requires Valid()
      ensures found <==> key in model
      ensures at < entries.Length && at == policy.index(Slots(), key) + distance
      ensures found ==> Live(entries[..], at) && entries[at].key == key && entries[at].value == model[key]
      ensures !found ==> entries[at].d < distance && distance <= maxLookups && distance <= Before(entries[..], at) + 1
      ensures !found ==> distance == StopsAt(entries[..], policy.index(Slots(), key), 0)
    {
      hide Probing, Holds, Live;
      ghost var s := entries[..];
      var index := policy.index(Slots(), key);
      at, distance := index, 0;
      StartsInside(s, index);
      while entries[at].d >= distance
        invariant at < entries.Length && at == index + distance && distance <= maxLookups
        invariant distance <= Before(s, at) + 1 && StopsAt(s, index, 0) == StopsAt(s, index, distance)
        invariant forall i :: index <= i < at ==> i < End() && s[i].key != key && s[i].d >= i - index
        decreases entries.Length - at
      {
        StillInside(s, index, at, distance);
        if entries[at].key == key {
          IsFound(s, at);
          return true, at, distance;
        }
        at, distance := at + 1, distance + 1;
      }
      NotMissed(s, key, at, distance);
      found := false;
    }

    /** A probe starts at a slot, and the one before it does not count against it. */
    lemma StartsInside(s: seq<Entry>, index: nat)
      requires Valid() && s == entries[..] && index < if Slots() < 2 then 2 else Slots()
      ensures index < |s| && Before(s, index) >= -1
    {
      if index > 0 { assert Placed(s, policy, Slots(), maxLookups, index - 1); }
    }

    /** What lies in a slot is stored. */
    lemma IsFound(s: seq<Entry>, at: nat)
      requires Valid() && s == entries[..] && at < End() && s[at].d >= 0
      ensures Live(s, at) && Maps(model, s[at])
    {
      assert Live(s, at);
    }

    /** A probe that has not stopped is at a real slot. */
    lemma StillInside(s: seq<Entry>, index: nat, at: nat, distance: nat)
      requires Valid() && s == entries[..] && at < |s| && at == index + distance && s[at].d >= distance
      requires index < if Slots() < 2 then 2 else Slots()
      ensures at < End() && s[at].d < maxLookups
    {
      if at < |s| - 1 { assert Placed(s, policy, Slots(), maxLookups, at); }
    }

    /** A key that an unsuccessful probe has not met is not stored. */
    lemma NotMissed(s: seq<Entry>, key: nat, at: nat, distance: nat)
      requires Valid() && s == entries[..] && at < |s| && at == policy.index(Slots(), key) + distance
      requires s[at].d < distance
      requires forall i :: policy.index(Slots(), key) <= i < at ==> i < End() && s[i].key != key
      ensures key !in model
    {
      if key in model {
        assert Stored(s, key);
        var i :| Live(s, i) && s[i].key == key;
        assert Placed(s, policy, Slots(), maxLookups, i);
        ProbePasses(s, policy, Slots(), maxLookups, i, i - at);
      }
    }

    /** The slot that holds `key`, or the end. */
    method Find(key: nat) returns (it: nat)
      requires Valid()
      ensures key in model ==> Live(entries[..], it) && entries[it].key == key && entries[it].value == model[key]
      ensures key !in model ==> it == End()
    {
      var found, at, _ := Probe(key);
      it := if found then at else End();
    }

    /** Empties a slot and shifts the entries behind it back. */
    method EraseAt(it: nat)
      requires Valid() && Live(entries[..], it)
      modifies this`numElements, this`model, entries
      ensures Valid() && model == old(model) - {old(entries[it].key)}
    {
      DestroyValue(it);
      CloseGap(it);
    }

    method CloseGap(it: nat)
      requires Gap(it)
      modifies entries
      ensures Loose() && Probing(entries[..], policy, Slots(), maxLookups)
    {
      var current := it;
      while entries[current + 1].d > 0
        invariant current + 1 < entries.Length && Gap(current)
        decreases entries.Length - current
      {
        ShiftBack(current);
        current := current + 1;
      }
      CloseHole(entries[..], policy, Slots(), maxLookups, current);
    }

    /** Only the empty slot `cur` disturbs the probes. */
    ghost predicate Gap(cur: nat)
      reads this, entries
    {
      Loose() && ProbingButHole(entries[..], policy, Slots(), maxLookups, cur)
    }

    method DestroyValue(it: nat)
      requires Valid() && Live(entries[..], it)
      modifies this`numElements, this`model, entries
      ensures Gap(it) && numElements == |model| && HalfFull() && model == old(model) - {old(entries[it].key)}
    {
      hide Probing, ProbingButHole, Holds;
      ghost var s := entries[..];
      MapsLive(s, it);
      DropEntry(s, model, it);
      MakeHole(s, policy, Slots(), maxLookups, it);
      entries[it] := EMPTY;
      assert entries[..] == s[it := EMPTY];
      model := model - {s[it].key};
      numElements := numElements - 1;
    }

    lemma MapsLive(s: seq<Entry>, at: nat)
      requires Valid() && s == entries[..] && Live(s, at)
      ensures Maps(model, s[at])
    {
    }

    method ShiftBack(current: nat)
      requires current + 1 < entries.Length && Gap(current) && entries[current + 1].d > 0
      modifies entries
      ensures Gap(current + 1)
    {
      ghost var s := entries[..];
      ShiftEntry(s, model, current, s[current + 1].d - 1);
      MoveHole(s, policy, Slots(), maxLookups, current);
      entries[current] := entries[current + 1].(d := entries[current + 1].d - 1);
      entries[current + 1] := EMPTY;
      assert entries[..] == s[current := s[current + 1].(d := s[current + 1].d - 1)][current + 1 := EMPTY];
    }

    /** Removes `key`; tells whether it was there. */
    method Erase(key: nat) returns (count: nat)
      requires Valid()
      modifies this`numElements, this`model, entries
      ensures Valid() && model == old(model) - {key}
      ensures count == if key in old(model) then 1 else 0
    {
      var found := Find(key);
      if found == End() {
        count := 0;
      } else {
        EraseAt(found);
        count := 1;
      }
    }

    function BucketCount(): nat
      reads this
    {
      if numSlotsMinusOne > 0 then numSlotsMinusOne + 1 else 0
    }

    /** The table before `key` is inserted. */
    ghost function Inserting(key: nat): State
      reads this, entries
    {
      State(entries[..], Slots(), maxLookups, model, key)
    }

    /** Inserts `key` unless it is there.  It fails only when more than `fuel` growths are nested. */
    method Emplace(key: nat, value: nat, fuel: nat) returns (ok: bool, it: nat, inserted: bool, ghost chain: seq<State>)
      requires Valid()
      modifies this, entries
      ensures entries == old(entries) || fresh(entries)
      ensures ok ==> Valid() && inserted == (key !in old(model)) && Slots() >= old(Slots())
      ensures ok && !(inserted && NeedsGrowth(policy, old(Inserting(key)))) ==> entries == old(entries) && Slots() == old(Slots())
      ensures ok && inserted && NeedsGrowth(policy, old(Inserting(key))) ==>
        Sizes(policy, GrownSize(policy, old(Slots())), Slots()) && Slots() >= 2 * old(Slots())
      ensures ok ==> model == if inserted then old(model)[key := value] else old(model)
      ensures ok ==> Live(entries[..], it) && entries[it].key == key
      ensures !ok ==> |chain| == fuel + 1 && chain[0] == old(Inserting(key)) && Growths(policy, chain)
      ensures key in old(model) || !NeedsGrowth(policy, old(Inserting(key))) ==> ok
      decreases fuel, 3
    {
      hide Probing, Holds, NeedsGrowth, Growths, Sizes;
      chain := [];
      var found, at, distance := Probe(key);
      if found {
        return true, at, false, [];
      }
      ok, it, chain := EmplaceNewKey(distance, at, key, value, fuel);
      inserted := true;
      if ok {
        SizesDouble(policy, old(Slots()), Slots());
      } else {
        FirstFull(policy, chain);
      }
    }

    method EmplaceNewKey(distance: nat, at: nat, key: nat, value: nat, fuel: nat) returns (ok: bool, it: nat, ghost chain: seq<State>)
      requires Valid() && key !in model && at < entries.Length && at == policy.index(Slots(), key) + distance
      requires entries[at].d < distance <= maxLookups && distance <= Before(entries[..], at) + 1
      requires distance == StopsAt(entries[..], policy.index(Slots(), key), 0)
      modifies this, entries
      ensures entries == old(entries) || fresh(entries)
      ensures ok ==> Valid() && model == old(model)[key := value] && Live(entries[..], it) && entries[it].key == key
      ensures ok && !NeedsGrowth(policy, old(Inserting(key))) ==> entries == old(entries) && Slots() == old(Slots())
      ensures ok && NeedsGrowth(policy, old(Inserting(key))) ==> Sizes(policy, GrownSize(policy, old(Slots())), Slots())
      ensures !ok ==> |chain| == fuel + 1 && chain[0] == old(Inserting(key)) && Growths(policy, chain)
      decreases fuel, 2
    {
      hide Probing, Holds, Growths, Room, StopsAt, Sizes;
      ghost var t := Inserting(key);
      chain := [];
      if numSlotsMinusOne == 0 || distance == maxLookups || 2 * (numElements + 1) > numSlotsMinusOne + 1 {
        ok, it, chain := Regrow(key, value, fuel, t);
      } else if entries[at].d < 0 {
        EmptyIsRoom(t.s, maxLookups, distance, at);
        Place(distance, at, key, value);
        ok, it := true, at;
      } else {
        var done := Displace(distance, at, key, value);
        if done {
          ok, it := true, at;
        } else {
          ok, it, chain := Regrow(key, value, fuel, t);
        }
      }
    }

    /** Grows a table that `t` describes and inserts its key. */
    method Regrow(key: nat, value: nat, fuel: nat, ghost t: State) returns (ok: bool, it: nat, ghost chain: seq<State>)
      requires Loose() && numElements == |model| && HalfFull() && t.key == key && t.slots == Slots() && t.model == model && Full(policy, t)
      modifies this, entries
      ensures entries == old(entries) || fresh(entries)
      ensures ok ==> Valid() && model == old(model)[key := value] && Live(entries[..], it) && entries[it].key == key
      ensures ok ==> Sizes(policy, GrownSize(policy, old(Slots())), Slots())
      ensures !ok ==> |chain| == fuel + 1 && chain[0] == t && Growths(policy, chain)
      decreases fuel, 1
    {
      hide Full, Growths, Probing, Holds, Live, Sizes;
      assert key !in model by { KeyIsNew(policy, t); }
      ok, it, chain := GrowAndEmplace(key, value, fuel);
      if !ok {
        GrowthsMore(policy, t, chain);
        chain := [t] + chain;
      }
    }

    /** Counts the entry that has been added. */
    method Commit(ghost m1: map<nat, nat>)
      requires policy.Valid() && Bounded() && Sized(entries[..], Slots(), maxLookups) && |m1| == numElements + 1 && 2 * |m1| <= Slots()
      requires Holds(entries[..], m1) && Probing(entries[..], policy, Slots(), maxLookups)
      modifies this`numElements, this`model
      ensures Valid() && model == m1
    {
      numElements := numElements + 1;
      model := m1;
    }

    /** The new key goes into an empty slot. */
    method Place(distance: nat, at: nat, key: nat, value: nat)
      requires Valid() && key !in model && Fits(entries[..], policy, Slots(), maxLookups, Entry(distance, key, value), at)
      requires entries[at].d < 0 && 2 * (numElements + 1) <= Slots()
      modifies this`numElements, this`model, entries
      ensures Valid() && model == old(model)[key := value] && Live(entries[..], at) && entries[at].key == key
    {
      ghost var s, c := entries[..], Entry(distance, key, value);
      InsertStep(s, policy, Slots(), maxLookups, model, c, at);
      entries[at] := Entry(distance, key, value);
      assert entries[..] == s[at := c];
      Commit(model[key := value]);
    }

    /** The entry `c` is in hand before slot `cur`; with it the slots hold `m1`, and slot `result` holds the new key. */
    ghost predicate InHand(c: Entry, cur: nat, m1: map<nat, nat>, result: nat, key: nat)
      reads this, entries
    {
      && policy.Valid() && Sized(entries[..], Slots(), maxLookups) && Slots() >= 2
      && Probing(entries[..], policy, Slots(), maxLookups) && Fits(entries[..], policy, Slots(), maxLookups, c, cur)
      && HoldsWith(entries[..], c, m1) && result < cur && Live(entries[..], result) && entries[result].key == key
    }

    /** Puts the new key into an occupied slot and moves the displaced entries on.  If one of them gets
        too far from its slot, the new key is taken out again. */
    method Displace(distance: nat, at: nat, key: nat, value: nat) returns (done: bool)
      requires Valid() && key !in model && Fits(entries[..], policy, Slots(), maxLookups, Entry(distance, key, value), at)
      requires Slots() >= 2 && 0 <= entries[at].d < distance && 2 * (numElements + 1) <= Slots()
      modifies this`numElements, this`model, entries
      ensures done <==> Room(old(entries[..]), maxLookups, distance, at)
      ensures done ==> Valid() && model == old(model)[key := value] && Live(entries[..], at) && entries[at].key == key
      ensures !done ==> Loose() && model == old(model) && numElements == |model|
    {
      hide Probing, Holds, HoldsWith, Room, StopsAt, Live;
      ghost var s := entries[..];
      var c := TakePlace(distance, at, key, value);
      TakenRoom(s, entries[..], maxLookups, distance, at);
      var outcome;
      c, outcome := CarryAll(c, at, model[key := value], key);
      done := outcome == Put;
      if done {
        Commit(model[key := value]);
      } else {
        GiveUp(c, at, key, value);
      }
    }

    /** Moves the entry in hand on until one finds an empty slot or gets too far from its own. */
    method CarryAll(c: Entry, at: nat, ghost m1: map<nat, nat>, ghost key: nat) returns (c': Entry, outcome: Outcome)
      requires InHand(c, at + 1, m1, at, key)
      modifies entries
      ensures outcome != Carried && (outcome == Put <==> Room(old(entries[..]), maxLookups, c.d, at + 1))
      ensures Sized(entries[..], Slots(), maxLookups) && Live(entries[..], at) && entries[at].key == key
      ensures outcome == Put ==> Holds(entries[..], m1) && Probing(entries[..], policy, Slots(), maxLookups)
      ensures outcome == Stuck ==> HoldsWith(entries[..], c', m1)
    {
      c', outcome := c, Carried;
      var cur := at + 1;
      while outcome == Carried
        invariant outcome == Carried ==> InHand(c', cur, m1, at, key) && Room(old(entries[..]), maxLookups, c.d, at + 1) == Room(entries[..], maxLookups, c'.d, cur)
        invariant outcome != Carried ==> (outcome == Put <==> Room(old(entries[..]), maxLookups, c.d, at + 1))
        invariant Sized(entries[..], Slots(), maxLookups) && Live(entries[..], at) && entries[at].key == key
        invariant outcome == Put ==> Holds(entries[..], m1) && Probing(entries[..], policy, Slots(), maxLookups)
        invariant outcome == Stuck ==> HoldsWith(entries[..], c', m1)
        decreases outcome == Carried, entries.Length - cur
      {
        c', outcome := CarryOn(c', cur, m1, at, key);
        cur := cur + 1;
      }
    }

    /** The new key takes the slot; the entry there is taken up. */
    method TakePlace(distance: nat, at: nat, key: nat, value: nat) returns (c: Entry)
      requires Valid() && key !in model && Fits(entries[..], policy, Slots(), maxLookups, Entry(distance, key, value), at)
      requires Slots() >= 2 && 0 <= entries[at].d < distance
      modifies entries
      ensures InHand(c, at + 1, model[key := value], at, key)
      ensures c.d == old(entries[at].d) + 1 && forall i :: at < i < entries.Length ==> entries[i] == old(entries[i])
    {
      ghost var s, e := entries[..], Entry(distance, key, value);
      DisplaceStep(s, policy, Slots(), maxLookups, model, e, at);
      c := entries[at].(d := entries[at].d + 1);
      entries[at] := Entry(distance, key, value);
      assert entries[..] == s[at := e];
    }

    /** One slot of the displacement. */
    method CarryOn(c: Entry, cur: nat, ghost m1: map<nat, nat>, ghost result: nat, ghost key: nat) returns (c': Entry, outcome: Outcome)
      requires InHand(c, cur, m1, result, key)
      modifies entries
      ensures outcome == Carried ==> InHand(c', cur + 1, m1, result, key)
      ensures Room(old(entries[..]), maxLookups, c.d, cur) <==> outcome == Put || (outcome == Carried && Room(entries[..], maxLookups, c'.d, cur + 1))
      ensures outcome != Carried ==>
        Sized(entries[..], Slots(), maxLookups) && Live(entries[..], result) && entries[result].key == key
      ensures outcome == Put ==> Holds(entries[..], m1) && Probing(entries[..], policy, Slots(), maxLookups)
      ensures outcome == Stuck ==> HoldsWith(entries[..], c', m1)
    {
      hide Probing, Holds, HoldsWith;
      ghost var s := entries[..];
      if entries[cur].d < 0 {
        PutDown(s, c, m1, cur, c.d);
        PutKeepsProbing(s, policy, Slots(), maxLookups, c, cur);
        entries[cur] := c;
        assert entries[..] == s[cur := c];
        return c, Put;
      } else if entries[cur].d < c.d {
        Exchange(s, c, m1, cur, c.d, s[cur].d + 1);
        SwapStep(s, policy, Slots(), maxLookups, c, cur);
        c' := entries[cur].(d := entries[cur].d + 1);
        entries[cur] := c;
        assert entries[..] == s[cur := c];
        TakenRoom(s, entries[..], maxLookups, c.d, cur);
        return c', Carried;
      } else if c.d + 1 == maxLookups {
        StillInHand(s, c, m1, c.d + 1);
        return c.(d := c.d + 1), Stuck;
      } else {
        StillInHand(s, c, m1, c.d + 1);
        PassStep(s, policy, Slots(), maxLookups, c, cur);
        return c.(d := c.d + 1), Carried;
      }
    }

    /** The entry in hand takes the slot of the new key. */
    method GiveUp(c: Entry, result: nat, key: nat, value: nat)
      requires policy.Valid() && Bounded() && Sized(entries[..], Slots(), maxLookups) && key !in model
      requires HoldsWith(entries[..], c, model[key := value]) && Live(entries[..], result) && entries[result].key == key
      modifies entries
      ensures Loose()
    {
      ghost var s := entries[..];
      RollBack(s, c, model, key, value, result);
      entries[result] := Entry(entries[result].d, c.key, c.value);
      assert entries[..] == s[result := Entry(s[result].d, c.key, c.value)];
    }

    /** Grows the table and inserts a key that is not in it. */
    method GrowAndEmplace(key: nat, value: nat, fuel: nat) returns (ok: bool, it: nat, ghost chain: seq<State>)
      requires Loose() && numElements == |model| && HalfFull() && key !in model
      modifies this, entries
      ensures entries == old(entries) || fresh(entries)
      ensures ok ==> Valid() && model == old(model)[key := value] && Live(entries[..], it) && entries[it].key == key
      ensures ok ==> Sizes(policy, GrownSize(policy, old(Slots())), Slots())
      ensures !ok ==> |chain| == fuel && Growths(policy, chain) && (chain != [] ==> Grown(old(Inserting(key)), chain[0]))
      decreases fuel, 0
    {
      if fuel == 0 {
        return false, 0, [];
      }
      hide Probing, Holds, NeedsGrowth, Sizes, Growths, Live, NewSize, GrownSize, Sized;
      ghost var size, slots := NewSize(if 2 * BucketCount() < 4 then 4 else 2 * BucketCount()), Slots();
      GrowingSize();
      ok, chain := Rehash(if 2 * BucketCount() < 4 then 4 else 2 * BucketCount(), fuel - 1);
      it := 0;
      if ok {
        var inserted;
        ghost var moved := Slots();
        SizesDouble(policy, size, moved);
        ok, it, inserted, chain := Emplace(key, value, fuel - 1);
        if ok { SizesGo(policy, size, moved, Slots()); }
      }
    }

    /** The number of buckets that a rehash to `numBuckets` makes. */
    function NewSize(numBuckets: nat): nat
      reads this
    {
      var n := if numBuckets < 2 * numElements then 2 * numElements else numBuckets;
      if n == 0 then 0 else policy.nextSize(n)
    }

    /** Growing makes a table of at least twice the size. */
    lemma GrowingSize()
      requires policy.Valid() && HalfFull()
      ensures NewSize(if 2 * BucketCount() < 4 then 4 else 2 * BucketCount()) == GrownSize(policy, Slots())
      ensures GrownSize(policy, Slots()) >= 2 * Slots() && GrownSize(policy, Slots()) >= 4 && GrownSize(policy, Slots()) > BucketCount()
    {
    }

    /** Moves all entries to a new table.  Inserting them may itself grow the new table. */
    method Rehash(numBuckets: nat, fuel: nat) returns (ok: bool, ghost chain: seq<State>)
      requires Loose() && numElements == |model| && HalfFull() && (NewSize(numBuckets) == BucketCount() ==> Valid())
      modifies this, entries
      ensures entries == old(entries) || fresh(entries)
      ensures ok ==> Valid() && model == old(model)
      ensures ok && old(NewSize(numBuckets)) > 0 ==> Sizes(policy, old(NewSize(numBuckets)), Slots())
      ensures ok && old(NewSize(numBuckets)) == 0 ==> Slots() == 1
      ensures !ok ==> |chain| == fuel + 1 && Growths(policy, chain)
      ensures !ok ==> chain[0].slots >= old(NewSize(numBuckets)) && chain[0].model.Keys + {chain[0].key} <= old(model).Keys
      decreases fuel, 5
    {
      chain := [];
      var n := NewSize(numBuckets);
      if n == 0 && BucketCount() != 0 {
        assert model == map[];
        Prepare(1, MIN_LOOKUPS - 1);
        return true, [];
      }
      if n == BucketCount() {
        SameSize(policy, Slots());
        return true, [];
      }
      var oldBuckets := entries[..];
      ghost var m0 := model;
      Prepare(n, ComputeMaxLookups(n));
      ok, chain := MoveAll(oldBuckets, m0, fuel);
    }

    /** Inserts the entries of the old table into the new one. */
    method MoveAll(oldBuckets: seq<Entry>, ghost m0: map<nat, nat>, fuel: nat) returns (ok: bool, ghost chain: seq<State>)
      requires Valid() && model == map[] && |oldBuckets| > 0 && Holds(oldBuckets, m0)
      modifies this, entries
      ensures entries == old(entries) || fresh(entries)
      ensures ok ==> Valid() && model == m0 && Sizes(policy, old(Slots()), Slots())
      ensures !ok ==> |chain| == fuel + 1 && Growths(policy, chain)
      ensures !ok ==> chain[0].slots >= old(Slots()) && chain[0].model.Keys + {chain[0].key} <= m0.Keys
      decreases fuel, 4
    {
      hide Sizes, Holds, Probing, Moved, NeedsGrowth, Growths, Sized;
      ok, chain := true, [];
      SameSize(policy, Slots());
      NothingMoved(oldBuckets, m0);
      for i := 0 to |oldBuckets| - 1
        invariant Valid() && (entries == old(entries) || fresh(entries)) && Sizes(policy, old(Slots()), Slots()) && Moved(oldBuckets, m0, model, i)
      {
        ghost var size := Slots();
        MoveEntry(oldBuckets, m0, model, i);
        if oldBuckets[i].HasValue() {
          KeysOf(oldBuckets, m0, model, i);
          var it, inserted;
          ok, it, inserted, chain := Emplace(oldBuckets[i].key, oldBuckets[i].value, fuel);
          if !ok {
            SizesDouble(policy, old(Slots()), size);
            return;
          }
          SizesGo(policy, old(Slots()), size, Slots());
        }
      }
      AllMoved(oldBuckets, m0, model);
    }

    lemma KeysOf(s: seq<Entry>, m0: map<nat, nat>, model: map<nat, nat>, i: nat)
      requires Holds(s, m0) && Moved(s, m0, model, i) && i < |s| - 1 && s[i].HasValue()
      ensures model.Keys + {s[i].key} <= m0.Keys
    {
      assert Live(s, i) && Maps(m0, s[i]);
    }

    /** A fresh empty table. */
    method Prepare(n: nat, m: nat)
      requires policy.Valid() && n >= 1 && m == if n == 1 then MIN_LOOKUPS - 1 else ComputeMaxLookups(n)
      modifies this
      ensures Valid() && fresh(entries) && model == map[] && Slots() == n
    {
      entries := new Entry[n + m](i => if i == n + m - 1 then END else EMPTY);
      numSlotsMinusOne, maxLookups, numElements := n - 1, m, 0;
      model := map[];
    }
  }
}
