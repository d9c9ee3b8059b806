/** Arithmetic of the packed-memory array: where a redispatch puts the keys of a node, how many keys
    every part of the node gets, and the density bounds of the levels. */
module GpmaMath {
  import opened Powers

  // ---- Redispatch ----

  /** The segment and the place in it that the `i`-th of `size` keys goes to; `frac` segments. */
  function SegIdx(frac: nat, size: nat, i: nat): nat
    requires size > 0
  {
    frac * i / size
  }

  function SegLane(frac: nat, size: nat, i: nat): nat
    requires size > 0 && frac > 0
  {
    frac * i % size / frac
  }

  /** The number of keys before segment `s`. */
  function Cut(frac: nat, size: nat, s: nat): nat
    requires frac > 0
  {
    (s * size + frac - 1) / frac
  }

  lemma CutBounds(frac: nat, size: nat, s: nat)
    requires frac > 0
    ensures s * size <= frac * Cut(frac, size, s) < s * size + frac
  {
    var x := s * size + frac - 1;
    assert x == frac * (x / frac) + x % frac;
  }

  lemma Cancel(f: nat, a: int, b: int)
    requires f > 0 && f * a < f * b
    ensures a < b
  {
    if a >= b { LessTimes(f, b, a); }
  }

  lemma LessTimes(f: nat, a: int, b: int)
    requires a <= b
    ensures f * a <= f * b
  {
  }

  lemma Quotient(x: nat, m: nat, q: nat)
    requires m > 0 && q * m <= x < (q + 1) * m
    ensures x / m == q && x % m == x - q * m
  {
    var d := x / m;
    assert x == d * m + x % m;
    if d < q { LessTimes(m, d + 1, q); }
    if d > q { LessTimes(m, q + 1, d); }
  }

  lemma Distribute(f: nat, a: int, b: int)
    ensures f * (a + b) == f * a + f * b && f * (a - b) == f * a - f * b
  {
  }

  lemma FromSegment(frac: nat, size: nat, i: nat, s: nat)
    requires frac > 0 && size > 0 && SegIdx(frac, size, i) == s
    ensures Cut(frac, size, s) <= i < Cut(frac, size, s + 1)
  {
    CutBounds(frac, size, s);
    CutBounds(frac, size, s + 1);
    var x := frac * i;
    assert x == (x / size) * size + x % size;
    Distribute(size, s, 1);
    Distribute(frac, i, 1);
    Cancel(frac, Cut(frac, size, s), i + 1);
    Cancel(frac, i, Cut(frac, size, s + 1));
  }

  lemma ToSegment(frac: nat, size: nat, i: nat, s: nat)
    requires frac > 0 && size > 0 && Cut(frac, size, s) <= i < Cut(frac, size, s + 1)
    ensures SegIdx(frac, size, i) == s
  {
    CutBounds(frac, size, s);
    CutBounds(frac, size, s + 1);
    LessTimes(frac, Cut(frac, size, s), i);
    LessTimes(frac, i + 1, Cut(frac, size, s + 1));
    Distribute(frac, i, 1);
    Distribute(size, s, 1);
    Quotient(frac * i, size, s);
  }

  /** Key `i` goes to segment `s` exactly when it lies between the cuts of `s`, and there to the place
      given by its distance from the cut: segments are filled in order, from their first slot. */
  lemma Dispatched(frac: nat, size: nat, i: nat, s: nat)
    requires frac > 0 && size > 0
    ensures SegIdx(frac, size, i) == s <==> Cut(frac, size, s) <= i < Cut(frac, size, s + 1)
    ensures SegIdx(frac, size, i) == s ==> SegLane(frac, size, i) == i - Cut(frac, size, s)
  {
    if SegIdx(frac, size, i) == s {
      FromSegment(frac, size, i, s);
      LaneIs(frac, size, i, s);
    } else if Cut(frac, size, s) <= i < Cut(frac, size, s + 1) {
      ToSegment(frac, size, i, s);
    }
  }

  lemma LaneIs(frac: nat, size: nat, i: nat, s: nat)
    requires frac > 0 && size > 0 && SegIdx(frac, size, i) == s && Cut(frac, size, s) <= i
    ensures SegLane(frac, size, i) == i - Cut(frac, size, s)
  {
    CutBounds(frac, size, s);
    var x, c := frac * i, Cut(frac, size, s);
    var t := i - c;
    assert x == s * size + x % size;
    assert frac * i == frac * c + frac * t;
    assert x % size == (frac * c - s * size) + t * frac;
    Quotient(x % size, frac, t);
  }

  /** The keys in `g` neighbouring segments are `size * g / frac`, rounded one way or the other. */
  lemma EvenShare(frac: nat, size: nat, s: nat, g: nat, lo: nat, hi: nat)
    requires frac > 0 && frac * lo <= size * g <= frac * hi
    ensures lo <= Cut(frac, size, s + g) - Cut(frac, size, s) <= hi
  {
    CutBounds(frac, size, s);
    CutBounds(frac, size, s + g);
    Distribute(size, s, g);
    Between(frac, Cut(frac, size, s), Cut(frac, size, s + g), s * size, size * g, lo, hi);
  }

  lemma Between(f: nat, a: nat, b: nat, p: nat, q: nat, lo: nat, hi: nat)
    requires f > 0 && p <= f * a < p + f && p + q <= f * b < p + q + f && f * lo <= q <= f * hi
    ensures lo <= b - a <= hi
  {
    Distribute(f, b, a);
    Distribute(f, hi, 1);
    Distribute(f, lo, 1);
    Cancel(f, b - a, hi + 1);
    Cancel(f, lo - 1, b - a);
  }

  lemma CutEnds(frac: nat, size: nat)
    requires frac > 0
    ensures Cut(frac, size, 0) == 0 && Cut(frac, size, frac) == size
  {
    CutBounds(frac, size, 0);
    CutBounds(frac, size, frac);
    if Cut(frac, size, 0) > 0 { LessTimes(frac, 1, Cut(frac, size, 0)); }
    Cancel(frac, Cut(frac, size, frac), size + 1);
    Cancel(frac, size - 1, Cut(frac, size, frac));
  }

  // ---- Density ----

  /** The bounds of a level allow no more than twice, and no less than twice, those below it. */
  ghost predicate Trimmed(lower: seq<nat>, upper: seq<nat>) {
    && |lower| == |upper|
    && forall i :: 0 < i < |lower| ==> lower[i] >= 2 * lower[i - 1] && upper[i] <= 2 * upper[i - 1]
  }

  lemma {:induction false} TrimmedLevels(lower: seq<nat>, upper: seq<nat>, j: nat, up: nat)
    requires Trimmed(lower, upper) && j + up < |lower|
    ensures Pow2(up) * lower[j] <= lower[j + up] && upper[j + up] <= Pow2(up) * upper[j]
    decreases up
  {
    if up > 0 {
      TrimmedLevels(lower, upper, j, up - 1);
      assert Pow2(up) * lower[j] == 2 * (Pow2(up - 1) * lower[j]);
      assert Pow2(up) * upper[j] == 2 * (Pow2(up - 1) * upper[j]);
    }
  }

  /** Density is inherited: when a node at `level` holds a number of keys within its bounds and they
      are redispatched evenly, every node at every lower level is within its own bounds. */
  lemma DensityInherited(lower: seq<nat>, upper: seq<nat>, level: nat, size: nat, j: nat, s: nat)
    requires Trimmed(lower, upper) && j <= level < |lower| && lower[level] <= size <= upper[level]
    ensures lower[j] <= Cut(Pow2(level), size, s + Pow2(j)) - Cut(Pow2(level), size, s) <= upper[j]
  {
    var up := level - j;
    var f, g, h := Pow2(level), Pow2(j), Pow2(up);
    Pow2Adds(up, j);
    TrimmedLevels(lower, upper, j, up);
    assert f == h * g;
    Scale(h, g, lower[j], upper[j], size);
    EvenShare(f, size, s, g, lower[j], upper[j]);
  }

  lemma Scale(h: nat, g: nat, lo: nat, hi: nat, size: nat)
    requires h * lo <= size <= h * hi
    ensures h * g * lo <= size * g <= h * g * hi
  {
    LessTimes(g, h * lo, size);
    LessTimes(g, size, h * hi);
    assert g * (h * lo) == h * g * lo && g * (h * hi) == h * g * hi;
  }

  function Ceil(x: real): int { if x.Floor as real == x then x.Floor else x.Floor + 1 }

  /** The density between root and leaf: `i` of `height` levels above the leaves. */
  function Share(root: real, leaf: real, height: nat, i: nat): real
    requires height > 0
  {
    root + (leaf - root) * ((height - i) as real / height as real)
  }

  lemma ShareBounds(root: real, leaf: real, height: nat, i: nat)
    requires height > 0 && i <= height && 0.0 <= root && 0.0 <= leaf
    ensures 0.0 <= Share(root, leaf, height, i)
    ensures i == 0 ==> Share(root, leaf, height, i) == leaf
  {
    var t := (height - i) as real / height as real;
    Ratio((height - i) as real, height as real);
    Mix(root, leaf, t);
    if i == 0 {
      Unit(height as real);
      Whole(root, leaf, t);
    }
  }

  lemma Ratio(k: real, h: real)
    requires h > 0.0 && 0.0 <= k <= h
    ensures 0.0 <= k / h <= 1.0
  {
    assert k / h * h == k;
    Outside(k / h, h);
  }

  lemma Outside(t: real, h: real)
    requires h > 0.0
    ensures (t < 0.0 ==> t * h < 0.0) && (t > 1.0 ==> t * h > h)
  {
    if t < 0.0 { Larger(-t, h); }
    if t > 1.0 {
      Larger(t - 1.0, h);
      assert (t - 1.0) * h == t * h - h;
    }
  }

  lemma Unit(h: real)
    requires h > 0.0
    ensures h / h == 1.0
  {
  }

  lemma Larger(x: real, y: real)
    requires 0.0 < x && 0.0 < y
    ensures 0.0 < x * y
  {
  }

  lemma Mix(root: real, leaf: real, t: real)
    requires 0.0 <= t <= 1.0 && 0.0 <= root && 0.0 <= leaf
    ensures root + (leaf - root) * t >= 0.0
  {
    Spread(root, leaf, t);
    Positive(root, 1.0 - t);
    Positive(leaf, t);
  }

  lemma Spread(root: real, leaf: real, t: real)
    ensures root + (leaf - root) * t == root * (1.0 - t) + leaf * t
  {
  }

  lemma Whole(root: real, leaf: real, t: real)
    requires t == 1.0
    ensures root + (leaf - root) * t == leaf
  {
  }

  lemma Positive(x: real, y: real)
    requires 0.0 <= x && 0.0 <= y
    ensures 0.0 <= x * y
  {
  }

  lemma AtMostWhole(x: real, y: real)
    requires x <= 1.0 && 0.0 <= y
    ensures x * y <= y
  {
    Positive(1.0 - x, y);
    assert (1.0 - x) * y == y - x * y;
  }

  /** The number of keys that a density allows in a level of this length. */
  function Load(density: real, length: nat): real { density * length as real }

  lemma LoadPositive(density: real, length: nat)
    requires 0.0 <= density
    ensures 0.0 <= Load(density, length)
  {
    Positive(density, length as real);
  }

  /** `n` is the least number that reaches `load`, and the greatest that does not exceed it. */
  predicate IsCeil(n: nat, load: real) { n as real >= load && n as real - 1.0 < load }

  predicate IsFloor(n: nat, load: real) { n as real <= load < n as real + 1.0 }

  /** The bounds of one level before the trim. */
  method OneLevel(densityLower: real, densityUpper: real, levelLength: nat) returns (lo: nat, hi: nat)
    requires 0.0 <= densityLower && 0.0 <= densityUpper
    ensures IsCeil(lo, Load(densityLower, levelLength)) && IsFloor(hi, Load(densityUpper, levelLength))
  {
    hide Load;
    LoadPositive(densityLower, levelLength);
    LoadPositive(densityUpper, levelLength);
    lo := Ceil(Load(densityLower, levelLength));
    hi := Load(densityUpper, levelLength).Floor;
  }

  /** The density parameters of a tree. */
  datatype Densities = Densities(height: nat, lowerRoot: real, lowerLeaf: real, upperRoot: real, upperLeaf: real)
  {
    predicate Valid() {
      height > 0 && 0.0 <= lowerRoot && 0.0 <= lowerLeaf && 0.0 <= upperRoot && 0.0 <= upperLeaf <= 1.0
    }

    function Lower(i: nat): real
      requires Valid()
    {
      Share(lowerRoot, lowerLeaf, height, i)
    }

    function Upper(i: nat): real
      requires Valid()
    {
      Share(upperRoot, upperLeaf, height, i)
    }
  }

  /** The lower bound of level `i` is the ceiling of its load or twice the bound below, whichever is more. */
  ghost predicate LowerOf(lo: nat, load: real, i: nat, below: nat) {
    if i > 0 && 2 * below >= lo then lo == 2 * below && lo as real >= load else IsCeil(lo, load)
  }

  /** The upper bound of level `i` is the floor of its load or twice the bound below, whichever is less. */
  ghost predicate UpperOf(hi: nat, load: real, i: nat, below: nat) {
    if i > 0 && 2 * below <= hi then hi == 2 * below && hi as real <= load else IsFloor(hi, load)
  }

  /** The bounds of level `i`, trimmed to the level below. */
  method TrimmedLevel(d: Densities, i: nat, levelLength: nat, belowLo: nat, belowHi: nat) returns (lo: nat, hi: nat)
    requires d.Valid() && i <= d.height
    ensures LowerOf(lo, Load(d.Lower(i), levelLength), i, belowLo) && UpperOf(hi, Load(d.Upper(i), levelLength), i, belowHi)
  {
    hide Load, Share;
    ShareBounds(d.lowerRoot, d.lowerLeaf, d.height, i);
    ShareBounds(d.upperRoot, d.upperLeaf, d.height, i);
    lo, hi := OneLevel(d.Lower(i), d.Upper(i), levelLength);
    if i > 0 {
      if lo < 2 * belowLo { lo := 2 * belowLo; }
      if hi > 2 * belowHi { hi := 2 * belowHi; }
    }
  }

  /** No leaf is allowed more keys than it has slots. */
  lemma LeafUpper(d: Densities, hi: nat, levelLength: nat)
    requires d.Valid() && UpperOf(hi, Load(d.Upper(0), levelLength), 0, 0)
    ensures hi <= levelLength
  {
    hide Share;
    ShareBounds(d.upperRoot, d.upperLeaf, d.height, 0);
    AtMostWhole(d.Upper(0), levelLength as real);
  }

  ghost predicate LevelSet(d: Densities, segLength: nat, lower: seq<nat>, upper: seq<nat>, i: nat)
    requires d.Valid() && i < |lower| == |upper|
  {
    && LowerOf(lower[i], Load(d.Lower(i), segLength * Pow2(i)), i, if i > 0 then lower[i - 1] else 0)
    && UpperOf(upper[i], Load(d.Upper(i), segLength * Pow2(i)), i, if i > 0 then upper[i - 1] else 0)
  }

  /** Fills the bounds of all levels, leaves first. */
  method RecalculateDensity(d: Densities, segLength: nat) returns (lower: seq<nat>, upper: seq<nat>)
    requires d.Valid()
    ensures |lower| == |upper| == d.height + 1 && forall i :: 0 <= i <= d.height ==> LevelSet(d, segLength, lower, upper, i)
    ensures Trimmed(lower, upper) && forall i :: 0 <= i <= d.height ==> upper[i] <= segLength * Pow2(i)
  {
    hide Load, LowerOf, UpperOf, Pow2, Share;
    lower, upper := [], [];
    var levelLength := segLength;
    NextLength(segLength, 0);
    for i := 0 to d.height + 1
      invariant |lower| == |upper| == i && levelLength == segLength * Pow2(i)
      invariant forall k :: 0 <= k < i ==> LevelSet(d, segLength, lower, upper, k)
    {
      var lo, hi := TrimmedLevel(d, i, levelLength, if i > 0 then lower[i - 1] else 0, if i > 0 then upper[i - 1] else 0);
      NextLength(segLength, i);
      ghost var lower0, upper0 := lower, upper;
      lower, upper := lower + [lo], upper + [hi];
      forall k | 0 <= k < i
        ensures LevelSet(d, segLength, lower, upper, k)
      {
        assert LevelSet(d, segLength, lower0, upper0, k);
      }
      levelLength := levelLength * 2;
    }
    BoundsFit(d, segLength, lower, upper);
  }

  lemma {:induction false} UpperFits(d: Densities, segLength: nat, lower: seq<nat>, upper: seq<nat>, i: nat)
    requires d.Valid() && |lower| == |upper| && i < |upper| && forall k :: 0 <= k < |upper| ==> LevelSet(d, segLength, lower, upper, k)
    ensures upper[i] <= segLength * Pow2(i)
  {
    hide Load, Pow2, Share;
    NextLength(segLength, i);
    if i == 0 {
      assert LevelSet(d, segLength, lower, upper, 0);
      LeafUpper(d, upper[0], segLength * Pow2(0));
    } else {
      UpperFits(d, segLength, lower, upper, i - 1);
      assert LevelSet(d, segLength, lower, upper, i);
    }
  }

  /** The trim makes the bounds of a level consistent with those of the level below. */
  lemma BoundsFit(d: Densities, segLength: nat, lower: seq<nat>, upper: seq<nat>)
    requires d.Valid() && |lower| == |upper| && forall k :: 0 <= k < |upper| ==> LevelSet(d, segLength, lower, upper, k)
    ensures Trimmed(lower, upper) && forall i :: 0 <= i < |upper| ==> upper[i] <= segLength * Pow2(i)
  {
    hide Load, Pow2, Share;
    forall i | 0 <= i < |upper|
      ensures upper[i] <= segLength * Pow2(i)
      ensures i > 0 ==> lower[i] >= 2 * lower[i - 1] && upper[i] <= 2 * upper[i - 1]
    {
      UpperFits(d, segLength, lower, upper, i);
      assert LevelSet(d, segLength, lower, upper, i);
    }
  }

  lemma NextLength(segLength: nat, i: nat)
    ensures segLength * Pow2(0) == segLength
    ensures segLength * Pow2(i + 1) == segLength * Pow2(i) * 2
    ensures i > 0 ==> segLength * Pow2(i) == 2 * (segLength * Pow2(i - 1))
  {
    Twice(segLength, i);
    if i > 0 { Twice(segLength, i - 1); }
  }

  lemma Twice(n: nat, i: nat)
    ensures n * Pow2(i + 1) == 2 * (n * Pow2(i))
  {
    var p := Pow2(i);
    assert n * (2 * p) == 2 * (n * p);
  }
}
