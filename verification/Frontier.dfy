/** Frontiers: partial matches packed into words, and what extending all of them by a pass keeps. */
module Frontier {
  import opened MatchSearch
  import opened QueryPlan
  import opened CpuDfs
  import opened Warp

  /** What a batch is matched against. */
  datatype Batch = Batch(plan: Plan, main: Lists, upd: Lists, support: (nat, nat, nat) -> bool, dv: nat)
  {
    ghost predicate Valid() {
      plan.Valid() && plan.n >= 3 && Staged(main, upd) && dv <= TAG && plan.m <= 32
    }

    /** The masked search problem for query edge `ei`. */
    function P(ei: nat): (p: Problem)
      ensures plan.Valid() ==> p.Valid()
    {
      SearchProblem(plan, main, upd, ei, true, support)
    }
  }

  // ---- Rows as words ----

  function EncodeRow(ei: nat, row: Row): seq<nat>
    requires |row| > 0
  {
    [Pack(ei, row[0])] + row[1..]
  }

  function EncodeAll(ei: nat, rows: seq<Row>): seq<nat>
    requires forall r :: r in rows ==> |r| > 0
  {
    if rows == [] then [] else EncodeRow(ei, rows[0]) + EncodeAll(ei, rows[1..])
  }

  /** The full matches below a frontier. */
  function Below(b: Batch, words: seq<nat>, depth: nat): nat
    requires b.plan.Valid() && 2 <= depth <= b.plan.n
  {
    RowTotal(b.plan, b.main, b.upd, true, b.support, words, depth)
  }

  lemma {:induction false} BelowConcat(b: Batch, x: seq<nat>, k: nat, y: seq<nat>, depth: nat)
    requires b.plan.Valid() && 2 <= depth <= b.plan.n && |x| == Words(k, depth)
    ensures Below(b, x + y, depth) == Below(b, x, depth) + Below(b, y, depth)
    decreases k
  {
    if k == 0 {
      assert x + y == y;
    } else {
      OneRow(k, depth);
      assert (x + y)[..depth] == x[..depth] && (x + y)[depth..] == x[depth..] + y;
      BelowConcat(b, x[depth..], k - 1, y, depth);
    }
  }

  lemma EncodeDecode(ei: nat, row: Row)
    requires |row| > 0 && row[0] < TAG
    ensures EdgeOf(EncodeRow(ei, row)[0]) == ei && Unpack(EncodeRow(ei, row)) == row
  {
  }

  /** One encoded row leads to its completions. */
  lemma BelowRow(b: Batch, ei: nat, row: Row, rest: seq<nat>, depth: nat)
    requires b.plan.Valid() && 2 <= depth <= b.plan.n && |row| == depth && row[0] < TAG
    ensures |EncodeRow(ei, row)| == depth
    ensures Below(b, EncodeRow(ei, row) + rest, depth) == |Complete(b.P(ei), b.plan.n, row)| + Below(b, rest, depth)
  {
    hide Complete;
    EncodeDecode(ei, row);
    var w := EncodeRow(ei, row) + rest;
    assert w[..depth] == EncodeRow(ei, row) && w[depth..] == rest;
  }

  lemma NothingBelow(b: Batch, depth: nat)
    requires b.plan.Valid() && 2 <= depth <= b.plan.n
    ensures Below(b, [], depth) == 0 == Words(0, depth)
  {
  }

  /** Encoded rows lead to exactly the completions of the rows. */
  lemma {:induction false} EncodedBelow(b: Batch, ei: nat, rows: seq<Row>, depth: nat)
    requires b.plan.Valid() && 2 <= depth <= b.plan.n
    requires forall r :: r in rows ==> |r| == depth && r[0] < TAG
    ensures |EncodeAll(ei, rows)| == Words(|rows|, depth)
    ensures Below(b, EncodeAll(ei, rows), depth) == |Pass(b.P(ei), b.plan.n, rows)|
    decreases |rows|
  {
    hide Complete, Below, Words, EncodeRow;
    if rows != [] {
      EncodedBelow(b, ei, rows[1..], depth);
      OneRow(|rows|, depth);
      BelowRow(b, ei, rows[0], EncodeAll(ei, rows[1..]), depth);
    } else {
      NothingBelow(b, depth);
    }
  }

  lemma RowsKeepFirst(p: Problem, e: nat, pre: Row)
    requires p.Valid() && 1 <= |pre| <= e <= p.n
    ensures forall r :: r in Complete(p, e, pre) ==> |r| == e && r[0] == pre[0]
  {
    forall r | r in Complete(p, e, pre)
      ensures |r| == e && r[0] == pre[0]
    {
      CompleteContents(p, e, pre, r);
    }
  }

  lemma BelowOne(b: Batch, w: seq<nat>)
    requires b.plan.Valid() && 2 <= |w| <= b.plan.n
    ensures Below(b, w, |w|) == |Complete(b.P(EdgeOf(w[0])), b.plan.n, Unpack(w))|
  {
    assert w[..|w|] == w && w[|w|..] == [];
    assert Below(b, [], |w|) == 0;
  }

  /** Extending a row by a pass keeps what lies below it. */
  lemma ExtendedBelow(b: Batch, w: seq<nat>, p: Problem, rows: seq<Row>, newDepth: nat)
    requires b.plan.Valid() && 2 <= |w| < newDepth <= b.plan.n
    requires p == b.P(EdgeOf(w[0])) && rows == Complete(p, newDepth, Unpack(w))
    ensures forall r :: r in rows ==> |r| == newDepth && r[0] < TAG
    ensures |EncodeAll(EdgeOf(w[0]), rows)| == Words(|rows|, newDepth)
    ensures Below(b, EncodeAll(EdgeOf(w[0]), rows), newDepth) == Below(b, w, |w|)
  {
    var row := Unpack(w);
    RowsKeepFirst(p, newDepth, row);
    CompleteInTwo(p, newDepth, b.plan.n, row);
    EncodedBelow(b, EdgeOf(w[0]), rows, newDepth);
    BelowOne(b, w);
  }

  // ---- Passes ----

  /** The rows that one row is extended to, packed. */
  ghost function RowExtension(b: Batch, w: seq<nat>, newDepth: nat): seq<nat>
    requires b.plan.Valid() && 2 <= |w| < newDepth <= b.plan.n
  {
    RowsKeepFirst(b.P(EdgeOf(w[0])), newDepth, Unpack(w));
    EncodeAll(EdgeOf(w[0]), Complete(b.P(EdgeOf(w[0])), newDepth, Unpack(w)))
  }

  /** The frontier that a pass makes: the extensions of the rows, one behind the other. */
  ghost function Extension(b: Batch, words: seq<nat>, depth: nat, newDepth: nat): seq<nat>
    requires b.plan.Valid() && 2 <= depth < newDepth <= b.plan.n
    decreases |words|
  {
    if |words| < depth then [] else RowExtension(b, words[..depth], newDepth) + Extension(b, words[depth..], depth, newDepth)
  }

  lemma {:induction false} ExtensionConcat(b: Batch, x: seq<nat>, k: nat, y: seq<nat>, depth: nat, newDepth: nat)
    requires b.plan.Valid() && 2 <= depth < newDepth <= b.plan.n && |x| == Words(k, depth)
    ensures Extension(b, x + y, depth, newDepth) == Extension(b, x, depth, newDepth) + Extension(b, y, depth, newDepth)
    decreases k
  {
    hide RowExtension;
    if k == 0 {
      assert x + y == y;
    } else {
      OneRow(k, depth);
      assert (x + y)[..depth] == x[..depth] && (x + y)[depth..] == x[depth..] + y;
      ExtensionConcat(b, x[depth..], k - 1, y, depth, newDepth);
    }
  }

  lemma {:induction false} EncodeConcat(ei: nat, rows: seq<Row>, more: seq<Row>)
    requires (forall r :: r in rows ==> |r| > 0) && forall r :: r in more ==> |r| > 0
    ensures forall r :: r in rows + more ==> |r| > 0
    ensures EncodeAll(ei, rows + more) == EncodeAll(ei, rows) + EncodeAll(ei, more)
    decreases |rows|
  {
    if rows == [] {
      assert rows + more == more;
    } else {
      assert (rows + more)[1..] == rows[1..] + more;
      EncodeConcat(ei, rows[1..], more);
    }
  }

  lemma EncodedLength(b: Batch, ei: nat, rows: seq<Row>, depth: nat)
    requires b.plan.Valid() && 2 <= depth <= b.plan.n && forall r :: r in rows ==> |r| == depth && r[0] < TAG
    ensures |EncodeAll(ei, rows)| == Words(|rows|, depth)
  {
    EncodedBelow(b, ei, rows, depth);
  }

  /** Extending packed rows is packing the extended rows. */
  lemma {:induction false} EncodedExtension(b: Batch, ei: nat, rows: seq<Row>, depth: nat, newDepth: nat)
    requires b.plan.Valid() && 2 <= depth < newDepth <= b.plan.n
    requires forall r :: r in rows ==> |r| == depth && r[0] < TAG
    ensures forall r :: r in Pass(b.P(ei), newDepth, rows) ==> |r| > 0
    ensures Extension(b, EncodeAll(ei, rows), depth, newDepth) == EncodeAll(ei, Pass(b.P(ei), newDepth, rows))
    decreases |rows|
  {
    hide Complete, EncodeRow;
    if rows != [] {
      var row, rest := rows[0], EncodeAll(ei, rows[1..]);
      EncodedExtension(b, ei, rows[1..], depth, newDepth);
      EncodedRow(b, ei, row, rest, depth, newDepth);
      RowsKeepFirst(b.P(ei), newDepth, row);
      EncodeConcat(ei, Complete(b.P(ei), newDepth, row), Pass(b.P(ei), newDepth, rows[1..]));
    }
  }

  lemma EncodedRow(b: Batch, ei: nat, row: Row, rest: seq<nat>, depth: nat, newDepth: nat)
    requires b.plan.Valid() && 2 <= depth < newDepth <= b.plan.n && |row| == depth && row[0] < TAG
    ensures forall r :: r in Complete(b.P(ei), newDepth, row) ==> |r| > 0
    ensures Extension(b, EncodeRow(ei, row) + rest, depth, newDepth) ==
      EncodeAll(ei, Complete(b.P(ei), newDepth, row)) + Extension(b, rest, depth, newDepth)
  {
    hide Complete;
    EncodeDecode(ei, row);
    RowsKeepFirst(b.P(ei), newDepth, row);
    var w := EncodeRow(ei, row) + rest;
    assert w[..depth] == EncodeRow(ei, row) && w[depth..] == rest;
  }

  /** Two passes make the frontier that one pass to the last depth makes. */
  lemma {:induction false} ExtensionTwice(b: Batch, words: seq<nat>, size: nat, depth: nat, mid: nat, newDepth: nat)
    requires b.plan.Valid() && 2 <= depth < mid < newDepth <= b.plan.n && |words| == Words(size, depth)
    ensures Extension(b, Extension(b, words, depth, mid), mid, newDepth) == Extension(b, words, depth, newDepth)
    decreases size
  {
    hide RowExtension;
    if size > 0 {
      OneRow(size, depth);
      ExtensionTwice(b, words[depth..], size - 1, depth, mid, newDepth);
      RowTwice(b, words[..depth], Extension(b, words[depth..], depth, mid), mid, newDepth);
    }
  }

  lemma RowTwice(b: Batch, w: seq<nat>, rest: seq<nat>, mid: nat, newDepth: nat)
    requires b.plan.Valid() && 2 <= |w| < mid < newDepth <= b.plan.n
    ensures Extension(b, RowExtension(b, w, mid) + rest, mid, newDepth) == RowExtension(b, w, newDepth) + Extension(b, rest, mid, newDepth)
  {
    hide Complete, EncodeAll, Extension;
    var ei, row := EdgeOf(w[0]), Unpack(w);
    var rows := Complete(b.P(ei), mid, row);
    RowsKeepFirst(b.P(ei), mid, row);
    RowsKeepFirst(b.P(ei), newDepth, row);
    EncodedLength(b, ei, rows, mid);
    ExtensionConcat(b, EncodeAll(ei, rows), |rows|, rest, mid, newDepth);
    EncodedExtension(b, ei, rows, mid, newDepth);
    CompleteInTwo(b.P(ei), mid, newDepth, row);
  }

  /** Extends all rows of a frontier to `newDepth`. */
  method ExtendAll(b: Batch, words: seq<nat>, size: nat, depth: nat, newDepth: nat) returns (out: seq<nat>, newSize: nat)
    requires b.Valid() && 2 <= depth < newDepth <= b.plan.n && |words| == Words(size, depth)
    ensures |out| == Words(newSize, newDepth) && out == Extension(b, words, depth, newDepth)
    ensures Below(b, out, newDepth) == Below(b, words, depth)
  {
    hide Below, Words, RowExtension;
    out, newSize := [], 0;
    var rest := words;
    ExtendingEnds(b, words, out, depth, newDepth);
    for r := 0 to size
      invariant |rest| == Words(size - r, depth) && |out| == Words(newSize, newDepth)
      invariant Extending(b, out, newDepth, rest, words, depth)
    {
      out, newSize, rest := ExtendNext(b, out, newSize, newDepth, rest, words, size - r, depth);
    }
    ExtendingEnds(b, words, out, depth, newDepth);
    assert rest == [];
  }

  /** The new rows and the rows still to be extended lead to what the frontier leads to. */
  ghost predicate Extending(b: Batch, out: seq<nat>, newDepth: nat, rest: seq<nat>, words: seq<nat>, depth: nat)
    requires b.plan.Valid() && 2 <= depth < newDepth <= b.plan.n
  {
    && Below(b, out, newDepth) + Below(b, rest, depth) == Below(b, words, depth)
    && out + Extension(b, rest, depth, newDepth) == Extension(b, words, depth, newDepth)
  }

  lemma ExtendingEnds(b: Batch, words: seq<nat>, out: seq<nat>, depth: nat, newDepth: nat)
    requires b.plan.Valid() && 2 <= depth < newDepth <= b.plan.n
    ensures Extending(b, [], newDepth, words, words, depth) && Words(0, newDepth) == 0
    ensures Extending(b, out, newDepth, [], words, depth) ==> out == Extension(b, words, depth, newDepth) && Below(b, out, newDepth) == Below(b, words, depth)
    ensures Words(0, depth) == 0
  {
  }

  method ExtendNext(b: Batch, out: seq<nat>, newSize: nat, newDepth: nat, rest: seq<nat>, ghost words: seq<nat>, ghost left: nat, depth: nat)
    returns (out': seq<nat>, newSize': nat, rest': seq<nat>)
    requires b.Valid() && 2 <= depth < newDepth <= b.plan.n && left > 0
    requires |rest| == Words(left, depth) && |out| == Words(newSize, newDepth) && Extending(b, out, newDepth, rest, words, depth)
    ensures |rest'| == Words(left - 1, depth) && |out'| == Words(newSize', newDepth)
    ensures Extending(b, out', newDepth, rest', words, depth)
  {
    hide Extending, Below, Words, RowExtension, Extension;
    OneRow(left, depth);
    var more, count := ExtendOne(b, rest[..depth], newDepth);
    OneMore(b, out, newSize, more, count, newDepth, rest, depth);
    OneExtended(b, out, newDepth, rest, words, depth, more);
    out', newSize', rest' := out + more, newSize + count, rest[depth..];
  }

  lemma OneExtended(b: Batch, out: seq<nat>, newDepth: nat, rest: seq<nat>, words: seq<nat>, depth: nat, more: seq<nat>)
    requires b.plan.Valid() && 2 <= depth < newDepth <= b.plan.n && |rest| >= depth && Extending(b, out, newDepth, rest, words, depth)
    requires more == RowExtension(b, rest[..depth], newDepth)
    requires Below(b, out + more, newDepth) + Below(b, rest[depth..], depth) == Below(b, out, newDepth) + Below(b, rest, depth)
    ensures Extending(b, out + more, newDepth, rest[depth..], words, depth)
  {
    hide RowExtension, Below;
    var next := Extension(b, rest[depth..], depth, newDepth);
    assert Extension(b, rest, depth, newDepth) == more + next;
    assert out + (more + next) == (out + more) + next;
  }

  lemma OneMore(b: Batch, out: seq<nat>, size: nat, more: seq<nat>, count: nat, newDepth: nat, rest: seq<nat>, depth: nat)
    requires b.plan.Valid() && 2 <= depth <= b.plan.n && 2 <= newDepth <= b.plan.n
    requires |out| == Words(size, newDepth) && |more| == Words(count, newDepth) && |rest| >= depth
    requires Below(b, more, newDepth) == Below(b, rest[..depth], depth)
    ensures |out + more| == Words(size + count, newDepth)
    ensures Below(b, out + more, newDepth) + Below(b, rest[depth..], depth) == Below(b, out, newDepth) + Below(b, rest, depth)
  {
    BelowConcat(b, out, size, more, newDepth);
    WordsAdd(size, count, newDepth);
    BelowOne(b, rest[..depth]);
  }

  lemma WordsAdd(x: nat, y: nat, depth: nat)
    ensures Words(x + y, depth) == Words(x, depth) + Words(y, depth)
  {
  }

  method ExtendOne(b: Batch, w: seq<nat>, newDepth: nat) returns (out: seq<nat>, count: nat)
    requires b.Valid() && 2 <= |w| < newDepth <= b.plan.n
    ensures |out| == Words(count, newDepth) && out == RowExtension(b, w, newDepth)
    ensures Below(b, out, newDepth) == Below(b, w, |w|)
  {
    var ei := EdgeOf(w[0]);
    var rows := ExtendRow(b.plan, b.main, b.upd, ei, MaskFor(b.plan, ei, true, b.support), Unpack(w), newDepth);
    ExtendedBelow(b, w, b.P(ei), rows, newDepth);
    out, count := EncodeAll(ei, rows), |rows|;
  }
}
