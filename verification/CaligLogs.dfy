/** What the filter logs about a batch: insertions, erasures and activated pairs, and what the log says
    about the candidate sets before and after the batch. */
module CaligLogs {
  import opened Graphs
  import opened CaligIndex
  import opened CaligRounds

  /** `y` is, or is to be, in slot `s`. */
  datatype Entry = Entry(s: Slot, y: nat)

  /** The index stands for this entry: its owner is on and its candidate has not been erased. */
  predicate LiveEntry(x: Index, s: Slot, y: nat) {
    s in x.cand && Here(s) in x.on && y in x.cand[s]
  }

  /** The edge is in the batch, in one direction or the other. */
  predicate Among(batch: seq<Edge>, e: Edge) { e in batch || Edge(e.b, e.a) in batch }

  /** Between batches an entry and its reverse stand or fall together. */
  lemma EntriesReverse(q: Graph, g: Graph, x: Index, rank: Pair -> nat, clock: nat, s: Slot, y: nat)
    requires DelInv(q, g, x, rank, clock, {}) && LiveEntry(x, s, y)
    ensures LiveEntry(x, Back(s, y), s.v)
  {
    var t := Back(s, y);
    assert IsSlot(q, g, s) && y in Potential(q, g, s) && There(s, y) in x.on;
    assert IsSlot(q, g, t) && s.v in Potential(q, g, t) && There(t, s.v) == Here(s);
    assert !Missing(q, g, x, t, s.v);
  }

  /** The log has grown by exactly the entries that are in `cand` but not in `cand0`. */
  ghost predicate InsLogged(ins0: set<Entry>, ins: set<Entry>, cand0: map<Slot, set<nat>>, cand: map<Slot, set<nat>>) {
    forall s, y :: Entry(s, y) in ins <==> Entry(s, y) in ins0 || Came(cand0, cand, s, y)
  }

  /** The log has grown by exactly the entries that were in `cand0` and are not in `cand`. */
  ghost predicate DelLogged(del0: set<Entry>, del: set<Entry>, cand0: map<Slot, set<nat>>, cand: map<Slot, set<nat>>) {
    forall s, y :: Entry(s, y) in del <==> Entry(s, y) in del0 || Came(cand, cand0, s, y)
  }

  /** `y` is in slot `s` of `cand` and not of `cand0`. */
  ghost predicate Came(cand0: map<Slot, set<nat>>, cand: map<Slot, set<nat>>, s: Slot, y: nat) {
    s in cand0 && s in cand && y in cand[s] && y !in cand0[s]
  }

  ghost predicate Within(small: map<Slot, set<nat>>, big: map<Slot, set<nat>>) {
    small.Keys == big.Keys && forall s :: s in small ==> small[s] <= big[s]
  }

  lemma DelLoggedNone(del: set<Entry>, cand: map<Slot, set<nat>>)
    ensures DelLogged(del, del, cand, cand)
  {
  }

  lemma DelLoggedOne(del0: set<Entry>, del1: set<Entry>, del2: set<Entry>, cand0: map<Slot, set<nat>>, cand1: map<Slot, set<nat>>,
                     cand2: map<Slot, set<nat>>, s: Slot, y: nat)
    requires DelLogged(del0, del1, cand0, cand1) && Within(cand1, cand0) && s in cand1
    requires cand2 == cand1[s := cand1[s] - {y}] && del2 == del1 + (if y in cand1[s] then {Entry(s, y)} else {})
    ensures DelLogged(del0, del2, cand0, cand2)
  {
    forall t, z
      ensures Entry(t, z) in del2 <==> Entry(t, z) in del0 || Came(cand2, cand0, t, z)
    {
      assert Entry(t, z) in del1 <==> Entry(t, z) in del0 || Came(cand1, cand0, t, z);
    }
  }

  lemma InsLoggedOne(ins0: set<Entry>, ins1: set<Entry>, ins2: set<Entry>, cand0: map<Slot, set<nat>>, cand1: map<Slot, set<nat>>,
                     cand2: map<Slot, set<nat>>, e: Entry)
    requires InsLogged(ins0, ins1, cand0, cand1) && Within(cand0, cand1) && e.s in cand1
    requires cand2 == cand1[e.s := cand1[e.s] + {e.y}] && ins2 == ins1 + (if e.y !in cand1[e.s] then {e} else {})
    ensures InsLogged(ins0, ins2, cand0, cand2) && Within(cand0, cand2)
  {
    forall t, z
      ensures Entry(t, z) in ins2 <==> Entry(t, z) in ins0 || Came(cand0, cand2, t, z)
    {
      assert Entry(t, z) in ins1 <==> Entry(t, z) in ins0 || Came(cand0, cand1, t, z);
    }
  }

  lemma DelLoggedOn(del0: set<Entry>, del1: set<Entry>, del2: set<Entry>, cand0: map<Slot, set<nat>>, cand1: map<Slot, set<nat>>, cand2: map<Slot, set<nat>>)
    requires DelLogged(del0, del1, cand0, cand1) && DelLogged(del1, del2, cand1, cand2)
    requires Within(cand1, cand0) && Within(cand2, cand1)
    ensures DelLogged(del0, del2, cand0, cand2) && Within(cand2, cand0)
  {
    forall t, z
      ensures Entry(t, z) in del2 <==> Entry(t, z) in del0 || Came(cand2, cand0, t, z)
    {
      assert Entry(t, z) in del1 <==> Entry(t, z) in del0 || Came(cand1, cand0, t, z);
      assert Entry(t, z) in del2 <==> Entry(t, z) in del1 || Came(cand2, cand1, t, z);
    }
  }

  lemma InsLoggedOn(ins0: set<Entry>, ins1: set<Entry>, ins2: set<Entry>, cand0: map<Slot, set<nat>>, cand1: map<Slot, set<nat>>, cand2: map<Slot, set<nat>>)
    requires InsLogged(ins0, ins1, cand0, cand1) && InsLogged(ins1, ins2, cand1, cand2)
    requires Within(cand0, cand1) && Within(cand1, cand2)
    ensures InsLogged(ins0, ins2, cand0, cand2) && Within(cand0, cand2)
  {
    forall t, z
      ensures Entry(t, z) in ins2 <==> Entry(t, z) in ins0 || Came(cand0, cand2, t, z)
    {
      assert Entry(t, z) in ins1 <==> Entry(t, z) in ins0 || Came(cand0, cand1, t, z);
      assert Entry(t, z) in ins2 <==> Entry(t, z) in ins1 || Came(cand1, cand2, t, z);
    }
  }

  /** What the add loop has logged since the state (`li0`, `cand0`). */
  ghost predicate AddLog(ins0: set<Entry>, ins: set<Entry>, act0: set<Pair>, act: set<Pair>, cand0: map<Slot, set<nat>>, cand: map<Slot, set<nat>>,
                         li0: set<Pair>, li: set<Pair>) {
    li0 <= li && Within(cand0, cand) && InsLogged(ins0, ins, cand0, cand) && act == act0 + (li - li0)
  }

  lemma AddLogNone(ins: set<Entry>, act: set<Pair>, cand: map<Slot, set<nat>>, li: set<Pair>)
    ensures AddLog(ins, ins, act, act, cand, cand, li, li)
  {
  }

  lemma AddLogOn(ins0: set<Entry>, ins1: set<Entry>, ins2: set<Entry>, act0: set<Pair>, act1: set<Pair>, act2: set<Pair>,
                 cand0: map<Slot, set<nat>>, cand1: map<Slot, set<nat>>, cand2: map<Slot, set<nat>>, li0: set<Pair>, li1: set<Pair>, li2: set<Pair>)
    requires AddLog(ins0, ins1, act0, act1, cand0, cand1, li0, li1) && AddLog(ins1, ins2, act1, act2, cand1, cand2, li1, li2)
    ensures AddLog(ins0, ins2, act0, act2, cand0, cand2, li0, li2)
  {
    InsLoggedOn(ins0, ins1, ins2, cand0, cand1, cand2);
  }

  lemma DelShrinks(q: Graph, g: Graph, x: Index, queue: set<Pair>, x': Index, queue': set<Pair>)
    requires q.Valid() && DelStep(q, g, x, queue, x', queue')
    ensures Within(x'.cand, x.cand)
  {
    forall s | s in x.cand
      ensures x'.cand[s] <= x.cand[s]
    {
    }
  }

  lemma AddGrows(q: Graph, g: Graph, x: Index, queue: set<Pair>, failed: set<Pair>, x': Index, queue': set<Pair>, failed': set<Pair>)
    requires q.Valid() && AddStep(q, g, x, queue, failed, x', queue', failed')
    ensures Within(x.cand, x'.cand)
  {
    forall s | s in x.cand
      ensures x.cand[s] <= x'.cand[s]
    {
    }
  }

  // ---- The deltas of a batch ----

  /** The log explains what has become of an entry: everything that is there was there before, lies over
      a new edge or is logged as an insertion; everything that is gone is logged as an erasure and stays
      gone; and everything that a newly activated pair holds is logged as an insertion. */
  ghost predicate Accounted(q: Graph, g0: Graph, es: set<Edge>, x0: Index, x: Index, ins: set<Entry>, del: set<Entry>, s: Slot, y: nat)
    requires q.Valid()
  {
    && (s in x.cand && y in x.cand[s] ==> (s in x0.cand && y in x0.cand[s]) || NewEntry(q, g0, es, s, y) || Entry(s, y) in ins)
    && (Entry(s, y) in ins ==> s in x.cand && (y in x.cand[s] || Entry(s, y) in del))
    && (s in x.cand && s in x0.cand && y in x0.cand[s] ==> y in x.cand[s] || Entry(s, y) in del)
    && (Entry(s, y) in del ==> s in x.cand && y !in x.cand[s])
    && (LiveEntry(x, s, y) && Here(s) !in x0.on ==> Entry(s, y) in ins)
    && (Entry(s, y) in ins || Entry(s, y) in del ==> y < |g0.labels|)
  }

  ghost predicate DeltasFor(q: Graph, g0: Graph, es: set<Edge>, x0: Index, x: Index, ins: set<Entry>, del: set<Entry>)
    requires q.Valid()
  {
    x.cand.Keys == x0.cand.Keys && forall s, y :: Accounted(q, g0, es, x0, x, ins, del, s, y)
  }

  /** The entries of the pairs that have been turned on and are on. */
  ghost predicate Recorded(x: Index, activated: set<Pair>, ins0: set<Entry>, ins: set<Entry>) {
    forall s, y :: Entry(s, y) in ins <==> Entry(s, y) in ins0 || (LiveEntry(x, s, y) && Here(s) in activated)
  }

  /** The log of a batch: what the new edges bring, what the add loop inserts, what the delete loop erases,
      and what the pairs that were turned on hold in the end. */
  lemma DeltasMade(q: Graph, g0: Graph, g: Graph, es: set<Edge>, x0: Index, x1: Index, x2: Index, x3: Index, queue: set<Pair>, act1: set<Pair>, act2: set<Pair>,
                   ins2: set<Entry>, ins: set<Entry>, del: set<Entry>)
    requires q.Valid() && TurnOnStep(q, g0, es, x0, x1, queue) && act1 == x1.on - x0.on
    requires AddLog({}, ins2, act1, act2, x1.cand, x2.cand, x1.on, x2.on)
    requires x3.on <= x2.on && Within(x3.cand, x2.cand) && DelLogged({}, del, x2.cand, x3.cand)
    requires Recorded(x3, act2, ins2, ins)
    requires g.Valid() && Shaped(q, g, x2) && |g.labels| == |g0.labels|
    ensures DeltasFor(q, g0, es, x0, x3, ins, del)
  {
    forall s, y
      ensures Accounted(q, g0, es, x0, x3, ins, del, s, y)
    {
      assert Entry(s, y) in ins2 <==> Came(x1.cand, x2.cand, s, y);
      assert Entry(s, y) in del <==> Came(x3.cand, x2.cand, s, y);
      assert Entry(s, y) in ins <==> Entry(s, y) in ins2 || (LiveEntry(x3, s, y) && Here(s) in act2);
      if s in x2.cand && y in x2.cand[s] {
        assert y in Potential(q, g, s);
      }
    }
  }
}
