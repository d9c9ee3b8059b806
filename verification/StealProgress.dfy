/** Progress of the work stealing: from every state that a block can get into, all warps can still leave. */
module StealProgress {
  import opened WorkStealing

  function Sum(ns: seq<nat>): nat { if ns == [] then 0 else Sum(ns[..|ns| - 1]) + ns[|ns| - 1] }

  lemma {:induction false} SumUpdate(ns: seq<nat>, w: nat, n: nat)
    requires w < |ns|
    ensures Sum(ns[w := n]) == Sum(ns) - ns[w] + n
    decreases |ns|
  {
    var last := |ns| - 1;
    if w < last {
      assert ns[w := n][..last] == ns[..last][w := n];
      SumUpdate(ns[..last], w, n);
    } else {
      assert ns[w := n][..last] == ns[..last];
    }
  }

  /** How far a warp is from leaving; a count that it has read may be out of date. */
  function Rank(p: Pc, task: int, pending: int, snap: Snapshot): nat {
    match p
    case Owner => 4
    case SnapWritten => 20 * Chunks(snap.remaining) + 10
    case PendingSet => 20 * Chunks(snap.remaining) + 9
    case Consuming => 8
    case SelfRead(tc) => if tc == task then 7 else 9
    case Drained => if pending <= 0 then 3 else 9
    case SelfDone => 2
    case SelfHeld(_) => 6
    case SelfRun(_) => 5
    case Seeking => 1
    case StealRead(_, _) => 12
    case Stolen(_, _) => 7
    case Copied(_, _) => 6
    case Joined(_, _) => 5
    case Ran(_, _) => 4
    case Parted(_, _) => 3
    case Exited => 0
  }

  /** The work that a warp and its chunks still need. */
  function Weight(s: State, w: nat): nat
    requires Sized(s) && w < |s.pc|
  {
    20 * NotDone(s.fate[w]) + Rank(s.pc[w], s.task[w], s.pending[w], s.snap[w])
  }

  function Weights(s: State): (ws: seq<nat>)
    requires Sized(s)
    ensures |ws| == |s.pc| && forall w :: 0 <= w < |s.pc| ==> ws[w] == Weight(s, w)
  {
    seq(|s.pc|, w requires 0 <= w < |s.pc| => Weight(s, w))
  }

  function Total(s: State): nat
    requires Sized(s)
  {
    Sum(Weights(s))
  }

  /** Warp `v` and its counters are as they were. */
  ghost predicate SameWarp(s: State, s': State, v: nat)
    requires Sized(s) && Sized(s') && |s'.pc| == |s.pc| && v < |s.pc|
  {
    s'.pc[v] == s.pc[v] && s'.task[v] == s.task[v] && s'.pending[v] == s.pending[v] && s'.fate[v] == s.fate[v] && s'.snap[v] == s.snap[v]
  }

  lemma LessWork(s: State, s': State, w: nat, t: nat)
    requires Sized(s) && Sized(s') && |s'.pc| == |s.pc| && w < |s.pc| && t < |s.pc|
    requires forall v :: 0 <= v < |s.pc| && v != w && v != t ==> SameWarp(s, s', v)
    requires if t == w then Weight(s', w) < Weight(s, w) else Weight(s', w) + Weight(s', t) < Weight(s, w) + Weight(s, t)
    ensures Total(s') < Total(s)
  {
    hide Weight;
    var ws, ws' := Weights(s), Weights(s');
    var one := ws[w := ws'[w]];
    SumUpdate(ws, w, ws'[w]);
    SumUpdate(one, t, ws'[t]);
    forall v | 0 <= v < |ws|
      ensures ws'[v] == one[t := ws'[t]][v]
    {
      if v != w && v != t { SameWeight(s, s', v); }
    }
    assert ws' == one[t := ws'[t]];
  }

  lemma SameWeight(s: State, s': State, v: nat)
    requires Sized(s) && Sized(s') && |s'.pc| == |s.pc| && v < |s.pc| && SameWarp(s, s', v)
    ensures Weight(s', v) == Weight(s, v)
  {
  }

  lemma AsVictim(s: State, t: nat)
    requires Sized(s) && t < |s.pc|
    ensures Victims(s) ==> VictimOk(s, t)
  {
  }

  // ---- Steps that help ----

  /** The step can be taken and leaves less to do. */
  ghost predicate Helps(s: State, w: nat, a: Action)
    requires Shaped(s)
  {
    Can(s, w, a) && Sized(Do(s, w, a)) && Total(Do(s, w, a)) < Total(s)
  }

  /** The publication goes on; the chunks that it makes have been paid for. */
  lemma PublishHelps(s: State, w: nat) returns (a: Action)
    requires Inv(s) && w < |s.pc| && Publishing(s.pc[w])
    ensures Helps(s, w, a)
  {
    hide Total, Victims, Records, Searched;
    a := if s.pc[w].SnapWritten? then SetPending else SetTask;
    AsVictim(s, w);
    NotDoneFree(Chunks(s.snap[w].remaining));
    LessWork(s, Do(s, w, a), w, w);
  }

  /** The next step of a warp with a chunk in hand. */
  function NextStep(p: Pc): Action
    requires p.Holding()
  {
    match p
    case SelfHeld(_) => SearchOwn
    case SelfRun(_) => SelfPend
    case Stolen(_, _) => CopySnapshot
    case Copied(_, _) => Join
    case Joined(_, _) => SearchStolen
    case Ran(_, _) => Part
    case Parted(_, _) => ThiefPend
  }

  lemma HoldingHelps(s: State, w: nat)
    requires Inv(s) && w < |s.pc| && s.pc[w].Holding()
    ensures Helps(s, w, NextStep(s.pc[w]))
  {
    hide Total, Do, Victims, Records, Searched;
    StepKeeps(s, w, NextStep(s.pc[w]));
    match s.pc[w]
    case SelfHeld(_) => SearchHelps(s, w);
    case SelfRun(_) => ReportHelps(s, w);
    case Joined(_, _) => SearchHelps(s, w);
    case Parted(_, _) => ReportHelps(s, w);
    case _ => MoveHelps(s, w);
  }

  lemma MoveHelps(s: State, w: nat)
    requires Inv(s) && w < |s.pc| && (s.pc[w].Stolen? || s.pc[w].Copied? || s.pc[w].Ran?)
    ensures Total(Do(s, w, NextStep(s.pc[w]))) < Total(s)
  {
    hide Victims, Records, Searched, Total;
    LessWork(s, Do(s, w, NextStep(s.pc[w])), w, w);
  }

  lemma SearchHelps(s: State, w: nat)
    requires Inv(s) && w < |s.pc| && (s.pc[w].SelfHeld? || s.pc[w].Joined?)
    ensures Total(Do(s, w, NextStep(s.pc[w]))) < Total(s)
  {
    hide Victims, Records, Searched, Total, Count, ExitOk, PcShaped;
    InHand(s, w);
    var c := s.pc[w].Chunk();
    if s.pc[w].SelfHeld? {
      SearchLowers(s, w, w, c, SelfRun(c));
    } else {
      SearchLowers(s, w, s.pc[w].t, c, Ran(s.pc[w].t, c));
    }
  }

  lemma SearchLowers(s: State, w: nat, t: nat, c: nat, p: Pc)
    requires Sized(s) && w < |s.pc| && t < |s.pc| && c < |s.fate[t]| && s.fate[t][c].Held?
    requires forall task, pending, snap :: Rank(p, task, pending, snap) < Rank(s.pc[w], task, pending, snap)
    ensures Sized(Search(s, w, t, c, p)) && Total(Search(s, w, t, c, p)) < Total(s)
  {
    hide Total, Rank;
    NotDoneUpdate(s.fate[t], c, Held(w, true));
    LessWork(s, Search(s, w, t, c, p), w, t);
  }

  lemma ReportHelps(s: State, w: nat)
    requires Inv(s) && w < |s.pc| && (s.pc[w].SelfRun? || s.pc[w].Parted?)
    ensures Total(Do(s, w, NextStep(s.pc[w]))) < Total(s)
  {
    hide Victims, Records, Searched, Total, Count, ExitOk, PcShaped;
    InHand(s, w);
    var c := s.pc[w].Chunk();
    if s.pc[w].SelfRun? {
      ReportLowers(s, w, w, c, Consuming);
    } else {
      ReportLowers(s, w, s.pc[w].t, c, Seeking);
    }
  }

  lemma ReportLowers(s: State, w: nat, t: nat, c: nat, p: Pc)
    requires Sized(s) && w < |s.pc| && t < |s.pc| && c < |s.fate[t]| && s.fate[t][c].Held?
    requires p.Consuming? || p.Seeking?
    ensures Sized(Pend(s, w, t, c, p)) && Total(Pend(s, w, t, c, p)) < Total(s)
  {
    hide Total, Rank;
    NotDoneUpdate(s.fate[t], c, Done);
    RankPending(s.pc[t], s.task[t], s.pending[t], s.snap[t]);
    SmallRank(p, s.task[w], s.pending[w], s.snap[w]);
    SmallRank(p, s.task[w], s.pending[w] - 1, s.snap[w]);
    LessWork(s, Pend(s, w, t, c, p), w, t);
  }

  /** A lower pending count brings no warp further from leaving. */
  lemma RankPending(p: Pc, task: int, pending: int, snap: Snapshot)
    ensures Rank(p, task, pending - 1, snap) <= Rank(p, task, pending, snap)
  {
  }

  lemma SmallRank(p: Pc, task: int, pending: int, snap: Snapshot)
    requires p.Consuming? || p.Seeking?
    ensures Rank(p, task, pending, snap) <= 8
  {
  }

  /** A claim wins a chunk or finds the count changed. */
  lemma ClaimHelps(s: State, w: nat) returns (a: Action)
    requires Inv(s) && w < |s.pc| && Claiming(s.pc[w])
    ensures Helps(s, w, a)
  {
    hide Victims, Records, Searched, Total, Weight, Count, ExitOk;
    a := if s.pc[w].SelfRead? then SelfCas else StealCas;
    assert PcShaped(s, s.pc[w]);
    if a.SelfCas? {
      CasHelps(s, w, w, s.pc[w].tc, SelfHeld(s.pc[w].tc - 1), Consuming);
    } else {
      CasHelps(s, w, s.pc[w].t, s.pc[w].tc, Stolen(s.pc[w].t, s.pc[w].tc - 1), Seeking);
    }
  }

  lemma CasHelps(s: State, w: nat, t: nat, tc: int, won: Pc, lost: Pc)
    requires Shaped(s) && Victims(s) && w < |s.pc| && t < |s.pc| && tc > 0
    requires (s.pc[w] == SelfRead(tc) && t == w && won == SelfHeld(tc - 1) && lost == Consuming) ||
             (s.pc[w] == StealRead(t, tc) && won == Stolen(t, tc - 1) && lost == Seeking)
    ensures Sized(Cas(s, w, t, tc, won, lost)) && Total(Cas(s, w, t, tc, won, lost)) < Total(s)
  {
    hide Victims, Total;
    if s.task[t] == tc {
      ClaimVictims(s, w, t, tc, won);
      NotDoneUpdate(s.fate[t], tc - 1, Held(w, false));
      LessWork(s, Cas(s, w, t, tc, won, lost), w, t);
    } else {
      LessWork(s, At(s, w, lost), w, w);
    }
  }

  /** When no chunk is in hand, an owner goes on with its own chunks or is done. */
  lemma OwnerHelps(s: State, w: nat) returns (a: Action)
    requires Inv(s) && w < |s.pc| && forall v :: 0 <= v < |s.pc| ==> !s.pc[v].Holding()
    requires OnItsOwn(s.pc[w])
    ensures Helps(s, w, a)
  {
    if s.task[w] <= 0 { NothingLeft(s, w); }
    a := if s.pc[w].Consuming? then ReadOwnTask else if s.pc[w].Drained? then ReadOwnPending else FinishOwner;
    LessWork(s, Do(s, w, a), w, w);
  }

  /** All chunks that are not free are done. */
  lemma NothingLeft(s: State, w: nat)
    requires Inv(s) && w < |s.pc| && s.task[w] <= 0 && !s.pc[w].PendingSet? && forall v :: 0 <= v < |s.pc| ==> !s.pc[v].Holding()
    ensures s.pending[w] == 0
  {
    assert VictimOk(s, w);
    forall c | 0 <= c < |s.fate[w]|
      ensures s.fate[w][c].Done?
    {
      assert FateOk(s, w, c);
    }
    AllDone(s.fate[w]);
  }

  lemma {:induction false} AllDone(fs: seq<Fate>)
    requires forall c :: 0 <= c < |fs| ==> fs[c].Done?
    ensures NotDone(fs) == 0
    decreases |fs|
  {
    if fs != [] { AllDone(fs[..|fs| - 1]); }
  }

  lemma {:induction false} NobodyCounted(pcs: seq<Pc>)
    requires forall w :: 0 <= w < |pcs| ==> !pcs[w].Counted()
    ensures Count(pcs) == 0
    decreases |pcs|
  {
    if pcs != [] { NobodyCounted(pcs[..|pcs| - 1]); }
  }

  ghost predicate AllExited(s: State) { forall w :: 0 <= w < |s.pc| ==> s.pc[w].Exited? }

  /** Unless all warps have left, some warp can take a step that leaves less to do. */
  lemma SomeStepHelps(s: State) returns (w: nat, a: Action)
    requires Inv(s) && !AllExited(s)
    ensures Helps(s, w, a)
  {
    hide Helps, Shaped, Victims, Records, Searched, Count, ExitOk, Publishing, Pc.Holding, Claiming, OnItsOwn;
    if v: nat :| v < |s.pc| && Publishing(s.pc[v]) {
      w := v;
      a := PublishHelps(s, w);
    } else if v: nat :| v < |s.pc| && s.pc[v].Holding() {
      w, a := v, NextStep(s.pc[v]);
      HoldingHelps(s, w);
    } else if v: nat :| v < |s.pc| && Claiming(s.pc[v]) {
      w := v;
      a := ClaimHelps(s, w);
    } else if v: nat :| v < |s.pc| && OnItsOwn(s.pc[v]) {
      w := v;
      a := OwnerHelps(s, w);
    } else {
      w, a := Lingerer(s), ReadActive;
      forall v | 0 <= v < |s.pc|
        ensures s.pc[v].Seeking? || s.pc[v].Exited?
      {
        EveryPlace(s.pc[v]);
      }
      LeavingHelps(s, w);
    }
  }

  predicate Publishing(p: Pc) { p.SnapWritten? || p.PendingSet? }

  predicate Claiming(p: Pc) { p.SelfRead? || p.StealRead? }

  lemma EveryPlace(p: Pc)
    ensures Publishing(p) || p.Holding() || Claiming(p) || OnItsOwn(p) || p.Seeking? || p.Exited?
  {
  }

  predicate OnItsOwn(p: Pc) { p.Owner? || p.Consuming? || p.Drained? || p.SelfDone? }

  ghost function Lingerer(s: State): (w: nat)
    requires !AllExited(s)
    ensures w < |s.pc| && !s.pc[w].Exited?
  {
    var w: nat :| w < |s.pc| && !s.pc[w].Exited?; w
  }

  lemma LeavingHelps(s: State, w: nat)
    requires Inv(s) && w < |s.pc| && s.pc[w].Seeking?
    requires forall v :: 0 <= v < |s.pc| ==> s.pc[v].Seeking? || s.pc[v].Exited?
    ensures Helps(s, w, ReadActive)
  {
    hide Total, Victims, Records, Searched;
    NobodyCounted(s.pc);
    LessWork(s, Do(s, w, ReadActive), w, w);
  }

  /** Every run can be continued until all warps have left: no interleaving ends in a deadlock. */
  lemma {:induction false} AllCanLeave(run: seq<State>) returns (run': seq<State>)
    requires Run(run)
    ensures Sized(run[|run| - 1])
    ensures Run(run') && run <= run' && AllExited(run'[|run'| - 1])
    decreases LastTotal(run)
  {
    hide Total, Do, Can, Victims, Records, Searched, Init, Helps;
    var last := |run| - 1;
    RunInv(run, last);
    if AllExited(run[last]) {
      run' := run;
    } else {
      var w, a := SomeStepHelps(run[last]);
      HelpsOn(run[last], w, a);
      var next := Do(run[last], w, a);
      StepKeeps(run[last], w, a);
      DoFollows(run[last], w, a);
      RunMore(run, next);
      run' := AllCanLeave(run + [next]);
    }
  }

  ghost function LastTotal(run: seq<State>): nat {
    if run != [] && Sized(run[|run| - 1]) then Total(run[|run| - 1]) else 0
  }

  lemma HelpsOn(s: State, w: nat, a: Action)
    requires Shaped(s) && Helps(s, w, a)
    ensures Can(s, w, a) && Sized(Do(s, w, a)) && Total(Do(s, w, a)) < Total(s)
  {
  }

  lemma DoFollows(s: State, w: nat, a: Action)
    requires Shaped(s) && Can(s, w, a)
    ensures Follows(s, Do(s, w, a))
  {
  }

  lemma RunMore(run: seq<State>, next: State)
    requires Run(run) && Follows(run[|run| - 1], next)
    ensures Run(run + [next])
  {
    var more := run + [next];
    forall i | 0 < i < |more|
      ensures StepAt(more, i)
    {
      if i < |run| { assert StepAt(run, i); }
    }
  }
}
