/** Work stealing between the warps of a block: a warp publishes the rest of a neighbour list in chunks,
    all warps claim chunks by compare-and-swap, and two kinds of counters decide when to leave. */
module WorkStealing {

  const STEAL_CHUNK := 32
  const TASK_SHARE_BOUND := 32

  /** What a victim publishes: its partial match, by number, and the length of the list that is left. */
  datatype Snapshot = Snapshot(id: nat, remaining: nat)

  function Chunks(remaining: nat): nat { (remaining + STEAL_CHUNK - 1) / STEAL_CHUNK }

  function ChunkStart(c: nat): nat { c * STEAL_CHUNK }

  function ChunkEnd(c: nat, remaining: nat): nat {
    if ChunkStart(c) + STEAL_CHUNK < remaining then ChunkStart(c) + STEAL_CHUNK else remaining
  }

  /** The chunks cover the list, and every place lies in one chunk only. */
  lemma ChunksPartition(remaining: nat, i: nat)
    requires i < remaining
    ensures i / STEAL_CHUNK < Chunks(remaining)
    ensures forall c :: 0 <= c < Chunks(remaining) ==> (ChunkStart(c) <= i < ChunkEnd(c, remaining) <==> c == i / STEAL_CHUNK)
    ensures forall c :: 0 <= c < Chunks(remaining) ==> ChunkStart(c) < ChunkEnd(c, remaining) <= remaining
  {
  }

  /** Where a warp is.  `tc` is a task count it has read, `t` its victim, `c` the chunk it has claimed. */
  datatype Pc =
    | Owner
    | SnapWritten
    | PendingSet
    | Consuming
    | SelfRead(tc: int)
    | Drained
    | SelfDone
    | SelfHeld(c: nat)
    | SelfRun(c: nat)
    | Seeking
    | StealRead(t: nat, tc: int)
    | Stolen(t: nat, c: nat)
    | Copied(t: nat, c: nat)
    | Joined(t: nat, c: nat)
    | Ran(t: nat, c: nat)
    | Parted(t: nat, c: nat)
    | Exited
  {
    /** The warp still runs its own task. */
    predicate Owning() {
      Owner? || SnapWritten? || PendingSet? || Consuming? || SelfRead? || Drained? || SelfDone? || SelfHeld? || SelfRun?
    }

    /** The warp is counted as active. */
    predicate Counted() { Owning() || Joined? || Ran? }

    /** The warp has no chunk in hand and will publish none. */
    predicate Quiet() { Seeking? || StealRead? || Exited? }

    predicate Holding() { SelfHeld? || SelfRun? || Stolen? || Copied? || Joined? || Ran? || Parted? }

    predicate HasRun() { SelfRun? || Ran? || Parted? }

    function Victim(w: nat): nat
      requires Holding()
    {
      if SelfHeld? || SelfRun? then w else t
    }

    function Chunk(): nat
      requires Holding()
    {
      c
    }
  }

  /** What has become of a published chunk. */
  datatype Fate = Free | Held(holder: nat, run: bool) | Done

  /** A chunk that has been searched, and from which partial match. */
  datatype Work = Work(t: nat, c: nat, snap: Snapshot)

  /** The shared counters and snapshots; `pub`, `fate` and `work` record what was published and searched. */
  datatype State = State(
    pc: seq<Pc>,
    task: seq<int>,
    pending: seq<int>,
    active: int,
    snap: seq<Snapshot>,
    pub: seq<Snapshot>,
    fate: seq<seq<Fate>>,
    work: multiset<Work>)

  datatype Action =
    | WriteSnapshot(s: Snapshot)
    | SetPending
    | SetTask
    | FinishOwner
    | ReadOwnTask
    | ReadOwnPending
    | SelfCas
    | SearchOwn
    | SelfPend
    | ReadActive
    | ReadTask(victim: nat)
    | StealCas
    | CopySnapshot
    | Join
    | SearchStolen
    | Part
    | ThiefPend

  ghost predicate Sized(s: State) {
    |s.task| == |s.pc| && |s.pending| == |s.pc| && |s.snap| == |s.pc| && |s.pub| == |s.pc| && |s.fate| == |s.pc|
  }

  /** Idle warps start stealing at once. */
  ghost predicate Init(s: State) {
    && Sized(s) && s.work == multiset{} && s.active == Count(s.pc)
    && forall w :: 0 <= w < |s.pc| ==>
         (s.pc[w].Owner? || s.pc[w].Seeking?) && s.task[w] == 0 && s.pending[w] == 0 && s.fate[w] == []
  }

  /** How many warps are counted as active. */
  function Count(pcs: seq<Pc>): nat {
    if pcs == [] then 0 else Count(pcs[..|pcs| - 1]) + (if pcs[|pcs| - 1].Counted() then 1 else 0)
  }

  lemma {:induction false} CountUpdate(pcs: seq<Pc>, w: nat, p: Pc)
    requires w < |pcs|
    ensures Count(pcs[w := p]) == Count(pcs) - (if pcs[w].Counted() then 1 else 0) + (if p.Counted() then 1 else 0)
    decreases |pcs|
  {
    var last := |pcs| - 1;
    if w < last {
      assert pcs[w := p][..last] == pcs[..last][w := p];
      CountUpdate(pcs[..last], w, p);
    } else {
      assert pcs[w := p][..last] == pcs[..last];
    }
  }

  lemma {:induction false} CountZero(pcs: seq<Pc>, w: nat)
    requires Count(pcs) == 0 && w < |pcs|
    ensures !pcs[w].Counted()
    decreases |pcs|
  {
    if w < |pcs| - 1 { CountZero(pcs[..|pcs| - 1], w); }
  }

  /** How many chunks are not done. */
  function NotDone(fs: seq<Fate>): nat {
    if fs == [] then 0 else NotDone(fs[..|fs| - 1]) + (if fs[|fs| - 1].Done? then 0 else 1)
  }

  lemma {:induction false} NotDoneUpdate(fs: seq<Fate>, c: nat, f: Fate)
    requires c < |fs|
    ensures NotDone(fs[c := f]) == NotDone(fs) - (if fs[c].Done? then 0 else 1) + (if f.Done? then 0 else 1)
    decreases |fs|
  {
    var last := |fs| - 1;
    if c < last {
      assert fs[c := f][..last] == fs[..last][c := f];
      NotDoneUpdate(fs[..last], c, f);
    } else {
      assert fs[c := f][..last] == fs[..last];
    }
  }

  lemma {:induction false} NotDoneZero(fs: seq<Fate>, c: nat)
    requires NotDone(fs) == 0 && c < |fs|
    ensures fs[c].Done?
    decreases |fs|
  {
    if c < |fs| - 1 { NotDoneZero(fs[..|fs| - 1], c); }
  }

  function AllFree(n: nat): (fs: seq<Fate>)
    ensures |fs| == n && forall c :: 0 <= c < n ==> fs[c] == Free
  {
    seq(n, _ => Free)
  }

  lemma {:induction false} NotDoneFree(n: nat)
    ensures NotDone(AllFree(n)) == n
  {
    if n > 0 {
      assert AllFree(n)[..n - 1] == AllFree(n - 1);
      NotDoneFree(n - 1);
    }
  }

  // ---- Steps ----

  function At(s: State, w: nat, p: Pc): State
    requires w < |s.pc|
  {
    s.(pc := s.pc[w := p])
  }

  /** Records what has become of a chunk. */
  function WithFate(s: State, t: nat, c: nat, f: Fate): State {
    if t < |s.fate| && c < |s.fate[t]| then s.(fate := s.fate[t := s.fate[t][c := f]]) else s
  }

  /** Whether warp `w` is where it takes action `a`. */
  predicate Can(s: State, w: nat, a: Action) {
    w < |s.pc| &&
    match a
    case WriteSnapshot(snap) => s.pc[w].Owner? && snap.remaining >= TASK_SHARE_BOUND
    case SetPending => s.pc[w].SnapWritten?
    case SetTask => s.pc[w].PendingSet?
    case FinishOwner => s.pc[w].Owner? || s.pc[w].SelfDone?
    case ReadOwnTask => s.pc[w].Consuming?
    case ReadOwnPending => s.pc[w].Drained?
    case SelfCas => s.pc[w].SelfRead?
    case SearchOwn => s.pc[w].SelfHeld?
    case SelfPend => s.pc[w].SelfRun?
    case ReadActive => s.pc[w].Seeking?
    case ReadTask(v) => s.pc[w].Seeking? && v < |s.pc|
    case StealCas => s.pc[w].StealRead?
    case CopySnapshot => s.pc[w].Stolen?
    case Join => s.pc[w].Copied?
    case SearchStolen => s.pc[w].Joined?
    case Part => s.pc[w].Ran?
    case ThiefPend => s.pc[w].Parted?
  }

  /** Claims the chunk below the count that was read, if the count is still the same. */
  function Cas(s: State, w: nat, t: nat, tc: int, won: Pc, lost: Pc): State
    requires w < |s.pc| && 0 < tc
  {
    if t < |s.task| && s.task[t] == tc then
      At(WithFate(s.(task := s.task[t := tc - 1]), t, tc - 1, Held(w, false)), w, won)
    else At(s, w, lost)
  }

  /** Searches a claimed chunk from the snapshot that the warp works on. */
  function Search(s: State, w: nat, t: nat, c: nat, p: Pc): State
    requires w < |s.pc| && w < |s.snap|
  {
    At(WithFate(s.(work := s.work + multiset{Work(t, c, s.snap[w])}), t, c, Held(w, true)), w, p)
  }

  /** Reports a claimed chunk as done. */
  function Pend(s: State, w: nat, t: nat, c: nat, p: Pc): State
    requires w < |s.pc| && t < |s.pending|
  {
    At(WithFate(s.(pending := s.pending[t := s.pending[t] - 1]), t, c, Done), w, p)
  }

  /** Shared variables and records have one place per warp, and victims are warps. */
  ghost predicate Shaped(s: State) {
    Sized(s) && forall w :: 0 <= w < |s.pc| ==> PcShaped(s, s.pc[w])
  }

  ghost predicate PcShaped(s: State, p: Pc) {
    && (p.StealRead? ==> p.t < |s.pc| && p.tc > 0)
    && (p.SelfRead? ==> p.tc > 0)
    && (p.Holding() ==> p.Victim(0) < |s.pc|)
  }

  /** The state after warp `w` has taken action `a`. */
  function Do(s: State, w: nat, a: Action): State
    requires Shaped(s) && Can(s, w, a)
  {
    var p := s.pc[w];
    match a
    case WriteSnapshot(snap) => At(s.(snap := s.snap[w := snap], pub := s.pub[w := snap]), w, SnapWritten)
    case SetPending => At(s.(pending := s.pending[w := Chunks(s.snap[w].remaining)]), w, PendingSet)
    case SetTask =>
      var n := Chunks(s.snap[w].remaining);
      At(s.(task := s.task[w := n], fate := s.fate[w := AllFree(n)]), w, Consuming)
    case FinishOwner => At(s.(active := s.active - 1), w, Seeking)
    case ReadOwnTask => At(s, w, if s.task[w] <= 0 then Drained else SelfRead(s.task[w]))
    case ReadOwnPending => At(s, w, if s.pending[w] <= 0 then SelfDone else Consuming)
    case SelfCas => Cas(s, w, w, p.tc, SelfHeld(p.tc - 1), Consuming)
    case SearchOwn => Search(s, w, w, p.c, SelfRun(p.c))
    case SelfPend => Pend(s, w, w, p.c, Consuming)
    case ReadActive => if s.active == 0 then At(s, w, Exited) else s
    case ReadTask(v) => if s.task[v] <= 0 then s else At(s, w, StealRead(v, s.task[v]))
    case StealCas => Cas(s, w, p.t, p.tc, Stolen(p.t, p.tc - 1), Seeking)
    case CopySnapshot => At(s.(snap := s.snap[w := s.snap[p.t]]), w, Copied(p.t, p.c))
    case Join => At(s.(active := s.active + 1), w, Joined(p.t, p.c))
    case SearchStolen => Search(s, w, p.t, p.c, Ran(p.t, p.c))
    case Part => At(s.(active := s.active - 1), w, Parted(p.t, p.c))
    case ThiefPend => Pend(s, w, p.t, p.c, Seeking)
  }

  // ---- The invariant ----

  /** Counters and records of one warp as a victim. */
  ghost predicate Fields(p: Pc, task: int, pending: int, fs: seq<Fate>, snap: Snapshot, pub: Snapshot) {
    && 0 <= task <= |fs|
    && (forall c :: 0 <= c < |fs| ==> (fs[c].Free? <==> c < task))
    && (p.Owner? || p.SnapWritten? || p.PendingSet? ==> fs == [])
    && pending == (if p.PendingSet? then Chunks(pub.remaining) else NotDone(fs))
    && (fs != [] ==> |fs| == Chunks(pub.remaining))
    && (p.Owning() && !p.Owner? ==> snap == pub)
    && (p.SelfDone? || !p.Owning() ==> NotDone(fs) == 0)
    && (p.Consuming? || p.SelfRead? || p.Drained? || p.SelfHeld? || p.SelfRun? ==> fs != [])
    && (p.SnapWritten? || p.PendingSet? ==> pub.remaining >= TASK_SHARE_BOUND)
  }

  ghost predicate VictimOk(s: State, t: nat)
    requires Sized(s) && t < |s.pc|
  {
    Fields(s.pc[t], s.task[t], s.pending[t], s.fate[t], s.snap[t], s.pub[t])
  }

  /** Moves that leave the counters of a warp as they are. */
  predicate SameStage(p: Pc, p': Pc) {
    || p == p'
    || (!p.Owning() && !p'.Owning())
    || ((p.SelfRead? || p.SelfHeld? || p.SelfRun?) && (p'.SelfHeld? || p'.SelfRun? || p'.Consuming?))
  }

  lemma FieldsClaim(p: Pc, p': Pc, task: int, pending: int, fs: seq<Fate>, snap: Snapshot, pub: Snapshot, w: nat)
    requires Fields(p, task, pending, fs, snap, pub) && task > 0 && SameStage(p, p')
    ensures Fields(p', task - 1, pending, fs[task - 1 := Held(w, false)], snap, pub)
  {
    NotDoneUpdate(fs, task - 1, Held(w, false));
  }

  lemma FieldsSearch(p: Pc, p': Pc, task: int, pending: int, fs: seq<Fate>, snap: Snapshot, pub: Snapshot, c: nat, f: Fate)
    requires Fields(p, task, pending, fs, snap, pub) && c < |fs| && fs[c].Held? && f.Held? && SameStage(p, p')
    ensures Fields(p', task, pending, fs[c := f], snap, pub)
  {
    NotDoneUpdate(fs, c, f);
  }

  lemma FieldsPend(p: Pc, p': Pc, task: int, pending: int, fs: seq<Fate>, snap: Snapshot, pub: Snapshot, c: nat)
    requires Fields(p, task, pending, fs, snap, pub) && c < |fs| && fs[c].Held? && SameStage(p, p')
    ensures Fields(p', task, pending - 1, fs[c := Done], snap, pub)
  {
    NotDoneUpdate(fs, c, Done);
    if p.SelfDone? || !p.Owning() { NotDoneZero(fs, c); }
  }

  /** The chunk that warp `w` has in hand. */
  ghost predicate HolderOk(s: State, w: nat)
    requires Shaped(s) && w < |s.pc|
  {
    var p := s.pc[w];
    && (p.Holding() ==> p.Victim(w) < |s.pc| && p.Chunk() < |s.fate[p.Victim(w)]| && s.fate[p.Victim(w)][p.Chunk()] == Held(w, p.HasRun()))
    && (p.Copied? || p.Joined? || p.Ran? ==> s.snap[w] == s.pub[p.t])
  }

  /** A claimed chunk is in the hand of its claimer. */
  ghost predicate FateOk(s: State, t: nat, c: nat)
    requires Shaped(s) && t < |s.pc| && c < |s.fate[t]|
  {
    s.fate[t][c].Held? ==>
      var w := s.fate[t][c].holder;
      w < |s.pc| && s.pc[w].Holding() && s.pc[w].Victim(w) == t && s.pc[w].Chunk() == c
  }

  /** How often a chunk has been searched from a snapshot. */
  ghost function Times(s: State, k: Work): nat
    requires Sized(s)
  {
    if k.t < |s.fate| && k.c < |s.fate[k.t]| && k.snap == s.pub[k.t] && (s.fate[k.t][k.c].Done? || (s.fate[k.t][k.c].Held? && s.fate[k.t][k.c].run))
    then 1 else 0
  }

  /** Once a warp has left, no warp is active. */
  ghost predicate ExitOk(s: State) {
    forall w :: 0 <= w < |s.pc| && s.pc[w].Exited? ==> s.active == 0
  }

  ghost predicate Inv(s: State) {
    && Shaped(s) && s.active == Count(s.pc) && ExitOk(s)
    && Victims(s) && Records(s) && Searched(s)
  }

  ghost predicate Victims(s: State)
    requires Sized(s)
  {
    forall t :: 0 <= t < |s.pc| ==> VictimOk(s, t)
  }

  ghost predicate Records(s: State)
    requires Shaped(s)
  {
    && (forall w :: 0 <= w < |s.pc| ==> HolderOk(s, w))
    && (forall t, c :: 0 <= t < |s.pc| && 0 <= c < |s.fate[t]| ==> FateOk(s, t, c))
  }

  /** The record of searches is exact. */
  ghost predicate Searched(s: State)
    requires Sized(s)
  {
    forall k :: s.work[k] == Times(s, k)
  }

  lemma InitInv(s: State)
    requires Init(s)
    ensures Inv(s)
  {
  }

  /** When nobody is active, no chunk is left and no warp has one in hand. */
  lemma NobodyActive(s: State)
    requires Inv(s) && s.active == 0
    ensures forall v :: 0 <= v < |s.pc| ==> s.pc[v].Quiet()
    ensures forall t, c :: 0 <= t < |s.pc| && 0 <= c < |s.fate[t]| ==> s.fate[t][c].Done?
  {
    forall t, c | 0 <= t < |s.pc| && 0 <= c < |s.fate[t]|
      ensures s.fate[t][c].Done?
    {
      CountZero(s.pc, t);
      assert VictimOk(s, t);
      NotDoneZero(s.fate[t], c);
    }
    forall v | 0 <= v < |s.pc|
      ensures s.pc[v].Quiet()
    {
      CountZero(s.pc, v);
      assert HolderOk(s, v);
    }
  }

  // ---- Every step keeps the invariant ----

  /** Steps that only move a warp, with the chunk that it has in hand, and count it as active or not. */
  lemma MoveKeeps(s: State, w: nat, p: Pc, active: int)
    requires Inv(s) && w < |s.pc| && PcShaped(s, p)
    requires active == s.active - (if s.pc[w].Counted() then 1 else 0) + (if p.Counted() then 1 else 0)
    requires VictimOk(At(s, w, p), w)
    requires p.Exited? ==> s.active == 0
    requires active > s.active ==> s.pc[w].Holding()
    requires p.Holding() == s.pc[w].Holding()
    requires p.Holding() ==> p.Victim(w) == s.pc[w].Victim(w) && p.Chunk() == s.pc[w].Chunk() && p.HasRun() == s.pc[w].HasRun()
    requires p.Copied? || p.Joined? || p.Ran? ==> s.pc[w].Copied? || s.pc[w].Joined? || s.pc[w].Ran?
    ensures Inv(At(s.(active := active), w, p))
  {
    var s' := At(s.(active := active), w, p);
    CountUpdate(s.pc, w, p);
    MoveShape(s, w, p, active);
    forall t | 0 <= t < |s.pc|
      ensures VictimOk(s', t)
    {
      assert VictimOk(s, t);
    }
    forall k
      ensures s'.work[k] == Times(s', k)
    {
      assert s.work[k] == Times(s, k);
    }
    if s.active == 0 { NobodyActive(s); }
  }

  lemma MoveShape(s: State, w: nat, p: Pc, active: int)
    requires Inv(s) && w < |s.pc| && PcShaped(s, p)
    requires p.Holding() == s.pc[w].Holding()
    requires p.Holding() ==> p.Victim(w) == s.pc[w].Victim(w) && p.Chunk() == s.pc[w].Chunk() && p.HasRun() == s.pc[w].HasRun()
    requires p.Copied? || p.Joined? || p.Ran? ==> s.pc[w].Copied? || s.pc[w].Joined? || s.pc[w].Ran?
    ensures var s' := At(s.(active := active), w, p);
      Shaped(s') && Records(s')
  {
    var s' := At(s.(active := active), w, p);
    forall v | 0 <= v < |s.pc|
      ensures PcShaped(s', s'.pc[v])
    {
      assert PcShaped(s, s.pc[v]);
    }
    forall v | 0 <= v < |s.pc|
      ensures HolderOk(s', v)
    {
      assert HolderOk(s, v);
    }
    forall t, c | 0 <= t < |s.pc| && 0 <= c < |s.fate[t]|
      ensures FateOk(s', t, c)
    {
      assert FateOk(s, t, c);
    }
  }

  /** A record changes for a chunk that no other warp has in hand. */
  lemma RecordHolders(s: State, w: nat, t: nat, c: nat, f: Fate, s': State, p: Pc)
    requires Shaped(s) && Records(s) && w < |s.pc| && t < |s.pc| && c < |s.fate[t]|
    requires s.fate[t][c].Free? || (s.fate[t][c].Held? && s.fate[t][c].holder == w)
    requires Sized(s') && s'.pc == s.pc[w := p] && s'.fate == s.fate[t := s.fate[t][c := f]] && PcShaped(s, p)
    requires s'.pub == s.pub && s'.snap == s.snap
    requires s.pc[w].Holding() ==> s.pc[w].Victim(w) == t && s.pc[w].Chunk() == c
    requires p.Holding() ==> p.Victim(w) == t && p.Chunk() == c && f == Held(w, p.HasRun())
    requires f.Held? ==> f.holder == w && p.Holding()
    requires p.Copied? || p.Joined? || p.Ran? ==> s.snap[w] == s.pub[t]
    ensures Shaped(s')
    ensures Records(s')
  {
    forall v | 0 <= v < |s.pc|
      ensures PcShaped(s', s'.pc[v])
    {
      assert PcShaped(s, s.pc[v]);
    }
    forall v | 0 <= v < |s.pc|
      ensures HolderOk(s', v)
    {
      assert HolderOk(s, v);
    }
    forall x, y | 0 <= x < |s.pc| && 0 <= y < |s'.fate[x]|
      ensures FateOk(s', x, y)
    {
      assert FateOk(s, x, y);
    }
  }

  /** Whether a chunk of this fate has been searched. */
  ghost predicate HasBeenRun(f: Fate) { f.Done? || (f.Held? && f.run) }

  /** Only the searches of the chunk whose record changes are affected. */
  lemma RecordTimes(s: State, t: nat, c: nat, f: Fate, s': State)
    requires Sized(s) && Searched(s) && t < |s.pc| && c < |s.fate[t]| && Sized(s')
    requires |s'.pc| == |s.pc| && s'.fate == s.fate[t := s.fate[t][c := f]] && s'.pub == s.pub
    requires s'.work == s.work + (if HasBeenRun(f) && !HasBeenRun(s.fate[t][c]) then multiset{Work(t, c, s.pub[t])} else multiset{})
    requires HasBeenRun(s.fate[t][c]) ==> HasBeenRun(f)
    ensures Searched(s')
  {
    forall k
      ensures s'.work[k] == Times(s', k)
    {
      assert s.work[k] == Times(s, k);
    }
  }

  /** Victims other than the claimed one and the moving warp are not affected. */
  lemma OtherVictims(s: State, w: nat, t: nat, s': State)
    requires Sized(s) && Victims(s) && Sized(s') && |s'.pc| == |s.pc| && w < |s.pc| && t < |s.pc|
    requires VictimOk(s', w) && VictimOk(s', t)
    requires forall v :: 0 <= v < |s.pc| && v != w && v != t ==>
      s'.pc[v] == s.pc[v] && s'.task[v] == s.task[v] && s'.pending[v] == s.pending[v] && s'.fate[v] == s.fate[v] &&
      s'.snap[v] == s.snap[v] && s'.pub[v] == s.pub[v]
    ensures Victims(s')
  {
    forall v | 0 <= v < |s.pc|
      ensures VictimOk(s', v)
    {
      assert VictimOk(s, v);
    }
  }

  /** The state after a successful claim. */
  function Claimed(s: State, w: nat, t: nat, tc: int, won: Pc): State
    requires w < |s.pc| && t < |s.task| && 0 < tc
  {
    At(WithFate(s.(task := s.task[t := tc - 1]), t, tc - 1, Held(w, false)), w, won)
  }

  lemma ClaimVictims(s: State, w: nat, t: nat, tc: int, won: Pc)
    requires Sized(s) && Victims(s) && w < |s.pc| && t < |s.pc| && s.task[t] == tc > 0
    requires (s.pc[w].SelfRead? && t == w && won.SelfHeld?) || (s.pc[w].StealRead? && won.Stolen?)
    ensures tc <= |s.fate[t]| && s.fate[t][tc - 1].Free?
    ensures Sized(Claimed(s, w, t, tc, won)) && Victims(Claimed(s, w, t, tc, won))
  {
    assert VictimOk(s, t) && VictimOk(s, w);
    FieldsClaim(s.pc[t], if t == w then won else s.pc[t], tc, s.pending[t], s.fate[t], s.snap[t], s.pub[t], w);
    OtherVictims(s, w, t, Claimed(s, w, t, tc, won));
  }

  /** A chunk is claimed. */
  lemma ClaimKeeps(s: State, w: nat, t: nat, tc: int, won: Pc)
    requires Inv(s) && w < |s.pc| && t < |s.pc| && s.task[t] == tc > 0
    requires (s.pc[w].SelfRead? && t == w && won == SelfHeld(tc - 1)) || (s.pc[w].StealRead? && won == Stolen(t, tc - 1))
    ensures Inv(Claimed(s, w, t, tc, won))
  {
    hide Victims, Records, Searched, Count;
    var s' := Claimed(s, w, t, tc, won);
    ClaimVictims(s, w, t, tc, won);
    CountUpdate(s.pc, w, won);
    RecordHolders(s, w, t, tc - 1, Held(w, false), s', won);
    RecordTimes(s, t, tc - 1, Held(w, false), s');
  }

  /** The chunk in hand is a chunk of its victim, and the warp works on the published snapshot. */
  lemma InHand(s: State, w: nat)
    requires Shaped(s) && Victims(s) && Records(s) && w < |s.pc| && s.pc[w].Holding()
    ensures var t, c := s.pc[w].Victim(w), s.pc[w].Chunk();
      t < |s.pc| && c < |s.fate[t]| && s.fate[t][c] == Held(w, s.pc[w].HasRun()) && (s.pc[w].SelfHeld? || s.pc[w].Joined? ==> s.snap[w] == s.pub[t])
  {
    assert HolderOk(s, w) && VictimOk(s, w);
  }

  lemma SearchVictims(s: State, w: nat, t: nat, c: nat, p: Pc)
    requires Shaped(s) && Victims(s) && Records(s) && w < |s.pc| && t < |s.pc|
    requires (s.pc[w] == SelfHeld(c) && t == w && p == SelfRun(c)) || (s.pc[w] == Joined(t, c) && p == Ran(t, c))
    ensures Sized(Search(s, w, t, c, p)) && Victims(Search(s, w, t, c, p))
  {
    InHand(s, w);
    assert VictimOk(s, t) && VictimOk(s, w);
    FieldsSearch(s.pc[t], if t == w then p else s.pc[t], s.task[t], s.pending[t], s.fate[t], s.snap[t], s.pub[t], c, Held(w, true));
    OtherVictims(s, w, t, Search(s, w, t, c, p));
  }

  /** A chunk is searched, for the first time. */
  lemma SearchKeeps(s: State, w: nat, t: nat, c: nat, p: Pc)
    requires Inv(s) && w < |s.pc| && t < |s.pc|
    requires (s.pc[w] == SelfHeld(c) && t == w && p == SelfRun(c)) || (s.pc[w] == Joined(t, c) && p == Ran(t, c))
    ensures Inv(Search(s, w, t, c, p))
  {
    var s' := Search(s, w, t, c, p);
    InHand(s, w);
    SearchVictims(s, w, t, c, p);
    CountUpdate(s.pc, w, p);
    RecordHolders(s, w, t, c, Held(w, true), s', p);
    RecordTimes(s, t, c, Held(w, true), s');
  }

  lemma PendVictims(s: State, w: nat, t: nat, c: nat, p: Pc)
    requires Shaped(s) && Victims(s) && Records(s) && w < |s.pc| && t < |s.pc|
    requires (s.pc[w] == SelfRun(c) && t == w && p == Consuming) || (s.pc[w] == Parted(t, c) && p == Seeking)
    ensures Sized(Pend(s, w, t, c, p)) && Victims(Pend(s, w, t, c, p))
  {
    InHand(s, w);
    assert VictimOk(s, t) && VictimOk(s, w);
    FieldsPend(s.pc[t], if t == w then p else s.pc[t], s.task[t], s.pending[t], s.fate[t], s.snap[t], s.pub[t], c);
    OtherVictims(s, w, t, Pend(s, w, t, c, p));
  }

  /** A chunk is reported as done. */
  lemma PendKeeps(s: State, w: nat, t: nat, c: nat, p: Pc)
    requires Inv(s) && w < |s.pc| && t < |s.pc|
    requires (s.pc[w] == SelfRun(c) && t == w && p == Consuming) || (s.pc[w] == Parted(t, c) && p == Seeking)
    ensures Inv(Pend(s, w, t, c, p))
  {
    var s' := Pend(s, w, t, c, p);
    InHand(s, w);
    PendVictims(s, w, t, c, p);
    CountUpdate(s.pc, w, p);
    RecordHolders(s, w, t, c, Done, s', p);
    RecordTimes(s, t, c, Done, s');
  }

  /** A victim whose chunks are not all done still runs its own task, so its snapshot is the published one. */
  lemma SnapshotStable(s: State, t: nat, c: nat)
    requires Inv(s) && t < |s.pc| && c < |s.fate[t]| && !s.fate[t][c].Done?
    ensures s.pc[t].Owning() && s.snap[t] == s.pub[t]
  {
    assert VictimOk(s, t);
    if NotDone(s.fate[t]) == 0 { NotDoneZero(s.fate[t], c); }
  }

  /** Steps that search nothing leave the record of searches exact. */
  lemma NothingSearched(s: State, s': State, w: nat)
    requires Sized(s) && Sized(s') && Searched(s) && |s'.pc| == |s.pc| && w < |s.pc| && s'.work == s.work
    requires forall t :: 0 <= t < |s.pc| && t != w ==> s'.fate[t] == s.fate[t] && s'.pub[t] == s.pub[t]
    requires (s'.fate[w] == s.fate[w] && s'.pub[w] == s.pub[w]) || (s.fate[w] == [] && forall c :: 0 <= c < |s'.fate[w]| ==> s'.fate[w][c].Free?)
    ensures Searched(s')
  {
    forall k
      ensures s'.work[k] == Times(s', k)
    {
      assert s.work[k] == Times(s, k);
    }
  }

  /** A thief copies the snapshot of its victim. */
  lemma CopyKeeps(s: State, w: nat)
    requires Inv(s) && Can(s, w, CopySnapshot)
    ensures Inv(Do(s, w, CopySnapshot))
  {
    var s' := Do(s, w, CopySnapshot);
    CountUpdate(s.pc, w, s'.pc[w]);
    CopyRecords(s, w);
    CopyVictims(s, w);
    NothingSearched(s, s', w);
  }

  lemma CopyVictims(s: State, w: nat)
    requires Shaped(s) && Victims(s) && Can(s, w, CopySnapshot)
    ensures Sized(Do(s, w, CopySnapshot)) && Victims(Do(s, w, CopySnapshot))
  {
    assert VictimOk(s, w);
    OtherVictims(s, w, w, Do(s, w, CopySnapshot));
  }

  lemma CopyRecords(s: State, w: nat)
    requires Inv(s) && Can(s, w, CopySnapshot)
    ensures Shaped(Do(s, w, CopySnapshot)) && Records(Do(s, w, CopySnapshot))
  {
    InHand(s, w);
    SnapshotStable(s, s.pc[w].t, s.pc[w].c);
    var s' := Do(s, w, CopySnapshot);
    forall v | 0 <= v < |s.pc|
      ensures PcShaped(s', s'.pc[v])
    {
      assert PcShaped(s, s.pc[v]);
    }
    forall v | 0 <= v < |s.pc|
      ensures HolderOk(s', v)
    {
      assert HolderOk(s, v);
    }
    forall x, y | 0 <= x < |s.pc| && 0 <= y < |s.fate[x]|
      ensures FateOk(s', x, y)
    {
      assert FateOk(s, x, y);
    }
  }

  /** The three steps of a publication. */
  lemma PublishKeeps(s: State, w: nat, a: Action)
    requires Inv(s) && Can(s, w, a) && (a.WriteSnapshot? || a.SetPending? || a.SetTask?)
    ensures Inv(Do(s, w, a))
  {
    var s' := Do(s, w, a);
    CountUpdate(s.pc, w, s'.pc[w]);
    PublishFields(s, w, a);
    OtherVictims(s, w, w, s');
    PublishRecords(s, w, a);
    NothingSearched(s, s', w);
  }

  lemma PublishFields(s: State, w: nat, a: Action)
    requires Inv(s) && Can(s, w, a) && (a.WriteSnapshot? || a.SetPending? || a.SetTask?)
    ensures s.fate[w] == [] && Sized(Do(s, w, a)) && VictimOk(Do(s, w, a), w)
  {
    assert VictimOk(s, w);
    NotDoneFree(Chunks(s.snap[w].remaining));
  }

  lemma PublishRecords(s: State, w: nat, a: Action)
    requires Inv(s) && Can(s, w, a) && (a.WriteSnapshot? || a.SetPending? || a.SetTask?)
    ensures Shaped(Do(s, w, a)) && Records(Do(s, w, a))
  {
    var s' := Do(s, w, a);
    assert VictimOk(s, w);
    forall v | 0 <= v < |s.pc|
      ensures PcShaped(s', s'.pc[v])
    {
      assert PcShaped(s, s.pc[v]);
    }
    forall v | 0 <= v < |s.pc|
      ensures HolderOk(s', v)
    {
      assert HolderOk(s, v);
    }
    forall x, y | 0 <= x < |s.pc| && 0 <= y < |s'.fate[x]|
      ensures FateOk(s', x, y)
    {
      if x != w { assert FateOk(s, x, y); }
    }
  }

  /** The steps that only move a warp. */
  lemma MovesKeep(s: State, w: nat, a: Action)
    requires Inv(s) && Can(s, w, a)
    requires a.FinishOwner? || a.ReadOwnTask? || a.ReadOwnPending? || a.ReadActive? || a.ReadTask? || a.Join? || a.Part?
    ensures Inv(Do(s, w, a))
  {
    hide Records, Searched, Count;
    var s' := Do(s, w, a);
    assert VictimOk(s, w) && PcShaped(s, s.pc[w]);
    if s'.pc[w] != s.pc[w] {
      MoveKeeps(s, w, s'.pc[w], s'.active);
    } else {
      assert s' == s;
    }
  }

  /** A claim wins the chunk or, when the count has changed, only moves the warp. */
  lemma CasKeeps(s: State, w: nat, t: nat, tc: int, won: Pc, lost: Pc)
    requires Inv(s) && w < |s.pc| && t < |s.pc| && tc > 0
    requires (s.pc[w] == SelfRead(tc) && t == w && won == SelfHeld(tc - 1) && lost == Consuming) ||
             (s.pc[w] == StealRead(t, tc) && won == Stolen(t, tc - 1) && lost == Seeking)
    ensures Inv(Cas(s, w, t, tc, won, lost))
  {
    if s.task[t] == tc {
      ClaimKeeps(s, w, t, tc, won);
    } else {
      assert VictimOk(s, w);
      MoveKeeps(s, w, lost, s.active);
    }
  }

  /** Every step of every warp keeps the invariant. */
  lemma StepKeeps(s: State, w: nat, a: Action)
    requires Inv(s) && Can(s, w, a)
    ensures Inv(Do(s, w, a))
  {
    match a
    case WriteSnapshot(_) => PublishKeeps(s, w, a);
    case SetPending => PublishKeeps(s, w, a);
    case SetTask => PublishKeeps(s, w, a);
    case SelfCas =>
      assert PcShaped(s, s.pc[w]);
      CasKeeps(s, w, w, s.pc[w].tc, SelfHeld(s.pc[w].tc - 1), Consuming);
    case StealCas =>
      assert PcShaped(s, s.pc[w]);
      CasKeeps(s, w, s.pc[w].t, s.pc[w].tc, Stolen(s.pc[w].t, s.pc[w].tc - 1), Seeking);
    case CopySnapshot => CopyKeeps(s, w);
    case SearchOwn => SearchKeeps(s, w, w, s.pc[w].c, SelfRun(s.pc[w].c));
    case SearchStolen => InHand(s, w); SearchKeeps(s, w, s.pc[w].t, s.pc[w].c, Ran(s.pc[w].t, s.pc[w].c));
    case SelfPend => PendKeeps(s, w, w, s.pc[w].c, Consuming);
    case ThiefPend => InHand(s, w); PendKeeps(s, w, s.pc[w].t, s.pc[w].c, Seeking);
    case _ => MovesKeep(s, w, a);
  }

  // ---- Whole runs ----

  /** `run` is a run of the block: every state follows from the one before by a step of some warp. */
  ghost predicate Run(run: seq<State>) {
    |run| > 0 && Init(run[0]) && forall i :: 0 < i < |run| ==> StepAt(run, i)
  }

  ghost predicate StepAt(run: seq<State>, i: nat)
    requires 0 < i < |run|
  {
    Follows(run[i - 1], run[i])
  }

  ghost predicate Follows(s: State, s': State) {
    Shaped(s) && exists w, a :: Can(s, w, a) && s' == Do(s, w, a)
  }

  lemma {:induction false} RunInv(run: seq<State>, i: nat)
    requires Run(run) && i < |run|
    ensures Inv(run[i])
  {
    if i == 0 {
      InitInv(run[0]);
    } else {
      RunInv(run, i - 1);
      assert StepAt(run, i);
      FollowsKeeps(run[i - 1], run[i]);
    }
  }

  lemma FollowsKeeps(s: State, s': State)
    requires Inv(s) && Follows(s, s')
    ensures Inv(s')
  {
    var w, a :| Can(s, w, a) && s' == Do(s, w, a);
    StepKeeps(s, w, a);
  }

  /** In every interleaving no chunk is searched twice, and only from the partial match that its owner published. */
  lemma NeverTwice(run: seq<State>, i: nat, k: Work)
    requires Run(run) && i < |run|
    ensures Sized(run[i]) && run[i].work[k] <= 1
    ensures run[i].work[k] == 1 ==> k.t < |run[i].pc| && k.c < |run[i].fate[k.t]| && k.snap == run[i].pub[k.t]
  {
    RunInv(run, i);
  }

  /** In every interleaving a warp that leaves leaves behind nothing: each published chunk has been searched
      exactly once, from the published partial match, no warp has a chunk in hand, and none will publish again. */
  lemma LeavesNothing(run: seq<State>, i: nat, w: nat)
    requires Run(run) && i < |run| && w < |run[i].pc| && run[i].pc[w].Exited?
    ensures Sized(run[i])
    ensures var s := run[i];
      && (forall v :: 0 <= v < |s.pc| ==> s.pc[v].Quiet())
      && (forall t, c :: 0 <= t < |s.pc| && 0 <= c < |s.fate[t]| ==> s.work[Work(t, c, s.pub[t])] == 1)
      && (forall t :: 0 <= t < |s.pc| && s.fate[t] != [] ==> |s.fate[t]| == Chunks(s.pub[t].remaining))
  {
    var s := run[i];
    RunInv(run, i);
    NobodyActive(s);
    forall t, c | 0 <= t < |s.pc| && 0 <= c < |s.fate[t]|
      ensures s.work[Work(t, c, s.pub[t])] == 1
    {
      assert s.work[Work(t, c, s.pub[t])] == Times(s, Work(t, c, s.pub[t]));
    }
    forall t | 0 <= t < |s.pc| && s.fate[t] != []
      ensures |s.fate[t]| == Chunks(s.pub[t].remaining)
    {
      assert VictimOk(s, t);
    }
  }

  /** Warp `t` has announced `snap` and goes on to publish it, or has published it. */
  ghost predicate Announced(s: State, t: nat, snap: Snapshot)
    requires Sized(s)
  {
    && t < |s.pc| && s.pub[t] == snap && snap.remaining >= TASK_SHARE_BOUND
    && (s.pc[t].SnapWritten? || s.pc[t].PendingSet? || s.fate[t] != [])
  }

  lemma AnnouncedKept(s: State, s': State, t: nat, snap: Snapshot)
    requires Inv(s) && Follows(s, s') && Announced(s, t, snap)
    ensures Sized(s') && Announced(s', t, snap)
  {
    hide Records, Searched, Count, NotDone, Can, Do, Announced;
    var w, a :| Can(s, w, a) && s' == Do(s, w, a);
    OwnerIsFresh(s, t, snap);
    AnnouncedStep(s, w, a, t, snap);
  }

  /** A warp that has announced its snapshot does not run its own task any more, and still has the snapshot before it
      has published it. */
  lemma OwnerIsFresh(s: State, t: nat, snap: Snapshot)
    requires Sized(s) && Victims(s) && Announced(s, t, snap)
    ensures !s.pc[t].Owner? && (s.pc[t].PendingSet? ==> s.snap[t] == snap)
  {
    assert VictimOk(s, t);
  }

  lemma AnnouncedStep(s: State, w: nat, a: Action, t: nat, snap: Snapshot)
    requires Shaped(s) && Can(s, w, a) && Announced(s, t, snap) && !s.pc[t].Owner? && (s.pc[t].PendingSet? ==> s.snap[t] == snap)
    ensures Sized(Do(s, w, a)) && Announced(Do(s, w, a), t, snap)
  {
    hide Chunks;
    assert PcShaped(s, s.pc[w]);
    if !a.SetTask? { FateGrows(s, w, a, t); }
    if a.SetTask? { SomeChunks(s.snap[w].remaining); }
  }

  lemma SomeChunks(remaining: nat)
    ensures remaining >= TASK_SHARE_BOUND ==> AllFree(Chunks(remaining)) != []
  {
  }

  /** Only a publication replaces the record of a warp's chunks. */
  lemma FateGrows(s: State, w: nat, a: Action, t: nat)
    requires Shaped(s) && Can(s, w, a) && !a.SetTask? && t < |s.pc|
    ensures Sized(Do(s, w, a)) && |Do(s, w, a).fate[t]| == |s.fate[t]|
  {
    hide Chunks;
    assert PcShaped(s, s.pc[w]);
  }

  lemma {:induction false} AnnouncedOn(run: seq<State>, j: nat, i: nat, t: nat, snap: Snapshot)
    requires Run(run) && j <= i < |run| && Sized(run[j]) && Announced(run[j], t, snap)
    ensures Sized(run[i]) && Announced(run[i], t, snap)
    decreases i
  {
    hide Announced, Follows, Inv;
    if j < i {
      AnnouncedOn(run, j, i - 1, t, snap);
      RunInv(run, i - 1);
      assert StepAt(run, i);
      AnnouncedKept(run[i - 1], run[i], t, snap);
    }
  }

  /** What a warp announces is searched: once some warp has left, all chunks of a snapshot that was written have been
      searched, each once, and from this snapshot. */
  lemma AnnouncedIsSearched(run: seq<State>, j: nat, i: nat, t: nat, snap: Snapshot, w: nat)
    requires Run(run) && 0 < j <= i < |run| && w < |run[i].pc| && run[i].pc[w].Exited?
    requires Shaped(run[j - 1]) && Can(run[j - 1], t, WriteSnapshot(snap)) && run[j] == Do(run[j - 1], t, WriteSnapshot(snap))
    ensures Sized(run[i]) && t < |run[i].pc| && run[i].pub[t] == snap && |run[i].fate[t]| == Chunks(snap.remaining)
    ensures forall c :: 0 <= c < Chunks(snap.remaining) ==> run[i].work[Work(t, c, snap)] == 1
  {
    RunInv(run, j);
    AnnouncedOn(run, j, i, t, snap);
    LeavesNothing(run, i, w);
  }

  /** While a published chunk is not done, its owner's snapshot is the published one. */
  lemma VictimSnapshotStable(run: seq<State>, i: nat, t: nat, c: nat)
    requires Run(run) && i < |run| && t < |run[i].pc|
    ensures Sized(run[i])
    ensures c < |run[i].fate[t]| && !run[i].fate[t][c].Done? ==> run[i].snap[t] == run[i].pub[t]
  {
    RunInv(run, i);
    if c < |run[i].fate[t]| && !run[i].fate[t][c].Done? { SnapshotStable(run[i], t, c); }
  }

  /** After a warp has left, nothing more is published, claimed or searched. */
  lemma {:induction false} NothingAfter(run: seq<State>, i: nat, j: nat, w: nat)
    requires Run(run) && i <= j < |run| && w < |run[i].pc| && run[i].pc[w].Exited?
    ensures w < |run[j].pc| && run[j].pc[w].Exited?
    ensures run[j].fate == run[i].fate && run[j].pub == run[i].pub && run[j].work == run[i].work
    decreases j
  {
    if i < j {
      NothingAfter(run, i, j - 1, w);
      StepAfter(run, j, w);
    }
  }

  lemma StepAfter(run: seq<State>, j: nat, w: nat)
    requires Run(run) && 0 < j < |run| && w < |run[j - 1].pc| && run[j - 1].pc[w].Exited?
    ensures w < |run[j].pc| && run[j].pc[w].Exited?
    ensures run[j].fate == run[j - 1].fate && run[j].pub == run[j - 1].pub && run[j].work == run[j - 1].work
  {
    RunInv(run, j - 1);
    assert StepAt(run, j);
    QuietStep(run[j - 1], run[j], w);
  }

  lemma QuietStep(s: State, s': State, w: nat)
    requires Inv(s) && Follows(s, s') && w < |s.pc| && s.pc[w].Exited?
    ensures w < |s'.pc| && s'.pc[w].Exited? && s'.fate == s.fate && s'.pub == s.pub && s'.work == s.work
  {
    var v, a :| Can(s, v, a) && s' == Do(s, v, a);
    NobodyActive(s);
    QuietDo(s, w, v, a);
  }

  lemma QuietDo(s: State, w: nat, v: nat, a: Action)
    requires Shaped(s) && Victims(s) && w < |s.pc| && s.pc[w].Exited? && Can(s, v, a) && s.pc[v].Quiet()
    requires forall t, c :: 0 <= t < |s.pc| && 0 <= c < |s.fate[t]| ==> s.fate[t][c].Done?
    ensures var s' := Do(s, v, a);
      |s'.pc| == |s.pc| && s'.pc[w].Exited? && s'.fate == s.fate && s'.pub == s.pub && s'.work == s.work
  {
    if a.StealCas? {
      var t := s.pc[v].t;
      assert PcShaped(s, s.pc[v]) && VictimOk(s, t);
      if s.task[t] > 0 {
        TaskIsFree(s.fate[t], s.task[t]);
        assert false;
      }
    }
  }

  lemma TaskIsFree(fs: seq<Fate>, task: int)
    requires 0 < task <= |fs| && forall c :: 0 <= c < |fs| ==> (fs[c].Free? <==> c < task)
    ensures fs[task - 1].Free?
  {
  }
}
