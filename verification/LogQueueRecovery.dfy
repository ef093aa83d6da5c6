/** Durable linearizability: after a crash at any moment the persisted part of the log
    queue is a queue that some cut of the history leaves, with every operation that has
    returned in it. */
module LogQueueRecovery {
  import opened LogQueue
  import opened LogQueueInvariant
  import opened LogQueueSteps
  import opened LogQueueTheorems
  import opened Wrappers

  // ---------------------------------------------------------------------------
  // Cuts of a history
  // ---------------------------------------------------------------------------

  function Enqueues(es: seq<Event>): nat {
    if es == [] then 0 else Enqueues(es[..|es| - 1]) + (if es[|es| - 1].Enqueued? then 1 else 0)
  }

  function Dequeues(es: seq<Event>): nat {
    if es == [] then 0 else Dequeues(es[..|es| - 1]) + (if es[|es| - 1].Dequeued? then 1 else 0)
  }

  /** The next event `e` is among the first `ne` enqueues and `nd` dequeues. */
  predicate Survives(es: seq<Event>, e: Event, ne: nat, nd: nat) {
    (e.Enqueued? && Enqueues(es) < ne) || (e.Dequeued? && Dequeues(es) < nd)
  }

  /** The first `ne` enqueues and the first `nd` dequeues, in the order of the history. */
  function Cut(es: seq<Event>, ne: nat, nd: nat): seq<Event> {
    if es == [] then [] else
      var before, e := es[..|es| - 1], es[|es| - 1];
      Cut(before, ne, nd) + (if Survives(before, e, ne, nd) then [e] else [])
  }

  lemma CutNext(es: seq<Event>, e: Event, ne: nat, nd: nat)
    ensures Cut(es + [e], ne, nd) == Cut(es, ne, nd) + (if Survives(es, e, ne, nd) then [e] else [])
    ensures Enqueues(es + [e]) == Enqueues(es) + (if e.Enqueued? then 1 else 0)
    ensures Dequeues(es + [e]) == Dequeues(es) + (if e.Dequeued? then 1 else 0)
  {
    assert (es + [e])[..|es|] == es;
  }

  lemma ReplayNext(es: seq<Event>, e: Event, s: seq<int>)
    requires Replay(es) == Some(s)
    ensures e.Enqueued? ==> Replay(es + [e]) == Some(s + [e.v])
    ensures e.Dequeued? && s != [] && s[0] == e.v ==> Replay(es + [e]) == Some(s[1..])
  {
    assert (es + [e])[..|es|] == es;
  }

  lemma ByNext(es: seq<Event>, e: Event, t: nat)
    ensures ByOperation(es + [e], t) == ByOperation(es, t) + LogQueueTheorems.Done(e, t)
  {
    assert (es + [e])[..|es|] == es;
  }

  // ---------------------------------------------------------------------------
  // What an event does to the chain
  // ---------------------------------------------------------------------------

  /** The node an operation has linked or removed. */
  function Item(pc: Pc): Option<nat> {
    match pc
    case EFlush(n, _) => Some(n)
    case ESwing(n, _) => Some(n)
    case EDone(n) => Some(n)
    case DFlushMark(_, _, nx, mine) => if mine then Some(nx) else None
    case DSetNode(_, _, nx, mine) => if mine then Some(nx) else None
    case DFlushSetNode(_, _, nx, mine) => if mine then Some(nx) else None
    case DSwing(_, _, nx, mine) => if mine then Some(nx) else None
    case DDone(_, nx) => Some(nx)
    case _ => None
  }

  /** `x` is node `p` of the chain, and has the value `v`. */
  predicate ChainAt(q: Queue, p: nat, x: nat, v: int) {
    p < |q.chain| && q.chain[p] == x && x < |q.nodes| && q.nodes[x].value == v
  }

  ghost predicate EventShape(q: Queue, q': Queue, e: Event) {
    match e
    case Enqueued(t, v) =>
      && q'.marked == q.marked && |q'.chain| == |q.chain| + 1 && q.chain <= q'.chain
      && t < |q.ops| && t < |q'.ops| && Item(q.ops[t]).None?
      && Item(q'.ops[t]) == Some(q'.chain[|q.chain|]) && IsEnq(q'.ops[t])
      && ChainAt(q', |q.chain|, q'.chain[|q.chain|], v)
    case Dequeued(t, v) =>
      && q'.chain == q.chain && q'.marked == q.marked + 1 < |q.chain|
      && t < |q.ops| && t < |q'.ops| && Item(q.ops[t]).None?
      && Item(q'.ops[t]) == Some(q.chain[q.marked + 1]) && !IsEnq(q'.ops[t])
      && ChainAt(q', q.marked + 1, q.chain[q.marked + 1], v)
    case Silent => KeepsQueue(q, q')
  }

  lemma LinkShape(q: Queue, t: nat)
    requires Good(q) && Wf(q) && t < |q.ops| && q.ops[t].ELink? && !StepEvent(q, t).Silent?
    ensures EventShape(q, Step(q, t), StepEvent(q, t))
  {
    assert WfPc(q, q.ops[t]);
    var n := q.ops[t].node;
    assert Step(q, t).chain == q.chain + [n];
  }

  lemma MarkShape(q: Queue, t: nat)
    requires Good(q) && Wf(q) && t < |q.ops| && q.ops[t].DMark? && !StepEvent(q, t).Silent?
    ensures EventShape(q, Step(q, t), StepEvent(q, t))
  {
    assert WfPc(q, q.ops[t]) && OpOk(q, q.ops[t]);
    CandidateIsNext(q, q.ops[t].first, q.ops[t].nx);
  }

  lemma ActionShape(q: Queue, a: Action)
    requires Good(q) && Can(q, a)
    ensures EventShape(q, Do(q, a), EventOf(q, a))
  {
    if EventOf(q, a).Silent? {
      DoPermanent(q, a);
    } else if q.ops[a.t].ELink? {
      LinkShape(q, a.t);
    } else {
      MarkShape(q, a.t);
    }
  }

  /** The same along a run. */
  lemma RunShape(tr: seq<Queue>, acts: seq<Action>, i: nat)
    requires IsRun(tr, acts) && i < |acts|
    ensures EventShape(tr[i], tr[i + 1], EventOf(tr[i], acts[i])) && Permanent(tr[i], tr[i + 1])
    ensures WfShared(tr[i]) && WfShared(tr[i + 1])
  {
    RunIsGood(tr, acts, i);
    RunIsGood(tr, acts, i + 1);
    ActionShape(tr[i], acts[i]);
    DoPermanent(tr[i], acts[i]);
  }

  /** The history names every linked and every removed node. */
  ghost predicate Counts(q: Queue, es: seq<Event>) {
    Enqueues(es) == |q.chain| - 1 && Dequeues(es) == q.marked
  }

  lemma NextCounts(q: Queue, q': Queue, es: seq<Event>, e: Event)
    requires Counts(q, es) && EventShape(q, q', e)
    ensures Counts(q', es + [e])
  {
    CutNext(es, e, 0, 0);
  }

  /** The history, one event longer. */
  lemma HistoryNext(tr: seq<Queue>, acts: seq<Action>, i: nat) returns (q: Queue, q': Queue, es: seq<Event>, e: Event)
    requires IsRun(tr, acts) && 0 < i <= |acts|
    ensures q == tr[i - 1] && q' == tr[i] && es == EventsUpTo(tr, acts, i - 1) && EventsUpTo(tr, acts, i) == es + [e]
    ensures EventShape(q, q', e) && Permanent(q, q') && WfShared(q) && WfShared(q') && Can(q, acts[i - 1])
    ensures q' == Do(q, acts[i - 1]) && e == EventOf(q, acts[i - 1])
  {
    q, q', es, e := tr[i - 1], tr[i], EventsUpTo(tr, acts, i - 1), EventOf(tr[i - 1], acts[i - 1]);
    RunShape(tr, acts, i - 1);
  }

  lemma {:induction false} HistoryCounts(tr: seq<Queue>, acts: seq<Action>, i: nat)
    requires IsRun(tr, acts) && i <= |acts|
    ensures Counts(tr[i], EventsUpTo(tr, acts, i))
  {
    if i > 0 {
      HistoryCounts(tr, acts, i - 1);
      var q, q', es, e := HistoryNext(tr, acts, i);
      NextCounts(q, q', es, e);
    }
  }

  // ---------------------------------------------------------------------------
  // Every cut leaves a part of the chain
  // ---------------------------------------------------------------------------

  lemma SameValues(q: Queue, q': Queue, a: nat, b: nat)
    requires WfShared(q) && WfShared(q') && Permanent(q, q') && q.chain <= q'.chain && a <= b <= |q.chain|
    ensures Values(q'.nodes, q'.chain[a..b]) == Values(q.nodes, q.chain[a..b])
  {
    var c := q.chain[a..b];
    assert q'.chain[a..b] == c;
    assert forall i :: 0 <= i < |c| ==> c[i] == q.chain[a + i] && q'.nodes[c[i]].value == q.nodes[c[i]].value;
  }

  lemma LastValue(q: Queue, a: nat, b: nat, v: int)
    requires WfShared(q) && a <= b < |q.chain| && q.nodes[q.chain[b]].value == v
    ensures Values(q.nodes, q.chain[a..b + 1]) == Values(q.nodes, q.chain[a..b]) + [v]
  {
    assert q.chain[a..b + 1] == q.chain[a..b] + [q.chain[b]];
  }

  lemma FirstValue(q: Queue, a: nat, b: nat, v: int)
    requires WfShared(q) && a < b <= |q.chain| && q.nodes[q.chain[a]].value == v
    ensures Values(q.nodes, q.chain[a..b]) == [v] + Values(q.nodes, q.chain[a + 1..b])
  {
    assert q.chain[a..b] == [q.chain[a]] + q.chain[a + 1..b];
  }

  /** A bound above all events is not felt. */
  lemma {:induction false} ShorterCut(es: seq<Event>, ne: nat, nd: nat)
    ensures ne > 0 && Enqueues(es) < ne ==> Cut(es, ne, nd) == Cut(es, ne - 1, nd)
    ensures nd > 0 && Dequeues(es) < nd ==> Cut(es, ne, nd) == Cut(es, ne, nd - 1)
  {
    if es != [] {
      ShorterCut(es[..|es| - 1], ne, nd);
    }
  }

  /** The first `ne` enqueues and `nd` dequeues leave the nodes from `nd + 1` to `ne`
      of the chain. */
  ghost predicate CutLeaves(q: Queue, es: seq<Event>, ne: nat, nd: nat)
    requires WfShared(q) && nd <= ne < |q.chain|
  {
    Replay(Cut(es, ne, nd)) == Some(Values(q.nodes, q.chain[nd + 1..ne + 1]))
  }

  ghost predicate AllCuts(q: Queue, es: seq<Event>) {
    WfShared(q) && forall ne: nat, nd: nat :: nd <= ne < |q.chain| && nd <= q.marked ==> CutLeaves(q, es, ne, nd)
  }

  lemma CutDrops(q: Queue, q': Queue, es: seq<Event>, e: Event, ne: nat, nd: nat)
    requires AllCuts(q, es) && Counts(q, es) && EventShape(q, q', e) && Permanent(q, q') && WfShared(q')
    requires nd <= ne < |q'.chain| && nd <= q'.marked && !Survives(es, e, ne, nd)
    ensures CutLeaves(q', es + [e], ne, nd)
  {
    assert CutLeaves(q, es, ne, nd);
    CutNext(es, e, ne, nd);
    assert Cut(es, ne, nd) + [] == Cut(es, ne, nd);
    SameValues(q, q', nd + 1, ne + 1);
  }

  lemma CutKeepsEnqueue(q: Queue, q': Queue, es: seq<Event>, e: Event, ne: nat, nd: nat)
    requires AllCuts(q, es) && Counts(q, es) && EventShape(q, q', e) && Permanent(q, q') && WfShared(q')
    requires nd <= ne < |q'.chain| && nd <= q'.marked && Survives(es, e, ne, nd) && e.Enqueued?
    ensures CutLeaves(q', es + [e], ne, nd)
  {
    ShorterCut(es, ne, nd);
    assert CutLeaves(q, es, ne - 1, nd);
    CutNext(es, e, ne, nd);
    SameValues(q, q', nd + 1, ne);
    LastValue(q', nd + 1, ne, e.v);
    ReplayNext(Cut(es, ne, nd), e, Values(q.nodes, q.chain[nd + 1..ne]));
  }

  lemma CutKeepsDequeue(q: Queue, q': Queue, es: seq<Event>, e: Event, ne: nat, nd: nat)
    requires AllCuts(q, es) && Counts(q, es) && EventShape(q, q', e) && Permanent(q, q') && WfShared(q')
    requires nd <= ne < |q'.chain| && nd <= q'.marked && Survives(es, e, ne, nd) && e.Dequeued?
    ensures CutLeaves(q', es + [e], ne, nd)
  {
    ShorterCut(es, ne, nd);
    assert CutLeaves(q, es, ne, nd - 1);
    CutNext(es, e, ne, nd);
    SameValues(q, q', nd, ne + 1);
    FirstValue(q', nd, ne + 1, e.v);
    ReplayNext(Cut(es, ne, nd), e, Values(q.nodes, q.chain[nd..ne + 1]));
  }

  lemma NextCuts(q: Queue, q': Queue, es: seq<Event>, e: Event)
    requires AllCuts(q, es) && Counts(q, es) && EventShape(q, q', e) && Permanent(q, q') && WfShared(q')
    ensures AllCuts(q', es + [e])
  {
    forall ne: nat, nd: nat | nd <= ne < |q'.chain| && nd <= q'.marked ensures CutLeaves(q', es + [e], ne, nd) {
      if !Survives(es, e, ne, nd) { CutDrops(q, q', es, e, ne, nd); }
      else if e.Enqueued? { CutKeepsEnqueue(q, q', es, e, ne, nd); }
      else { CutKeepsDequeue(q, q', es, e, ne, nd); }
    }
  }

  lemma FirstCuts(q: Queue)
    requires q == Init
    ensures AllCuts(q, [])
  {
    forall ne: nat, nd: nat | nd <= ne < |q.chain| && nd <= q.marked ensures CutLeaves(q, [], ne, nd) {
      assert q.chain[nd + 1..ne + 1] == [];
      assert |Values(q.nodes, q.chain[nd + 1..ne + 1])| == 0;
    }
  }

  /** The first enqueues and the first dequeues of a history always fit together, as
      long as there are no more dequeues than enqueues. */
  lemma {:induction false} CutsReplay(tr: seq<Queue>, acts: seq<Action>, i: nat)
    requires IsRun(tr, acts) && i <= |acts|
    ensures AllCuts(tr[i], EventsUpTo(tr, acts, i))
  {
    if i > 0 {
      CutsReplay(tr, acts, i - 1);
      HistoryCounts(tr, acts, i - 1);
      var q, q', es, e := HistoryNext(tr, acts, i);
      NextCuts(q, q', es, e);
    } else {
      FirstCuts(tr[0]);
    }
  }

  // ---------------------------------------------------------------------------
  // Whose events a cut drops
  // ---------------------------------------------------------------------------

  /** What operation `t` has linked or removed lies within the cut. */
  ghost predicate Within(q: Queue, t: nat, ne: nat, nd: nat) {
    t < |q.ops| && Item(q.ops[t]).Some? ==>
      exists p: nat :: p < |q.chain| && q.chain[p] == Item(q.ops[t]).value && p <= if IsEnq(q.ops[t]) then ne else nd
  }

  lemma EnqItemStays(q: Queue, t: nat)
    requires Wf(q) && t < |q.ops| && IsEnq(q.ops[t]) && Item(q.ops[t]).Some?
    ensures t < |Step(q, t).ops| && Item(Step(q, t).ops[t]) == Item(q.ops[t]) && IsEnq(Step(q, t).ops[t])
  {
    assert WfPc(q, q.ops[t]);
  }

  lemma DeqItemStays(q: Queue, t: nat)
    requires Wf(q) && t < |q.ops| && !IsEnq(q.ops[t]) && Item(q.ops[t]).Some?
    ensures t < |Step(q, t).ops| && Item(Step(q, t).ops[t]) == Item(q.ops[t]) && !IsEnq(Step(q, t).ops[t])
  {
    assert WfPc(q, q.ops[t]);
  }

  lemma ItemStays(q: Queue, a: Action, t: nat)
    requires Wf(q) && Can(q, a) && t < |q.ops| && Item(q.ops[t]).Some?
    ensures t < |Do(q, a).ops| && Item(Do(q, a).ops[t]) == Item(q.ops[t])
    ensures IsEnq(Do(q, a).ops[t]) <==> IsEnq(q.ops[t])
  {
    if a.Run? {
      OnlyMoves(q, a.t);
      if a.t == t {
        if IsEnq(q.ops[t]) { EnqItemStays(q, t); } else { DeqItemStays(q, t); }
      }
    }
  }

  lemma LinkedItem(q: Queue, pc: Pc) returns (p: nat)
    requires Knows(q, pc) && IsEnq(pc) && Item(pc).Some?
    ensures p < |q.chain| && q.chain[p] == Item(pc).value && (pc.EDone? ==> p <= q.tailPos)
  {
    if pc.EDone? {
      p :| p <= q.tailPos && p < |q.chain| && q.chain[p] == pc.node;
    } else {
      var r: nat :| r <= q.tailPos && Link(q, r, pc.last, pc.node);
      p := r + 1;
    }
  }

  lemma RemovedItem(q: Queue, pc: Pc) returns (p: nat)
    requires Knows(q, pc) && !IsEnq(pc) && Item(pc).Some?
    ensures p < |q.chain| && q.chain[p] == Item(pc).value && (pc.DDone? ==> p <= q.headPos)
  {
    if pc.DDone? {
      p :| p <= q.headPos && p < |q.chain| && q.chain[p] == pc.node;
    } else {
      var r: nat :| r <= q.headPos && r + 1 <= q.marked && Link(q, r, pc.first, pc.nx);
      p := r + 1;
    }
  }

  /** The item of an operation is on the chain. */
  lemma ItemOnChain(q: Queue, t: nat) returns (p: nat)
    requires Good(q) && t < |q.ops| && Item(q.ops[t]).Some?
    ensures p < |q.chain| && q.chain[p] == Item(q.ops[t]).value
    ensures q.ops[t].EDone? ==> p <= q.tailPos
    ensures q.ops[t].DDone? ==> p <= q.headPos
  {
    assert OpOk(q, q.ops[t]);
    if IsEnq(q.ops[t]) { p := LinkedItem(q, q.ops[t]); } else { p := RemovedItem(q, q.ops[t]); }
  }

  lemma WithinBefore(q: Queue, a: Action, t: nat, ne: nat, nd: nat)
    requires Good(q) && Can(q, a) && Good(Do(q, a)) && Within(Do(q, a), t, ne, nd) && q.chain <= Do(q, a).chain
    ensures Within(q, t, ne, nd)
  {
    if t < |q.ops| && Item(q.ops[t]).Some? {
      ItemStays(q, a, t);
      var r := ItemOnChain(q, t);
      var q' := Do(q, a);
      var p: nat :| p < |q'.chain| && q'.chain[p] == Item(q'.ops[t]).value && p <= if IsEnq(q'.ops[t]) then ne else nd;
      assert q'.chain[r] == q.chain[r];
      assert p == r;
    }
  }

  lemma WithinSurvives(q: Queue, q': Queue, es: seq<Event>, e: Event, t: nat, ne: nat, nd: nat)
    requires Good(q') && EventShape(q, q', e) && !e.Silent? && e.t == t && Within(q', t, ne, nd) && Counts(q, es)
    ensures Survives(es, e, ne, nd)
  {
    var p: nat :| p < |q'.chain| && q'.chain[p] == Item(q'.ops[t]).value && p <= if IsEnq(q'.ops[t]) then ne else nd;
    if e.Enqueued? { assert p == |q.chain|; } else { assert p == q.marked + 1; }
  }

  lemma NextKeepsOperation(q: Queue, q': Queue, es: seq<Event>, e: Event, t: nat, ne: nat, nd: nat)
    requires Good(q') && EventShape(q, q', e) && Within(q', t, ne, nd) && Counts(q, es)
    requires ByOperation(Cut(es, ne, nd), t) == ByOperation(es, t)
    ensures ByOperation(Cut(es + [e], ne, nd), t) == ByOperation(es + [e], t)
  {
    CutNext(es, e, ne, nd);
    ByNext(es, e, t);
    ByNext(Cut(es, ne, nd), e, t);
    if !e.Silent? && e.t == t { WithinSurvives(q, q', es, e, t, ne, nd); }
    assert Cut(es, ne, nd) + [] == Cut(es, ne, nd);
  }

  /** A cut around what an operation has done keeps all its events. */
  lemma {:induction false} CutKeepsOperation(tr: seq<Queue>, acts: seq<Action>, i: nat, t: nat, ne: nat, nd: nat)
    requires IsRun(tr, acts) && i <= |acts| && Within(tr[i], t, ne, nd)
    ensures ByOperation(Cut(EventsUpTo(tr, acts, i), ne, nd), t) == ByOperation(EventsUpTo(tr, acts, i), t)
  {
    if i > 0 {
      RunIsGood(tr, acts, i - 1);
      RunIsGood(tr, acts, i);
      HistoryCounts(tr, acts, i - 1);
      var q, q', es, e := HistoryNext(tr, acts, i);
      WithinBefore(q, acts[i - 1], t, ne, nd);
      CutKeepsOperation(tr, acts, i - 1, t, ne, nd);
      NextKeepsOperation(q, q', es, e, t, ne, nd);
    }
  }

  // ---------------------------------------------------------------------------
  // The recovered queue
  // ---------------------------------------------------------------------------

  /** The values recovery reads off behind the sentinel: those of the nodes on the
      persisted links that carry no persisted mark. */
  function Unmarked(nodes: seq<Node>, w: seq<nat>): seq<int>
    requires forall i :: 0 <= i < |w| ==> w[i] < |nodes|
  {
    if w == [] then [] else
      var x := nodes[w[|w| - 1]];
      Unmarked(nodes, w[..|w| - 1]) + (if x.pRemove.None? then [x.value] else [])
  }

  lemma {:induction false} UnmarkedIsRest(nodes: seq<Node>, w: seq<nat>, h: nat)
    requires (forall i :: 0 <= i < |w| ==> w[i] < |nodes|) && h <= |w|
    requires forall i :: 0 <= i < |w| ==> (nodes[w[i]].pRemove.Some? <==> i < h)
    ensures Unmarked(nodes, w) == Values(nodes, w[h..])
    decreases |w|
  {
    if h < |w| {
      UnmarkedIsRest(nodes, w[..|w| - 1], h);
      assert w[h..] == w[..|w| - 1][h..] + [w[|w| - 1]];
    } else if w != [] {
      UnmarkedIsRest(nodes, w[..|w| - 1], h - 1);
      assert w[h..] == [] && w[..|w| - 1][h - 1..] == [];
    }
  }

  lemma FinishedIsWithin(q: Queue, t: nat, ne: nat, nd: nat)
    requires Good(q) && t < |q.ops| && Finished(q.ops[t]) && q.tailPos <= ne && q.headPos <= nd
    ensures Within(q, t, ne, nd)
  {
    if Item(q.ops[t]).Some? { var p := ItemOnChain(q, t); }
  }

  lemma RecoveredValues(q: Queue, w: seq<nat>, h: nat)
    requires Good(q) && IsRecoveryWalk(q, w) && w <= q.chain && h < |w|
    requires forall i :: 1 <= i < |w| ==> (q.nodes[w[i]].pRemove.Some? <==> i <= h)
    ensures Unmarked(q.nodes, w[1..]) == Values(q.nodes, q.chain[h + 1..|w|])
  {
    var v := w[1..];
    assert forall i :: 0 <= i < |v| ==> v[i] == w[i + 1];
    UnmarkedIsRest(q.nodes, v, h);
    assert v[h..] == q.chain[h + 1..|w|];
  }

  /** Durable linearizability: whenever power is lost, what recovery reads off is what a
      sequential queue holds after a cut of the history, which contains everything that
      the operations that have returned did. The cut lacks at most the last enqueue and
      the last dequeue. */
  lemma RecoveryIsACut(tr: seq<Queue>, acts: seq<Action>, i: nat, w: seq<nat>) returns (ne: nat, nd: nat)
    requires IsRun(tr, acts) && i <= |acts| && IsRecoveryWalk(tr[i], w)
    ensures Replay(Cut(EventsUpTo(tr, acts, i), ne, nd)) == Some(Unmarked(tr[i].nodes, w[1..]))
    ensures Enqueues(EventsUpTo(tr, acts, i)) <= ne + 1 && Dequeues(EventsUpTo(tr, acts, i)) <= nd + 1
    ensures tr[i].tailPos <= ne && tr[i].headPos <= nd
    ensures forall t {:trigger tr[i].ops[t]} :: 0 <= t < |tr[i].ops| && Finished(tr[i].ops[t]) ==>
              ByOperation(Cut(EventsUpTo(tr, acts, i), ne, nd), t) == ByOperation(EventsUpTo(tr, acts, i), t)
  {
    var q := tr[i];
    RunIsGood(tr, acts, i);
    WalkIsPrefix(q, w);
    HistoryCounts(tr, acts, i);
    ne := |w| - 1;
    nd := MarksOnWalk(q, w);
    RecoveredValues(q, w, nd);
    CutsReplay(tr, acts, i);
    assert CutLeaves(q, EventsUpTo(tr, acts, i), ne, nd);
    forall t {:trigger tr[i].ops[t]} | 0 <= t < |q.ops| && Finished(q.ops[t])
      ensures ByOperation(Cut(EventsUpTo(tr, acts, i), ne, nd), t) == ByOperation(EventsUpTo(tr, acts, i), t)
    {
      FinishedIsWithin(q, t, ne, nd);
      CutKeepsOperation(tr, acts, i, t, ne, nd);
    }
  }

  // ---------------------------------------------------------------------------
  // Empty answers
  // ---------------------------------------------------------------------------

  /** The operation is going to answer that the queue is empty, or has. */
  predicate AnswersEmpty(pc: Pc) {
    pc.DStatus? || pc.DFlushStatus? || pc.DEmpty? || (pc.DCheck? && pc.first == pc.last && pc.next.None?)
  }

  /** The operation is about to read that the head has no successor. */
  predicate ReadsEnd(q: Queue, t: nat) {
    t < |q.ops| && q.ops[t].DReadNext? && q.ops[t].first < |q.nodes| && q.nodes[q.ops[t].first].next.None?
  }

  lemma EmptyStep(q: Queue, t: nat)
    requires Wf(q) && t < |q.ops| && t < |Step(q, t).ops| && AnswersEmpty(Step(q, t).ops[t]) && !Finished(q.ops[t])
    ensures AnswersEmpty(q.ops[t]) || ReadsEnd(q, t)
  {
    assert WfPc(q, q.ops[t]);
    if !IsEnq(q.ops[t]) && !IsMarking(q.ops[t]) {
      assert StepDeqRead(q, t).ops[t] == Step(q, t).ops[t];
    }
  }

  lemma EmptyAction(q: Queue, a: Action, t: nat)
    requires Wf(q) && Can(q, a) && t < |Do(q, a).ops| && AnswersEmpty(Do(q, a).ops[t])
    ensures t < |q.ops| && (AnswersEmpty(q.ops[t]) || ReadsEnd(q, t))
  {
    if a.Run? {
      OnlyMoves(q, a.t);
      if a.t == t { EmptyStep(q, t); }
    }
  }

  lemma {:induction false} EmptyMoment(tr: seq<Queue>, acts: seq<Action>, i: nat, t: nat) returns (j: nat)
    requires IsRun(tr, acts) && i <= |acts| && t < |tr[i].ops| && AnswersEmpty(tr[i].ops[t])
    ensures j < i && ReadsEnd(tr[j], t)
  {
    if i == 0 { assert false; }
    RunIsWf(tr, acts, i - 1);
    EmptyAction(tr[i - 1], acts[i - 1], t);
    if AnswersEmpty(tr[i - 1].ops[t]) {
      j := EmptyMoment(tr, acts, i - 1, t);
    } else {
      j := i - 1;
    }
  }

  /** At that moment head and tail are at the end of the chain, and all is marked. */
  lemma AllRemoved(q: Queue, t: nat)
    requires Good(q) && ReadsEnd(q, t)
    ensures q.headPos == q.tailPos == q.marked == |q.chain| - 1
  {
    assert OpOk(q, q.ops[t]);
    var p: nat, r: nat :| p <= r && p <= q.headPos && r <= q.tailPos && r < |q.chain| &&
      q.chain[p] == q.ops[t].first && q.chain[r] == q.ops[t].last;
    assert p < |q.chain| - 1 ==> NextAt(q, p);
  }

  ghost predicate Ahead(q: Queue, q': Queue) {
    q.headPos <= q'.headPos && q.tailPos <= q'.tailPos
  }

  lemma EnqMovesAhead(q: Queue, t: nat)
    requires Wf(q) && t < |q.ops| && IsEnq(q.ops[t])
    ensures Ahead(q, StepEnq(q, t))
  {
    assert WfPc(q, q.ops[t]);
  }

  lemma DeqMovesAhead(q: Queue, t: nat)
    requires Wf(q) && t < |q.ops| && !IsEnq(q.ops[t])
    ensures Ahead(q, Step(q, t))
  {
    assert WfPc(q, q.ops[t]);
  }

  lemma {:induction false} HeadAndTailMoveAhead(tr: seq<Queue>, acts: seq<Action>, j: nat, i: nat)
    requires IsRun(tr, acts) && j <= i <= |acts|
    ensures Ahead(tr[j], tr[i])
    decreases i
  {
    if j < i {
      HeadAndTailMoveAhead(tr, acts, j, i - 1);
      RunIsWf(tr, acts, i - 1);
      var q, a := tr[i - 1], acts[i - 1];
      if a.Run? {
        if IsEnq(q.ops[a.t]) { EnqMovesAhead(q, a.t); } else { DeqMovesAhead(q, a.t); }
      }
    }
  }

  /** Bounds above all events of a history do not cut it. */
  lemma {:induction false} SameCut(es: seq<Event>, ne: nat, nd: nat, ne': nat, nd': nat)
    requires Enqueues(es) <= ne && Dequeues(es) <= nd && Enqueues(es) <= ne' && Dequeues(es) <= nd'
    ensures Cut(es, ne, nd) == Cut(es, ne', nd')
  {
    if es != [] { SameCut(es[..|es| - 1], ne, nd, ne', nd'); }
  }

  lemma {:induction false} CutsGrow(tr: seq<Queue>, acts: seq<Action>, j: nat, i: nat, ne: nat, nd: nat)
    requires IsRun(tr, acts) && j <= i <= |acts|
    ensures Cut(EventsUpTo(tr, acts, j), ne, nd) <= Cut(EventsUpTo(tr, acts, i), ne, nd)
    decreases i
  {
    if j < i {
      CutsGrow(tr, acts, j, i - 1, ne, nd);
      CutNext(EventsUpTo(tr, acts, i - 1), EventOf(tr[i - 1], acts[i - 1]), ne, nd);
    }
  }

  /** A returned empty answer fits the cut as well: at a moment of its call the cut, so far,
      leaves an empty queue. `ne` and `nd` are as recovery finds them. */
  lemma EmptyAnswersFitTheCut(tr: seq<Queue>, acts: seq<Action>, i: nat, t: nat, ne: nat, nd: nat) returns (j: nat)
    requires IsRun(tr, acts) && i <= |acts| && t < |tr[i].ops| && tr[i].ops[t].DEmpty?
    requires tr[i].tailPos <= ne && tr[i].headPos <= nd
    ensures j < i && t < |tr[j].ops| && !Finished(tr[j].ops[t])
    ensures Replay(Cut(EventsUpTo(tr, acts, j), ne, nd)) == Some([])
    ensures Cut(EventsUpTo(tr, acts, j), ne, nd) <= Cut(EventsUpTo(tr, acts, i), ne, nd)
  {
    j := EmptyMoment(tr, acts, i, t);
    RunIsGood(tr, acts, j);
    AllRemoved(tr[j], t);
    HeadAndTailMoveAhead(tr, acts, j, i);
    HistoryCounts(tr, acts, j);
    CutsReplay(tr, acts, j);
    var q, es := tr[j], EventsUpTo(tr, acts, j);
    assert CutLeaves(q, es, |q.chain| - 1, q.marked);
    assert q.chain[q.marked + 1..|q.chain|] == [];
    assert |Values(q.nodes, q.chain[q.marked + 1..|q.chain|])| == 0;
    SameCut(es, ne, nd, |q.chain| - 1, q.marked);
    CutsGrow(tr, acts, j, i, ne, nd);
  }
}
