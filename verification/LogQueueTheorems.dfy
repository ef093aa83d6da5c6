/** The log queue is a linearizable, durable FIFO queue. */
module LogQueueTheorems {
  import opened LogQueue
  import opened LogQueueInvariant
  import opened LogQueueEntries
  import opened LogQueueSteps
  import opened Wrappers

  // ---------------------------------------------------------------------------
  // Linearization points
  // ---------------------------------------------------------------------------

  /** The successful compare-and-swap on `next` or `logRemove`, by operation `t`. */
  datatype Event = Enqueued(t: nat, v: int) | Dequeued(t: nat, v: int) | Silent

  ghost function StepEvent(q: Queue, t: nat): Event
    requires Wf(q) && t < |q.ops|
  {
    assert WfPc(q, q.ops[t]);
    match q.ops[t]
    case ELink(n, last) => if q.nodes[last].next.None? then Enqueued(t, q.nodes[n].value) else Silent
    case DMark(_, _, nx) => if q.nodes[nx].remove.None? then Dequeued(t, q.nodes[nx].value) else Silent
    case _ => Silent
  }

  ghost function EventOf(q: Queue, a: Action): Event
    requires Can(q, a)
  {
    if a.Run? then StepEvent(q, a.t) else Silent
  }

  /** The event takes a sequential FIFO queue from `s` to `s'`. */
  predicate Acts(e: Event, s: seq<int>, s': seq<int>) {
    match e
    case Enqueued(_, v) => s' == s + [v]
    case Dequeued(_, v) => s == [v] + s'
    case Silent => s' == s
  }

  /** A sequential FIFO queue. */
  function Replay(es: seq<Event>): Option<seq<int>> {
    if es == [] then Some([]) else
      match Replay(es[..|es| - 1])
      case None => None
      case Some(s) =>
        match es[|es| - 1]
        case Enqueued(_, v) => Some(s + [v])
        case Dequeued(_, v) => if s != [] && s[0] == v then Some(s[1..]) else None
        case Silent => Some(s)
  }

  ghost function EventsUpTo(tr: seq<Queue>, acts: seq<Action>, i: nat): (es: seq<Event>)
    requires IsRun(tr, acts) && i <= |acts|
    ensures |es| == i
  {
    if i == 0 then [] else EventsUpTo(tr, acts, i - 1) + [EventOf(tr[i - 1], acts[i - 1])]
  }

  /** Values stay, links and marks are never changed once set. */
  ghost predicate Permanent(q: Queue, q': Queue) {
    && |q.nodes| <= |q'.nodes|
    && forall x :: 0 <= x < |q.nodes| ==>
         && q'.nodes[x].value == q.nodes[x].value
         && (q.nodes[x].next.Some? ==> q'.nodes[x].next == q.nodes[x].next)
         && (q.nodes[x].remove.Some? ==> q'.nodes[x].remove == q.nodes[x].remove)
  }

  ghost predicate KeepsQueue(q: Queue, q': Queue) {
    q'.chain == q.chain && q'.marked == q.marked
  }

  lemma StepEnqPermanent(q: Queue, t: nat)
    requires Wf(q) && t < |q.ops| && IsEnq(q.ops[t])
    ensures Permanent(q, StepEnq(q, t)) && (StepEvent(q, t).Silent? ==> KeepsQueue(q, StepEnq(q, t)))
  {
    assert WfPc(q, q.ops[t]);
  }

  lemma StepDeqReadPermanent(q: Queue, t: nat)
    requires Wf(q) && t < |q.ops| && !IsEnq(q.ops[t]) && !IsMarking(q.ops[t])
    ensures Permanent(q, StepDeqRead(q, t)) && KeepsQueue(q, StepDeqRead(q, t))
  {
    assert WfPc(q, q.ops[t]);
  }

  lemma StepDeqMarkPermanent(q: Queue, t: nat)
    requires Wf(q) && t < |q.ops| && IsMarking(q.ops[t])
    ensures Permanent(q, StepDeqMark(q, t)) && (StepEvent(q, t).Silent? ==> KeepsQueue(q, StepDeqMark(q, t)))
  {
    assert WfPc(q, q.ops[t]);
  }

  lemma DoPermanent(q: Queue, a: Action)
    requires Can(q, a)
    ensures Permanent(q, Do(q, a)) && (EventOf(q, a).Silent? ==> KeepsQueue(q, Do(q, a)))
  {
    if a.Run? {
      if IsEnq(q.ops[a.t]) { StepEnqPermanent(q, a.t); }
      else if IsMarking(q.ops[a.t]) { StepDeqMarkPermanent(q, a.t); }
      else { StepDeqReadPermanent(q, a.t); }
    }
  }

  lemma QuietContents(q: Queue, q': Queue)
    requires WfShared(q) && WfShared(q') && Permanent(q, q') && KeepsQueue(q, q')
    ensures Contents(q') == Contents(q)
  {
    var c := q.chain[q.marked + 1..];
    assert forall i :: 0 <= i < |c| ==>
             c[i] == q.chain[q.marked + 1 + i] && q'.nodes[c[i]].value == q.nodes[c[i]].value;
  }

  lemma LinkContents(q: Queue, n: nat, last: nat)
    requires WfShared(q) && n < |q.nodes| && last < |q.nodes| && WfShared(Linked(q, n, last))
    ensures Contents(Linked(q, n, last)) == Contents(q) + [q.nodes[n].value]
  {
    var c := q.chain[q.marked + 1..];
    assert (q.chain + [n])[q.marked + 1..] == c + [n];
    assert forall i :: 0 <= i < |c| ==> c[i] == q.chain[q.marked + 1 + i];
  }

  lemma RemoveContents(q: Queue, first: nat, nx: nat, l: nat)
    requires WfShared(q) && q.marked + 1 < |q.chain| && q.chain[q.marked + 1] == nx && nx < |q.nodes|
    ensures Contents(q) == [q.nodes[nx].value] + Contents(Removed(q, nx, l))
  {
    var c, c' := q.chain[q.marked + 1..], q.chain[q.marked + 2..];
    assert c == [nx] + c';
    assert forall i :: 0 <= i < |c'| ==> c'[i] == q.chain[q.marked + 2 + i];
  }

  /** Every successful swap on `next` appends at the back, every successful swap on
      `logRemove` takes from the front, and no other action changes the queue. */
  lemma EventsActOnContents(q: Queue, a: Action)
    requires Good(q) && Can(q, a)
    ensures Good(Do(q, a))
    ensures Acts(EventOf(q, a), Contents(q), Contents(Do(q, a)))
  {
    DoKeepsGood(q, a);
    if EventOf(q, a).Silent? {
      DoPermanent(q, a);
      QuietContents(q, Do(q, a));
    } else {
      EventContents(q, a.t);
    }
  }

  lemma EventContents(q: Queue, t: nat)
    requires Good(q) && t < |q.ops| && !StepEvent(q, t).Silent? && WfShared(Step(q, t))
    ensures Acts(StepEvent(q, t), Contents(q), Contents(Step(q, t)))
  {
    assert WfPc(q, q.ops[t]) && OpOk(q, q.ops[t]);
    if q.ops[t].ELink? {
      EnqueuedContents(q, t, q.ops[t].node, q.ops[t].last);
    } else {
      CandidateIsNext(q, q.ops[t].first, q.ops[t].nx);
      DequeuedContents(q, t, q.ops[t].log, q.ops[t].first, q.ops[t].nx);
    }
  }

  lemma EnqueuedContents(q: Queue, t: nat, n: nat, last: nat)
    requires Wf(q) && t < |q.ops| && q.ops[t] == ELink(n, last) && n < |q.nodes| && last < |q.nodes|
    requires q.nodes[last].next.None? && WfShared(Step(q, t))
    ensures Acts(Enqueued(t, q.nodes[n].value), Contents(q), Contents(Step(q, t)))
  {
    assert Step(q, t) == At(Linked(q, n, last), t, EFlush(n, last));
    LinkContents(q, n, last);
  }

  lemma DequeuedContents(q: Queue, t: nat, l: nat, first: nat, nx: nat)
    requires Wf(q) && t < |q.ops| && q.ops[t] == DMark(l, first, nx) && nx < |q.nodes| && q.nodes[nx].remove.None?
    requires q.marked + 1 < |q.chain| && q.chain[q.marked + 1] == nx && WfShared(Step(q, t))
    ensures Acts(Dequeued(t, q.nodes[nx].value), Contents(q), Contents(Step(q, t)))
  {
    assert Step(q, t) == At(Removed(q, nx, l), t, DFlushMark(l, first, nx, true));
    RemoveContents(q, first, nx, l);
  }

  /** The same along a run. */
  lemma RunActs(tr: seq<Queue>, acts: seq<Action>, i: nat)
    requires IsRun(tr, acts) && i < |acts|
    ensures Wf(tr[i]) && Wf(tr[i + 1]) && Acts(EventOf(tr[i], acts[i]), Contents(tr[i]), Contents(tr[i + 1]))
  {
    RunIsGood(tr, acts, i);
    EventsActOnContents(tr[i], acts[i]);
  }

  lemma RunIsWf(tr: seq<Queue>, acts: seq<Action>, i: nat)
    requires IsRun(tr, acts) && i < |tr|
    ensures Wf(tr[i])
  {
    RunIsGood(tr, acts, i);
  }

  /** The queue at any moment of any run is what a sequential FIFO queue holds
      after the events so far; in particular every dequeuer takes the front. */
  lemma {:induction false} Linearizable(tr: seq<Queue>, acts: seq<Action>, i: nat)
    requires IsRun(tr, acts) && i <= |acts|
    ensures Wf(tr[i]) && Replay(EventsUpTo(tr, acts, i)) == Some(Contents(tr[i]))
  {
    if i > 0 {
      Linearizable(tr, acts, i - 1);
      RunActs(tr, acts, i - 1);
      var es := EventsUpTo(tr, acts, i);
      assert es[..|es| - 1] == EventsUpTo(tr, acts, i - 1);
    } else {
      RunIsWf(tr, acts, 0);
      assert tr[0].chain[tr[0].marked + 1..] == [];
      assert |Contents(tr[0])| == 0;
    }
  }

  // ---------------------------------------------------------------------------
  // Every operation takes effect once, while it runs
  // ---------------------------------------------------------------------------

  function ByOperation(es: seq<Event>, t: nat): seq<Event> {
    if es == [] then [] else
      var e := es[|es| - 1];
      ByOperation(es[..|es| - 1], t) + (if !e.Silent? && e.t == t then [e] else [])
  }

  /** What operation `t` has done to the queue so far, by where it is. */
  ghost function Effect(q: Queue, t: nat): seq<Event>
    requires WfOps(q)
  {
    if t >= |q.ops| then [] else
      assert WfPc(q, q.ops[t]);
      match q.ops[t]
      case EFlush(n, _) => [Enqueued(t, q.nodes[n].value)]
      case ESwing(n, _) => [Enqueued(t, q.nodes[n].value)]
      case EDone(n) => [Enqueued(t, q.nodes[n].value)]
      case DFlushMark(_, _, nx, mine) => if mine then [Dequeued(t, q.nodes[nx].value)] else []
      case DSetNode(_, _, nx, mine) => if mine then [Dequeued(t, q.nodes[nx].value)] else []
      case DFlushSetNode(_, _, nx, mine) => if mine then [Dequeued(t, q.nodes[nx].value)] else []
      case DSwing(_, _, nx, mine) => if mine then [Dequeued(t, q.nodes[nx].value)] else []
      case DDone(_, nx) => [Dequeued(t, q.nodes[nx].value)]
      case _ => []
  }

  lemma OtherEffect(q: Queue, q': Queue, u: nat)
    requires WfOps(q) && WfOps(q') && Permanent(q, q') && u < |q.ops| && u < |q'.ops| && q'.ops[u] == q.ops[u]
    ensures Effect(q', u) == Effect(q, u)
  {
    assert WfPc(q, q.ops[u]);
  }

  function Done(e: Event, t: nat): seq<Event> {
    if !e.Silent? && e.t == t then [e] else []
  }

  lemma EnqEffect(q: Queue, t: nat)
    requires Wf(q) && t < |q.ops| && IsEnq(q.ops[t]) && WfOps(StepEnq(q, t))
    ensures Effect(StepEnq(q, t), t) == Effect(q, t) + Done(StepEvent(q, t), t)
  {
    assert WfPc(q, q.ops[t]);
  }

  lemma DeqReadEffect(q: Queue, t: nat)
    requires Wf(q) && t < |q.ops| && !IsEnq(q.ops[t]) && !IsMarking(q.ops[t]) && WfOps(StepDeqRead(q, t))
    ensures Effect(StepDeqRead(q, t), t) == Effect(q, t) + Done(StepEvent(q, t), t)
  {
    assert WfPc(q, q.ops[t]);
  }

  lemma DMarkEffect(q: Queue, t: nat)
    requires Wf(q) && t < |q.ops| && (q.ops[t].DMark? || q.ops[t].DRecheck?) && WfOps(StepDeqMark(q, t))
    ensures Effect(StepDeqMark(q, t), t) == Effect(q, t) + Done(StepEvent(q, t), t)
  {
    assert WfPc(q, q.ops[t]);
  }

  lemma DFinishEffect(q: Queue, t: nat)
    requires Wf(q) && t < |q.ops| && IsMarking(q.ops[t]) && !q.ops[t].DMark? && !q.ops[t].DRecheck?
    requires WfOps(StepDeqMark(q, t))
    ensures Effect(StepDeqMark(q, t), t) == Effect(q, t) + Done(StepEvent(q, t), t)
  {
    assert WfPc(q, q.ops[t]);
  }

  lemma DeqMarkEffect(q: Queue, t: nat)
    requires Wf(q) && t < |q.ops| && IsMarking(q.ops[t]) && WfOps(StepDeqMark(q, t))
    ensures Effect(StepDeqMark(q, t), t) == Effect(q, t) + Done(StepEvent(q, t), t)
  {
    if q.ops[t].DMark? || q.ops[t].DRecheck? { DMarkEffect(q, t); } else { DFinishEffect(q, t); }
  }

  lemma OnlyMoves(q: Queue, t: nat)
    requires Wf(q) && t < |q.ops|
    ensures |Step(q, t).ops| == |q.ops|
    ensures forall u :: 0 <= u < |q.ops| && u != t ==> Step(q, t).ops[u] == q.ops[u]
  {
    assert WfPc(q, q.ops[t]);
  }

  lemma StepEffect(q: Queue, t: nat)
    requires Wf(q) && t < |q.ops| && WfOps(Step(q, t))
    ensures Effect(Step(q, t), t) == Effect(q, t) + Done(StepEvent(q, t), t)
  {
    if IsEnq(q.ops[t]) { EnqEffect(q, t); }
    else if IsMarking(q.ops[t]) { DeqMarkEffect(q, t); }
    else { DeqReadEffect(q, t); }
  }

  lemma ActionEffect(q: Queue, a: Action, u: nat)
    requires Wf(q) && Can(q, a) && WfOps(Do(q, a))
    ensures Effect(Do(q, a), u) == Effect(q, u) + Done(EventOf(q, a), u)
  {
    DoPermanent(q, a);
    if a.Run? {
      OnlyMoves(q, a.t);
      if u == a.t { StepEffect(q, u); }
      else if u < |q.ops| { OtherEffect(q, Do(q, a), u); }
    } else if u < |q.ops| {
      OtherEffect(q, Do(q, a), u);
    }
  }

  /** In any run, an enqueuer that has linked its node has put its value in exactly
      once, a dequeuer that returns a node has taken that node's value exactly
      once, and every other operation has done nothing to the queue. */
  lemma {:induction false} OperationsTakeEffectOnce(tr: seq<Queue>, acts: seq<Action>, i: nat, t: nat)
    requires IsRun(tr, acts) && i <= |acts|
    ensures Wf(tr[i]) && ByOperation(EventsUpTo(tr, acts, i), t) == Effect(tr[i], t)
  {
    RunIsWf(tr, acts, i);
    if i > 0 {
      OperationsTakeEffectOnce(tr, acts, i - 1, t);
      ActionEffect(tr[i - 1], acts[i - 1], t);
      var es := EventsUpTo(tr, acts, i);
      assert es[..|es| - 1] == EventsUpTo(tr, acts, i - 1);
    }
  }

  /** The node of an enqueuer. */
  function NodeOf(pc: Pc): nat
    requires IsEnq(pc)
  {
    pc.node
  }

  /** The call that began operation `t`. */
  ghost predicate BeganBy(tr: seq<Queue>, acts: seq<Action>, i: nat, t: nat, a: Action)
    requires IsRun(tr, acts) && i <= |acts|
  {
    exists j :: 0 <= j < i && |tr[j].ops| == t && acts[j] == a
  }

  /** The call operation `t` must have come from. */
  ghost function CallOf(q: Queue, t: nat): Action
    requires WfOps(q) && t < |q.ops|
  {
    assert WfPc(q, q.ops[t]);
    if IsEnq(q.ops[t]) then CallEnq(q.nodes[NodeOf(q.ops[t])].value) else CallDeq
  }

  /** An operation stays the enqueuer of its node, or a dequeuer. */
  lemma SameEnq(q: Queue, t: nat)
    requires Wf(q) && t < |q.ops| && IsEnq(q.ops[t])
    ensures t < |StepEnq(q, t).ops| && IsEnq(StepEnq(q, t).ops[t])
    ensures NodeOf(StepEnq(q, t).ops[t]) == NodeOf(q.ops[t])
  {
    assert WfPc(q, q.ops[t]);
  }

  lemma SameDeq(q: Queue, t: nat)
    requires Wf(q) && t < |q.ops| && !IsEnq(q.ops[t])
    ensures t < |Step(q, t).ops| && !IsEnq(Step(q, t).ops[t])
  {
    assert WfPc(q, q.ops[t]);
  }

  lemma SameOperation(q: Queue, t: nat)
    requires Wf(q) && t < |q.ops| && t < |Step(q, t).ops|
    ensures IsEnq(Step(q, t).ops[t]) <==> IsEnq(q.ops[t])
    ensures IsEnq(q.ops[t]) ==> NodeOf(Step(q, t).ops[t]) == NodeOf(q.ops[t])
  {
    if IsEnq(q.ops[t]) { SameEnq(q, t); } else { SameDeq(q, t); }
  }

  lemma CallStays(q: Queue, a: Action, t: nat)
    requires Wf(q) && Can(q, a) && WfOps(Do(q, a)) && t < |q.ops|
    ensures t < |Do(q, a).ops| && CallOf(Do(q, a), t) == CallOf(q, t)
  {
    DoPermanent(q, a);
    if a.Run? {
      OnlyMoves(q, a.t);
      if a.t == t { SameOperation(q, t); }
    }
    assert WfPc(q, q.ops[t]);
  }

  lemma CallIsNew(q: Queue, a: Action, t: nat)
    requires Wf(q) && Can(q, a) && WfOps(Do(q, a)) && |q.ops| <= t < |Do(q, a).ops|
    ensures t == |q.ops| && a == CallOf(Do(q, a), t)
  {
    if a.Run? { OnlyMoves(q, a.t); }
  }

  /** An enqueuer works on a node with the value it was called with. */
  lemma {:induction false} EnqueuesItsArgument(tr: seq<Queue>, acts: seq<Action>, i: nat, t: nat)
    requires IsRun(tr, acts) && i <= |acts| && t < |tr[i].ops|
    ensures Wf(tr[i]) && BeganBy(tr, acts, i, t, CallOf(tr[i], t))
  {
    RunIsWf(tr, acts, i);
    if i > 0 {
      RunIsWf(tr, acts, i - 1);
      if t < |tr[i - 1].ops| {
        EnqueuesItsArgument(tr, acts, i - 1, t);
        CallStays(tr[i - 1], acts[i - 1], t);
      } else {
        CallIsNew(tr[i - 1], acts[i - 1], t);
      }
    }
  }

  predicate SawEmpty(pc: Pc) {
    (pc.DCheck? || pc.DStatus? || pc.DFlushStatus? || pc.DEmpty?) && pc.sawEmpty
  }

  lemma SawEmptyStep(q: Queue, t: nat)
    requires Wf(q) && t < |q.ops| && t < |Step(q, t).ops| && SawEmpty(Step(q, t).ops[t]) && !Finished(q.ops[t])
    ensures SawEmpty(q.ops[t]) || Contents(q) == []
  {
    if !IsEnq(q.ops[t]) && !IsMarking(q.ops[t]) {
      assert StepDeqRead(q, t).ops[t] == Step(q, t).ops[t];
    }
  }

  lemma SawEmptyAction(q: Queue, a: Action, t: nat)
    requires Wf(q) && Can(q, a) && t < |Do(q, a).ops| && SawEmpty(Do(q, a).ops[t])
    ensures t < |q.ops| && (SawEmpty(q.ops[t]) || (Contents(q) == [] && !Finished(q.ops[t])))
  {
    if a.Run? {
      OnlyMoves(q, a.t);
      if a.t == t { SawEmptyStep(q, t); }
    }
  }

  /** A dequeuer that reports an empty queue ran at a moment when it was empty. */
  lemma {:induction false} EmptyWasSeen(tr: seq<Queue>, acts: seq<Action>, i: nat, t: nat) returns (j: nat)
    requires IsRun(tr, acts) && i <= |acts| && t < |tr[i].ops| && SawEmpty(tr[i].ops[t])
    ensures j < i && Wf(tr[j]) && t < |tr[j].ops| && !Finished(tr[j].ops[t]) && Contents(tr[j]) == []
  {
    if i == 0 { assert false; }
    RunIsWf(tr, acts, i - 1);
    SawEmptyAction(tr[i - 1], acts[i - 1], t);
    if SawEmpty(tr[i - 1].ops[t]) {
      j := EmptyWasSeen(tr, acts, i - 1, t);
    } else {
      j := i - 1;
    }
  }

  lemma EmptyAnswersAreRight(tr: seq<Queue>, acts: seq<Action>, i: nat, t: nat)
    requires IsRun(tr, acts) && i <= |acts| && t < |tr[i].ops| && tr[i].ops[t].DEmpty?
    ensures exists j :: 0 <= j < i && Wf(tr[j]) && t < |tr[j].ops| && !Finished(tr[j].ops[t]) && Contents(tr[j]) == []
  {
    RunIsGood(tr, acts, i);
    assert OpOk(tr[i], tr[i].ops[t]);
    var j := EmptyWasSeen(tr, acts, i, t);
  }

  // ---------------------------------------------------------------------------
  // Head, tail and marks
  // ---------------------------------------------------------------------------

  /** Following `next` leads through `w`. */
  ghost predicate IsWalk(q: Queue, w: seq<nat>) {
    && |w| > 0 && (forall i :: 0 <= i < |w| ==> w[i] < |q.nodes|)
    && (forall i :: 0 <= i < |w| - 1 ==> q.nodes[w[i]].next == Some(w[i + 1]))
  }

  lemma TailIsAhead(q: Queue) returns (w: seq<nat>)
    requires Good(q)
    ensures IsWalk(q, w) && w[0] == q.head && w[|w| - 1] == q.tail
  {
    w := q.chain[q.headPos..q.tailPos + 1];
    forall i | 0 <= i < |w| - 1 ensures q.nodes[w[i]].next == Some(w[i + 1]) {
      assert NextAt(q, q.headPos + i);
    }
  }

  /** At every moment of every run the tail can be reached from the head: the head
      never passes it. */
  lemma HeadNeverPassesTail(tr: seq<Queue>, acts: seq<Action>, i: nat) returns (w: seq<nat>)
    requires IsRun(tr, acts) && i < |tr|
    ensures IsWalk(tr[i], w) && w[0] == tr[i].head && w[|w| - 1] == tr[i].tail
  {
    RunIsGood(tr, acts, i);
    w := TailIsAhead(tr[i]);
  }

  /** In no run do two dequeuers return the same node. */
  lemma NoNodeIsRemovedTwice(tr: seq<Queue>, acts: seq<Action>, i: nat, t: nat, u: nat)
    requires IsRun(tr, acts) && i < |tr| && t < u < |tr[i].ops| && tr[i].ops[t].DDone? && tr[i].ops[u].DDone?
    ensures tr[i].ops[t].node != tr[i].ops[u].node
  {
    RunIsGood(tr, acts, i);
    assert OpOk(tr[i], tr[i].ops[t]) && OpOk(tr[i], tr[i].ops[u]) && Apart(tr[i].ops[t], tr[i].ops[u]);
  }

  /** In no run does a dequeuer follow a null pointer. */
  lemma NoNullDereference(tr: seq<Queue>, acts: seq<Action>, i: nat, t: nat)
    requires IsRun(tr, acts) && i < |tr| && t < |tr[i].ops|
    ensures var q, pc := tr[i], tr[i].ops[t];
      && (pc.DCheck? && pc.first != pc.last ==> pc.next.Some?)
      && (pc.DFlushMark? || pc.DSetNode? || pc.DFlushSetNode? ==>
            WfPc(q, pc) && q.nodes[pc.first].next == Some(pc.nx) && q.nodes[pc.nx].remove.Some?)
  {
    RunIsGood(tr, acts, i);
    var q, pc := tr[i], tr[i].ops[t];
    assert OpOk(q, pc) && WfPc(q, pc);
    if pc.DFlushMark? || pc.DSetNode? || pc.DFlushSetNode? {
      RereadIsNext(q, pc.first, pc.nx);
    }
  }

  // ---------------------------------------------------------------------------
  // Durability
  // ---------------------------------------------------------------------------

  /** What recovery finds: from the sentinel along the persisted links to their end. */
  ghost predicate IsRecoveryWalk(q: Queue, w: seq<nat>) {
    && |w| > 0 && w[0] == 0 && (forall i :: 0 <= i < |w| ==> w[i] < |q.nodes|)
    && (forall i :: 0 <= i < |w| - 1 ==> q.nodes[w[i]].pNext == Some(w[i + 1]))
    && q.nodes[w[|w| - 1]].pNext.None?
  }

  lemma {:induction false} WalkFollowsChain(q: Queue, w: seq<nat>, i: nat)
    requires Good(q) && IsRecoveryWalk(q, w) && i < |w|
    ensures i < |q.chain| && w[i] == q.chain[i]
  {
    if i > 0 {
      WalkFollowsChain(q, w, i - 1);
      assert q.nodes[w[i - 1]].pNext == Some(w[i - 1 + 1]);
      assert CurrentOk(q.nodes[w[i - 1]]);
      if i - 1 < |q.chain| - 1 {
        assert NextAt(q, i - 1);
      }
    }
  }

  lemma WalkIsPrefix(q: Queue, w: seq<nat>)
    requires Good(q) && IsRecoveryWalk(q, w)
    ensures w <= q.chain && q.tailPos < |w| && |q.chain| - 1 <= |w|
    ensures forall i :: 0 <= i < |w| ==> q.nodes[w[i]].durable
  {
    forall i | 0 <= i < |w| ensures i < |q.chain| && w[i] == q.chain[i] && q.nodes[w[i]].durable {
      WalkFollowsChain(q, w, i);
    }
    forall i | 0 <= i < q.tailPos ensures q.nodes[q.chain[i]].pNext.Some? {
      assert PersistedAt(q, i);
    }
  }

  lemma WalkExists(q: Queue) returns (w: seq<nat>)
    requires Good(q)
    ensures IsRecoveryWalk(q, w)
  {
    var k := if q.nodes[q.chain[q.tailPos]].pNext.Some? then q.tailPos + 2 else q.tailPos + 1;
    assert CurrentOk(q.nodes[q.chain[q.tailPos]]) && CurrentOk(q.nodes[q.chain[|q.chain| - 1]]);
    w := q.chain[..k];
    forall i | 0 <= i < |w| - 1 ensures q.nodes[w[i]].pNext == Some(w[i + 1]) {
      if i < q.tailPos {
        assert PersistedAt(q, i);
      } else {
        assert NextAt(q, i);
      }
    }
  }

  lemma MarksOnWalk(q: Queue, w: seq<nat>) returns (h: nat)
    requires Good(q) && IsRecoveryWalk(q, w)
    ensures q.headPos <= h <= q.marked <= h + 1 && h < |w|
    ensures forall i :: 1 <= i < |w| ==> (q.nodes[w[i]].pRemove.Some? <==> i <= h)
    ensures forall i :: 1 <= i < |w| && q.nodes[w[i]].pRemove.Some? ==> q.nodes[w[i]].pRemove == q.nodes[w[i]].remove
  {
    WalkIsPrefix(q, w);
    h := if q.nodes[q.chain[q.marked]].pRemove.Some? then q.marked else q.headPos;
    forall i | 1 <= i < |w|
      ensures q.nodes[w[i]].pRemove.Some? <==> i <= h
      ensures q.nodes[w[i]].pRemove.Some? ==> q.nodes[w[i]].pRemove == q.nodes[w[i]].remove
    {
      assert w[i] == q.chain[i] && CurrentOk(q.nodes[w[i]]);
      assert q.nodes[q.chain[i]].remove.Some? <==> 1 <= i <= q.marked;
      if i <= q.headPos { assert MarkPersisted(q, q.chain[i]); }
    }
  }

  lemma DequeuedIsDurable(q: Queue, t: nat, w: seq<nat>)
    requires Good(q) && t < |q.ops| && IsRecoveryWalk(q, w) && q.ops[t].DDone? && w <= q.chain && q.headPos < |w|
    ensures WfPc(q, q.ops[t]) && q.ops[t].node in w
    ensures q.nodes[q.ops[t].node].pRemove == Some(q.ops[t].log)
    ensures q.logs[q.ops[t].log].pNode == Some(q.ops[t].node)
  {
    assert OpOk(q, q.ops[t]) && WfPc(q, q.ops[t]);
    var n := q.ops[t].node;
    var p: nat :| p <= q.headPos && p < |q.chain| && q.chain[p] == n;
    assert w[p] == n && p != 0;
    assert MarkPersisted(q, q.chain[p]) && LogHas(q, q.chain[p], true);
  }

  lemma CompletedIsDurable(q: Queue, t: nat, w: seq<nat>)
    requires Good(q) && t < |q.ops| && IsRecoveryWalk(q, w)
    ensures q.ops[t].EDone? ==> q.ops[t].node in w
    ensures q.ops[t].DDone? ==>
              && WfPc(q, q.ops[t]) && q.ops[t].node in w
              && q.nodes[q.ops[t].node].pRemove == Some(q.ops[t].log)
              && q.logs[q.ops[t].log].pNode == Some(q.ops[t].node)
    ensures q.ops[t].DEmpty? ==> WfPc(q, q.ops[t]) && q.logs[q.ops[t].log].pStatus
  {
    assert OpOk(q, q.ops[t]) && WfPc(q, q.ops[t]);
    WalkIsPrefix(q, w);
    if q.ops[t].EDone? {
      var p: nat :| p <= q.tailPos && p < |q.chain| && q.chain[p] == q.ops[t].node;
      assert w[p] == q.ops[t].node;
    } else if q.ops[t].DDone? {
      DequeuedIsDurable(q, t, w);
    }
  }

  /** At every moment of every run there is exactly one such walk: a prefix of the
      volatile chain that reaches the tail and lacks at most the last link, over nodes
      whose contents are persisted. */
  lemma PersistedChainIsPrefix(tr: seq<Queue>, acts: seq<Action>, i: nat) returns (w: seq<nat>)
    requires IsRun(tr, acts) && i < |tr|
    ensures IsRecoveryWalk(tr[i], w) && forall v :: IsRecoveryWalk(tr[i], v) ==> v == w
    ensures w <= tr[i].chain && tr[i].tail in w && |tr[i].chain| - 1 <= |w|
    ensures forall j :: 0 <= j < |w| ==> tr[i].nodes[w[j]].durable
  {
    RunIsGood(tr, acts, i);
    w := WalkExists(tr[i]);
    WalkIsPrefix(tr[i], w);
    assert tr[i].tail == w[tr[i].tailPos];
    forall v | IsRecoveryWalk(tr[i], v) ensures v == w {
      WalkIsPrefix(tr[i], v);
      SameWalk(tr[i], v, w);
    }
  }

  lemma SameWalk(q: Queue, v: seq<nat>, w: seq<nat>)
    requires IsRecoveryWalk(q, v) && IsRecoveryWalk(q, w) && v <= q.chain && w <= q.chain
    ensures v == w
  {
    NoLonger(q, v, w);
    NoLonger(q, w, v);
  }

  /** A walk ends where its last node has no persisted link. */
  lemma NoLonger(q: Queue, v: seq<nat>, w: seq<nat>)
    requires IsRecoveryWalk(q, v) && IsRecoveryWalk(q, w) && v <= q.chain && w <= q.chain
    ensures |w| <= |v|
  {
    var n := |v| - 1;
    assert q.chain[n] == v[n];
    if n < |w| - 1 {
      WalkGoesOn(q, w, n);
    }
  }

  lemma WalkGoesOn(q: Queue, w: seq<nat>, n: nat)
    requires IsRecoveryWalk(q, w) && w <= q.chain && n < |w| - 1
    ensures q.chain[n] < |q.nodes| && q.nodes[q.chain[n]].pNext.Some?
  {
    assert q.nodes[w[n]].pNext == Some(w[n + 1]);
  }

  /** After a crash the persisted marks are on a prefix of the walk: on every removed
      node up to the head, and on all removed nodes but at most the last; so what is
      left is the queue, possibly without its last element and possibly with the
      element just being removed. */
  lemma RecoveredMarks(tr: seq<Queue>, acts: seq<Action>, i: nat, w: seq<nat>) returns (h: nat)
    requires IsRun(tr, acts) && i < |tr| && IsRecoveryWalk(tr[i], w)
    ensures tr[i].headPos <= h <= tr[i].marked <= h + 1 && h < |w| && w[tr[i].headPos] == tr[i].head
    ensures forall j :: 1 <= j < |w| ==>
      var x := tr[i].nodes[w[j]];
      && (x.pRemove.Some? <==> j <= h) && (x.remove.Some? <==> j <= tr[i].marked)
      && (x.pRemove.Some? ==> x.pRemove == x.remove)
  {
    RunIsGood(tr, acts, i);
    WalkIsPrefix(tr[i], w);
    h := MarksOnWalk(tr[i], w);
    forall j | 1 <= j < |w| ensures tr[i].nodes[w[j]].remove.Some? <==> j <= tr[i].marked {
      assert w[j] == tr[i].chain[j];
    }
  }

  /** A crash does not undo an operation that has returned: an enqueued node is on
      the recovered chain; a removed node carries the dequeuer's mark, and the
      dequeuer's log entry names it and is not marked; the entry of an empty answer is
      marked and names none. */
  lemma CompletedOperationsSurvive(tr: seq<Queue>, acts: seq<Action>, i: nat, t: nat, w: seq<nat>)
    requires IsRun(tr, acts) && i < |tr| && t < |tr[i].ops| && IsRecoveryWalk(tr[i], w)
    ensures var q, pc := tr[i], tr[i].ops[t];
      && (pc.EDone? ==> pc.node in w)
      && (pc.DDone? ==>
            && WfPc(q, pc) && pc.node in w && q.nodes[pc.node].pRemove == Some(pc.log)
            && q.logs[pc.log].pNode == Some(pc.node) && !q.logs[pc.log].pStatus)
      && (pc.DEmpty? ==> WfPc(q, pc) && q.logs[pc.log].pStatus && q.logs[pc.log].pNode.None?)
  {
    RunIsGood(tr, acts, i);
    EntriesSay(tr, acts, i, t);
    CompletedIsDurable(tr[i], t, w);
  }
}
