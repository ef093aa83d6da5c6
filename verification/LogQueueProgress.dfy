/** The log queue is lock-free: an operation goes round its loop again only if the queue
    has moved meanwhile, so whatever the others do or leave undone, the steps between two
    calls are bounded. */
module LogQueueProgress {
  import opened LogQueue
  import opened LogQueueInvariant
  import opened LogQueueSteps
  import opened Wrappers

  // ---------------------------------------------------------------------------
  // What is left to do
  // ---------------------------------------------------------------------------

  /** The swap that makes the operation take effect is still to come. */
  function Pending(pc: Pc): nat {
    if OwnNode(pc).Some? || (!IsEnq(pc) && !HasRemoved(pc)) then 1 else 0
  }

  function PendingIn(ops: seq<Pc>): nat {
    if |ops| == 0 then 0 else PendingIn(ops[..|ops| - 1]) + Pending(ops[|ops| - 1])
  }

  /** How far tail and head lag behind. */
  function Lag(q: Queue): int {
    |q.chain| - 1 - q.tailPos + q.marked - q.headPos
  }

  /** The moves the queue can still make: each pending operation swaps once, and a pointer
      follows. */
  ghost function MovesLeft(q: Queue): nat
    requires PositionsOk(q)
  {
    2 * PendingIn(q.ops) + Lag(q)
  }

  const ROUND: nat := 10

  /** Steps of an operation until it returns, moves the queue or retries. */
  function ToGo(pc: Pc): nat {
    match pc
    case EFlushNode(_, _) => 8
    case EFlushLog(_, _) => 7
    case EReadTail(_) => 6
    case EReadNext(_, _) => 5
    case ECheck(_, _, _) => 4
    case ELink(_, _) => 3
    case EFlush(_, _) => 2
    case ESwing(_, _) => 1
    case EHelpFlush(_, _, _) => 2
    case EHelpSwing(_, _, _) => 1
    case EDone(_) => 0
    case DFlushLog(_) => 11
    case DReadHead(_) => 10
    case DReadTail(_, _) => 9
    case DReadNext(_, _, _) => 8
    case DCheck(_, _, _, _, _) => 7
    case DStatus(_, _) => 2
    case DFlushStatus(_, _) => 1
    case DEmpty(_, _) => 0
    case DHelpFlush(_, _, _) => 2
    case DHelpSwing(_, _, _) => 1
    case DMark(_, _, _) => 6
    case DRecheck(_, _, _) => 5
    case DFlushMark(_, _, _, _) => 4
    case DSetNode(_, _, _, _) => 3
    case DFlushSetNode(_, _, _, _) => 2
    case DSwing(_, _, _, _) => 1
    case DDone(_, _) => 0
  }

  /** What an operation has read has changed since, so that it will have to retry. */
  predicate Stale(q: Queue, pc: Pc) {
    match pc
    case EReadNext(_, last) => last != q.tail
    case ECheck(_, last, next) => last != q.tail || (last < |q.nodes| && next != q.nodes[last].next)
    case ELink(_, last) => last < |q.nodes| && q.nodes[last].next.Some?
    case EHelpFlush(_, last, _) => last != q.tail
    case EHelpSwing(_, last, _) => last != q.tail
    case DReadTail(_, first) => first != q.head
    case DReadNext(_, first, last) => first != q.head || (first == last && last != q.tail)
    case DCheck(_, first, last, _, _) => first != q.head || (first == last && last != q.tail)
    case DHelpFlush(_, last, _) => last != q.tail
    case DHelpSwing(_, last, _) => last != q.tail
    case DMark(_, first, _) => first != q.head
    case DRecheck(_, first, _) => first != q.head
    case DFlushMark(_, first, _, mine) => !mine && first != q.head
    case DSetNode(_, first, _, mine) => !mine && first != q.head
    case DFlushSetNode(_, first, _, mine) => !mine && first != q.head
    case DSwing(_, first, _, mine) => !mine && first != q.head
    case _ => false
  }

  function StepsLeft(q: Queue, pc: Pc): (n: nat)
    ensures n <= 2 * ROUND + 1
  {
    ToGo(pc) + if Stale(q, pc) then ROUND else 0
  }

  /** The steps left to the first `n` operations. */
  function StepsIn(q: Queue, n: nat): nat
    requires n <= |q.ops|
  {
    if n == 0 then 0 else StepsIn(q, n - 1) + StepsLeft(q, q.ops[n - 1])
  }

  // ---------------------------------------------------------------------------
  // One step
  // ---------------------------------------------------------------------------

  /** Operation `t` has moved the queue. */
  predicate Moved(q: Queue, q': Queue, t: nat)
    requires t < |q.ops| && t < |q'.ops|
  {
    2 * Pending(q'.ops[t]) + Lag(q') < 2 * Pending(q.ops[t]) + Lag(q)
  }

  /** It has come nearer to its end, and nothing an operation looks at has changed. */
  ghost predicate Advanced(q: Queue, q': Queue, t: nat)
    requires t < |q.ops| && t < |q'.ops|
  {
    && q'.head == q.head && q'.tail == q.tail && Lag(q') == Lag(q) && |q'.nodes| == |q.nodes|
    && (forall x :: 0 <= x < |q.nodes| ==> q'.nodes[x].next == q.nodes[x].next)
    && Pending(q'.ops[t]) == Pending(q.ops[t]) && StepsLeft(q', q'.ops[t]) < StepsLeft(q, q.ops[t])
  }

  ghost predicate Progresses(q: Queue, q': Queue, t: nat) {
    && t < |q.ops| && q'.ops == q.ops[t := if t < |q'.ops| then q'.ops[t] else q.ops[t]] && t < |q'.ops|
    && (Moved(q, q', t) || Advanced(q, q', t))
  }

  lemma EnqStarts(q: Queue, t: nat)
    requires Wf(q) && t < |q.ops|
    requires q.ops[t].EFlushNode? || q.ops[t].EFlushLog? || q.ops[t].EReadTail? || q.ops[t].EReadNext?
    ensures Progresses(q, StepEnq(q, t), t)
  {
    assert WfPc(q, q.ops[t]);
  }

  lemma EnqTries(q: Queue, t: nat)
    requires Wf(q) && t < |q.ops| && (q.ops[t].ECheck? || q.ops[t].ELink?)
    ensures Progresses(q, StepEnq(q, t), t)
  {
    assert WfPc(q, q.ops[t]);
  }

  lemma EnqFlushes(q: Queue, t: nat)
    requires Wf(q) && t < |q.ops| && (q.ops[t].EFlush? || q.ops[t].EHelpFlush?)
    ensures Progresses(q, StepEnq(q, t), t)
  {
    assert WfPc(q, q.ops[t]);
  }

  lemma EnqSwings(q: Queue, t: nat)
    requires Wf(q) && t < |q.ops| && (q.ops[t].ESwing? || q.ops[t].EHelpSwing?)
    ensures Progresses(q, StepEnq(q, t), t)
  {
    assert WfPc(q, q.ops[t]);
  }

  lemma DeqStarts(q: Queue, t: nat)
    requires Wf(q) && t < |q.ops|
    requires q.ops[t].DFlushLog? || q.ops[t].DReadHead? || q.ops[t].DReadTail? || q.ops[t].DReadNext?
    ensures Progresses(q, StepDeqRead(q, t), t)
  {
    assert WfPc(q, q.ops[t]);
  }

  lemma DeqChecks(q: Queue, t: nat)
    requires Wf(q) && t < |q.ops| && q.ops[t].DCheck? && Knows(q, q.ops[t])
    ensures Progresses(q, StepDeqRead(q, t), t)
  {
    assert WfPc(q, q.ops[t]);
  }

  lemma DeqFlushes(q: Queue, t: nat)
    requires Wf(q) && t < |q.ops| && (q.ops[t].DStatus? || q.ops[t].DFlushStatus? || q.ops[t].DHelpFlush?)
    ensures Progresses(q, StepDeqRead(q, t), t)
  {
    assert WfPc(q, q.ops[t]);
  }

  lemma DeqHelps(q: Queue, t: nat)
    requires Wf(q) && t < |q.ops| && q.ops[t].DHelpSwing?
    ensures Progresses(q, StepDeqRead(q, t), t)
  {
    assert WfPc(q, q.ops[t]);
  }

  lemma DeqMarks(q: Queue, t: nat)
    requires Wf(q) && t < |q.ops| && (q.ops[t].DMark? || q.ops[t].DRecheck?)
    ensures Progresses(q, StepDeqMark(q, t), t)
  {
    assert WfPc(q, q.ops[t]);
  }

  lemma DeqRecords(q: Queue, t: nat)
    requires Wf(q) && t < |q.ops| && (q.ops[t].DFlushMark? || q.ops[t].DSetNode? || q.ops[t].DFlushSetNode?)
    requires Reread(q, q.ops[t].first, q.ops[t].nx) == q.ops[t].nx && q.nodes[q.ops[t].nx].remove.Some?
    ensures Progresses(q, StepDeqMark(q, t), t)
  {
    assert WfPc(q, q.ops[t]);
  }

  lemma DeqSwings(q: Queue, t: nat)
    requires Wf(q) && t < |q.ops| && q.ops[t].DSwing?
    ensures Progresses(q, StepDeqMark(q, t), t)
  {
    assert WfPc(q, q.ops[t]);
  }

  lemma EnqProgresses(q: Queue, t: nat)
    requires Wf(q) && t < |q.ops| && IsEnq(q.ops[t]) && !Finished(q.ops[t])
    ensures Progresses(q, StepEnq(q, t), t)
  {
    match q.ops[t]
    case ECheck(_, _, _) => EnqTries(q, t);
    case ELink(_, _) => EnqTries(q, t);
    case EFlush(_, _) => EnqFlushes(q, t);
    case EHelpFlush(_, _, _) => EnqFlushes(q, t);
    case ESwing(_, _) => EnqSwings(q, t);
    case EHelpSwing(_, _, _) => EnqSwings(q, t);
    case _ => EnqStarts(q, t);
  }

  lemma DeqReadProgresses(q: Queue, t: nat)
    requires Wf(q) && t < |q.ops| && Knows(q, q.ops[t])
    requires !IsEnq(q.ops[t]) && !IsMarking(q.ops[t]) && !Finished(q.ops[t])
    ensures Progresses(q, StepDeqRead(q, t), t)
  {
    match q.ops[t]
    case DCheck(_, _, _, _, _) => DeqChecks(q, t);
    case DStatus(_, _) => DeqFlushes(q, t);
    case DFlushStatus(_, _) => DeqFlushes(q, t);
    case DHelpFlush(_, _, _) => DeqFlushes(q, t);
    case DHelpSwing(_, _, _) => DeqHelps(q, t);
    case _ => DeqStarts(q, t);
  }

  lemma DeqMarkProgresses(q: Queue, t: nat)
    requires Wf(q) && LinksOk(q) && t < |q.ops| && Knows(q, q.ops[t]) && IsMarking(q.ops[t]) && !Finished(q.ops[t])
    ensures Progresses(q, StepDeqMark(q, t), t)
  {
    var pc := q.ops[t];
    if pc.DMark? || pc.DRecheck? {
      DeqMarks(q, t);
    } else {
      RereadIsNext(q, pc.first, pc.nx);
      if pc.DSwing? { DeqSwings(q, t); } else { DeqRecords(q, t); }
    }
  }

  lemma StepProgresses(q: Queue, t: nat)
    requires Good(q) && t < |q.ops| && !Finished(q.ops[t])
    ensures Progresses(q, Step(q, t), t)
  {
    assert OpOk(q, q.ops[t]);
    if IsEnq(q.ops[t]) { EnqProgresses(q, t); }
    else if IsMarking(q.ops[t]) { DeqMarkProgresses(q, t); }
    else { DeqReadProgresses(q, t); }
  }

  // ---------------------------------------------------------------------------
  // All operations together
  // ---------------------------------------------------------------------------

  lemma {:induction false} PendingChange(ops: seq<Pc>, t: nat, pc: Pc)
    requires t < |ops|
    ensures PendingIn(ops[t := pc]) - PendingIn(ops) == Pending(pc) - Pending(ops[t])
    decreases |ops|
  {
    var n := |ops| - 1;
    if t < n {
      PendingChange(ops[..n], t, pc);
      assert ops[t := pc][..n] == ops[..n][t := pc];
    } else {
      assert ops[t := pc][..n] == ops[..n];
    }
  }

  /** Fewer steps are left in all if `t` has fewer and the others no more. */
  lemma {:induction false} StepsChange(q: Queue, q': Queue, t: nat, n: nat)
    requires n <= |q.ops| == |q'.ops|
    requires forall u :: 0 <= u < n && u != t ==> StepsLeft(q', q'.ops[u]) <= StepsLeft(q, q.ops[u])
    requires t < n ==> StepsLeft(q', q'.ops[t]) < StepsLeft(q, q.ops[t])
    ensures StepsIn(q', n) <= StepsIn(q, n) && (t < n ==> StepsIn(q', n) < StepsIn(q, n))
    decreases n
  {
    if n > 0 { StepsChange(q, q', t, n - 1); }
  }

  lemma {:induction false} StepsAreFew(q: Queue, n: nat)
    requires n <= |q.ops|
    ensures StepsIn(q, n) <= (2 * ROUND + 1) * n
    decreases n
  {
    if n > 0 { StepsAreFew(q, n - 1); }
  }

  lemma SameStale(q: Queue, q': Queue, pc: Pc)
    requires q'.head == q.head && q'.tail == q.tail && |q'.nodes| == |q.nodes|
    requires forall x :: 0 <= x < |q.nodes| ==> q'.nodes[x].next == q.nodes[x].next
    ensures StepsLeft(q', pc) == StepsLeft(q, pc)
  {
  }

  /** Steps that can be made before the next call, at most. */
  ghost function Fuel(q: Queue): nat
    requires PositionsOk(q)
  {
    MovesLeft(q) * ((2 * ROUND + 1) * |q.ops| + 1) + StepsIn(q, |q.ops|)
  }

  lemma MovedUsesFuel(q: Queue, q': Queue, t: nat)
    requires PositionsOk(q) && PositionsOk(q') && Progresses(q, q', t) && Moved(q, q', t)
    ensures MovesLeft(q') < MovesLeft(q) && Fuel(q') < Fuel(q)
  {
    PendingChange(q.ops, t, q'.ops[t]);
    StepsAreFew(q', |q'.ops|);
    LessFuel(MovesLeft(q), MovesLeft(q'), (2 * ROUND + 1) * |q.ops| + 1, StepsIn(q', |q.ops|));
  }

  lemma {:induction false} LessFuel(m: nat, m': nat, unit: nat, rest: nat)
    requires m' < m && rest < unit
    ensures m' * unit + rest < m * unit
    decreases m
  {
    OneMore(m - 1, unit);
    if m' < m - 1 { LessFuel(m - 1, m', unit, rest); }
  }

  lemma OneMore(m: nat, unit: nat)
    ensures (m + 1) * unit == m * unit + unit
  {
  }

  lemma AdvancedUsesFuel(q: Queue, q': Queue, t: nat)
    requires PositionsOk(q) && PositionsOk(q') && Progresses(q, q', t) && Advanced(q, q', t)
    ensures Fuel(q') < Fuel(q)
  {
    PendingChange(q.ops, t, q'.ops[t]);
    forall u | 0 <= u < |q.ops| && u != t ensures StepsLeft(q', q'.ops[u]) == StepsLeft(q, q.ops[u]) {
      SameStale(q, q', q.ops[u]);
    }
    StepsChange(q, q', t, |q.ops|);
  }

  lemma StepUsesFuel(q: Queue, t: nat)
    requires Good(q) && t < |q.ops| && !Finished(q.ops[t])
    ensures Good(Step(q, t)) && Fuel(Step(q, t)) < Fuel(q)
  {
    StepKeepsGood(q, t);
    StepProgresses(q, t);
    if Moved(q, Step(q, t), t) { MovedUsesFuel(q, Step(q, t), t); } else { AdvancedUsesFuel(q, Step(q, t), t); }
  }

  /** The cache's own writes cost nothing. */
  lemma EvictKeepsFuel(q: Queue, e: Eviction)
    requires PositionsOk(q) && CanEvict(q, e)
    ensures PositionsOk(Evict(q, e)) && Fuel(Evict(q, e)) == Fuel(q)
  {
    var q' := Evict(q, e);
    forall u | 0 <= u < |q.ops| ensures StepsLeft(q', q'.ops[u]) == StepsLeft(q, q.ops[u]) {
      SameStale(q, q', q.ops[u]);
    }
    SameSteps(q, q', |q.ops|);
  }

  lemma {:induction false} SameSteps(q: Queue, q': Queue, n: nat)
    requires n <= |q.ops| == |q'.ops|
    requires forall u :: 0 <= u < n ==> StepsLeft(q', q'.ops[u]) == StepsLeft(q, q.ops[u])
    ensures StepsIn(q', n) == StepsIn(q, n)
    decreases n
  {
    if n > 0 { SameSteps(q, q', n - 1); }
  }

  // ---------------------------------------------------------------------------
  // Runs
  // ---------------------------------------------------------------------------

  /** The steps of operations among the actions. */
  function Steps(acts: seq<Action>): nat {
    if |acts| == 0 then 0 else Steps(acts[..|acts| - 1]) + if acts[|acts| - 1].Run? then 1 else 0
  }

  predicate NoCalls(acts: seq<Action>) {
    forall k :: 0 <= k < |acts| ==> acts[k].Run? || acts[k].WriteBack?
  }

  lemma FewerCalls(acts: seq<Action>, i: nat, j: nat)
    requires i < j <= |acts| && NoCalls(acts[i..j])
    ensures NoCalls(acts[i..j - 1]) && (acts[j - 1].Run? || acts[j - 1].WriteBack?)
  {
    assert acts[i..j - 1] == acts[i..j][..j - 1 - i];
    assert acts[i..j][j - 1 - i] == acts[j - 1];
  }

  lemma StepsUseFuel(tr: seq<Queue>, acts: seq<Action>, i: nat, j: nat)
    requires IsRun(tr, acts) && i < j < |tr| && NoCalls(acts[i..j])
    ensures PositionsOk(tr[j]) && PositionsOk(tr[j - 1])
    ensures Steps(acts[i..j]) + Fuel(tr[j]) <= Steps(acts[i..j - 1]) + Fuel(tr[j - 1])
  {
    FewerCalls(acts, i, j);
    StepsNext(acts, i, j);
    RunUsesFuel(tr, acts, j - 1);
  }

  /** Lock freedom: whatever the schedule, and whichever operations stop for ever, the
      steps made since a moment of a run, as long as nobody calls, are bounded by what was
      left to do then. So operations that go on come to their end. */
  lemma {:induction false} StepsAreBounded(tr: seq<Queue>, acts: seq<Action>, i: nat, j: nat)
    requires IsRun(tr, acts) && i <= j < |tr| && NoCalls(acts[i..j])
    ensures PositionsOk(tr[i]) && PositionsOk(tr[j])
    ensures Steps(acts[i..j]) + Fuel(tr[j]) <= Fuel(tr[i])
    decreases j
  {
    RunPositions(tr, acts, i);
    if i < j {
      FewerCalls(acts, i, j);
      StepsAreBounded(tr, acts, i, j - 1);
      StepsUseFuel(tr, acts, i, j);
    }
  }

  lemma RunPositions(tr: seq<Queue>, acts: seq<Action>, i: nat)
    requires IsRun(tr, acts) && i < |tr|
    ensures PositionsOk(tr[i])
  {
    RunIsGood(tr, acts, i);
  }

  lemma StepsNext(acts: seq<Action>, i: nat, j: nat)
    requires i < j <= |acts|
    ensures Steps(acts[i..j]) == Steps(acts[i..j - 1]) + if acts[j - 1].Run? then 1 else 0
  {
    assert acts[i..j][..j - 1 - i] == acts[i..j - 1];
  }

  lemma RunUsesFuel(tr: seq<Queue>, acts: seq<Action>, j: nat)
    requires IsRun(tr, acts) && j < |acts| && (acts[j].Run? || acts[j].WriteBack?)
    ensures PositionsOk(tr[j]) && PositionsOk(tr[j + 1])
    ensures Fuel(tr[j + 1]) + (if acts[j].Run? then 1 else 0) <= Fuel(tr[j])
  {
    RunIsGood(tr, acts, j);
    match acts[j]
    case Run(t) => StepUsesFuel(tr[j], t);
    case WriteBack(e) => EvictKeepsFuel(tr[j], e);
  }

  /** `n` steps of operation `t` alone. */
  ghost predicate RunsAlone(q: Queue, t: nat, n: nat, q': Queue)
    decreases n
  {
    if n == 0 then q' == q
    else Wf(q) && t < |q.ops| && !Finished(q.ops[t]) && RunsAlone(Step(q, t), t, n - 1, q')
  }

  /** Wherever the others have stopped, an operation that goes on alone returns. */
  lemma {:induction false} FinishesAlone(q: Queue, t: nat) returns (n: nat, q': Queue)
    requires Good(q) && t < |q.ops|
    ensures n <= Fuel(q) && RunsAlone(q, t, n, q') && t < |q'.ops| && Finished(q'.ops[t])
    decreases Fuel(q)
  {
    if Finished(q.ops[t]) {
      n, q' := 0, q;
    } else {
      StepUsesFuel(q, t);
      StepProgresses(q, t);
      n, q' := FinishesAlone(Step(q, t), t);
      n := n + 1;
    }
  }

  /** In particular at every moment of every run. */
  lemma NobodyIsBlocked(tr: seq<Queue>, acts: seq<Action>, i: nat, t: nat) returns (n: nat, q': Queue)
    requires IsRun(tr, acts) && i < |tr| && t < |tr[i].ops|
    ensures RunsAlone(tr[i], t, n, q') && t < |q'.ops| && Finished(q'.ops[t])
  {
    RunIsGood(tr, acts, i);
    n, q' := FinishesAlone(tr[i], t);
  }
}
