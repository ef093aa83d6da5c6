/** What the log entry of an operation says: an ENQ names its node from the start, and a
    DEQ has its status set exactly when it answers that the queue is empty. */
module LogQueueEntries {
  import opened LogQueue
  import opened LogQueueInvariant
  import opened LogQueueSteps
  import opened Wrappers

  /** The entry `e` of operation `t`, which is at `pc`. */
  predicate EntryOk(pc: Pc, e: LogEntry, t: nat) {
    if IsEnq(pc) then
      && e.node == Some(pc.node) && !e.status && !e.pStatus
      && if pc.EFlushNode? || pc.EFlushLog? then pc.log == t else e.durable && e.pNode == Some(pc.node)
    else
      && pc.log == t && (e.status <==> pc.DFlushStatus? || pc.DEmpty?) && (e.pStatus ==> e.status)
      && (pc.DFlushLog? || e.durable)
  }

  /** Entries belong to operations in their order, and only dequeuers remove. */
  ghost predicate EntriesOk(q: Queue) {
    && |q.logs| == |q.ops|
    && (forall t :: 0 <= t < |q.ops| ==> EntryOk(q.ops[t], q.logs[t], t))
    && (forall x :: 0 <= x < |q.nodes| && q.nodes[x].remove.Some? ==>
          q.nodes[x].remove.value < |q.ops| && !IsEnq(q.ops[q.nodes[x].remove.value]))
  }

  /** Only operation `t` moves, only dequeuers' entries get a node, and only `t` removes. */
  ghost predicate EntryMoves(q: Queue, q': Queue, t: nat) {
    && t < |q.ops| == |q'.ops| && |q'.logs| == |q.logs| && |q'.nodes| == |q.nodes|
    && (forall u :: 0 <= u < |q.ops| && u != t ==> q'.ops[u] == q.ops[u])
    && (forall l :: 0 <= l < |q.logs| && l < |q.ops| && l != t ==>
          && q'.logs[l] == q.logs[l].(node := q'.logs[l].node, pNode := q'.logs[l].pNode)
          && (IsEnq(q.ops[l]) ==> q'.logs[l] == q.logs[l]))
    && (forall x :: 0 <= x < |q.nodes| ==>
          q'.nodes[x].remove == q.nodes[x].remove || (q'.nodes[x].remove == Some(t) && !IsEnq(q.ops[t])))
    && (IsEnq(q'.ops[t]) <==> IsEnq(q.ops[t]))
  }

  lemma MoveKeepsEntries(q: Queue, q': Queue, t: nat)
    requires EntriesOk(q) && EntryMoves(q, q', t) && EntryOk(q'.ops[t], q'.logs[t], t)
    ensures EntriesOk(q')
  {
    forall u | 0 <= u < |q'.ops| ensures EntryOk(q'.ops[u], q'.logs[u], u) {
      assert EntryOk(q.ops[u], q.logs[u], u);
    }
  }

  lemma EnqFlushes(q: Queue, t: nat)
    requires Wf(q) && EntriesOk(q) && t < |q.ops| && (q.ops[t].EFlushNode? || q.ops[t].EFlushLog?)
    ensures var q' := StepEnq(q, t); EntryMoves(q, q', t) && EntryOk(q'.ops[t], q'.logs[t], t)
  {
    assert WfPc(q, q.ops[t]) && EntryOk(q.ops[t], q.logs[t], t);
  }

  lemma EnqMoves(q: Queue, t: nat)
    requires Wf(q) && EntriesOk(q) && t < |q.ops|
    requires IsEnq(q.ops[t]) && !q.ops[t].EFlushNode? && !q.ops[t].EFlushLog?
    ensures var q' := StepEnq(q, t); EntryMoves(q, q', t) && EntryOk(q'.ops[t], q'.logs[t], t)
  {
    assert WfPc(q, q.ops[t]) && EntryOk(q.ops[t], q.logs[t], t);
  }

  predicate WritesOwnEntry(pc: Pc) {
    pc.DFlushLog? || pc.DStatus? || pc.DFlushStatus?
  }

  lemma DeqWrites(q: Queue, t: nat)
    requires Wf(q) && EntriesOk(q) && t < |q.ops| && WritesOwnEntry(q.ops[t])
    ensures var q' := StepDeqRead(q, t); EntryMoves(q, q', t) && EntryOk(q'.ops[t], q'.logs[t], t)
  {
    assert WfPc(q, q.ops[t]) && EntryOk(q.ops[t], q.logs[t], t);
  }

  lemma DeqReads(q: Queue, t: nat)
    requires Wf(q) && EntriesOk(q) && t < |q.ops|
    requires q.ops[t].DReadHead? || q.ops[t].DReadTail? || q.ops[t].DReadNext? || q.ops[t].DCheck?
    ensures var q' := StepDeqRead(q, t); EntryMoves(q, q', t) && EntryOk(q'.ops[t], q'.logs[t], t)
  {
    assert WfPc(q, q.ops[t]) && EntryOk(q.ops[t], q.logs[t], t);
  }

  lemma DeqHelps(q: Queue, t: nat)
    requires Wf(q) && EntriesOk(q) && t < |q.ops|
    requires q.ops[t].DHelpFlush? || q.ops[t].DHelpSwing? || q.ops[t].DEmpty?
    ensures var q' := StepDeqRead(q, t); EntryMoves(q, q', t) && EntryOk(q'.ops[t], q'.logs[t], t)
  {
    assert WfPc(q, q.ops[t]) && EntryOk(q.ops[t], q.logs[t], t);
  }

  lemma DeqMarks(q: Queue, t: nat)
    requires Wf(q) && EntriesOk(q) && t < |q.ops|
    requires q.ops[t].DMark? || q.ops[t].DFlushMark?
    ensures var q' := StepDeqMark(q, t); EntryMoves(q, q', t) && EntryOk(q'.ops[t], q'.logs[t], t)
  {
    assert WfPc(q, q.ops[t]) && EntryOk(q.ops[t], q.logs[t], t);
  }

  lemma DeqEnds(q: Queue, t: nat)
    requires Wf(q) && EntriesOk(q) && t < |q.ops|
    requires q.ops[t].DRecheck? || q.ops[t].DSwing? || q.ops[t].DDone?
    ensures var q' := StepDeqMark(q, t); EntryMoves(q, q', t) && EntryOk(q'.ops[t], q'.logs[t], t)
  {
    assert WfPc(q, q.ops[t]) && EntryOk(q.ops[t], q.logs[t], t);
  }

  /** The entry that is given its node is that of a dequeuer. */
  lemma DeqNames(q: Queue, t: nat)
    requires Wf(q) && EntriesOk(q) && t < |q.ops| && (q.ops[t].DSetNode? || q.ops[t].DFlushSetNode?)
    ensures var q' := StepDeqMark(q, t); EntryMoves(q, q', t) && EntryOk(q'.ops[t], q'.logs[t], t)
  {
    assert WfPc(q, q.ops[t]) && EntryOk(q.ops[t], q.logs[t], t);
  }

  lemma StepKeepsEntries(q: Queue, t: nat)
    requires Wf(q) && EntriesOk(q) && t < |q.ops|
    ensures EntriesOk(Step(q, t))
  {
    var pc := q.ops[t];
    if pc.EFlushNode? || pc.EFlushLog? { EnqFlushes(q, t); }
    else if IsEnq(pc) { EnqMoves(q, t); }
    else if pc.DMark? || pc.DFlushMark? { DeqMarks(q, t); }
    else if pc.DSetNode? || pc.DFlushSetNode? { DeqNames(q, t); }
    else if IsMarking(pc) { DeqEnds(q, t); }
    else if WritesOwnEntry(pc) { DeqWrites(q, t); }
    else if pc.DHelpFlush? || pc.DHelpSwing? || pc.DEmpty? { DeqHelps(q, t); }
    else { DeqReads(q, t); }
    MoveKeepsEntries(q, Step(q, t), t);
  }

  lemma CallKeepsEntries(q: Queue, a: Action)
    requires Wf(q) && EntriesOk(q) && (a.CallEnq? || a.CallDeq?)
    ensures EntriesOk(Do(q, a))
  {
  }

  lemma EvictKeepsEntries(q: Queue, e: Eviction)
    requires EntriesOk(q) && CanEvict(q, e)
    ensures EntriesOk(Evict(q, e))
  {
  }

  lemma DoKeepsEntries(q: Queue, a: Action)
    requires Wf(q) && EntriesOk(q) && Can(q, a)
    ensures EntriesOk(Do(q, a))
  {
    match a
    case Run(t) => StepKeepsEntries(q, t);
    case WriteBack(e) => EvictKeepsEntries(q, e);
    case _ => CallKeepsEntries(q, a);
  }

  lemma {:induction false} RunKeepsEntries(tr: seq<Queue>, acts: seq<Action>, i: nat)
    requires IsRun(tr, acts) && i < |tr|
    ensures EntriesOk(tr[i])
  {
    if i > 0 {
      RunIsGood(tr, acts, i - 1);
      RunKeepsEntries(tr, acts, i - 1);
      DoKeepsEntries(tr[i - 1], acts[i - 1]);
    }
  }

  /** At every moment of every run, operation `t` has entry `t`. That of an ENQ names its
      node, also in persistent memory once it is flushed, and is never marked. That of a DEQ
      is marked exactly from the store that answers that the queue is empty; until it has
      removed a node it names none; and a mark that is persisted excludes a node. */
  lemma EntriesSay(tr: seq<Queue>, acts: seq<Action>, i: nat, t: nat)
    requires IsRun(tr, acts) && i < |tr| && t < |tr[i].ops|
    ensures |tr[i].logs| == |tr[i].ops|
    ensures var pc, e := tr[i].ops[t], tr[i].logs[t];
      && (IsEnq(pc) ==> e.node == Some(pc.node) && !e.status && !e.pStatus)
      && (IsEnq(pc) && !pc.EFlushNode? && !pc.EFlushLog? ==> e.durable && e.pNode == Some(pc.node))
      && (!IsEnq(pc) ==>
            && pc.log == t && (e.status <==> pc.DFlushStatus? || pc.DEmpty?)
            && (pc.DEmpty? ==> e.pStatus) && (e.pStatus ==> e.status && e.pNode.None?)
            && (!HasRemoved(pc) ==> e.node.None? && e.pNode.None?) && (pc.DFlushLog? || e.durable))
  {
    var q := tr[i];
    RunIsGood(tr, acts, i);
    RunKeepsEntries(tr, acts, i);
    assert OpOk(q, q.ops[t]) && WfPc(q, q.ops[t]) && EntryOk(q.ops[t], q.logs[t], t);
  }
}
