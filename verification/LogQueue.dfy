/** The lock-free durable queue as interleaved atomic steps. Pointers are indices
    into `nodes` and `logs`; every field that the code flushes has a persisted
    copy, prefixed with p. */
module LogQueue {
  import opened Wrappers

  datatype Node = Node(
    value: int,
    next: Option<nat>, pNext: Option<nat>,
    remove: Option<nat>, pRemove: Option<nat>,   // logRemove
    durable: bool)                               // value persisted

  datatype LogEntry = LogEntry(
    node: Option<nat>, pNode: Option<nat>,
    status: bool, pStatus: bool,
    durable: bool)

  /** Where an operation is; `node` is an enqueuer's node, `log` its log entry. */
  datatype Pc =
    | EFlushNode(log: nat, node: nat)
    | EFlushLog(log: nat, node: nat)
    | EReadTail(node: nat)
    | EReadNext(node: nat, last: nat)
    | ECheck(node: nat, last: nat, next: Option<nat>)
    | ELink(node: nat, last: nat)
    | EFlush(node: nat, last: nat)
    | ESwing(node: nat, last: nat)
    | EHelpFlush(node: nat, last: nat, nx: nat)
    | EHelpSwing(node: nat, last: nat, nx: nat)
    | EDone(node: nat)
    | DFlushLog(log: nat)
    | DReadHead(log: nat)
    | DReadTail(log: nat, first: nat)
    | DReadNext(log: nat, first: nat, last: nat)
    | DCheck(log: nat, first: nat, last: nat, next: Option<nat>, sawEmpty: bool)
    | DStatus(log: nat, sawEmpty: bool)
    | DFlushStatus(log: nat, sawEmpty: bool)
    | DEmpty(log: nat, sawEmpty: bool)
    | DHelpFlush(log: nat, last: nat, nx: nat)
    | DHelpSwing(log: nat, last: nat, nx: nat)
    | DMark(log: nat, first: nat, nx: nat)
    | DRecheck(log: nat, first: nat, nx: nat)
    | DFlushMark(log: nat, first: nat, nx: nat, mine: bool)
    | DSetNode(log: nat, first: nat, nx: nat, mine: bool)
    | DFlushSetNode(log: nat, first: nat, nx: nat, mine: bool)
    | DSwing(log: nat, first: nat, nx: nat, mine: bool)
    | DDone(log: nat, node: nat)

  /** `chain`, `headPos`, `tailPos` and `marked` are history: the order in which
      nodes were linked, the positions of head and tail in it, and the number of
      removed nodes. No step branches on them. */
  datatype Queue = Queue(
    nodes: seq<Node>, logs: seq<LogEntry>, head: nat, tail: nat, ops: seq<Pc>,
    chain: seq<nat>, headPos: nat, tailPos: nat, marked: nat)

  /** The constructor: a persisted sentinel, pointed to by head and tail. */
  const Init: Queue :=
    Queue([Node(0, None, None, None, None, true)], [], 0, 0, [], [0], 0, 0, 0)

  function Values(nodes: seq<Node>, chain: seq<nat>): seq<int>
    requires forall i :: 0 <= i < |chain| ==> chain[i] < |nodes|
  {
    seq(|chain|, i requires 0 <= i < |chain| => nodes[chain[i]].value)
  }

  /** The abstract queue: the nodes behind the last removed one. */
  function Contents(q: Queue): seq<int>
    requires q.marked < |q.chain| && forall i :: 0 <= i < |q.chain| ==> q.chain[i] < |q.nodes|
  {
    Values(q.nodes, q.chain[q.marked + 1..])
  }

  predicate WfPc(q: Queue, pc: Pc) {
    match pc
    case EFlushNode(l, n) => l < |q.logs| && n < |q.nodes|
    case EFlushLog(l, n) => l < |q.logs| && n < |q.nodes|
    case EReadTail(n) => n < |q.nodes|
    case EReadNext(n, a) => n < |q.nodes| && a < |q.nodes|
    case ECheck(n, a, b) => n < |q.nodes| && a < |q.nodes| && (b.Some? ==> b.value < |q.nodes|)
    case ELink(n, a) => n < |q.nodes| && a < |q.nodes|
    case EFlush(n, a) => n < |q.nodes| && a < |q.nodes|
    case ESwing(n, a) => n < |q.nodes| && a < |q.nodes|
    case EHelpFlush(n, a, b) => n < |q.nodes| && a < |q.nodes| && b < |q.nodes|
    case EHelpSwing(n, a, b) => n < |q.nodes| && a < |q.nodes| && b < |q.nodes|
    case EDone(n) => n < |q.nodes|
    case DReadTail(l, a) => l < |q.logs| && a < |q.nodes|
    case DReadNext(l, a, b) => l < |q.logs| && a < |q.nodes| && b < |q.nodes|
    case DCheck(l, a, b, c, _) =>
      l < |q.logs| && a < |q.nodes| && b < |q.nodes| && (c.Some? ==> c.value < |q.nodes|)
    case DHelpFlush(l, a, b) => l < |q.logs| && a < |q.nodes| && b < |q.nodes|
    case DHelpSwing(l, a, b) => l < |q.logs| && a < |q.nodes| && b < |q.nodes|
    case DMark(l, a, b) => l < |q.logs| && a < |q.nodes| && b < |q.nodes|
    case DRecheck(l, a, b) => l < |q.logs| && a < |q.nodes| && b < |q.nodes|
    case DFlushMark(l, a, b, _) => l < |q.logs| && a < |q.nodes| && b < |q.nodes|
    case DSetNode(l, a, b, _) => l < |q.logs| && a < |q.nodes| && b < |q.nodes|
    case DFlushSetNode(l, a, b, _) => l < |q.logs| && a < |q.nodes| && b < |q.nodes|
    case DSwing(l, a, b, _) => l < |q.logs| && a < |q.nodes| && b < |q.nodes|
    case DDone(l, n) => l < |q.logs| && n < |q.nodes|
    case DFlushLog(l) => l < |q.logs|
    case DReadHead(l) => l < |q.logs|
    case DStatus(l, _) => l < |q.logs|
    case DFlushStatus(l, _) => l < |q.logs|
    case DEmpty(l, _) => l < |q.logs|
  }

  ghost predicate WfOps(q: Queue) {
    forall t :: 0 <= t < |q.ops| ==> WfPc(q, q.ops[t])
  }

  ghost predicate WfShared(q: Queue) {
    && q.head < |q.nodes| && q.tail < |q.nodes|
    && (forall x :: 0 <= x < |q.nodes| ==>
          && (q.nodes[x].next.Some? ==> q.nodes[x].next.value < |q.nodes|)
          && (q.nodes[x].remove.Some? ==> q.nodes[x].remove.value < |q.logs|))
    && |q.chain| > 0 && q.marked < |q.chain|
    && (forall i :: 0 <= i < |q.chain| ==> q.chain[i] < |q.nodes|)
  }

  /** Indices are in range. */
  ghost predicate Wf(q: Queue) {
    WfOps(q) && WfShared(q)
  }

  function At(q: Queue, t: nat, pc: Pc): Queue
    requires t < |q.ops|
  {
    q.(ops := q.ops[t := pc])
  }

  function SetNode(q: Queue, x: nat, n: Node): Queue
    requires x < |q.nodes|
  {
    q.(nodes := q.nodes[x := n])
  }

  function SetLog(q: Queue, l: nat, e: LogEntry): Queue
    requires l < |q.logs|
  {
    q.(logs := q.logs[l := e])
  }

  function FlushNext(q: Queue, x: nat): Queue
    requires x < |q.nodes|
  {
    SetNode(q, x, q.nodes[x].(pNext := q.nodes[x].next))
  }

  function FlushRemove(q: Queue, x: nat): Queue
    requires x < |q.nodes|
  {
    SetNode(q, x, q.nodes[x].(pRemove := q.nodes[x].remove))
  }

  function FlushLogNode(q: Queue, l: nat): Queue
    requires l < |q.logs|
  {
    SetLog(q, l, q.logs[l].(pNode := q.logs[l].node))
  }

  function FlushStatus(q: Queue, l: nat): Queue
    requires l < |q.logs|
  {
    SetLog(q, l, q.logs[l].(pStatus := q.logs[l].status))
  }

  function CasTail(q: Queue, a: nat, b: nat): Queue {
    if q.tail == a then q.(tail := b, tailPos := q.tailPos + 1) else q
  }

  function CasHead(q: Queue, a: nat, b: nat): Queue {
    if q.head == a then q.(head := b, headPos := q.headPos + 1) else q
  }

  predicate Finished(pc: Pc) {
    pc.EDone? || pc.DDone? || pc.DEmpty?
  }

  function StepEnq(q: Queue, t: nat): Queue
    requires Wf(q) && t < |q.ops|
  {
    assert WfPc(q, q.ops[t]);
    match q.ops[t]
    case EFlushNode(l, n) =>
      At(SetNode(q, n, q.nodes[n].(durable := true, pNext := q.nodes[n].next, pRemove := q.nodes[n].remove)),
         t, EFlushLog(l, n))
    case EFlushLog(l, n) =>
      At(SetLog(q, l, q.logs[l].(durable := true, pNode := q.logs[l].node, pStatus := q.logs[l].status)),
         t, EReadTail(n))
    case EReadTail(n) => At(q, t, EReadNext(n, q.tail))
    case EReadNext(n, last) => At(q, t, ECheck(n, last, q.nodes[last].next))
    case ECheck(n, last, next) =>
      if last != q.tail then At(q, t, EReadTail(n))
      else if next.None? then At(q, t, ELink(n, last))
      else At(q, t, EHelpFlush(n, last, next.value))
    case ELink(n, last) =>
      if q.nodes[last].next.None? then
        At(SetNode(q, last, q.nodes[last].(next := Some(n))).(chain := q.chain + [n]), t, EFlush(n, last))
      else At(q, t, EReadTail(n))
    case EFlush(n, last) => At(FlushNext(q, last), t, ESwing(n, last))
    case ESwing(n, last) => At(CasTail(q, last, n), t, EDone(n))
    case EHelpFlush(n, last, nx) => At(FlushNext(q, last), t, EHelpSwing(n, last, nx))
    case EHelpSwing(n, last, nx) => At(CasTail(q, last, nx), t, EReadTail(n))
    case _ => q
  }

  function StepDeqRead(q: Queue, t: nat): Queue
    requires Wf(q) && t < |q.ops|
  {
    assert WfPc(q, q.ops[t]);
    match q.ops[t]
    case DFlushLog(l) =>
      At(SetLog(q, l, q.logs[l].(durable := true, pNode := q.logs[l].node, pStatus := q.logs[l].status)),
         t, DReadHead(l))
    case DReadHead(l) => At(q, t, DReadTail(l, q.head))
    case DReadTail(l, first) => At(q, t, DReadNext(l, first, q.tail))
    case DReadNext(l, first, last) =>
      At(q, t, DCheck(l, first, last, q.nodes[first].next, Contents(q) == []))
    case DCheck(l, first, last, next, sawEmpty) =>
      if first != q.head then At(q, t, DReadHead(l))
      else if first == last then
        if next.None? then At(q, t, DStatus(l, sawEmpty)) else At(q, t, DHelpFlush(l, last, next.value))
      else if next.Some? then At(q, t, DMark(l, first, next.value))
      else q   // the code would dereference a null pointer here
    case DStatus(l, sawEmpty) => At(SetLog(q, l, q.logs[l].(status := true)), t, DFlushStatus(l, sawEmpty))
    case DFlushStatus(l, sawEmpty) => At(FlushStatus(q, l), t, DEmpty(l, sawEmpty))
    case DHelpFlush(l, last, nx) => At(FlushNext(q, last), t, DHelpSwing(l, last, nx))
    case DHelpSwing(l, last, nx) => At(CasTail(q, last, nx), t, DReadHead(l))
    case _ => q
  }

  /** The node whose mark a finishing DEQ works on: `first->next`, read again. */
  function Reread(q: Queue, first: nat, nx: nat): nat
    requires first < |q.nodes|
  {
    if q.nodes[first].next.Some? then q.nodes[first].next.value else nx
  }

  function StepDeqMark(q: Queue, t: nat): Queue
    requires Wf(q) && t < |q.ops|
  {
    assert WfPc(q, q.ops[t]);
    match q.ops[t]
    case DMark(l, first, nx) =>
      if q.nodes[nx].remove.None? then
        At(SetNode(q, nx, q.nodes[nx].(remove := Some(l))).(marked := q.marked + 1), t, DFlushMark(l, first, nx, true))
      else At(q, t, DRecheck(l, first, nx))
    case DRecheck(l, first, nx) =>
      if q.head == first then At(q, t, DFlushMark(l, first, nx, false)) else At(q, t, DReadHead(l))
    case DFlushMark(l, first, nx, mine) =>
      At(FlushRemove(q, Reread(q, first, nx)), t, DSetNode(l, first, nx, mine))
    case DSetNode(l, first, nx, mine) =>
      if q.nodes[nx].remove.Some? then
        var e := q.nodes[nx].remove.value;
        At(SetLog(q, e, q.logs[e].(node := q.nodes[first].next)), t, DFlushSetNode(l, first, nx, mine))
      else q
    case DFlushSetNode(l, first, nx, mine) =>
      if q.nodes[Reread(q, first, nx)].remove.Some? then
        At(FlushLogNode(q, q.nodes[Reread(q, first, nx)].remove.value), t, DSwing(l, first, nx, mine))
      else q
    case DSwing(l, first, nx, mine) =>
      At(CasHead(q, first, nx), t, if mine then DDone(l, nx) else DReadHead(l))
    case _ => q
  }

  predicate IsEnq(pc: Pc) {
    pc.EFlushNode? || pc.EFlushLog? || pc.EReadTail? || pc.EReadNext? || pc.ECheck? || pc.ELink? ||
    pc.EFlush? || pc.ESwing? || pc.EHelpFlush? || pc.EHelpSwing? || pc.EDone?
  }

  predicate IsMarking(pc: Pc) {
    pc.DMark? || pc.DRecheck? || pc.DFlushMark? || pc.DSetNode? || pc.DFlushSetNode? || pc.DSwing? || pc.DDone?
  }

  /** One step of operation `t`. */
  function Step(q: Queue, t: nat): Queue
    requires Wf(q) && t < |q.ops|
  {
    if IsEnq(q.ops[t]) then StepEnq(q, t)
    else if IsMarking(q.ops[t]) then StepDeqMark(q, t)
    else StepDeqRead(q, t)
  }

  /** A thread calls `enq(v)`: a new node and its log entry, not yet flushed. */
  function InvokeEnq(q: Queue, v: int): Queue {
    q.(nodes := q.nodes + [Node(v, None, None, None, None, false)],
       logs := q.logs + [LogEntry(Some(|q.nodes|), None, false, false, false)],
       ops := q.ops + [EFlushNode(|q.logs|, |q.nodes|)])
  }

  function InvokeDeq(q: Queue): Queue {
    q.(logs := q.logs + [LogEntry(None, None, false, false, false)],
       ops := q.ops + [DFlushLog(|q.logs|)])
  }

  /** The cache writes a field back on its own. */
  datatype Eviction = OfNext(x: nat) | OfRemove(x: nat) | OfLogNode(l: nat) | OfStatus(l: nat)

  predicate CanEvict(q: Queue, e: Eviction) {
    match e
    case OfNext(x) => x < |q.nodes|
    case OfRemove(x) => x < |q.nodes|
    case OfLogNode(l) => l < |q.logs|
    case OfStatus(l) => l < |q.logs|
  }

  function Evict(q: Queue, e: Eviction): Queue
    requires CanEvict(q, e)
  {
    match e
    case OfNext(x) => FlushNext(q, x)
    case OfRemove(x) => FlushRemove(q, x)
    case OfLogNode(l) => FlushLogNode(q, l)
    case OfStatus(l) => FlushStatus(q, l)
  }

  datatype Action = Run(t: nat) | CallEnq(v: int) | CallDeq | WriteBack(e: Eviction)

  ghost predicate Can(q: Queue, a: Action) {
    match a
    case Run(t) => Wf(q) && t < |q.ops| && !Finished(q.ops[t])
    case CallEnq(_) => true
    case CallDeq => true
    case WriteBack(e) => CanEvict(q, e)
  }

  function Do(q: Queue, a: Action): Queue
    requires Can(q, a)
  {
    match a
    case Run(t) => Step(q, t)
    case CallEnq(v) => InvokeEnq(q, v)
    case CallDeq => InvokeDeq(q)
    case WriteBack(e) => Evict(q, e)
  }

  /** A run from the constructor: `acts[i]` leads from `tr[i]` to `tr[i + 1]`. */
  ghost predicate IsRun(tr: seq<Queue>, acts: seq<Action>) {
    && |tr| == |acts| + 1
    && tr[0] == Init
    && forall i {:trigger acts[i]} :: 0 <= i < |acts| ==> Can(tr[i], acts[i]) && tr[i + 1] == Do(tr[i], acts[i])
  }
}
