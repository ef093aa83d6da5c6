/** What every step of the log queue keeps. */
module LogQueueInvariant {
  import opened LogQueue
  import opened Wrappers

  /** `b` was linked right behind `a`, at position `p + 1` of the chain. */
  predicate Link(q: Queue, p: nat, a: nat, b: nat) {
    p + 1 < |q.chain| && q.chain[p] == a && q.chain[p + 1] == b
  }

  /** `x` is one of the first `n + 1` nodes of the chain. */
  ghost predicate Seen(q: Queue, x: nat, n: nat) {
    exists p: nat :: p <= n && p < |q.chain| && q.chain[p] == x
  }

  ghost predicate LinkedBy(q: Queue, a: nat, b: nat, n: nat) {
    exists p: nat :: p <= n && Link(q, p, a, b)
  }

  /** `first` was the head and `last`, read later, the tail. */
  ghost predicate Before(q: Queue, first: nat, last: nat) {
    exists p: nat, r: nat :: p <= r && p <= q.headPos && r <= q.tailPos && r < |q.chain| &&
      q.chain[p] == first && q.chain[r] == last
  }

  /** `nx` behind `first` may be removed next, or already is. */
  ghost predicate Candidate(q: Queue, first: nat, nx: nat) {
    exists p: nat :: p <= q.headPos && p + 1 <= q.tailPos && Link(q, p, first, nx)
  }

  ghost predicate Marked(q: Queue, first: nat, nx: nat) {
    && nx < |q.nodes| && q.nodes[nx].remove.Some?
    && exists p: nat :: p <= q.headPos && p + 1 <= q.marked && Link(q, p, first, nx)
  }

  /** The log entry that removed `nx`. */
  ghost predicate LogHas(q: Queue, nx: nat, persisted: bool) {
    && nx < |q.nodes| && q.nodes[nx].remove.Some? && q.nodes[nx].remove.value < |q.logs|
    && q.logs[q.nodes[nx].remove.value].node == Some(nx)
    && (persisted ==> q.logs[q.nodes[nx].remove.value].pNode == Some(nx))
  }

  predicate MarkPersisted(q: Queue, nx: nat) {
    nx < |q.nodes| && q.nodes[nx].remove.Some? && q.nodes[nx].pRemove == q.nodes[nx].remove
  }

  predicate MarkedWith(q: Queue, nx: nat, l: nat) {
    nx < |q.nodes| && q.nodes[nx].remove == Some(l)
  }

  predicate LinkPersisted(q: Queue, a: nat, b: nat) {
    a < |q.nodes| && q.nodes[a].pNext == Some(b)
  }

  /** What an operation knows about the shared part; it stays true while the
      queue grows. */
  ghost predicate Knows(q: Queue, pc: Pc) {
    match pc
    case EReadNext(_, last) => Seen(q, last, q.tailPos)
    case ECheck(_, last, next) =>
      Seen(q, last, q.tailPos) && (next.Some? ==> last < |q.nodes| && q.nodes[last].next == next)
    case ELink(_, last) => Seen(q, last, q.tailPos)
    case EFlush(n, last) => LinkedBy(q, last, n, q.tailPos)
    case ESwing(n, last) => LinkedBy(q, last, n, q.tailPos) && LinkPersisted(q, last, n)
    case EHelpFlush(_, last, nx) => LinkedBy(q, last, nx, q.tailPos)
    case EHelpSwing(_, last, nx) => LinkedBy(q, last, nx, q.tailPos) && LinkPersisted(q, last, nx)
    case EDone(n) => Seen(q, n, q.tailPos) && n != 0
    case DReadTail(_, first) => Seen(q, first, q.headPos)
    case DReadNext(_, first, last) => Before(q, first, last)
    case DCheck(_, first, last, next, sawEmpty) =>
      && Before(q, first, last)
      && (next.Some? ==> first < |q.nodes| && q.nodes[first].next == next)
      && (first != last ==> next.Some?)
      && (first == last && next.None? ==> sawEmpty)
    case DStatus(_, sawEmpty) => sawEmpty
    case DFlushStatus(l, sawEmpty) => sawEmpty && l < |q.logs| && q.logs[l].status
    case DEmpty(l, sawEmpty) => sawEmpty && l < |q.logs| && q.logs[l].pStatus
    case DHelpFlush(_, last, nx) => LinkedBy(q, last, nx, q.tailPos)
    case DHelpSwing(_, last, nx) => LinkedBy(q, last, nx, q.tailPos) && LinkPersisted(q, last, nx)
    case DMark(_, first, nx) => Candidate(q, first, nx)
    case DRecheck(_, first, nx) => Marked(q, first, nx)
    case DFlushMark(l, first, nx, mine) => Marked(q, first, nx) && (mine ==> MarkedWith(q, nx, l))
    case DSetNode(l, first, nx, mine) =>
      Marked(q, first, nx) && (mine ==> MarkedWith(q, nx, l)) && MarkPersisted(q, nx)
    case DFlushSetNode(l, first, nx, mine) =>
      Marked(q, first, nx) && (mine ==> MarkedWith(q, nx, l)) && MarkPersisted(q, nx) && LogHas(q, nx, false)
    case DSwing(l, first, nx, mine) =>
      Marked(q, first, nx) && (mine ==> MarkedWith(q, nx, l)) && MarkPersisted(q, nx) && LogHas(q, nx, true)
    case DDone(l, nx) => Seen(q, nx, q.headPos) && nx != 0 && MarkedWith(q, nx, l)
    case _ => true
  }

  /** Nobody else has seen the node. */
  ghost predicate Fresh(q: Queue, n: nat) {
    n < |q.nodes| && n !in q.chain && q.nodes[n].next.None? && q.nodes[n].remove.None?
  }

  /** The log entry names no node and no node is removed by it. */
  ghost predicate Blank(q: Queue, l: nat) {
    && l < |q.logs| && q.logs[l].node.None? && q.logs[l].pNode.None?
    && forall x :: 0 <= x < |q.nodes| ==> q.nodes[x].remove != Some(l)
  }

  /** The node an enqueuer has not linked yet. */
  function OwnNode(pc: Pc): Option<nat> {
    match pc
    case EFlushNode(_, n) => Some(n)
    case EFlushLog(_, n) => Some(n)
    case EReadTail(n) => Some(n)
    case EReadNext(n, _) => Some(n)
    case ECheck(n, _, _) => Some(n)
    case ELink(n, _) => Some(n)
    case EHelpFlush(n, _, _) => Some(n)
    case EHelpSwing(n, _, _) => Some(n)
    case _ => None
  }

  /** The log entry a dequeuer removes with. */
  function OwnLog(pc: Pc): Option<nat> {
    if IsEnq(pc) then None else Some(pc.log)
  }

  /** The operation has removed a node. */
  predicate HasRemoved(pc: Pc) {
    pc.DDone? || ((pc.DFlushMark? || pc.DSetNode? || pc.DFlushSetNode? || pc.DSwing?) && pc.mine)
  }

  ghost predicate Owns(q: Queue, pc: Pc) {
    && (OwnNode(pc).Some? ==> Fresh(q, OwnNode(pc).value) && (pc.EFlushNode? || q.nodes[OwnNode(pc).value].durable))
    && (OwnLog(pc).Some? && !HasRemoved(pc) ==> Blank(q, OwnLog(pc).value))
  }

  /** No two operations own the same node or log entry. */
  predicate Apart(pc: Pc, pc': Pc) {
    && (OwnNode(pc).Some? ==> OwnNode(pc) != OwnNode(pc'))
    && (OwnLog(pc).Some? ==> OwnLog(pc) != OwnLog(pc'))
  }

  ghost predicate OpOk(q: Queue, pc: Pc) {
    Knows(q, pc) && Owns(q, pc)
  }

  ghost predicate OpsOk(q: Queue) {
    && (forall t :: 0 <= t < |q.ops| ==> OpOk(q, q.ops[t]))
    && (forall t, u :: 0 <= t < u < |q.ops| ==> Apart(q.ops[t], q.ops[u]))
  }

  /** Node `i` of the chain is linked to the one behind it. */
  predicate NextAt(q: Queue, i: int) {
    0 <= i < |q.chain| - 1 && q.chain[i] < |q.nodes| && q.nodes[q.chain[i]].next == Some(q.chain[i + 1])
  }

  predicate PersistedAt(q: Queue, i: int) {
    0 <= i < |q.chain| - 1 && LinkPersisted(q, q.chain[i], q.chain[i + 1])
  }

  /** The chain is what `next` spells out. */
  ghost predicate LinksOk(q: Queue) {
    && |q.chain| > 0 && q.chain[0] == 0
    && (forall i :: 0 <= i < |q.chain| ==> q.chain[i] < |q.nodes| && q.nodes[q.chain[i]].durable)
    && (forall i, j :: 0 <= i < j < |q.chain| ==> q.chain[i] != q.chain[j])
    && (forall i {:trigger NextAt(q, i)} :: 0 <= i < |q.chain| - 1 ==> NextAt(q, i))
    && q.nodes[q.chain[|q.chain| - 1]].next.None?
  }

  /** Head, removed nodes, tail and end of the chain, in this order. */
  ghost predicate PositionsOk(q: Queue) {
    && q.headPos <= q.marked <= q.headPos + 1 && q.marked <= q.tailPos
    && q.tailPos < |q.chain| <= q.tailPos + 2
    && q.head == q.chain[q.headPos] && q.tail == q.chain[q.tailPos]
  }

  /** The removed nodes are a prefix of the chain, each removed by its own entry. */
  ghost predicate MarksOk(q: Queue)
    requires LinksOk(q)
  {
    && (forall i :: 0 <= i < |q.chain| ==> (q.nodes[q.chain[i]].remove.Some? <==> 1 <= i <= q.marked))
    && (forall x, y :: 0 <= x < y < |q.nodes| && q.nodes[x].remove.Some? ==> q.nodes[x].remove != q.nodes[y].remove)
  }

  /** The entry that removed `x` names no other node. */
  ghost predicate LogOk(q: Queue, x: nat)
    requires x < |q.nodes| && q.nodes[x].remove.Some?
  {
    && q.nodes[x].remove.value < |q.logs|
    && q.logs[q.nodes[x].remove.value].node in {None, Some(x)}
    && q.logs[q.nodes[x].remove.value].pNode in {None, q.logs[q.nodes[x].remove.value].node}
  }

  ghost predicate LogsOk(q: Queue) {
    && (forall x :: 0 <= x < |q.nodes| && q.nodes[x].remove.Some? ==> LogOk(q, x))
    && (forall l :: 0 <= l < |q.logs| && q.logs[l].pStatus ==> q.logs[l].status)
  }

  /** Only values of `next` and `logRemove` that are still current were written back. */
  predicate CurrentOk(n: Node) {
    && (n.pNext.Some? ==> n.pNext == n.next)
    && (n.pRemove.Some? ==> n.pRemove == n.remove)
  }

  /** What has reached persistent memory. */
  ghost predicate PersistOk(q: Queue)
    requires LinksOk(q) && PositionsOk(q)
  {
    && (forall i {:trigger PersistedAt(q, i)} :: 0 <= i < q.tailPos ==> PersistedAt(q, i))
    && (forall i :: 1 <= i <= q.headPos ==> MarkPersisted(q, q.chain[i]) && LogHas(q, q.chain[i], true))
  }

  ghost predicate Shared(q: Queue) {
    && WfShared(q) && LinksOk(q) && PositionsOk(q) && MarksOk(q) && LogsOk(q) && PersistOk(q)
    && (forall x :: 0 <= x < |q.nodes| ==> CurrentOk(q.nodes[x]))
  }

  ghost predicate Good(q: Queue) {
    Shared(q) && WfOps(q) && OpsOk(q)
  }

  // ---------------------------------------------------------------------------
  // The shared part only grows
  // ---------------------------------------------------------------------------

  ghost predicate NodesGrow(q: Queue, q': Queue) {
    && |q.nodes| <= |q'.nodes|
    && forall x :: 0 <= x < |q.nodes| ==>
         && (q.nodes[x].next.Some? ==> q'.nodes[x].next == q.nodes[x].next)
         && (q.nodes[x].remove.Some? ==> q'.nodes[x].remove == q.nodes[x].remove)
         && (q.nodes[x].pNext.Some? ==> q'.nodes[x].pNext == q.nodes[x].pNext)
         && (MarkPersisted(q, x) ==> MarkPersisted(q', x))
         && (LogHas(q, x, false) ==> LogHas(q', x, false))
         && (LogHas(q, x, true) ==> LogHas(q', x, true))
         && (q.nodes[x].durable ==> q'.nodes[x].durable)
  }

  predicate LogsGrow(q: Queue, q': Queue) {
    && |q.logs| <= |q'.logs|
    && forall l :: 0 <= l < |q.logs| ==>
         && (q.logs[l].status ==> q'.logs[l].status)
         && (q.logs[l].pStatus ==> q'.logs[l].pStatus)
  }

  ghost predicate Grows(q: Queue, q': Queue) {
    && q.headPos <= q'.headPos && q.tailPos <= q'.tailPos && q.marked <= q'.marked
    && q.chain <= q'.chain
    && NodesGrow(q, q') && LogsGrow(q, q')
  }

  lemma SeenGrows(q: Queue, q': Queue, x: nat, n: nat, n': nat)
    requires Seen(q, x, n) && n <= n' && q.chain <= q'.chain
    ensures Seen(q', x, n')
  {
    var p: nat :| p <= n && p < |q.chain| && q.chain[p] == x;
    assert q'.chain[p] == x;
  }

  lemma LinkedGrows(q: Queue, q': Queue, a: nat, b: nat, n: nat, n': nat)
    requires LinkedBy(q, a, b, n) && n <= n' && q.chain <= q'.chain
    ensures LinkedBy(q', a, b, n')
  {
    var p: nat :| p <= n && Link(q, p, a, b);
    assert Link(q', p, a, b);
  }

  lemma BeforeGrows(q: Queue, q': Queue, first: nat, last: nat)
    requires Before(q, first, last) && Grows(q, q')
    ensures Before(q', first, last)
  {
    var p: nat, r: nat :| p <= r && p <= q.headPos && r <= q.tailPos && r < |q.chain| &&
      q.chain[p] == first && q.chain[r] == last;
    assert q'.chain[p] == first && q'.chain[r] == last;
  }

  lemma CandidateGrows(q: Queue, q': Queue, first: nat, nx: nat)
    requires Candidate(q, first, nx) && Grows(q, q')
    ensures Candidate(q', first, nx)
  {
    var p: nat :| p <= q.headPos && p + 1 <= q.tailPos && Link(q, p, first, nx);
    assert Link(q', p, first, nx);
  }

  lemma MarkedGrows(q: Queue, q': Queue, first: nat, nx: nat)
    requires Marked(q, first, nx) && Grows(q, q')
    ensures Marked(q', first, nx)
  {
    var p: nat :| p <= q.headPos && p + 1 <= q.marked && Link(q, p, first, nx);
    assert Link(q', p, first, nx);
  }

  lemma KnowsEnq(q: Queue, q': Queue, pc: Pc)
    requires Knows(q, pc) && Grows(q, q') && IsEnq(pc) && WfPc(q, pc)
    ensures Knows(q', pc)
  {
    match pc
    case EReadNext(_, last) => SeenGrows(q, q', last, q.tailPos, q'.tailPos);
    case ECheck(_, last, _) => SeenGrows(q, q', last, q.tailPos, q'.tailPos);
    case ELink(_, last) => SeenGrows(q, q', last, q.tailPos, q'.tailPos);
    case EFlush(n, last) => LinkedGrows(q, q', last, n, q.tailPos, q'.tailPos);
    case ESwing(n, last) => LinkedGrows(q, q', last, n, q.tailPos, q'.tailPos);
    case EHelpFlush(_, last, nx) => LinkedGrows(q, q', last, nx, q.tailPos, q'.tailPos);
    case EHelpSwing(_, last, nx) => LinkedGrows(q, q', last, nx, q.tailPos, q'.tailPos);
    case EDone(n) => SeenGrows(q, q', n, q.tailPos, q'.tailPos);
    case _ =>
  }

  lemma KnowsDeq(q: Queue, q': Queue, pc: Pc)
    requires Knows(q, pc) && Grows(q, q') && !IsEnq(pc) && WfPc(q, pc)
    ensures Knows(q', pc)
  {
    match pc
    case DReadTail(_, first) => SeenGrows(q, q', first, q.headPos, q'.headPos);
    case DReadNext(_, first, last) => BeforeGrows(q, q', first, last);
    case DCheck(_, first, last, _, _) => BeforeGrows(q, q', first, last);
    case DHelpFlush(_, last, nx) => LinkedGrows(q, q', last, nx, q.tailPos, q'.tailPos);
    case DHelpSwing(_, last, nx) => LinkedGrows(q, q', last, nx, q.tailPos, q'.tailPos);
    case DMark(_, first, nx) => CandidateGrows(q, q', first, nx);
    case DRecheck(_, first, nx) => MarkedGrows(q, q', first, nx);
    case DFlushMark(_, first, nx, _) => MarkedGrows(q, q', first, nx);
    case DSetNode(_, first, nx, _) => MarkedGrows(q, q', first, nx);
    case DFlushSetNode(_, first, nx, _) => MarkedGrows(q, q', first, nx);
    case DSwing(_, first, nx, _) => MarkedGrows(q, q', first, nx);
    case DDone(_, nx) => SeenGrows(q, q', nx, q.headPos, q'.headPos);
    case _ =>
  }

  /** Operations other than the moving one keep what they know and own. */
  lemma OthersKeep(q: Queue, q': Queue, pc: Pc)
    requires Knows(q, pc) && Owns(q, pc) && WfPc(q, pc) && Grows(q, q')
    requires OwnNode(pc).Some? ==> Fresh(q', OwnNode(pc).value)
    requires OwnLog(pc).Some? && !HasRemoved(pc) ==> Blank(q', OwnLog(pc).value)
    ensures Knows(q', pc) && Owns(q', pc)
  {
    if IsEnq(pc) { KnowsEnq(q, q', pc); } else { KnowsDeq(q, q', pc); }
  }
}
