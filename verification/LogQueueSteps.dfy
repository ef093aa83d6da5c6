/** Every step of the log queue keeps `Good`. */
module LogQueueSteps {
  import opened LogQueue
  import opened LogQueueInvariant
  import opened Wrappers

  // ---------------------------------------------------------------------------
  // Steps that leave links and marks alone
  // ---------------------------------------------------------------------------

  /** Links, marks and operations are the same. */
  ghost predicate Still(q: Queue, q': Queue) {
    && Grows(q, q') && |q'.nodes| == |q.nodes| && |q'.logs| == |q.logs|
    && q'.chain == q.chain && q'.ops == q.ops && q'.marked == q.marked
    && (forall x :: 0 <= x < |q.nodes| ==>
          q'.nodes[x].next == q.nodes[x].next && q'.nodes[x].remove == q.nodes[x].remove)
    && (forall l: nat :: Blank(q, l) ==> Blank(q', l))
  }

  lemma StillOp(q: Queue, q': Queue, pc: Pc)
    requires WfPc(q, pc) && OpOk(q, pc) && Still(q, q')
    ensures WfPc(q', pc) && OpOk(q', pc)
  {
    OthersKeep(q, q', pc);
  }

  lemma StillKeepsGood(q: Queue, q': Queue)
    requires Good(q) && Still(q, q') && Shared(q')
    ensures Good(q')
  {
    forall u | 0 <= u < |q'.ops| ensures WfPc(q', q'.ops[u]) && OpOk(q', q'.ops[u]) {
      StillOp(q, q', q.ops[u]);
    }
  }

  /** The shared parts of two states are the same. */
  predicate SameShared(q: Queue, q': Queue) {
    q' == q.(ops := q'.ops)
  }

  lemma SameOp(q: Queue, q': Queue, pc: Pc)
    requires WfPc(q, pc) && OpOk(q, pc) && SameShared(q, q')
    ensures WfPc(q', pc) && OpOk(q', pc)
  {
    OthersKeep(q, q', pc);
  }

  lemma ApartMove(q: Queue, t: nat, pc: Pc)
    requires OpsOk(q) && t < |q.ops|
    requires OwnNode(pc).Some? ==> OwnNode(pc) == OwnNode(q.ops[t])
    requires OwnLog(pc).Some? ==> OwnLog(pc) == OwnLog(q.ops[t])
    ensures forall u, v :: 0 <= u < v < |q.ops| ==> Apart(At(q, t, pc).ops[u], At(q, t, pc).ops[v])
  {
    forall u, v | 0 <= u < v < |q.ops| ensures Apart(At(q, t, pc).ops[u], At(q, t, pc).ops[v]) {
      assert Apart(q.ops[u], q.ops[v]);
    }
  }

  /** Links only depend on the chain and on the nodes' `next`. */
  lemma LinksFrame(q: Queue, q': Queue)
    requires LinksOk(q) && q'.chain == q.chain && |q.nodes| <= |q'.nodes|
    requires forall x :: 0 <= x < |q.nodes| ==>
      q'.nodes[x].next == q.nodes[x].next && (q.nodes[x].durable ==> q'.nodes[x].durable)
    ensures LinksOk(q')
  {
    forall i | 0 <= i < |q'.chain| - 1 ensures NextAt(q', i) {
      assert NextAt(q, i);
    }
  }

  lemma SameKeepsShared(q: Queue, q': Queue)
    requires Shared(q) && SameShared(q, q')
    ensures Shared(q')
  {
    LinksFrame(q, q');
    forall i | 0 <= i < q'.tailPos ensures PersistedAt(q', i) {
      assert PersistedAt(q, i);
    }
    forall i | 1 <= i <= q'.headPos ensures MarkPersisted(q', q'.chain[i]) && LogHas(q', q'.chain[i], true) {
      assert MarkPersisted(q, q.chain[i]) && LogHas(q, q.chain[i], true);
    }
    forall x | 0 <= x < |q'.nodes| && q'.nodes[x].remove.Some? ensures LogOk(q', x) {
      assert LogOk(q, x);
    }
  }

  /** Only operation `t` moves. */
  lemma MoveKeepsGood(q: Queue, t: nat, pc: Pc)
    requires Good(q) && t < |q.ops| && WfPc(q, pc) && OpOk(q, pc)
    requires OwnNode(pc).Some? ==> OwnNode(pc) == OwnNode(q.ops[t])
    requires OwnLog(pc).Some? ==> OwnLog(pc) == OwnLog(q.ops[t])
    ensures Good(At(q, t, pc))
  {
    var q' := At(q, t, pc);
    SameKeepsShared(q, q');
    ApartMove(q, t, pc);
    forall u | 0 <= u < |q'.ops| ensures WfPc(q', q'.ops[u]) && OpOk(q', q'.ops[u]) {
      SameOp(q, q', q'.ops[u]);
    }
  }

  lemma StillLinks(q: Queue, q': Queue)
    requires LinksOk(q) && Still(q, q')
    ensures LinksOk(q')
  {
    LinksFrame(q, q');
  }

  lemma StillWf(q: Queue, q': Queue)
    requires WfShared(q) && Still(q, q') && PositionsOk(q')
    ensures WfShared(q')
  {
  }

  lemma StillMarks(q: Queue, q': Queue)
    requires LinksOk(q) && LinksOk(q') && MarksOk(q) && Still(q, q')
    ensures MarksOk(q')
  {
  }

  lemma StillPersist(q: Queue, q': Queue)
    requires LinksOk(q) && LinksOk(q') && PositionsOk(q) && PositionsOk(q')
    requires PersistOk(q) && Still(q, q') && q'.tailPos == q.tailPos && q'.headPos == q.headPos
    ensures PersistOk(q')
  {
    forall i | 0 <= i < q'.tailPos ensures PersistedAt(q', i) {
      assert PersistedAt(q, i);
    }
    forall i | 1 <= i <= q'.headPos ensures MarkPersisted(q', q'.chain[i]) && LogHas(q', q'.chain[i], true) {
      assert MarkPersisted(q, q.chain[i]) && LogHas(q, q.chain[i], true);
    }
  }

  /** Writing back or filling in keeps the shared part intact. */
  lemma StillShared(q: Queue, q': Queue)
    requires Shared(q) && Still(q, q') && LogsOk(q') && forall x :: 0 <= x < |q.nodes| ==> CurrentOk(q'.nodes[x])
    requires q'.head == q.head && q'.tail == q.tail && q'.tailPos == q.tailPos && q'.headPos == q.headPos
    ensures Shared(q')
  {
    StillLinks(q, q');
    StillWf(q, q');
    StillMarks(q, q');
    StillPersist(q, q');
  }

  lemma StillNode(q: Queue, x: nat, n: Node)
    requires x < |q.nodes| && LogsOk(q) && n.next == q.nodes[x].next && n.remove == q.nodes[x].remove
    requires n.pNext == q.nodes[x].pNext || n.pNext == n.next
    requires n.pRemove == q.nodes[x].pRemove || n.pRemove == n.remove
    requires (q.nodes[x].durable ==> n.durable) && CurrentOk(q.nodes[x])
    ensures Still(q, SetNode(q, x, n)) && LogsOk(SetNode(q, x, n)) && CurrentOk(n)
  {
    var q' := SetNode(q, x, n);
    forall y | 0 <= y < |q'.nodes| && q'.nodes[y].remove.Some? ensures LogOk(q', y) {
      assert LogOk(q, y);
    }
  }

  /** Writing fields of a node back, or flushing all of it. */
  lemma NodeKeepsGood(q: Queue, x: nat, n: Node)
    requires Good(q) && x < |q.nodes| && n.next == q.nodes[x].next && n.remove == q.nodes[x].remove
    requires n.pNext == q.nodes[x].pNext || n.pNext == n.next
    requires n.pRemove == q.nodes[x].pRemove || n.pRemove == n.remove
    requires q.nodes[x].durable ==> n.durable
    ensures Good(SetNode(q, x, n)) && Grows(q, SetNode(q, x, n))
  {
    StillNode(q, x, n);
    StillShared(q, SetNode(q, x, n));
    StillKeepsGood(q, SetNode(q, x, n));
  }

  lemma StillEntry(q: Queue, l: nat, e: LogEntry)
    requires l < |q.logs| && LogsOk(q) && e.node == q.logs[l].node
    requires e.pNode == q.logs[l].pNode || e.pNode == e.node
    requires (q.logs[l].status ==> e.status) && (e.pStatus == q.logs[l].pStatus || e.pStatus == e.status)
    ensures Still(q, SetLog(q, l, e)) && LogsOk(SetLog(q, l, e))
  {
    var q' := SetLog(q, l, e);
    forall y | 0 <= y < |q'.nodes| && q'.nodes[y].remove.Some?
      ensures LogOk(q', y) && (LogHas(q, y, false) ==> LogHas(q', y, false)) &&
        (LogHas(q, y, true) ==> LogHas(q', y, true))
    {
      assert LogOk(q, y);
    }
  }

  /** Writing an entry back, or setting its status. */
  lemma EntryKeepsGood(q: Queue, l: nat, e: LogEntry)
    requires Good(q) && l < |q.logs| && e.node == q.logs[l].node
    requires e.pNode == q.logs[l].pNode || e.pNode == e.node
    requires (q.logs[l].status ==> e.status) && (e.pStatus == q.logs[l].pStatus || e.pStatus == e.status)
    ensures Good(SetLog(q, l, e)) && Grows(q, SetLog(q, l, e))
  {
    StillEntry(q, l, e);
    StillShared(q, SetLog(q, l, e));
    StillKeepsGood(q, SetLog(q, l, e));
  }

  lemma StillName(q: Queue, nx: nat, l: nat)
    requires LinksOk(q) && MarksOk(q) && LogsOk(q) && MarkedWith(q, nx, l) && l < |q.logs|
    ensures var q' := SetLog(q, l, q.logs[l].(node := Some(nx)));
      Still(q, q') && LogsOk(q') && LogHas(q', nx, false)
  {
    var q' := SetLog(q, l, q.logs[l].(node := Some(nx)));
    assert LogOk(q, nx);
    forall y | 0 <= y < |q'.nodes| && q'.nodes[y].remove.Some?
      ensures LogOk(q', y) && (LogHas(q, y, false) ==> LogHas(q', y, false)) &&
        (LogHas(q, y, true) ==> LogHas(q', y, true))
    {
      assert LogOk(q, y);
    }
  }

  /** Filling in the entry that removed `nx`. */
  lemma NameKeepsGood(q: Queue, nx: nat, l: nat)
    requires Good(q) && MarkedWith(q, nx, l) && l < |q.logs|
    ensures var q' := SetLog(q, l, q.logs[l].(node := Some(nx)));
      Good(q') && Grows(q, q') && LogHas(q', nx, false)
  {
    var q' := SetLog(q, l, q.logs[l].(node := Some(nx)));
    StillName(q, nx, l);
    StillShared(q, q');
    StillKeepsGood(q, q');
  }

  // ---------------------------------------------------------------------------
  // Swinging head and tail
  // ---------------------------------------------------------------------------

  /** Only head and tail differ. */
  lemma SwingKeepsGood(q: Queue, q': Queue)
    requires Good(q) && q.headPos <= q'.headPos && q.tailPos <= q'.tailPos
    requires q' == q.(head := q'.head, tail := q'.tail, headPos := q'.headPos, tailPos := q'.tailPos)
    requires LinksOk(q') && PositionsOk(q') && PersistOk(q')
    ensures Good(q') && Grows(q, q')
  {
    SwingStill(q, q');
    StillWf(q, q');
    StillMarks(q, q');
    StillKeepsGood(q, q');
  }

  lemma SwingStill(q: Queue, q': Queue)
    requires q.headPos <= q'.headPos && q.tailPos <= q'.tailPos && LogsOk(q)
    requires q' == q.(head := q'.head, tail := q'.tail, headPos := q'.headPos, tailPos := q'.tailPos)
    ensures Still(q, q') && LogsOk(q')
  {
    forall x | 0 <= x < |q'.nodes| && q'.nodes[x].remove.Some? ensures LogOk(q', x) {
      assert LogOk(q, x);
    }
  }

  lemma CasTailPosition(q: Queue, a: nat, b: nat, p: nat)
    requires LinksOk(q) && PositionsOk(q) && PersistOk(q) && p <= q.tailPos && Link(q, p, a, b) &&
      LinkPersisted(q, a, b)
    ensures LinksOk(CasTail(q, a, b)) && PositionsOk(CasTail(q, a, b)) && PersistOk(CasTail(q, a, b))
    ensures p + 1 <= CasTail(q, a, b).tailPos && CasTail(q, a, b).chain[p + 1] == b
  {
    var q' := CasTail(q, a, b);
    LinksFrame(q, q');
    assert q.tail == a <==> p == q.tailPos;
    forall i | 0 <= i < q'.tailPos ensures PersistedAt(q', i) {
      assert i < q.tailPos ==> PersistedAt(q, i);
    }
    forall i | 1 <= i <= q'.headPos ensures MarkPersisted(q', q'.chain[i]) && LogHas(q', q'.chain[i], true) {
      assert MarkPersisted(q, q.chain[i]) && LogHas(q, q.chain[i], true);
    }
  }

  lemma CasTailKeepsGood(q: Queue, a: nat, b: nat)
    requires Good(q) && LinkedBy(q, a, b, q.tailPos) && LinkPersisted(q, a, b)
    ensures Good(CasTail(q, a, b)) && Grows(q, CasTail(q, a, b))
    ensures Seen(CasTail(q, a, b), b, CasTail(q, a, b).tailPos)
  {
    var p: nat :| p <= q.tailPos && Link(q, p, a, b);
    CasTailPosition(q, a, b, p);
    SwingKeepsGood(q, CasTail(q, a, b));
  }

  lemma SwungTailIsGood(q: Queue, a: nat, b: nat)
    requires Good(q) && LinkedBy(q, a, b, q.tailPos) && LinkPersisted(q, a, b)
    ensures Good(CasTail(q, a, b)) && Seen(CasTail(q, a, b), b, CasTail(q, a, b).tailPos) && b != 0
  {
    LinkTargetNonzero(q, a, b);
    CasTailKeepsGood(q, a, b);
  }

  lemma CasHeadPosition(q: Queue, first: nat, nx: nat, p: nat)
    requires LinksOk(q) && PositionsOk(q) && PersistOk(q) && p <= q.headPos && p + 1 <= q.marked &&
      Link(q, p, first, nx)
    requires MarkPersisted(q, nx) && LogHas(q, nx, true)
    ensures LinksOk(CasHead(q, first, nx)) && PositionsOk(CasHead(q, first, nx)) && PersistOk(CasHead(q, first, nx))
    ensures p + 1 <= CasHead(q, first, nx).headPos && CasHead(q, first, nx).chain[p + 1] == nx && nx != 0
  {
    CasHeadEnds(q, first, nx, p);
    CasHeadPersist(q, first, nx, p);
  }

  lemma CasHeadEnds(q: Queue, first: nat, nx: nat, p: nat)
    requires LinksOk(q) && PositionsOk(q) && p <= q.headPos && p + 1 <= q.marked && Link(q, p, first, nx)
    ensures LinksOk(CasHead(q, first, nx)) && PositionsOk(CasHead(q, first, nx))
    ensures p + 1 <= CasHead(q, first, nx).headPos && CasHead(q, first, nx).chain[p + 1] == nx && nx != 0
    ensures q.head == first <==> p == q.headPos
  {
    LinksFrame(q, CasHead(q, first, nx));
    assert q.chain[0] == 0;
  }

  lemma CasHeadPersist(q: Queue, first: nat, nx: nat, p: nat)
    requires LinksOk(q) && PositionsOk(q) && PersistOk(q) && Link(q, p, first, nx)
    requires MarkPersisted(q, nx) && LogHas(q, nx, true) && (q.head == first <==> p == q.headPos)
    requires LinksOk(CasHead(q, first, nx)) && PositionsOk(CasHead(q, first, nx))
    ensures PersistOk(CasHead(q, first, nx))
  {
    var q' := CasHead(q, first, nx);
    forall i | 0 <= i < q'.tailPos ensures PersistedAt(q', i) {
      assert PersistedAt(q, i);
    }
    forall i | 1 <= i <= q'.headPos ensures MarkPersisted(q', q'.chain[i]) && LogHas(q', q'.chain[i], true) {
      assert i <= q.headPos ==> MarkPersisted(q, q.chain[i]) && LogHas(q, q.chain[i], true);
    }
  }

  lemma CasHeadKeepsGood(q: Queue, first: nat, nx: nat)
    requires Good(q) && Marked(q, first, nx) && MarkPersisted(q, nx) && LogHas(q, nx, true)
    ensures Good(CasHead(q, first, nx)) && Grows(q, CasHead(q, first, nx))
    ensures Seen(CasHead(q, first, nx), nx, CasHead(q, first, nx).headPos) && nx != 0
  {
    var p: nat :| p <= q.headPos && p + 1 <= q.marked && Link(q, p, first, nx);
    CasHeadPosition(q, first, nx, p);
    SwingKeepsGood(q, CasHead(q, first, nx));
  }

  // ---------------------------------------------------------------------------
  // Linking a node
  // ---------------------------------------------------------------------------

  function Linked(q: Queue, n: nat, last: nat): Queue
    requires last < |q.nodes|
  {
    SetNode(q, last, q.nodes[last].(next := Some(n))).(chain := q.chain + [n])
  }

  /** A node without a successor that was once the tail is the end of the chain
      and still the tail. */
  lemma LastIsEnd(q: Queue, last: nat)
    requires LinksOk(q) && PositionsOk(q) && Seen(q, last, q.tailPos) && last < |q.nodes| && q.nodes[last].next.None?
    ensures q.tailPos == |q.chain| - 1 && q.chain[|q.chain| - 1] == last
  {
    var p: nat :| p <= q.tailPos && p < |q.chain| && q.chain[p] == last;
    forall i | 0 <= i < |q.chain| - 1 ensures q.nodes[q.chain[i]].next.Some? {
      assert NextAt(q, i);
    }
  }

  lemma LinkLinks(q: Queue, n: nat, last: nat)
    requires LinksOk(q) && PositionsOk(q) && Fresh(q, n) && q.nodes[n].durable
    requires Seen(q, last, q.tailPos) && last < |q.nodes| && q.nodes[last].next.None?
    ensures LinksOk(Linked(q, n, last)) && PositionsOk(Linked(q, n, last)) && n != last
    ensures Link(Linked(q, n, last), q.tailPos, last, n)
  {
    LastIsEnd(q, last);
    var q' := Linked(q, n, last);
    forall i | 0 <= i < |q'.chain| - 1 ensures NextAt(q', i) {
      if i < |q.chain| - 1 { assert NextAt(q, i); }
    }
  }

  lemma LinkGrows(q: Queue, n: nat, last: nat)
    requires last < |q.nodes| && q.nodes[last].next.None? && LogsOk(q) && CurrentOk(q.nodes[last])
    ensures Grows(q, Linked(q, n, last)) && LogsOk(Linked(q, n, last))
    ensures CurrentOk(Linked(q, n, last).nodes[last])
  {
    var q' := Linked(q, n, last);
    forall x | 0 <= x < |q'.nodes| && q'.nodes[x].remove.Some? ensures LogOk(q', x) {
      assert LogOk(q, x);
    }
  }

  lemma LinkMarks(q: Queue, n: nat, last: nat)
    requires LinksOk(q) && PositionsOk(q) && MarksOk(q) && Fresh(q, n) && last < |q.nodes|
    requires LinksOk(Linked(q, n, last))
    ensures MarksOk(Linked(q, n, last))
  {
    var q' := Linked(q, n, last);
    forall i | 0 <= i < |q'.chain| ensures q'.nodes[q'.chain[i]].remove.Some? <==> 1 <= i <= q'.marked {
      if i < |q.chain| { assert q.nodes[q.chain[i]].remove.Some? <==> 1 <= i <= q.marked; }
    }
  }

  lemma GrowPersist(q: Queue, q': Queue)
    requires LinksOk(q) && LinksOk(q') && PositionsOk(q) && PositionsOk(q') && PersistOk(q) && Grows(q, q')
    requires q'.tailPos == q.tailPos && q'.headPos == q.headPos
    ensures PersistOk(q')
  {
    forall i | 0 <= i < q'.tailPos ensures PersistedAt(q', i) {
      assert PersistedAt(q, i);
    }
    forall i | 1 <= i <= q'.headPos ensures MarkPersisted(q', q'.chain[i]) && LogHas(q', q'.chain[i], true) {
      assert MarkPersisted(q, q.chain[i]) && LogHas(q, q.chain[i], true);
    }
  }

  lemma LinkShared(q: Queue, n: nat, last: nat)
    requires Shared(q) && Fresh(q, n) && q.nodes[n].durable
    requires Seen(q, last, q.tailPos) && last < |q.nodes| && q.nodes[last].next.None?
    ensures Shared(Linked(q, n, last)) && Grows(q, Linked(q, n, last))
  {
    LinkLinks(q, n, last);
    LinkGrows(q, n, last);
    LinkMarks(q, n, last);
    GrowPersist(q, Linked(q, n, last));
  }

  lemma LinkOp(q: Queue, n: nat, last: nat, pc: Pc)
    requires WfPc(q, pc) && OpOk(q, pc) && Seen(q, last, q.tailPos) && last < |q.nodes|
    requires OwnNode(pc) != Some(n) && Grows(q, Linked(q, n, last))
    ensures WfPc(Linked(q, n, last), pc) && OpOk(Linked(q, n, last), pc)
  {
    if OwnNode(pc).Some? {
      assert last in q.chain;
      assert Fresh(Linked(q, n, last), OwnNode(pc).value);
    }
    OthersKeep(q, Linked(q, n, last), pc);
  }

  /** The moving operation's new place, and everybody else's old one. */
  lemma AllOps(q: Queue, q1: Queue, t: nat, pc: Pc)
    requires OpsOk(q) && t < |q.ops| && q1.ops == q.ops && WfPc(q1, pc) && OpOk(q1, pc)
    requires forall u :: 0 <= u < |q.ops| && u != t ==> WfPc(q1, q.ops[u]) && OpOk(q1, q.ops[u])
    requires OwnNode(pc).Some? ==> OwnNode(pc) == OwnNode(q.ops[t])
    requires OwnLog(pc).Some? ==> OwnLog(pc) == OwnLog(q.ops[t])
    ensures WfOps(At(q1, t, pc)) && OpsOk(At(q1, t, pc))
  {
    var q' := At(q1, t, pc);
    ApartMove(q, t, pc);
    forall u | 0 <= u < |q'.ops| ensures WfPc(q', q'.ops[u]) && OpOk(q', q'.ops[u]) {
      SameOp(q1, q', q'.ops[u]);
    }
  }

  lemma LinkKeepsGood(q: Queue, t: nat, n: nat, last: nat)
    requires Good(q) && t < |q.ops| && q.ops[t] == ELink(n, last) && last < |q.nodes| && q.nodes[last].next.None?
    ensures Good(At(Linked(q, n, last), t, EFlush(n, last)))
  {
    var q1 := Linked(q, n, last);
    assert OpOk(q, q.ops[t]) && WfPc(q, q.ops[t]);
    LinkShared(q, n, last);
    LinkLinks(q, n, last);
    forall u | 0 <= u < |q.ops| && u != t ensures WfPc(q1, q.ops[u]) && OpOk(q1, q.ops[u]) {
      assert if u < t then Apart(q.ops[u], q.ops[t]) else Apart(q.ops[t], q.ops[u]);
      LinkOp(q, n, last, q.ops[u]);
    }
    AllOps(q, q1, t, EFlush(n, last));
    SameKeepsShared(q1, At(q1, t, EFlush(n, last)));
  }

  // ---------------------------------------------------------------------------
  // Marking a node as removed
  // ---------------------------------------------------------------------------

  function Removed(q: Queue, nx: nat, l: nat): Queue
    requires nx < |q.nodes|
  {
    SetNode(q, nx, q.nodes[nx].(remove := Some(l))).(marked := q.marked + 1)
  }

  /** An unmarked candidate is the node behind head, and the first not removed. */
  lemma CandidateIsNext(q: Queue, first: nat, nx: nat)
    requires LinksOk(q) && PositionsOk(q) && MarksOk(q) && Candidate(q, first, nx)
    requires nx < |q.nodes| && q.nodes[nx].remove.None?
    ensures q.marked == q.headPos && q.marked + 1 <= q.tailPos && Link(q, q.marked, first, nx)
  {
    var p: nat :| p <= q.headPos && p + 1 <= q.tailPos && Link(q, p, first, nx);
    assert !(p + 1 <= q.marked);
  }

  lemma RemoveGrows(q: Queue, nx: nat, l: nat)
    requires LogsOk(q) && Blank(q, l)
    requires nx < |q.nodes| && q.nodes[nx].remove.None? && CurrentOk(q.nodes[nx])
    ensures Grows(q, Removed(q, nx, l)) && LogsOk(Removed(q, nx, l)) && CurrentOk(Removed(q, nx, l).nodes[nx])
  {
    var q' := Removed(q, nx, l);
    forall x | 0 <= x < |q'.nodes| && q'.nodes[x].remove.Some? ensures LogOk(q', x) {
      assert x != nx ==> LogOk(q, x);
    }
  }

  lemma RemoveLinks(q: Queue, first: nat, nx: nat, l: nat)
    requires LinksOk(q) && PositionsOk(q) && MarksOk(q) && Candidate(q, first, nx)
    requires nx < |q.nodes| && q.nodes[nx].remove.None? && Blank(q, l)
    ensures LinksOk(Removed(q, nx, l)) && PositionsOk(Removed(q, nx, l)) && MarksOk(Removed(q, nx, l))
    ensures Marked(Removed(q, nx, l), first, nx)
  {
    CandidateIsNext(q, first, nx);
    var q' := Removed(q, nx, l);
    LinksFrame(q, q');
    RemoveMarks(q, nx, l);
    assert Link(q', q.marked, first, nx);
  }

  lemma RemoveMarks(q: Queue, nx: nat, l: nat)
    requires LinksOk(q) && MarksOk(q) && Blank(q, l) && nx < |q.nodes| && LinksOk(Removed(q, nx, l))
    requires q.marked + 1 < |q.chain| && q.chain[q.marked + 1] == nx
    ensures MarksOk(Removed(q, nx, l))
  {
    var q' := Removed(q, nx, l);
    forall i | 0 <= i < |q'.chain| ensures q'.nodes[q'.chain[i]].remove.Some? <==> 1 <= i <= q'.marked {
      assert q.nodes[q.chain[i]].remove.Some? <==> 1 <= i <= q.marked;
    }
  }

  lemma RemoveShared(q: Queue, first: nat, nx: nat, l: nat)
    requires Shared(q) && Candidate(q, first, nx) && nx < |q.nodes| && q.nodes[nx].remove.None? && Blank(q, l)
    ensures Shared(Removed(q, nx, l)) && Grows(q, Removed(q, nx, l)) && Marked(Removed(q, nx, l), first, nx)
  {
    RemoveLinks(q, first, nx, l);
    RemoveGrows(q, nx, l);
    GrowPersist(q, Removed(q, nx, l));
  }

  lemma RemoveOp(q: Queue, nx: nat, l: nat, pc: Pc)
    requires WfPc(q, pc) && OpOk(q, pc) && nx < |q.nodes| && nx in q.chain
    requires OwnLog(pc) != Some(l) && Grows(q, Removed(q, nx, l))
    ensures WfPc(Removed(q, nx, l), pc) && OpOk(Removed(q, nx, l), pc)
  {
    OthersKeep(q, Removed(q, nx, l), pc);
  }

  lemma RemoveKeepsGood(q: Queue, t: nat, l: nat, first: nat, nx: nat)
    requires Good(q) && t < |q.ops| && q.ops[t] == DMark(l, first, nx) && nx < |q.nodes| && q.nodes[nx].remove.None?
    ensures Good(At(Removed(q, nx, l), t, DFlushMark(l, first, nx, true)))
  {
    var q1, pc := Removed(q, nx, l), DFlushMark(l, first, nx, true);
    assert OpOk(q, q.ops[t]) && WfPc(q, q.ops[t]);
    RemoveShared(q, first, nx, l);
    CandidateIsNext(q, first, nx);
    forall u | 0 <= u < |q.ops| && u != t ensures WfPc(q1, q.ops[u]) && OpOk(q1, q.ops[u]) {
      assert if u < t then Apart(q.ops[u], q.ops[t]) else Apart(q.ops[t], q.ops[u]);
      RemoveOp(q, nx, l, q.ops[u]);
    }
    AllOps(q, q1, t, pc);
    SameKeepsShared(q1, At(q1, t, pc));
  }

  // ---------------------------------------------------------------------------
  // Calling an operation
  // ---------------------------------------------------------------------------

  function Allocated(q: Queue, nodes: seq<Node>, e: LogEntry): Queue {
    q.(nodes := q.nodes + nodes, logs := q.logs + [e])
  }

  lemma AllocateShared(q: Queue, nodes: seq<Node>, e: LogEntry)
    requires Shared(q) && forall n <- nodes :: n.next.None? && n.remove.None? && n.pNext.None? && n.pRemove.None?
    requires !e.pStatus
    ensures Shared(Allocated(q, nodes, e)) && Grows(q, Allocated(q, nodes, e))
  {
    var q' := Allocated(q, nodes, e);
    AllocateLogs(q, nodes, e);
    AllocateLinks(q, nodes, e);
    GrowPersist(q, q');
  }

  lemma AllocateLogs(q: Queue, nodes: seq<Node>, e: LogEntry)
    requires WfShared(q) && LogsOk(q) && LinksOk(q) && PositionsOk(q)
    requires forall n <- nodes :: n.next.None? && n.remove.None? && n.pNext.None? && n.pRemove.None?
    requires !e.pStatus
    ensures LogsOk(Allocated(q, nodes, e)) && Grows(q, Allocated(q, nodes, e)) && WfShared(Allocated(q, nodes, e))
  {
    var q' := Allocated(q, nodes, e);
    forall x | 0 <= x < |q'.nodes| && q'.nodes[x].remove.Some? ensures LogOk(q', x) {
      assert LogOk(q, x);
    }
  }

  lemma AllocateLinks(q: Queue, nodes: seq<Node>, e: LogEntry)
    requires LinksOk(q) && PositionsOk(q) && MarksOk(q)
    requires forall n <- nodes :: n.next.None? && n.remove.None?
    ensures LinksOk(Allocated(q, nodes, e)) && PositionsOk(Allocated(q, nodes, e)) && MarksOk(Allocated(q, nodes, e))
  {
    var q' := Allocated(q, nodes, e);
    forall i | 0 <= i < |q'.chain| - 1 ensures NextAt(q', i) {
      assert NextAt(q, i);
    }
  }

  lemma AllocateOp(q: Queue, nodes: seq<Node>, e: LogEntry, pc: Pc)
    requires WfPc(q, pc) && OpOk(q, pc) && Grows(q, Allocated(q, nodes, e))
    requires forall n <- nodes :: n.next.None? && n.remove.None?
    ensures WfPc(Allocated(q, nodes, e), pc) && OpOk(Allocated(q, nodes, e), pc)
  {
    OthersKeep(q, Allocated(q, nodes, e), pc);
  }

  /** A new operation that owns only what was just allocated. */
  lemma CallKeepsGood(q: Queue, nodes: seq<Node>, e: LogEntry, pc: Pc)
    requires Good(q) && forall n <- nodes :: n.next.None? && n.remove.None? && n.pNext.None? && n.pRemove.None?
    requires !e.pStatus
    requires WfPc(Allocated(q, nodes, e), pc) && OpOk(Allocated(q, nodes, e), pc)
    requires OwnNode(pc).Some? ==> OwnNode(pc).value >= |q.nodes|
    requires OwnLog(pc).Some? ==> OwnLog(pc).value >= |q.logs|
    ensures Good(Allocated(q, nodes, e).(ops := q.ops + [pc]))
  {
    var q1 := Allocated(q, nodes, e);
    var q' := q1.(ops := q.ops + [pc]);
    AllocateShared(q, nodes, e);
    SameKeepsShared(q1, q');
    CallOps(q, nodes, e, pc);
  }

  lemma CallOps(q: Queue, nodes: seq<Node>, e: LogEntry, pc: Pc)
    requires WfOps(q) && OpsOk(q) && Grows(q, Allocated(q, nodes, e))
    requires forall n <- nodes :: n.next.None? && n.remove.None?
    requires WfPc(Allocated(q, nodes, e), pc) && OpOk(Allocated(q, nodes, e), pc)
    requires OwnNode(pc).Some? ==> OwnNode(pc).value >= |q.nodes|
    requires OwnLog(pc).Some? ==> OwnLog(pc).value >= |q.logs|
    ensures var q' := Allocated(q, nodes, e).(ops := q.ops + [pc]);
      WfOps(q') && OpsOk(q')
  {
    var q1 := Allocated(q, nodes, e);
    var q' := q1.(ops := q.ops + [pc]);
    forall u | 0 <= u < |q'.ops|
      ensures WfPc(q', q'.ops[u]) && OpOk(q', q'.ops[u]) && (u < |q.ops| ==> Apart(q.ops[u], pc))
    {
      if u < |q.ops| {
        AllocateOp(q, nodes, e, q.ops[u]);
        ApartNew(q, q.ops[u], pc);
      }
      SameOp(q1, q', q'.ops[u]);
    }
  }

  lemma ApartNew(q: Queue, pc: Pc, pc': Pc)
    requires WfPc(q, pc)
    requires OwnNode(pc').Some? ==> OwnNode(pc').value >= |q.nodes|
    requires OwnLog(pc').Some? ==> OwnLog(pc').value >= |q.logs|
    ensures Apart(pc, pc')
  {
  }

  lemma InvokeEnqKeepsGood(q: Queue, v: int)
    requires Good(q)
    ensures Good(InvokeEnq(q, v))
  {
    var n, e := Node(v, None, None, None, None, false), LogEntry(Some(|q.nodes|), None, false, false, false);
    assert InvokeEnq(q, v) == Allocated(q, [n], e).(ops := q.ops + [EFlushNode(|q.logs|, |q.nodes|)]);
    CallKeepsGood(q, [n], e, EFlushNode(|q.logs|, |q.nodes|));
  }

  lemma InvokeDeqKeepsGood(q: Queue)
    requires Good(q)
    ensures Good(InvokeDeq(q))
  {
    var e := LogEntry(None, None, false, false, false);
    assert InvokeDeq(q) == Allocated(q, [], e).(ops := q.ops + [DFlushLog(|q.logs|)]);
    CallKeepsGood(q, [], e, DFlushLog(|q.logs|));
  }

  // ---------------------------------------------------------------------------
  // Every step of every run
  // ---------------------------------------------------------------------------

  /** The last node read behind `last` was linked there. */
  lemma ReadLink(q: Queue, last: nat)
    requires LinksOk(q) && PositionsOk(q) && Seen(q, last, q.tailPos) && last < |q.nodes| && q.nodes[last].next.Some?
    ensures LinkedBy(q, last, q.nodes[last].next.value, q.tailPos)
  {
    var p: nat :| p <= q.tailPos && p < |q.chain| && q.chain[p] == last;
    assert p < |q.chain| - 1 ==> NextAt(q, p);
    assert Link(q, p, last, q.nodes[last].next.value);
  }

  lemma EReadTailKeepsGood(q: Queue, t: nat, n: nat)
    requires Good(q) && t < |q.ops| && q.ops[t] == EReadTail(n)
    ensures Good(StepEnq(q, t))
  {
    assert WfPc(q, q.ops[t]) && OpOk(q, q.ops[t]);
    assert q.chain[q.tailPos] == q.tail;
    MoveKeepsGood(q, t, EReadNext(n, q.tail));
  }

  lemma EReadNextKeepsGood(q: Queue, t: nat, n: nat, last: nat)
    requires Good(q) && t < |q.ops| && q.ops[t] == EReadNext(n, last)
    ensures Good(StepEnq(q, t))
  {
    assert WfPc(q, q.ops[t]) && OpOk(q, q.ops[t]);
    MoveKeepsGood(q, t, ECheck(n, last, q.nodes[last].next));
  }

  lemma ECheckKeepsGood(q: Queue, t: nat, n: nat, last: nat, next: Option<nat>)
    requires Good(q) && t < |q.ops| && q.ops[t] == ECheck(n, last, next)
    ensures Good(StepEnq(q, t))
  {
    assert WfPc(q, q.ops[t]) && OpOk(q, q.ops[t]);
    var pc :=
      if last != q.tail then EReadTail(n) else if next.None? then ELink(n, last) else EHelpFlush(n, last, next.value);
    assert StepEnq(q, t) == At(q, t, pc);
    if pc.EHelpFlush? { ReadLink(q, last); }
    MoveKeepsGood(q, t, pc);
  }

  lemma ELinkKeepsGood(q: Queue, t: nat, n: nat, last: nat)
    requires Good(q) && t < |q.ops| && q.ops[t] == ELink(n, last)
    ensures Good(StepEnq(q, t))
  {
    assert WfPc(q, q.ops[t]) && OpOk(q, q.ops[t]);
    if q.nodes[last].next.None? { LinkKeepsGood(q, t, n, last); } else { MoveKeepsGood(q, t, EReadTail(n)); }
  }

  lemma EnqReadsKeepGood(q: Queue, t: nat)
    requires Good(q) && t < |q.ops|
    requires q.ops[t].EReadTail? || q.ops[t].EReadNext? || q.ops[t].ECheck? || q.ops[t].ELink?
    ensures Good(StepEnq(q, t))
  {
    match q.ops[t]
    case EReadTail(n) => EReadTailKeepsGood(q, t, n);
    case EReadNext(n, last) => EReadNextKeepsGood(q, t, n, last);
    case ECheck(n, last, next) => ECheckKeepsGood(q, t, n, last, next);
    case ELink(n, last) => ELinkKeepsGood(q, t, n, last);
  }

  /** What operation `t` still knows after writing, and its move. */
  lemma WriteThenMove(q: Queue, q1: Queue, t: nat, pc: Pc)
    requires Good(q1) && q1.ops == q.ops && t < |q.ops| && WfPc(q1, pc) && Knows(q1, pc)
    requires OwnNode(pc) == OwnNode(q.ops[t]) || OwnNode(pc).None?
    requires OwnLog(pc) == OwnLog(q.ops[t]) && (HasRemoved(q.ops[t]) ==> HasRemoved(pc))
    requires q.ops[t].EFlushNode? && OwnNode(pc).Some? ==>
               Fresh(q1, OwnNode(pc).value) && q1.nodes[OwnNode(pc).value].durable
    ensures Good(At(q1, t, pc))
  {
    assert OpOk(q1, q1.ops[t]);
    MoveKeepsGood(q1, t, pc);
  }

  lemma EFlushNodeKeepsGood(q: Queue, t: nat, l: nat, n: nat)
    requires Good(q) && t < |q.ops| && q.ops[t] == EFlushNode(l, n)
    ensures Good(StepEnq(q, t))
  {
    assert WfPc(q, q.ops[t]) && OpOk(q, q.ops[t]);
    var n' := q.nodes[n].(durable := true, pNext := q.nodes[n].next, pRemove := q.nodes[n].remove);
    NodeKeepsGood(q, n, n');
    WriteThenMove(q, SetNode(q, n, n'), t, EFlushLog(l, n));
  }

  lemma EFlushLogKeepsGood(q: Queue, t: nat, l: nat, n: nat)
    requires Good(q) && t < |q.ops| && q.ops[t] == EFlushLog(l, n)
    ensures Good(StepEnq(q, t))
  {
    assert WfPc(q, q.ops[t]) && OpOk(q, q.ops[t]);
    var e := q.logs[l].(durable := true, pNode := q.logs[l].node, pStatus := q.logs[l].status);
    EntryKeepsGood(q, l, e);
    WriteThenMove(q, SetLog(q, l, e), t, EReadTail(n));
  }

  lemma EFlushStep(q: Queue, t: nat, n: nat, last: nat)
    requires Wf(q) && t < |q.ops| && q.ops[t] == EFlush(n, last)
    ensures last < |q.nodes| && n < |q.nodes| && StepEnq(q, t) == At(FlushNext(q, last), t, ESwing(n, last))
  {
    assert WfPc(q, q.ops[t]);
  }

  lemma EFlushKeepsGood(q: Queue, t: nat, n: nat, last: nat)
    requires Good(q) && t < |q.ops| && q.ops[t] == EFlush(n, last)
    ensures Good(StepEnq(q, t))
  {
    EFlushStep(q, t, n, last);
    assert OpOk(q, q.ops[t]);
    FlushLinkKeepsGood(q, last, n);
    WriteThenMove(q, FlushNext(q, last), t, ESwing(n, last));
  }

  lemma EHelpFlushKeepsGood(q: Queue, t: nat, n: nat, last: nat, nx: nat)
    requires Good(q) && t < |q.ops| && q.ops[t] == EHelpFlush(n, last, nx)
    ensures Good(StepEnq(q, t))
  {
    assert WfPc(q, q.ops[t]) && OpOk(q, q.ops[t]);
    FlushLinkKeepsGood(q, last, nx);
    HelpSwingKeepsGood(FlushNext(q, last), t, n, last, nx);
  }

  /** Flushing the link that `LinkedBy` promises. */
  lemma FlushLinkKeepsGood(q: Queue, a: nat, b: nat)
    requires Good(q) && a < |q.nodes| && LinkedBy(q, a, b, q.tailPos)
    ensures Good(FlushNext(q, a)) && LinkedBy(FlushNext(q, a), a, b, q.tailPos) && LinkPersisted(FlushNext(q, a), a, b)
  {
    var p: nat :| p <= q.tailPos && Link(q, p, a, b);
    assert NextAt(q, p);
    NodeKeepsGood(q, a, q.nodes[a].(pNext := q.nodes[a].next));
    LinkedGrows(q, FlushNext(q, a), a, b, q.tailPos, q.tailPos);
  }

  lemma LinkTargetNonzero(q: Queue, a: nat, b: nat)
    requires LinksOk(q) && LinkedBy(q, a, b, q.tailPos)
    ensures b != 0
  {
    var p: nat :| p <= q.tailPos && Link(q, p, a, b);
    assert q.chain[0] == 0 && q.chain[p + 1] == b;
  }

  /** An enqueuer returns. */
  lemma DoneKeepsGood(q: Queue, t: nat, n: nat)
    requires Good(q) && t < |q.ops| && IsEnq(q.ops[t]) && n < |q.nodes| && Seen(q, n, q.tailPos) && n != 0
    ensures Good(At(q, t, EDone(n)))
  {
    MoveKeepsGood(q, t, EDone(n));
  }

  /** Another round of a dequeuer. */
  lemma DeqRetryKeepsGood(q: Queue, t: nat, l: nat)
    requires Good(q) && t < |q.ops| && OwnLog(q.ops[t]) == Some(l) && !HasRemoved(q.ops[t])
    ensures Good(At(q, t, DReadHead(l)))
  {
    assert WfPc(q, q.ops[t]) && OpOk(q, q.ops[t]);
    MoveKeepsGood(q, t, DReadHead(l));
  }

  /** An enqueuer goes on to swing the tail it has flushed the link of. */
  lemma HelpSwingKeepsGood(q: Queue, t: nat, n: nat, last: nat, nx: nat)
    requires Good(q) && t < |q.ops| && OwnNode(q.ops[t]) == Some(n) && !q.ops[t].EFlushNode? && last < |q.nodes| &&
      nx < |q.nodes|
    requires LinkedBy(q, last, nx, q.tailPos) && LinkPersisted(q, last, nx)
    ensures Good(At(q, t, EHelpSwing(n, last, nx)))
  {
    assert WfPc(q, q.ops[t]) && OpOk(q, q.ops[t]);
    MoveKeepsGood(q, t, EHelpSwing(n, last, nx));
  }

  lemma ESwingKeepsGood(q: Queue, t: nat, n: nat, last: nat)
    requires Good(q) && t < |q.ops| && q.ops[t] == ESwing(n, last)
    ensures Good(StepEnq(q, t))
  {
    assert WfPc(q, q.ops[t]) && OpOk(q, q.ops[t]);
    SwungTailIsGood(q, last, n);
    DoneKeepsGood(CasTail(q, last, n), t, n);
  }

  /** Another round of an enqueuer. */
  lemma RetryKeepsGood(q: Queue, t: nat, n: nat)
    requires Good(q) && t < |q.ops| && OwnNode(q.ops[t]) == Some(n) && !q.ops[t].EFlushNode?
    ensures Good(At(q, t, EReadTail(n)))
  {
    assert WfPc(q, q.ops[t]) && OpOk(q, q.ops[t]);
    MoveKeepsGood(q, t, EReadTail(n));
  }

  lemma EHelpSwingKeepsGood(q: Queue, t: nat, n: nat, last: nat, nx: nat)
    requires Good(q) && t < |q.ops| && q.ops[t] == EHelpSwing(n, last, nx)
    ensures Good(StepEnq(q, t))
  {
    assert WfPc(q, q.ops[t]) && OpOk(q, q.ops[t]);
    SwungTailIsGood(q, last, nx);
    RetryKeepsGood(CasTail(q, last, nx), t, n);
  }

  lemma DFlushLogKeepsGood(q: Queue, t: nat, l: nat)
    requires Good(q) && t < |q.ops| && q.ops[t] == DFlushLog(l)
    ensures Good(StepDeqRead(q, t))
  {
    assert WfPc(q, q.ops[t]) && OpOk(q, q.ops[t]);
    var e := q.logs[l].(durable := true, pNode := q.logs[l].node, pStatus := q.logs[l].status);
    EntryKeepsGood(q, l, e);
    WriteThenMove(q, SetLog(q, l, e), t, DReadHead(l));
  }

  lemma StatusIsGood(q: Queue, l: nat, e: LogEntry)
    requires Good(q) && l < |q.logs| && e.node == q.logs[l].node && e.pNode == q.logs[l].pNode
    requires (q.logs[l].status ==> e.status) && (e.pStatus == q.logs[l].pStatus || e.pStatus == e.status)
    ensures Good(SetLog(q, l, e))
  {
    EntryKeepsGood(q, l, e);
  }

  lemma DStatusKeepsGood(q: Queue, t: nat, l: nat, sawEmpty: bool)
    requires Good(q) && t < |q.ops| && q.ops[t] == DStatus(l, sawEmpty)
    ensures Good(StepDeqRead(q, t))
  {
    assert WfPc(q, q.ops[t]) && OpOk(q, q.ops[t]);
    StatusIsGood(q, l, q.logs[l].(status := true));
    WriteThenMove(q, SetLog(q, l, q.logs[l].(status := true)), t, DFlushStatus(l, sawEmpty));
  }

  lemma DFlushStatusKeepsGood(q: Queue, t: nat, l: nat, sawEmpty: bool)
    requires Good(q) && t < |q.ops| && q.ops[t] == DFlushStatus(l, sawEmpty)
    ensures Good(StepDeqRead(q, t))
  {
    assert WfPc(q, q.ops[t]) && OpOk(q, q.ops[t]);
    StatusIsGood(q, l, q.logs[l].(pStatus := q.logs[l].status));
    WriteThenMove(q, SetLog(q, l, q.logs[l].(pStatus := q.logs[l].status)), t, DEmpty(l, sawEmpty));
  }

  lemma DHelpFlushKeepsGood(q: Queue, t: nat, l: nat, last: nat, nx: nat)
    requires Good(q) && t < |q.ops| && q.ops[t] == DHelpFlush(l, last, nx)
    ensures Good(StepDeqRead(q, t))
  {
    assert WfPc(q, q.ops[t]) && OpOk(q, q.ops[t]);
    FlushLinkKeepsGood(q, last, nx);
    WriteThenMove(q, FlushNext(q, last), t, DHelpSwing(l, last, nx));
  }

  lemma DHelpSwingStep(q: Queue, t: nat, l: nat, last: nat, nx: nat)
    requires Wf(q) && t < |q.ops| && q.ops[t] == DHelpSwing(l, last, nx)
    ensures StepDeqRead(q, t) == At(CasTail(q, last, nx), t, DReadHead(l))
  {
    assert WfPc(q, q.ops[t]);
  }

  lemma HelpedRetry(q: Queue, q1: Queue, t: nat, l: nat, last: nat, nx: nat)
    requires t < |q.ops| && q.ops[t] == DHelpSwing(l, last, nx) && Good(q1) && q1.ops == q.ops
    ensures Good(At(q1, t, DReadHead(l)))
  {
    DeqRetryKeepsGood(q1, t, l);
  }

  lemma DHelpSwingKeepsGood(q: Queue, t: nat, l: nat, last: nat, nx: nat)
    requires Good(q) && t < |q.ops| && q.ops[t] == DHelpSwing(l, last, nx)
    ensures Good(StepDeqRead(q, t))
  {
    assert OpOk(q, q.ops[t]);
    SwungTailIsGood(q, last, nx);
    HelpedRetry(q, CasTail(q, last, nx), t, l, last, nx);
    DHelpSwingStep(q, t, l, last, nx);
  }

  /** What reading `first->next` tells a dequeuer: a missing successor means that
      the queue is empty now; different ends mean that there is a successor. */
  lemma ReadNextOfFirst(q: Queue, first: nat, last: nat)
    requires WfShared(q) && LinksOk(q) && PositionsOk(q) && Before(q, first, last) && first < |q.nodes|
    ensures first == last && q.nodes[first].next.None? ==> Contents(q) == []
    ensures first != last ==> q.nodes[first].next.Some?
  {
    var p: nat, r: nat :| p <= r && p <= q.headPos && r <= q.tailPos && r < |q.chain| &&
      q.chain[p] == first && q.chain[r] == last;
    if p < |q.chain| - 1 {
      assert NextAt(q, p);
    } else {
      assert q.marked == |q.chain| - 1;
      assert q.chain[q.marked + 1..] == [];
    }
  }

  lemma CheckedCandidate(q: Queue, first: nat, last: nat, nx: nat)
    requires LinksOk(q) && PositionsOk(q) && Before(q, first, last) && first != last
    requires first < |q.nodes| && q.nodes[first].next == Some(nx)
    ensures Candidate(q, first, nx)
  {
    var p: nat, r: nat :| p <= r && p <= q.headPos && r <= q.tailPos && r < |q.chain| &&
      q.chain[p] == first && q.chain[r] == last;
    assert p < r;
    assert NextAt(q, p);
    assert Link(q, p, first, nx);
  }

  lemma CheckedLink(q: Queue, first: nat, last: nat, nx: nat)
    requires LinksOk(q) && PositionsOk(q) && Before(q, first, last)
    requires last < |q.nodes| && q.nodes[last].next == Some(nx)
    ensures LinkedBy(q, last, nx, q.tailPos)
  {
    var p: nat, r: nat :| p <= r && p <= q.headPos && r <= q.tailPos && r < |q.chain| &&
      q.chain[p] == first && q.chain[r] == last;
    assert Seen(q, last, q.tailPos);
    ReadLink(q, last);
  }

  lemma DReadHeadKeepsGood(q: Queue, t: nat, l: nat)
    requires Good(q) && t < |q.ops| && q.ops[t] == DReadHead(l)
    ensures Good(StepDeqRead(q, t))
  {
    assert WfPc(q, q.ops[t]) && OpOk(q, q.ops[t]);
    assert q.chain[q.headPos] == q.head;
    MoveKeepsGood(q, t, DReadTail(l, q.head));
  }

  lemma DReadTailKeepsGood(q: Queue, t: nat, l: nat, first: nat)
    requires Good(q) && t < |q.ops| && q.ops[t] == DReadTail(l, first)
    ensures Good(StepDeqRead(q, t))
  {
    assert WfPc(q, q.ops[t]) && OpOk(q, q.ops[t]);
    ReadTailBefore(q, first);
    MoveKeepsGood(q, t, DReadNext(l, first, q.tail));
  }

  lemma DReadNextKeepsGood(q: Queue, t: nat, l: nat, first: nat, last: nat)
    requires Good(q) && t < |q.ops| && q.ops[t] == DReadNext(l, first, last)
    ensures Good(StepDeqRead(q, t))
  {
    assert WfPc(q, q.ops[t]) && OpOk(q, q.ops[t]);
    ReadNextOfFirst(q, first, last);
    MoveKeepsGood(q, t, DCheck(l, first, last, q.nodes[first].next, Contents(q) == []));
  }

  /** Where a dequeuer goes from its check. */
  function Checked(q: Queue, l: nat, first: nat, last: nat, next: Option<nat>, sawEmpty: bool): Pc
    requires first != last ==> next.Some?
  {
    if first != q.head then DReadHead(l)
    else if first != last then DMark(l, first, next.value)
    else if next.None? then DStatus(l, sawEmpty)
    else DHelpFlush(l, last, next.value)
  }

  lemma CheckedKnows(q: Queue, pc: Pc)
    requires LinksOk(q) && PositionsOk(q) && pc.DCheck? && WfPc(q, pc) && OpOk(q, pc)
    ensures pc.first != pc.last ==> pc.next.Some?
    ensures var c := Checked(q, pc.log, pc.first, pc.last, pc.next, pc.sawEmpty); WfPc(q, c) && OpOk(q, c)
  {
    if pc.first == pc.last && pc.next.Some? { CheckedLink(q, pc.first, pc.last, pc.next.value); }
    if pc.first != pc.last { CheckedCandidate(q, pc.first, pc.last, pc.next.value); }
  }

  lemma DCheckKeepsGood(q: Queue, t: nat, l: nat, first: nat, last: nat, next: Option<nat>, sawEmpty: bool)
    requires Good(q) && t < |q.ops| && q.ops[t] == DCheck(l, first, last, next, sawEmpty)
    ensures Good(StepDeqRead(q, t))
  {
    assert WfPc(q, q.ops[t]) && OpOk(q, q.ops[t]);
    CheckedKnows(q, q.ops[t]);
    assert StepDeqRead(q, t) == At(q, t, Checked(q, l, first, last, next, sawEmpty));
    MoveKeepsGood(q, t, Checked(q, l, first, last, next, sawEmpty));
  }

  lemma ReadTailBefore(q: Queue, first: nat)
    requires PositionsOk(q) && Seen(q, first, q.headPos)
    ensures Before(q, first, q.tail)
  {
    var p: nat :| p <= q.headPos && p < |q.chain| && q.chain[p] == first;
    assert q.chain[q.tailPos] == q.tail && p <= q.tailPos;
  }

  /** `first->next` is `nx`, also when it is read again. */
  lemma RereadIsNext(q: Queue, first: nat, nx: nat)
    requires LinksOk(q) && Marked(q, first, nx)
    ensures first < |q.nodes| && q.nodes[first].next == Some(nx) && Reread(q, first, nx) == nx
  {
    var p: nat :| p <= q.headPos && p + 1 <= q.marked && Link(q, p, first, nx);
    assert NextAt(q, p);
  }

  /** A candidate whose mark is set was removed behind `first`. */
  lemma FoundMarked(q: Queue, first: nat, nx: nat)
    requires LinksOk(q) && MarksOk(q) && Candidate(q, first, nx) && nx < |q.nodes| && q.nodes[nx].remove.Some?
    ensures Marked(q, first, nx)
  {
    var p: nat :| p <= q.headPos && p + 1 <= q.tailPos && Link(q, p, first, nx);
    assert q.nodes[q.chain[p + 1]].remove.Some?;
  }

  lemma DMarkKeepsGood(q: Queue, t: nat, l: nat, first: nat, nx: nat)
    requires Good(q) && t < |q.ops| && q.ops[t] == DMark(l, first, nx)
    ensures Good(StepDeqMark(q, t))
  {
    assert WfPc(q, q.ops[t]) && OpOk(q, q.ops[t]);
    if q.nodes[nx].remove.None? {
      RemoveKeepsGood(q, t, l, first, nx);
    } else {
      FoundMarked(q, first, nx);
      MoveKeepsGood(q, t, DRecheck(l, first, nx));
    }
  }

  lemma DRecheckKeepsGood(q: Queue, t: nat, l: nat, first: nat, nx: nat)
    requires Good(q) && t < |q.ops| && q.ops[t] == DRecheck(l, first, nx)
    ensures Good(StepDeqMark(q, t))
  {
    assert WfPc(q, q.ops[t]) && OpOk(q, q.ops[t]);
    MoveKeepsGood(q, t, if q.head == first then DFlushMark(l, first, nx, false) else DReadHead(l));
  }

  lemma FlushedMark(q: Queue, first: nat, nx: nat)
    requires Good(q) && Marked(q, first, nx)
    ensures Good(FlushRemove(q, nx)) && Marked(FlushRemove(q, nx), first, nx) && MarkPersisted(FlushRemove(q, nx), nx)
  {
    NodeKeepsGood(q, nx, q.nodes[nx].(pRemove := q.nodes[nx].remove));
    MarkedGrows(q, FlushRemove(q, nx), first, nx);
  }

  lemma NamedMark(q: Queue, first: nat, nx: nat, l: nat)
    requires Good(q) && Marked(q, first, nx) && MarkPersisted(q, nx) && MarkedWith(q, nx, l) && l < |q.logs|
    ensures var q' := SetLog(q, l, q.logs[l].(node := Some(nx)));
      Good(q') && Marked(q', first, nx) && MarkPersisted(q', nx) && LogHas(q', nx, false)
  {
    NameKeepsGood(q, nx, l);
    MarkedGrows(q, SetLog(q, l, q.logs[l].(node := Some(nx))), first, nx);
  }

  lemma FlushedName(q: Queue, first: nat, nx: nat, l: nat)
    requires Good(q) && Marked(q, first, nx) && MarkPersisted(q, nx) && LogHas(q, nx, false)
    requires MarkedWith(q, nx, l) && l < |q.logs|
    ensures var q' := FlushLogNode(q, l);
      Good(q') && Marked(q', first, nx) && MarkPersisted(q', nx) && LogHas(q', nx, true)
  {
    EntryKeepsGood(q, l, q.logs[l].(pNode := q.logs[l].node));
    MarkedGrows(q, FlushLogNode(q, l), first, nx);
  }

  /** Swinging head past a node whose removal is persisted. */
  lemma SwungHeadIsGood(q: Queue, first: nat, nx: nat)
    requires Good(q) && Marked(q, first, nx) && MarkPersisted(q, nx) && LogHas(q, nx, true)
    ensures Good(CasHead(q, first, nx)) && Seen(CasHead(q, first, nx), nx, CasHead(q, first, nx).headPos) && nx != 0
  {
    CasHeadKeepsGood(q, first, nx);
  }

  lemma DFlushMarkKeepsGood(q: Queue, t: nat, l: nat, first: nat, nx: nat, mine: bool)
    requires Good(q) && t < |q.ops| && q.ops[t] == DFlushMark(l, first, nx, mine)
    ensures Good(StepDeqMark(q, t))
  {
    assert WfPc(q, q.ops[t]) && OpOk(q, q.ops[t]);
    RereadIsNext(q, first, nx);
    FlushedMark(q, first, nx);
    WriteThenMove(q, FlushRemove(q, nx), t, DSetNode(l, first, nx, mine));
  }

  lemma DSetNodeKeepsGood(q: Queue, t: nat, l: nat, first: nat, nx: nat, mine: bool)
    requires Good(q) && t < |q.ops| && q.ops[t] == DSetNode(l, first, nx, mine)
    ensures Good(StepDeqMark(q, t))
  {
    assert WfPc(q, q.ops[t]) && OpOk(q, q.ops[t]);
    RereadIsNext(q, first, nx);
    var e := q.nodes[nx].remove.value;
    var q1 := SetLog(q, e, q.logs[e].(node := Some(nx)));
    NamedMark(q, first, nx, e);
    WriteThenMove(q, q1, t, DFlushSetNode(l, first, nx, mine));
  }

  lemma DFlushSetNodeKeepsGood(q: Queue, t: nat, l: nat, first: nat, nx: nat, mine: bool)
    requires Good(q) && t < |q.ops| && q.ops[t] == DFlushSetNode(l, first, nx, mine)
    ensures Good(StepDeqMark(q, t))
  {
    assert WfPc(q, q.ops[t]) && OpOk(q, q.ops[t]);
    RereadIsNext(q, first, nx);
    var e := q.nodes[nx].remove.value;
    FlushedName(q, first, nx, e);
    WriteThenMove(q, FlushLogNode(q, e), t, DSwing(l, first, nx, mine));
  }

  lemma DSwingKeepsGood(q: Queue, t: nat, l: nat, first: nat, nx: nat, mine: bool)
    requires Good(q) && t < |q.ops| && q.ops[t] == DSwing(l, first, nx, mine)
    ensures Good(StepDeqMark(q, t))
  {
    var pc := if mine then DDone(l, nx) else DReadHead(l);
    assert StepDeqMark(q, t) == At(CasHead(q, first, nx), t, pc);
    assert WfPc(q, q.ops[t]) && OpOk(q, q.ops[t]);
    SwungHeadIsGood(q, first, nx);
    WriteThenMove(q, CasHead(q, first, nx), t, pc);
  }

  lemma EvictKeepsGood(q: Queue, e: Eviction)
    requires Good(q) && CanEvict(q, e)
    ensures Good(Evict(q, e))
  {
    match e
    case OfNext(x) => NodeKeepsGood(q, x, q.nodes[x].(pNext := q.nodes[x].next));
    case OfRemove(x) => NodeKeepsGood(q, x, q.nodes[x].(pRemove := q.nodes[x].remove));
    case OfLogNode(l) => EntryKeepsGood(q, l, q.logs[l].(pNode := q.logs[l].node));
    case OfStatus(l) => StatusIsGood(q, l, q.logs[l].(pStatus := q.logs[l].status));
  }

  lemma StepEnqKeepsGood(q: Queue, t: nat)
    requires Good(q) && t < |q.ops| && IsEnq(q.ops[t])
    ensures Good(StepEnq(q, t))
  {
    match q.ops[t]
    case EFlushNode(l, n) => EFlushNodeKeepsGood(q, t, l, n);
    case EFlushLog(l, n) => EFlushLogKeepsGood(q, t, l, n);
    case EFlush(n, last) => EFlushKeepsGood(q, t, n, last);
    case ESwing(n, last) => ESwingKeepsGood(q, t, n, last);
    case EHelpFlush(n, last, nx) => EHelpFlushKeepsGood(q, t, n, last, nx);
    case EHelpSwing(n, last, nx) => EHelpSwingKeepsGood(q, t, n, last, nx);
    case EDone(_) =>
    case _ => EnqReadsKeepGood(q, t);
  }

  lemma StepDeqReadKeepsGood(q: Queue, t: nat)
    requires Good(q) && t < |q.ops| && !IsEnq(q.ops[t]) && !IsMarking(q.ops[t])
    ensures Good(StepDeqRead(q, t))
  {
    match q.ops[t]
    case DFlushLog(l) => DFlushLogKeepsGood(q, t, l);
    case DReadHead(l) => DReadHeadKeepsGood(q, t, l);
    case DReadTail(l, first) => DReadTailKeepsGood(q, t, l, first);
    case DReadNext(l, first, last) => DReadNextKeepsGood(q, t, l, first, last);
    case DCheck(l, first, last, next, sawEmpty) => DCheckKeepsGood(q, t, l, first, last, next, sawEmpty);
    case DStatus(l, sawEmpty) => DStatusKeepsGood(q, t, l, sawEmpty);
    case DFlushStatus(l, sawEmpty) => DFlushStatusKeepsGood(q, t, l, sawEmpty);
    case DHelpFlush(l, last, nx) => DHelpFlushKeepsGood(q, t, l, last, nx);
    case DHelpSwing(l, last, nx) => DHelpSwingKeepsGood(q, t, l, last, nx);
    case DEmpty(_, _) =>
  }

  lemma StepDeqMarkKeepsGood(q: Queue, t: nat)
    requires Good(q) && t < |q.ops| && IsMarking(q.ops[t])
    ensures Good(StepDeqMark(q, t))
  {
    match q.ops[t]
    case DMark(l, first, nx) => DMarkKeepsGood(q, t, l, first, nx);
    case DRecheck(l, first, nx) => DRecheckKeepsGood(q, t, l, first, nx);
    case DFlushMark(l, first, nx, mine) => DFlushMarkKeepsGood(q, t, l, first, nx, mine);
    case DSetNode(l, first, nx, mine) => DSetNodeKeepsGood(q, t, l, first, nx, mine);
    case DFlushSetNode(l, first, nx, mine) => DFlushSetNodeKeepsGood(q, t, l, first, nx, mine);
    case DSwing(l, first, nx, mine) => DSwingKeepsGood(q, t, l, first, nx, mine);
    case DDone(_, _) =>
  }

  lemma StepKeepsGood(q: Queue, t: nat)
    requires Good(q) && t < |q.ops|
    ensures Wf(q) && Good(Step(q, t))
  {
    if IsEnq(q.ops[t]) { StepEnqKeepsGood(q, t); }
    else if IsMarking(q.ops[t]) { StepDeqMarkKeepsGood(q, t); }
    else { StepDeqReadKeepsGood(q, t); }
  }

  lemma DoKeepsGood(q: Queue, a: Action)
    requires Good(q) && Can(q, a)
    ensures Good(Do(q, a))
  {
    match a
    case Run(t) => StepKeepsGood(q, t);
    case CallEnq(v) => InvokeEnqKeepsGood(q, v);
    case CallDeq => InvokeDeqKeepsGood(q);
    case WriteBack(e) => EvictKeepsGood(q, e);
  }

  lemma {:induction false} RunIsGood(tr: seq<Queue>, acts: seq<Action>, i: nat)
    requires IsRun(tr, acts) && i < |tr|
    ensures Good(tr[i])
  {
    if i > 0 {
      RunIsGood(tr, acts, i - 1);
      DoKeepsGood(tr[i - 1], acts[i - 1]);
    } else {
      assert Init.nodes[Init.chain[0]].durable;
    }
  }
}
