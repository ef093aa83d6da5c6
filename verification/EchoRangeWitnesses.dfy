/** Three runs of Echo's commit protocol at a snapshot that is not settled: a commit that
    begins there is failed without a conflict, a read there finds what is not committed, and
    an update is lost. */
module EchoRangeWitnesses {
  import opened CommitState
  import opened EchoProtocol
  import opened EchoTheorems
  import opened EchoReads
  import opened EchoConflicts
  import opened EchoRuns
  import opened Wrappers

  const K: Key := "k"

  /** The first record writes K. */
  function F(st: CommitState, next: Option<nat>, pc: Pc): Record {
    Record(0, 444, [Pair(K, Some("1"))], st, next, pc)
  }

  lemma FirstAppended() returns (tr: seq<Store>)
    ensures RunTo(tr, Store([F(CREATED, None, LinkPrev)], map[], map[], 445, false))
  {
    assert Run([Init]);
    tr := GoAppend([Init], Init, 0, [Pair(K, Some("1"))],
                   Store([F(CREATED, None, LinkPrev)], map[], map[], 445, false));
  }

  // ---------------------------------------------------------------------------
  // A commit failed by one it does not overlap
  // ---------------------------------------------------------------------------

  /** Writes K too, and begins where the first record ends. */
  function B(st: CommitState, pc: Pc): Record {
    Record(444, 445, [Pair(K, Some("2"))], st, None, pc)
  }

  const KB: seq<Vte> := [Vte(1, Some("2"))]
  const KFB: seq<Vte> := [Vte(0, Some("1")), Vte(1, Some("2"))]

  /** Nobody has put; the later record has; both have. */
  function NoPut(f: Record, b: Record): Store {
    Store([f, b], map[], map[], 446, false)
  }

  function OnePut(f: Record, b: Record): Store {
    Store([f, b], map[K := KB], map[], 446, false)
  }

  function BothPut(f: Record, b: Record): Store {
    Store([f, b], map[K := KFB], map[K := 0], 446, false)
  }

  lemma LaterBegins() returns (tr: seq<Store>)
    ensures RunTo(tr, NoPut(F(CREATED, Some(1), LinkPrev), B(INPROGRESS, Put(0))))
  {
    tr := FirstAppended();
    var f, g := F(CREATED, None, LinkPrev), F(CREATED, Some(1), LinkPrev);
    tr := GoAppend(tr, Store([f], map[], map[], 445, false), 444, [Pair(K, Some("2"))],
                   NoPut(f, B(CREATED, LinkPrev)));
    tr := Go(tr, NoPut(f, B(CREATED, LinkPrev)), 1, NoPut(g, B(CREATED, CheckPrev)));
    tr := Go(tr, NoPut(g, B(CREATED, CheckPrev)), 1, NoPut(g, B(CREATED, Begin)));
    tr := Go(tr, NoPut(g, B(CREATED, Begin)), 1, NoPut(g, B(INPROGRESS, Put(0))));
  }

  lemma LaterPuts() returns (tr: seq<Store>)
    ensures RunTo(tr, OnePut(F(CREATED, Some(1), LinkPrev), B(INPROGRESS, AfterPut(0))))
  {
    tr := LaterBegins();
    var g := F(CREATED, Some(1), LinkPrev);
    tr := Go(tr, NoPut(g, B(INPROGRESS, Put(0))), 1, NoPut(g, B(INPROGRESS, PutNew(0))));
    tr := Go(tr, NoPut(g, B(INPROGRESS, PutNew(0))), 1, OnePut(g, B(INPROGRESS, AfterPut(0))));
  }

  lemma FirstLooks() returns (tr: seq<Store>)
    ensures RunTo(tr, OnePut(F(CREATED, Some(1), SelfOk), B(INPROGRESS, AfterPut(0))))
  {
    tr := LaterPuts();
    var n, b := Some(1), B(INPROGRESS, AfterPut(0));
    tr := Go(tr, OnePut(F(CREATED, n, LinkPrev), b), 0, OnePut(F(CREATED, n, CheckPrev), b));
    tr := Go(tr, OnePut(F(CREATED, n, CheckPrev), b), 0, OnePut(F(CREATED, n, SelfOk), b));
  }

  lemma FirstBegins() returns (tr: seq<Store>)
    ensures RunTo(tr, OnePut(F(INPROGRESS_OK, Some(1), Put(0)), B(INPROGRESS, AfterPut(0))))
  {
    tr := FirstLooks();
    var n, b := Some(1), B(INPROGRESS, AfterPut(0));
    tr := Go(tr, OnePut(F(CREATED, n, SelfOk), b), 0, OnePut(F(CREATED_OK, n, Begin), b));
    tr := Go(tr, OnePut(F(CREATED_OK, n, Begin), b), 0, OnePut(F(INPROGRESS_OK, n, Put(0)), b));
  }

  lemma FirstPutsToo() returns (tr: seq<Store>)
    ensures RunTo(tr, BothPut(F(INPROGRESS_OK, Some(1), Fwd(0, 0, 1)), B(INPROGRESS, AfterPut(0))))
  {
    tr := FirstBegins();
    var s := OnePut(F(INPROGRESS_OK, Some(1), Put(0)), B(INPROGRESS, AfterPut(0)));
    assert KB[..0] == [] && InsertIndex(s.log, KB[..0], 444) == 0;
    assert InsertAt(KB, 0, Vte(0, Some("1"))) == KFB;
    tr := Go(tr, s, 0, BothPut(F(INPROGRESS_OK, Some(1), Fwd(0, 0, 1)), B(INPROGRESS, AfterPut(0))));
  }

  lemma FirstScans() returns (tr: seq<Store>)
    ensures RunTo(tr, BothPut(F(INPROGRESS_OK, Some(1), FwdLocked(0, 0, 1)), B(INPROGRESS, AfterPut(0))))
  {
    tr := FirstPutsToo();
    var n, b := Some(1), B(INPROGRESS, AfterPut(0));
    tr := Go(tr, BothPut(F(INPROGRESS_OK, n, Fwd(0, 0, 1)), b), 0, BothPut(F(INPROGRESS_OK, n, FwdLocked(0, 0, 1)), b));
  }

  /** A forward scan can fail a commit whose snapshot range does not overlap that of the
      scanning one: the last step of this run does. */
  lemma FailedWithoutConflict() returns (tr: seq<Store>)
    ensures Run(tr) && |tr| > 1 && !tr[|tr| - 1].halted
    ensures var s, s' := tr[|tr| - 2], tr[|tr| - 1];
      && ScansOnto(s, 0, 1) && |s.log| == 2 && !Overlap(s.log[0], s.log[1]) && s.log[0].state == INPROGRESS_OK
      && |s'.log| == 2 && s.log[1].state == INPROGRESS && s'.log[1].state == WAIT_TO_ABORT
  {
    tr := FirstScans();
    var n, b := Some(1), B(INPROGRESS, AfterPut(0));
    tr := Go(tr, BothPut(F(INPROGRESS_OK, n, FwdLocked(0, 0, 1)), b), 0,
             BothPut(F(INPROGRESS_OK, n, Fwd(0, 0, 2)), B(WAIT_TO_ABORT, AfterPut(0))));
  }

  // ---------------------------------------------------------------------------
  // A lost update
  // ---------------------------------------------------------------------------

  /** Writes K too, and begins at a snapshot number taken while the first record merges. */
  function U(st: CommitState, pc: Pc): Record {
    Record(445, 446, [Pair(K, Some("2"))], st, None, pc)
  }

  const KF: seq<Vte> := [Vte(0, Some("1"))]
  const KFU: seq<Vte> := [Vte(0, Some("1")), Vte(1, Some("2"))]

  /** The first record alone, before and after its put. */
  function Alone(f: Record): Store {
    Store([f], map[], map[], 446, false)
  }

  function AloneInK(f: Record): Store {
    Store([f], map[K := KF], map[], 446, false)
  }

  /** With the second record: before, during and after its put. */
  function Second(f: Record, u: Record): Store {
    Store([f, u], map[K := KF], map[], 447, false)
  }

  function SecondLocks(u: Record): Store {
    Store([F(COMMITTED, Some(1), Done), u], map[K := KFU], map[K := 1], 447, false)
  }

  function SecondPut(u: Record): Store {
    Store([F(COMMITTED, Some(1), Done), u], map[K := KFU], map[], 447, false)
  }

  /** The second worker takes its snapshot number and reads K. */
  lemma SecondReads() returns (tr: seq<Store>)
    ensures RunTo(tr, Alone(F(CREATED, None, LinkPrev)))
  {
    tr := FirstAppended();
    var s := Alone(F(CREATED, None, LinkPrev));
    assert s == NewSnapshot(tr[|tr| - 1]);
    Extend(tr, s);
    tr := tr + [s];
  }

  lemma FirstChecks(tr: seq<Store>) returns (tr': seq<Store>)
    requires RunTo(tr, Alone(F(CREATED, None, LinkPrev)))
    ensures tr <= tr' && RunTo(tr', Alone(F(CREATED, None, SelfOk)))
  {
    tr' := Go(tr, Alone(F(CREATED, None, LinkPrev)), 0, Alone(F(CREATED, None, CheckPrev)));
    tr' := Go(tr', Alone(F(CREATED, None, CheckPrev)), 0, Alone(F(CREATED, None, SelfOk)));
  }

  lemma FirstEnters(tr: seq<Store>) returns (tr': seq<Store>)
    requires RunTo(tr, Alone(F(CREATED, None, SelfOk)))
    ensures tr <= tr' && RunTo(tr', Alone(F(INPROGRESS_OK, None, Put(0))))
  {
    tr' := Go(tr, Alone(F(CREATED, None, SelfOk)), 0, Alone(F(CREATED_OK, None, Begin)));
    tr' := Go(tr', Alone(F(CREATED_OK, None, Begin)), 0, Alone(F(INPROGRESS_OK, None, Put(0))));
  }

  lemma FirstPuts(tr: seq<Store>) returns (tr': seq<Store>)
    requires RunTo(tr, Alone(F(INPROGRESS_OK, None, Put(0))))
    ensures tr <= tr' && RunTo(tr', AloneInK(F(INPROGRESS_OK, None, AfterPut(0))))
  {
    tr' := Go(tr, Alone(F(INPROGRESS_OK, None, Put(0))), 0, Alone(F(INPROGRESS_OK, None, PutNew(0))));
    tr' := Go(tr', Alone(F(INPROGRESS_OK, None, PutNew(0))), 0, AloneInK(F(INPROGRESS_OK, None, AfterPut(0))));
  }

  /** A read can return what a merger has not committed yet: while the first record is in
      progress, the table with its single entry is not locked. */
  lemma DirtyRead() returns (tr: seq<Store>)
    ensures Run(tr) && !tr[|tr| - 1].halted
    ensures var s := tr[|tr| - 1];
      && |s.log| == 1 && s.log[0].state == INPROGRESS_OK && K !in s.locks && Unchecked(s, K, 445)
      && Read(s, K, 445) == Some(Vte(0, Some("1"))) && LastCommitted(s, K, 445) == None
  {
    tr := SecondReads();
    tr := FirstChecks(tr);
    tr := FirstEnters(tr);
    tr := FirstPuts(tr);
    ReadIsLastCommitted(tr[|tr| - 1], K, 445);
  }

  lemma FirstFinishes(tr: seq<Store>) returns (tr': seq<Store>)
    requires RunTo(tr, AloneInK(F(INPROGRESS_OK, None, AfterPut(0))))
    ensures tr <= tr' && RunTo(tr', AloneInK(F(INPROGRESS_OK, None, Finish(true))))
  {
    tr' := Go(tr, AloneInK(F(INPROGRESS_OK, None, AfterPut(0))), 0, AloneInK(F(INPROGRESS_OK, None, Finish(true))));
  }

  lemma FirstIsFinal(tr: seq<Store>) returns (tr': seq<Store>)
    requires RunTo(tr, AloneInK(F(INPROGRESS_OK, None, Finish(true))))
    ensures tr <= tr' && RunTo(tr', AloneInK(F(COMMITTED, None, SignalRead)))
  {
    tr' := Go(tr, AloneInK(F(INPROGRESS_OK, None, Finish(true))), 0, AloneInK(F(COMMITTED, None, SignalRead)));
  }

  lemma FirstCommits(tr: seq<Store>) returns (tr': seq<Store>)
    requires RunTo(tr, AloneInK(F(COMMITTED, None, SignalRead)))
    ensures tr <= tr' && RunTo(tr', AloneInK(F(COMMITTED, None, Done)))
  {
    tr' := Go(tr, AloneInK(F(COMMITTED, None, SignalRead)), 0, AloneInK(F(COMMITTED, None, Done)));
  }

  lemma SecondAppends(tr: seq<Store>) returns (tr': seq<Store>)
    requires RunTo(tr, AloneInK(F(COMMITTED, None, Done)))
    ensures tr <= tr' && RunTo(tr', Second(F(COMMITTED, None, Done), U(CREATED, LinkPrev)))
  {
    tr' := GoAppend(tr, AloneInK(F(COMMITTED, None, Done)), 445, [Pair(K, Some("2"))],
                    Second(F(COMMITTED, None, Done), U(CREATED, LinkPrev)));
  }

  lemma SecondLinks(tr: seq<Store>) returns (tr': seq<Store>)
    requires RunTo(tr, Second(F(COMMITTED, None, Done), U(CREATED, LinkPrev)))
    ensures tr <= tr' && RunTo(tr', Second(F(COMMITTED, Some(1), Done), U(CREATED, CheckPrev)))
  {
    tr' := Go(tr, Second(F(COMMITTED, None, Done), U(CREATED, LinkPrev)), 1,
              Second(F(COMMITTED, Some(1), Done), U(CREATED, CheckPrev)));
  }

  lemma SecondChecks(tr: seq<Store>) returns (tr': seq<Store>)
    requires RunTo(tr, Second(F(COMMITTED, Some(1), Done), U(CREATED, CheckPrev)))
    ensures tr <= tr' && RunTo(tr', Second(F(COMMITTED, Some(1), Done), U(CREATED, SelfOk)))
  {
    tr' := Go(tr, Second(F(COMMITTED, Some(1), Done), U(CREATED, CheckPrev)), 1,
              Second(F(COMMITTED, Some(1), Done), U(CREATED, SelfOk)));
  }

  lemma SecondEnters(tr: seq<Store>) returns (tr': seq<Store>)
    requires RunTo(tr, Second(F(COMMITTED, Some(1), Done), U(CREATED, SelfOk)))
    ensures tr <= tr' && RunTo(tr', Second(F(COMMITTED, Some(1), Done), U(INPROGRESS_OK, Put(0))))
  {
    tr' := Go(tr, Second(F(COMMITTED, Some(1), Done), U(CREATED, SelfOk)), 1,
              Second(F(COMMITTED, Some(1), Done), U(CREATED_OK, Begin)));
    tr' := Go(tr', Second(F(COMMITTED, Some(1), Done), U(CREATED_OK, Begin)), 1,
              Second(F(COMMITTED, Some(1), Done), U(INPROGRESS_OK, Put(0))));
  }

  lemma SecondInserts(tr: seq<Store>) returns (tr': seq<Store>)
    requires RunTo(tr, Second(F(COMMITTED, Some(1), Done), U(INPROGRESS_OK, Put(0))))
    ensures tr <= tr' && RunTo(tr', SecondLocks(U(INPROGRESS_OK, Fwd(0, 1, 2))))
  {
    assert InsertAt(KF, 1, Vte(1, Some("2"))) == KFU;
    tr' := Go(tr, Second(F(COMMITTED, Some(1), Done), U(INPROGRESS_OK, Put(0))), 1,
              SecondLocks(U(INPROGRESS_OK, Fwd(0, 1, 2))));
  }

  lemma SecondTurns(tr: seq<Store>) returns (tr': seq<Store>)
    requires RunTo(tr, SecondLocks(U(INPROGRESS_OK, Fwd(0, 1, 2))))
    ensures tr <= tr' && RunTo(tr', SecondLocks(U(INPROGRESS_OK, Back(0, 1, 1))))
  {
    tr' := Go(tr, SecondLocks(U(INPROGRESS_OK, Fwd(0, 1, 2))), 1, SecondLocks(U(INPROGRESS_OK, Back(0, 1, 1))));
  }

  lemma SecondLeaves(tr: seq<Store>) returns (tr': seq<Store>)
    requires RunTo(tr, SecondLocks(U(INPROGRESS_OK, Back(0, 1, 1))))
    ensures tr <= tr' && RunTo(tr', SecondPut(U(INPROGRESS_OK, AfterPut(0))))
  {
    tr' := Go(tr, SecondLocks(U(INPROGRESS_OK, Back(0, 1, 1))), 1, SecondPut(U(INPROGRESS_OK, AfterPut(0))));
  }

  lemma SecondFinishes(tr: seq<Store>) returns (tr': seq<Store>)
    requires RunTo(tr, SecondPut(U(INPROGRESS_OK, AfterPut(0))))
    ensures tr <= tr' && RunTo(tr', SecondPut(U(INPROGRESS_OK, Finish(true))))
  {
    tr' := Go(tr, SecondPut(U(INPROGRESS_OK, AfterPut(0))), 1, SecondPut(U(INPROGRESS_OK, Finish(true))));
  }

  lemma SecondCommits(tr: seq<Store>) returns (tr': seq<Store>)
    requires RunTo(tr, SecondPut(U(INPROGRESS_OK, Finish(true))))
    ensures tr <= tr' && RunTo(tr', SecondPut(U(COMMITTED, SignalRead)))
  {
    tr' := Go(tr, SecondPut(U(INPROGRESS_OK, Finish(true))), 1, SecondPut(U(COMMITTED, SignalRead)));
  }

  /** An update can be lost: at `a` a worker finds no version of K at its begin snapshot,
      although a record within it goes on to commit one; both then commit, and the
      worker's version replaces the one it never saw. */
  lemma LostUpdate() returns (tr: seq<Store>, a: nat)
    ensures Run(tr) && a < |tr| && !tr[|tr| - 1].halted
    ensures var s := tr[|tr| - 1];
      && |s.log| == 2 && s.log[0].state == COMMITTED && s.log[1].state == COMMITTED
      && Wrote(s, 0, K) && Wrote(s, 1, K) && s.log[1].begin < tr[a].global
      && Read(tr[a], K, s.log[1].begin) == None && s.log[1].end > 0
      && Read(s, K, s.log[1].end - 1) == Some(Vte(0, Some("1")))
  {
    tr := SecondReads();
    a := |tr| - 1;
    tr := FirstChecks(tr);
    tr := FirstEnters(tr);
    tr := FirstPuts(tr);
    tr := FirstFinishes(tr);
    tr := FirstIsFinal(tr);
    tr := FirstCommits(tr);
    tr := SecondAppends(tr);
    tr := SecondLinks(tr);
    tr := SecondChecks(tr);
    tr := SecondEnters(tr);
    tr := SecondInserts(tr);
    tr := SecondTurns(tr);
    tr := SecondLeaves(tr);
    tr := SecondFinishes(tr);
    tr := SecondCommits(tr);
    var s := SecondPut(U(COMMITTED, SignalRead));
    assert s.vts[K][0] == Vte(0, Some("1")) && s.vts[K][1] == Vte(1, Some("2"));
    assert KFU[..1] == [Vte(0, Some("1"))];
  }
}
