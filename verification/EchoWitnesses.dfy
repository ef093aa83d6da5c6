/** Concrete runs of Echo's commit protocol: one loses a deletion, one dies, and in one a
    read of a settled snapshot changes to the value of an aborted commit. */
module EchoWitnesses {
  import opened CommitState
  import opened EchoProtocol
  import opened EchoReads
  import opened EchoTheorems
  import EchoRuns
  import opened Wrappers

  ghost predicate Reachable(s: Store) {
    exists tr: seq<Store> :: Run(tr) && tr[|tr| - 1] == s
  }

  lemma ReachNext(s: Store, s': Store)
    requires Reachable(s) && Next(s, s')
    ensures Reachable(s')
  {
    var tr: seq<Store> :| Run(tr) && tr[|tr| - 1] == s;
    EchoRuns.Extend(tr, s');
    assert (tr + [s'])[|tr|] == s';
  }

  lemma Start()
    ensures Reachable(Init)
  {
    assert Run([Init]);
  }

  lemma GoAppend(s: Store, begin: nat, pairs: seq<Pair>, s': Store)
    requires Reachable(s) && !s.halted && begin < s.global && s' == Append(s, begin, pairs)
    ensures Reachable(s')
  {
    ReachNext(s, s');
  }

  lemma Go(s: Store, r: nat, s': Store)
    requires Reachable(s) && Wf(s) && Enabled(s, r) && s' == Step(s, r)
    ensures Reachable(s')
  {
    ReachNext(s, s');
  }

  // ---------------------------------------------------------------------------
  // A deletion of a key that has no table yet is ignored
  // ---------------------------------------------------------------------------

  const K: Key := "k"

  /** Writes K. */
  function W(st: CommitState, next: Option<nat>, pc: Pc): Record {
    Record(0, 444, [Pair(K, Some("v"))], st, next, pc)
  }

  /** Deletes K. */
  function D(st: CommitState, pc: Pc): Record {
    Record(0, 445, [Pair(K, None)], st, None, pc)
  }

  /** The store with the two records, before K has a table. */
  function Early(w: Record, d: Record): Store {
    Store([w, d], map[], map[], 446, false)
  }

  /** The store with the two records once the writer has put K. */
  function Late(w: Record, d: Record): Store {
    Store([w, d], map[K := [Vte(0, Some("v"))]], map[], 446, false)
  }

  lemma PairWf(w: Record, d: Record)
    requires |w.pairs| == 1 && |d.pairs| == 1 && !Scanning(w.pc) && !Scanning(d.pc)
    requires w.pc.Put? || w.pc.PutNew? || w.pc.AfterPut? ==> w.pc.i == 0
    requires d.pc.Put? || d.pc.PutNew? || d.pc.AfterPut? ==> d.pc.i == 0
    requires w.pc.Signal? ==> w.pc.next == 1
    requires !d.pc.Signal?
    ensures Wf(Early(w, d)) && Wf(Late(w, d))
  {
    assert WfPc(Early(w, d), 0) && WfPc(Early(w, d), 1);
    assert WfPc(Late(w, d), 0) && WfPc(Late(w, d), 1);
  }

  lemma BothAppend()
    ensures Reachable(Early(W(CREATED, None, LinkPrev), D(CREATED, LinkPrev)))
  {
    Start();
    var w0 := W(CREATED, None, LinkPrev);
    var s0 := Store([w0], map[], map[], 445, false);
    GoAppend(Init, 0, w0.pairs, s0);
    GoAppend(s0, 0, [Pair(K, None)], Early(w0, D(CREATED, LinkPrev)));
  }

  lemma DeleterLinks()
    ensures Reachable(Early(W(CREATED, Some(1), LinkPrev), D(CREATED, CheckPrev)))
  {
    BothAppend();
    var w0 := W(CREATED, None, LinkPrev);
    PairWf(w0, D(CREATED, LinkPrev));
    Go(Early(w0, D(CREATED, LinkPrev)), 1, Early(W(CREATED, Some(1), LinkPrev), D(CREATED, CheckPrev)));
  }

  lemma DeleterStarts()
    ensures Reachable(Early(W(CREATED, Some(1), LinkPrev), D(CREATED, Begin)))
  {
    DeleterLinks();
    var w := W(CREATED, Some(1), LinkPrev);
    PairWf(w, D(CREATED, CheckPrev));
    Go(Early(w, D(CREATED, CheckPrev)), 1, Early(w, D(CREATED, Begin)));
  }

  lemma DeleterWaits()
    ensures Reachable(Early(W(CREATED, Some(1), LinkPrev), D(WAIT_TO_COMMIT, Waiting)))
  {
    DeleterStarts();
    var w := W(CREATED, Some(1), LinkPrev);
    PairWf(w, D(CREATED, Begin));
    Go(Early(w, D(CREATED, Begin)), 1, Early(w, D(INPROGRESS, Put(0))));
    PairWf(w, D(INPROGRESS, Put(0)));
    Go(Early(w, D(INPROGRESS, Put(0))), 1, Early(w, D(INPROGRESS, AfterPut(0))));
    PairWf(w, D(INPROGRESS, AfterPut(0)));
    Go(Early(w, D(INPROGRESS, AfterPut(0))), 1, Early(w, D(INPROGRESS, Finish(true))));
    PairWf(w, D(INPROGRESS, Finish(true)));
    Go(Early(w, D(INPROGRESS, Finish(true))), 1, Early(w, D(WAIT_TO_COMMIT, Waiting)));
  }

  lemma WriterBegins(d: Record, n: Option<nat>)
    requires d == D(WAIT_TO_COMMIT, Waiting) && n == Some(1)
    requires Reachable(Early(W(CREATED, n, LinkPrev), d))
    ensures Reachable(Early(W(CREATED_OK, n, Begin), d))
  {
    PairWf(W(CREATED, n, LinkPrev), d);
    Go(Early(W(CREATED, n, LinkPrev), d), 0, Early(W(CREATED, n, CheckPrev), d));
    PairWf(W(CREATED, n, CheckPrev), d);
    Go(Early(W(CREATED, n, CheckPrev), d), 0, Early(W(CREATED, n, SelfOk), d));
    PairWf(W(CREATED, n, SelfOk), d);
    Go(Early(W(CREATED, n, SelfOk), d), 0, Early(W(CREATED_OK, n, Begin), d));
  }

  lemma WriterEnters(d: Record, n: Option<nat>)
    requires d == D(WAIT_TO_COMMIT, Waiting) && n == Some(1)
    requires Reachable(Early(W(CREATED_OK, n, Begin), d))
    ensures Reachable(Early(W(INPROGRESS_OK, n, Put(0)), d))
  {
    PairWf(W(CREATED_OK, n, Begin), d);
    Go(Early(W(CREATED_OK, n, Begin), d), 0, Early(W(INPROGRESS_OK, n, Put(0)), d));
  }

  lemma WriterPuts(d: Record, n: Option<nat>)
    requires d == D(WAIT_TO_COMMIT, Waiting) && n == Some(1)
    requires Reachable(Early(W(CREATED_OK, n, Begin), d))
    ensures Reachable(Late(W(INPROGRESS_OK, n, AfterPut(0)), d))
  {
    WriterEnters(d, n);
    PairWf(W(INPROGRESS_OK, n, Put(0)), d);
    Go(Early(W(INPROGRESS_OK, n, Put(0)), d), 0, Early(W(INPROGRESS_OK, n, PutNew(0)), d));
    PairWf(W(INPROGRESS_OK, n, PutNew(0)), d);
    Go(Early(W(INPROGRESS_OK, n, PutNew(0)), d), 0, Late(W(INPROGRESS_OK, n, AfterPut(0)), d));
  }

  lemma WriterFinishes(d: Record, n: Option<nat>)
    requires d == D(WAIT_TO_COMMIT, Waiting) && n == Some(1)
    requires Reachable(Late(W(INPROGRESS_OK, n, AfterPut(0)), d))
    ensures Reachable(Late(W(INPROGRESS_OK, n, Finish(true)), d))
  {
    PairWf(W(INPROGRESS_OK, n, AfterPut(0)), d);
    Go(Late(W(INPROGRESS_OK, n, AfterPut(0)), d), 0, Late(W(INPROGRESS_OK, n, Finish(true)), d));
  }

  lemma WriterCommits(d: Record, n: Option<nat>)
    requires d == D(WAIT_TO_COMMIT, Waiting) && n == Some(1)
    requires Reachable(Late(W(INPROGRESS_OK, n, AfterPut(0)), d))
    ensures Reachable(Late(W(COMMITTED, n, SignalRead), d))
  {
    WriterFinishes(d, n);
    PairWf(W(INPROGRESS_OK, n, Finish(true)), d);
    Go(Late(W(INPROGRESS_OK, n, Finish(true)), d), 0, Late(W(COMMITTED, n, SignalRead), d));
  }

  lemma BothCommit(d: Record, n: Option<nat>)
    requires d == D(WAIT_TO_COMMIT, Waiting) && n == Some(1)
    requires Reachable(Late(W(COMMITTED, n, SignalRead), d))
    ensures Reachable(Late(W(COMMITTED, n, Done), D(COMMITTED, Waiting)))
  {
    PairWf(W(COMMITTED, n, SignalRead), d);
    Go(Late(W(COMMITTED, n, SignalRead), d), 0, Late(W(COMMITTED, n, Signal(1)), d));
    PairWf(W(COMMITTED, n, Signal(1)), d);
    Go(Late(W(COMMITTED, n, Signal(1)), d), 0, Late(W(COMMITTED, n, Done), D(COMMITTED, Waiting)));
  }

  /** First committer wins does not extend to deletions of a key that has no
      version table at the time of the put: a run exists in which a writer and a
      deleter of the same key, with overlapping ranges, both commit, and the key
      is still readable at the deleter's own end snapshot. */
  lemma LostDeletion() returns (tr: seq<Store>)
    ensures Run(tr)
    ensures var s := tr[|tr| - 1];
            && !s.halted && |s.log| == 2
            && s.log[0].state == COMMITTED && s.log[1].state == COMMITTED
            && Pair(K, Some("v")) in s.log[0].pairs && Pair(K, None) in s.log[1].pairs
            && InRange(s.log[0], 1) && InRange(s.log[1], 1)
            && SettledUpTo(s, s.log[1].end) && Read(s, K, s.log[1].end) == Some(Vte(0, Some("v")))
  {
    DeleterWaits();
    WriterBegins(D(WAIT_TO_COMMIT, Waiting), Some(1));
    WriterPuts(D(WAIT_TO_COMMIT, Waiting), Some(1));
    WriterCommits(D(WAIT_TO_COMMIT, Waiting), Some(1));
    BothCommit(D(WAIT_TO_COMMIT, Waiting), Some(1));
    var s := Late(W(COMMITTED, Some(1), Done), D(COMMITTED, Waiting));
    tr :| Run(tr) && tr[|tr| - 1] == s;
    assert s.log[0].pairs[0] == Pair(K, Some("v"));
    assert s.log[1].pairs[0] == Pair(K, None);
    assert s.vts[K][0] == Vte(0, Some("v"));
  }

  // ---------------------------------------------------------------------------
  // An aborted merger can still be inside a put
  // ---------------------------------------------------------------------------

  /** Three overlapping commits: `z` writes "x", `a` writes "x" and "y", `b` writes "y". */
  function Z(st: CommitState, next: Option<nat>, pc: Pc): Record {
    Record(0, 444, [Pair("x", Some("0"))], st, next, pc)
  }

  function A(st: CommitState, next: Option<nat>, pc: Pc): Record {
    Record(0, 445, [Pair("x", Some("1")), Pair("y", Some("1"))], st, next, pc)
  }

  function B(st: CommitState, pc: Pc): Record {
    Record(0, 446, [Pair("y", Some("2"))], st, None, pc)
  }

  function Three(z: Record, a: Record, b: Record, vts: map<Key, seq<Vte>>, locks: map<Key, nat>): Store {
    Store([z, a, b], vts, locks, 447, false)
  }

  ghost predicate SmallTables(vts: map<Key, seq<Vte>>) {
    forall k, p :: k in vts && 0 <= p < |vts[k]| ==> vts[k][p].rec < 3
  }

  lemma ThreeWf(s: Store)
    requires |s.log| == 3 && WfPc(s, 0) && WfPc(s, 1) && WfPc(s, 2)
    requires SmallTables(s.vts)
    ensures Wf(s)
  {
  }

  const XA: seq<Vte> := [Vte(1, Some("1"))]
  const XZA: seq<Vte> := [Vte(0, Some("0")), Vte(1, Some("1"))]
  const YB: seq<Vte> := [Vte(2, Some("2"))]
  const YAB: seq<Vte> := [Vte(1, Some("1")), Vte(2, Some("2"))]

  /** The stores the run goes through: nobody has put; `a` has put "x"; `z` scans the
      table of "x"; `z` has left it; `z` is done; `b` has put "y". */
  function NoTables(z: Record, a: Record): Store {
    Three(z, a, B(CREATED, LinkPrev), map[], map[])
  }

  function OneInX(z: Record, a: Record): Store {
    Three(z, a, B(CREATED, LinkPrev), map["x" := XA], map[])
  }

  function LockedX(z: Record, a: Record): Store {
    Three(z, a, B(CREATED, LinkPrev), map["x" := XZA], map["x" := 0])
  }

  function TwoInX(z: Record, a: Record): Store {
    Three(z, a, B(CREATED, LinkPrev), map["x" := XZA], map[])
  }

  function ZDone(b: Record): Store {
    Three(Z(COMMITTED, Some(1), Done), A(ABORTED, Some(2), Put(1)), b, map["x" := XZA], map[])
  }

  function OneInY(b: Record): Store {
    Three(Z(COMMITTED, Some(1), Done), A(ABORTED, Some(2), Put(1)), b, map["x" := XZA, "y" := YB], map[])
  }

  function LockedY(): Store {
    Three(Z(COMMITTED, Some(1), Done), A(ABORTED, Some(2), Fwd(1, 0, 1)), B(COMMITTED, SignalRead),
          map["x" := XZA, "y" := YAB], map["y" := 1])
  }

  lemma ThreeAppend()
    ensures Reachable(NoTables(Z(CREATED, None, LinkPrev), A(CREATED, None, LinkPrev)))
  {
    Start();
    var z, a, b := Z(CREATED, None, LinkPrev), A(CREATED, None, LinkPrev), B(CREATED, LinkPrev);
    GoAppend(Init, 0, z.pairs, Store([z], map[], map[], 445, false));
    GoAppend(Store([z], map[], map[], 445, false), 0, a.pairs, Store([z, a], map[], map[], 446, false));
    GoAppend(Store([z, a], map[], map[], 446, false), 0, b.pairs, NoTables(z, a));
  }

  lemma GoThree(s: Store, r: nat, s': Store) returns (t: Store)
    requires Reachable(s) && |s.log| == 3 && WfPc(s, 0) && WfPc(s, 1) && WfPc(s, 2)
    requires SmallTables(s.vts)
    requires Wf(s) ==> Enabled(s, r) && s' == Step(s, r)
    ensures Reachable(s') && t == s'
  {
    t := s';
    ThreeWf(s);
    Go(s, r, s');
  }

  lemma ALinks(s: Store) returns (t: Store)
    requires s == NoTables(Z(CREATED, None, LinkPrev), A(CREATED, None, LinkPrev)) && Reachable(s)
    ensures t == NoTables(Z(CREATED, Some(1), LinkPrev), A(CREATED, None, Begin)) && Reachable(t)
  {
    t := s;
    t := GoThree(t, 1, NoTables(Z(CREATED, Some(1), LinkPrev), A(CREATED, None, CheckPrev)));
    t := GoThree(t, 1, NoTables(Z(CREATED, Some(1), LinkPrev), A(CREATED, None, Begin)));
  }

  lemma ABegins(s: Store) returns (t: Store)
    requires s == NoTables(Z(CREATED, Some(1), LinkPrev), A(CREATED, None, Begin)) && Reachable(s)
    ensures t == NoTables(Z(CREATED, Some(1), LinkPrev), A(INPROGRESS, None, PutNew(0))) && Reachable(t)
  {
    t := s;
    t := GoThree(t, 1, NoTables(Z(CREATED, Some(1), LinkPrev), A(INPROGRESS, None, Put(0))));
    t := GoThree(t, 1, NoTables(Z(CREATED, Some(1), LinkPrev), A(INPROGRESS, None, PutNew(0))));
  }

  lemma APutsX(s: Store) returns (t: Store)
    requires s == NoTables(Z(CREATED, Some(1), LinkPrev), A(INPROGRESS, None, PutNew(0))) && Reachable(s)
    ensures t == OneInX(Z(CREATED, Some(1), LinkPrev), A(INPROGRESS, None, Put(1))) && Reachable(t)
  {
    t := s;
    t := GoThree(t, 1, OneInX(Z(CREATED, Some(1), LinkPrev), A(INPROGRESS, None, AfterPut(0))));
    t := GoThree(t, 1, OneInX(Z(CREATED, Some(1), LinkPrev), A(INPROGRESS, None, Put(1))));
  }

  lemma ZChecks(s: Store) returns (t: Store)
    requires s == OneInX(Z(CREATED, Some(1), LinkPrev), A(INPROGRESS, None, Put(1))) && Reachable(s)
    ensures t == OneInX(Z(CREATED, Some(1), SelfOk), A(INPROGRESS, None, Put(1))) && Reachable(t)
  {
    t := s;
    t := GoThree(t, 0, OneInX(Z(CREATED, Some(1), CheckPrev), A(INPROGRESS, None, Put(1))));
    t := GoThree(t, 0, OneInX(Z(CREATED, Some(1), SelfOk), A(INPROGRESS, None, Put(1))));
  }

  lemma ZIsTold(s: Store) returns (t: Store)
    requires s == OneInX(Z(CREATED, Some(1), SelfOk), A(INPROGRESS, None, Put(1))) && Reachable(s)
    ensures t == OneInX(Z(CREATED_OK, Some(1), Begin), A(INPROGRESS, None, Put(1))) && Reachable(t)
  {
    t := GoThree(s, 0, OneInX(Z(CREATED_OK, Some(1), Begin), A(INPROGRESS, None, Put(1))));
  }

  lemma ZBegins(s: Store) returns (t: Store)
    requires s == OneInX(Z(CREATED_OK, Some(1), Begin), A(INPROGRESS, None, Put(1))) && Reachable(s)
    ensures t == OneInX(Z(INPROGRESS_OK, Some(1), Put(0)), A(INPROGRESS, None, Put(1))) && Reachable(t)
  {
    t := GoThree(s, 0, OneInX(Z(INPROGRESS_OK, Some(1), Put(0)), A(INPROGRESS, None, Put(1))));
  }

  lemma ZPutsX(s: Store) returns (t: Store)
    requires s == OneInX(Z(INPROGRESS_OK, Some(1), Put(0)), A(INPROGRESS, None, Put(1))) && Reachable(s)
    ensures t == LockedX(Z(INPROGRESS_OK, Some(1), Fwd(0, 0, 1)), A(INPROGRESS, None, Put(1))) && Reachable(t)
  {
    assert XA[..0] == [] && InsertIndex(s.log, XA[..0], 444) == 0;
    assert InsertAt(XA, 0, Vte(0, Some("0"))) == XZA;
    t := GoThree(s, 0, LockedX(Z(INPROGRESS_OK, Some(1), Fwd(0, 0, 1)), A(INPROGRESS, None, Put(1))));
  }

  lemma ZScans(s: Store) returns (t: Store)
    requires s == LockedX(Z(INPROGRESS_OK, Some(1), Fwd(0, 0, 1)), A(INPROGRESS, None, Put(1))) && Reachable(s)
    ensures t == LockedX(Z(INPROGRESS_OK, Some(1), FwdLocked(0, 0, 1)), A(INPROGRESS, None, Put(1))) && Reachable(t)
  {
    t := GoThree(s, 0, LockedX(Z(INPROGRESS_OK, Some(1), FwdLocked(0, 0, 1)), A(INPROGRESS, None, Put(1))));
  }

  lemma ZFailsA(s: Store) returns (t: Store)
    requires s == LockedX(Z(INPROGRESS_OK, Some(1), FwdLocked(0, 0, 1)), A(INPROGRESS, None, Put(1))) && Reachable(s)
    ensures t == LockedX(Z(INPROGRESS_OK, Some(1), Fwd(0, 0, 2)), A(WAIT_TO_ABORT, None, Put(1))) && Reachable(t)
  {
    t := GoThree(s, 0, LockedX(Z(INPROGRESS_OK, Some(1), Fwd(0, 0, 2)), A(WAIT_TO_ABORT, None, Put(1))));
  }

  lemma ZTurns(s: Store) returns (t: Store)
    requires s == LockedX(Z(INPROGRESS_OK, Some(1), Fwd(0, 0, 2)), A(WAIT_TO_ABORT, None, Put(1))) && Reachable(s)
    ensures t == LockedX(Z(INPROGRESS_OK, Some(1), Back(0, 0, 0)), A(WAIT_TO_ABORT, None, Put(1))) && Reachable(t)
  {
    t := GoThree(s, 0, LockedX(Z(INPROGRESS_OK, Some(1), Back(0, 0, 0)), A(WAIT_TO_ABORT, None, Put(1))));
  }

  lemma ZLeavesX(s: Store) returns (t: Store)
    requires s == LockedX(Z(INPROGRESS_OK, Some(1), Back(0, 0, 0)), A(WAIT_TO_ABORT, None, Put(1))) && Reachable(s)
    ensures t == TwoInX(Z(INPROGRESS_OK, Some(1), AfterPut(0)), A(WAIT_TO_ABORT, None, Put(1))) && Reachable(t)
  {
    t := GoThree(s, 0, TwoInX(Z(INPROGRESS_OK, Some(1), AfterPut(0)), A(WAIT_TO_ABORT, None, Put(1))));
  }

  /** While `z` and `a` scan no table, this store is well-formed. */
  lemma TwoInXWf(z: Record, a: Record)
    requires |z.pairs| == 1 && (z.pc == AfterPut(0) || z.pc.Finish?) && |a.pairs| == 2 && a.pc == Put(1)
    ensures Wf(TwoInX(z, a))
  {
    ThreeWf(TwoInX(z, a));
  }

  lemma ZFinishes(s: Store) returns (t: Store)
    requires s == TwoInX(Z(INPROGRESS_OK, Some(1), AfterPut(0)), A(WAIT_TO_ABORT, None, Put(1))) && Reachable(s)
    ensures t == TwoInX(Z(INPROGRESS_OK, Some(1), Finish(true)), A(WAIT_TO_ABORT, None, Put(1))) && Reachable(t)
  {
    t := TwoInX(Z(INPROGRESS_OK, Some(1), Finish(true)), A(WAIT_TO_ABORT, None, Put(1)));
    TwoInXWf(Z(INPROGRESS_OK, Some(1), AfterPut(0)), A(WAIT_TO_ABORT, None, Put(1)));
    Go(s, 0, t);
  }

  lemma ZCommits(s: Store) returns (t: Store)
    requires s == TwoInX(Z(INPROGRESS_OK, Some(1), Finish(true)), A(WAIT_TO_ABORT, None, Put(1))) && Reachable(s)
    ensures t == TwoInX(Z(COMMITTED, Some(1), SignalRead), A(WAIT_TO_ABORT, None, Put(1))) && Reachable(t)
  {
    t := TwoInX(Z(COMMITTED, Some(1), SignalRead), A(WAIT_TO_ABORT, None, Put(1)));
    TwoInXWf(Z(INPROGRESS_OK, Some(1), Finish(true)), A(WAIT_TO_ABORT, None, Put(1)));
    Go(s, 0, t);
  }

  lemma ZReadsNext(s: Store) returns (t: Store)
    requires s == TwoInX(Z(COMMITTED, Some(1), SignalRead), A(WAIT_TO_ABORT, None, Put(1))) && Reachable(s)
    ensures t == TwoInX(Z(COMMITTED, Some(1), Signal(1)), A(WAIT_TO_ABORT, None, Put(1))) && Reachable(t)
  {
    t := GoThree(s, 0, TwoInX(Z(COMMITTED, Some(1), Signal(1)), A(WAIT_TO_ABORT, None, Put(1))));
  }

  lemma ZAbortsA(s: Store) returns (t: Store)
    requires s == TwoInX(Z(COMMITTED, Some(1), Signal(1)), A(WAIT_TO_ABORT, None, Put(1))) && Reachable(s)
    ensures t == TwoInX(Z(COMMITTED, Some(1), Done), A(ABORTED, None, Put(1))) && Reachable(t)
  {
    t := GoThree(s, 0, TwoInX(Z(COMMITTED, Some(1), Done), A(ABORTED, None, Put(1))));
  }

  lemma BLinks(s: Store) returns (t: Store)
    requires s == TwoInX(Z(COMMITTED, Some(1), Done), A(ABORTED, None, Put(1))) && Reachable(s)
    ensures t == ZDone(B(CREATED, SelfOk)) && Reachable(t)
  {
    t := s;
    t := GoThree(t, 2, ZDone(B(CREATED, CheckPrev)));
    t := GoThree(t, 2, ZDone(B(CREATED, SelfOk)));
  }

  lemma BIsTold(s: Store) returns (t: Store)
    requires s == ZDone(B(CREATED, SelfOk)) && Reachable(s)
    ensures t == ZDone(B(CREATED_OK, Begin)) && Reachable(t)
  {
    t := GoThree(s, 2, ZDone(B(CREATED_OK, Begin)));
  }

  lemma BBegins(s: Store) returns (t: Store)
    requires s == ZDone(B(CREATED_OK, Begin)) && Reachable(s)
    ensures t == ZDone(B(INPROGRESS_OK, Put(0))) && Reachable(t)
  {
    t := GoThree(s, 2, ZDone(B(INPROGRESS_OK, Put(0))));
  }

  lemma BPutsY(s: Store) returns (t: Store)
    requires s == ZDone(B(INPROGRESS_OK, Put(0))) && Reachable(s)
    ensures t == OneInY(B(INPROGRESS_OK, AfterPut(0))) && Reachable(t)
  {
    t := s;
    t := GoThree(t, 2, ZDone(B(INPROGRESS_OK, PutNew(0))));
    t := GoThree(t, 2, OneInY(B(INPROGRESS_OK, AfterPut(0))));
  }

  /** While `b` is not in a table, this store is well-formed. */
  lemma OneInYWf(b: Record)
    requires |b.pairs| == 1 && (b.pc == AfterPut(0) || b.pc.Finish?)
    ensures Wf(OneInY(b))
  {
    ThreeWf(OneInY(b));
  }

  lemma BFinishes(s: Store) returns (t: Store)
    requires s == OneInY(B(INPROGRESS_OK, AfterPut(0))) && Reachable(s)
    ensures t == OneInY(B(INPROGRESS_OK, Finish(true))) && Reachable(t)
  {
    t := OneInY(B(INPROGRESS_OK, Finish(true)));
    OneInYWf(B(INPROGRESS_OK, AfterPut(0)));
    Go(s, 2, t);
  }

  lemma BCommits(s: Store) returns (t: Store)
    requires s == OneInY(B(INPROGRESS_OK, Finish(true))) && Reachable(s)
    ensures t == OneInY(B(COMMITTED, SignalRead)) && Reachable(t)
  {
    t := OneInY(B(COMMITTED, SignalRead));
    OneInYWf(B(INPROGRESS_OK, Finish(true)));
    Go(s, 2, t);
  }

  lemma APutsY(s: Store) returns (t: Store)
    requires s == OneInY(B(COMMITTED, SignalRead)) && Reachable(s)
    ensures t == LockedY() && Reachable(t)
  {
    assert YB[..0] == [] && InsertIndex(s.log, YB[..0], 445) == 0;
    assert InsertAt(YB, 0, Vte(1, Some("1"))) == YAB;
    t := GoThree(s, 1, LockedY());
  }

  /** `a` is aborted but still puts "y", where `b` has committed. */
  ghost predicate Dying(s: Store) {
    && Wf(s) && Enabled(s, 1) && |s.log| == 3
    && s.log[1].state == ABORTED && s.log[2].state == COMMITTED
    && Step(s, 1).halted
  }

  lemma DyingState(s: Store)
    requires s == LockedY()
    ensures Dying(s)
  {
    ThreeWf(s);
  }

  lemma ToLockedX() returns (s: Store)
    ensures s == LockedX(Z(INPROGRESS_OK, Some(1), Fwd(0, 0, 1)), A(INPROGRESS, None, Put(1))) && Reachable(s)
  {
    ThreeAppend();
    s := ALinks(NoTables(Z(CREATED, None, LinkPrev), A(CREATED, None, LinkPrev)));
    s := ABegins(s);
    s := APutsX(s);
    s := ZChecks(s);
    s := ZIsTold(s);
    s := ZBegins(s);
    s := ZPutsX(s);
  }

  lemma ToAborted() returns (s: Store)
    ensures s == TwoInX(Z(COMMITTED, Some(1), Done), A(ABORTED, None, Put(1))) && Reachable(s)
  {
    s := ToLockedX();
    s := ZScans(s);
    s := ZFailsA(s);
    s := ZTurns(s);
    s := ZLeavesX(s);
    s := ZFinishes(s);
    s := ZCommits(s);
    s := ZReadsNext(s);
    s := ZAbortsA(s);
  }

  lemma ToLockedY() returns (s: Store)
    ensures s == LockedY() && Reachable(s)
  {
    s := ToAborted();
    s := BLinks(s);
    s := BIsTold(s);
    s := BBegins(s);
    s := BPutsY(s);
    s := BFinishes(s);
    s := BCommits(s);
    s := APutsY(s);
  }

  /** The store once the aborted `a` has put "y" too. */
  function AbortedY(a: Record): Store {
    Three(Z(COMMITTED, Some(1), Done), a, B(CREATED, LinkPrev), map["x" := XZA, "y" := [Vte(1, Some("1"))]], map[])
  }

  lemma AbortedAPuts(tr: seq<Store>) returns (tr': seq<Store>)
    requires EchoRuns.RunTo(tr, TwoInX(Z(COMMITTED, Some(1), Done), A(ABORTED, None, Put(1))))
    ensures tr <= tr' && EchoRuns.RunTo(tr', TwoInX(Z(COMMITTED, Some(1), Done), A(ABORTED, None, PutNew(1))))
  {
    var s := TwoInX(Z(COMMITTED, Some(1), Done), A(ABORTED, None, Put(1)));
    ThreeWf(s);
    tr' := EchoRuns.Go(tr, s, 1, TwoInX(Z(COMMITTED, Some(1), Done), A(ABORTED, None, PutNew(1))));
  }

  lemma AbortedAPutsY(tr: seq<Store>) returns (tr': seq<Store>)
    requires EchoRuns.RunTo(tr, TwoInX(Z(COMMITTED, Some(1), Done), A(ABORTED, None, PutNew(1))))
    ensures tr <= tr' && EchoRuns.RunTo(tr', AbortedY(A(ABORTED, None, AfterPut(1))))
  {
    var s := TwoInX(Z(COMMITTED, Some(1), Done), A(ABORTED, None, PutNew(1)));
    ThreeWf(s);
    tr' := EchoRuns.Go(tr, s, 1, AbortedY(A(ABORTED, None, AfterPut(1))));
  }

  lemma SettledUpToA(s: Store)
    requires s == TwoInX(Z(COMMITTED, Some(1), Done), A(ABORTED, None, Put(1)))
    ensures SettledUpTo(s, 445) && Read(s, "y", 445) == None
  {
  }

  /** A read of a settled snapshot can change: at `m` every commit up to 445 is final and
      "y" has no table; later the aborted merger creates one, and a read finds its value. */
  lemma AbortedRead() returns (tr: seq<Store>, m: nat)
    ensures Run(tr) && m < |tr| && !tr[|tr| - 1].halted && SettledUpTo(tr[m], 445) && Read(tr[m], "y", 445) == None
    ensures var s := tr[|tr| - 1];
      && |s.log| == 3 && s.log[1].state == ABORTED && "y" !in s.locks && Unchecked(s, "y", 445)
      && Read(s, "y", 445) == Some(Vte(1, Some("1")))
  {
    var s := ToAborted();
    SettledUpToA(s);
    tr :| Run(tr) && tr[|tr| - 1] == s;
    m := |tr| - 1;
    tr := AbortedAPuts(tr);
    tr := AbortedAPutsY(tr);
    var t := AbortedY(A(ABORTED, None, AfterPut(1)));
    assert t.vts["y"] == [Vte(1, Some("1"))];
  }

  /** The die is real: in some reachable state the owner of an aborted record is
      about to scan onto a committed record, and its next step kills the run. */
  lemma DieIsReachable() returns (tr: seq<Store>)
    ensures Run(tr) && Dying(tr[|tr| - 1])
  {
    var s := ToLockedY();
    DyingState(s);
    tr :| Run(tr) && tr[|tr| - 1] == s;
  }
}
