/** A run of Echo's commit protocol in which a record that has been aborted stops another
    commit: its abort becomes final between the two reads of the backward scan. */
module EchoRaceWitness {
  import opened CommitState
  import opened EchoProtocol
  import opened EchoTheorems
  import opened EchoConflicts
  import opened EchoAborts
  import opened EchoRuns
  import opened Wrappers

  const K: Key := "k"

  /** Three writers of K; the third begins where the first ends. */
  function Z(st: CommitState, next: Option<nat>, pc: Pc): Record {
    Record(0, 444, [Pair(K, Some("0"))], st, next, pc)
  }

  function A(st: CommitState, next: Option<nat>, pc: Pc): Record {
    Record(0, 445, [Pair(K, Some("1"))], st, next, pc)
  }

  function B(st: CommitState, pc: Pc): Record {
    Record(444, 446, [Pair(K, Some("2"))], st, None, pc)
  }

  const KA: seq<Vte> := [Vte(1, Some("1"))]
  const KZA: seq<Vte> := [Vte(0, Some("0")), Vte(1, Some("1"))]
  const KZAB: seq<Vte> := [Vte(0, Some("0")), Vte(1, Some("1")), Vte(2, Some("2"))]

  /** Nobody has put; `a` has; `z` scans; `z` and `a` have put; `b` scans. */
  function NoPut(z: Record, a: Record, b: Record): Store {
    Store([z, a, b], map[], map[], 447, false)
  }

  function OnePut(z: Record, a: Record, b: Record): Store {
    Store([z, a, b], map[K := KA], map[], 447, false)
  }

  function FirstScans(z: Record, a: Record, b: Record): Store {
    Store([z, a, b], map[K := KZA], map[K := 0], 447, false)
  }

  function TwoPut(z: Record, a: Record, b: Record): Store {
    Store([z, a, b], map[K := KZA], map[], 447, false)
  }

  function ThirdScans(z: Record, a: Record, b: Record): Store {
    Store([z, a, b], map[K := KZAB], map[K := 2], 447, false)
  }

  function Stopped(z: Record, a: Record, b: Record): Store {
    Store([z, a, b], map[K := KZAB], map[], 447, false)
  }

  lemma AllAppend() returns (tr: seq<Store>)
    ensures RunTo(tr, NoPut(Z(CREATED, None, LinkPrev), A(CREATED, None, LinkPrev), B(CREATED, LinkPrev)))
  {
    var z, a, b := Z(CREATED, None, LinkPrev), A(CREATED, None, LinkPrev), B(CREATED, LinkPrev);
    assert Run([Init]);
    tr := GoAppend([Init], Init, 0, z.pairs, Store([z], map[], map[], 445, false));
    tr := GoAppend(tr, Store([z], map[], map[], 445, false), 0, a.pairs, Store([z, a], map[], map[], 446, false));
    tr := GoAppend(tr, Store([z, a], map[], map[], 446, false), 444, b.pairs, NoPut(z, a, b));
  }

  /** `a` and `b` begin before `z` has looked at its predecessor. */
  lemma SecondBegins() returns (tr: seq<Store>)
    ensures RunTo(tr, NoPut(Z(CREATED, Some(1), LinkPrev), A(INPROGRESS, None, Put(0)), B(CREATED, LinkPrev)))
  {
    tr := AllAppend();
    var y, z, b := Z(CREATED, None, LinkPrev), Z(CREATED, Some(1), LinkPrev), B(CREATED, LinkPrev);
    tr := Go(tr, NoPut(y, A(CREATED, None, LinkPrev), b), 1, NoPut(z, A(CREATED, None, CheckPrev), b));
    tr := Go(tr, NoPut(z, A(CREATED, None, CheckPrev), b), 1, NoPut(z, A(CREATED, None, Begin), b));
    tr := Go(tr, NoPut(z, A(CREATED, None, Begin), b), 1, NoPut(z, A(INPROGRESS, None, Put(0)), b));
  }

  lemma ThirdBegins() returns (tr: seq<Store>)
    ensures RunTo(tr, NoPut(Z(CREATED, Some(1), LinkPrev), A(INPROGRESS, Some(2), Put(0)), B(INPROGRESS, Put(0))))
  {
    tr := SecondBegins();
    var z, a := Z(CREATED, Some(1), LinkPrev), A(INPROGRESS, Some(2), Put(0));
    tr := Go(tr, NoPut(z, A(INPROGRESS, None, Put(0)), B(CREATED, LinkPrev)), 2, NoPut(z, a, B(CREATED, CheckPrev)));
    tr := Go(tr, NoPut(z, a, B(CREATED, CheckPrev)), 2, NoPut(z, a, B(CREATED, Begin)));
    tr := Go(tr, NoPut(z, a, B(CREATED, Begin)), 2, NoPut(z, a, B(INPROGRESS, Put(0))));
  }

  lemma SecondPuts() returns (tr: seq<Store>)
    ensures RunTo(tr, OnePut(Z(CREATED, Some(1), LinkPrev), A(INPROGRESS, Some(2), AfterPut(0)), B(INPROGRESS, Put(0))))
  {
    tr := ThirdBegins();
    var z, b := Z(CREATED, Some(1), LinkPrev), B(INPROGRESS, Put(0));
    tr := Go(tr, NoPut(z, A(INPROGRESS, Some(2), Put(0)), b), 1, NoPut(z, A(INPROGRESS, Some(2), PutNew(0)), b));
    tr := Go(tr, NoPut(z, A(INPROGRESS, Some(2), PutNew(0)), b), 1, OnePut(z, A(INPROGRESS, Some(2), AfterPut(0)), b));
  }

  lemma FirstChecks() returns (tr: seq<Store>)
    ensures RunTo(tr, OnePut(Z(CREATED, Some(1), SelfOk), A(INPROGRESS, Some(2), AfterPut(0)), B(INPROGRESS, Put(0))))
  {
    tr := SecondPuts();
    var n, a, b := Some(1), A(INPROGRESS, Some(2), AfterPut(0)), B(INPROGRESS, Put(0));
    tr := Go(tr, OnePut(Z(CREATED, n, LinkPrev), a, b), 0, OnePut(Z(CREATED, n, CheckPrev), a, b));
    tr := Go(tr, OnePut(Z(CREATED, n, CheckPrev), a, b), 0, OnePut(Z(CREATED, n, SelfOk), a, b));
  }

  lemma FirstBegins() returns (tr: seq<Store>)
    ensures RunTo(tr, OnePut(Z(INPROGRESS_OK, Some(1), Put(0)), A(INPROGRESS, Some(2), AfterPut(0)),
                             B(INPROGRESS, Put(0))))
  {
    tr := FirstChecks();
    var n, a, b := Some(1), A(INPROGRESS, Some(2), AfterPut(0)), B(INPROGRESS, Put(0));
    tr := Go(tr, OnePut(Z(CREATED, n, SelfOk), a, b), 0, OnePut(Z(CREATED_OK, n, Begin), a, b));
    tr := Go(tr, OnePut(Z(CREATED_OK, n, Begin), a, b), 0, OnePut(Z(INPROGRESS_OK, n, Put(0)), a, b));
  }

  lemma FirstPuts() returns (tr: seq<Store>)
    ensures RunTo(tr, FirstScans(Z(INPROGRESS_OK, Some(1), Fwd(0, 0, 1)), A(INPROGRESS, Some(2), AfterPut(0)),
                                 B(INPROGRESS, Put(0))))
  {
    tr := FirstBegins();
    var n, a, b := Some(1), A(INPROGRESS, Some(2), AfterPut(0)), B(INPROGRESS, Put(0));
    var s := OnePut(Z(INPROGRESS_OK, n, Put(0)), a, b);
    assert KA[..0] == [] && InsertIndex(s.log, KA[..0], 444) == 0;
    assert InsertAt(KA, 0, Vte(0, Some("0"))) == KZA;
    tr := Go(tr, s, 0, FirstScans(Z(INPROGRESS_OK, n, Fwd(0, 0, 1)), a, b));
  }

  lemma FirstMeetsSecond() returns (tr: seq<Store>)
    ensures RunTo(tr, FirstScans(Z(INPROGRESS_OK, Some(1), FwdLocked(0, 0, 1)), A(INPROGRESS, Some(2), AfterPut(0)),
                                 B(INPROGRESS, Put(0))))
  {
    tr := FirstPuts();
    var n, a, b := Some(1), A(INPROGRESS, Some(2), AfterPut(0)), B(INPROGRESS, Put(0));
    tr := Go(tr, FirstScans(Z(INPROGRESS_OK, n, Fwd(0, 0, 1)), a, b), 0,
             FirstScans(Z(INPROGRESS_OK, n, FwdLocked(0, 0, 1)), a, b));
  }

  /** `z` fails `a`, whose predecessor it is. */
  lemma FirstFailsSecond() returns (tr: seq<Store>)
    ensures RunTo(tr, FirstScans(Z(INPROGRESS_OK, Some(1), Back(0, 0, 0)), A(WAIT_TO_ABORT, Some(2), AfterPut(0)),
                                 B(INPROGRESS, Put(0))))
  {
    tr := FirstMeetsSecond();
    var n, a, b := Some(1), A(WAIT_TO_ABORT, Some(2), AfterPut(0)), B(INPROGRESS, Put(0));
    tr := Go(tr, FirstScans(Z(INPROGRESS_OK, n, FwdLocked(0, 0, 1)), A(INPROGRESS, Some(2), AfterPut(0)), b), 0,
             FirstScans(Z(INPROGRESS_OK, n, Fwd(0, 0, 2)), a, b));
    tr := Go(tr, FirstScans(Z(INPROGRESS_OK, n, Fwd(0, 0, 2)), a, b), 0,
             FirstScans(Z(INPROGRESS_OK, n, Back(0, 0, 0)), a, b));
  }

  lemma FirstLeaves() returns (tr: seq<Store>)
    ensures RunTo(tr, TwoPut(Z(INPROGRESS_OK, Some(1), AfterPut(0)), A(WAIT_TO_ABORT, Some(2), AfterPut(0)),
                             B(INPROGRESS, Put(0))))
  {
    tr := FirstFailsSecond();
    var n, a, b := Some(1), A(WAIT_TO_ABORT, Some(2), AfterPut(0)), B(INPROGRESS, Put(0));
    tr := Go(tr, FirstScans(Z(INPROGRESS_OK, n, Back(0, 0, 0)), a, b), 0,
             TwoPut(Z(INPROGRESS_OK, n, AfterPut(0)), a, b));
  }

  lemma ThirdPuts() returns (tr: seq<Store>)
    ensures RunTo(tr, ThirdScans(Z(INPROGRESS_OK, Some(1), AfterPut(0)), A(WAIT_TO_ABORT, Some(2), AfterPut(0)),
                                 B(INPROGRESS, Back(0, 2, 2))))
  {
    tr := FirstLeaves();
    var z, a := Z(INPROGRESS_OK, Some(1), AfterPut(0)), A(WAIT_TO_ABORT, Some(2), AfterPut(0));
    assert InsertAt(KZA, 2, Vte(2, Some("2"))) == KZAB;
    tr := Go(tr, TwoPut(z, a, B(INPROGRESS, Put(0))), 2, ThirdScans(z, a, B(INPROGRESS, Fwd(0, 2, 3))));
    tr := Go(tr, ThirdScans(z, a, B(INPROGRESS, Fwd(0, 2, 3))), 2, ThirdScans(z, a, B(INPROGRESS, Back(0, 2, 2))));
  }

  lemma ThirdWf(z: Record, a: Record, b: Record)
    requires z.pc.Finish? && a.pc == AfterPut(0) && |a.pairs| == 1
    requires b.pc == BackRetest(0, 2, 2) && |b.pairs| == 1 && b.pairs[0].key == K
    ensures Wf(ThirdScans(z, a, b))
  {
    var s := ThirdScans(z, a, b);
    assert WfPc(s, 0) && WfPc(s, 1) && WfPc(s, 2);
  }

  /** `b` reads the state of `a` first. */
  lemma ThirdLooks() returns (tr: seq<Store>)
    ensures RunTo(tr, ThirdScans(Z(INPROGRESS_OK, Some(1), AfterPut(0)), A(WAIT_TO_ABORT, Some(2), AfterPut(0)),
                                 B(INPROGRESS, BackRetest(0, 2, 2))))
  {
    tr := ThirdPuts();
    var z, a := Z(INPROGRESS_OK, Some(1), AfterPut(0)), A(WAIT_TO_ABORT, Some(2), AfterPut(0));
    tr := Go(tr, ThirdScans(z, a, B(INPROGRESS, Back(0, 2, 2))), 2,
             ThirdScans(z, a, B(INPROGRESS, BackRetest(0, 2, 2))));
  }

  /** Meanwhile `z` commits. */
  lemma FirstFinishes() returns (tr: seq<Store>)
    ensures RunTo(tr, ThirdScans(Z(INPROGRESS_OK, Some(1), Finish(true)), A(WAIT_TO_ABORT, Some(2), AfterPut(0)),
                                 B(INPROGRESS, BackRetest(0, 2, 2))))
  {
    tr := ThirdLooks();
    var n, a, b := Some(1), A(WAIT_TO_ABORT, Some(2), AfterPut(0)), B(INPROGRESS, BackRetest(0, 2, 2));
    tr := Go(tr, ThirdScans(Z(INPROGRESS_OK, n, AfterPut(0)), a, b), 0,
             ThirdScans(Z(INPROGRESS_OK, n, Finish(true)), a, b));
  }

  lemma FirstCommits() returns (tr: seq<Store>)
    ensures RunTo(tr, ThirdScans(Z(COMMITTED, Some(1), SignalRead), A(WAIT_TO_ABORT, Some(2), AfterPut(0)),
                                 B(INPROGRESS, BackRetest(0, 2, 2))))
  {
    tr := FirstFinishes();
    var n, a, b := Some(1), A(WAIT_TO_ABORT, Some(2), AfterPut(0)), B(INPROGRESS, BackRetest(0, 2, 2));
    var s := ThirdScans(Z(INPROGRESS_OK, n, Finish(true)), a, b);
    ThirdWf(s.log[0], a, b);
    assert Transition(INPROGRESS_OK, false, true) == COMMITTED;
    tr := Go(tr, s, 0, ThirdScans(Z(COMMITTED, n, SignalRead), a, b));
  }

  lemma FirstReadsNext() returns (tr: seq<Store>)
    ensures RunTo(tr, ThirdScans(Z(COMMITTED, Some(1), Signal(1)), A(WAIT_TO_ABORT, Some(2), AfterPut(0)),
                                 B(INPROGRESS, BackRetest(0, 2, 2))))
  {
    tr := FirstCommits();
    var n, a, b := Some(1), A(WAIT_TO_ABORT, Some(2), AfterPut(0)), B(INPROGRESS, BackRetest(0, 2, 2));
    tr := Go(tr, ThirdScans(Z(COMMITTED, n, SignalRead), a, b), 0, ThirdScans(Z(COMMITTED, n, Signal(1)), a, b));
  }

  /** With its signal the abort of `a` is final. */
  lemma FirstSignals() returns (tr: seq<Store>)
    ensures RunTo(tr, ThirdScans(Z(COMMITTED, Some(1), Done), A(ABORTED, Some(2), AfterPut(0)),
                                 B(INPROGRESS, BackRetest(0, 2, 2))))
  {
    tr := FirstReadsNext();
    var n, a, b := Some(1), A(WAIT_TO_ABORT, Some(2), AfterPut(0)), B(INPROGRESS, BackRetest(0, 2, 2));
    tr := Go(tr, ThirdScans(Z(COMMITTED, n, Signal(1)), a, b), 0,
             ThirdScans(Z(COMMITTED, n, Done), A(ABORTED, Some(2), AfterPut(0)), b));
  }

  /** The only committed record does not overlap with the third one, the only overlapping
      one has been aborted, and still the last step of this run fails the third one. */
  lemma StoppedByAborted() returns (tr: seq<Store>)
    ensures Run(tr) && |tr| > 1 && !tr[|tr| - 1].halted
    ensures var s := tr[|tr| - 2];
      && Stops(s, tr[|tr| - 1], 2) && |s.log| == 3
      && s.log[0].state == COMMITTED && !Overlap(s.log[0], s.log[2])
      && Retests(s, 2, 1) && s.log[1].state == ABORTED
  {
    tr := FirstSignals();
    var z, a := Z(COMMITTED, Some(1), Done), A(ABORTED, Some(2), AfterPut(0));
    tr := Go(tr, ThirdScans(z, a, B(INPROGRESS, BackRetest(0, 2, 2))), 2, Stopped(z, a, B(INPROGRESS, Finish(false))));
  }
}
