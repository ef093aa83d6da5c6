/** Progress of Echo's commit protocol: no lost signal, no deadlock, and the
    only way a run can die. */
module EchoProgress {
  import opened CommitState
  import opened EchoProtocol
  import opened EchoInvariant
  import opened EchoTheorems

  // ---------------------------------------------------------------------------
  // No deadlock
  // ---------------------------------------------------------------------------

  lemma {:induction false} FirstUnfinished(s: Store, r: nat) returns (f: nat)
    requires r < |s.log| && !s.log[r].pc.Done?
    ensures f <= r && !s.log[f].pc.Done?
    ensures forall x :: 0 <= x < f ==> s.log[x].pc.Done?
    decreases r
  {
    if x :| 0 <= x < r && !s.log[x].pc.Done? {
      f := FirstUnfinished(s, x);
    } else {
      f := r;
    }
  }

  lemma SomeoneCanStep(s: Store, r: nat) returns (e: nat)
    requires Good(s) && !s.halted && r < |s.log| && !s.log[r].pc.Done?
    ensures Enabled(s, e)
  {
    var f := FirstUnfinished(s, r);
    assert WfPc(s, f) && RecordOk(s, f);
    e := f;
    if s.log[f].pc.Put? && !Enabled(s, f) {
      e := s.locks[s.log[f].pairs[s.log[f].pc.i].key];   // whoever holds the lock can go on
    }
  }

  /** While some owner is not finished, some owner has an enabled step: nobody
      waits forever in WAIT_TO_COMMIT or WAIT_TO_ABORT, or for a table lock. */
  lemma NoDeadlock(tr: seq<Store>, n: nat, r: nat) returns (e: nat)
    requires Run(tr) && n < |tr| && !tr[n].halted && r < |tr[n].log| && !tr[n].log[r].pc.Done?
    ensures Enabled(tr[n], e)
  {
    RunIsGood(tr, n);
    e := SomeoneCanStep(tr[n], r);
  }

  // ---------------------------------------------------------------------------
  // Every owner step uses up a bounded budget
  // ---------------------------------------------------------------------------

  /** Puts the owner has still to make. */
  function PairsLeft(c: Record): nat {
    var done :=
      match c.pc
      case LinkPrev => 0
      case CheckPrev => 0
      case SelfOk => 0
      case Begin => 0
      case Put(i) => i
      case PutNew(i) => i
      case Fwd(i, _, _) => i + 1
      case FwdLocked(i, _, _) => i + 1
      case Back(i, _, _) => i + 1
      case BackRetest(i, _, _) => i + 1
      case AfterPut(i) => i + 1
      case _ => |c.pairs|;
    if done <= |c.pairs| then |c.pairs| - done else 0
  }

  function TableLength(vts: map<Key, seq<Vte>>, c: Record, i: nat): nat {
    if i < |c.pairs| && c.pairs[i].key in vts then |vts[c.pairs[i].key]| else 0
  }

  /** Steps the owner can make before its next put, at most. */
  function StepsLeft(vts: map<Key, seq<Vte>>, c: Record): nat {
    match c.pc
    case LinkPrev => 14
    case CheckPrev => 13
    case SelfOk => 12
    case Begin => 11
    case Put(i) => if i < |c.pairs| && c.pairs[i].key in vts then 5 else 7
    case PutNew(_) => 6
    case Fwd(i, idx, j) => 11 + 2 * idx + 2 * (if j <= TableLength(vts, c, i) then TableLength(vts, c, i) - j else 0)
    case FwdLocked(i, idx, j) =>
      10 + 2 * idx + 2 * (if j <= TableLength(vts, c, i) then TableLength(vts, c, i) - j else 0)
    case Back(_, _, j) => 9 + 2 * j
    case BackRetest(_, _, j) => 8 + 2 * j
    case AfterPut(_) => 8
    case Finish(_) => 4
    case Waiting => 3
    case SignalRead => 2
    case Signal(_) => 1
    case Done => 0
  }

  function PutBudget(log: seq<Record>): nat {
    if |log| == 0 then 0 else PutBudget(log[..|log| - 1]) + PairsLeft(log[|log| - 1])
  }

  function StepBudget(vts: map<Key, seq<Vte>>, log: seq<Record>): nat {
    if |log| == 0 then 0 else StepBudget(vts, log[..|log| - 1]) + StepsLeft(vts, log[|log| - 1])
  }

  lemma {:induction false} PutBudgetChange(log: seq<Record>, log': seq<Record>, r: nat)
    requires |log'| == |log| && r < |log|
    requires forall x :: 0 <= x < |log| && x != r ==> PairsLeft(log'[x]) == PairsLeft(log[x])
    ensures PutBudget(log') - PutBudget(log) == PairsLeft(log'[r]) - PairsLeft(log[r])
    decreases |log|
  {
    var n := |log| - 1;
    if r < n {
      PutBudgetChange(log[..n], log'[..n], r);
    } else {
      PutBudgetSame(log[..n], log'[..n]);
    }
  }

  lemma {:induction false} PutBudgetSame(log: seq<Record>, log': seq<Record>)
    requires |log'| == |log|
    requires forall x :: 0 <= x < |log| ==> PairsLeft(log'[x]) == PairsLeft(log[x])
    ensures PutBudget(log') == PutBudget(log)
    decreases |log|
  {
    if |log| > 0 {
      PutBudgetSame(log[..|log| - 1], log'[..|log| - 1]);
    }
  }

  lemma {:induction false} StepBudgetChange(vts: map<Key, seq<Vte>>, log: seq<Record>, log': seq<Record>, r: nat)
    requires |log'| == |log| && r < |log|
    requires forall x :: 0 <= x < |log| && x != r ==> StepsLeft(vts, log'[x]) == StepsLeft(vts, log[x])
    ensures StepBudget(vts, log') - StepBudget(vts, log) == StepsLeft(vts, log'[r]) - StepsLeft(vts, log[r])
    decreases |log|
  {
    var n := |log| - 1;
    if r < n {
      StepBudgetChange(vts, log[..n], log'[..n], r);
    } else {
      StepBudgetSame(vts, log[..n], log'[..n]);
    }
  }

  lemma {:induction false} StepBudgetSame(vts: map<Key, seq<Vte>>, log: seq<Record>, log': seq<Record>)
    requires |log'| == |log|
    requires forall x :: 0 <= x < |log| ==> StepsLeft(vts, log'[x]) == StepsLeft(vts, log[x])
    ensures StepBudget(vts, log') == StepBudget(vts, log)
    decreases |log|
  {
    if |log| > 0 {
      StepBudgetSame(vts, log[..|log| - 1], log'[..|log| - 1]);
    }
  }

  /** The owner's own budget goes down, and nobody else's program point moves. */
  ghost predicate Advances(s: Store, s': Store, r: nat) {
    && r < |s.log| == |s'.log|
    && (forall x :: 0 <= x < |s.log| && x != r ==>
          s'.log[x].pc == s.log[x].pc && s'.log[x].pairs == s.log[x].pairs)
    && (|| PairsLeft(s'.log[r]) < PairsLeft(s.log[r])
        || (&& PairsLeft(s'.log[r]) == PairsLeft(s.log[r]) && s'.vts == s.vts
            && StepsLeft(s.vts, s'.log[r]) < StepsLeft(s.vts, s.log[r])))
  }

  lemma FwdAdvances(s: Store, r: nat)
    requires Wf(s) && Enabled(s, r) && s.log[r].pc.Fwd? && !Step(s, r).halted
    ensures Advances(s, Step(s, r), r)
  {
    assert WfPc(s, r);
    var c := s.log[r];
    assert Step(s, r) == StepFwd(s, r, c.pc.i, c.pc.idx, c.pc.j);
  }

  lemma FwdLockedAdvances(s: Store, r: nat)
    requires Wf(s) && Enabled(s, r) && s.log[r].pc.FwdLocked? && !Step(s, r).halted
    ensures Advances(s, Step(s, r), r)
  {
    assert WfPc(s, r);
    var c := s.log[r];
    assert Step(s, r) == StepFwdLocked(s, r, c.pc.i, c.pc.idx, c.pc.j);
  }

  lemma BackAdvances(s: Store, r: nat)
    requires Wf(s) && Enabled(s, r) && (s.log[r].pc.Back? || s.log[r].pc.BackRetest?)
    ensures Advances(s, Step(s, r), r)
  {
    assert WfPc(s, r);
    var s' := Step(s, r);
    match s.log[r].pc
    case Back(i, idx, j) => assert s' == StepBack(s, r, i, idx, j);
    case BackRetest(i, idx, j) => assert s' == StepBackRetest(s, r, i, idx, j);
  }

  lemma PutAdvances(s: Store, r: nat)
    requires Wf(s) && Enabled(s, r) && (s.log[r].pc.Put? || s.log[r].pc.PutNew?)
    ensures Advances(s, Step(s, r), r)
  {
    assert WfPc(s, r);
  }

  lemma EarlyAdvances(s: Store, r: nat)
    requires Wf(s) && Enabled(s, r) && !Step(s, r).halted
    requires s.log[r].pc.LinkPrev? || s.log[r].pc.CheckPrev? || s.log[r].pc.SelfOk? || s.log[r].pc.Begin?
    ensures Advances(s, Step(s, r), r)
  {
  }

  lemma LateAdvances(s: Store, r: nat)
    requires Wf(s) && Enabled(s, r) && !Step(s, r).halted
    requires s.log[r].pc.AfterPut? || s.log[r].pc.Finish? || s.log[r].pc.Waiting? ||
             s.log[r].pc.SignalRead? || s.log[r].pc.Signal?
    ensures Advances(s, Step(s, r), r)
  {
    assert WfPc(s, r);
  }

  lemma StepAdvances(s: Store, r: nat)
    requires Wf(s) && Enabled(s, r) && !Step(s, r).halted
    ensures Advances(s, Step(s, r), r)
  {
    match s.log[r].pc
    case Fwd(_, _, _) => FwdAdvances(s, r);
    case FwdLocked(_, _, _) => FwdLockedAdvances(s, r);
    case Back(_, _, _) => BackAdvances(s, r);
    case BackRetest(_, _, _) => BackAdvances(s, r);
    case Put(_) => PutAdvances(s, r);
    case PutNew(_) => PutAdvances(s, r);
    case LinkPrev => EarlyAdvances(s, r);
    case CheckPrev => EarlyAdvances(s, r);
    case SelfOk => EarlyAdvances(s, r);
    case Begin => EarlyAdvances(s, r);
    case _ => LateAdvances(s, r);
  }

  lemma AdvanceUsesBudget(s: Store, s': Store, r: nat)
    requires Advances(s, s', r)
    ensures || PutBudget(s'.log) < PutBudget(s.log)
            || (PutBudget(s'.log) == PutBudget(s.log) && StepBudget(s'.vts, s'.log) < StepBudget(s.vts, s.log))
  {
    PutBudgetChange(s.log, s'.log, r);
    if PairsLeft(s'.log[r]) == PairsLeft(s.log[r]) {
      StepBudgetChange(s.vts, s.log, s'.log, r);
    }
  }

  /** No owner steps forever: each of its steps lowers (puts to make, steps to
      make before the next put) lexicographically. */
  lemma OwnerStepsAreBounded(s: Store, r: nat)
    requires Wf(s) && Enabled(s, r) && !Step(s, r).halted
    ensures var s' := Step(s, r);
            || PutBudget(s'.log) < PutBudget(s.log)
            || (PutBudget(s'.log) == PutBudget(s.log) && StepBudget(s'.vts, s'.log) < StepBudget(s.vts, s.log))
  {
    StepAdvances(s, r);
    AdvanceUsesBudget(s, Step(s, r), r);
  }

  /** Owner steps alone lead from `s` to the last state of `path`. */
  ghost predicate OwnersRun(s: Store, path: seq<nat>, s': Store)
    decreases |path|
  {
    if |path| == 0 then s' == s
    else Wf(s) && Enabled(s, path[0]) && OwnersRun(Step(s, path[0]), path[1..], s')
  }

  lemma {:induction false} FinishFrom(s: Store) returns (path: seq<nat>, s': Store)
    requires Good(s)
    ensures OwnersRun(s, path, s')
    ensures s'.halted || (Good(s') && forall r :: 0 <= r < |s'.log| ==> s'.log[r].pc.Done? && Final(s'.log[r].state))
    decreases PutBudget(s.log), StepBudget(s.vts, s.log)
  {
    if s.halted {
      path, s' := [], s;
    } else if r: nat :| r < |s.log| && !s.log[r].pc.Done? {
      var e := SomeoneCanStep(s, r);
      var t := Step(s, e);
      if t.halted {
        path, s' := [e], t;
      } else {
        StepKeepsGood(s, e);
        OwnerStepsAreBounded(s, e);
        var rest;
        rest, s' := FinishFrom(t);
        path := [e] + rest;
      }
    } else {
      path, s' := [], s;
      forall r: nat | r < |s.log| ensures s.log[r].pc.Done? && Final(s.log[r].state) {
        assert RecordOk(s, r);
      }
    }
  }

  lemma {:induction false} OwnersRunKeepsGood(s: Store, path: seq<nat>, s': Store)
    requires Good(s) && OwnersRun(s, path, s') && !s'.halted
    ensures Good(s')
    decreases |path|
  {
    if |path| > 0 {
      var t := Step(s, path[0]);
      assert |path[1..]| > 0 ==> Enabled(t, path[1..][0]);
      StepKeepsGood(s, path[0]);
      OwnersRunKeepsGood(t, path[1..], s');
    }
  }

  lemma StuckIsFinal(s: Store, r: nat)
    requires Good(s) && !s.halted && (forall e: nat :: !Enabled(s, e)) && r < |s.log|
    ensures Final(s.log[r].state)
  {
    assert RecordOk(s, r);
    if !s.log[r].pc.Done? {
      var e := SomeoneCanStep(s, r);
    }
  }

  /** From any state of a run the owners can go on until every record is final, or
      the run dies. */
  lemma OwnersFinish(tr: seq<Store>, n: nat) returns (path: seq<nat>, s': Store)
    requires Run(tr) && n < |tr| && !tr[n].halted
    ensures OwnersRun(tr[n], path, s')
    ensures s'.halted || forall r :: 0 <= r < |s'.log| ==> s'.log[r].pc.Done? && Final(s'.log[r].state)
  {
    RunIsGood(tr, n);
    path, s' := FinishFrom(tr[n]);
  }

  /** Whatever the schedule, owners that cannot go on have made every record final;
      by OwnerStepsAreBounded they do come to such a state. */
  lemma StuckMeansFinal(tr: seq<Store>, n: nat, path: seq<nat>, s': Store, r: nat)
    requires Run(tr) && n < |tr| && !tr[n].halted && OwnersRun(tr[n], path, s') && !s'.halted
    requires (forall e: nat :: !Enabled(s', e)) && r < |s'.log|
    ensures Final(s'.log[r].state)
  {
    RunIsGood(tr, n);
    OwnersRunKeepsGood(tr[n], path, s');
    StuckIsFinal(s', r);
  }

  // ---------------------------------------------------------------------------
  // The only die
  // ---------------------------------------------------------------------------

  lemma DyingScan(s: Store, r: nat) returns (m: nat)
    requires Wf(s) && SourceOk(s) && RecordsOk(s)
    requires Enabled(s, r) && Scanning(s.log[r].pc) && Step(s, r).halted
    requires WfPc(s, r) && ScansAt(s, r, ScanKey(s.log[r]), s.log[r].pc.idx)
    ensures s.log[r].pc.Fwd? || s.log[r].pc.FwdLocked?
    ensures s.log[r].pc.j < |s.vts[ScanKey(s.log[r])]|
    ensures m == s.vts[ScanKey(s.log[r])][s.log[r].pc.j].rec
    ensures r < m < |s.log| && s.log[m].state == COMMITTED
  {
    DyingPc(s, r);
    m := s.vts[ScanKey(s.log[r])][s.log[r].pc.j].rec;
    assert RecordOk(s, m) && Started(s.log[m].pc);
    FailedStarted(s.log[m]);
  }

  /** Failing a record whose merge has begun kills it unless it has committed. */
  lemma FailedStarted(c: Record)
    requires StateOk(c) && Started(c.pc)
    ensures c.state == COMMITTED || Dead(Transition(c.state, false, false))
  {
  }

  lemma DyingPc(s: Store, r: nat)
    requires Wf(s) && Enabled(s, r) && Scanning(s.log[r].pc) && Step(s, r).halted && WfPc(s, r)
    requires ScansAt(s, r, ScanKey(s.log[r]), s.log[r].pc.idx)
    ensures s.log[r].pc.Fwd? || s.log[r].pc.FwdLocked?
    ensures s.log[r].pc.j < |s.vts[ScanKey(s.log[r])]|
    ensures var m := s.vts[ScanKey(s.log[r])][s.log[r].pc.j].rec;
      s.log[m].state == COMMITTED || !Dead(Transition(s.log[m].state, false, false))
  {
  }

  lemma OnlyAbortedMergersDie(s: Store, r: nat)
    requires Good(s) && Enabled(s, r) && Step(s, r).halted
    ensures s.log[r].pc.Fwd? || s.log[r].pc.FwdLocked?
    ensures WfPc(s, r) && s.log[r].pc.j < |s.vts[ScanKey(s.log[r])]|
    ensures s.log[s.vts[ScanKey(s.log[r])][s.log[r].pc.j].rec].state == COMMITTED
    ensures s.log[r].state == ABORTED
  {
    assert WfPc(s, r);
    if Scanning(s.log[r].pc) {
      ScanFacts(s, r);
      var m := DyingScan(s, r);
      FinalDownwards(s, r, m);
      assert RecordOk(s, r);
    } else if !s.log[r].pc.LinkPrev? && !s.log[r].pc.Put? && !s.log[r].pc.PutNew? {
      OutsideStep(s, r);
    }
  }

  /** The forward scan of the owner of `r` stands at a committed record. */
  predicate OntoCommitted(s: Store, r: nat)
    requires Wf(s) && r < |s.log|
  {
    var c := s.log[r];
    assert WfPc(s, r);
    (c.pc.Fwd? || c.pc.FwdLocked?) && c.pc.j < |s.vts[ScanKey(c)]| &&
      s.log[s.vts[ScanKey(c)][c.pc.j].rec].state == COMMITTED
  }

  /** A run dies in one way only: an owner's scan stands at a committed record, and
      then that owner's own record is aborted already. */
  lemma DiesExactlyOnCommitted(tr: seq<Store>, n: nat, r: nat)
    requires Run(tr) && n < |tr| && Enabled(tr[n], r)
    ensures Wf(tr[n]) && (Step(tr[n], r).halted <==> OntoCommitted(tr[n], r))
    ensures OntoCommitted(tr[n], r) ==> tr[n].log[r].state == ABORTED
  {
    var s := tr[n];
    RunIsGood(tr, n);
    assert WfPc(s, r);
    if Step(s, r).halted {
      OnlyAbortedMergersDie(s, r);
    }
    if OntoCommitted(s, r) {
      assert Step(s, r).halted;
      OnlyAbortedMergersDie(s, r);
    }
  }
}
