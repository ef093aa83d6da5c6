/** What Echo's commit protocol guarantees in every run of any number of
    concurrent commits. */
module EchoTheorems {
  import opened CommitState
  import opened EchoProtocol
  import opened EchoInvariant
  import opened Wrappers

  /** Record `r` wrote a version of key `k`. */
  ghost predicate Wrote(s: Store, r: nat, k: Key) {
    k in s.vts && exists p :: 0 <= p < |s.vts[k]| && s.vts[k][p].rec == r
  }

  /** `x` lies in the snapshot range of the record. */
  predicate InRange(c: Record, x: nat) {
    c.begin < x <= c.end
  }

  // ---------------------------------------------------------------------------
  // Snapshot isolation
  // ---------------------------------------------------------------------------

  lemma CommittedPair(s: Store, k: Key, p: nat, q: nat)
    requires Good(s) && k in s.vts && p < q < |s.vts[k]|
    requires s.log[s.vts[k][p].rec].state == COMMITTED && s.log[s.vts[k][q].rec].state == COMMITTED
    requires s.vts[k][p].rec != s.vts[k][q].rec
    ensures s.log[s.vts[k][p].rec].end <= s.log[s.vts[k][q].rec].begin
  {
    assert PairOk(s, k, p, q);
    assert RecordOk(s, s.vts[k][p].rec) && RecordOk(s, s.vts[k][q].rec);
  }

  lemma IsolationInState(s: Store, a: nat, b: nat, k: Key)
    requires Good(s) && a < b < |s.log|
    requires s.log[a].state == COMMITTED && s.log[b].state == COMMITTED
    requires Wrote(s, a, k) && Wrote(s, b, k)
    ensures s.log[a].end <= s.log[b].begin
  {
    var p :| 0 <= p < |s.vts[k]| && s.vts[k][p].rec == a;
    var q :| 0 <= q < |s.vts[k]| && s.vts[k][q].rec == b;
    CommittedPair(s, k, p, q);
  }

  /** First committer wins: whatever the interleaving, committed records that
      wrote a common key have disjoint snapshot ranges. */
  lemma SnapshotIsolation(tr: seq<Store>, n: nat, a: nat, b: nat, k: Key)
    requires Run(tr) && n < |tr| && !tr[n].halted
    requires a < |tr[n].log| && b < |tr[n].log| && a != b
    requires tr[n].log[a].state == COMMITTED && tr[n].log[b].state == COMMITTED
    requires Wrote(tr[n], a, k) && Wrote(tr[n], b, k)
    ensures forall x: nat :: !(InRange(tr[n].log[a], x) && InRange(tr[n].log[b], x))
  {
    RunIsGood(tr, n);
    if a < b { IsolationInState(tr[n], a, b, k); } else { IsolationInState(tr[n], b, a, k); }
  }

  // ---------------------------------------------------------------------------
  // Commits become final in log order, and stay final
  // ---------------------------------------------------------------------------

  lemma {:induction false} FinalDownwards(s: Store, a: nat, b: nat)
    requires Good(s) && a <= b < |s.log| && Final(s.log[b].state)
    ensures Final(s.log[a].state)
    decreases b
  {
    if a < b {
      assert RecordOk(s, b);
      FinalDownwards(s, a, b - 1);
    }
  }

  /** What one owner step may do to the shared state. */
  ghost predicate StepEffect(s: Store, s': Store, r: nat) {
    && r < |s.log| == |s'.log| && s'.global == s.global
    && (forall x :: 0 <= x < |s.log| ==>
          && s'.log[x].begin == s.log[x].begin && s'.log[x].end == s.log[x].end
          && s'.log[x].pairs == s.log[x].pairs
          && (Final(s.log[x].state) ==> s'.log[x].state == s.log[x].state))
    && (s'.vts == s.vts ||
        (s'.log[r].state != COMMITTED && (s.log[r].pc.Put? || s.log[r].pc.PutNew?) &&
          TableEffect(s, s', r, s.log[r].pc.i)))
  }

  /** Pair `i` of `r` reaches the tables. */
  ghost predicate TableEffect(s: Store, s': Store, r: nat, i: nat) {
    && r < |s.log| && i < |s.log[r].pairs|
    && var k, e := s.log[r].pairs[i].key, Vte(r, s.log[r].pairs[i].value);
       if k in s.vts then exists idx: nat :: idx <= |s.vts[k]| && s'.vts == s.vts[k := InsertAt(s.vts[k], idx, e)]
       else s'.vts == s.vts[k := [e]]
  }

  lemma PutEffect(s: Store, r: nat, i: nat)
    requires Wf(s) && Enabled(s, r) && s.log[r].pc == Put(i) && RecordOk(s, r)
    ensures StepEffect(s, Step(s, r), r)
  {
    assert WfPc(s, r);
    var s' := Step(s, r);
    assert s' == StepPut(s, r, i);
    assert s'.log[r] == s.log[r].(pc := s'.log[r].pc);
    var k := s.log[r].pairs[i].key;
    if k in s.vts {
      var idx := InsertIndex(s.log, s.vts[k], s.log[r].end);
      assert s'.vts == s.vts[k := InsertAt(s.vts[k], idx, Vte(r, s.log[r].pairs[i].value))];
      assert TableEffect(s, s', r, i);
    }
  }

  lemma PutNewEffect(s: Store, r: nat, i: nat)
    requires Wf(s) && Enabled(s, r) && s.log[r].pc == PutNew(i) && RecordOk(s, r)
    ensures StepEffect(s, Step(s, r), r)
  {
    assert WfPc(s, r);
    var s' := Step(s, r);
    assert s'.log[r] == s.log[r].(pc := s'.log[r].pc);
    if s.log[r].pairs[i].key !in s.vts {
      assert TableEffect(s, s', r, i);
    }
  }

  lemma ScanEffect(s: Store, r: nat)
    requires Wf(s) && Enabled(s, r) && Scanning(s.log[r].pc) && !Step(s, r).halted
    ensures StepEffect(s, Step(s, r), r)
  {
    assert WfPc(s, r);
    if s.log[r].pc.Fwd? || s.log[r].pc.FwdLocked? { ForwardEffect(s, r); } else { BackwardEffect(s, r); }
  }

  lemma ForwardEffect(s: Store, r: nat)
    requires Wf(s) && Enabled(s, r) && (s.log[r].pc.Fwd? || s.log[r].pc.FwdLocked?) && !Step(s, r).halted
    ensures StepEffect(s, Step(s, r), r)
  {
    assert WfPc(s, r);
  }

  lemma BackwardEffect(s: Store, r: nat)
    requires Wf(s) && Enabled(s, r) && (s.log[r].pc.Back? || s.log[r].pc.BackRetest?)
    ensures StepEffect(s, Step(s, r), r)
  {
    assert WfPc(s, r);
  }

  /** `s'` differs from `s` in program counters and links, and in the state of
      `m`, which was not final unless it stayed the same. */
  lemma StateEffect(s: Store, s': Store, r: nat, m: nat)
    requires Quiet(s, s', r, m) && (Final(s.log[m].state) ==> s'.log[m].state == s.log[m].state)
    ensures StepEffect(s, s', r)
  {
  }

  lemma OwnStateEffect(s: Store, r: nat)
    requires Wf(s) && Around(s, r) && Enabled(s, r)
    requires s.log[r].pc.SelfOk? || s.log[r].pc.Begin? || s.log[r].pc.Finish?
    ensures StepEffect(s, Step(s, r), r)
  {
    match s.log[r].pc
    case SelfOk => SelfOkStep(s, r); StateEffect(s, Step(s, r), r, r);
    case Begin => BeginStep(s, r); StateEffect(s, Step(s, r), r, r);
    case Finish(_) => FinishStep(s, r); StateEffect(s, Step(s, r), r, r);
  }

  lemma SignalEffect(s: Store, r: nat, n: nat)
    requires Wf(s) && Around(s, r) && Enabled(s, r) && s.log[r].pc == Signal(n)
    ensures StepEffect(s, Step(s, r), r)
  {
    assert n == r + 1;
    SignalStep(s, r, n, SetPc(Apply(s, n, true, true), r, Done));
    StateEffect(s, Step(s, r), r, n);
  }

  /** The remaining steps change no state at all. */
  lemma StatelessEffect(s: Store, r: nat)
    requires Wf(s) && Around(s, r) && Enabled(s, r)
    requires s.log[r].pc.LinkPrev? || s.log[r].pc.CheckPrev? || s.log[r].pc.AfterPut? ||
             s.log[r].pc.Waiting? || s.log[r].pc.SignalRead?
    ensures StepEffect(s, Step(s, r), r)
  {
    assert WfPc(s, r);
    var s' := Step(s, r);
    assert s'.log[r] == s.log[r].(pc := s'.log[r].pc);
    StateEffect(s, s', r, r);
  }

  lemma StepHasEffect(s: Store, r: nat)
    requires Good(s) && Enabled(s, r) && !Step(s, r).halted
    ensures StepEffect(s, Step(s, r), r)
  {
    assert Around(s, r);
    match s.log[r].pc
    case SelfOk => OwnStateEffect(s, r);
    case Begin => OwnStateEffect(s, r);
    case Finish(_) => OwnStateEffect(s, r);
    case Signal(n) => SignalEffect(s, r, n);
    case Put(i) => PutEffect(s, r, i);
    case PutNew(i) => PutNewEffect(s, r, i);
    case Fwd(_, _, _) => ScanEffect(s, r);
    case FwdLocked(_, _, _) => ScanEffect(s, r);
    case Back(_, _, _) => ScanEffect(s, r);
    case BackRetest(_, _, _) => ScanEffect(s, r);
    case _ => StatelessEffect(s, r);
  }

  lemma NextKeepsFinal(s: Store, s': Store, x: nat)
    requires Good(s) && Next(s, s') && !s'.halted && x < |s.log| && Final(s.log[x].state)
    ensures x < |s'.log| && s'.log[x].state == s.log[x].state
  {
    if r :| Enabled(s, r) && s' == Step(s, r) {
      StepHasEffect(s, r);
    }
  }

  /** The final records are a prefix of the commit log in every reachable state. */
  lemma FinalInLogOrder(tr: seq<Store>, n: nat, a: nat, b: nat)
    requires Run(tr) && n < |tr| && !tr[n].halted
    requires a <= b < |tr[n].log| && Final(tr[n].log[b].state)
    ensures Final(tr[n].log[a].state)
  {
    RunIsGood(tr, n);
    FinalDownwards(tr[n], a, b);
  }

  lemma NotHaltedBefore(tr: seq<Store>, m: nat, n: nat)
    requires Run(tr) && m <= n < |tr| && !tr[n].halted
    ensures !tr[m].halted
    decreases n - m
  {
    if m < n {
      assert NextAt(tr, m);
    }
  }

  /** The last step of a run. */
  lemma RunNext(tr: seq<Store>, n: nat)
    requires Run(tr) && 0 < n < |tr| && !tr[n].halted
    ensures !tr[n - 1].halted && Good(tr[n - 1]) && Next(tr[n - 1], tr[n])
  {
    assert NextAt(tr, n - 1);
    NotHaltedBefore(tr, n - 1, n);
    RunIsGood(tr, n - 1);
  }

  /** COMMITTED and ABORTED are permanent in every run that does not halt. */
  lemma {:induction false} FinalIsPermanent(tr: seq<Store>, m: nat, n: nat, x: nat)
    requires Run(tr) && m <= n < |tr| && !tr[n].halted
    requires x < |tr[m].log| && Final(tr[m].log[x].state)
    ensures x < |tr[n].log| && tr[n].log[x].state == tr[m].log[x].state
    decreases n
  {
    if m < n {
      RunNext(tr, n);
      FinalIsPermanent(tr, m, n - 1, x);
      NextKeepsFinal(tr[n - 1], tr[n], x);
    }
  }

  // ---------------------------------------------------------------------------
  // Last committed versions
  // ---------------------------------------------------------------------------

  /** The entry may be read at snapshot `snap`. */
  predicate Readable(log: seq<Record>, e: Vte, snap: nat) {
    e.rec < |log| && log[e.rec].end <= snap && log[e.rec].state == COMMITTED
  }

  /** The last committed entry within `snap`. */
  function LastReadable(log: seq<Record>, vt: seq<Vte>, snap: nat): Option<Vte> {
    if |vt| == 0 then None
    else if Readable(log, vt[|vt| - 1], snap) then Some(vt[|vt| - 1])
    else LastReadable(log, vt[..|vt| - 1], snap)
  }

  function LastCommitted(s: Store, k: Key, snap: nat): Option<Vte> {
    if k in s.vts then LastReadable(s.log, s.vts[k], snap) else None
  }

  /** Every commit within `snap` is final. */
  ghost predicate SettledUpTo(s: Store, snap: nat) {
    snap < s.global && forall r :: 0 <= r < |s.log| && s.log[r].end <= snap ==> Final(s.log[r].state)
  }

  lemma {:induction false} LastReadableIs(log: seq<Record>, vt: seq<Vte>, snap: nat, p: nat)
    requires p < |vt| && Readable(log, vt[p], snap)
    requires forall q :: p < q < |vt| ==> !Readable(log, vt[q], snap)
    ensures LastReadable(log, vt, snap) == Some(vt[p])
    decreases |vt|
  {
    if p < |vt| - 1 {
      LastReadableIs(log, vt[..|vt| - 1], snap, p);
    }
  }

  lemma {:induction false} NothingReadable(log: seq<Record>, vt: seq<Vte>, snap: nat)
    requires forall q :: 0 <= q < |vt| ==> !Readable(log, vt[q], snap)
    ensures LastReadable(log, vt, snap) == None
    decreases |vt|
  {
    if |vt| > 0 {
      NothingReadable(log, vt[..|vt| - 1], snap);
    }
  }

  lemma {:induction false} LastReadablePosition(log: seq<Record>, vt: seq<Vte>, snap: nat) returns (p: nat)
    requires LastReadable(log, vt, snap).Some?
    ensures p < |vt| && Readable(log, vt[p], snap) && LastReadable(log, vt, snap) == Some(vt[p])
    ensures forall q :: p < q < |vt| ==> !Readable(log, vt[q], snap)
    decreases |vt|
  {
    if Readable(log, vt[|vt| - 1], snap) {
      p := |vt| - 1;
    } else {
      p := LastReadablePosition(log, vt[..|vt| - 1], snap);
    }
  }

  lemma {:induction false} AllUnreadable(log: seq<Record>, vt: seq<Vte>, snap: nat)
    requires LastReadable(log, vt, snap).None?
    ensures forall q :: 0 <= q < |vt| ==> !Readable(log, vt[q], snap)
    decreases |vt|
  {
    if |vt| > 0 {
      AllUnreadable(log, vt[..|vt| - 1], snap);
      assert forall q :: 0 <= q < |vt| - 1 ==> vt[..|vt| - 1][q] == vt[q];
    }
  }

  /** An unreadable entry changes no read, wherever it is inserted. */
  lemma {:induction false} InsertUnread(log: seq<Record>, vt: seq<Vte>, idx: nat, e: Vte, snap: nat)
    requires idx <= |vt| && !Readable(log, e, snap)
    ensures LastReadable(log, InsertAt(vt, idx, e), snap) == LastReadable(log, vt, snap)
    decreases |vt|
  {
    var w, n := InsertAt(vt, idx, e), |vt|;
    if idx == n {
      assert w[n] == e && w[..n] == vt;
    } else {
      assert w[n] == vt[n - 1] && w[..n] == InsertAt(vt[..n - 1], idx, e);
      InsertUnread(log, vt[..n - 1], idx, e, snap);
    }
  }

  lemma {:induction false} SameReads(log: seq<Record>, log': seq<Record>, vt: seq<Vte>, snap: nat)
    requires forall q :: 0 <= q < |vt| ==> (Readable(log, vt[q], snap) <==> Readable(log', vt[q], snap))
    ensures LastReadable(log, vt, snap) == LastReadable(log', vt, snap)
    decreases |vt|
  {
    if |vt| > 0 {
      SameReads(log, log', vt[..|vt| - 1], snap);
    }
  }

  lemma SameReadable(s: Store, s': Store, r: nat, e: Vte, snap: nat)
    requires StepEffect(s, s', r) && SettledUpTo(s, snap)
    ensures Readable(s.log, e, snap) <==> Readable(s'.log, e, snap)
  {
  }

  lemma TableKeepsReads(s: Store, s': Store, r: nat, i: nat, k: Key, snap: nat)
    requires TableEffect(s, s', r, i) && r < |s'.log| && s'.log[r].state != COMMITTED
    ensures LastCommitted(s', k, snap) == if k in s.vts then LastReadable(s'.log, s.vts[k], snap) else None
  {
    var l, e := s.log[r].pairs[i].key, Vte(r, s.log[r].pairs[i].value);
    if l == k {
      if k in s.vts {
        var idx: nat :| idx <= |s.vts[k]| && s'.vts == s.vts[k := InsertAt(s.vts[k], idx, e)];
        InsertUnread(s'.log, s.vts[k], idx, e, snap);
      } else {
        NothingReadable(s'.log, [e], snap);
      }
    }
  }

  lemma StepKeepsReads(s: Store, s': Store, r: nat, k: Key, snap: nat)
    requires StepEffect(s, s', r) && SettledUpTo(s, snap)
    ensures SettledUpTo(s', snap) && LastCommitted(s', k, snap) == LastCommitted(s, k, snap)
  {
    if k in s.vts {
      forall q | 0 <= q < |s.vts[k]|
        ensures Readable(s.log, s.vts[k][q], snap) <==> Readable(s'.log, s.vts[k][q], snap)
      {
        SameReadable(s, s', r, s.vts[k][q], snap);
      }
      SameReads(s.log, s'.log, s.vts[k], snap);
    }
    if s'.vts != s.vts {
      TableKeepsReads(s, s', r, s.log[r].pc.i, k, snap);
    }
  }

  lemma NextKeepsReads(s: Store, s': Store, k: Key, snap: nat)
    requires Good(s) && Next(s, s') && !s'.halted && SettledUpTo(s, snap)
    ensures SettledUpTo(s', snap) && LastCommitted(s', k, snap) == LastCommitted(s, k, snap)
  {
    if r :| Enabled(s, r) && s' == Step(s, r) {
      StepHasEffect(s, r);
      StepKeepsReads(s, s', r, k, snap);
    } else if k in s.vts {
      SameReads(s.log, s'.log, s.vts[k], snap);
    }
  }

  lemma RunStepKeepsReads(tr: seq<Store>, n: nat, k: Key, snap: nat)
    requires Run(tr) && 0 < n < |tr| && !tr[n].halted && SettledUpTo(tr[n - 1], snap)
    ensures !tr[n - 1].halted
    ensures SettledUpTo(tr[n], snap) && LastCommitted(tr[n], k, snap) == LastCommitted(tr[n - 1], k, snap)
  {
    RunNext(tr, n);
    NextKeepsReads(tr[n - 1], tr[n], k, snap);
  }

  /** Once every commit up to `snap` is final, no later step changes the last version
      committed within it, not even the inserts of mergers that were aborted. */
  lemma {:induction false} LastCommittedIsStable(tr: seq<Store>, m: nat, n: nat, k: Key, snap: nat)
    requires Run(tr) && m <= n < |tr| && !tr[n].halted
    requires SettledUpTo(tr[m], snap)
    ensures SettledUpTo(tr[n], snap) && LastCommitted(tr[n], k, snap) == LastCommitted(tr[m], k, snap)
    decreases n
  {
    if m < n {
      RunNext(tr, n);
      LastCommittedIsStable(tr, m, n - 1, k, snap);
      RunStepKeepsReads(tr, n, k, snap);
    }
  }

  /** There is none exactly when no record that ends within `snap` has committed a
      version of the key; otherwise it is a write of the last such record in the log. */
  lemma LastCommittedIs(tr: seq<Store>, n: nat, k: Key, snap: nat)
    requires Run(tr) && n < |tr| && !tr[n].halted
    ensures var s, read := tr[n], LastCommitted(tr[n], k, snap);
            && (read.None? <==>
                  forall b: nat :: b < |s.log| && s.log[b].state == COMMITTED && s.log[b].end <= snap ==>
                    !Wrote(s, b, k))
            && (read.Some? ==>
                  && Readable(s.log, read.value, snap)
                  && Pair(k, read.value.value) in s.log[read.value.rec].pairs
                  && forall b: nat ::
                       read.value.rec < b < |s.log| && s.log[b].state == COMMITTED && s.log[b].end <= snap ==>
                         !Wrote(s, b, k))
  {
    var s := tr[n];
    RunIsGood(tr, n);
    if k in s.vts {
      var vt := s.vts[k];
      if LastCommitted(s, k, snap).Some? {
        var p := LastReadablePosition(s.log, vt, snap);
        forall b: nat | vt[p].rec < b < |s.log| && s.log[b].state == COMMITTED && s.log[b].end <= snap
          ensures !Wrote(s, b, k)
        {
          assert forall q :: 0 <= q <= p ==> vt[q].rec <= vt[p].rec;
          assert forall q :: p < q < |vt| ==> !Readable(s.log, vt[q], snap);
        }
        assert Wrote(s, vt[p].rec, k);
      } else {
        AllUnreadable(s.log, vt, snap);
      }
    }
  }
}
