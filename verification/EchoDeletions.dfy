/** The one way in which Echo loses a committed write: the deletion of a key that has
    no version table yet is ignored (`kp_put_master` returns 2). */
module EchoDeletions {
  import opened CommitState
  import opened EchoProtocol
  import opened EchoInvariant
  import opened EchoProgress
  import opened EchoTheorems
  import opened Wrappers

  /** The next step of the owner of `r` ignores pair `i`, a deletion. */
  predicate Ignores(s: Store, r: nat, i: nat) {
    && r < |s.log| && i < |s.log[r].pairs| && s.log[r].pc == Put(i)
    && s.log[r].pairs[i].value.None? && s.log[r].pairs[i].key !in s.vts
  }

  /** Before moment `n`, the owner of `r` has ignored pair `i`. */
  ghost predicate Ignored(tr: seq<Store>, n: nat, r: nat, i: nat) {
    exists m :: 0 <= m < n && m + 1 < |tr| && IgnoredAt(tr, m, r, i)
  }

  ghost predicate IgnoredAt(tr: seq<Store>, m: nat, r: nat, i: nat)
    requires m + 1 < |tr|
  {
    Ignores(tr[m], r, i) && Wf(tr[m]) && Enabled(tr[m], r) && tr[m + 1] == Step(tr[m], r)
  }

  /** The owner has ignored a deletion of the key. */
  ghost predicate LostDelete(tr: seq<Store>, n: nat, r: nat, k: Key)
    requires n < |tr| && r < |tr[n].log|
  {
    exists i :: 0 <= i < |tr[n].log[r].pairs| && tr[n].log[r].pairs[i] == Pair(k, None) && Ignored(tr, n, r, i)
  }

  // ---------------------------------------------------------------------------
  // One step
  // ---------------------------------------------------------------------------

  /** A step moves only its own owner, and nobody comes back to life. */
  ghost predicate OthersStay(s: Store, s': Store, r: nat) {
    && |s'.log| == |s.log|
    && forall x :: 0 <= x < |s.log| && x != r ==>
         && s'.log[x].pc == s.log[x].pc && s'.log[x].pairs == s.log[x].pairs
         && (Dead(s.log[x].state) ==> Dead(s'.log[x].state))
  }

  lemma OthersPut(s: Store, r: nat)
    requires Wf(s) && Enabled(s, r) && (s.log[r].pc.Put? || s.log[r].pc.PutNew?)
    ensures OthersStay(s, Step(s, r), r)
  {
    assert WfPc(s, r);
  }

  lemma OthersForward(s: Store, r: nat)
    requires Wf(s) && Enabled(s, r) && (s.log[r].pc.Fwd? || s.log[r].pc.FwdLocked?)
    ensures OthersStay(s, Step(s, r), r)
  {
    assert WfPc(s, r);
    match s.log[r].pc
    case Fwd(i, idx, j) => assert Step(s, r) == StepFwd(s, r, i, idx, j);
    case FwdLocked(i, idx, j) => assert Step(s, r) == StepFwdLocked(s, r, i, idx, j);
  }

  lemma OthersBackward(s: Store, r: nat)
    requires Wf(s) && Enabled(s, r) && (s.log[r].pc.Back? || s.log[r].pc.BackRetest?)
    ensures OthersStay(s, Step(s, r), r)
  {
    assert WfPc(s, r);
  }

  lemma OthersEarly(s: Store, r: nat)
    requires Wf(s) && Enabled(s, r)
    requires s.log[r].pc.LinkPrev? || s.log[r].pc.CheckPrev? || s.log[r].pc.SelfOk? || s.log[r].pc.Begin?
    ensures OthersStay(s, Step(s, r), r)
  {
    assert WfPc(s, r);
  }

  lemma OthersLate(s: Store, r: nat)
    requires Wf(s) && Enabled(s, r)
    requires s.log[r].pc.AfterPut? || s.log[r].pc.Finish? || s.log[r].pc.Waiting? || s.log[r].pc.SignalRead? ||
      s.log[r].pc.Signal?
    ensures OthersStay(s, Step(s, r), r)
  {
    assert WfPc(s, r);
  }

  lemma OthersDo(s: Store, r: nat)
    requires Wf(s) && Enabled(s, r)
    ensures OthersStay(s, Step(s, r), r)
  {
    match s.log[r].pc
    case Put(_) => OthersPut(s, r);
    case PutNew(_) => OthersPut(s, r);
    case Fwd(_, _, _) => OthersForward(s, r);
    case FwdLocked(_, _, _) => OthersForward(s, r);
    case Back(_, _, _) => OthersBackward(s, r);
    case BackRetest(_, _, _) => OthersBackward(s, r);
    case LinkPrev => OthersEarly(s, r);
    case CheckPrev => OthersEarly(s, r);
    case SelfOk => OthersEarly(s, r);
    case Begin => OthersEarly(s, r);
    case _ => OthersLate(s, r);
  }

  /** The pairs this step has processed are in their tables or ignored. */
  ghost predicate Progress(s: Store, s': Store, r: nat)
    requires r < |s.log| && r < |s'.log|
  {
    forall i :: Processed(s.log[r]) <= i < Processed(s'.log[r]) && i < |s.log[r].pairs| ==>
      InTable(s', r, s.log[r].pairs[i]) || Ignores(s, r, i)
  }

  lemma PutProgress(s: Store, r: nat, i: nat)
    requires Good(s) && Enabled(s, r) && s.log[r].pc == Put(i)
    ensures r < |Step(s, r).log| && Progress(s, Step(s, r), r)
  {
    assert WfPc(s, r);
    var s' := Step(s, r);
    assert s' == StepPut(s, r, i);
    var p := s.log[r].pairs[i];
    if p.key in s.vts {
      var idx := InsertIndex(s.log, s.vts[p.key], s.log[r].end);
      assert s'.vts[p.key][idx] == Vte(r, p.value);
    }
  }

  lemma PutNewProgress(s: Store, r: nat, i: nat)
    requires Good(s) && Enabled(s, r) && s.log[r].pc == PutNew(i)
    ensures r < |Step(s, r).log| && Progress(s, Step(s, r), r)
  {
    assert WfPc(s, r);
    var s' := Step(s, r);
    assert s' == StepPutNew(s, r, i);
    var p := s.log[r].pairs[i];
    if p.key !in s.vts { assert s'.vts[p.key][0] == Vte(r, p.value); }
  }

  lemma ForwardProgress(s: Store, r: nat)
    requires Wf(s) && Enabled(s, r) && (s.log[r].pc.Fwd? || s.log[r].pc.FwdLocked?)
    ensures r < |Step(s, r).log| && Progress(s, Step(s, r), r)
  {
    assert WfPc(s, r);
    match s.log[r].pc
    case Fwd(i, idx, j) => assert Step(s, r) == StepFwd(s, r, i, idx, j);
    case FwdLocked(i, idx, j) => assert Step(s, r) == StepFwdLocked(s, r, i, idx, j);
  }

  lemma BackwardProgress(s: Store, r: nat)
    requires Wf(s) && Enabled(s, r) && (s.log[r].pc.Back? || s.log[r].pc.BackRetest?)
    ensures r < |Step(s, r).log| && Progress(s, Step(s, r), r)
  {
    assert WfPc(s, r);
  }

  lemma EarlyProgress(s: Store, r: nat)
    requires Wf(s) && Enabled(s, r) && !Step(s, r).halted && StateOk(s.log[r])
    requires s.log[r].pc.LinkPrev? || s.log[r].pc.CheckPrev? || s.log[r].pc.SelfOk? || s.log[r].pc.Begin?
    ensures r < |Step(s, r).log| && Progress(s, Step(s, r), r)
  {
    assert WfPc(s, r);
  }

  lemma LateProgress(s: Store, r: nat)
    requires Wf(s) && Enabled(s, r) && !Step(s, r).halted && StateOk(s.log[r])
    requires s.log[r].pc.AfterPut? || s.log[r].pc.Finish? || s.log[r].pc.Waiting? || s.log[r].pc.SignalRead?
    ensures r < |Step(s, r).log| && Progress(s, Step(s, r), r)
  {
    assert WfPc(s, r);
  }

  lemma SignalProgress(s: Store, r: nat, n: nat)
    requires Wf(s) && Enabled(s, r) && s.log[r].pc == Signal(n) && n != r
    ensures r < |Step(s, r).log| && Progress(s, Step(s, r), r)
  {
    assert WfPc(s, r);
  }

  lemma StepProgress(s: Store, r: nat)
    requires Good(s) && Enabled(s, r) && !Step(s, r).halted
    ensures r < |Step(s, r).log| && Progress(s, Step(s, r), r)
  {
    assert RecordOk(s, r);
    match s.log[r].pc
    case Put(i) => PutProgress(s, r, i);
    case PutNew(i) => PutNewProgress(s, r, i);
    case Fwd(_, _, _) => ForwardProgress(s, r);
    case FwdLocked(_, _, _) => ForwardProgress(s, r);
    case Back(_, _, _) => BackwardProgress(s, r);
    case BackRetest(_, _, _) => BackwardProgress(s, r);
    case LinkPrev => EarlyProgress(s, r);
    case CheckPrev => EarlyProgress(s, r);
    case SelfOk => EarlyProgress(s, r);
    case Begin => EarlyProgress(s, r);
    case Signal(n) => SignalProgress(s, r, n);
    case _ => LateProgress(s, r);
  }

  lemma TableStays(s: Store, s': Store, r: nat, x: nat, p: Pair)
    requires StepEffect(s, s', r) && InTable(s, x, p)
    ensures InTable(s', x, p)
  {
    var e := Vte(x, p.value);
    if s'.vts != s.vts {
      var i := s.log[r].pc.i;
      var k, n := s.log[r].pairs[i].key, Vte(r, s.log[r].pairs[i].value);
      if k == p.key {
        var idx: nat :| idx <= |s.vts[k]| && s'.vts == s.vts[k := InsertAt(s.vts[k], idx, n)];
        var q :| 0 <= q < |s.vts[k]| && s.vts[k][q] == e;
        assert s'.vts[k][if q < idx then q else q + 1] == e;
      }
    }
  }

  // ---------------------------------------------------------------------------
  // Runs
  // ---------------------------------------------------------------------------

  lemma IgnoredLater(tr: seq<Store>, n: nat, r: nat, i: nat)
    requires 0 < n < |tr| && Ignored(tr, n - 1, r, i)
    ensures Ignored(tr, n, r, i)
  {
  }

  /** What one step means for pair `i` of `r`, processed after it. */
  ghost predicate PairStep(s: Store, s': Store, r: nat, i: nat)
    requires r < |s'.log| && i < |s'.log[r].pairs|
  {
    && r < |s.log| && s.log[r].pairs == s'.log[r].pairs
    && var p := s'.log[r].pairs[i];
       || (i < Processed(s.log[r]) && (InTable(s, r, p) ==> InTable(s', r, p)))
       || InTable(s', r, p)
       || (Ignores(s, r, i) && Wf(s) && Enabled(s, r) && s' == Step(s, r))
  }

  lemma OwnerPairStep(s: Store, q: nat, r: nat, i: nat)
    requires Good(s) && Enabled(s, q) && !Step(s, q).halted && r < |Step(s, q).log|
    requires i < Processed(Step(s, q).log[r]) && i < |Step(s, q).log[r].pairs|
    ensures PairStep(s, Step(s, q), r, i)
  {
    StepHasEffect(s, q);
    StepProgress(s, q);
    OthersDo(s, q);
    var p := s.log[r].pairs[i];
    if InTable(s, r, p) { TableStays(s, Step(s, q), q, r, p); }
  }

  lemma NextPairStep(s: Store, s': Store, r: nat, i: nat)
    requires Good(s) && Next(s, s') && !s'.halted && r < |s'.log|
    requires i < Processed(s'.log[r]) && i < |s'.log[r].pairs|
    ensures PairStep(s, s', r, i)
  {
    if q :| Enabled(s, q) && s' == Step(s, q) {
      OwnerPairStep(s, q, r, i);
    }
  }

  /** Every processed write is in its table, or was a deletion that was ignored. */
  lemma {:induction false} WrittenOrIgnored(tr: seq<Store>, n: nat, r: nat, i: nat)
    requires Run(tr) && n < |tr| && !tr[n].halted && r < |tr[n].log|
    requires i < Processed(tr[n].log[r]) && i < |tr[n].log[r].pairs|
    ensures InTable(tr[n], r, tr[n].log[r].pairs[i]) || (tr[n].log[r].pairs[i].value.None? && Ignored(tr, n, r, i))
    decreases n
  {
    if n > 0 {
      RunPairStep(tr, n, r, i);
      if Ignores(tr[n - 1], r, i) && Wf(tr[n - 1]) && Enabled(tr[n - 1], r) && tr[n] == Step(tr[n - 1], r) {
        assert IgnoredAt(tr, n - 1, r, i);
      } else if i < Processed(tr[n - 1].log[r]) {
        WrittenOrIgnored(tr, n - 1, r, i);
        if Ignored(tr, n - 1, r, i) { IgnoredLater(tr, n, r, i); }
      }
    }
  }

  lemma RunPairStep(tr: seq<Store>, n: nat, r: nat, i: nat)
    requires Run(tr) && 0 < n < |tr| && !tr[n].halted && r < |tr[n].log|
    requires i < Processed(tr[n].log[r]) && i < |tr[n].log[r].pairs|
    ensures !tr[n - 1].halted && PairStep(tr[n - 1], tr[n], r, i)
  {
    RunNext(tr, n);
    NextPairStep(tr[n - 1], tr[n], r, i);
  }

  // ---------------------------------------------------------------------------
  // What was ignored stays unwritten
  // ---------------------------------------------------------------------------

  /** A commit has one write for each key. */
  predicate DistinctKeys(c: Record) {
    forall i, j :: 0 <= i < j < |c.pairs| ==> c.pairs[i].key != c.pairs[j].key
  }

  /** The owner of `r` is past pair `i`, and `r` has no version of its key. */
  ghost predicate Skipped(s: Store, r: nat, i: nat) {
    && r < |s.log| && i < |s.log[r].pairs| && DistinctKeys(s.log[r])
    && PairsLeft(s.log[r]) + i < |s.log[r].pairs|
    && !Wrote(s, r, s.log[r].pairs[i].key)
  }

  lemma IgnoringSkips(s: Store, r: nat, i: nat)
    requires Good(s) && Enabled(s, r) && !Step(s, r).halted && Ignores(s, r, i) && DistinctKeys(s.log[r])
    ensures Skipped(Step(s, r), r, i)
  {
    assert WfPc(s, r);
    assert Step(s, r) == StepPut(s, r, i);
  }

  /** No step of an owner brings back a version for a pair that was skipped. */
  lemma OwnerKeepsSkipped(s: Store, q: nat, r: nat, i: nat)
    requires Good(s) && Enabled(s, q) && !Step(s, q).halted && Skipped(s, r, i)
    ensures Skipped(Step(s, q), r, i)
  {
    var s', k := Step(s, q), s.log[r].pairs[i].key;
    StepHasEffect(s, q);
    StepAdvances(s, q);
    if s'.vts != s.vts {
      assert WfPc(s, q);
      OnlyOwnEntry(s, s', q, r, k);
    }
  }

  /** A version of `r` that is new to the table of `k` comes from its owner, at a
      pair with that key. */
  lemma OnlyOwnEntry(s: Store, s': Store, q: nat, r: nat, k: Key)
    requires q < |s.log| && (s.log[q].pc.Put? || s.log[q].pc.PutNew?) && TableEffect(s, s', q, s.log[q].pc.i)
    ensures Wrote(s', r, k) && !Wrote(s, r, k) ==> q == r && s.log[q].pairs[s.log[q].pc.i].key == k
  {
    var l, e := s.log[q].pairs[s.log[q].pc.i].key, Vte(q, s.log[q].pairs[s.log[q].pc.i].value);
    if Wrote(s', r, k) && l == k && q != r {
      var p :| 0 <= p < |s'.vts[k]| && s'.vts[k][p].rec == r;
      if k in s.vts {
        var idx: nat :| idx <= |s.vts[k]| && s'.vts == s.vts[k := InsertAt(s.vts[k], idx, e)];
        assert s.vts[k][if p < idx then p else p - 1].rec == r;
      }
    }
  }

  lemma NextKeepsSkipped(s: Store, s': Store, r: nat, i: nat)
    requires Good(s) && Next(s, s') && !s'.halted && Skipped(s, r, i)
    ensures Skipped(s', r, i)
  {
    if q :| Enabled(s, q) && s' == Step(s, q) {
      OwnerKeepsSkipped(s, q, r, i);
    }
  }

  lemma {:induction false} SkippedForEver(tr: seq<Store>, m: nat, n: nat, r: nat, i: nat)
    requires Run(tr) && m <= n < |tr| && !tr[n].halted && Skipped(tr[m], r, i)
    ensures Skipped(tr[n], r, i) && tr[n].log[r].pairs == tr[m].log[r].pairs
    decreases n
  {
    if m < n {
      RunNext(tr, n);
      SkippedForEver(tr, m, n - 1, r, i);
      NextKeepsSkipped(tr[n - 1], tr[n], r, i);
      NextKeepsPairs(tr[n - 1], tr[n], r);
    }
  }

  lemma NextKeepsPairs(s: Store, s': Store, r: nat)
    requires Good(s) && Next(s, s') && !s'.halted && r < |s.log|
    ensures r < |s'.log| && s'.log[r].pairs == s.log[r].pairs
  {
    if q :| Enabled(s, q) && s' == Step(s, q) { StepHasEffect(s, q); }
  }

  lemma {:induction false} PairsStay(tr: seq<Store>, m: nat, n: nat, r: nat)
    requires Run(tr) && m <= n < |tr| && !tr[n].halted && r < |tr[m].log|
    ensures r < |tr[n].log| && tr[n].log[r].pairs == tr[m].log[r].pairs
    decreases n
  {
    if m < n {
      RunNext(tr, n);
      PairsStay(tr, m, n - 1, r);
      NextKeepsPairs(tr[n - 1], tr[n], r);
    }
  }

  lemma IgnoredIsSkipped(tr: seq<Store>, n: nat, r: nat, i: nat)
    requires Run(tr) && n < |tr| && !tr[n].halted && Ignored(tr, n, r, i)
    requires r < |tr[n].log| && DistinctKeys(tr[n].log[r])
    ensures Skipped(tr[n], r, i)
  {
    var m :| 0 <= m < n && m + 1 < |tr| && IgnoredAt(tr, m, r, i);
    NotHaltedBefore(tr, m, n);
    NotHaltedBefore(tr, m + 1, n);
    RunIsGood(tr, m);
    PairsStay(tr, m, n, r);
    IgnoringSkips(tr[m], r, i);
    SkippedForEver(tr, m + 1, n, r, i);
  }

  /** A committed record has written a version of a key it holds a write for exactly
      when its owner did not ignore a deletion of that key. */
  lemma CommittedIsWritten(tr: seq<Store>, n: nat, r: nat, k: Key, v: Option<Value>)
    requires Run(tr) && n < |tr| && !tr[n].halted && r < |tr[n].log|
    requires tr[n].log[r].state == COMMITTED && Pair(k, v) in tr[n].log[r].pairs
    ensures Wrote(tr[n], r, k) || (v.None? && LostDelete(tr, n, r, k))
    ensures DistinctKeys(tr[n].log[r]) ==> (Wrote(tr[n], r, k) <==> !LostDelete(tr, n, r, k))
  {
    var s := tr[n];
    RunIsGood(tr, n);
    assert RecordOk(s, r);
    var i :| 0 <= i < |s.log[r].pairs| && s.log[r].pairs[i] == Pair(k, v);
    WrittenOrIgnored(tr, n, r, i);
    if InTable(s, r, Pair(k, v)) {
      var p :| 0 <= p < |s.vts[k]| && s.vts[k][p] == Vte(r, v);
      assert s.vts[k][p].rec == r;
    }
    if DistinctKeys(s.log[r]) && LostDelete(tr, n, r, k) {
      var j :| 0 <= j < |s.log[r].pairs| && s.log[r].pairs[j] == Pair(k, None) && Ignored(tr, n, r, j);
      IgnoredIsSkipped(tr, n, r, j);
    }
  }

  /** Snapshot isolation for what commits meant to write: committed records with a
      common key have disjoint ranges unless one of them had its deletion of the
      key ignored, because the key had no version table at that moment. */
  lemma IsolationUnlessIgnored(tr: seq<Store>, n: nat, a: nat, b: nat, k: Key, va: Option<Value>, vb: Option<Value>)
    requires Run(tr) && n < |tr| && !tr[n].halted && a < |tr[n].log| && b < |tr[n].log| && a != b
    requires tr[n].log[a].state == COMMITTED && tr[n].log[b].state == COMMITTED
    requires Pair(k, va) in tr[n].log[a].pairs && Pair(k, vb) in tr[n].log[b].pairs
    ensures || LostDelete(tr, n, a, k) || LostDelete(tr, n, b, k)
            || forall x: nat :: !(InRange(tr[n].log[a], x) && InRange(tr[n].log[b], x))
  {
    CommittedIsWritten(tr, n, a, k, va);
    CommittedIsWritten(tr, n, b, k, vb);
    if Wrote(tr[n], a, k) && Wrote(tr[n], b, k) { SnapshotIsolation(tr, n, a, b, k); }
  }
}
