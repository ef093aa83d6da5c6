/** How the last committed version of a key within a snapshot changes along a run, and
    which version a commit replaces. */
module EchoVersions {
  import opened CommitState
  import opened EchoProtocol
  import opened EchoInvariant
  import opened EchoTheorems
  import opened Wrappers

  // ---------------------------------------------------------------------------
  // When the last committed version stays
  // ---------------------------------------------------------------------------

  /** `x` wrote `k` within `snap`, has committed in `t`, and was not final in `s`. */
  ghost predicate NewWriter(s: Store, t: Store, x: nat, k: Key, snap: nat) {
    && x < |t.log| && t.log[x].end <= snap && t.log[x].state == COMMITTED && Wrote(t, x, k)
    && (x < |s.log| ==> !Final(s.log[x].state))
  }

  /** No such record: the writers of `k` within `snap` that commit were final before. */
  ghost predicate NoNewWriter(s: Store, t: Store, k: Key, snap: nat) {
    forall x: nat :: !NewWriter(s, t, x, k, snap)
  }

  lemma WroteStays(s: Store, s': Store, r: nat, x: nat, k: Key)
    requires StepEffect(s, s', r) && Wrote(s, x, k)
    ensures Wrote(s', x, k)
  {
    var p :| 0 <= p < |s.vts[k]| && s.vts[k][p].rec == x;
    if s'.vts != s.vts {
      var i := s.log[r].pc.i;
      var l, e := s.log[r].pairs[i].key, Vte(r, s.log[r].pairs[i].value);
      if l == k {
        var idx: nat :| idx <= |s.vts[k]| && s'.vts == s.vts[k := InsertAt(s.vts[k], idx, e)];
        assert s'.vts[k][if p < idx then p else p + 1] == s.vts[k][p];
      } else {
        assert s'.vts[k][p].rec == x;
      }
    } else {
      assert s'.vts[k][p].rec == x;
    }
  }

  lemma NewlyReadable(s: Store, s': Store, r: nat, k: Key, q: nat, snap: nat)
    requires Wf(s) && StepEffect(s, s', r) && k in s.vts && q < |s.vts[k]|
    requires Readable(s'.log, s.vts[k][q], snap) && !Readable(s.log, s.vts[k][q], snap)
    ensures NewWriter(s, s', s.vts[k][q].rec, k, snap)
  {
    assert Wrote(s, s.vts[k][q].rec, k);
    WroteStays(s, s', r, s.vts[k][q].rec, k);
  }

  /** A step changes it only by committing a writer of the key. */
  lemma StepVersions(s: Store, s': Store, r: nat, k: Key, snap: nat)
    requires Wf(s) && StepEffect(s, s', r) && NoNewWriter(s, s', k, snap)
    ensures LastCommitted(s', k, snap) == LastCommitted(s, k, snap)
  {
    if k in s.vts {
      forall q | 0 <= q < |s.vts[k]|
        ensures Readable(s.log, s.vts[k][q], snap) <==> Readable(s'.log, s.vts[k][q], snap)
      {
        if Readable(s'.log, s.vts[k][q], snap) && !Readable(s.log, s.vts[k][q], snap) {
          NewlyReadable(s, s', r, k, q, snap);
        }
      }
      SameReads(s.log, s'.log, s.vts[k], snap);
    }
    if s'.vts != s.vts {
      TableKeepsReads(s, s', r, s.log[r].pc.i, k, snap);
    }
  }

  lemma NextVersions(s: Store, s': Store, k: Key, snap: nat)
    requires Good(s) && Next(s, s') && !s'.halted && NoNewWriter(s, s', k, snap)
    ensures LastCommitted(s', k, snap) == LastCommitted(s, k, snap)
  {
    if r :| Enabled(s, r) && s' == Step(s, r) {
      StepHasEffect(s, r);
      StepVersions(s, s', r, k, snap);
    } else if k in s.vts {
      SameReads(s.log, s'.log, s.vts[k], snap);
    }
  }

  /** What a step keeps of a record. */
  ghost predicate Kept(s: Store, s': Store, x: nat, k: Key) {
    && x < |s.log| <= |s'.log| && s.global <= s'.global
    && s'.log[x].begin == s.log[x].begin && s'.log[x].end == s.log[x].end
    && (Final(s.log[x].state) ==> s'.log[x].state == s.log[x].state)
    && (Wrote(s, x, k) ==> Wrote(s', x, k))
  }

  lemma NextKeeps(s: Store, s': Store, x: nat, k: Key)
    requires Good(s) && Next(s, s') && !s'.halted && x < |s.log|
    ensures Kept(s, s', x, k)
  {
    if r :| Enabled(s, r) && s' == Step(s, r) {
      StepHasEffect(s, r);
      if Wrote(s, x, k) { WroteStays(s, s', r, x, k); }
    }
  }

  lemma RunStepKeeps(tr: seq<Store>, n: nat, x: nat, k: Key)
    requires Run(tr) && 0 < n < |tr| && !tr[n].halted
    ensures !tr[n - 1].halted && (x < |tr[n - 1].log| ==> Kept(tr[n - 1], tr[n], x, k))
  {
    RunNext(tr, n);
    if x < |tr[n - 1].log| { NextKeeps(tr[n - 1], tr[n], x, k); }
  }

  lemma {:induction false} RunKeeps(tr: seq<Store>, a: nat, n: nat, x: nat, k: Key)
    requires Run(tr) && a <= n < |tr| && !tr[n].halted && x < |tr[a].log|
    ensures Kept(tr[a], tr[n], x, k)
    decreases n
  {
    if a < n {
      RunStepKeeps(tr, n, x, k);
      RunKeeps(tr, a, n - 1, x, k);
      KeptTwice(tr[a], tr[n - 1], tr[n], x, k);
    }
  }

  lemma KeptTwice(s: Store, t: Store, u: Store, x: nat, k: Key)
    requires Kept(s, t, x, k) && Kept(t, u, x, k)
    ensures Kept(s, u, x, k)
  {
  }

  /** Records appended later end later. */
  lemma {:induction false} LaterEndsLater(tr: seq<Store>, a: nat, n: nat, x: nat)
    requires Run(tr) && a <= n < |tr| && !tr[n].halted && |tr[a].log| <= x < |tr[n].log|
    ensures tr[n].log[x].end >= tr[a].global
    decreases n
  {
    if a < n {
      RunNext(tr, n);
      if x < |tr[n - 1].log| {
        LaterEndsLater(tr, a, n - 1, x);
        NextKeeps(tr[n - 1], tr[n], x, "");
      } else {
        GlobalGrows(tr, a, n - 1);
        AppendedEnd(tr[n - 1], tr[n], x);
      }
    }
  }

  lemma AppendedEnd(s: Store, s': Store, x: nat)
    requires Good(s) && Next(s, s') && !s'.halted && |s.log| <= x < |s'.log|
    ensures s'.log[x].end == s.global
  {
    if r :| Enabled(s, r) && s' == Step(s, r) { StepHasEffect(s, r); }
  }

  lemma {:induction false} GlobalGrows(tr: seq<Store>, a: nat, n: nat)
    requires Run(tr) && a <= n < |tr| && !tr[n].halted
    ensures tr[a].global <= tr[n].global
    decreases n
  {
    if a < n {
      RunNext(tr, n);
      GlobalGrows(tr, a, n - 1);
      NextGlobal(tr[n - 1], tr[n]);
    }
  }

  lemma NextGlobal(s: Store, s': Store)
    requires Good(s) && Next(s, s') && !s'.halted
    ensures s.global <= s'.global
  {
    if r :| Enabled(s, r) && s' == Step(s, r) { StepHasEffect(s, r); }
  }

  lemma NewWriterStays(tr: seq<Store>, a: nat, m: nat, n: nat, l: nat, x: nat, k: Key, snap: nat)
    requires Run(tr) && a <= m <= n <= l < |tr| && !tr[l].halted && NewWriter(tr[m], tr[n], x, k, snap)
    ensures NewWriter(tr[a], tr[l], x, k, snap)
  {
    NotHaltedBefore(tr, n, l);
    NotHaltedBefore(tr, m, n);
    RunKeeps(tr, n, l, x, k);
    if x < |tr[a].log| { RunKeeps(tr, a, m, x, k); }
  }

  lemma {:induction false} VersionStays(tr: seq<Store>, a: nat, n: nat, k: Key, snap: nat)
    requires Run(tr) && a <= n < |tr| && !tr[n].halted && NoNewWriter(tr[a], tr[n], k, snap)
    ensures LastCommitted(tr[n], k, snap) == LastCommitted(tr[a], k, snap)
    decreases n
  {
    if a < n {
      NoNewWriterBefore(tr, a, n, k, snap);
      VersionStays(tr, a, n - 1, k, snap);
      RunStepVersions(tr, n, k, snap);
    }
  }

  lemma RunStepVersions(tr: seq<Store>, n: nat, k: Key, snap: nat)
    requires Run(tr) && 0 < n < |tr| && !tr[n].halted && NoNewWriter(tr[n - 1], tr[n], k, snap)
    ensures LastCommitted(tr[n], k, snap) == LastCommitted(tr[n - 1], k, snap)
  {
    RunNext(tr, n);
    NextVersions(tr[n - 1], tr[n], k, snap);
  }

  lemma NoNewWriterBefore(tr: seq<Store>, a: nat, n: nat, k: Key, snap: nat)
    requires Run(tr) && a < n < |tr| && !tr[n].halted && NoNewWriter(tr[a], tr[n], k, snap)
    ensures !tr[n - 1].halted && NoNewWriter(tr[a], tr[n - 1], k, snap) && NoNewWriter(tr[n - 1], tr[n], k, snap)
  {
    NotHaltedBefore(tr, n - 1, n);
    var s, t := tr[n - 1], tr[n];
    if x: nat :| NewWriter(tr[a], s, x, k, snap) { NewWriterStays(tr, a, a, n - 1, n, x, k, snap); }
    if x: nat :| NewWriter(s, t, x, k, snap) { NewWriterStays(tr, a, n - 1, n, n, x, k, snap); }
  }

  /** Commits become final in log order, so a new writer is behind all that could be read. */
  lemma NewWriterShows(tr: seq<Store>, a: nat, n: nat, x: nat, k: Key, snap: nat)
    requires Run(tr) && a <= n < |tr| && !tr[n].halted && NewWriter(tr[a], tr[n], x, k, snap)
    ensures LastCommitted(tr[n], k, snap) != LastCommitted(tr[a], k, snap)
  {
    NotHaltedBefore(tr, a, n);
    LastCommittedIs(tr, n, k, snap);
    LastCommittedIs(tr, a, k, snap);
    if LastCommitted(tr[a], k, snap).Some? {
      var e := LastCommitted(tr[a], k, snap).value.rec;
      if x <= e { FinalInLogOrder(tr, a, x, e); }
    }
  }

  /** The last committed version within a snapshot stays the same if and only if every
      record that has committed a version of the key within it was final before. */
  lemma LastCommittedRepeats(tr: seq<Store>, a: nat, n: nat, k: Key, snap: nat)
    requires Run(tr) && a <= n < |tr| && !tr[n].halted
    ensures LastCommitted(tr[n], k, snap) == LastCommitted(tr[a], k, snap) <==> NoNewWriter(tr[a], tr[n], k, snap)
  {
    if NoNewWriter(tr[a], tr[n], k, snap) {
      VersionStays(tr, a, n, k, snap);
    } else {
      var x: nat :| NewWriter(tr[a], tr[n], x, k, snap);
      NewWriterShows(tr, a, n, x, k, snap);
    }
  }

  /** In particular when the snapshot was settled. */
  lemma SettledHasNoNewWriter(tr: seq<Store>, a: nat, n: nat, k: Key, snap: nat)
    requires Run(tr) && a <= n < |tr| && !tr[n].halted && SettledUpTo(tr[a], snap)
    ensures NoNewWriter(tr[a], tr[n], k, snap)
  {
    if x: nat :| NewWriter(tr[a], tr[n], x, k, snap) {
      if x < |tr[a].log| { RunKeeps(tr, a, n, x, k); } else { LaterEndsLater(tr, a, n, x); }
    }
  }

  // ---------------------------------------------------------------------------
  // What a commit replaces
  // ---------------------------------------------------------------------------

  lemma {:induction false} SameSnapshots(log: seq<Record>, vt: seq<Vte>, snap: nat, snap': nat)
    requires forall q :: 0 <= q < |vt| ==> (Readable(log, vt[q], snap) <==> Readable(log, vt[q], snap'))
    ensures LastReadable(log, vt, snap) == LastReadable(log, vt, snap')
    decreases |vt|
  {
    if |vt| > 0 {
      SameSnapshots(log, vt[..|vt| - 1], snap, snap');
    }
  }

  /** Nobody has committed a version between the begin of a committed writer and its own. */
  lemma NothingBetween(tr: seq<Store>, n: nat, r: nat, k: Key)
    requires Run(tr) && n < |tr| && !tr[n].halted && r < |tr[n].log|
    requires tr[n].log[r].state == COMMITTED && Wrote(tr[n], r, k)
    ensures tr[n].log[r].begin < tr[n].log[r].end
    ensures LastCommitted(tr[n], k, tr[n].log[r].end - 1) == LastCommitted(tr[n], k, tr[n].log[r].begin)
  {
    var s := tr[n];
    var c := s.log[r];
    RunIsGood(tr, n);
    forall q | 0 <= q < |s.vts[k]|
      ensures Readable(s.log, s.vts[k][q], c.end - 1) <==> Readable(s.log, s.vts[k][q], c.begin)
    {
      var x := s.vts[k][q].rec;
      if Readable(s.log, s.vts[k][q], c.end - 1) && !Readable(s.log, s.vts[k][q], c.begin) {
        assert Wrote(s, x, k) && x != r;
        SnapshotIsolation(tr, n, x, r, k);
        assert InRange(s.log[x], s.log[x].end) && InRange(c, s.log[x].end);
      }
    }
    SameSnapshots(s.log, s.vts[k], c.end - 1, c.begin);
  }

  /** The version a committed writer of `k` replaces is the last one that was committed
      within its begin snapshot at `a`, if and only if every committed writer of `k`
      within that snapshot was final at `a`. */
  lemma ReplacesLastCommitted(tr: seq<Store>, a: nat, n: nat, r: nat, k: Key)
    requires Run(tr) && a <= n < |tr| && !tr[n].halted && r < |tr[n].log|
    requires tr[n].log[r].state == COMMITTED && Wrote(tr[n], r, k)
    ensures tr[n].log[r].begin < tr[n].log[r].end
    ensures LastCommitted(tr[a], k, tr[n].log[r].begin) == LastCommitted(tr[n], k, tr[n].log[r].end - 1) <==>
              NoNewWriter(tr[a], tr[n], k, tr[n].log[r].begin)
  {
    NothingBetween(tr, n, r, k);
    LastCommittedRepeats(tr, a, n, k, tr[n].log[r].begin);
  }

  /** All commits before one that is final are final too. */
  lemma OwnCommitIsSettled(tr: seq<Store>, a: nat, x: nat)
    requires Run(tr) && a < |tr| && !tr[a].halted && x < |tr[a].log| && Final(tr[a].log[x].state)
    ensures SettledUpTo(tr[a], tr[a].log[x].end)
  {
    RunIsGood(tr, a);
    forall r: nat | r < |tr[a].log| && tr[a].log[r].end <= tr[a].log[x].end ensures Final(tr[a].log[r].state) {
      FinalDownwards(tr[a], r, x);
    }
  }
}
