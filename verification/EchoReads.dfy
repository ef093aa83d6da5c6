/** What a snapshot read returns. It is the last committed version, except in a table
    with one entry: that is returned whatever the state of its record is. */
module EchoReads {
  import opened CommitState
  import opened EchoProtocol
  import opened EchoInvariant
  import opened EchoTheorems
  import opened EchoVersions
  import opened EchoDeletions
  import opened Wrappers

  /** The search of a version table; a table of one entry skips the validator. */
  function Search(log: seq<Record>, vt: seq<Vte>, snap: nat): Option<Vte> {
    if |vt| == 1 then
      if vt[0].rec < |log| && log[vt[0].rec].end <= snap then Some(vt[0]) else None
    else
      LastReadable(log, vt, snap)
  }

  /** A read at `snap`; numbers that have not been handed out find nothing. */
  function Read(s: Store, k: Key, snap: nat): Option<Vte> {
    if k in s.vts && snap <= s.global then Search(s.log, s.vts[k], snap) else None
  }

  /** The table has a single entry, within the snapshot, that is not committed. */
  predicate Unchecked(s: Store, k: Key, snap: nat) {
    && k in s.vts && |s.vts[k]| == 1
    && s.vts[k][0].rec < |s.log| && s.log[s.vts[k][0].rec].end <= snap && s.log[s.vts[k][0].rec].state != COMMITTED
  }

  // ---------------------------------------------------------------------------
  // Reads and last committed versions
  // ---------------------------------------------------------------------------

  lemma OneEntry(log: seq<Record>, vt: seq<Vte>, snap: nat)
    requires |vt| == 1
    ensures LastReadable(log, vt, snap) == if Readable(log, vt[0], snap) then Some(vt[0]) else None
  {
    assert vt[..0] == [];
  }

  /** A read returns the last committed version if and only if it is not of a single
      entry that is not committed. */
  lemma ReadIsLastCommitted(s: Store, k: Key, snap: nat)
    requires snap <= s.global
    ensures Read(s, k, snap) == LastCommitted(s, k, snap) <==> !Unchecked(s, k, snap)
    ensures Unchecked(s, k, snap) ==> Read(s, k, snap) == Some(s.vts[k][0]) && LastCommitted(s, k, snap) == None
  {
    if k in s.vts && |s.vts[k]| == 1 { OneEntry(s.log, s.vts[k], snap); }
  }

  /** In particular once a record within the snapshot has committed a version. */
  lemma CommittedIsChecked(s: Store, k: Key, snap: nat, b: nat)
    requires b < |s.log| && s.log[b].state == COMMITTED && Wrote(s, b, k)
    ensures !Unchecked(s, k, snap)
  {
  }

  /** A read finds nothing exactly when nothing was committed within the snapshot and the
      table is not a single entry within it. What it finds is that entry, whatever has
      become of its record, or a write of the last record that committed one. */
  lemma ReadsSee(tr: seq<Store>, n: nat, k: Key, snap: nat)
    requires Run(tr) && n < |tr| && !tr[n].halted && snap <= tr[n].global
    ensures var s, read := tr[n], Read(tr[n], k, snap);
      && (read.None? <==>
            && !Unchecked(s, k, snap)
            && forall b: nat :: b < |s.log| && s.log[b].state == COMMITTED && s.log[b].end <= snap ==> !Wrote(s, b, k))
      && (read.Some? ==>
            && read.value.rec < |s.log| && s.log[read.value.rec].end <= snap
            && Pair(k, read.value.value) in s.log[read.value.rec].pairs
            && (s.log[read.value.rec].state == COMMITTED <==> !Unchecked(s, k, snap))
            && forall b: nat ::
                 read.value.rec < b < |s.log| && s.log[b].state == COMMITTED && s.log[b].end <= snap ==>
                   !Wrote(s, b, k))
  {
    RunIsGood(tr, n);
    ReadIsLastCommitted(tr[n], k, snap);
    LastCommittedIs(tr, n, k, snap);
  }

  // ---------------------------------------------------------------------------
  // Repeating a read
  // ---------------------------------------------------------------------------

  /** Tables grow. */
  lemma StepTable(s: Store, s': Store, r: nat, k: Key)
    requires StepEffect(s, s', r) && k in s.vts
    ensures k in s'.vts && |s.vts[k]| <= |s'.vts[k]| && (|s'.vts[k]| == |s.vts[k]| ==> s'.vts[k] == s.vts[k])
  {
    if s'.vts != s.vts {
      var i := s.log[r].pc.i;
      var l, e := s.log[r].pairs[i].key, Vte(r, s.log[r].pairs[i].value);
      if l == k {
        var idx: nat :| idx <= |s.vts[k]| && s'.vts == s.vts[k := InsertAt(s.vts[k], idx, e)];
      }
    }
  }

  lemma RunStepTable(tr: seq<Store>, n: nat, k: Key)
    requires Run(tr) && 0 < n < |tr| && !tr[n].halted && k in tr[n - 1].vts
    ensures k in tr[n].vts && |tr[n - 1].vts[k]| <= |tr[n].vts[k]|
    ensures |tr[n].vts[k]| == |tr[n - 1].vts[k]| ==> tr[n].vts[k] == tr[n - 1].vts[k]
  {
    RunNext(tr, n);
    var s, s' := tr[n - 1], tr[n];
    if r :| Enabled(s, r) && s' == Step(s, r) {
      StepHasEffect(s, r);
      StepTable(s, s', r, k);
    }
  }

  lemma {:induction false} RunTable(tr: seq<Store>, a: nat, n: nat, k: Key)
    requires Run(tr) && a <= n < |tr| && !tr[n].halted && k in tr[a].vts
    ensures k in tr[n].vts && |tr[a].vts[k]| <= |tr[n].vts[k]|
    ensures |tr[n].vts[k]| == |tr[a].vts[k]| ==> tr[n].vts[k] == tr[a].vts[k]
    decreases n
  {
    if a < n {
      NotHaltedBefore(tr, n - 1, n);
      RunTable(tr, a, n - 1, k);
      RunStepTable(tr, n, k);
    }
  }

  /** A single entry that stays single is the same one. */
  lemma SameEntry(tr: seq<Store>, a: nat, n: nat, k: Key, snap: nat)
    requires Run(tr) && a <= n < |tr| && !tr[n].halted && snap <= tr[a].global
    requires Unchecked(tr[a], k, snap) && Unchecked(tr[n], k, snap)
    ensures Read(tr[n], k, snap) == Read(tr[a], k, snap)
  {
    GlobalGrows(tr, a, n);
    RunTable(tr, a, n, k);
  }

  /** What a checked read returned cannot be what an unchecked one returns later: that is
      not committed. */
  lemma ReadsDiffer(tr: seq<Store>, a: nat, n: nat, k: Key, snap: nat)
    requires Run(tr) && a <= n < |tr| && !tr[n].halted && snap <= tr[a].global
    requires !Unchecked(tr[a], k, snap) && Unchecked(tr[n], k, snap)
    ensures Read(tr[n], k, snap) != Read(tr[a], k, snap)
  {
    GlobalGrows(tr, a, n);
    NotHaltedBefore(tr, a, n);
    ReadIsLastCommitted(tr[a], k, snap);
    ReadIsLastCommitted(tr[n], k, snap);
    if Read(tr[a], k, snap).Some? {
      LastCommittedIs(tr, a, k, snap);
      FinalIsPermanent(tr, a, n, Read(tr[a], k, snap).value.rec);
    }
  }

  /** When a read repeated later returns the same. If the first one was checked: the second
      is too, and every record that has committed a version within the snapshot by then was
      final at the first. If it was not: the table is still that single entry, or the entry
      is the last committed version by now. */
  lemma ReadsRepeatExactly(tr: seq<Store>, a: nat, n: nat, k: Key, snap: nat)
    requires Run(tr) && a <= n < |tr| && !tr[n].halted && snap <= tr[a].global
    ensures Read(tr[n], k, snap) == Read(tr[a], k, snap) <==>
              if Unchecked(tr[a], k, snap)
              then Unchecked(tr[n], k, snap) || LastCommitted(tr[n], k, snap) == Some(tr[a].vts[k][0])
              else !Unchecked(tr[n], k, snap) && NoNewWriter(tr[a], tr[n], k, snap)
  {
    GlobalGrows(tr, a, n);
    ReadIsLastCommitted(tr[a], k, snap);
    ReadIsLastCommitted(tr[n], k, snap);
    if Unchecked(tr[a], k, snap) {
      if Unchecked(tr[n], k, snap) { SameEntry(tr, a, n, k, snap); }
    } else if Unchecked(tr[n], k, snap) {
      ReadsDiffer(tr, a, n, k, snap);
    } else {
      LastCommittedRepeats(tr, a, n, k, snap);
    }
  }

  /** An entry that was unchecked in a settled snapshot is of an aborted record, and is
      never the last committed version. */
  lemma SettledNeverCommits(tr: seq<Store>, a: nat, n: nat, k: Key, snap: nat)
    requires Run(tr) && a <= n < |tr| && !tr[n].halted && SettledUpTo(tr[a], snap) && Unchecked(tr[a], k, snap)
    ensures tr[a].log[tr[a].vts[k][0].rec].state == ABORTED
    ensures LastCommitted(tr[n], k, snap) != Some(tr[a].vts[k][0])
  {
    var x := tr[a].vts[k][0].rec;
    FinalIsPermanent(tr, a, n, x);
    LastCommittedIs(tr, n, k, snap);
  }

  /** Reads of a settled snapshot are stable if and only if they are checked at both times
      or at neither. */
  lemma SettledReadsAreStable(tr: seq<Store>, a: nat, n: nat, k: Key, snap: nat)
    requires Run(tr) && a <= n < |tr| && !tr[n].halted && SettledUpTo(tr[a], snap)
    ensures Read(tr[n], k, snap) == Read(tr[a], k, snap) <==>
              (Unchecked(tr[a], k, snap) <==> Unchecked(tr[n], k, snap))
  {
    ReadsRepeatExactly(tr, a, n, k, snap);
    SettledHasNoNewWriter(tr, a, n, k, snap);
    if Unchecked(tr[a], k, snap) { SettledNeverCommits(tr, a, n, k, snap); }
  }

  /** A checked table stays checked: it has two entries, or one that is committed or ends
      behind the snapshot. */
  lemma StaysChecked(tr: seq<Store>, a: nat, n: nat, k: Key, snap: nat)
    requires Run(tr) && a <= n < |tr| && !tr[n].halted && k in tr[a].vts && !Unchecked(tr[a], k, snap)
    ensures !Unchecked(tr[n], k, snap)
  {
    RunTable(tr, a, n, k);
    NotHaltedBefore(tr, a, n);
    RunIsGood(tr, a);
    RunKeeps(tr, a, n, tr[a].vts[k][0].rec, k);
  }

  /** So once a read of a settled snapshot has found a table and was checked, it is stable. */
  lemma CheckedReadsAreStable(tr: seq<Store>, a: nat, n: nat, k: Key, snap: nat)
    requires Run(tr) && a <= n < |tr| && !tr[n].halted && SettledUpTo(tr[a], snap)
    requires k in tr[a].vts && !Unchecked(tr[a], k, snap)
    ensures Read(tr[n], k, snap) == Read(tr[a], k, snap)
  {
    StaysChecked(tr, a, n, k, snap);
    SettledReadsAreStable(tr, a, n, k, snap);
  }

  // ---------------------------------------------------------------------------
  // Lost updates
  // ---------------------------------------------------------------------------

  /** No lost update: what a committed writer of `k` read at `a` is the version that its own
      replaces. If the read was checked, that holds if and only if every committed writer
      of `k` within its begin snapshot was final at `a`; if it was not, if and only if what
      it read has been committed after all, and no later one within the snapshot has. */
  lemma NoLostUpdate(tr: seq<Store>, a: nat, n: nat, r: nat, k: Key)
    requires Run(tr) && a <= n < |tr| && !tr[n].halted && r < |tr[n].log|
    requires tr[n].log[r].state == COMMITTED && Wrote(tr[n], r, k) && tr[n].log[r].begin <= tr[a].global
    ensures tr[n].log[r].begin < tr[n].log[r].end
    ensures var begin := tr[n].log[r].begin;
      Read(tr[a], k, begin) == LastCommitted(tr[n], k, tr[n].log[r].end - 1) <==>
        if Unchecked(tr[a], k, begin) then LastCommitted(tr[n], k, begin) == Some(tr[a].vts[k][0])
        else NoNewWriter(tr[a], tr[n], k, begin)
  {
    NothingBetween(tr, n, r, k);
    ReplacesLastCommitted(tr, a, n, r, k);
    ReadIsLastCommitted(tr[a], k, tr[n].log[r].begin);
  }

  /** When the writer begins where a commit ends that was final at `a`, as its own last one,
      that is so if and only if the read was checked. */
  lemma NoLostUpdateAfterCommit(tr: seq<Store>, a: nat, n: nat, x: nat, r: nat, k: Key)
    requires Run(tr) && a <= n < |tr| && !tr[n].halted && x < |tr[a].log| && Final(tr[a].log[x].state)
    requires r < |tr[n].log| && tr[n].log[r].state == COMMITTED && Wrote(tr[n], r, k)
    requires tr[n].log[r].begin == tr[a].log[x].end
    ensures tr[n].log[r].begin < tr[n].log[r].end
    ensures Read(tr[a], k, tr[n].log[r].begin) == LastCommitted(tr[n], k, tr[n].log[r].end - 1) <==>
              !Unchecked(tr[a], k, tr[n].log[r].begin)
  {
    NotHaltedBefore(tr, a, n);
    OwnCommitIsSettled(tr, a, x);
    NoLostUpdate(tr, a, n, r, k);
    SettledHasNoNewWriter(tr, a, n, k, tr[n].log[r].begin);
    if Unchecked(tr[a], k, tr[n].log[r].begin) { SettledNeverCommits(tr, a, n, k, tr[n].log[r].begin); }
  }

  // ---------------------------------------------------------------------------
  // Committed writes are seen
  // ---------------------------------------------------------------------------

  /** A read within whose snapshot a write has committed sees that write or one of a later
      record, unless the write is a deletion that was ignored. */
  lemma ReadsUnlessIgnored(tr: seq<Store>, n: nat, k: Key, snap: nat, b: nat, v: Option<Value>)
    requires Run(tr) && n < |tr| && !tr[n].halted && snap <= tr[n].global
    requires b < |tr[n].log| && tr[n].log[b].state == COMMITTED && tr[n].log[b].end <= snap
    requires Pair(k, v) in tr[n].log[b].pairs
    ensures (v.None? && LostDelete(tr, n, b, k)) || (Read(tr[n], k, snap).Some? && b <= Read(tr[n], k, snap).value.rec)
  {
    CommittedIsWritten(tr, n, b, k, v);
    LastCommittedIs(tr, n, k, snap);
    ReadIsLastCommitted(tr[n], k, snap);
    if Wrote(tr[n], b, k) { CommittedIsChecked(tr[n], k, snap, b); }
  }
}
