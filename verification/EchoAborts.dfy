/** Why a commit fails: its owner's backward scan met a conflict, or another owner's
    forward scan failed it. A record with neither commits. */
module EchoAborts {
  import opened CommitState
  import opened EchoProtocol
  import opened EchoInvariant
  import opened EchoTheorems
  import opened EchoVersions
  import opened EchoDeletions
  import opened EchoProgress
  import opened EchoConflicts
  import opened Wrappers

  // ---------------------------------------------------------------------------
  // One entry for each key
  // ---------------------------------------------------------------------------

  /** The pairs that `r` has still to put are in no table. */
  ghost predicate Unput(s: Store, r: nat)
    requires r < |s.log|
  {
    forall i :: 0 <= i < |s.log[r].pairs| && |s.log[r].pairs| <= PairsLeft(s.log[r]) + i ==>
      !Wrote(s, r, s.log[r].pairs[i].key)
  }

  /** No table has two entries of `r`. */
  ghost predicate Single(s: Store, r: nat) {
    forall k, p, q :: k in s.vts && 0 <= p < q < |s.vts[k]| && s.vts[k][p].rec == r ==> s.vts[k][q].rec != r
  }

  ghost predicate PutOnce(s: Store, r: nat) {
    r < |s.log| && (DistinctKeys(s.log[r]) ==> Unput(s, r) && Single(s, r))
  }

  lemma TableKeepsSingle(s: Store, s': Store, q: nat, i: nat, r: nat)
    requires TableEffect(s, s', q, i) && Single(s, r)
    requires q == r ==> !Wrote(s, r, s.log[q].pairs[i].key)
    ensures Single(s', r)
  {
    var l, e := s.log[q].pairs[i].key, Vte(q, s.log[q].pairs[i].value);
    if l in s.vts {
      var idx: nat :| idx <= |s.vts[l]| && s'.vts == s.vts[l := InsertAt(s.vts[l], idx, e)];
      InsertKeepsSingle(s.vts[l], idx, e, r);
    }
  }

  lemma InsertKeepsSingle(vt: seq<Vte>, idx: nat, e: Vte, r: nat)
    requires idx <= |vt| && (e.rec == r ==> forall p :: 0 <= p < |vt| ==> vt[p].rec != r)
    requires forall p, q :: 0 <= p < q < |vt| && vt[p].rec == r ==> vt[q].rec != r
    ensures var w := InsertAt(vt, idx, e);
            forall p, q :: 0 <= p < q < |w| && w[p].rec == r ==> w[q].rec != r
  {
    var w := InsertAt(vt, idx, e);
    forall p, q | 0 <= p < q < |w| && w[p].rec == r ensures w[q].rec != r {
      if p != idx && q != idx {
        assert w[p] == vt[if p < idx then p else p - 1] && w[q] == vt[if q < idx then q else q - 1];
      }
    }
  }

  lemma TableKeepsUnput(s: Store, s': Store, q: nat, r: nat)
    requires |s.log| == |s'.log| && r < |s.log| && Unput(s, r) && DistinctKeys(s.log[r])
    requires q < |s.log| && (s.log[q].pc.Put? || s.log[q].pc.PutNew?) && TableEffect(s, s', q, s.log[q].pc.i)
    requires s'.log[r].pairs == s.log[r].pairs && PairsLeft(s'.log[r]) <= PairsLeft(s.log[r])
    requires q == r ==> PairsLeft(s'.log[r]) < PairsLeft(s.log[r])
    ensures Unput(s', r)
  {
    forall j | 0 <= j < |s.log[r].pairs| && |s.log[r].pairs| <= PairsLeft(s'.log[r]) + j
      ensures !Wrote(s', r, s.log[r].pairs[j].key)
    {
      OnlyOwnEntry(s, s', q, r, s.log[r].pairs[j].key);
    }
  }

  lemma OwnerPutsOnce(s: Store, q: nat, r: nat)
    requires Good(s) && Enabled(s, q) && !Step(s, q).halted && PutOnce(s, r)
    ensures PutOnce(Step(s, q), r)
  {
    var s' := Step(s, q);
    StepHasEffect(s, q);
    StepAdvances(s, q);
    if DistinctKeys(s.log[r]) && s'.vts != s.vts {
      TableKeepsUnput(s, s', q, r);
      TableKeepsSingle(s, s', q, s.log[q].pc.i, r);
    }
  }

  lemma NextPutsOnce(s: Store, s': Store, r: nat)
    requires Good(s) && Next(s, s') && !s'.halted && r < |s'.log| && (r < |s.log| ==> PutOnce(s, r))
    ensures PutOnce(s', r)
  {
    if q :| Enabled(s, q) && s' == Step(s, q) {
      StepHasEffect(s, q);
      OwnerPutsOnce(s, q, r);
    }
  }

  lemma {:induction false} RunPutsOnce(tr: seq<Store>, n: nat, r: nat)
    requires Run(tr) && n < |tr| && !tr[n].halted && r < |tr[n].log|
    ensures PutOnce(tr[n], r)
    decreases n
  {
    if n > 0 {
      RunNext(tr, n);
      if r < |tr[n - 1].log| { RunPutsOnce(tr, n - 1, r); }
      NextPutsOnce(tr[n - 1], tr[n], r);
    }
  }

  // ---------------------------------------------------------------------------
  // The moment at which the backward scan looked at an entry
  // ---------------------------------------------------------------------------

  /** The owner of `r` is to read the state of `m` a second time. */
  ghost predicate Retests(s: Store, r: nat, m: nat) {
    && r < |s.log| && m < |s.log| && s.log[r].pc.BackRetest? && s.log[r].pc.i < |s.log[r].pairs|
    && var k := ScanKey(s.log[r]);
       k in s.vts && 0 < s.log[r].pc.j <= |s.vts[k]| && s.vts[k][s.log[r].pc.j - 1].rec == m
  }

  /** At moment `t` of the scan that is now to retest `m`, the owner of `r` read the state of
      `m` first; it has not moved since. The record was not ABORTED and ends within the range. */
  ghost predicate Looked(tr: seq<Store>, t: nat, n: nat, r: nat, m: nat)
    requires t < n < |tr| && Retests(tr[n], r, m)
  {
    && r < |tr[t].log| && m < |tr[t].log|
    && tr[t].log[r].pc == Back(tr[n].log[r].pc.i, tr[n].log[r].pc.idx, tr[n].log[r].pc.j)
    && (forall u :: t < u <= n ==> r < |tr[u].log| && tr[u].log[r].pc == tr[n].log[r].pc)
    && tr[t].log[m].state != ABORTED && tr[t].log[r].begin < tr[t].log[m].end
  }

  /** A locked table stays as it is. */
  lemma LockedTableStays(s: Store, q: nat, k: Key)
    requires Wf(s) && Enabled(s, q) && k in s.locks && k in s.vts
    ensures k in Step(s, q).vts && Step(s, q).vts[k] == s.vts[k]
  {
    assert WfPc(s, q);
    match s.log[q].pc
    case Put(i) => assert Step(s, q) == StepPut(s, q, i);
    case PutNew(i) => assert Step(s, q) == StepPutNew(s, q, i);
    case Fwd(i, idx, j) => assert Step(s, q) == StepFwd(s, q, i, idx, j);
    case FwdLocked(i, idx, j) => assert Step(s, q) == StepFwdLocked(s, q, i, idx, j);
    case Back(i, idx, j) => assert Step(s, q) == StepBack(s, q, i, idx, j);
    case BackRetest(i, idx, j) => assert Step(s, q) == StepBackRetest(s, q, i, idx, j);
    case _ =>
  }

  /** What leads an owner to a second read: its own first one. */
  lemma OwnLook(s: Store, r: nat, m: nat)
    requires Good(s) && Enabled(s, r) && Retests(Step(s, r), r, m)
    ensures var pc := Step(s, r).log[r].pc;
            && m < |s.log| && s.log[r].pc == Back(pc.i, pc.idx, pc.j)
            && s.log[m].state != ABORTED && s.log[r].begin < s.log[m].end
  {
    assert WfPc(s, r);
    if !s.log[r].pc.Back? { OwnLookPc(s, r); }
    assert Step(s, r) == StepBack(s, r, s.log[r].pc.i, s.log[r].pc.idx, s.log[r].pc.j);
  }

  lemma OwnLookPc(s: Store, r: nat)
    requires Wf(s) && Enabled(s, r) && !s.log[r].pc.Back?
    ensures r < |Step(s, r).log| && !Step(s, r).log[r].pc.BackRetest?
  {
    assert WfPc(s, r);
    match s.log[r].pc
    case Put(i) => assert Step(s, r) == StepPut(s, r, i);
    case PutNew(i) => assert Step(s, r) == StepPutNew(s, r, i);
    case Fwd(i, idx, j) => assert Step(s, r) == StepFwd(s, r, i, idx, j);
    case FwdLocked(i, idx, j) => assert Step(s, r) == StepFwdLocked(s, r, i, idx, j);
    case BackRetest(i, idx, j) => assert Step(s, r) == StepBackRetest(s, r, i, idx, j);
    case _ =>
  }

  /** Another owner's step leaves the scan where it is. */
  lemma OtherLook(s: Store, q: nat, r: nat, m: nat)
    requires Good(s) && Enabled(s, q) && q != r && Retests(Step(s, q), r, m)
    ensures Retests(s, r, m) && s.log[r].pc == Step(s, q).log[r].pc
  {
    OthersDo(s, q);
    ScanFacts(s, r);
    LockedTableStays(s, q, ScanKey(s.log[r]));
  }

  lemma NextLook(s: Store, s': Store, r: nat, m: nat)
    requires Good(s) && Next(s, s') && !s'.halted && Retests(s', r, m)
    ensures r < |s.log| && m < |s.log|
    ensures || (Retests(s, r, m) && s.log[r].pc == s'.log[r].pc)
            || (&& s.log[r].pc == Back(s'.log[r].pc.i, s'.log[r].pc.idx, s'.log[r].pc.j)
                && s.log[m].state != ABORTED && s.log[r].begin < s.log[m].end)
  {
    if q :| Enabled(s, q) && s' == Step(s, q) {
      if q == r { OwnLook(s, r, m); } else { OtherLook(s, q, r, m); }
    } else {
      TablesInside(s, s', r);
    }
  }

  /** Appending a record or taking a snapshot number: the tables name old records only. */
  lemma TablesInside(s: Store, s': Store, r: nat)
    requires Wf(s) && s'.vts == s.vts && s.log <= s'.log && r < |s'.log|
    requires forall x :: |s.log| <= x < |s'.log| ==> s'.log[x].pc.LinkPrev?
    ensures forall m :: Retests(s', r, m) ==> Retests(s, r, m) && s.log[r].pc == s'.log[r].pc
  {
  }

  lemma RunLook(tr: seq<Store>, n: nat, r: nat, m: nat)
    requires Run(tr) && n < |tr| && !tr[n].halted && Retests(tr[n], r, m)
    ensures n > 0 && !tr[n - 1].halted && r < |tr[n - 1].log| && m < |tr[n - 1].log|
    ensures || (Retests(tr[n - 1], r, m) && tr[n - 1].log[r].pc == tr[n].log[r].pc)
            || Looked(tr, n - 1, n, r, m)
  {
    assert n > 0;
    RunNext(tr, n);
    NextLook(tr[n - 1], tr[n], r, m);
  }

  lemma {:induction false} RetestLooked(tr: seq<Store>, n: nat, r: nat, m: nat) returns (t: nat)
    requires Run(tr) && n < |tr| && !tr[n].halted && Retests(tr[n], r, m)
    ensures t < n && Looked(tr, t, n, r, m)
    decreases n
  {
    RunLook(tr, n, r, m);
    if Retests(tr[n - 1], r, m) && tr[n - 1].log[r].pc == tr[n].log[r].pc {
      t := RetestLooked(tr, n - 1, r, m);
    } else {
      t := n - 1;
    }
  }

  // ---------------------------------------------------------------------------
  // When the backward scan fails a commit
  // ---------------------------------------------------------------------------

  lemma PutGoesOn(s: Store, r: nat)
    requires Wf(s) && Enabled(s, r) && (s.log[r].pc.Put? || s.log[r].pc.PutNew?)
    ensures r < |Step(s, r).log| && Step(s, r).log[r].pc != Finish(false)
  {
    assert WfPc(s, r);
  }

  lemma ScanGoesOn(s: Store, r: nat)
    requires Wf(s) && Enabled(s, r) && (s.log[r].pc.Fwd? || s.log[r].pc.FwdLocked? || s.log[r].pc.Back?)
    ensures r < |Step(s, r).log| && (Step(s, r).log[r].pc != Finish(false))
  {
    assert WfPc(s, r);
    match s.log[r].pc
    case Fwd(i, idx, j) => assert Step(s, r) == StepFwd(s, r, i, idx, j);
    case FwdLocked(i, idx, j) => assert Step(s, r) == StepFwdLocked(s, r, i, idx, j);
    case Back(i, idx, j) => assert Step(s, r) == StepBack(s, r, i, idx, j);
  }

  /** Only a second read leads an owner to give up. */
  lemma GivesUp(s: Store, r: nat)
    requires Wf(s) && Enabled(s, r) && RecordOk(s, r) && !s.log[r].pc.BackRetest? && s.log[r].pc != Finish(false)
    ensures r < |Step(s, r).log| && Step(s, r).log[r].pc != Finish(false)
  {
    if s.log[r].pc.Put? || s.log[r].pc.PutNew? {
      PutGoesOn(s, r);
    } else if Scanning(s.log[r].pc) {
      ScanGoesOn(s, r);
    } else {
      assert WfPc(s, r);
    }
  }

  lemma RetestStep(s: Store, r: nat)
    requires Wf(s) && Enabled(s, r) && s.log[r].pc.BackRetest?
    ensures var s' := Step(s, r);
            && r < |s'.log| && s'.log[r] == s.log[r].(pc := s'.log[r].pc)
            && (s'.log[r].pc.Back? || s'.log[r].pc == Finish(false))
  {
    assert WfPc(s, r);
    assert Step(s, r) == StepBackRetest(s, r, s.log[r].pc.i, s.log[r].pc.idx, s.log[r].pc.j);
  }

  /** The step from `s` to `s'` takes the owner of `r` to failing its commit. */
  ghost predicate Stops(s: Store, s': Store, r: nat) {
    && r < |s.log| && r < |s'.log| && s.log[r].pc != Finish(false) && s'.log[r].pc == Finish(false)
  }

  lemma OwnStop(s: Store, r: nat) returns (m: nat)
    requires Good(s) && Enabled(s, r) && Stops(s, Step(s, r), r)
    ensures Retests(s, r, m) && s.log[m].state != WAIT_TO_ABORT && m <= r
    ensures s.log[r].pc.j <= s.log[r].pc.idx && ScansAt(s, r, ScanKey(s.log[r]), s.log[r].pc.idx)
  {
    assert RecordOk(s, r);
    if !s.log[r].pc.BackRetest? { GivesUp(s, r); }
    ScanFacts(s, r);
    m := s.vts[ScanKey(s.log[r])][s.log[r].pc.j - 1].rec;
    assert Step(s, r) == StepBackRetest(s, r, s.log[r].pc.i, s.log[r].pc.idx, s.log[r].pc.j);
  }

  lemma StopRetests(s: Store, s': Store, r: nat) returns (m: nat)
    requires Good(s) && Next(s, s') && !s'.halted && Stops(s, s', r)
    ensures Retests(s, r, m) && s.log[m].state != WAIT_TO_ABORT && m <= r
    ensures s.log[r].pc.j <= s.log[r].pc.idx && ScansAt(s, r, ScanKey(s.log[r]), s.log[r].pc.idx)
  {
    var q :| Enabled(s, q) && s' == Step(s, q);
    OthersDo(s, q);
    m := OwnStop(s, r);
  }

  /** An owner fails its own commit only because of a record that wrote the key it is
      putting and whose end snapshot lies in the range of its own, so that the two overlap.
      That record was not ABORTED when the scan read its state first and not WAIT_TO_ABORT
      when it did so again. It is another one, unless the commit has two writes for a key. */
  lemma FailsOnConflict(tr: seq<Store>, n: nat, r: nat) returns (t: nat, m: nat)
    requires Run(tr) && n + 1 < |tr| && !tr[n + 1].halted && Stops(tr[n], tr[n + 1], r)
    ensures Retests(tr[n], r, m) && t < n && Looked(tr, t, n, r, m)
    ensures Wrote(tr[n], m, ScanKey(tr[n].log[r]))
    ensures InRange(tr[n].log[r], tr[n].log[m].end) && Overlap(tr[n].log[r], tr[n].log[m])
    ensures tr[t].log[m].state != ABORTED && tr[n].log[m].state != WAIT_TO_ABORT
    ensures m < r || (m == r && !DistinctKeys(tr[n].log[r]))
  {
    RunNext(tr, n + 1);
    m := StopRetests(tr[n], tr[n + 1], r);
    t := RetestLooked(tr, n, r, m);
    RunKeeps(tr, t, n, r, "");
    RunKeeps(tr, t, n, m, "");
    assert InRange(tr[n].log[r], tr[n].log[m].end) && InRange(tr[n].log[m], tr[n].log[m].end);
    RunPutsOnce(tr, n, r);
  }

  // ---------------------------------------------------------------------------
  // What dooms a record
  // ---------------------------------------------------------------------------

  /** The owner of `q` is to fail `r`, whose entry lies behind its own. */
  ghost predicate Fails(s: Store, q: nat, r: nat) {
    ScansOnto(s, q, r) && s.log[q].pc.FwdLocked?
  }

  /** A step of the owner of `q` saves nobody, and dooms `r` in two ways only. */
  ghost predicate DoomStep(s: Store, s': Store, q: nat, r: nat) {
    && r < |s.log| && r < |s'.log|
    && (Dead(s.log[r].state) ==> Dead(s'.log[r].state))
    && (Doomed(s.log[r]) ==> Doomed(s'.log[r]))
    && (Doomed(s'.log[r]) && !Doomed(s.log[r]) ==> (q == r && s.log[r].pc.BackRetest?) || Fails(s, q, r))
  }

  lemma PutDooms(s: Store, q: nat, r: nat)
    requires Wf(s) && Enabled(s, q) && r < |s.log| && (s.log[q].pc.Put? || s.log[q].pc.PutNew?)
    ensures DoomStep(s, Step(s, q), q, r)
  {
    assert WfPc(s, q);
  }

  lemma ForwardDooms(s: Store, q: nat, r: nat)
    requires Wf(s) && Enabled(s, q) && r < |s.log| && (s.log[q].pc.Fwd? || s.log[q].pc.FwdLocked?)
    ensures DoomStep(s, Step(s, q), q, r)
  {
    assert WfPc(s, q);
    match s.log[q].pc
    case Fwd(i, idx, j) => assert Step(s, q) == StepFwd(s, q, i, idx, j);
    case FwdLocked(i, idx, j) => assert Step(s, q) == StepFwdLocked(s, q, i, idx, j);
  }

  lemma BackwardDooms(s: Store, q: nat, r: nat)
    requires Wf(s) && Enabled(s, q) && r < |s.log| && (s.log[q].pc.Back? || s.log[q].pc.BackRetest?)
    ensures DoomStep(s, Step(s, q), q, r)
  {
    assert WfPc(s, q);
    match s.log[q].pc
    case Back(i, idx, j) => assert Step(s, q) == StepBack(s, q, i, idx, j);
    case BackRetest(i, idx, j) => assert Step(s, q) == StepBackRetest(s, q, i, idx, j);
  }

  lemma EarlyDooms(s: Store, q: nat, r: nat)
    requires Wf(s) && Enabled(s, q) && r < |s.log| && StateOk(s.log[q])
    requires s.log[q].pc.LinkPrev? || s.log[q].pc.CheckPrev? || s.log[q].pc.SelfOk? || s.log[q].pc.Begin?
    ensures DoomStep(s, Step(s, q), q, r)
  {
  }

  lemma LateDooms(s: Store, q: nat, r: nat)
    requires Wf(s) && Enabled(s, q) && r < |s.log| && StateOk(s.log[q])
    requires s.log[q].pc.AfterPut? || s.log[q].pc.Finish? || s.log[q].pc.Waiting? || s.log[q].pc.SignalRead?
    ensures DoomStep(s, Step(s, q), q, r)
  {
    assert WfPc(s, q);
  }

  lemma SignalDooms(s: Store, q: nat, r: nat)
    requires Wf(s) && Enabled(s, q) && r < |s.log| && s.log[q].pc.Signal?
    ensures DoomStep(s, Step(s, q), q, r)
  {
    assert WfPc(s, q);
  }

  lemma StepDooms(s: Store, q: nat, r: nat)
    requires Good(s) && Enabled(s, q) && r < |s.log|
    ensures DoomStep(s, Step(s, q), q, r)
  {
    assert RecordOk(s, q);
    match s.log[q].pc
    case Put(_) => PutDooms(s, q, r);
    case PutNew(_) => PutDooms(s, q, r);
    case Fwd(_, _, _) => ForwardDooms(s, q, r);
    case FwdLocked(_, _, _) => ForwardDooms(s, q, r);
    case Back(_, _, _) => BackwardDooms(s, q, r);
    case BackRetest(_, _, _) => BackwardDooms(s, q, r);
    case LinkPrev => EarlyDooms(s, q, r);
    case CheckPrev => EarlyDooms(s, q, r);
    case SelfOk => EarlyDooms(s, q, r);
    case Begin => EarlyDooms(s, q, r);
    case Signal(_) => SignalDooms(s, q, r);
    case _ => LateDooms(s, q, r);
  }

  lemma NextKeepsDoom(s: Store, s': Store, r: nat)
    requires Good(s) && Next(s, s') && r < |s.log|
    ensures r < |s'.log| && (Dead(s.log[r].state) ==> Dead(s'.log[r].state))
    ensures Doomed(s.log[r]) ==> Doomed(s'.log[r])
  {
    if q :| Enabled(s, q) && s' == Step(s, q) { StepDooms(s, q, r); }
  }

  lemma {:induction false} DoomIsForEver(tr: seq<Store>, m: nat, n: nat, r: nat)
    requires Run(tr) && m <= n < |tr| && !tr[n].halted && r < |tr[m].log|
    ensures r < |tr[n].log| && (Dead(tr[m].log[r].state) ==> Dead(tr[n].log[r].state))
    ensures Doomed(tr[m].log[r]) ==> Doomed(tr[n].log[r])
    decreases n
  {
    if m < n {
      RunNext(tr, n);
      DoomIsForEver(tr, m, n - 1, r);
      NextKeepsDoom(tr[n - 1], tr[n], r);
    }
  }

  /** An aborted record stops a commit exactly if its abort became final between the
      two reads. */
  lemma StoppedByDead(tr: seq<Store>, t: nat, n: nat, r: nat, m: nat)
    requires Run(tr) && n < |tr| && !tr[n].halted && Retests(tr[n], r, m) && t < n && Looked(tr, t, n, r, m)
    requires tr[n].log[m].state != WAIT_TO_ABORT
    ensures Dead(tr[t].log[m].state) <==> tr[t].log[m].state == WAIT_TO_ABORT && tr[n].log[m].state == ABORTED
  {
    DoomIsForEver(tr, t, n, m);
  }

  // ---------------------------------------------------------------------------
  // Which records commit
  // ---------------------------------------------------------------------------

  /** The step after moment `u` fails the commit of `r`: either its owner's own backward
      scan stops, or another owner's forward scan fails it. */
  ghost predicate FailedAt(tr: seq<Store>, u: nat, r: nat)
    requires u + 1 < |tr|
  {
    || Stops(tr[u], tr[u + 1], r)
    || (Wf(tr[u]) && exists q :: Enabled(tr[u], q) && Fails(tr[u], q, r) && tr[u + 1] == Step(tr[u], q))
  }

  /** The commit of `r` has been failed before moment `n`. */
  ghost predicate Failed(tr: seq<Store>, n: nat, r: nat) {
    exists u :: 0 <= u < n && u + 1 < |tr| && FailedAt(tr, u, r)
  }

  lemma OwnerDooms(s: Store, q: nat, r: nat)
    requires Good(s) && Enabled(s, q) && r < |s.log| && r < |Step(s, q).log|
    requires Doomed(Step(s, q).log[r]) && !Doomed(s.log[r])
    ensures Stops(s, Step(s, q), r) || Fails(s, q, r)
  {
    StepDooms(s, q, r);
    if !Fails(s, q, r) { RetestStep(s, r); }
  }

  /** A record becomes doomed by a step of some owner. */
  lemma NewlyDoomed(s: Store, s': Store, r: nat) returns (q: nat)
    requires Wf(s) && Next(s, s') && r < |s'.log| && Doomed(s'.log[r])
    requires r < |s.log| ==> !Doomed(s.log[r])
    ensures Enabled(s, q) && s' == Step(s, q) && r < |s.log|
  {
    q :| Enabled(s, q) && s' == Step(s, q);
    OthersDo(s, q);
  }

  lemma {:induction false} DoomedWasFailed(tr: seq<Store>, n: nat, r: nat)
    requires Run(tr) && n < |tr| && !tr[n].halted && r < |tr[n].log| && Doomed(tr[n].log[r])
    ensures Failed(tr, n, r)
    decreases n
  {
    assert n > 0;
    RunNext(tr, n);
    if r < |tr[n - 1].log| && Doomed(tr[n - 1].log[r]) {
      DoomedWasFailed(tr, n - 1, r);
    } else {
      var q := NewlyDoomed(tr[n - 1], tr[n], r);
      OwnerDooms(tr[n - 1], q, r);
      assert FailedAt(tr, n - 1, r);
    }
  }

  lemma FailingDooms(s: Store, q: nat, r: nat)
    requires Wf(s) && Enabled(s, q) && !Step(s, q).halted && Fails(s, q, r)
    ensures r < |Step(s, q).log| && Doomed(Step(s, q).log[r])
  {
    assert WfPc(s, q);
    assert Step(s, q) == StepFwdLocked(s, q, s.log[q].pc.i, s.log[q].pc.idx, s.log[q].pc.j);
  }

  lemma FailedIsDoomed(tr: seq<Store>, u: nat, n: nat, r: nat)
    requires Run(tr) && u < n < |tr| && !tr[n].halted && FailedAt(tr, u, r)
    ensures r < |tr[n].log| && Doomed(tr[n].log[r])
  {
    NotHaltedBefore(tr, u + 1, n);
    if !Stops(tr[u], tr[u + 1], r) {
      var q :| Enabled(tr[u], q) && Fails(tr[u], q, r) && tr[u + 1] == Step(tr[u], q);
      FailingDooms(tr[u], q, r);
    }
    DoomIsForEver(tr, u + 1, n, r);
  }

  /** A record can no longer commit if and only if one of the two scans has failed it. */
  lemma DoomedExactlyIfFailed(tr: seq<Store>, n: nat, r: nat)
    requires Run(tr) && n < |tr| && !tr[n].halted && r < |tr[n].log|
    ensures Doomed(tr[n].log[r]) <==> Failed(tr, n, r)
  {
    if Doomed(tr[n].log[r]) { DoomedWasFailed(tr, n, r); }
    if Failed(tr, n, r) {
      var u :| 0 <= u < n && u + 1 < |tr| && FailedAt(tr, u, r);
      FailedIsDoomed(tr, u, n, r);
    }
  }

  /** So a final record is aborted if it was failed, and committed if it was not. By
      StuckMeansFinal owners that cannot go on have made every record final. */
  lemma CommitsUnlessFailed(tr: seq<Store>, n: nat, r: nat)
    requires Run(tr) && n < |tr| && !tr[n].halted && r < |tr[n].log|
    requires Final(tr[n].log[r].state) || forall e: nat :: !Enabled(tr[n], e)
    ensures tr[n].log[r].state == if Failed(tr, n, r) then ABORTED else COMMITTED
  {
    RunIsGood(tr, n);
    if !Final(tr[n].log[r].state) { StuckIsFinal(tr[n], r); }
    assert RecordOk(tr[n], r);
    DoomedExactlyIfFailed(tr, n, r);
  }

  // ---------------------------------------------------------------------------
  // A failed merger gives up early
  // ---------------------------------------------------------------------------

  predicate PutsNoMore(pc: Pc) {
    pc.Finish? || pc.Waiting? || pc.SignalRead? || pc.Signal? || pc.Done?
  }

  /** The owner is past its last put: pair `i`, or none at all. */
  predicate PastPut(c: Record, i: nat) {
    Dead(c.state) && (c.pc == AfterPut(i) || PutsNoMore(c.pc))
  }

  lemma OwnPastPut(s: Store, r: nat, i: nat)
    requires Wf(s) && Enabled(s, r) && PastPut(s.log[r], i)
    ensures r < |Step(s, r).log| && PutsNoMore(Step(s, r).log[r].pc)
  {
    assert WfPc(s, r);
  }

  lemma StaysPast(s: Store, s': Store, r: nat, i: nat)
    requires Good(s) && Next(s, s') && r < |s.log| && PastPut(s.log[r], i)
    ensures r < |s'.log| && PastPut(s'.log[r], i)
  {
    NextKeepsDoom(s, s', r);
    if q :| Enabled(s, q) && s' == Step(s, q) {
      if q == r { OwnPastPut(s, r, i); } else { OthersDo(s, q); }
    }
  }

  lemma RunStaysPast(tr: seq<Store>, n: nat, r: nat, i: nat)
    requires Run(tr) && 0 < n < |tr| && !tr[n].halted
    requires r < |tr[n - 1].log| && PastPut(tr[n - 1].log[r], i)
    ensures r < |tr[n].log| && PastPut(tr[n].log[r], i)
  {
    RunNext(tr, n);
    StaysPast(tr[n - 1], tr[n], r, i);
  }

  /** An owner that has put a pair while its record was failed puts no other one. */
  lemma {:induction false} FailedMergerStops(tr: seq<Store>, m: nat, n: nat, r: nat, i: nat)
    requires Run(tr) && m <= n < |tr| && !tr[n].halted && r < |tr[m].log|
    requires tr[m].log[r].pc == AfterPut(i) && Dead(tr[m].log[r].state)
    ensures r < |tr[n].log| && Dead(tr[n].log[r].state)
    ensures tr[n].log[r].pc == AfterPut(i) || PutsNoMore(tr[n].log[r].pc)
    decreases n
  {
    if m < n {
      NotHaltedBefore(tr, n - 1, n);
      FailedMergerStops(tr, m, n - 1, r, i);
      RunStaysPast(tr, n, r, i);
    }
  }
}
