/** What every step of Echo's commit protocol keeps. */
module EchoInvariant {
  import opened CommitState
  import opened EchoProtocol
  import opened Wrappers

  /** Log order, end-snapshot order and begin < end agree. */
  ghost predicate Ordered(s: Store) {
    && (forall r :: 0 <= r < |s.log| ==> s.log[r].begin < s.log[r].end < s.global)
    && (forall a, b :: 0 <= a < b < |s.log| ==> s.log[a].end < s.log[b].end)
  }

  /** No table is empty and every table is sorted in log order. */
  ghost predicate TablesOk(s: Store) {
    && (forall k :: k in s.vts ==> |s.vts[k]| > 0)
    && (forall k, p, q :: k in s.vts && 0 <= p < q < |s.vts[k]| ==> s.vts[k][p].rec <= s.vts[k][q].rec)
  }

  /** The owner has begun its merge. */
  predicate Started(pc: Pc) {
    !pc.LinkPrev? && !pc.CheckPrev? && !pc.SelfOk? && !pc.Begin?
  }

  /** Every entry is one of the writes of a record whose merge has begun. */
  ghost predicate SourceOk(s: Store)
    requires Wf(s)
  {
    forall k, p :: k in s.vts && 0 <= p < |s.vts[k]| ==>
      && Pair(k, s.vts[k][p].value) in s.log[s.vts[k][p].rec].pairs
      && Started(s.log[s.vts[k][p].rec].pc)
  }

  /** The owner of `r` is inside the table of `k`, with its new entry at `idx`. */
  ghost predicate ScansAt(s: Store, r: nat, k: Key, idx: nat)
    requires r < |s.log|
  {
    && Scanning(s.log[r].pc)
    && s.log[r].pc.i < |s.log[r].pairs|
    && ScanKey(s.log[r]) == k
    && s.log[r].pc.idx == idx
    && k in s.vts && idx < |s.vts[k]|
    && s.vts[k][idx].rec == r
    && (forall q :: idx < q < |s.vts[k]| ==> r < s.vts[k][q].rec)
  }

  /** A table is locked exactly by the owner scanning it. */
  ghost predicate LockOk(s: Store) {
    LocksHeld(s) && ScansHold(s)
  }

  ghost predicate LocksHeld(s: Store) {
    forall k :: k in s.locks ==>
      && s.locks[k] < |s.log| && Scanning(s.log[s.locks[k]].pc)
      && ScansAt(s, s.locks[k], k, s.log[s.locks[k]].pc.idx)
  }

  ghost predicate ScansHold(s: Store) {
    forall r :: 0 <= r < |s.log| && Scanning(s.log[r].pc) ==>
      && s.log[r].pc.i < |s.log[r].pairs|
      && ScanKey(s.log[r]) in s.locks && s.locks[ScanKey(s.log[r])] == r
  }

  /** Which states go with which program points. */
  predicate StateOk(c: Record) {
    match c.pc
    case LinkPrev => c.state == CREATED || c.state == CREATED_OK
    case CheckPrev => c.state == CREATED || c.state == CREATED_OK
    case SelfOk => c.state == CREATED || c.state == CREATED_OK
    case Begin => c.state == CREATED || c.state == CREATED_OK
    case Waiting => Waits(c.state) || Final(c.state)
    case SignalRead => Final(c.state)
    case Signal(_) => Final(c.state)
    case Done => Final(c.state)
    case _ => c.state == INPROGRESS || c.state == INPROGRESS_OK || Dead(c.state)
  }

  /** Being told, or about to tell oneself, implies a final predecessor. */
  ghost predicate ChainOk(s: Store, r: nat)
    requires r < |s.log|
  {
    Told(s.log[r].state) || s.log[r].pc.SelfOk? ==> r == 0 || Final(s.log[r - 1].state)
  }

  /** `next_cr` is set exactly when the successor has linked itself. */
  ghost predicate LinkOk(s: Store, r: nat)
    requires r < |s.log|
  {
    && s.log[r].next == (if r + 1 < |s.log| && !s.log[r + 1].pc.LinkPrev? then Some(r + 1) else None)
    && (s.log[r].pc.Signal? ==> s.log[r].next == Some(s.log[r].pc.next))
  }

  /** No lost signal: an untold record will still look itself, or its
      predecessor's owner has not finished. */
  ghost predicate TellOk(s: Store, r: nat)
    requires r < |s.log|
  {
    Untold(s.log[r].state) ==>
      || s.log[r].pc.LinkPrev? || s.log[r].pc.CheckPrev? || s.log[r].pc.SelfOk?
      || (r > 0 && !s.log[r - 1].pc.Done?)
  }

  ghost predicate InTable(s: Store, r: nat, pair: Pair) {
    pair.key in s.vts && Vte(r, pair.value) in s.vts[pair.key]
  }

  /** The number of pairs whose put has reached the tables (or was ignored). */
  function Processed(c: Record): nat {
    match c.pc
    case Put(i) => i
    case PutNew(i) => i
    case Fwd(i, _, _) => i + 1
    case FwdLocked(i, _, _) => i + 1
    case Back(i, _, _) => i + 1
    case BackRetest(i, _, _) => i + 1
    case AfterPut(i) => i + 1
    case Finish(success) => if success && !Dead(c.state) then |c.pairs| else 0
    case Waiting => if Dead(c.state) then 0 else |c.pairs|
    case SignalRead => if Dead(c.state) then 0 else |c.pairs|
    case Signal(_) => if Dead(c.state) then 0 else |c.pairs|
    case Done => if Dead(c.state) then 0 else |c.pairs|
    case _ => 0
  }

  /** Every processed write of a value is in its table. */
  ghost predicate WrittenOk(s: Store, r: nat)
    requires r < |s.log|
  {
    forall i :: 0 <= i < Processed(s.log[r]) && i < |s.log[r].pairs| && s.log[r].pairs[i].value.Some? ==>
      InTable(s, r, s.log[r].pairs[i])
  }

  /** The record is dead, or its owner has found a conflict and will kill it. */
  predicate Doomed(c: Record) {
    Dead(c.state) || c.pc == Finish(false)
  }

  /** Entry `p` was just inserted and its owner has still to fail entry `q`. */
  ghost predicate PendingFwd(s: Store, k: Key, p: nat, q: nat)
    requires Wf(s) && k in s.vts && p < |s.vts[k]| && q < |s.vts[k]|
  {
    var c := s.log[s.vts[k][p].rec];
    k in s.locks && s.locks[k] == s.vts[k][p].rec &&
    (c.pc.Fwd? || c.pc.FwdLocked?) && c.pc.idx == p && c.pc.j <= q
  }

  /** Entry `q` was just inserted and its owner has still to look at entry `p`. */
  ghost predicate PendingBack(s: Store, k: Key, p: nat, q: nat)
    requires Wf(s) && k in s.vts && p < |s.vts[k]| && q < |s.vts[k]|
  {
    var c := s.log[s.vts[k][q].rec];
    k in s.locks && s.locks[k] == s.vts[k][q].rec && Scanning(c.pc) && c.pc.idx == q &&
    (c.pc.Fwd? || c.pc.FwdLocked? || p < c.pc.j)
  }

  /** Two writers of a key: ranges disjoint, one doomed, or a scan still to come. */
  ghost predicate PairOk(s: Store, k: Key, p: nat, q: nat)
    requires Wf(s) && k in s.vts && p < q < |s.vts[k]|
  {
    var a, b := s.vts[k][p].rec, s.vts[k][q].rec;
    || a == b
    || s.log[a].end <= s.log[b].begin
    || Doomed(s.log[a]) || Doomed(s.log[b])
    || PendingFwd(s, k, p, q)
    || PendingBack(s, k, p, q)
  }

  ghost predicate ConflictsOk(s: Store)
    requires Wf(s)
  {
    forall k, p: nat, q: nat :: k in s.vts && p < q < |s.vts[k]| ==> PairOk(s, k, p, q)
  }

  ghost predicate RecordOk(s: Store, r: nat)
    requires r < |s.log|
  {
    StateOk(s.log[r]) && ChainOk(s, r) && LinkOk(s, r) && TellOk(s, r) && WrittenOk(s, r)
  }

  ghost predicate RecordsOk(s: Store) {
    forall r: nat :: r < |s.log| ==> RecordOk(s, r)
  }

  ghost predicate Good(s: Store) {
    Wf(s) && Ordered(s) && TablesOk(s) && SourceOk(s) && LockOk(s) && RecordsOk(s) && ConflictsOk(s)
  }

  // ---------------------------------------------------------------------------
  // Steps that change only the program counter of `r`, the state of `m` and locks
  // ---------------------------------------------------------------------------

  ghost predicate Quiet(s: Store, s': Store, r: nat, m: nat) {
    && |s'.log| == |s.log| && s'.vts == s.vts && s'.global == s.global
    && r < |s.log| && m < |s.log|
    && (forall x :: 0 <= x < |s.log| ==>
          && s'.log[x].begin == s.log[x].begin && s'.log[x].end == s.log[x].end
          && s'.log[x].pairs == s.log[x].pairs)
    && (forall x :: 0 <= x < |s.log| && x != r ==> s'.log[x].pc == s.log[x].pc)
    && (forall x :: 0 <= x < |s.log| && x != m ==> s'.log[x].state == s.log[x].state)
    && (Started(s.log[r].pc) ==> Started(s'.log[r].pc))
  }

  lemma QuietData(s: Store, s': Store, r: nat, m: nat)
    requires Wf(s) && Ordered(s) && TablesOk(s) && SourceOk(s)
    requires Quiet(s, s', r, m) && WfPc(s', r)
    ensures Wf(s') && Ordered(s') && TablesOk(s') && SourceOk(s')
  {
    forall x | 0 <= x < |s'.log| ensures WfPc(s', x) {
      assert WfPc(s, x);
    }
  }

  /** The scan position does not move, or the owner leaves the table. */
  ghost predicate LockStep(s: Store, s': Store, r: nat)
    requires r < |s.log| && r < |s'.log|
  {
    var c, c' := s.log[r], s'.log[r];
    if !Scanning(c.pc) then !Scanning(c'.pc) && s'.locks == s.locks
    else if Scanning(c'.pc) then c'.pc.i == c.pc.i && c'.pc.idx == c.pc.idx && s'.locks == s.locks
    else c.pc.i < |c.pairs| && s'.locks == s.locks - {ScanKey(c)}
  }

  lemma QuietLocks(s: Store, s': Store, r: nat, m: nat)
    requires LockOk(s) && Quiet(s, s', r, m) && LockStep(s, s', r)
    ensures LockOk(s')
  {
    QuietHeld(s, s', r, m);
    QuietHold(s, s', r, m);
  }

  lemma QuietHeld(s: Store, s': Store, r: nat, m: nat)
    requires LockOk(s) && Quiet(s, s', r, m) && LockStep(s, s', r)
    ensures LocksHeld(s')
  {
    forall k | k in s'.locks
      ensures s'.locks[k] < |s'.log| && Scanning(s'.log[s'.locks[k]].pc)
      ensures ScansAt(s', s'.locks[k], k, s'.log[s'.locks[k]].pc.idx)
    {
      assert k in s.locks && s'.locks[k] == s.locks[k];
      assert ScansAt(s, s.locks[k], k, s.log[s.locks[k]].pc.idx);
    }
  }

  lemma QuietHold(s: Store, s': Store, r: nat, m: nat)
    requires LockOk(s) && Quiet(s, s', r, m) && LockStep(s, s', r)
    ensures ScansHold(s')
  {
  }

  /** What a quiet step owes at the two records it touches. */
  ghost predicate RecordStep(s: Store, s': Store, r: nat, m: nat)
    requires Quiet(s, s', r, m)
  {
    && !s.log[r].pc.LinkPrev? && !s'.log[r].pc.LinkPrev?
    && (forall x :: 0 <= x < |s.log| ==> s'.log[x].next == s.log[x].next)
    && (Final(s.log[m].state) ==> Final(s'.log[m].state))
    && StateOk(s'.log[r]) && ChainOk(s', r) && TellOk(s', r) && WrittenOk(s', r)
    && StateOk(s'.log[m]) && ChainOk(s', m) && TellOk(s', m) && WrittenOk(s', m)
    && (s'.log[r].pc.Signal? ==> s.log[r].next == Some(s'.log[r].pc.next))
    && (r + 1 < |s.log| ==> TellOk(s', r + 1))
  }

  lemma QuietRecord(s: Store, s': Store, r: nat, m: nat, x: nat)
    requires x < |s.log| && RecordOk(s, x)
    requires Quiet(s, s', r, m) && RecordStep(s, s', r, m)
    ensures RecordOk(s', x)
  {
    if x != m && x != r {
      assert s'.log[x] == s.log[x];
      assert WrittenOk(s', x);
    }
  }

  lemma QuietRecords(s: Store, s': Store, r: nat, m: nat)
    requires RecordsOk(s) && Quiet(s, s', r, m) && RecordStep(s, s', r, m)
    ensures RecordsOk(s')
  {
    forall x: nat | x < |s'.log| ensures RecordOk(s', x) {
      assert RecordOk(s, x);
      QuietRecord(s, s', r, m, x);
    }
  }

  /** A dying record stays doomed. */
  ghost predicate DoomKept(s: Store, s': Store, r: nat, m: nat)
    requires r < |s.log| && r < |s'.log| && m < |s.log| && m < |s'.log|
  {
    (Doomed(s.log[r]) ==> Doomed(s'.log[r])) && (Doomed(s.log[m]) ==> Doomed(s'.log[m]))
  }

  lemma QuietConflicts(s: Store, s': Store, r: nat, m: nat)
    requires Wf(s) && Wf(s') && ConflictsOk(s) && Quiet(s, s', r, m) && DoomKept(s, s', r, m)
    requires !Scanning(s.log[r].pc) && s'.locks == s.locks
    ensures ConflictsOk(s')
  {
    forall k, p: nat, q: nat | k in s'.vts && p < q < |s'.vts[k]|
      ensures PairOk(s', k, p, q)
    {
      assert PairOk(s, k, p, q);
    }
  }

  /** Everything a quiet step outside a table owes. */
  ghost predicate QuietStep(s: Store, s': Store, r: nat, m: nat) {
    && Quiet(s, s', r, m) && RecordStep(s, s', r, m) && DoomKept(s, s', r, m)
    && WfPc(s', r) && LockStep(s, s', r)
  }

  /** The invariant of `r` and of its two neighbours in the log. */
  ghost predicate Around(s: Store, r: nat) {
    && r < |s.log| && RecordOk(s, r)
    && (r > 0 ==> RecordOk(s, r - 1))
    && (r + 1 < |s.log| ==> RecordOk(s, r + 1))
  }

  lemma CheckPrevStep(s: Store, r: nat)
    requires Wf(s) && Enabled(s, r) && Around(s, r) && s.log[r].pc.CheckPrev?
    ensures QuietStep(s, Step(s, r), r, r)
  {
    var c, s' := s.log[r], Step(s, r);
    assert StateOk(c) && s'.log[r] == c.(pc := s'.log[r].pc);
    assert Quiet(s, s', r, r);
    assert RecordStep(s, s', r, r);
  }

  lemma SelfOkStep(s: Store, r: nat)
    requires Wf(s) && Enabled(s, r) && Around(s, r) && s.log[r].pc.SelfOk?
    ensures QuietStep(s, Step(s, r), r, r) && !Step(s, r).halted
  {
    var c, s' := s.log[r], Step(s, r);
    assert s'.log[r] == c.(state := CREATED_OK, pc := Begin);
    assert Quiet(s, s', r, r);
    assert ChainOk(s, r);
    assert RecordStep(s, s', r, r);
  }

  lemma BeginStep(s: Store, r: nat)
    requires Wf(s) && Enabled(s, r) && Around(s, r) && s.log[r].pc.Begin?
    ensures QuietStep(s, Step(s, r), r, r) && !Step(s, r).halted
  {
    var c, s' := s.log[r], Step(s, r);
    assert StateOk(c);
    assert s'.log[r] == BegunRecord(c);
    assert Quiet(s, s', r, r);
    BegunIsOk(s, s', r);
  }

  function BegunRecord(c: Record): Record {
    c.(state := if c.state == CREATED then INPROGRESS else INPROGRESS_OK, pc := FirstPut(c))
  }

  lemma BegunIsOk(s: Store, s': Store, r: nat)
    requires Around(s, r) && Quiet(s, s', r, r) && s.log[r].pc.Begin? && s'.log[r] == BegunRecord(s.log[r])
    requires forall x :: 0 <= x < |s.log| ==> s'.log[x].next == s.log[x].next
    ensures RecordStep(s, s', r, r) && DoomKept(s, s', r, r)
  {
    var c := s.log[r];
    assert StateOk(c) && ChainOk(s, r) && TellOk(s, r);
    assert c.state == CREATED || c.state == CREATED_OK;
  }

  lemma AfterPutStep(s: Store, r: nat)
    requires Wf(s) && Enabled(s, r) && Around(s, r) && s.log[r].pc.AfterPut?
    ensures QuietStep(s, Step(s, r), r, r)
  {
    assert WfPc(s, r);
    var c, s' := s.log[r], Step(s, r);
    assert s'.log[r] == NextPut(c);
    assert Quiet(s, s', r, r);
    NextPutIsOk(s, s', r);
  }

  function NextPut(c: Record): Record
    requires c.pc.AfterPut?
  {
    c.(pc := if Dead(c.state) || c.pc.i + 1 == |c.pairs| then Finish(true) else Put(c.pc.i + 1))
  }

  lemma NextPutIsOk(s: Store, s': Store, r: nat)
    requires Around(s, r) && WfPc(s, r) && Quiet(s, s', r, r) && s.log[r].pc.AfterPut? && s'.log[r] == NextPut(s.log[r])
    requires forall x :: 0 <= x < |s.log| ==> s'.log[x].next == s.log[x].next
    ensures RecordStep(s, s', r, r) && DoomKept(s, s', r, r)
  {
    assert StateOk(s.log[r]) && ChainOk(s, r);
    assert WrittenOk(s', r) by { assert WrittenOk(s, r); }
  }

  lemma FinishStep(s: Store, r: nat)
    requires Wf(s) && Enabled(s, r) && Around(s, r) && s.log[r].pc.Finish?
    ensures QuietStep(s, Step(s, r), r, r) && !Step(s, r).halted
  {
    var c, s' := s.log[r], Step(s, r);
    assert StateOk(c);
    assert s'.log[r] == FinishedRecord(c);
    assert Quiet(s, s', r, r);
    FinishedIsOk(s, s', r);
  }

  function FinishedRecord(c: Record): Record
    requires c.pc.Finish?
  {
    var st := Transition(c.state, false, c.pc.success);
    c.(state := st, pc := if Waits(st) then Waiting else SignalRead)
  }

  lemma FinishedIsOk(s: Store, s': Store, r: nat)
    requires Around(s, r) && Quiet(s, s', r, r) && s.log[r].pc.Finish? && s'.log[r] == FinishedRecord(s.log[r])
    requires forall x :: 0 <= x < |s.log| ==> s'.log[x].next == s.log[x].next
    ensures RecordStep(s, s', r, r) && DoomKept(s, s', r, r)
  {
    var c := s.log[r];
    assert StateOk(c) && ChainOk(s, r);
    assert c.state == INPROGRESS || c.state == INPROGRESS_OK || Dead(c.state);
    assert WrittenOk(s', r) by { assert WrittenOk(s, r); }
  }

  lemma WaitingStep(s: Store, r: nat)
    requires Wf(s) && Enabled(s, r) && Around(s, r) && s.log[r].pc.Waiting?
    ensures QuietStep(s, Step(s, r), r, r)
  {
    var c, s' := s.log[r], Step(s, r);
    assert StateOk(c) && s'.log[r] == c.(pc := SignalRead);
    assert Quiet(s, s', r, r);
    assert WrittenOk(s', r) by { assert WrittenOk(s, r); }
    assert RecordStep(s, s', r, r);
  }

  lemma SignalReadStep(s: Store, r: nat)
    requires Wf(s) && Enabled(s, r) && Around(s, r) && s.log[r].pc.SignalRead?
    ensures QuietStep(s, Step(s, r), r, r)
  {
    var c, s' := s.log[r], Step(s, r);
    assert StateOk(c) && LinkOk(s, r) && s'.log[r] == c.(pc := s'.log[r].pc);
    assert Quiet(s, s', r, r);
    assert WrittenOk(s', r) by { assert WrittenOk(s, r); }
    assert RecordStep(s, s', r, r);
  }

  lemma SignalStep(s: Store, r: nat, n: nat, s': Store)
    requires Wf(s) && n < |s.log| && n == r + 1 && RecordOk(s, r) && RecordOk(s, n)
    requires s.log[r].pc == Signal(n)
    requires s' == SetPc(Apply(s, n, true, true), r, Done)
    ensures QuietStep(s, s', r, n)
    ensures s'.halted == s.halted && Told(s'.log[n].state)
  {
    var c, d := s.log[r], s.log[n];
    assert s'.log[n] == d.(state := Transition(d.state, true, true));
    assert s'.log[r] == c.(pc := Done);
    assert Quiet(s, s', r, n);
    SignaledIsOk(s, s', r, n);
  }

  lemma SignaledIsOk(s: Store, s': Store, r: nat, n: nat)
    requires n < |s.log| && n == r + 1 && RecordOk(s, r) && RecordOk(s, n) && s.log[r].pc == Signal(n)
    requires Quiet(s, s', r, n) && s'.log[r] == s.log[r].(pc := Done)
    requires s'.log[n] == s.log[n].(state := Transition(s.log[n].state, true, true))
    requires forall x :: 0 <= x < |s.log| ==> s'.log[x].next == s.log[x].next
    ensures RecordStep(s, s', r, n) && DoomKept(s, s', r, n)
    ensures Told(s'.log[n].state) && s'.log[n].state != UNDEFINED
  {
    ToldRecord(s, s', r, n);
    assert StateOk(s.log[r]) && ChainOk(s, r);
    assert WrittenOk(s', r) by { assert WrittenOk(s, r); }
  }

  /** A record that is told its predecessor is final. */
  lemma ToldState(c: Record, d: Record)
    requires StateOk(c) && !c.pc.LinkPrev? && d == c.(state := Transition(c.state, true, true))
    ensures StateOk(d) && Told(d.state) && d.state != UNDEFINED && !Untold(d.state)
    ensures (Final(c.state) ==> Final(d.state)) && (Doomed(c) ==> Doomed(d)) && Processed(d) <= Processed(c)
  {
  }

  lemma ToldRecord(s: Store, s': Store, r: nat, n: nat)
    requires n < |s.log| && n == r + 1 && RecordOk(s, r) && RecordOk(s, n) && s.log[r].pc == Signal(n)
    requires Quiet(s, s', r, n) && s'.log[r] == s.log[r].(pc := Done)
    requires s'.log[n] == s.log[n].(state := Transition(s.log[n].state, true, true))
    ensures StateOk(s'.log[n]) && ChainOk(s', n) && TellOk(s', n) && WrittenOk(s', n) && !s.log[n].pc.LinkPrev?
    ensures Told(s'.log[n].state) && s'.log[n].state != UNDEFINED && (Final(s.log[n].state) ==> Final(s'.log[n].state))
    ensures Doomed(s.log[n]) ==> Doomed(s'.log[n])
  {
    assert LinkOk(s, r) && StateOk(s.log[r]);
    assert Final(s'.log[r].state);
    ToldState(s.log[n], s'.log[n]);
    assert WrittenOk(s', n) by { assert WrittenOk(s, n); }
  }

  lemma QuietPutStep(s: Store, r: nat, i: nat, pc: Pc)
    requires Wf(s) && Around(s, r) && i < |s.log[r].pairs|
    requires s.log[r].pc == Put(i) || s.log[r].pc == PutNew(i)
    requires || pc == Put(i) || pc == PutNew(i)
             || (pc == AfterPut(i) && s.log[r].pairs[i].value.None?)
    ensures QuietStep(s, SetPc(s, r, pc), r, r)
  {
    var s' := SetPc(s, r, pc);
    assert s'.log[r] == s.log[r].(pc := pc);
    assert Quiet(s, s', r, r);
    QuietPutRecord(s, s', r, i, pc);
  }

  lemma QuietPutRecord(s: Store, s': Store, r: nat, i: nat, pc: Pc)
    requires Around(s, r) && Quiet(s, s', r, r) && i < |s.log[r].pairs|
    requires s.log[r].pc == Put(i) || s.log[r].pc == PutNew(i)
    requires pc == Put(i) || pc == PutNew(i) || (pc == AfterPut(i) && s.log[r].pairs[i].value.None?)
    requires s'.log[r] == s.log[r].(pc := pc) && forall x :: 0 <= x < |s.log| ==> s'.log[x].next == s.log[x].next
    ensures RecordStep(s, s', r, r)
  {
    assert StateOk(s.log[r]) && ChainOk(s, r);
    assert WrittenOk(s', r) by { assert WrittenOk(s, r); }
  }

  // ---------------------------------------------------------------------------
  // Steps inside a version table
  // ---------------------------------------------------------------------------

  /** `s'` is `s` with the scanning owner of `r` moved to `pc`, unlocking on exit. */
  ghost predicate Moved(s: Store, s': Store, r: nat, pc: Pc)
    requires r < |s.log| && Scanning(s.log[r].pc) && s.log[r].pc.i < |s.log[r].pairs|
  {
    if Scanning(pc) then
      pc.i == s.log[r].pc.i && pc.idx == s.log[r].pc.idx && s' == SetPc(s, r, pc)
    else
      (pc == AfterPut(s.log[r].pc.i) || pc == Finish(false)) &&
      s' == SetPc(Unlock(s, ScanKey(s.log[r])), r, pc)
  }

  lemma MoveStep(s: Store, s': Store, r: nat, pc: Pc)
    requires Wf(s) && r < |s.log| && RecordOk(s, r) && (r + 1 < |s.log| ==> RecordOk(s, r + 1))
    requires Scanning(s.log[r].pc) && s.log[r].pc.i < |s.log[r].pairs|
    requires Moved(s, s', r, pc) && WfPc(s', r)
    ensures QuietStep(s, s', r, r)
  {
    MovedQuiet(s, s', r, pc);
    MovedRecord(s, s', r, pc);
  }

  lemma MovedQuiet(s: Store, s': Store, r: nat, pc: Pc)
    requires r < |s.log| && Scanning(s.log[r].pc) && s.log[r].pc.i < |s.log[r].pairs| && Moved(s, s', r, pc)
    ensures Quiet(s, s', r, r) && LockStep(s, s', r) && s'.log[r] == s.log[r].(pc := pc)
    ensures forall x :: 0 <= x < |s.log| ==> s'.log[x].next == s.log[x].next
    ensures DoomKept(s, s', r, r)
  {
    assert s'.log[r] == s.log[r].(pc := pc);
  }

  lemma MovedRecord(s: Store, s': Store, r: nat, pc: Pc)
    requires r < |s.log| && RecordOk(s, r) && (r + 1 < |s.log| ==> RecordOk(s, r + 1))
    requires Quiet(s, s', r, r) && Scanning(s.log[r].pc) && s.log[r].pc.i < |s.log[r].pairs|
    requires s'.log[r] == s.log[r].(pc := pc)
    requires if Scanning(pc) then pc.i == s.log[r].pc.i else pc == AfterPut(s.log[r].pc.i) || pc == Finish(false)
    requires forall x :: 0 <= x < |s.log| ==> s'.log[x].next == s.log[x].next
    ensures RecordStep(s, s', r, r)
  {
    assert WrittenOk(s', r) by { assert WrittenOk(s, r); }
    assert StateOk(s'.log[r]);
  }

  /** The record at entry `j` after its failed transition. */
  lemma FailedRecord(s: Store, s': Store, r: nat, m: nat)
    requires r < m < |s.log| && RecordOk(s, m) && Quiet(s, s', r, m)
    requires Scanning(s.log[r].pc) && Scanning(s'.log[r].pc)
    requires Started(s.log[m].pc) && s.log[m].state != COMMITTED
    requires s'.log[m] == s.log[m].(state := Transition(s.log[m].state, false, false))
    ensures Dead(s'.log[m].state) && StateOk(s'.log[m]) && ChainOk(s', m) && TellOk(s', m) && WrittenOk(s', m)
  {
    assert WrittenOk(s', m) by { assert WrittenOk(s, m); }
  }

  /** The aborting record itself, and the told-ness of its successor. */
  lemma FailingRecord(s: Store, s': Store, r: nat, m: nat)
    requires r < m < |s.log| && RecordOk(s, r) && Quiet(s, s', r, m)
    requires Scanning(s.log[r].pc) && Scanning(s'.log[r].pc) && s'.log[r].pc.i == s.log[r].pc.i
    requires s'.log[r] == s.log[r].(pc := s'.log[r].pc)
    ensures StateOk(s'.log[r]) && ChainOk(s', r) && TellOk(s', r) && WrittenOk(s', r)
    ensures r + 1 < |s.log| ==> TellOk(s', r + 1)
  {
    assert WrittenOk(s', r) by { assert WrittenOk(s, r); }
  }

  lemma FailLaterStep(s: Store, s': Store, r: nat, m: nat, i: nat, idx: nat, j: nat)
    requires r < m < |s.log| && RecordOk(s, r) && RecordOk(s, m)
    requires s.log[r].pc == FwdLocked(i, idx, j) && Started(s.log[m].pc) && s.log[m].state != COMMITTED
    requires Quiet(s, s', r, m) && WfPc(s', r) && s'.locks == s.locks
    requires s'.log[r] == s.log[r].(pc := Fwd(i, idx, j + 1))
    requires s'.log[m] == s.log[m].(state := Transition(s.log[m].state, false, false))
    requires forall x :: 0 <= x < |s.log| ==> s'.log[x].next == s.log[x].next
    ensures QuietStep(s, s', r, m) && Dead(s'.log[m].state)
  {
    FailedRecord(s, s', r, m);
    FailingRecord(s, s', r, m);
  }

  /** The two entries cannot both be committed with overlapping ranges. */
  ghost predicate Settled(s: Store, k: Key, p: nat, q: nat)
    requires Wf(s) && k in s.vts && p < q < |s.vts[k]|
  {
    var a, b := s.vts[k][p].rec, s.vts[k][q].rec;
    a == b || s.log[a].end <= s.log[b].begin || Doomed(s.log[a]) || Doomed(s.log[b])
  }

  /** The entries a scanning step no longer promises to look at are settled. */
  ghost predicate ScanSettles(s: Store, s': Store, r: nat)
    requires Wf(s) && Wf(s') && s'.vts == s.vts && r < |s.log| && Scanning(s.log[r].pc)
  {
    assert WfPc(s, r);
    var k, idx := ScanKey(s.log[r]), s.log[r].pc.idx;
    && (forall q: nat :: idx < q < |s.vts[k]| && PendingFwd(s, k, idx, q) ==>
          PendingFwd(s', k, idx, q) || Settled(s', k, idx, q))
    && (forall p: nat :: p < idx && PendingBack(s, k, p, idx) ==>
          PendingBack(s', k, p, idx) || Settled(s', k, p, idx))
  }

  lemma ScanConflicts(s: Store, s': Store, r: nat, m: nat)
    requires Wf(s) && Wf(s') && LockOk(s) && ConflictsOk(s)
    requires Quiet(s, s', r, m) && DoomKept(s, s', r, m) && LockStep(s, s', r)
    requires Scanning(s.log[r].pc) && ScanSettles(s, s', r)
    ensures ConflictsOk(s')
  {
    forall k, p: nat, q: nat | k in s'.vts && p < q < |s'.vts[k]|
      ensures PairOk(s', k, p, q)
    {
      assert PairOk(s, k, p, q);
      ScanConflict(s, s', r, m, k, p, q);
    }
  }

  lemma ScanConflict(s: Store, s': Store, r: nat, m: nat, k: Key, p: nat, q: nat)
    requires Wf(s) && Wf(s') && LockOk(s) && k in s.vts && p < q < |s.vts[k]| && PairOk(s, k, p, q)
    requires Quiet(s, s', r, m) && DoomKept(s, s', r, m) && LockStep(s, s', r)
    requires Scanning(s.log[r].pc) && ScanSettles(s, s', r)
    ensures PairOk(s', k, p, q)
  {
    if PendingFwd(s, k, p, q) {
      assert s.locks[k] < |s.log|;
    } else if PendingBack(s, k, p, q) {
      assert s.locks[k] < |s.log|;
    }
  }

  lemma OutsideGood(s: Store, s': Store, r: nat, m: nat)
    requires Good(s) && QuietStep(s, s', r, m) && !Scanning(s.log[r].pc)
    ensures Good(s')
  {
    QuietData(s, s', r, m);
    QuietLocks(s, s', r, m);
    QuietRecords(s, s', r, m);
    QuietConflicts(s, s', r, m);
  }

  lemma InsideGood(s: Store, s': Store, r: nat, m: nat)
    requires Good(s) && QuietStep(s, s', r, m) && Wf(s')
    requires Scanning(s.log[r].pc) && ScanSettles(s, s', r)
    ensures Good(s')
  {
    QuietData(s, s', r, m);
    QuietLocks(s, s', r, m);
    QuietRecords(s, s', r, m);
    ScanConflicts(s, s', r, m);
  }

  /** What the owner of `r` knows while it scans. */
  lemma ScanFacts(s: Store, r: nat)
    requires Wf(s) && LockOk(s) && r < |s.log| && Scanning(s.log[r].pc)
    ensures WfPc(s, r) && ScansAt(s, r, ScanKey(s.log[r]), s.log[r].pc.idx)
    ensures ScanKey(s.log[r]) in s.locks && s.locks[ScanKey(s.log[r])] == r
  {
    assert WfPc(s, r);
  }

  lemma FwdMoves(s: Store, r: nat, i: nat, idx: nat, j: nat, s': Store)
    requires Wf(s) && r < |s.log| && s.log[r].pc == Fwd(i, idx, j) && WfPc(s, r) &&
      ScansAt(s, r, ScanKey(s.log[r]), idx)
    requires s' == StepFwd(s, r, i, idx, j) && s'.halted == s.halted == false
    ensures Moved(s, s', r, s'.log[r].pc) && WfPc(s', r)
    ensures Wf(s') ==> ScanSettles(s, s', r)
  {
    assert WfPc(s, r);
  }

  lemma FwdLockedMoves(s: Store, r: nat, i: nat, idx: nat, j: nat, m: nat, s': Store)
    requires Wf(s) && r < |s.log| && s.log[r].pc == FwdLocked(i, idx, j) && WfPc(s, r)
    requires ScansAt(s, r, ScanKey(s.log[r]), idx) && m == s.vts[ScanKey(s.log[r])][j].rec
    requires s' == StepFwdLocked(s, r, i, idx, j) && s'.halted == s.halted == false
    ensures r < m && Quiet(s, s', r, m) && WfPc(s', r) && s'.locks == s.locks
    ensures s'.log[r] == s.log[r].(pc := Fwd(i, idx, j + 1))
    ensures s'.log[m] == s.log[m].(state := Transition(s.log[m].state, false, false))
    ensures forall x :: 0 <= x < |s.log| ==> s'.log[x].next == s.log[x].next
    ensures s.log[m].state != COMMITTED
    ensures Wf(s') ==> ScanSettles(s, s', r)
  {
    assert WfPc(s, r);
    assert Dead(s'.log[m].state);
    if Wf(s') { FwdLockedSettles(s, r, i, idx, j, m, s'); }
  }

  lemma FwdLockedSettles(s: Store, r: nat, i: nat, idx: nat, j: nat, m: nat, s': Store)
    requires Wf(s) && Wf(s') && r < |s.log| && s.log[r].pc == FwdLocked(i, idx, j) && WfPc(s, r)
    requires ScansAt(s, r, ScanKey(s.log[r]), idx) && m == s.vts[ScanKey(s.log[r])][j].rec
    requires Quiet(s, s', r, m) && s'.locks == s.locks
    requires s'.log[r].pc == Fwd(i, idx, j + 1) && Dead(s'.log[m].state)
    ensures ScanSettles(s, s', r)
  {
  }

  lemma BackMoves(s: Store, r: nat, i: nat, idx: nat, j: nat, s': Store)
    requires Wf(s) && Ordered(s) && TablesOk(s)
    requires r < |s.log| && s.log[r].pc == Back(i, idx, j) && WfPc(s, r) && ScansAt(s, r, ScanKey(s.log[r]), idx)
    requires s' == StepBack(s, r, i, idx, j)
    ensures Moved(s, s', r, s'.log[r].pc) && WfPc(s', r)
    ensures Wf(s') ==> ScanSettles(s, s', r)
  {
    assert WfPc(s, r);
    if Wf(s') { BackSettles(s, r, i, idx, j, s'); }
  }

  lemma BackSettles(s: Store, r: nat, i: nat, idx: nat, j: nat, s': Store)
    requires Wf(s) && Wf(s') && Ordered(s) && TablesOk(s)
    requires r < |s.log| && s.log[r].pc == Back(i, idx, j) && WfPc(s, r) && ScansAt(s, r, ScanKey(s.log[r]), idx)
    requires s' == StepBack(s, r, i, idx, j)
    ensures ScanSettles(s, s', r)
  {
    assert WfPc(s, r);
    var k := ScanKey(s.log[r]);
    var vt := s.vts[k];
    forall p: nat | p < idx && PendingBack(s, k, p, idx)
      ensures PendingBack(s', k, p, idx) || Settled(s', k, p, idx)
    {
      if s.log[vt[j - 1].rec].end <= s.log[r].begin {
        assert vt[p].rec <= vt[j - 1].rec;
      }
    }
  }

  lemma BackRetestMoves(s: Store, r: nat, i: nat, idx: nat, j: nat, s': Store)
    requires Wf(s) && r < |s.log| && s.log[r].pc == BackRetest(i, idx, j) && WfPc(s, r) &&
      ScansAt(s, r, ScanKey(s.log[r]), idx)
    requires s' == StepBackRetest(s, r, i, idx, j)
    ensures Moved(s, s', r, s'.log[r].pc) && WfPc(s', r)
    ensures Wf(s') ==> ScanSettles(s, s', r)
  {
    assert WfPc(s, r);
  }

  lemma MovedGood(s: Store, r: nat, s': Store)
    requires Good(s) && r < |s.log| && Scanning(s.log[r].pc) && WfPc(s, r)
    requires |s'.log| == |s.log| && WfPc(s', r) && Moved(s, s', r, s'.log[r].pc)
    requires s'.vts == s.vts && (Wf(s') ==> ScanSettles(s, s', r))
    ensures Good(s')
  {
    MoveStep(s, s', r, s'.log[r].pc);
    QuietData(s, s', r, r);
    InsideGood(s, s', r, r);
  }

  lemma ScanStep(s: Store, r: nat)
    requires Good(s) && Enabled(s, r) && Scanning(s.log[r].pc)
    ensures Step(s, r).halted || Good(Step(s, r))
  {
    ScanFacts(s, r);
    var s' := Step(s, r);
    if !s'.halted {
      match s.log[r].pc
      case Fwd(i, idx, j) =>
        FwdMoves(s, r, i, idx, j, s');
        MovedGood(s, r, s');
      case FwdLocked(i, idx, j) =>
        var m := s.vts[ScanKey(s.log[r])][j].rec;
        FwdLockedMoves(s, r, i, idx, j, m, s');
        FailLaterStep(s, s', r, m, i, idx, j);
        QuietData(s, s', r, m);
        InsideGood(s, s', r, m);
      case Back(i, idx, j) =>
        BackMoves(s, r, i, idx, j, s');
        MovedGood(s, r, s');
      case BackRetest(i, idx, j) =>
        BackRetestMoves(s, r, i, idx, j, s');
        MovedGood(s, r, s');
    }
  }

  // ---------------------------------------------------------------------------
  // Linking, inserting, appending
  // ---------------------------------------------------------------------------

  /** `s'` is `s` with `r` linked to its predecessor. */
  ghost predicate NowLinked(s: Store, s': Store, r: nat) {
    && r < |s.log| == |s'.log| && s.log[r].pc.LinkPrev? && s'.vts == s.vts && s'.locks == s.locks &&
       s'.global == s.global
    && s'.log[r] == s.log[r].(pc := CheckPrev)
    && (r > 0 ==> s'.log[r - 1] == s.log[r - 1].(next := Some(r)))
    && (forall x :: 0 <= x < |s.log| && x != r && x != r - 1 ==> s'.log[x] == s.log[x])
  }

  lemma LinkRecord(s: Store, s': Store, r: nat, x: nat)
    requires NowLinked(s, s', r) && RecordOk(s, r) && x < |s.log| && RecordOk(s, x)
    ensures RecordOk(s', x)
  {
    assert WrittenOk(s', x) by { assert WrittenOk(s, x); }
    assert StateOk(s'.log[x]) && ChainOk(s', x);
    assert LinkOk(s', x) by { assert LinkOk(s, x); }
    assert TellOk(s', x);
  }

  lemma LinkStep(s: Store, r: nat)
    requires Good(s) && Enabled(s, r) && s.log[r].pc.LinkPrev?
    ensures Good(Step(s, r))
  {
    LinkGood(s, Step(s, r), r);
  }

  lemma LinkGood(s: Store, s': Store, r: nat)
    requires Good(s) && NowLinked(s, s', r)
    ensures Good(s')
  {
    assert Quiet(s, s', r, r);
    QuietData(s, s', r, r);
    QuietLocks(s, s', r, r);
    QuietConflicts(s, s', r, r);
    assert RecordOk(s, r);
    forall x: nat | x < |s'.log| ensures RecordOk(s', x) {
      assert RecordOk(s, x);
      LinkRecord(s, s', r, x);
    }
  }

  /** `s'` is `s` with a new entry of `r` in the table of `k`. */
  ghost predicate Inserted(s: Store, s': Store, r: nat, k: Key, idx: nat, v: Option<Value>)
  {
    && r < |s.log| && k in s.vts && k in s'.vts && idx <= |s.vts[k]|
    && s'.vts == s.vts[k := InsertAt(s.vts[k], idx, Vte(r, v))]
    && s'.global == s.global && |s'.log| == |s.log|
    && (forall x :: 0 <= x < |s.log| && x != r ==> s'.log[x] == s.log[x])
    && s'.log[r] == s.log[r].(pc := s'.log[r].pc)
    && Pair(k, v) in s.log[r].pairs && Started(s'.log[r].pc)
  }

  /** The place of the new entry: after all entries of records up to `r`. */
  ghost predicate InsertsInOrder(s: Store, r: nat, k: Key, idx: nat)
    requires k in s.vts
  {
    && idx <= |s.vts[k]|
    && (forall p :: 0 <= p < idx ==> s.vts[k][p].rec <= r)
    && (forall p :: idx <= p < |s.vts[k]| ==> r < s.vts[k][p].rec)
  }

  lemma InsertIndexInOrder(s: Store, r: nat, k: Key)
    requires Wf(s) && Ordered(s) && TablesOk(s) && r < |s.log| && k in s.vts
    ensures InsertsInOrder(s, r, k, InsertIndex(s.log, s.vts[k], s.log[r].end))
  {
    var vt := s.vts[k];
    var idx := InsertIndex(s.log, vt, s.log[r].end);
    if 0 < idx {
      assert vt[idx - 1].rec <= r;
      forall p | 0 <= p < idx ensures vt[p].rec <= r {
        assert vt[p].rec <= vt[idx - 1].rec;
      }
    }
  }

  lemma InsertPc(s: Store, s': Store, r: nat, k: Key, idx: nat, v: Option<Value>, x: nat)
    requires x < |s.log| && WfPc(s, x) && x != r
    requires Inserted(s, s', r, k, idx, v) && k !in s.locks && LockOk(s)
    ensures WfPc(s', x)
  {
  }

  lemma InsertTables(s: Store, s': Store, r: nat, k: Key, idx: nat, v: Option<Value>)
    requires TablesOk(s) && Inserted(s, s', r, k, idx, v) && InsertsInOrder(s, r, k, idx)
    ensures TablesOk(s')
  {
    forall l, p, q | l in s'.vts && 0 <= p < q < |s'.vts[l]|
      ensures s'.vts[l][p].rec <= s'.vts[l][q].rec
    {
      if l == k {
        assert p != idx && q != idx ==>
          s.vts[k][if p < idx then p else p - 1].rec <= s.vts[k][if q < idx then q else q - 1].rec;
      }
    }
  }

  lemma InsertSources(s: Store, s': Store, r: nat, k: Key, idx: nat, v: Option<Value>)
    requires Wf(s) && SourceOk(s) && Inserted(s, s', r, k, idx, v)
    ensures forall l, p :: l in s'.vts && 0 <= p < |s'.vts[l]| ==> s'.vts[l][p].rec < |s'.log|
    ensures Wf(s') ==> SourceOk(s')
  {
    forall l, p | l in s'.vts && 0 <= p < |s'.vts[l]|
      ensures s'.vts[l][p].rec < |s'.log|
      ensures Pair(l, s'.vts[l][p].value) in s'.log[s'.vts[l][p].rec].pairs
      ensures Started(s'.log[s'.vts[l][p].rec].pc)
    {
      if l == k && p != idx {
        assert s'.vts[k][p] == s.vts[k][if p < idx then p else p - 1];
      }
    }
  }

  lemma InsertData(s: Store, s': Store, r: nat, k: Key, idx: nat, v: Option<Value>)
    requires Wf(s) && Ordered(s) && TablesOk(s) && SourceOk(s)
    requires Inserted(s, s', r, k, idx, v) && InsertsInOrder(s, r, k, idx)
    requires WfPc(s', r) && k !in s.locks && LockOk(s)
    ensures Wf(s') && Ordered(s') && TablesOk(s') && SourceOk(s')
  {
    forall x | 0 <= x < |s'.log| ensures WfPc(s', x) {
      if x != r { InsertPc(s, s', r, k, idx, v, x); }
    }
    InsertTables(s, s', r, k, idx, v);
    InsertSources(s, s', r, k, idx, v);
  }

  lemma InsertLocks(s: Store, s': Store, r: nat, k: Key, idx: nat, v: Option<Value>)
    requires LockOk(s) && k !in s.locks && Inserted(s, s', r, k, idx, v) && InsertsInOrder(s, r, k, idx)
    requires !Scanning(s.log[r].pc) && s'.locks == s.locks[k := r]
    requires s'.log[r].pc.Fwd? && s'.log[r].pc.idx == idx
    requires s'.log[r].pc.i < |s.log[r].pairs| && s.log[r].pairs[s'.log[r].pc.i].key == k
    ensures LockOk(s')
  {
    assert ScansAt(s', r, k, idx);
    forall l | l in s'.locks && l != k
      ensures Scanning(s'.log[s'.locks[l]].pc) && ScansAt(s', s'.locks[l], l, s'.log[s'.locks[l]].pc.idx)
    {
      assert l in s.locks;
    }
  }

  lemma TablesGrow(s: Store, s': Store, x: nat)
    requires x < |s.log| && x < |s'.log| && WrittenOk(s, x) && s'.log[x].pairs == s.log[x].pairs
    requires forall k, e :: k in s.vts && e in s.vts[k] ==> k in s'.vts && e in s'.vts[k]
    requires forall i :: Processed(s.log[x]) <= i < Processed(s'.log[x]) && i < |s.log[x].pairs| ==>
      InTable(s', x, s.log[x].pairs[i])
    ensures WrittenOk(s', x)
  {
  }

  lemma PutRecords(s: Store, s': Store, r: nat, i: nat)
    requires RecordsOk(s) && |s'.log| == |s.log| && r < |s.log| && i < |s.log[r].pairs|
    requires s.log[r].pc == Put(i) || s.log[r].pc == PutNew(i)
    requires forall x :: 0 <= x < |s.log| && x != r ==> s'.log[x] == s.log[x]
    requires s'.log[r] == s.log[r].(pc := s'.log[r].pc)
    requires s'.log[r].pc.AfterPut? || s'.log[r].pc.Fwd?
    requires s'.log[r].pc.i == i
    requires forall k, e :: k in s.vts && e in s.vts[k] ==> k in s'.vts && e in s'.vts[k]
    requires InTable(s', r, s.log[r].pairs[i])
    ensures RecordsOk(s')
  {
    forall x: nat | x < |s'.log| ensures RecordOk(s', x) {
      assert RecordOk(s, x);
      TablesGrow(s, s', x);
    }
  }

  lemma InsertMembers(vt: seq<Vte>, idx: nat, e: Vte)
    requires idx <= |vt|
    ensures e in InsertAt(vt, idx, e)
    ensures forall f :: f in vt ==> f in InsertAt(vt, idx, e)
  {
    var w := InsertAt(vt, idx, e);
    assert w[idx] == e;
    forall f | f in vt ensures f in w {
      var p :| 0 <= p < |vt| && vt[p] == f;
      assert w[if p < idx then p else p + 1] == f;
    }
  }

  lemma InsertConflict(s: Store, s': Store, r: nat, k: Key, idx: nat, v: Option<Value>, l: Key, p: nat, q: nat)
    requires Wf(s) && Wf(s') && k !in s.locks && Inserted(s, s', r, k, idx, v)
    requires ConflictsOk(s) && !Scanning(s.log[r].pc) && !s.log[r].pc.Finish?
    requires s'.locks == s.locks[k := r] && s'.log[r].pc.Fwd? && s'.log[r].pc.idx == idx && s'.log[r].pc.j == idx + 1
    requires l in s'.vts && p < q < |s'.vts[l]|
    ensures PairOk(s', l, p, q)
  {
    if l != k {
      OtherTable(s, s', r, k, idx, v, l, p, q);
    } else if p != idx && q != idx {
      OtherEntries(s, s', r, k, idx, v, p, q);
    }
  }

  lemma OtherTable(s: Store, s': Store, r: nat, k: Key, idx: nat, v: Option<Value>, l: Key, p: nat, q: nat)
    requires Wf(s) && Wf(s') && k !in s.locks && Inserted(s, s', r, k, idx, v)
    requires ConflictsOk(s) && !Scanning(s.log[r].pc) && !s.log[r].pc.Finish? && s'.locks == s.locks[k := r]
    requires l in s'.vts && l != k && p < q < |s'.vts[l]|
    ensures PairOk(s', l, p, q)
  {
    assert PairOk(s, l, p, q);
  }

  lemma OtherEntries(s: Store, s': Store, r: nat, k: Key, idx: nat, v: Option<Value>, p: nat, q: nat)
    requires Wf(s) && Wf(s') && k !in s.locks && Inserted(s, s', r, k, idx, v)
    requires ConflictsOk(s) && !Scanning(s.log[r].pc) && !s.log[r].pc.Finish?
    requires p < q < |s'.vts[k]| && p != idx && q != idx
    ensures PairOk(s', k, p, q)
  {
    var p0 := if p < idx then p else p - 1;
    var q0 := if q < idx then q else q - 1;
    assert PairOk(s, k, p0, q0);
  }

  lemma PutFound(s: Store, r: nat, i: nat, k: Key, s': Store, idx: nat)
    requires Wf(s) && r < |s.log| && s.log[r].pc == Put(i) && i < |s.log[r].pairs|
    requires k == s.log[r].pairs[i].key && k in s.vts
    requires s' == StepPut(s, r, i) && idx == InsertIndex(s.log, s.vts[k], s.log[r].end)
    ensures Inserted(s, s', r, k, idx, s.log[r].pairs[i].value) && WfPc(s', r)
    ensures s'.locks == s.locks[k := r] && s'.log[r].pc == Fwd(i, idx, idx + 1)
  {
  }

  lemma PutStep(s: Store, r: nat, i: nat)
    requires Good(s) && Enabled(s, r) && s.log[r].pc == Put(i)
    ensures Good(Step(s, r))
  {
    assert WfPc(s, r);
    var k, s' := s.log[r].pairs[i].key, Step(s, r);
    if k !in s.vts {
      assert Around(s, r);
      QuietPutStep(s, r, i, s'.log[r].pc);
      OutsideGood(s, s', r, r);
    } else {
      PutInTable(s, s', r, i, k);
    }
  }

  lemma PutInTable(s: Store, s': Store, r: nat, i: nat, k: Key)
    requires Good(s) && r < |s.log| && s.log[r].pc == Put(i) && i < |s.log[r].pairs|
    requires k == s.log[r].pairs[i].key && k in s.vts && k !in s.locks && s' == StepPut(s, r, i)
    ensures Good(s')
  {
    var idx, v := InsertIndex(s.log, s.vts[k], s.log[r].end), s.log[r].pairs[i].value;
    PutFound(s, r, i, k, s', idx);
    InsertIndexInOrder(s, r, k);
    InsertMembers(s.vts[k], idx, Vte(r, v));
    InsertData(s, s', r, k, idx, v);
    InsertLocks(s, s', r, k, idx, v);
    PutRecords(s, s', r, i);
    forall l, p: nat, q: nat | l in s'.vts && p < q < |s'.vts[l]| ensures PairOk(s', l, p, q) {
      InsertConflict(s, s', r, k, idx, v, l, p, q);
    }
  }

  /** `s'` is `s` with a table of one entry for the new key `k`. */
  ghost predicate Created(s: Store, s': Store, r: nat, i: nat, k: Key) {
    && r < |s.log| && i < |s.log[r].pairs| && s.log[r].pairs[i].key == k
    && s.log[r].pc == PutNew(i) && k !in s.vts
    && s'.vts == s.vts[k := [Vte(r, s.log[r].pairs[i].value)]]
    && s'.global == s.global && s'.locks == s.locks
    && s'.log == s.log[r := s.log[r].(pc := AfterPut(i))]
  }

  lemma CreateData(s: Store, s': Store, r: nat, i: nat, k: Key)
    requires Wf(s) && Ordered(s) && TablesOk(s) && SourceOk(s) && Created(s, s', r, i, k)
    ensures Wf(s') && Ordered(s') && TablesOk(s') && SourceOk(s')
  {
    assert Pair(k, s.log[r].pairs[i].value) in s.log[r].pairs;
    forall x | 0 <= x < |s'.log| ensures WfPc(s', x) {
      assert WfPc(s, x);
    }
  }

  lemma CreateLocks(s: Store, s': Store, r: nat, i: nat, k: Key)
    requires LockOk(s) && Created(s, s', r, i, k)
    ensures LockOk(s')
  {
    assert forall x :: 0 <= x < |s.log| && x != r ==> s'.log[x] == s.log[x];
  }

  lemma CreateConflicts(s: Store, s': Store, r: nat, i: nat, k: Key)
    requires Wf(s) && Wf(s') && ConflictsOk(s) && Created(s, s', r, i, k)
    ensures ConflictsOk(s')
  {
    forall l, p: nat, q: nat | l in s'.vts && p < q < |s'.vts[l]| ensures PairOk(s', l, p, q) {
      assert PairOk(s, l, p, q);
    }
  }

  lemma PutNewStep(s: Store, r: nat, i: nat)
    requires Good(s) && Enabled(s, r) && s.log[r].pc == PutNew(i)
    ensures Good(Step(s, r))
  {
    assert WfPc(s, r);
    var k, s' := s.log[r].pairs[i].key, Step(s, r);
    if k in s.vts {
      assert Around(s, r);
      QuietPutStep(s, r, i, Put(i));
      OutsideGood(s, s', r, r);
    } else {
      CreateData(s, s', r, i, k);
      CreateLocks(s, s', r, i, k);
      CreateConflicts(s, s', r, i, k);
      assert s'.vts[k][0] == Vte(r, s.log[r].pairs[i].value);
      PutRecords(s, s', r, i);
    }
  }

  lemma AppendRecord(s: Store, s': Store, x: nat)
    requires |s'.log| == |s.log| + 1 && s'.log[..|s.log|] == s.log && s'.vts == s.vts
    requires s'.log[|s.log|].pc.LinkPrev? && x < |s.log| && RecordOk(s, x)
    ensures RecordOk(s', x)
  {
    assert s'.log[x] == s.log[x];
    assert x + 1 < |s.log| ==> s'.log[x + 1] == s.log[x + 1];
    assert x > 0 ==> s'.log[x - 1] == s.log[x - 1];
    assert WrittenOk(s', x);
  }

  lemma AppendLocks(s: Store, s': Store)
    requires LockOk(s) && |s'.log| == |s.log| + 1 && s'.log[..|s.log|] == s.log
    requires s'.vts == s.vts && s'.locks == s.locks && s'.log[|s.log|].pc.LinkPrev?
    ensures LockOk(s')
  {
    assert forall x :: 0 <= x < |s.log| ==> s'.log[x] == s.log[x];
  }

  lemma AppendConflicts(s: Store, s': Store)
    requires Wf(s) && Wf(s') && ConflictsOk(s) && |s'.log| == |s.log| + 1 && s'.log[..|s.log|] == s.log
    requires s'.vts == s.vts && s'.locks == s.locks
    ensures ConflictsOk(s')
  {
    assert forall x :: 0 <= x < |s.log| ==> s'.log[x] == s.log[x];
    forall k, p: nat, q: nat | k in s'.vts && p < q < |s'.vts[k]| ensures PairOk(s', k, p, q) {
      assert PairOk(s, k, p, q);
    }
  }

  lemma AppendData(s: Store, s': Store)
    requires Wf(s) && Ordered(s) && TablesOk(s) && SourceOk(s)
    requires |s'.log| == |s.log| + 1 && s'.log[..|s.log|] == s.log && s'.vts == s.vts
    requires s'.log[|s.log|].pc.LinkPrev? && s'.global == s.global + 1
    requires s'.log[|s.log|].begin < s'.log[|s.log|].end == s.global
    ensures Wf(s') && Ordered(s') && TablesOk(s') && SourceOk(s')
  {
    assert forall x :: 0 <= x < |s.log| ==> s'.log[x] == s.log[x];
    forall x | 0 <= x < |s'.log| ensures WfPc(s', x) {
      if x < |s.log| { assert WfPc(s, x); }
    }
  }

  lemma AppendStep(s: Store, begin: nat, pairs: seq<Pair>)
    requires Good(s) && !s.halted && begin < s.global
    ensures Good(Append(s, begin, pairs))
  {
    var s' := Append(s, begin, pairs);
    AppendData(s, s');
    AppendLocks(s, s');
    AppendConflicts(s, s');
    forall x: nat | x < |s'.log| ensures RecordOk(s', x) {
      if x < |s.log| { AppendRecord(s, s', x); }
    }
  }

  lemma SameLogRecord(s: Store, s': Store, x: nat)
    requires s'.log == s.log && s'.vts == s.vts && x < |s.log| && RecordOk(s, x)
    ensures RecordOk(s', x)
  {
    assert WrittenOk(s', x) by { assert WrittenOk(s, x); }
  }

  lemma SameLogConflicts(s: Store, s': Store)
    requires Wf(s) && Wf(s') && s'.log == s.log && s'.vts == s.vts && s'.locks == s.locks && ConflictsOk(s)
    ensures ConflictsOk(s')
  {
    forall k, p: nat, q: nat | k in s'.vts && p < q < |s'.vts[k]| ensures PairOk(s', k, p, q) {
      assert PairOk(s, k, p, q);
    }
  }

  lemma NewSnapshotStep(s: Store)
    requires Good(s)
    ensures Good(NewSnapshot(s))
  {
    var s' := NewSnapshot(s);
    forall x | 0 <= x < |s'.log| ensures WfPc(s', x) {
      assert WfPc(s, x);
    }
    forall x: nat | x < |s'.log| ensures RecordOk(s', x) {
      assert RecordOk(s, x);
      SameLogRecord(s, s', x);
    }
    SameLogConflicts(s, s');
  }

  lemma OutsideStep(s: Store, r: nat)
    requires Good(s) && Enabled(s, r) && !Scanning(s.log[r].pc)
    requires !s.log[r].pc.LinkPrev? && !s.log[r].pc.Put? && !s.log[r].pc.PutNew?
    ensures !Step(s, r).halted && Good(Step(s, r))
  {
    var s' := Step(s, r);
    assert Around(s, r);
    match s.log[r].pc
    case CheckPrev => CheckPrevStep(s, r); OutsideGood(s, s', r, r);
    case SelfOk => SelfOkStep(s, r); OutsideGood(s, s', r, r);
    case Begin => BeginStep(s, r); OutsideGood(s, s', r, r);
    case AfterPut(_) => AfterPutStep(s, r); OutsideGood(s, s', r, r);
    case Finish(_) => FinishStep(s, r); OutsideGood(s, s', r, r);
    case Waiting => WaitingStep(s, r); OutsideGood(s, s', r, r);
    case SignalRead => SignalReadStep(s, r); OutsideGood(s, s', r, r);
    case Signal(n) =>
      assert n == r + 1;
      SignalStep(s, r, n, SetPc(Apply(s, n, true, true), r, Done));
      OutsideGood(s, s', r, n);
  }

  /** Every step of an owner keeps the invariant, unless it halts the run. */
  lemma StepKeepsGood(s: Store, r: nat)
    requires Good(s) && Enabled(s, r)
    ensures Step(s, r).halted || Good(Step(s, r))
  {
    match s.log[r].pc
    case LinkPrev => LinkStep(s, r);
    case Put(i) => PutStep(s, r, i);
    case PutNew(i) => PutNewStep(s, r, i);
    case Fwd(_, _, _) => ScanStep(s, r);
    case FwdLocked(_, _, _) => ScanStep(s, r);
    case Back(_, _, _) => ScanStep(s, r);
    case BackRetest(_, _, _) => ScanStep(s, r);
    case _ => OutsideStep(s, r);
  }

  lemma NextKeepsGood(s: Store, s': Store)
    requires Good(s) && Next(s, s') && !s'.halted
    ensures Good(s')
  {
    if r :| Enabled(s, r) && s' == Step(s, r) {
      StepKeepsGood(s, r);
    } else if begin: nat, pairs :| !s.halted && begin < s.global && s' == Append(s, begin, pairs) {
      AppendStep(s, begin, pairs);
    } else {
      NewSnapshotStep(s);
    }
  }

  /** The invariant holds all along every run, for as long as it does not halt. */
  lemma {:induction false} RunIsGood(tr: seq<Store>, n: nat)
    requires Run(tr) && n < |tr| && !tr[n].halted
    ensures Good(tr[n])
  {
    if n > 0 {
      assert NextAt(tr, n - 1);
      RunIsGood(tr, n - 1);
      NextKeepsGood(tr[n - 1], tr[n]);
    }
  }
}
