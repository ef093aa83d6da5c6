/** Echo's concurrent commit protocol as a step relation. One owner thread per
    appended commit record; every access to shared memory is one step. */
module EchoProtocol {
  import opened CommitState
  import opened Snapshots
  import opened Wrappers

  type Key = string
  type Value = string

  /** One write of a commit; `None` is the tombstone of a deletion. */
  datatype Pair = Pair(key: Key, value: Option<Value>)

  /** A version table entry: the record it came from and the value. */
  datatype Vte = Vte(rec: nat, value: Option<Value>)

  /** Where the owner of a commit record is. */
  datatype Pc =
    | LinkPrev                                // appended; will set prev_cr->next_cr
    | CheckPrev                               // will read prev_cr->state
    | SelfOk                                  // saw a final predecessor; will tell itself
    | Begin                                   // will enter INPROGRESS[_OK]
    | Put(i: nat)                             // will look up the table of pair i
    | PutNew(i: nat)                          // key absent; will insert a table if still absent
    | Fwd(i: nat, idx: nat, j: nat)           // table locked; will read the state at entry j
    | FwdLocked(i: nat, idx: nat, j: nat)     // will fail the record at entry j, under its lock
    | Back(i: nat, idx: nat, j: nat)          // will examine entry j - 1, if any
    | BackRetest(i: nat, idx: nat, j: nat)    // entry j - 1 was not ABORTED; WAIT_TO_ABORT?
    | AfterPut(i: nat)                        // table unlocked; will read its own state
    | Finish(success: bool)                   // will make its final transition
    | Waiting                                 // asleep on its own condition variable
    | SignalRead                              // final; will read next_cr
    | Signal(next: nat)                       // will tell next that its predecessor is final
    | Done

  datatype Record = Record(
    begin: nat, end: nat, pairs: seq<Pair>,
    state: CommitState, next: Option<nat>, pc: Pc)

  datatype Store = Store(
    log: seq<Record>,
    vts: map<Key, seq<Vte>>,
    locks: map<Key, nat>,     // version table lock -> the record whose owner holds it
    global: nat,
    halted: bool)             // some thread called kp_die

  const Init: Store := Store([], map[], map[], INITIAL_GLOBAL_SNAPSHOT, false)

  predicate Scanning(pc: Pc) {
    pc.Fwd? || pc.FwdLocked? || pc.Back? || pc.BackRetest?
  }

  /** Indices a thread holds make sense. */
  predicate WfPc(s: Store, r: nat)
    requires r < |s.log|
  {
    var c := s.log[r];
    match c.pc
    case Put(i) => i < |c.pairs|
    case PutNew(i) => i < |c.pairs|
    case AfterPut(i) => i < |c.pairs|
    case Fwd(i, idx, j) =>
      i < |c.pairs| && c.pairs[i].key in s.vts && idx < j <= |s.vts[c.pairs[i].key]|
    case FwdLocked(i, idx, j) =>
      i < |c.pairs| && c.pairs[i].key in s.vts && idx < j < |s.vts[c.pairs[i].key]|
    case Back(i, idx, j) =>
      i < |c.pairs| && c.pairs[i].key in s.vts && j <= idx < |s.vts[c.pairs[i].key]|
    case BackRetest(i, idx, j) =>
      i < |c.pairs| && c.pairs[i].key in s.vts && 0 < j <= idx < |s.vts[c.pairs[i].key]|
    case Signal(n) => n < |s.log|
    case _ => true
  }

  ghost predicate Wf(s: Store) {
    && (forall r :: 0 <= r < |s.log| ==> WfPc(s, r))
    && (forall k, p :: k in s.vts && 0 <= p < |s.vts[k]| ==> s.vts[k][p].rec < |s.log|)
  }

  /** The key of the pair a scanning owner is putting. */
  function ScanKey(c: Record): Key
    requires Scanning(c.pc) && c.pc.i < |c.pairs|
  {
    c.pairs[c.pc.i].key
  }

  function SetPc(s: Store, r: nat, pc: Pc): Store
    requires r < |s.log|
  {
    s.(log := s.log[r := s.log[r].(pc := pc)])
  }

  function SetState(s: Store, m: nat, st: CommitState): Store
    requires m < |s.log|
  {
    s.(log := s.log[m := s.log[m].(state := st)])
  }

  /** A transition made under the record's state lock. */
  function Apply(s: Store, m: nat, prevIsFinalized: bool, success: bool): Store
    requires m < |s.log|
  {
    var st := Transition(s.log[m].state, prevIsFinalized, success);
    SetState(s, m, st).(halted := s.halted || st == UNDEFINED)
  }

  /** How many entries stay in front of a new entry of record `r`: the table is
      kept sorted by end snapshot, equal entries in insertion order. */
  function InsertIndex(log: seq<Record>, vt: seq<Vte>, end: nat): (idx: nat)
    requires forall p :: 0 <= p < |vt| ==> vt[p].rec < |log|
    ensures idx <= |vt|
    ensures idx < |vt| ==> log[vt[|vt| - 1].rec].end > end
    ensures 0 < idx ==> log[vt[idx - 1].rec].end <= end
    ensures forall p :: idx <= p < |vt| ==> log[vt[p].rec].end > end
  {
    if |vt| == 0 || log[vt[|vt| - 1].rec].end <= end then |vt|
    else InsertIndex(log, vt[..|vt| - 1], end)
  }

  function InsertAt(vt: seq<Vte>, idx: nat, e: Vte): seq<Vte>
    requires idx <= |vt|
  {
    vt[..idx] + [e] + vt[idx..]
  }

  function Halt(s: Store): Store {
    s.(halted := true)
  }

  function Unlock(s: Store, k: Key): Store {
    s.(locks := s.locks - {k})
  }

  /** The owner of record `r` is neither finished nor blocked. */
  predicate Enabled(s: Store, r: nat) {
    && !s.halted
    && r < |s.log|
    && match s.log[r].pc
       case Done => false
       case Waiting => !Waits(s.log[r].state)
       case Put(i) => i < |s.log[r].pairs| && s.log[r].pairs[i].key !in s.locks
       case _ => true
  }

  function FirstPut(c: Record): Pc {
    if |c.pairs| == 0 then Finish(true) else Put(0)
  }

  function StepPut(s: Store, r: nat, i: nat): Store
    requires Wf(s) && r < |s.log| && i < |s.log[r].pairs|
  {
    var c := s.log[r];
    var k := c.pairs[i].key;
    if k in s.vts then
      var idx := InsertIndex(s.log, s.vts[k], c.end);
      SetPc(s.(vts := s.vts[k := InsertAt(s.vts[k], idx, Vte(r, c.pairs[i].value))],
               locks := s.locks[k := r]),
            r, Fwd(i, idx, idx + 1))
    else if c.pairs[i].value.None? then
      SetPc(s, r, AfterPut(i))   // deleting a key that has no table: ignored
    else
      SetPc(s, r, PutNew(i))
  }

  function StepPutNew(s: Store, r: nat, i: nat): Store
    requires r < |s.log| && i < |s.log[r].pairs|
  {
    var c := s.log[r];
    var k := c.pairs[i].key;
    if k in s.vts then SetPc(s, r, Put(i))   // somebody else created it: retry
    else SetPc(s.(vts := s.vts[k := [Vte(r, c.pairs[i].value)]]), r, AfterPut(i))
  }

  function StepFwd(s: Store, r: nat, i: nat, idx: nat, j: nat): Store
    requires Wf(s) && r < |s.log| && s.log[r].pc == Fwd(i, idx, j)
  {
    assert WfPc(s, r);
    var vt := s.vts[ScanKey(s.log[r])];
    if j == |vt| then SetPc(s, r, Back(i, idx, idx))
    else
      var st := s.log[vt[j].rec].state;
      if Dead(st) then SetPc(s, r, Fwd(i, idx, j + 1))
      else if st == COMMITTED then Halt(s)
      else SetPc(s, r, FwdLocked(i, idx, j))
  }

  function StepFwdLocked(s: Store, r: nat, i: nat, idx: nat, j: nat): Store
    requires Wf(s) && r < |s.log| && s.log[r].pc == FwdLocked(i, idx, j)
  {
    assert WfPc(s, r);
    var m := s.vts[ScanKey(s.log[r])][j].rec;
    var s1 := Apply(s, m, false, false);
    if Dead(s1.log[m].state) then SetPc(s1, r, Fwd(i, idx, j + 1)) else Halt(s1)
  }

  function StepBack(s: Store, r: nat, i: nat, idx: nat, j: nat): Store
    requires Wf(s) && r < |s.log| && s.log[r].pc == Back(i, idx, j)
  {
    assert WfPc(s, r);
    var k := ScanKey(s.log[r]);
    if j == 0 then SetPc(Unlock(s, k), r, AfterPut(i))
    else
      var e := s.log[s.vts[k][j - 1].rec];
      if e.end <= s.log[r].begin then SetPc(Unlock(s, k), r, AfterPut(i))
      else if e.state == ABORTED then SetPc(s, r, Back(i, idx, j - 1))
      else SetPc(s, r, BackRetest(i, idx, j))
  }

  function StepBackRetest(s: Store, r: nat, i: nat, idx: nat, j: nat): Store
    requires Wf(s) && r < |s.log| && s.log[r].pc == BackRetest(i, idx, j)
  {
    assert WfPc(s, r);
    var k := ScanKey(s.log[r]);
    if s.log[s.vts[k][j - 1].rec].state == WAIT_TO_ABORT then SetPc(s, r, Back(i, idx, j - 1))
    else SetPc(Unlock(s, k), r, Finish(false))
  }

  /** One step of the owner of record `r`. */
  function Step(s: Store, r: nat): Store
    requires Wf(s) && Enabled(s, r)
  {
    assert WfPc(s, r);
    var c := s.log[r];
    match c.pc
    case LinkPrev =>
      SetPc(if r == 0 then s else s.(log := s.log[r - 1 := s.log[r - 1].(next := Some(r))]),
            r, CheckPrev)
    case CheckPrev =>
      SetPc(s, r, if r == 0 || Final(s.log[r - 1].state) then SelfOk else Begin)
    case SelfOk =>
      var s1 := Apply(s, r, true, true);
      SetPc(s1, r, if s1.log[r].state == CREATED_OK then Begin else Done)
    case Begin =>
      if c.state != CREATED && c.state != CREATED_OK then Halt(s)
      else
        var s1 := Apply(s, r, false, true);
        SetPc(s1, r, if s1.log[r].state == INPROGRESS || s1.log[r].state == INPROGRESS_OK
                     then FirstPut(c) else Finish(false))
    case Put(i) => StepPut(s, r, i)
    case PutNew(i) => StepPutNew(s, r, i)
    case Fwd(i, idx, j) => StepFwd(s, r, i, idx, j)
    case FwdLocked(i, idx, j) => StepFwdLocked(s, r, i, idx, j)
    case Back(i, idx, j) => StepBack(s, r, i, idx, j)
    case BackRetest(i, idx, j) => StepBackRetest(s, r, i, idx, j)
    case AfterPut(i) =>
      SetPc(s, r, if Dead(c.state) || i + 1 == |c.pairs| then Finish(true) else Put(i + 1))
    case Finish(success) =>
      var s1 := Apply(s, r, false, success);
      SetPc(s1, r, if Waits(s1.log[r].state) then Waiting else SignalRead)
    case Waiting => SetPc(s, r, SignalRead)
    case SignalRead =>
      SetPc(s, r, if c.next.None? then Done else if c.next.value < |s.log| then Signal(c.next.value) else Done)
    case Signal(n) =>
      var s1 := Apply(s, n, true, true);
      if Told(s1.log[n].state) then SetPc(s1, r, Done) else Halt(s1)
  }

  /** A worker appends a commit: it takes the next snapshot as the end of its range. */
  function Append(s: Store, begin: nat, pairs: seq<Pair>): Store
    requires begin < s.global && !s.halted
  {
    s.(log := s.log + [Record(begin, s.global, pairs, CREATED, None, LinkPrev)], global := s.global + 1)
  }

  /** A worker takes a fresh snapshot number. */
  function NewSnapshot(s: Store): Store {
    s.(global := s.global + 1)
  }

  ghost predicate Next(s: Store, s': Store) {
    || (Wf(s) && exists r :: Enabled(s, r) && s' == Step(s, r))
    || (!s.halted && exists begin: nat, pairs :: begin < s.global && s' == Append(s, begin, pairs))
    || (!s.halted && s' == NewSnapshot(s))
  }

  ghost predicate NextAt(tr: seq<Store>, i: nat)
    requires i + 1 < |tr|
  {
    Next(tr[i], tr[i + 1])
  }

  /** A finite run from the empty store. */
  ghost predicate Run(tr: seq<Store>) {
    && |tr| > 0
    && tr[0] == Init
    && forall i :: 0 <= i < |tr| - 1 ==> NextAt(tr, i)
  }
}
