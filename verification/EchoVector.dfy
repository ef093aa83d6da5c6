/** The vector a version table is kept in: sorted insertion in place and the
    range search of a snapshot read. */
module EchoVector {
  import opened CommitState
  import opened EchoProtocol
  import opened EchoReads
  import opened EchoTheorems
  import opened Wrappers

  const VECTOR_INIT_SIZE: nat := 8
  const VECTOR_RESIZE_FACTOR: nat := 2
  const VECTOR_MAX_COUNT: nat := 0xFFFF_FFFF_FFFF_FFFE

  /** Entries of the log, by end snapshot. */
  ghost predicate ByEnd(log: seq<Record>, vt: seq<Vte>) {
    && (forall p :: 0 <= p < |vt| ==> vt[p].rec < |log|)
    && (forall p, q :: 0 <= p < q < |vt| ==> log[vt[p].rec].end <= log[vt[q].rec].end)
  }

  lemma Boundary(log: seq<Record>, vt: seq<Vte>, candidate: int, snap: nat)
    requires ByEnd(log, vt) && -1 <= candidate < |vt|
    requires candidate >= 0 ==> log[vt[candidate].rec].end <= snap
    requires candidate + 1 < |vt| ==> log[vt[candidate + 1].rec].end > snap
    ensures forall p :: 0 <= p < |vt| ==> (p <= candidate <==> log[vt[p].rec].end <= snap)
  {
  }

  class Vector {
    var data: array<Vte>
    var count: nat

    ghost predicate Valid()
      reads this
    {
      count <= data.Length && 0 < data.Length <= VECTOR_MAX_COUNT
    }

    ghost function Contents(): seq<Vte>
      reads this, data
      requires Valid()
    {
      data[..count]
    }

    /** An empty vector with room for `size` entries, or for as many as usual. */
    constructor (size: nat)
      requires size <= VECTOR_MAX_COUNT
      ensures Valid() && Contents() == [] && fresh(data)
      ensures data.Length == if size == 0 then VECTOR_INIT_SIZE else size
    {
      data := new Vte[if size == 0 then VECTOR_INIT_SIZE else size](_ => Vte(0, None));
      count := 0;
    }

    /** Doubles the array when it is full, up to the greatest length. */
    method Resize()
      requires Valid() && count < VECTOR_MAX_COUNT
      modifies this`data
      ensures Valid() && count < data.Length
      ensures Contents() == old(Contents())
      ensures if count < old(data.Length) then data == old(data) else fresh(data)
      ensures count == old(data.Length) ==>
                data.Length == 2 * old(data.Length) || data.Length == VECTOR_MAX_COUNT < 2 * old(data.Length)
    {
      if count == data.Length {
        var bigger := new Vte[if data.Length > VECTOR_MAX_COUNT / VECTOR_RESIZE_FACTOR then VECTOR_MAX_COUNT
                              else data.Length * VECTOR_RESIZE_FACTOR](_ => Vte(0, None));
        forall i | 0 <= i < count { bigger[i] := data[i]; }
        assert bigger[..count] == data[..count];
        data := bigger;
      }
    }

    /** Where an entry with end snapshot `end` belongs, searched from the back. */
    method FindPlace(log: seq<Record>, end: nat) returns (idx: nat)
      requires Valid()
      requires forall p :: 0 <= p < |Contents()| ==> Contents()[p].rec < |log|
      ensures idx <= count && idx == InsertIndex(log, Contents(), end)
    {
      ghost var vt := Contents();
      idx := count;
      assert vt[..idx] == vt;
      while idx > 0 && log[data[idx - 1].rec].end > end
        invariant idx <= count
        invariant InsertIndex(log, vt[..idx], end) == InsertIndex(log, vt, end)
      {
        assert vt[..idx][..idx - 1] == vt[..idx - 1];
        idx := idx - 1;
      }
    }

    /** Shifts the entries from `idx` on by one and stores `e` there. */
    method ShiftIn(idx: nat, e: Vte)
      requires Valid() && idx <= count < data.Length
      modifies this`count, data
      ensures Valid() && Contents() == InsertAt(old(Contents()), idx, e)
    {
      ghost var vt := Contents();
      var shift := count;
      while shift > idx
        invariant idx <= shift <= count == |vt| < data.Length
        invariant forall i :: 0 <= i < shift ==> data[i] == vt[i]
        invariant forall i :: shift < i <= count ==> data[i] == vt[i - 1]
      {
        data[shift] := data[shift - 1];
        shift := shift - 1;
      }
      data[idx] := e;
      count := count + 1;
    }

    /** Inserts `e` behind every entry whose end snapshot is not greater; fails when
        the vector has its greatest length. */
    method Insert(log: seq<Record>, e: Vte) returns (idx: Option<nat>)
      requires Valid() && e.rec < |log|
      requires forall p :: 0 <= p < |Contents()| ==> Contents()[p].rec < |log|
      modifies this, data
      ensures Valid()
      ensures idx.None? <==> |old(Contents())| == VECTOR_MAX_COUNT
      ensures idx.None? ==> Contents() == old(Contents())
      ensures idx.Some? ==>
                && idx.value == InsertIndex(log, old(Contents()), log[e.rec].end)
                && Contents() == InsertAt(old(Contents()), idx.value, e)
    {
      if count == VECTOR_MAX_COUNT {
        return None;
      }
      Resize();
      var i := FindPlace(log, log[e.rec].end);
      ShiftIn(i, e);
      idx := Some(i);
    }

    /** `ends` lists the end snapshots of the entries. */
    ghost predicate HasEnds(log: seq<Record>, ends: seq<nat>)
      reads this, data
    {
      && count == |ends| && count <= data.Length
      && forall i :: 0 <= i < count ==> data[i].rec < |log| && log[data[i].rec].end == ends[i]
    }

    /** From an entry that ends at `snap` to the last such entry. */
    method LastAt(log: seq<Record>, ghost ends: seq<nat>, start: nat, snap: nat) returns (idx: nat)
      requires HasEnds(log, ends) && start < count && ends[start] == snap
      ensures start <= idx < count && ends[idx] == snap && (idx + 1 < count ==> ends[idx + 1] != snap)
    {
      idx := start;
      while idx + 1 < count && log[data[idx + 1].rec].end == snap
        invariant start <= idx < count && ends[idx] == snap
        decreases count - idx
      {
        idx := idx + 1;
      }
    }

    method Bisect(log: seq<Record>, ghost ends: seq<nat>, snap: nat) returns (candidate: int)
      requires HasEnds(log, ends) && forall p, q :: 0 <= p < q < |ends| ==> ends[p] <= ends[q]
      ensures -1 <= candidate < count
      ensures candidate >= 0 ==> ends[candidate] <= snap
      ensures candidate + 1 < count ==> ends[candidate + 1] > snap
    {
      var len: int := count;
      if len == 1 {
        return if log[data[0].rec].end <= snap then 0 else -1;
      }
      candidate := -1;
      var lower: int, upper: int, idx: int := 0, len - 1, 0;
      while lower <= upper
        invariant 0 <= lower <= upper + 1 <= len && 0 <= idx && candidate == -1 && (idx < len || len == 0)
        invariant lower > 0 ==> ends[lower - 1] < snap
        invariant upper < len - 1 ==> ends[upper + 1] > snap
        invariant 0 < lower < len ==> ends[lower] <= snap
        invariant lower == idx + 1 || upper == idx - 1 || (lower == 0 && upper == len - 1 && idx == 0)
        decreases upper - lower
      {
        idx := lower + (upper - lower) / 2;
        var val := log[data[idx].rec].end;
        if val == snap {
          idx := LastAt(log, ends, idx, snap);
          candidate := idx;
          break;
        } else if val < snap {
          if idx < len - 1 && log[data[idx + 1].rec].end > snap {
            candidate := idx;
            break;
          }
          lower := idx + 1;
        } else {
          upper := idx - 1;
        }
      }
      if idx == len - 1 {
        candidate := idx;
      }
    }

    /** The index of the last entry that ends within `snap`, or -1. */
    method SearchBinary(log: seq<Record>, snap: nat) returns (candidate: int)
      requires Valid() && ByEnd(log, Contents())
      ensures -1 <= candidate < |Contents()|
      ensures forall p :: 0 <= p < |Contents()| ==> (p <= candidate <==> log[Contents()[p].rec].end <= snap)
    {
      ghost var vt := Contents();
      ghost var ends := seq(|vt|, i requires 0 <= i < |vt| => log[vt[i].rec].end);
      candidate := Bisect(log, ends, snap);
      Boundary(log, vt, candidate, snap);
    }

    /** The range search of a read at `snap`: backwards from the last entry within the
        snapshot to one that is committed. The only entry of a vector of length one is
        returned without looking at its state. */
    method SearchRange(log: seq<Record>, snap: nat) returns (found: Option<Vte>)
      requires Valid() && ByEnd(log, Contents())
      ensures |Contents()| != 1 ==> found == LastReadable(log, Contents(), snap)
      ensures |Contents()| == 1 ==> found == if log[Contents()[0].rec].end <= snap then Some(Contents()[0]) else None
      ensures found == Search(log, Contents(), snap)
    {
      var candidate := SearchBinary(log, snap);
      if count == 1 {
        return if candidate >= 0 then Some(data[0]) else None;
      }
      found := LastValid(log, candidate, snap);
    }

    /** The validator's loop. */
    method LastValid(log: seq<Record>, last: int, snap: nat) returns (found: Option<Vte>)
      requires Valid() && ByEnd(log, Contents()) && -1 <= last < |Contents()|
      requires forall p :: 0 <= p < |Contents()| ==> (p <= last <==> log[Contents()[p].rec].end <= snap)
      ensures found == LastReadable(log, Contents(), snap)
    {
      ghost var vt := Contents();
      var candidate := last;
      SkipUnreadable(log, vt, candidate + 1, snap);
      while candidate >= 0 && log[data[candidate].rec].state != COMMITTED
        invariant -1 <= candidate < count
        invariant forall p :: 0 <= p <= candidate ==> log[vt[p].rec].end <= snap
        invariant LastReadable(log, vt, snap) == LastReadable(log, vt[..candidate + 1], snap)
        decreases candidate
      {
        assert vt[..candidate + 1][..candidate] == vt[..candidate];
        candidate := candidate - 1;
      }
      found := if candidate >= 0 then Some(data[candidate]) else None;
    }
  }

  lemma {:induction false} SkipUnreadable(log: seq<Record>, vt: seq<Vte>, n: nat, snap: nat)
    requires n <= |vt| && forall p :: n <= p < |vt| ==> !Readable(log, vt[p], snap)
    ensures LastReadable(log, vt, snap) == LastReadable(log, vt[..n], snap)
    decreases |vt|
  {
    if n < |vt| {
      SkipUnreadable(log, vt[..|vt| - 1], n, snap);
      assert vt[..|vt| - 1][..n] == vt[..n];
    } else {
      assert vt[..n] == vt;
    }
  }
}
