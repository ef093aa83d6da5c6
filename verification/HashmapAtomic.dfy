/** The crash-recoverable hash map. Power may be lost before any persisted store;
    the program stops there, and recovery starts from the stores so far. */
module HashmapAtomic {
  import opened HashTable
  import opened Wrappers

  const INIT_BUCKETS_NUM: nat := 10
  const MIN_HASHSET_THRESHOLD: nat := 5
  const MAX_HASHSET_THRESHOLD: nat := 10

  /** A persistent pointer; it is null when the offset is. */
  datatype Oid = Oid(pool: nat, off: nat)

  const OID_NULL: Oid := Oid(0, 0)

  class Hashmap {
    const f: Coefficients
    var count: nat
    var countDirty: bool
    var buckets: Oid
    var bucketsTmp: Oid          // null except while rebuilding
    var tables: map<nat, Table>  // the bucket objects in the pool
    var fuel: nat                // persisted stores until power is lost
    var up: bool

    /** What the map holds, wherever a rebuild has got to. */
    ghost function Contents(): multiset<Entry>
      reads this
    {
      (if buckets.off in tables then Entries(tables[buckets.off]) else multiset{}) +
      (if bucketsTmp.off in tables &&
        bucketsTmp.off != buckets.off then Entries(tables[bucketsTmp.off]) else multiset{})
    }

    /** The number of buckets of a table. */
    ghost function Width(o: Oid): nat
      reads this
    {
      if o.off in tables then |tables[o.off]| else 0
    }

    ghost predicate TableOk(o: Oid)
      reads this
    {
      f.p > 0 && (o.off != 0 ==> o.off in tables && Placed(f, tables[o.off]))
    }

    /** Holds between any two stores. */
    ghost predicate Recoverable()
      reads this
    {
      && TableOk(buckets) && TableOk(bucketsTmp) && 0 !in tables
      && (buckets.off == 0 ==> bucketsTmp.off != 0)
      && (buckets.off == bucketsTmp.off ==> buckets == bucketsTmp)
      && Unique(Contents())
      && (countDirty || count == |Contents()|)
    }

    /** Holds between two operations. */
    ghost predicate Valid()
      reads this
    {
      Recoverable() && bucketsTmp.off == 0 && count == |Contents()|
    }

    /** A new map; the random coefficients and the table's place are given. */
    constructor (f: Coefficients, off: nat, fuel: nat)
      requires f.p > 0 && off != 0
      ensures Valid() && Contents() == multiset{} && up && !countDirty
    {
      this.f, count, countDirty, this.fuel, up := f, 0, false, fuel, true;
      buckets, bucketsTmp := Oid(1, off), OID_NULL;
      tables := map[off := Empty(INIT_BUCKETS_NUM)];
      new;
      NoEntries(Empty(INIT_BUCKETS_NUM));
    }

    /** The moment before a persisted store. */
    method Power() returns (ok: bool)
      modifies this`fuel, this`up
      ensures ok == up && Costs(1)
    {
      if up && fuel > 0 {
        fuel := fuel - 1;
      } else {
        up := false;
      }
      ok := up;
    }

    /** Entries still to be moved to the new table. */
    ghost function ToMove(): nat
      reads this
    {
      if buckets.off in tables then |Entries(tables[buckets.off])| else 0
    }

    /** With fuel for `n` stores nothing is interrupted, and exactly so many are made. */
    twostate predicate Costs(n: nat)
      reads this
    {
      (old(up) && old(fuel) >= n ==> up) && (up ==> old(up) && fuel + n == old(fuel))
    }

    /** The stores made are those of the entries moved. */
    twostate predicate PaysForMoves()
      reads this
    {
      && ToMove() <= old(ToMove())
      && (old(up) && old(fuel) >= old(ToMove()) ==> up)
      && (up ==> old(up) && fuel + old(ToMove()) == old(fuel) + ToMove())
    }

    /** Moves one entry from the old table to the new one. */
    method MoveFirst(i: nat)
      requires Recoverable() && buckets.off != 0 && bucketsTmp.off != 0 && buckets.off != bucketsTmp.off
      requires i < |tables[buckets.off]| && tables[buckets.off][i] != []
      modifies this`tables, this`fuel, this`up
      ensures Recoverable() && Contents() == old(Contents()) && (!old(up) ==> !up)
      ensures up ==> tables[buckets.off] == old(tables[buckets.off])[i := old(tables[buckets.off])[i][1..]]
      ensures !up ==> tables == old(tables)
      ensures Width(bucketsTmp) == old(Width(bucketsTmp))
      ensures Costs(1)
    {
      var cur: Table, tmp: Table := tables[buckets.off], tables[bucketsTmp.off];
      var en: Entry := cur[i][0];
      var h := Hash(f, |tmp|, en.key);
      var cur': Table, tmp': Table := cur[i := cur[i][1..]], tmp[h := [en] + tmp[h]];
      MoveHead(f, cur, tmp, i);
      PutTables(cur', tmp');
    }

    /** Both tables change at once, with the same entries in all. */
    method PutTables(cur: Table, tmp: Table)
      requires Recoverable() && buckets.off != 0 && bucketsTmp.off != 0 && buckets.off != bucketsTmp.off
      requires Placed(f, cur) && Placed(f, tmp)
      requires Entries(cur) + Entries(tmp) == Entries(tables[buckets.off]) + Entries(tables[bucketsTmp.off])
      modifies this`tables, this`fuel, this`up
      ensures Recoverable() && Contents() == old(Contents()) && (!old(up) ==> !up)
      ensures tables == if up then old(tables)[buckets.off := cur][bucketsTmp.off := tmp] else old(tables)
      ensures Costs(1)
    {
      var ok := Power();
      if !ok { return; }
      tables := tables[buckets.off := cur][bucketsTmp.off := tmp];
    }

    /** A bucket with an entry is not the end. */
    lemma SomeToMove(i: nat)
      requires buckets.off in tables && i < |tables[buckets.off]| && tables[buckets.off][i] != []
      ensures ToMove() >= 1
    {
      ChangeBucket(tables[buckets.off], i, []);
    }

    method Drain(i: nat)
      requires Recoverable() && buckets.off != 0 && bucketsTmp.off != 0 && buckets.off != bucketsTmp.off
      requires i < |tables[buckets.off]|
      modifies this`tables, this`fuel, this`up
      ensures Recoverable() && Contents() == old(Contents()) && (!old(up) ==> !up)
      ensures up ==> tables[buckets.off] == old(tables[buckets.off])[i := []]
      ensures Width(bucketsTmp) == old(Width(bucketsTmp))
      ensures PaysForMoves()
    {
      ghost var was: Table := tables[buckets.off];
      while tables[buckets.off][i] != []
        invariant Recoverable() && Contents() == old(Contents()) && (!old(up) ==> !up)
        invariant i < |tables[buckets.off]| && Width(bucketsTmp) == old(Width(bucketsTmp))
        invariant tables[buckets.off][i := []] == was[i := []]
        invariant PaysForMoves()
        decreases |tables[buckets.off][i]|
      {
        SomeToMove(i);
        HeadGone(tables[buckets.off], i);
        OneLeaves(tables[buckets.off], i);
        MoveFirst(i);
        if !up { return; }
      }
    }

    method MoveAll()
      requires Recoverable() && buckets.off != 0 && bucketsTmp.off != 0 && buckets.off != bucketsTmp.off
      modifies this`tables, this`fuel, this`up
      ensures Recoverable() && Contents() == old(Contents()) && (!old(up) ==> !up)
      ensures up ==> Entries(tables[buckets.off]) == multiset{}
      ensures Width(bucketsTmp) == old(Width(bucketsTmp))
      ensures Costs(old(ToMove()))
    {
      var i := 0;
      while i < |tables[buckets.off]|
        invariant Recoverable() && Contents() == old(Contents()) && (!old(up) ==> !up)
        invariant i <= |tables[buckets.off]| == |old(tables[buckets.off])| &&
          Width(bucketsTmp) == old(Width(bucketsTmp))
        invariant forall j :: 0 <= j < i ==> tables[buckets.off][j] == []
        invariant PaysForMoves()
      {
        Drain(i);
        if !up { return; }
        i := i + 1;
      }
      NoEntries(tables[buckets.off]);
    }

    /** Finishes a rebuild that has a new table. The pointer is assigned pool first,
        so that a torn assignment is still null. */
    method RebuildFinish()
      requires Recoverable() && buckets.off != 0 && bucketsTmp.off != 0 && buckets.off != bucketsTmp.off
      modifies this`tables, this`buckets, this`bucketsTmp, this`fuel, this`up
      ensures Recoverable() && Contents() == old(Contents()) && (!old(up) ==> !up)
      ensures up ==> bucketsTmp.off == 0 && Width(buckets) == old(Width(bucketsTmp))
      ensures Costs(old(ToMove()) + 4)
    {
      MoveAll();
      if !up { return; }
      FreeOld();
      if !up { return; }
      Switch();
    }

    method FreeOld()
      requires Recoverable() && buckets.off != 0 && bucketsTmp.off != 0 && buckets.off != bucketsTmp.off
      requires Entries(tables[buckets.off]) == multiset{}
      modifies this`tables, this`buckets, this`fuel, this`up
      ensures Recoverable() && Contents() == old(Contents()) && (!old(up) ==> !up)
      ensures up ==> buckets.off == 0
      ensures Width(bucketsTmp) == old(Width(bucketsTmp))
      ensures Costs(1)
    {
      var ok := Power();
      if !ok { return; }
      tables, buckets := tables - {buckets.off}, OID_NULL;
    }

    /** The new table becomes the table. */
    method Switch()
      requires Recoverable() && buckets.off == 0
      modifies this`buckets, this`bucketsTmp, this`fuel, this`up
      ensures Recoverable() && Contents() == old(Contents()) && (!old(up) ==> !up)
      ensures up ==> bucketsTmp.off == 0 && Width(buckets) == old(Width(bucketsTmp))
      ensures Costs(3)
    {
      var ok := Power();
      if !ok { return; }
      buckets := buckets.(pool := bucketsTmp.pool);
      ok := Power();
      if !ok { return; }
      buckets := buckets.(off := bucketsTmp.off);
      ClearTmp();
    }

    method ClearTmp()
      requires Recoverable() && buckets == bucketsTmp
      modifies this`bucketsTmp, this`fuel, this`up
      ensures Recoverable() && Contents() == old(Contents()) && (!old(up) ==> !up)
      ensures up ==> bucketsTmp.off == 0
      ensures Costs(1)
    {
      var ok := Power();
      if !ok { return; }
      bucketsTmp := bucketsTmp.(off := 0);
    }

    /** A new table with `newLen` buckets, or as many as before for zero; `place` is
        where the allocator puts it, if it can. */
    method Rebuild(newLen: nat, place: Option<nat>)
      requires Valid() && (place.Some? ==> place.value != 0 && place.value !in tables)
      modifies this`tables, this`buckets, this`bucketsTmp, this`fuel, this`up
      ensures Recoverable() && Contents() == old(Contents()) && (!old(up) ==> !up)
      ensures up ==> Valid()
      ensures up && place.Some? ==> Width(buckets) == if newLen == 0 then old(Width(buckets)) else newLen
      ensures Costs(if place.Some? then |old(Contents())| + 5 else 0)
    {
      if place.None? {
        return;
      }
      var len := if newLen == 0 then |tables[buckets.off]| else newLen;
      var ok := Power();
      if !ok { return; }
      NoEntries(Empty(len));
      tables, bucketsTmp := tables[place.value := Empty(len)], Oid(1, place.value);
      RebuildFinish();
    }

    /** The position of a key in its bucket. */
    method Find(h: nat, key: nat) returns (j: nat)
      requires Valid() && h == Hash(f, |tables[buckets.off]|, key)
      ensures j <= |tables[buckets.off][h]|
      ensures j < |tables[buckets.off][h]| ==>
                tables[buckets.off][h][j].key == key && tables[buckets.off][h][j] in Contents()
      ensures j == |tables[buckets.off][h]| ==> !HasKey(Contents(), key)
    {
      j := 0;
      var b: seq<Entry> := tables[buckets.off][h];
      while j < |b|
        invariant j <= |b| && forall i :: 0 <= i < j ==> b[i].key != key
      {
        if b[j].key == key {
          KeyInItsBucket(f, tables[buckets.off], b[j]);
          return;
        }
        j := j + 1;
      }
      forall e | e in Contents() ensures e.key != key {
        if e.key == key { KeyInItsBucket(f, tables[buckets.off], e); }
      }
    }

    /** The table's entries change by one store while the count is marked dirty. */
    method PutTable(t: Table)
      requires Recoverable() && bucketsTmp.off == 0 && countDirty && Placed(f, t) && Unique(Entries(t))
      modifies this`tables
      ensures Recoverable() && Contents() == Entries(t) && tables == old(tables)[buckets.off := t]
    {
      tables := tables[buckets.off := t];
    }

    method SetCount(n: nat)
      requires Recoverable() && bucketsTmp.off == 0 && countDirty && n == |Contents()|
      modifies this`count, this`countDirty, this`fuel, this`up
      ensures Recoverable() && Contents() == old(Contents()) && (!old(up) ==> !up)
      ensures up ==> Valid() && !countDirty && count == n
      ensures Costs(2)
    {
      var ok := Power();
      if !ok { return; }
      count := n;
      ok := Power();
      if !ok { return; }
      countDirty := false;
    }

    /** Replaces the table by one with other entries, between marking the count
        dirty and clean; `new` says that the list operation took place. */
    method Change(t: Table, n: nat) returns (ghost done: bool)
      requires Valid() && Placed(f, t) && Unique(Entries(t)) && n == |Entries(t)|
      modifies this`tables, this`count, this`countDirty, this`fuel, this`up
      ensures Recoverable() && Contents() == (if done then Entries(t) else old(Contents())) && (!old(up) ==> !up)
      ensures up ==> done && Valid() && tables.Keys == old(tables.Keys) && Width(buckets) == |t| && count == n
      ensures up ==> !countDirty
      ensures Costs(4)
    {
      done := false;
      var ok := Power();
      if !ok { return; }
      countDirty := true;
      ok := Power();
      if !ok { return; }
      PutTable(t);
      done := true;
      SetCount(n);
    }

    method Link(e: Entry) returns (ghost done: bool)
      requires Valid() && !HasKey(Contents(), e.key)
      modifies this`tables, this`count, this`countDirty, this`fuel, this`up
      ensures Recoverable() && (!old(up) ==> !up)
      ensures Contents() == if done then old(Contents()) + multiset{e} else old(Contents())
      ensures up ==> done && Valid() && tables.Keys == old(tables.Keys) && Width(buckets) == old(Width(buckets))
      ensures up ==> !countDirty
      ensures Costs(4)
    {
      var t: Table := tables[buckets.off];
      AddToTable(f, t, e);
      done := Change(With(f, t, e), count + 1);
    }

    /** Marking the count dirty is all that happens when allocation fails. */
    method FailToAllocate()
      requires Valid()
      modifies this`countDirty, this`fuel, this`up
      ensures Recoverable() && Contents() == old(Contents()) && (up ==> Valid() && countDirty)
      ensures Costs(1)
    {
      var ok := Power();
      if !ok { return; }
      countDirty := true;
    }

    /** One more entry for the key makes its bucket too long. */
    ghost predicate Crowded(key: nat)
      requires Valid()
      reads this
    {
      var t: Table := tables[buckets.off];
      var num := |t[Hash(f, |t|, key)]| + 1;
      num > MAX_HASHSET_THRESHOLD || (num > MIN_HASHSET_THRESHOLD && |Contents()| + 1 > 2 * |t|)
    }

    /** Adds an entry for a new key, and doubles the table when its bucket is crowded. */
    method Add(e: Entry, num: nat, place: Option<nat>)
      requires Valid() && up && (place.Some? ==> place.value != 0 && place.value !in tables)
      requires !HasKey(Contents(), e.key)
      requires num == |tables[buckets.off][Hash(f, |tables[buckets.off]|, e.key)]| + 1
      modifies this
      ensures Recoverable() && (Contents() == old(Contents()) || Contents() == old(Contents()) + multiset{e})
      ensures up ==> Valid() && !countDirty && Contents() == old(Contents()) + multiset{e}
      ensures up && place.Some? ==>
                Width(buckets) == (if old(Crowded(e.key)) then 2 * old(Width(buckets)) else old(Width(buckets)))
      ensures Costs(if old(Crowded(e.key)) && place.Some? then |old(Contents())| + 10 else 4)
    {
      var len := |tables[buckets.off]|;
      ghost var done := Link(e);
      if !up { return; }
      if num > MAX_HASHSET_THRESHOLD || (num > MIN_HASHSET_THRESHOLD && count > 2 * len) {
        Rebuild(len * 2, place);
      }
    }

    /** Adds an entry. Returns 1 if the key exists, -1 if the entry cannot be
        allocated. */
    method Insert(key: nat, value: nat, canAllocate: bool, place: Option<nat>) returns (r: int)
      requires Valid() && up && (place.Some? ==> place.value != 0 && place.value !in tables)
      modifies this
      ensures Recoverable()
      ensures Contents() == old(Contents()) ||
              (Contents() == old(Contents()) + multiset{Entry(key, value)} && !HasKey(old(Contents()), key))
      ensures up ==> Valid() && r == (if HasKey(old(Contents()), key) then 1 else if canAllocate then 0 else -1)
      ensures up ==> Contents() == if r == 0 then old(Contents()) + multiset{Entry(key, value)} else old(Contents())
      ensures up ==> (countDirty <==> (r == 1 && old(countDirty)) || r == -1)
      ensures up && r == 0 && place.Some? ==>
                Width(buckets) == (if old(Crowded(key)) then 2 * old(Width(buckets)) else old(Width(buckets)))
      ensures Costs(if HasKey(old(Contents()), key) then 0
                    else if !canAllocate then 1
                    else if old(Crowded(key)) && place.Some? then |old(Contents())| + 10 else 4)
    {
      var t: Table := tables[buckets.off];
      var h := Hash(f, |t|, key);
      var num := Find(h, key);
      if num < |t[h]| {
        return 1;
      }
      if !canAllocate {
        FailToAllocate();
        return -1;
      }
      Add(Entry(key, value), num + 1, place);
      r := if up then 0 else -1;
    }

    method Unlink(h: nat, j: nat, ghost e: Entry) returns (ghost done: bool)
      requires Valid() && h < |tables[buckets.off]| && j < |tables[buckets.off][h]|
      requires e == tables[buckets.off][h][j]
      modifies this`tables, this`count, this`countDirty, this`fuel, this`up
      ensures Recoverable() && (!old(up) ==> !up)
      ensures Contents() == if done then old(Contents()) - multiset{e} else old(Contents())
      ensures up ==> done && Valid() && tables.Keys == old(tables.Keys) && Width(buckets) == old(Width(buckets))
      ensures up ==> !countDirty
      ensures Costs(4)
    {
      var t: Table := tables[buckets.off];
      RemoveFromTable(f, t, h, j);
      done := Change(Without(t, h, j), count - 1);
    }

    /** Removes an entry, and halves the table when it has become sparse. */
    method Drop(h: nat, j: nat, place: Option<nat>, ghost e: Entry)
      requires Valid() && up && (place.Some? ==> place.value != 0 && place.value !in tables)
      requires h < |tables[buckets.off]| && j < |tables[buckets.off][h]| && e == tables[buckets.off][h][j]
      requires e in Contents()
      modifies this
      ensures Recoverable() && (Contents() == old(Contents()) || Contents() == old(Contents()) - multiset{e})
      ensures up ==> Valid() && !countDirty && Contents() == old(Contents()) - multiset{e}
      ensures up && place.Some? ==>
                Width(buckets) == (if |Contents()| < old(Width(buckets)) && old(Width(buckets)) > 1
                                   then old(Width(buckets)) / 2 else old(Width(buckets)))
      ensures Costs(if |old(Contents())| <= old(Width(buckets)) && place.Some? then |old(Contents())| + 8 else 4)
    {
      var len := |tables[buckets.off]|;
      ghost var before := Contents();
      ghost var done := Unlink(h, j, e);
      if !up { return; }
      assert |before - multiset{e}| <= |before|;
      if count < len {
        Rebuild(len / 2, place);
      }
    }

    /** Removes the entry of a key, if there is one. */
    method Remove(key: nat, place: Option<nat>) returns (removed: bool, ghost e: Entry)
      requires Valid() && up && (place.Some? ==> place.value != 0 && place.value !in tables)
      modifies this
      ensures Recoverable()
      ensures Contents() == old(Contents()) ||
              (e in old(Contents()) && e.key == key && Contents() == old(Contents()) - multiset{e})
      ensures up ==> Valid() && (removed <==> HasKey(old(Contents()), key))
      ensures up && removed ==> e in old(Contents()) && e.key == key && Contents() == old(Contents()) - multiset{e}
      ensures up && !removed ==> Contents() == old(Contents())
      ensures up ==> (countDirty <==> !removed && old(countDirty))
      ensures up && removed && place.Some? ==>
                Width(buckets) == (if |Contents()| < old(Width(buckets)) && old(Width(buckets)) > 1
                                   then old(Width(buckets)) / 2 else old(Width(buckets)))
      ensures Costs(if !HasKey(old(Contents()), key) then 0
                    else if |old(Contents())| <= old(Width(buckets)) && place.Some? then |old(Contents())| + 8 else 4)
    {
      e := Entry(key, 0);
      var t: Table := tables[buckets.off];
      var h := Hash(f, |t|, key);
      var j := Find(h, key);
      if j == |t[h]| {
        return false, e;
      }
      e := t[h][j];
      Drop(h, j, place, e);
      removed := up;
    }

    method Lookup(key: nat) returns (present: bool)
      requires Valid()
      ensures present <==> HasKey(Contents(), key)
    {
      var t: Table := tables[buckets.off];
      var h := Hash(f, |t|, key);
      var j := Find(h, key);
      present := j < |t[h]|;
    }

    /** Counts the entries of the table. */
    method Recount() returns (n: nat)
      requires Recoverable() && bucketsTmp.off == 0
      ensures n == |Contents()|
    {
      var t: Table := tables[buckets.off];
      n := 0;
      var i := 0;
      while i < |t|
        invariant i <= |t| && n == Sizes(t[..i])
      {
        SizesNext(t, i);
        n := n + |t[i]|;
        i := i + 1;
      }
      assert t[..i] == t;
      CountIsSum(t);
    }

    /** The stores a rebuild that was interrupted still needs. */
    ghost function RebuildStores(): nat
      reads this
    {
      if bucketsTmp.off == 0 then 0
      else if buckets == bucketsTmp then 1
      else if buckets.off == 0 then 3
      else ToMove() + 4
    }

    /** Ends the rebuild that was interrupted, wherever that was. */
    method EndRebuild()
      requires Recoverable() && bucketsTmp.off != 0
      modifies this`tables, this`buckets, this`bucketsTmp, this`fuel, this`up
      ensures Recoverable() && Contents() == old(Contents()) && (up ==> bucketsTmp.off == 0)
      ensures Costs(old(RebuildStores()))
    {
      if buckets == bucketsTmp {
        ClearTmp();
      } else if buckets.off == 0 {
        Switch();
      } else {
        RebuildFinish();
      }
    }

    /** Recovers after a crash; it may be interrupted and repeated. */
    method Init(fuel: nat)
      requires Recoverable()
      modifies this
      ensures Recoverable() && Contents() == old(Contents())
      ensures up ==> Valid() && !countDirty
      ensures var n := old(RebuildStores()) + if old(countDirty) then 2 else 0;
        (fuel >= n ==> up) && (up ==> this.fuel + n == fuel)
    {
      this.fuel, up := fuel, true;
      if bucketsTmp.off != 0 {
        EndRebuild();
        if !up { return; }
      }
      if countDirty {
        var n := Recount();
        SetCount(n);
      }
    }
  }
}
