/** Bucket tables as values. */
module HashTable {

  const U64: nat := 0x1_0000_0000_0000_0000

  datatype Entry = Entry(key: nat, value: nat)

  type Table = seq<seq<Entry>>

  /** The coefficients of the hash function. */
  datatype Coefficients = Coefficients(a: nat, b: nat, p: nat)

  /** In 64-bit arithmetic. */
  function Hash(f: Coefficients, len: nat, key: nat): (h: nat)
    requires f.p > 0 && len > 0
    ensures h < len
  {
    (f.a * key + f.b) % U64 % f.p % len
  }

  /** All entries of a table. */
  function Entries(t: Table): multiset<Entry> {
    if t == [] then multiset{} else multiset(t[0]) + Entries(t[1..])
  }

  /** Every entry is in the bucket its hash selects. */
  predicate Placed(f: Coefficients, t: Table)
    requires f.p > 0
  {
    |t| > 0 && forall i, e :: 0 <= i < |t| && e in t[i] ==> Hash(f, |t|, e.key) == i
  }

  /** No key twice. */
  ghost predicate Unique(s: multiset<Entry>) {
    forall e, e' :: e in s && e' in s && e.key == e'.key ==> e == e' && s[e] == 1
  }

  ghost predicate HasKey(s: multiset<Entry>, key: nat) {
    exists e :: e in s && e.key == key
  }

  lemma {:induction false} ChangeBucket(t: Table, i: nat, b: seq<Entry>)
    requires i < |t|
    ensures multiset(t[i]) <= Entries(t)
    ensures Entries(t[i := b]) == Entries(t) - multiset(t[i]) + multiset(b)
  {
    if i == 0 {
      assert t[0 := b][1..] == t[1..];
    } else {
      assert t[i := b][1..] == t[1..][i - 1 := b];
      ChangeBucket(t[1..], i - 1, b);
    }
  }

  lemma {:induction false} EntryInBucket(t: Table, e: Entry) returns (i: nat)
    requires e in Entries(t)
    ensures i < |t| && e in t[i]
  {
    if e in t[0] {
      i := 0;
    } else {
      i := EntryInBucket(t[1..], e);
      i := i + 1;
    }
  }

  /** In a placed table a key can only be in its bucket. */
  lemma KeyInItsBucket(f: Coefficients, t: Table, e: Entry)
    requires f.p > 0 && Placed(f, t)
    ensures e in Entries(t) <==> e in t[Hash(f, |t|, e.key)]
  {
    if e in Entries(t) { var i := EntryInBucket(t, e); }
    if e in t[Hash(f, |t|, e.key)] { ChangeBucket(t, Hash(f, |t|, e.key), []); }
  }

  lemma {:induction false} NoEntries(t: Table)
    requires forall i :: 0 <= i < |t| ==> t[i] == []
    ensures Entries(t) == multiset{}
  {
    if t != [] { NoEntries(t[1..]); }
  }

  /** A new table: empty buckets. */
  function Empty(len: nat): (t: Table)
    ensures |t| == len && forall i :: 0 <= i < len ==> t[i] == []
  {
    seq(len, _ => [])
  }

  /** Dropping one entry of a bucket. */
  lemma DropEntry(f: Coefficients, t: Table, h: nat, j: nat, b: seq<Entry>)
    requires f.p > 0 && Placed(f, t) && h < |t| && j < |t[h]| && b == t[h][..j] + t[h][j + 1..]
    ensures Placed(f, t[h := b]) && t[h][j] in Entries(t) && Entries(t[h := b]) == Entries(t) - multiset{t[h][j]}
  {
    ChangeBucket(t, h, b);
    OneLess(t[h], j, b);
    forall x | x in b ensures x in t[h] {
      assert x in multiset(b) && x in multiset(t[h]);
    }
    StillPlaced(f, t, h, b);
  }

  lemma OneLess(s: seq<Entry>, j: nat, b: seq<Entry>)
    requires j < |s| && b == s[..j] + s[j + 1..]
    ensures multiset(s) == multiset(b) + multiset{s[j]}
  {
    assert s == s[..j] + [s[j]] + s[j + 1..];
  }

  lemma StillPlaced(f: Coefficients, t: Table, h: nat, b: seq<Entry>)
    requires f.p > 0 && Placed(f, t) && h < |t| && forall x :: x in b ==> x in t[h] || Hash(f, |t|, x.key) == h
    ensures Placed(f, t[h := b])
  {
  }

  lemma InsertHead(f: Coefficients, t: Table, e: Entry)
    requires f.p > 0 && Placed(f, t)
    ensures var h := Hash(f, |t|, e.key);
      Placed(f, t[h := [e] + t[h]]) && Entries(t[h := [e] + t[h]]) == Entries(t) + multiset{e}
  {
    var h := Hash(f, |t|, e.key);
    ChangeBucket(t, h, [e] + t[h]);
    StillPlaced(f, t, h, [e] + t[h]);
  }

  /** Moving the first entry of a bucket to its place in another table. */
  lemma MoveHead(f: Coefficients, cur: Table, tmp: Table, i: nat)
    requires f.p > 0 && Placed(f, cur) && Placed(f, tmp) && i < |cur| && cur[i] != []
    ensures var e := cur[i][0];
      var h := Hash(f, |tmp|, e.key);
      && Placed(f, cur[i := cur[i][1..]]) && Placed(f, tmp[h := [e] + tmp[h]])
      && Entries(cur[i := cur[i][1..]]) + Entries(tmp[h := [e] + tmp[h]]) == Entries(cur) + Entries(tmp)
  {
    assert cur[i][1..] == cur[i][..0] + cur[i][0 + 1..];
    DropEntry(f, cur, i, 0, cur[i][1..]);
    InsertHead(f, tmp, cur[i][0]);
  }

  lemma HeadGone(t: Table, i: nat)
    requires i < |t| && t[i] != []
    ensures t[i := t[i][1..]][i := []] == t[i := []]
  {
  }

  lemma OneLeaves(t: Table, i: nat)
    requires i < |t| && t[i] != []
    ensures |Entries(t[i := t[i][1..]])| == |Entries(t)| - 1
  {
    var b := t[i];
    ChangeBucket(t, i, b[1..]);
    assert b == [b[0]] + b[1..];
    assert multiset(b) == multiset{b[0]} + multiset(b[1..]);
    assert Entries(t) == Entries(t[i := b[1..]]) + multiset{b[0]};
  }

  lemma UniqueWith(s: multiset<Entry>, e: Entry)
    requires Unique(s) && forall x :: x in s ==> x.key != e.key
    ensures Unique(s + multiset{e})
  {
  }

  lemma UniqueWithout(s: multiset<Entry>, e: Entry)
    requires Unique(s) && e in s
    ensures Unique(s - multiset{e}) && forall x :: x in s - multiset{e} ==> x.key != e.key
  {
    forall x, y | x in s - multiset{e} && y in s - multiset{e} && x.key == y.key ensures x == y &&
      (s - multiset{e})[x] == 1 {
      assert x in s && y in s;
    }
    assert s[e] == 1;
    forall x | x in s - multiset{e} ensures x.key != e.key {
      assert x in s;
    }
  }

  lemma {:induction false} CountIsSum(t: Table)
    ensures |Entries(t)| == Sizes(t)
  {
    if t != [] { CountIsSum(t[1..]); }
  }

  function Sizes(t: Table): nat {
    if t == [] then 0 else |t[0]| + Sizes(t[1..])
  }

  lemma {:induction false} SizesNext(t: Table, i: nat)
    requires i < |t|
    ensures Sizes(t[..i + 1]) == Sizes(t[..i]) + |t[i]|
  {
    if i > 0 {
      assert t[..i + 1][1..] == t[1..][..i] && t[..i][1..] == t[1..][..i - 1];
      SizesNext(t[1..], i - 1);
    } else {
      assert t[..1][1..] == [] && t[..0] == [];
    }
  }

  function With(f: Coefficients, t: Table, e: Entry): Table
    requires f.p > 0 && |t| > 0
  {
    var h := Hash(f, |t|, e.key);
    t[h := [e] + t[h]]
  }

  lemma AddToTable(f: Coefficients, t: Table, e: Entry)
    requires f.p > 0 && Placed(f, t) && Unique(Entries(t)) && !HasKey(Entries(t), e.key)
    ensures Placed(f, With(f, t, e)) && Unique(Entries(With(f, t, e)))
    ensures Entries(With(f, t, e)) == Entries(t) + multiset{e} && |Entries(With(f, t, e))| == |Entries(t)| + 1
  {
    InsertHead(f, t, e);
    UniqueWith(Entries(t), e);
  }

  function Without(t: Table, h: nat, j: nat): Table
    requires h < |t| && j < |t[h]|
  {
    t[h := t[h][..j] + t[h][j + 1..]]
  }

  lemma RemoveFromTable(f: Coefficients, t: Table, h: nat, j: nat)
    requires f.p > 0 && Placed(f, t) && Unique(Entries(t)) && h < |t| && j < |t[h]|
    ensures Placed(f, Without(t, h, j)) && Unique(Entries(Without(t, h, j)))
    ensures Entries(Without(t, h, j)) == Entries(t) - multiset{t[h][j]} && |Entries(t)| > 0
    ensures |Entries(Without(t, h, j))| == |Entries(t)| - 1
  {
    DropEntry(f, t, h, j, t[h][..j] + t[h][j + 1..]);
    UniqueWithout(Entries(t), t[h][j]);
  }
}
