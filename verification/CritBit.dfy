/** Crit-bit tries as values. */
module CritBit {

  /** Bit `i` of a key. */
  predicate Bit(k: nat, i: nat) {
    if i == 0 then k % 2 == 1 else Bit(k / 2, i - 1)
  }

  /** The most significant bit in which two keys differ. */
  function FindCritBit(a: nat, b: nat): (d: nat)
    requires a != b
    ensures Bit(a, d) != Bit(b, d) && forall i: nat :: i > d ==> Bit(a, i) == Bit(b, i)
    decreases a + b
  {
    if a / 2 == b / 2 then 0 else 1 + FindCritBit(a / 2, b / 2)
  }

  /** `id` is the object that holds an inner node. */
  datatype Trie = Leaf(key: nat, value: nat) | Fork(id: nat, diff: nat, left: Trie, right: Trie)

  function Child(t: Trie, c: bool): Trie
    requires t.Fork?
  {
    if c then t.right else t.left
  }

  function Make(id: nat, diff: nat, c: bool, at: Trie, other: Trie): Trie {
    if c then Fork(id, diff, other, at) else Fork(id, diff, at, other)
  }

  function Map(t: Trie): map<nat, nat> {
    match t
    case Leaf(k, v) => map[k := v]
    case Fork(_, _, l, r) => Map(l) + Map(r)
  }

  /** The keys have the same bits above `d`. */
  ghost predicate Agree(a: nat, b: nat, d: nat) {
    forall i: nat :: i > d ==> Bit(a, i) == Bit(b, i)
  }

  /** Critical bits fall on every path, every key lies on the side its bits select,
      and no key is zero. */
  ghost predicate Good(t: Trie) {
    match t
    case Leaf(k, _) => k != 0
    case Fork(_, d, l, r) =>
      && Good(l) && Good(r) && (l.Fork? ==> l.diff < d) && (r.Fork? ==> r.diff < d)
      && (forall k :: k in Map(l) ==> !Bit(k, d)) && (forall k :: k in Map(r) ==> Bit(k, d))
      && (forall k, k' :: k in Map(t) && k' in Map(t) ==> Agree(k, k', d))
  }

  lemma {:induction false} SomeKey(t: Trie) returns (k: nat)
    ensures k in Map(t)
  {
    match t
    case Leaf(key, _) => k := key;
    case Fork(_, _, l, _) => k := SomeKey(l);
  }

  // ---------------------------------------------------------------------------
  // Order
  // ---------------------------------------------------------------------------

  /** Of two keys the greater one has the critical bit. */
  lemma {:induction false} GreaterHasBit(a: nat, b: nat)
    requires a != b
    ensures a < b <==> Bit(b, FindCritBit(a, b))
    decreases a + b
  {
    if a / 2 != b / 2 { GreaterHasBit(a / 2, b / 2); }
  }

  /** The keys lie in the trie from left to right in their order. */
  lemma LeftIsLess(t: Trie, k: nat, k': nat)
    requires Good(t) && t.Fork? && k in Map(t.left) && k' in Map(t.right)
    ensures k < k'
  {
    assert k in Map(t) && k' in Map(t) && Agree(k, k', t.diff);
    assert Bit(k', t.diff) && !Bit(k, t.diff);
    GreaterHasBit(k, k');
    assert FindCritBit(k, k') == t.diff;
  }

  // ---------------------------------------------------------------------------
  // Searching
  // ---------------------------------------------------------------------------

  /** The leaf that the bits of `key` lead to. */
  function Best(t: Trie, key: nat): (leaf: Trie)
    ensures leaf.Leaf? && leaf.key in Map(t)
  {
    match t
    case Leaf(_, _) => t
    case Fork(_, d, l, r) => if Bit(key, d) then Best(r, key) else Best(l, key)
  }

  lemma {:induction false} BestIsIt(t: Trie, key: nat)
    requires Good(t)
    ensures key in Map(t) <==> Best(t, key).key == key
    ensures key in Map(t) ==> Map(t)[key] == Best(t, key).value
  {
    if t.Fork? {
      BestIsIt(t.left, key);
      BestIsIt(t.right, key);
    }
  }

  // ---------------------------------------------------------------------------
  // Inserting
  // ---------------------------------------------------------------------------

  /** Replaces the value of the best leaf, which has the key. */
  function Update(t: Trie, key: nat, value: nat): Trie {
    match t
    case Leaf(_, _) => Leaf(key, value)
    case Fork(id, d, l, r) =>
      if Bit(key, d) then Fork(id, d, l, Update(r, key, value)) else Fork(id, d, Update(l, key, value), r)
  }

  /** Adds a leaf above the first part of the path whose bits are below `d`; `n` is
      the new inner node. */
  function Add(t: Trie, n: nat, key: nat, value: nat, d: nat): Trie {
    if t.Fork? && t.diff >= d then
      if Bit(key, t.diff) then t.(right := Add(t.right, n, key, value, d))
      else t.(left := Add(t.left, n, key, value, d))
    else
      Make(n, d, Bit(key, d), Leaf(key, value), t)
  }

  lemma {:induction false} UpdateIsGood(t: Trie, key: nat, value: nat)
    requires Good(t) && key in Map(t)
    ensures Good(Update(t, key, value)) && Map(Update(t, key, value)) == Map(t)[key := value]
  {
    if t.Fork? {
      if Bit(key, t.diff) {
        UpdateIsGood(t.right, key, value);
      } else {
        UpdateIsGood(t.left, key, value);
      }
      var u := Update(t, key, value);
      assert Map(u) == Map(t)[key := value];
      assert forall k :: k in Map(u) <==> k in Map(t);
    }
  }

  /** On the way down to the place of the new leaf the path is that of the search,
      because both keys have the same bits there. */
  lemma {:induction false} AddIsGood(t: Trie, n: nat, key: nat, value: nat, d: nat)
    requires Good(t) && key != 0 && Best(t, key).key != key && d == FindCritBit(Best(t, key).key, key)
    ensures Good(Add(t, n, key, value, d)) && Map(Add(t, n, key, value, d)) == Map(t)[key := value]
    ensures forall k :: k in Map(t) && t.Fork? && t.diff >= d ==> t.diff > d && Agree(k, key, t.diff)
  {
    var b := Best(t, key).key;
    if t.Fork? && t.diff >= d {
      var c := Bit(key, t.diff);
      assert Bit(b, t.diff) == c by { assert b in Map(Child(t, c)); }
      assert t.diff > d;
      AddIsGood(Child(t, c), n, key, value, d);
      AddKeepsFork(t, n, key, value, d);
    } else {
      NewFork(t, n, key, value, d);
    }
  }

  lemma AddKeepsFork(t: Trie, n: nat, key: nat, value: nat, d: nat)
    requires Good(t) && t.Fork? && t.diff > d && Best(t, key).key != key && d == FindCritBit(Best(t, key).key, key)
    requires var u := Add(Child(t, Bit(key, t.diff)), n, key, value, d);
      Good(u) && Map(u) == Map(Child(t, Bit(key, t.diff)))[key := value]
    ensures Good(Add(t, n, key, value, d)) && Map(Add(t, n, key, value, d)) == Map(t)[key := value]
    ensures forall k :: k in Map(t) ==> Agree(k, key, t.diff)
  {
    var b, c := Best(t, key).key, Bit(key, t.diff);
    var u, w := Add(Child(t, c), n, key, value, d), Add(t, n, key, value, d);
    forall k | k in Map(t) ensures Agree(k, key, t.diff) {
      assert Agree(k, b, t.diff);
    }
    assert Map(w) == Map(t)[key := value];
    assert u.Fork? ==> u.diff < t.diff;
    forall k, k' | k in Map(w) && k' in Map(w) ensures Agree(k, k', t.diff) {
      assert k != key ==> k in Map(t);
      assert k' != key ==> k' in Map(t);
    }
  }

  lemma NewFork(t: Trie, n: nat, key: nat, value: nat, d: nat)
    requires Good(t) && key != 0 && Best(t, key).key != key && d == FindCritBit(Best(t, key).key, key)
    requires t.Fork? ==> t.diff < d
    ensures var w := Make(n, d, Bit(key, d), Leaf(key, value), t); Good(w) && Map(w) == Map(t)[key := value]
  {
    var b := Best(t, key).key;
    forall k | k in Map(t) ensures Bit(k, d) == Bit(b, d) && Agree(k, key, d) {
      assert t.Fork? ==> Agree(k, b, t.diff);
    }
    assert key !in Map(t);
    ForkIsGood(t, n, key, value, d);
  }

  lemma ForkIsGood(t: Trie, n: nat, key: nat, value: nat, d: nat)
    requires Good(t) && key != 0 && key !in Map(t) && (t.Fork? ==> t.diff < d)
    requires forall k :: k in Map(t) ==> Bit(k, d) != Bit(key, d) && Agree(k, key, d)
    ensures var w := Make(n, d, Bit(key, d), Leaf(key, value), t); Good(w) && Map(w) == Map(t)[key := value]
  {
    var w := Make(n, d, Bit(key, d), Leaf(key, value), t);
    ForkMap(t, n, key, value, d);
    forall k, k' | k in Map(w) && k' in Map(w) ensures Agree(k, k', d) {
      AgreeBy(k, k', key, d);
    }
  }

  lemma ForkMap(t: Trie, n: nat, key: nat, value: nat, d: nat)
    requires key !in Map(t)
    ensures Map(Make(n, d, Bit(key, d), Leaf(key, value), t)) == Map(t)[key := value]
  {
  }

  lemma AgreeBy(a: nat, b: nat, c: nat, d: nat)
    ensures (a == c || Agree(a, c, d)) && (b == c || Agree(b, c, d)) ==> Agree(a, b, d)
  {
  }

  // ---------------------------------------------------------------------------
  // Removing
  // ---------------------------------------------------------------------------

  /** The trie without the best leaf: its sibling takes the parent's place. */
  function Drop(t: Trie, key: nat): Trie
    requires t.Fork?
  {
    var c := Bit(key, t.diff);
    if Child(t, c).Leaf? then Child(t, !c)
    else Make(t.id, t.diff, c, Drop(Child(t, c), key), Child(t, !c))
  }

  lemma {:induction false} DropIsGood(t: Trie, key: nat)
    requires Good(t) && t.Fork? && key in Map(t)
    ensures Good(Drop(t, key)) && Map(Drop(t, key)) == Map(t) - {key}
    ensures Drop(t, key).Fork? ==> Drop(t, key).diff <= t.diff
  {
    var c := Bit(key, t.diff);
    assert key in Map(Child(t, c)) && key !in Map(Child(t, !c));
    if Child(t, c).Leaf? {
      assert Map(Child(t, !c)) == Map(t) - {key};
    } else {
      DropIsGood(Child(t, c), key);
      ShrinkSide(t, c, Drop(Child(t, c), key), key);
    }
  }

  /** One side of a fork may lose a key. */
  lemma ShrinkSide(t: Trie, c: bool, u: Trie, key: nat)
    requires Good(t) && t.Fork? && Good(u) && (u.Fork? ==> u.diff < t.diff)
    requires Map(u) == Map(Child(t, c)) - {key} && key !in Map(Child(t, !c))
    ensures Good(Make(t.id, t.diff, c, u, Child(t, !c))) &&
      Map(Make(t.id, t.diff, c, u, Child(t, !c))) == Map(t) - {key}
  {
    var w := Make(t.id, t.diff, c, u, Child(t, !c));
    assert Map(w) == Map(t) - {key};
    forall k, k' | k in Map(w) && k' in Map(w) ensures Agree(k, k', t.diff) {
      assert k in Map(t) && k' in Map(t);
    }
  }

  // ---------------------------------------------------------------------------
  // Canonicity
  // ---------------------------------------------------------------------------

  /** The same trie but for the objects that hold its inner nodes. */
  predicate SameShape(t: Trie, t': Trie) {
    match t
    case Leaf(_, _) => t' == t
    case Fork(_, d, l, r) => t'.Fork? && t'.diff == d && SameShape(l, t'.left) && SameShape(r, t'.right)
  }

  /** Two keys on different sides differ first at the critical bit. */
  lemma SplitKeys(t: Trie) returns (a: nat, b: nat)
    requires Good(t) && t.Fork?
    ensures a in Map(t) && b in Map(t) && !Bit(a, t.diff) && Bit(b, t.diff)
  {
    a := SomeKey(t.left);
    b := SomeKey(t.right);
  }

  lemma SameDiff(t: Trie, t': Trie)
    requires Good(t) && Good(t') && t.Fork? && t'.Fork? && Map(t) == Map(t')
    ensures t.diff == t'.diff
  {
    var a, b := SplitKeys(t);
    var a', b' := SplitKeys(t');
    assert Agree(a, b, t'.diff) && Agree(a', b', t.diff);
  }

  /** The map determines the trie, so the result does not depend on the order of
      the operations that built it. */
  lemma {:induction false} MapDeterminesTrie(t: Trie, t': Trie)
    requires Good(t) && Good(t') && Map(t) == Map(t')
    ensures SameShape(t, t')
    decreases t
  {
    if t.Leaf? && t'.Fork? {
      var a, b := SplitKeys(t');
      assert false;
    } else if t.Fork? && t'.Leaf? {
      var a, b := SplitKeys(t);
      assert false;
    } else if t.Leaf? {
      assert t.key in Map(t') && Map(t)[t.key] == t.value;
    } else {
      SameDiff(t, t');
      SideMaps(t);
      SideMaps(t');
      MapDeterminesTrie(t.left, t'.left);
      MapDeterminesTrie(t.right, t'.right);
    }
  }

  lemma SideMaps(t: Trie)
    requires Good(t) && t.Fork?
    ensures Map(t.left) == map k | k in Map(t) && !Bit(k, t.diff) :: Map(t)[k]
    ensures Map(t.right) == map k | k in Map(t) && Bit(k, t.diff) :: Map(t)[k]
  {
  }

  function Insert(t: Trie, n: nat, key: nat, value: nat): Trie {
    if Best(t, key).key == key then Update(t, key, value) else Add(t, n, key, value, FindCritBit(Best(t, key).key, key))
  }

  lemma InsertIsGood(t: Trie, n: nat, key: nat, value: nat)
    requires Good(t) && key != 0
    ensures Good(Insert(t, n, key, value)) && Map(Insert(t, n, key, value)) == Map(t)[key := value]
  {
    BestIsIt(t, key);
    if Best(t, key).key == key {
      UpdateIsGood(t, key, value);
    } else {
      AddIsGood(t, n, key, value, FindCritBit(Best(t, key).key, key));
    }
  }

  /** Removing a key that was just inserted restores the trie. */
  lemma RemoveUndoesInsert(t: Trie, n: nat, key: nat, value: nat)
    requires Good(t) && key != 0 && key !in Map(t)
    ensures Insert(t, n, key, value).Fork? && SameShape(t, Drop(Insert(t, n, key, value), key))
  {
    InsertIsGood(t, n, key, value);
    NewKeyForks(t, n, key, value);
    DropRestores(t, Insert(t, n, key, value), key, value);
  }

  lemma DropRestores(t: Trie, u: Trie, key: nat, value: nat)
    requires Good(t) && Good(u) && u.Fork? && key !in Map(t) && Map(u) == Map(t)[key := value]
    ensures SameShape(t, Drop(u, key))
  {
    DropIsGood(u, key);
    assert Map(t)[key := value] - {key} == Map(t);
    MapDeterminesTrie(t, Drop(u, key));
  }

  lemma NewKeyForks(t: Trie, n: nat, key: nat, value: nat)
    requires Good(t) && key !in Map(t)
    ensures Insert(t, n, key, value).Fork?
  {
    BestIsIt(t, key);
  }
}
