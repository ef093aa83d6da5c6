/** Where a key can be in a B-tree, and which of several equal ones a search finds. */
module BTreeSearch {
  import opened BTree
  import opened Wrappers

  lemma {:induction false} RestItems(items: seq<Item>, kids: seq<Tree>, i: nat)
    requires |items| == |kids| && i < |items|
    ensures items[i] in Rest(items, kids)
  {
    if i > 0 { RestItems(items[1..], kids[1..], i - 1); }
  }

  predicate HasKey(s: seq<Item>, key: nat) {
    exists i :: 0 <= i < |s| && s[i].key == key
  }

  /** The first `i` items are behind: in an inner node they are smaller. */
  predicate Passed(t: Tree, d: nat, i: nat, key: nat) {
    && (forall j :: 0 <= j < i && j < |t.items| ==> t.items[j].key != key && (d > 0 ==> t.items[j].key < key))
    && (i > |t.items| ==> d == 0)
  }

  lemma ItemIsIn(t: Tree, d: nat, i: nat)
    requires Level(t, d) && i < |t.items|
    ensures t.items[i] in Inorder(t)
  {
    if d > 0 { RestItems(t.items, t.kids[1..], i); }
  }

  /** A key between two items can only be in the child between them. */
  lemma OnlyBelow(t: Tree, d: nat, i: nat, key: nat)
    requires Level(t, d) && d > 0 && i <= |t.items| && Passed(t, d, i, key) && Sorted(Inorder(t))
    requires i < |t.items| ==> t.items[i].key > key
    ensures Sorted(Inorder(t.kids[i])) && (HasKey(Inorder(t), key) <==> HasKey(Inorder(t.kids[i]), key))
    ensures forall e :: e in Inorder(t.kids[i]) ==> e in Inorder(t)
  {
    var k := Below(Top, t, i);
    BelowIsSame(Top, t, i);
    PlugInorder(k, t.kids[i]);
    WholeSorted(k, t.kids[i]);
    if i > 0 { BeforeLast(k); }
    if i < |t.items| { AfterFirst(k); }
    Inside(Before(k), Inorder(t.kids[i]), After(k), key);
  }

  lemma Inside(x: seq<Item>, y: seq<Item>, z: seq<Item>, key: nat)
    requires Sorted(x) && Sorted(z) && (x != [] ==> x[|x| - 1].key < key) && (z != [] ==> z[0].key > key)
    ensures HasKey(x + y + z, key) <==> HasKey(y, key)
  {
    var s := x + y + z;
    forall i | 0 <= i < |s| && s[i].key == key ensures HasKey(y, key) {
      assert y[i - |x|].key == key;
    }
    forall i | 0 <= i < |y| && y[i].key == key ensures HasKey(s, key) {
      assert s[|x| + i] == y[i];
    }
  }

  // ---------------------------------------------------------------------------
  // The first of equal keys
  // ---------------------------------------------------------------------------

  /** The first item with the key, a node's own items before those below it and these
      from left to right. No keys are compared but for equality. */
  function Highest(t: Tree, key: nat): Option<Item>
    decreases t
  {
    if FirstOf(t.items, key).Some? then FirstOf(t.items, key) else HighestOf(t.kids, key)
  }

  function HighestOf(ts: seq<Tree>, key: nat): Option<Item>
    decreases ts
  {
    if ts == [] then None
    else if Highest(ts[0], key).Some? then Highest(ts[0], key)
    else HighestOf(ts[1..], key)
  }

  function FirstOf(s: seq<Item>, key: nat): Option<Item> {
    if s == [] then None else if s[0].key == key then Some(s[0]) else FirstOf(s[1..], key)
  }

  lemma {:induction false} FirstAt(s: seq<Item>, key: nat, i: nat)
    requires i <= |s| && (forall j :: 0 <= j < i ==> s[j].key != key) && (i < |s| ==> s[i].key == key)
    ensures FirstOf(s, key) == if i < |s| then Some(s[i]) else None
  {
    if i > 0 { FirstAt(s[1..], key, i - 1); }
  }

  lemma {:induction false} HighestAt(ts: seq<Tree>, key: nat, i: nat)
    requires i < |ts| && forall j :: 0 <= j < |ts| && j != i ==> Highest(ts[j], key).None?
    ensures HighestOf(ts, key) == Highest(ts[i], key)
  {
    if i > 0 {
      HighestAt(ts[1..], key, i - 1);
    } else if Highest(ts[0], key).None? {
      NoneHighest(ts[1..], key);
    }
  }

  lemma {:induction false} NoneHighest(ts: seq<Tree>, key: nat)
    requires forall j :: 0 <= j < |ts| ==> Highest(ts[j], key).None?
    ensures HighestOf(ts, key).None?
  {
    if ts != [] { NoneHighest(ts[1..], key); }
  }

  lemma KidInside(t: Tree, d: nat, j: nat, key: nat)
    requires Level(t, d) && d > 0 && j < |t.kids| && HasKey(Inorder(t.kids[j]), key)
    ensures HasKey(Inorder(t), key)
  {
    var k := Below(Top, t, j);
    BelowIsSame(Top, t, j);
    PlugInorder(k, t.kids[j]);
    var i :| 0 <= i < |Inorder(t.kids[j])| && Inorder(t.kids[j])[i].key == key;
    assert Inorder(t)[|Before(k)| + i].key == key;
  }

  /** What is found is in the tree. */
  lemma {:induction false} HighestIsIn(t: Tree, d: nat, key: nat)
    requires Level(t, d) && Highest(t, key).Some?
    ensures HasKey(Inorder(t), key)
    decreases d
  {
    if i :| 0 <= i < |t.items| && t.items[i].key == key {
      ItemIsIn(t, d, i);
    } else {
      FirstAt(t.items, key, |t.items|);
      if forall j :: 0 <= j < |t.kids| ==> Highest(t.kids[j], key).None? {
        NoneHighest(t.kids, key);
      } else {
        var j :| 0 <= j < |t.kids| && Highest(t.kids[j], key).Some?;
        HighestIsIn(t.kids[j], d - 1, key);
        KidInside(t, d, j, key);
      }
    }
  }

  lemma {:induction false} FrontHas(a: seq<Item>, ka: seq<Tree>, j: nat, e: Item)
    requires |a| == |ka| && j < |ka| && e in Inorder(ka[j])
    ensures e in Front(a, ka)
  {
    if j > 0 { FrontHas(a[1..], ka[1..], j - 1, e); }
  }

  lemma {:induction false} RestHas(b: seq<Item>, kb: seq<Tree>, j: nat, e: Item)
    requires |b| == |kb| && j < |kb| && e in Inorder(kb[j])
    ensures e in Rest(b, kb)
  {
    if j > 0 { RestHas(b[1..], kb[1..], j - 1, e); }
  }

  lemma AllLess(s: seq<Item>, key: nat)
    requires Sorted(s) && (s != [] ==> s[|s| - 1].key < key)
    ensures forall e :: e in s ==> e.key < key
  {
  }

  lemma AllGreater(s: seq<Item>, key: nat)
    requires Sorted(s) && (s != [] ==> s[0].key > key)
    ensures forall e :: e in s ==> e.key > key
  {
  }

  lemma SidesSorted(k: Ctx, t: Tree)
    requires k.In? && k.up.Top? && Matched(k) && Sorted(Inorder(Plug(k, t)))
    ensures Sorted(Front(k.a, k.ka)) && Sorted(Rest(k.b, k.kb))
    ensures k.a == [] <==> Front(k.a, k.ka) == []
    ensures k.b == [] <==> Rest(k.b, k.kb) == []
    ensures k.a != [] ==> Front(k.a, k.ka)[|Front(k.a, k.ka)| - 1] == k.a[|k.a| - 1]
    ensures k.b != [] ==> Rest(k.b, k.kb)[0] == k.b[0]
  {
    WholeSorted(k, t);
    assert Before(k) == Front(k.a, k.ka) && After(k) == Rest(k.b, k.kb);
    if k.a != [] { BeforeLast(k); }
    if k.b != [] { AfterFirst(k); }
  }

  /** What lies beside child `i`. */
  lemma Sides(t: Tree, d: nat, i: nat, key: nat)
    requires Level(t, d) && d > 0 && i <= |t.items| && Passed(t, d, i, key) && Sorted(Inorder(t))
    requires i < |t.items| ==> t.items[i].key > key
    ensures forall e :: e in Front(t.items[..i], t.kids[..i]) ==> e.key < key
    ensures forall e :: e in Rest(t.items[i..], t.kids[i + 1..]) ==> e.key > key
  {
    var k := Below(Top, t, i);
    BelowIsSame(Top, t, i);
    SidesSorted(k, t.kids[i]);
    AllLess(Front(k.a, k.ka), key);
    AllGreater(Rest(k.b, k.kb), key);
  }

  /** A key between two items is in no child but the one between them. */
  lemma OthersLack(t: Tree, d: nat, i: nat, key: nat, j: nat)
    requires Level(t, d) && d > 0 && i <= |t.items| && Passed(t, d, i, key) && Sorted(Inorder(t))
    requires (i < |t.items| ==> t.items[i].key > key) && j < |t.kids| && j != i
    ensures !HasKey(Inorder(t.kids[j]), key)
  {
    Sides(t, d, i, key);
    var a, ka, b, kb := t.items[..i], t.kids[..i], t.items[i..], t.kids[i + 1..];
    forall e | e in Inorder(t.kids[j]) ensures e.key != key {
      if j < i {
        assert ka[j] == t.kids[j];
        FrontHas(a, ka, j, e);
      } else {
        assert kb[j - i - 1] == t.kids[j];
        RestHas(b, kb, j - i - 1, e);
      }
    }
  }

  lemma ItemsLack(t: Tree, d: nat, i: nat, key: nat)
    requires Level(t, d) && d > 0 && i <= |t.items| && Passed(t, d, i, key) && Sorted(Inorder(t))
    requires i < |t.items| ==> t.items[i].key > key
    ensures forall j :: 0 <= j < |t.items| ==> t.items[j].key != key
  {
    Sides(t, d, i, key);
    forall j | i <= j < |t.items| ensures t.items[j].key != key {
      RestItems(t.items[i..], t.kids[i + 1..], j - i);
      assert t.items[i..][j - i] == t.items[j];
    }
  }

  lemma FoundHere(t: Tree, d: nat, i: nat, key: nat)
    requires i < |t.items| && Passed(t, d, i, key) && t.items[i].key == key
    ensures Highest(t, key) == Some(t.items[i])
  {
    FirstAt(t.items, key, i);
  }

  lemma NotHere(t: Tree, d: nat, i: nat, key: nat)
    requires Level(t, d) && d == 0 && i > |t.items| && Passed(t, d, i, key)
    ensures Highest(t, key) == None
  {
    FirstAt(t.items, key, |t.items|);
  }

  lemma HighestBelow(t: Tree, d: nat, i: nat, key: nat)
    requires Level(t, d) && d > 0 && i <= |t.items| && Passed(t, d, i, key) && Sorted(Inorder(t))
    requires i < |t.items| ==> t.items[i].key > key
    ensures Highest(t, key) == Highest(t.kids[i], key)
  {
    ItemsLack(t, d, i, key);
    FirstAt(t.items, key, |t.items|);
    forall j | 0 <= j < |t.kids| && j != i ensures Highest(t.kids[j], key).None? {
      if Highest(t.kids[j], key).Some? {
        HighestIsIn(t.kids[j], d - 1, key);
        OthersLack(t, d, i, key, j);
      }
    }
    HighestAt(t.kids, key, i);
  }
}
