/** The B-tree map over the object pool, updated in place. */
module BTreeMap {
  import opened BTree
  import opened BTreeHeap
  import opened BTreeSearch
  import opened Wrappers

  const OID_NULL: nat := 0

  /** Key zero marks an empty place, so no item has it. */
  predicate NonZero(s: seq<Item>) {
    forall i :: 0 <= i < |s| ==> s[i].key != 0
  }

  lemma NonZeroParts(x: seq<Item>, y: seq<Item>)
    requires NonZero(x + y)
    ensures NonZero(x) && NonZero(y)
  {
    assert forall i :: 0 <= i < |x| ==> x[i] == (x + y)[i];
    assert forall i :: 0 <= i < |y| ==> y[i] == (x + y)[|x| + i];
  }

  /** The items beside a hole have keys. */
  lemma SideNonZero(k: Ctx, t: Tree)
    requires Matched(k) && k.In? && NonZero(Inorder(Plug(k, t)))
    ensures NonZero(k.b)
  {
    PlugInorder(k, t);
    NonZeroParts(Before(k) + Inorder(t), After(k));
    NonZeroParts(Rest(k.b, k.kb), After(k.up));
    forall i | 0 <= i < |k.b| ensures k.b[i].key != 0 {
      RestItems(k.b, k.kb, i);
    }
  }

  /** What every step down makes smaller, although a full root adds a level. */
  function Rank(t: Tree, d: nat): nat {
    2 * d + if |t.items| == ORDER - 1 then 1 else 0
  }

  class Map {
    var root: nat
    var nodes: Heap
    var brk: nat               // objects from here on are unused
    ghost var tree: Option<Tree>
    ghost var depth: nat

    ghost predicate Valid()
      reads this
    {
      && brk > 0 && (forall i :: i in nodes ==> i < brk)
      && match tree
         case None => root == 0
         case Some(t) => At(nodes, root, Top, t) && Shaped(t, depth) && Sorted(Inorder(t)) && NonZero(Inorder(t))
    }

    ghost function Items(): seq<Item>
      reads this
    {
      if tree.None? then [] else Inorder(tree.value)
    }

    constructor ()
      ensures Valid() && Items() == []
    {
      root, nodes, brk, tree, depth := 0, map[], 1, None, 0;
    }

    /** On the way to the place of a key, at a node of depth `d`. */
    ghost predicate Searching(k: Ctx, t: Tree, d: nat, key: nat)
      reads this
    {
      && brk > 0 && (forall i :: i in nodes ==> i < brk)
      && At(nodes, root, k, t) && Takes(k, d) && Standing(k, t, d)
      && Sorted(Inorder(Plug(k, t))) && NonZero(Inorder(Plug(k, t))) && Searched(k, key)
    }

    /** Splits a full node below one with room. */
    method SplitNode(n: nat, parent: nat, p: nat, ghost k: Ctx, ghost t: Tree, ghost d: nat) returns (m: Item,
        right: nat)
      requires At(nodes, root, k, t) && k.In? && Level(t, d) && |t.items| == ORDER - 1 && NonZero(k.b)
      requires |k.a| == |k.ka| && |k.b| == |k.kb| && |k.a| + |k.b| < ORDER - 1
      requires n == t.id && parent == k.id && p == |k.a| && brk > 0 && forall i :: i in nodes ==> i < brk
      modifies this`nodes, this`brk
      ensures brk > 0 && (forall i :: i in nodes ==> i < brk) && m == t.items[MIN]
      ensures At(nodes, root, LeftCtx(k, t, right), LeftHalf(t))
    {
      ghost var h := nodes;
      IdsBelow(nodes, t, brk);
      CtxBelow(nodes, root, t.id, k, brk);
      m, right := Halve(n, t, d);
      var up := InsertNodeAt(nodes[parent], p, m, n, right, k.a, IdsOf(k.ka), k.b, IdsOf(k.kb));
      nodes := nodes[parent := up];
      SplitBelow(h, nodes, root, k, t, right, d);
    }

    /** Moves the right half of a full node to a new one. */
    method Halve(n: nat, ghost t: Tree, ghost d: nat) returns (m: Item, right: nat)
      requires TreeAt(nodes, t) && Level(t, d) && |t.items| == ORDER - 1 && n == t.id && brk > 0 &&
        forall i :: i in nodes ==> i < brk
      modifies this`nodes, this`brk
      ensures m == t.items[MIN] && right == old(brk) && brk == old(brk) + 1 && right != n
      ensures nodes.Keys == old(nodes.Keys) + {right} &&
        (forall i :: i in old(nodes) && i != n ==> nodes[i] == old(nodes[i]))
      ensures nodes[n] == CellOf(LeftHalf(t).items, IdsOf(LeftHalf(t).kids))
      ensures nodes[right] == CellOf(RightHalf(t, right).items, IdsOf(RightHalf(t, right).kids))
    {
      right := brk;
      HalvesIds(t, right);
      var l, r;
      m, l, r := SplitCell(nodes[n], t.items, IdsOf(t.kids));
      nodes := nodes[n := l][right := r];
      brk := brk + 1;
    }

    /** Splits a full node below one with room, and goes on in the right half. */
    method SplitUnderParent(n: nat, parent: nat, key: nat, p: nat, ghost k: Ctx, ghost t: Tree, ghost d: nat)
      returns (n': nat, ghost k': Ctx, ghost t': Tree)
      requires Searching(k, t, d, key) && |t.items| == ORDER - 1 && n == t.id && k.In? && parent == k.id && p == |k.a|
      modifies this`nodes, this`brk
      ensures Found(k', t', d, key) && |t'.items| < ORDER - 1 && n' == t'.id
      ensures Inorder(Plug(k', t')) == Inorder(Plug(k, t))
    {
      CtxMatched(k, d);
      SideNonZero(k, t);
      var m, right := SplitNode(n, parent, p, k, t, d);
      HalfFacts(k, t, right, d, key);
      if key > m.key {
        ToRight(nodes, root, k, t, right);
        n', k', t' := right, RightCtx(k, t), RightHalf(t, right);
      } else {
        n', k', t' := n, LeftCtx(k, t, right), LeftHalf(t);
      }
    }

    /** Splits a full root under a new one. */
    method GrowRoot(n: nat, ghost t: Tree, ghost d: nat, ghost key: nat) returns (up: nat, ghost t': Tree)
      requires Searching(Top, t, d, key) && |t.items| == ORDER - 1 && n == t.id == root
      modifies this`root, this`nodes, this`brk
      ensures Found(Top, t', d + 1, key) && |t'.items| == 1 && up == t'.id && Inorder(t') == Inorder(t)
      ensures forall i :: 0 <= i < |t'.kids| ==> |t'.kids[i].items| < ORDER - 1
    {
      ghost var h := nodes;
      IdsBelow(nodes, t, brk);
      var m, right := Halve(n, t, d);
      up := brk;
      brk := brk + 1;
      nodes := nodes[up := ZERO.(n := 1, items := ZERO.items[0 := m], slots := ZERO.slots[0 := n][1 := right])];
      assert nodes[up] == CellOf([m], [n, right]);
      root := up;
      t' := Grown(t, right, up);
      SplitRoot(h, nodes, t, right, up, d);
      GrownStands(t, right, up, d);
    }

    /** `Searching`, but the node above need not have room any more. */
    ghost predicate Found(k: Ctx, t: Tree, d: nat, key: nat)
      reads this
    {
      && brk > 0 && (forall i :: i in nodes ==> i < brk)
      && At(nodes, root, k, t) && CtxOk(k, d) && Standing(k, t, d) && Searched(k, key)
    }

    /** Splits the node if it is full; the node to go on with has room. */
    method MakeRoom(node: nat, parent: nat, key: nat, p: nat, ghost k: Ctx, ghost t: Tree, ghost d: nat)
      returns (n: nat, ghost kn: Ctx, ghost tn: Tree, ghost dn: nat)
      requires Searching(k, t, d, key) && node == t.id
      requires if k.Top? then parent == 0 else parent == k.id && p == |k.a|
      modifies this`root, this`nodes, this`brk
      ensures Found(kn, tn, dn, key) && n == tn.id && |tn.items| < ORDER - 1
      ensures Inorder(Plug(kn, tn)) == Inorder(Plug(k, t))
      ensures dn > 0 ==> forall i :: 0 <= i < |tn.kids| ==> Rank(tn.kids[i], dn - 1) < Rank(t, d)
    {
      n, kn, tn, dn := node, k, t, d;
      CellReads(nodes, t);
      if nodes[n].n == ORDER - 1 {
        if parent != 0 {
          n, kn, tn := SplitUnderParent(n, parent, key, p, k, t, d);
        } else {
          n, tn := GrowRoot(n, t, d, key);
          dn := d + 1;
        }
      }
    }

    /** The first place whose item is greater than the key, or the end. */
    method Position(n: nat, key: nat, ghost t: Tree) returns (i: nat)
      requires TreeAt(nodes, t) && n == t.id && |t.items| < ORDER - 1
      ensures i <= |t.items| && Low(t.items[..i], key) && (i < |t.items| ==> t.items[i].key > key)
    {
      CellReads(nodes, t);
      i := 0;
      while i < ORDER - 1
        invariant i <= |t.items| && Low(t.items[..i], key)
      {
        if nodes[n].n == i || nodes[n].items[i].key > key {
          return;
        }
        assert t.items[..i + 1] == t.items[..i] + [t.items[i]];
        i := i + 1;
      }
    }

    lemma GoDown(k: Ctx, t: Tree, d: nat, i: nat, key: nat)
      requires Found(k, t, d, key) && Sorted(Inorder(Plug(k, t))) && NonZero(Inorder(Plug(k, t)))
      requires d > 0 && i < |t.kids| && i <= |t.items| < ORDER - 1
      requires Low(t.items[..i], key) && (i < |t.items| ==> t.items[i].key > key)
      ensures Searching(Below(k, t, i), t.kids[i], d - 1, key) && Plug(Below(k, t, i), t.kids[i]) == Plug(k, t)
      ensures Below(k, t, i).In? && Below(k, t, i).id == t.id != 0 && |Below(k, t, i).a| == i
    {
      Down(nodes, root, k, t, i);
      SearchedBelow(k, t, d, i, key);
    }

    lemma LeafFound(k: Ctx, t: Tree, d: nat, i: nat, key: nat)
      requires Found(k, t, d, key) && Sorted(Inorder(Plug(k, t))) && Inorder(t) == t.items
      requires i <= |t.items| && (i < |t.items| ==> t.items[i].key > key)
      ensures High(t.items[i..], key)
    {
      WholeFacts(k, t, d);
      HighRest(t.items, i, key);
    }

    /** Finds the leaf and the place for a new key, splitting every full node on the
        way down so that there is room above each split. */
    method FindDest(node: nat, parent: nat, key: nat, p: nat, ghost k: Ctx, ghost t: Tree, ghost d: nat)
      returns (dest: nat, p': nat, ghost k': Ctx, ghost t': Tree)
      requires Searching(k, t, d, key) && node == t.id
      requires if k.Top? then parent == 0 else parent == k.id && p == |k.a|
      modifies this`root, this`nodes, this`brk
      ensures Found(k', t', 0, key) && dest == t'.id && |t'.items| < ORDER - 1 && p' <= |t'.items|
      ensures Low(t'.items[..p'], key) && High(t'.items[p'..], key)
      ensures Inorder(Plug(k', t')) == Inorder(Plug(k, t))
      decreases Rank(t, d)
    {
      var n;
      ghost var kn, tn, dn;
      n, kn, tn, dn := MakeRoom(node, parent, key, p, k, t, d);
      var i := Position(n, key, tn);
      SlotAt(nodes, tn, dn, i);
      if nodes[n].slots[i] == 0 {
        LeafFound(kn, tn, dn, i, key);
        dest, p', k', t' := n, i, kn, tn;
      } else {
        GoDown(kn, tn, dn, i, key);
        dest, p', k', t' := FindDest(nodes[n].slots[i], n, key, i, Below(kn, tn, i), tn.kids[i], dn - 1);
      }
    }

    /** The first node. */
    method InsertEmpty(item: Item)
      requires Valid() && tree.None? && item.key != 0
      modifies this
      ensures Valid() && Items() == [item]
    {
      root := brk;
      brk := brk + 1;
      nodes := nodes[root := ZERO.(items := ZERO.items[0 := item], n := 1)];
      tree, depth := Some(Tree(root, [item], [])), 0;
      OneLeaf(nodes, tree.value, item);
    }

    /** The writes to a leaf with room. */
    method WriteItem(dest: nat, p: nat, item: Item, ghost k: Ctx, ghost t: Tree)
      requires At(nodes, root, k, t) && CtxOk(k, 0) && t.kids == [] && NonZero(Inorder(Plug(k, t)))
      requires dest == t.id && p <= |t.items| < ORDER - 1
      modifies this`nodes
      ensures nodes.Keys == old(nodes.Keys) && At(nodes, root, Top, Plug(k, Inserted(t, p, item)))
    {
      ghost var h := nodes;
      RoomReads(nodes, k, t, p);
      var cell := InsertItemAt(nodes[dest], p, item, t.items[..p], t.items[p..]);
      nodes := nodes[dest := cell];
      WholeInserted(h, nodes, root, k, t, p, item);
    }

    /** Puts an item into its place in a leaf with room. */
    method InsertItem(dest: nat, p: nat, item: Item, ghost k: Ctx, ghost t: Tree)
      requires Found(k, t, 0, item.key) && dest == t.id && |t.items| < ORDER - 1 && p <= |t.items| && item.key != 0
      requires Low(t.items[..p], item.key) && High(t.items[p..], item.key)
      requires Sorted(Inorder(Plug(k, t))) && NonZero(Inorder(Plug(k, t)))
      modifies this`nodes, this`tree, this`depth
      ensures Valid() && |Before(k)| + p <= |Inorder(Plug(k, t))|
      ensures var i := |Before(k)| + p; Items() == Inorder(Plug(k, t))[..i] + ([item] + Inorder(Plug(k, t))[i..])
    {
      WriteItem(dest, p, item, k, t);
      depth := InsertedIsGood(k, t, p, item);
      tree := Some(Plug(k, Inserted(t, p, item)));
    }

    /** Adds an item, keeping the order; items with the same key stay. */
    method Insert(key: nat, value: nat) returns (ghost at: nat)
      requires Valid() && key != 0
      modifies this
      ensures Valid() && at <= |old(Items())|
      ensures Items() == old(Items())[..at] + ([Item(key, value)] + old(Items())[at..])
    {
      var item := Item(key, value);
      if root == 0 || nodes[root].n == 0 {
        InsertEmpty(item);
        at := 0;
      } else {
        var dest, p;
        ghost var k, t;
        dest, p, k, t := FindDest(root, OID_NULL, key, 0, Top, tree.value, depth);
        InsertItem(dest, p, item, k, t);
        at := |Before(k)| + p;
      }
    }

    /** Looks for a key in a node and the nodes below. */
    method GetInNode(node: nat, key: nat, ghost t: Tree, ghost d: nat) returns (value: nat)
      requires TreeAt(nodes, t) && Level(t, d) && Sorted(Inorder(t)) && node == t.id
      ensures if HasKey(Inorder(t), key) then Item(key, value) in Inorder(t) else value == OID_NULL
      ensures value == ValueOf(Highest(t, key))
      decreases d
    {
      CellReads(nodes, t);
      var i := 0;
      while i <= nodes[node].n
        invariant i <= |t.items| + 1 && Passed(t, d, i, key)
      {
        SlotAt(nodes, t, d, i);
        if i != nodes[node].n && nodes[node].items[i].key == key {
          ItemIsIn(t, d, i);
          FoundHere(t, d, i, key);
          return nodes[node].items[i].value;
        } else if (i == nodes[node].n || nodes[node].items[i].key > key) && nodes[node].slots[i] != 0 {
          OnlyBelow(t, d, i, key);
          HighestBelow(t, d, i, key);
          value := GetInNode(nodes[node].slots[i], key, t.kids[i], d - 1);
          return;
        }
        i := i + 1;
      }
      NotHere(t, d, i, key);
      value := OID_NULL;
    }

    /** The value stored under the key, or null; of several, that of the first item in the
        highest node. */
    method Get(key: nat) returns (value: nat)
      requires Valid()
      ensures if HasKey(Items(), key) then Item(key, value) in Items() else value == OID_NULL
      ensures value == if tree.Some? then ValueOf(Highest(tree.value, key)) else OID_NULL
    {
      if root == 0 {
        return OID_NULL;
      }
      value := GetInNode(root, key, tree.value, depth);
    }

    method LookupInNode(node: nat, key: nat, ghost t: Tree, ghost d: nat) returns (found: bool)
      requires TreeAt(nodes, t) && Level(t, d) && Sorted(Inorder(t)) && node == t.id
      ensures found <==> HasKey(Inorder(t), key)
      decreases d
    {
      CellReads(nodes, t);
      var i := 0;
      while i <= nodes[node].n
        invariant i <= |t.items| + 1 && Passed(t, d, i, key)
      {
        SlotAt(nodes, t, d, i);
        if i != nodes[node].n && nodes[node].items[i].key == key {
          ItemIsIn(t, d, i);
          return true;
        } else if (i == nodes[node].n || nodes[node].items[i].key > key) && nodes[node].slots[i] != 0 {
          OnlyBelow(t, d, i, key);
          found := LookupInNode(nodes[node].slots[i], key, t.kids[i], d - 1);
          return;
        }
        i := i + 1;
      }
      found := false;
    }

    method Lookup(key: nat) returns (found: bool)
      requires Valid()
      ensures found <==> HasKey(Items(), key)
    {
      if root == 0 {
        return false;
      }
      found := LookupInNode(root, key, tree.value, depth);
    }
  }

  // ---------------------------------------------------------------------------
  // What the methods use
  // ---------------------------------------------------------------------------

  function ValueOf(e: Option<Item>): nat {
    if e.Some? then e.value.value else OID_NULL
  }

  lemma LeafNonZero(k: Ctx, t: Tree)
    requires Matched(k) && t.kids == [] && NonZero(Inorder(Plug(k, t)))
    ensures NonZero(t.items)
  {
    PlugInorder(k, t);
    NonZeroParts(Before(k) + t.items, After(k));
    NonZeroParts(Before(k), t.items);
  }

  lemma OneLeaf(h: Heap, t: Tree, e: Item)
    requires t.items == [e] && t.kids == [] && t.id != 0 && t.id in h && e.key != 0
    requires h[t.id] == ZERO.(items := ZERO.items[0 := e], n := 1)
    ensures At(h, t.id, Top, t) && Shaped(t, 0) && Inorder(t) == [e]
  {
    assert h[t.id].items == Pad(t.items) && h[t.id].slots == PadIds(IdsOf(t.kids));
    assert CtxAt(h, t.id, t.id, Top);
    assert TreeAt(h, t);
    assert Distinct(t);
  }

  lemma RoomReads(h: Heap, k: Ctx, t: Tree, p: nat)
    requires TreeAt(h, t) && CtxOk(k, 0) && t.kids == [] && NonZero(Inorder(Plug(k, t))) && p <= |t.items|
    ensures NonZero(t.items[p..]) && t.id in h && h[t.id].n == |t.items| &&
      h[t.id].items == Pad(t.items[..p] + t.items[p..])
  {
    CtxMatched(k, 0);
    LeafNonZero(k, t);
    PieceNonZero(t.items, p);
    assert t.items == t.items[..p] + t.items[p..];
  }

  lemma WholeInserted(h: Heap, h': Heap, root: nat, k: Ctx, t: Tree, p: nat, e: Item)
    requires At(h, root, k, t) && t.kids == [] && p <= |t.items| < ORDER - 1
    requires h' == h[t.id := Cell(|t.items| + 1, Pad(t.items[..p] + ([e] + t.items[p..])), h[t.id].slots)]
    ensures At(h', root, Top, Plug(k, Inserted(t, p, e)))
  {
    LeafInserted(h, h', root, k, t, p, e);
    Out(h', root, k, Inserted(t, p, e));
  }

  lemma InsertedIsGood(k: Ctx, t: Tree, p: nat, e: Item) returns (d: nat)
    requires CtxOk(k, 0) && Standing(k, t, 0) && |t.items| < ORDER - 1 && p <= |t.items| && Searched(k, e.key) &&
      e.key != 0
    requires Low(t.items[..p], e.key) && High(t.items[p..], e.key)
    requires Sorted(Inorder(Plug(k, t))) && NonZero(Inorder(Plug(k, t)))
    ensures var s, s', i := Inorder(Plug(k, t)), Inorder(Plug(k, Inserted(t, p, e))), |Before(k)| + p;
      i <= |s| && s' == s[..i] + ([e] + s[i..]) && Sorted(s') && NonZero(s')
    ensures Shaped(Plug(k, Inserted(t, p, e)), d)
  {
    CtxMatched(k, 0);
    InsertedInOrder(k, t, p, e);
    NonZeroMore(Inorder(Plug(k, t)), |Before(k)| + p, e);
    d := PlugIsShaped(k, Inserted(t, p, e), 0);
  }

  lemma PieceNonZero(s: seq<Item>, p: nat)
    requires NonZero(s) && p <= |s|
    ensures NonZero(s[p..])
  {
  }

  lemma NonZeroMore(s: seq<Item>, p: nat, e: Item)
    requires NonZero(s) && p <= |s| && e.key != 0
    ensures NonZero(s[..p] + ([e] + s[p..]))
  {
  }

  /** The half of a split node in which the search for a key goes on. */
  lemma HalfFacts(k: Ctx, t: Tree, id: nat, d: nat, key: nat)
    requires k.In? && Takes(k, d) && Standing(k, t, d) && |t.items| == ORDER - 1
    requires Searched(k, key) && Sorted(Inorder(Plug(k, t)))
    ensures CtxOk(LeftCtx(k, t, id), d) && Standing(LeftCtx(k, t, id), LeftHalf(t), d)
    ensures CtxOk(RightCtx(k, t), d) && Standing(RightCtx(k, t), RightHalf(t, id), d)
    ensures Inorder(Plug(LeftCtx(k, t, id), LeftHalf(t))) == Inorder(Plug(k, t))
    ensures Inorder(Plug(RightCtx(k, t), RightHalf(t, id))) == Inorder(Plug(k, t))
    ensures if key > t.items[MIN].key then Searched(RightCtx(k, t), key) else Searched(LeftCtx(k, t, id), key)
  {
    SplitTakes(k, t, id, d);
    SplitInorder(k, t, id, d);
    if key > t.items[MIN].key { RightSearched(k, t, id, d, key); } else { LeftSearched(k, t, id, d, key); }
  }

  lemma HalvesIds(t: Tree, id: nat)
    requires |t.items| == ORDER - 1 && (|t.kids| == 0 || |t.kids| == ORDER)
    ensures IdsOf(LeftHalf(t).kids) == if IdsOf(t.kids) == [] then [] else IdsOf(t.kids)[..MIN + 1]
    ensures IdsOf(RightHalf(t, id).kids) == if IdsOf(t.kids) == [] then [] else IdsOf(t.kids)[MIN + 1..]
  {
  }

  lemma CellReads(h: Heap, t: Tree)
    requires TreeAt(h, t)
    ensures t.id in h && t.id != 0 && h[t.id].n == |t.items| && |h[t.id].items| == ORDER - 1 && |h[t.id].slots| == ORDER
    ensures forall i :: 0 <= i < |t.items| ==> h[t.id].items[i] == t.items[i]
  {
  }

  lemma WholeFacts(k: Ctx, t: Tree, d: nat)
    requires CtxOk(k, d) && Sorted(Inorder(Plug(k, t)))
    ensures Matched(k) && Sorted(Inorder(t))
  {
    CtxMatched(k, d);
    WholeSorted(k, t);
  }

  /** Leaves have no children in their slots, inner nodes have them all. */
  lemma SlotAt(h: Heap, t: Tree, d: nat, i: nat)
    requires TreeAt(h, t) && Level(t, d) && i <= |t.items| <= ORDER - 1
    ensures t.id in h && |h[t.id].slots| == ORDER
    ensures if d == 0 then t.kids == [] && Inorder(t) == t.items && h[t.id].slots[i] == 0
            else i < |t.kids| && h[t.id].slots[i] == t.kids[i].id != 0
  {
    if d > 0 { assert TreeAt(h, t.kids[i]); }
  }

  lemma HighRest(s: seq<Item>, i: nat, key: nat)
    requires Sorted(s) && i <= |s| && (i < |s| ==> s[i].key > key)
    ensures High(s[i..], key)
  {
  }

  lemma SearchedBelow(k: Ctx, t: Tree, d: nat, i: nat, key: nat)
    requires CtxOk(k, d) && Standing(k, t, d) && Searched(k, key) && Sorted(Inorder(Plug(k, t)))
    requires d > 0 && i < |t.kids| && i <= |t.items| < ORDER - 1
    requires Low(t.items[..i], key) && (i < |t.items| ==> t.items[i].key > key)
    ensures Takes(Below(k, t, i), d - 1) && Standing(Below(k, t, i), t.kids[i], d - 1)
    ensures Plug(Below(k, t, i), t.kids[i]) == Plug(k, t) && Searched(Below(k, t, i), key)
  {
    BelowTakes(k, t, d, i);
    BelowIsSame(k, t, i);
    CtxMatched(Below(k, t, i), d - 1);
    SearchedOn(Below(k, t, i), t.kids[i], key);
  }
}
