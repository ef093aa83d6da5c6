/** The red-black tree map over the object pool, updated in place. */
module RbMap {
  import opened RbTree
  import opened RbHeap
  import opened RbRepair
  import opened Wrappers
  import opened Powers

  const OID_NULL: nat := 0

  /** Entries before the hole are smaller than `key`, entries behind are not: the
      hole is where a search for `key` to insert ends. */
  ghost predicate SearchedTo(k: Ctx, key: nat) {
    && (forall i :: 0 <= i < |Before(k)| ==> Before(k)[i].key < key)
    && (forall i :: 0 <= i < |After(k)| ==> After(k)[i].key >= key)
  }

  lemma SearchOn(k: Ctx, t: Tree, key: nat)
    requires SearchedTo(k, key) && t.Node? && Sorted(Inorder(Plug(k, t)))
    ensures SearchedTo(In(key > t.e.key, t.e, t.color, Child(t, !(key > t.e.key)), k), key)
  {
    PlugInorder(k, t);
    SortedAround(Before(k), Inorder(t.left), t.e, Inorder(t.right), After(k));
  }

  lemma SortedAround(a: seq<Entry>, l: seq<Entry>, e: Entry, r: seq<Entry>, b: seq<Entry>)
    requires Sorted(a + (l + [e] + r) + b)
    ensures forall i :: 0 <= i < |l| ==> l[i].key <= e.key
    ensures forall i :: 0 <= i < |r| ==> r[i].key >= e.key
  {
    var s := a + (l + [e] + r) + b;
    var n := |a| + |l|;
    assert s[n] == e;
    forall i | 0 <= i < |l| ensures l[i].key <= e.key { assert s[|a| + i] == l[i]; }
    forall i | 0 <= i < |r| ensures r[i].key >= e.key { assert s[n + 1 + i] == r[i]; }
  }

  // ---------------------------------------------------------------------------
  // Balance while inserting
  // ---------------------------------------------------------------------------

  /** Balanced but for a red parent of the red node in the hole. */
  ghost predicate Inserting(k: Ctx, t: Tree) {
    && t.Node? && t.color.Red? && Even(t) && EvenCtx(k, Blacks(t))
    && NoRedRed(t) && NoRedRedCtx(k, false) && BlackTop(k)
  }

  lemma RedLeafInserts(k: Ctx, t: Tree, e: Entry)
    requires t.Leaf? && RedBlack(Plug(k, t))
    ensures Inserting(k, Node(e, Red, Leaf, Leaf))
  {
    PlugEven(k, t);
    PlugNoRedRed(k, t);
    BlackTopOf(k, t);
  }

  /** The tree after the red uncle case, in the hole of the grandparent. */
  function Recolored(k: Ctx, t: Tree): Tree
    requires k.In? && k.up.In? && k.up.sib.Node?
  {
    Make(k.up.e, Red, k.up.c, Make(k.e, Black, k.c, t, k.sib), k.up.sib.(color := Black))
  }

  lemma RecoloredIsInserting(k: Ctx, t: Tree)
    requires Inserting(k, t) && k.In? && k.color.Red? && k.up.In? && IsRed(k.up.sib)
    ensures Inserting(k.up.up, Recolored(k, t)) && SameEntries(Plug(k, t), Plug(k.up.up, Recolored(k, t)))
  {
    assert NoRedRedCtx(k.up, true) && BlackTop(k.up);
    RecoloredEven(k, t);
    BlackHole(k.up.up, k.up.color.Red?);
    MakeFacts(k.e, Black, k.c, t, k.sib);
    MakeFacts(k.up.e, Red, k.up.c, Make(k.e, Black, k.c, t, k.sib), k.up.sib.(color := Black));
    RecoloredEntries(k, t);
  }

  lemma RecoloredEven(k: Ctx, t: Tree)
    requires k.In? && k.color.Red? && k.up.In? && k.up.color.Black? && IsRed(k.up.sib) && Even(t) &&
      EvenCtx(k, Blacks(t))
    ensures Even(Recolored(k, t)) && EvenCtx(k.up.up, Blacks(Recolored(k, t)))
  {
    OuterEven(k, t);
    OuterEven(k.up, Outer(k, t));
    MakeFacts(k.e, Red, k.c, t, k.sib);
    MakeFacts(k.e, Black, k.c, t, k.sib);
    MakeFacts(k.up.e, Black, k.up.c, Outer(k, t), k.up.sib);
    MakeFacts(k.up.e, Red, k.up.c, Make(k.e, Black, k.c, t, k.sib), k.up.sib.(color := Black));
  }

  lemma RecoloredEntries(k: Ctx, t: Tree)
    requires k.In? && k.up.In? && k.up.sib.Node?
    ensures SameEntries(Plug(k, t), Plug(k.up.up, Recolored(k, t)))
  {
    PlugInorder(k.up.up, Recolored(k, t));
    PlugInorder(k.up.up, Outer(k.up, Outer(k, t)));
    MakeFacts(k.e, k.color, k.c, t, k.sib);
    MakeFacts(k.e, Black, k.c, t, k.sib);
    MakeFacts(k.up.e, k.up.color, k.up.c, Outer(k, t), k.up.sib);
    MakeFacts(k.up.e, Red, k.up.c, Make(k.e, Black, k.c, t, k.sib), k.up.sib.(color := Black));
  }

  /** The same entries in the same order. */
  ghost predicate SameEntries(t: Tree, t': Tree) {
    Inorder(t) == Inorder(t')
  }

  /** The tree after the rotation towards the uncle, in the hole of the
      grandparent: `t` on the outer side `k.c` of its parent. */
  function Straightened(k: Ctx, t: Tree): Tree
    requires k.In? && k.up.In?
  {
    Make(k.e, Black, k.c, t, Make(k.up.e, Red, k.c, k.sib, k.up.sib))
  }

  lemma StraightenedIsBalanced(k: Ctx, t: Tree)
    requires Inserting(k, t) && k.In? && k.color.Red? && k.up.In? && !IsRed(k.up.sib) && k.up.c == k.c
    ensures Even(Straightened(k, t)) && EvenCtx(k.up.up, Blacks(Straightened(k, t)))
    ensures NoRedRed(Straightened(k, t)) && NoRedRedCtx(k.up.up, false) && BlackTop(k.up.up)
    ensures SameEntries(Plug(k, t), Plug(k.up.up, Straightened(k, t)))
  {
    var g := Make(k.up.e, Red, k.c, k.sib, k.up.sib);
    assert NoRedRedCtx(k.up, true) && BlackTop(k.up);
    BlackHole(k.up.up, k.up.color.Red?);
    OuterEven(k, t);
    OuterEven(k.up, Outer(k, t));
    MakeFacts(k.e, Red, k.c, t, k.sib);
    MakeFacts(k.up.e, Black, k.c, Outer(k, t), k.up.sib);
    MakeFacts(k.up.e, Red, k.c, k.sib, k.up.sib);
    MakeFacts(k.e, Black, k.c, t, g);
    StraightenedEntries(k, t);
  }

  lemma StraightenedEntries(k: Ctx, t: Tree)
    requires k.In? && k.up.In? && k.up.c == k.c
    ensures SameEntries(Plug(k, t), Plug(k.up.up, Straightened(k, t)))
  {
    PlugInorder(k.up.up, Straightened(k, t));
    PlugInorder(k.up.up, Outer(k.up, Outer(k, t)));
    MakeFacts(k.e, k.color, k.c, t, k.sib);
    MakeFacts(k.up.e, k.up.color, k.c, Outer(k, t), k.up.sib);
    MakeFacts(k.up.e, Red, k.c, k.sib, k.up.sib);
    MakeFacts(k.e, Black, k.c, t, Make(k.up.e, Red, k.c, k.sib, k.up.sib));
    Regroup(Inorder(k.up.sib), k.up.e, Inorder(k.sib), k.e, Inorder(t));
    Regroup(Inorder(t), k.e, Inorder(k.sib), k.up.e, Inorder(k.up.sib));
  }

  /** The inner case after its rotation: parent and node have changed places. */
  lemma InnerIsInserting(k: Ctx, t: Tree)
    requires Inserting(k, t) && k.In? && k.color.Red? && k.up.In?
    ensures Inserting(In(!k.c, t.e, Red, Child(t, k.c), k.up), Make(k.e, Red, !k.c, k.sib, Child(t, !k.c)))
    ensures SameEntries(Plug(k, t),
              Plug(k.up, Make(t.e, Red, !k.c, Make(k.e, Red, !k.c, k.sib, Child(t, !k.c)), Child(t, k.c))))
  {
    var p, k1 := Make(k.e, Red, !k.c, k.sib, Child(t, !k.c)), In(!k.c, t.e, Red, Child(t, k.c), k.up);
    Side(t, k.c);
    MakeFacts(t.e, Red, k.c, Child(t, k.c), Child(t, !k.c));
    MakeFacts(k.e, Red, k.c, t, k.sib);
    MakeFacts(k.e, Red, !k.c, k.sib, Child(t, !k.c));
    assert EvenCtx(k.up, Blacks(t)) && NoRedRedCtx(k.up, true);
    BlackHole(k.up, true);
    assert Even(p) && Blacks(p) == Blacks(t);
    assert EvenCtx(k1, Blacks(p));
    assert BlackTop(k.up);
    InsertedInnerEntries(k, t);
  }

  lemma InsertedInnerEntries(k: Ctx, t: Tree)
    requires k.In? && t.Node?
    ensures SameEntries(Plug(k, t),
              Plug(k.up, Make(t.e, Red, !k.c, Make(k.e, Red, !k.c, k.sib, Child(t, !k.c)), Child(t, k.c))))
  {
    var p := Make(k.e, Red, !k.c, k.sib, Child(t, !k.c));
    PlugInorder(k.up, Outer(k, t));
    PlugInorder(k.up, Make(t.e, Red, !k.c, p, Child(t, k.c)));
    Side(t, k.c);
    MakeFacts(t.e, t.color, k.c, Child(t, k.c), Child(t, !k.c));
    MakeFacts(k.e, k.color, k.c, t, k.sib);
    MakeFacts(k.e, Red, !k.c, k.sib, Child(t, !k.c));
    MakeFacts(t.e, Red, !k.c, p, Child(t, k.c));
    Regroup(Inorder(k.sib), k.e, Inorder(Child(t, !k.c)), t.e, Inorder(Child(t, k.c)));
    Regroup(Inorder(Child(t, k.c)), t.e, Inorder(Child(t, !k.c)), k.e, Inorder(k.sib));
  }

  /** No object loses its key or value. */
  predicate SameData(h: Heap, h': Heap) {
    forall i :: i in h ==> i in h' && h'[i].key == h[i].key && h'[i].value == h[i].value
  }

  class Map {
    const s: nat   // sentinel
    const r: nat   // header, above the first node
    var nodes: Heap
    ghost var tree: Tree

    ghost predicate Valid()
      reads this
    {
      At(nodes, s, r, Top, tree) && RedBlack(tree) && Sorted(Inorder(tree))
    }

    ghost function Entries(): seq<Entry>
      reads this
    {
      Inorder(tree)
    }

    /** The two objects are what the allocator returned. */
    constructor (s: nat, r: nat)
      requires s != r
      ensures Valid() && Entries() == []
    {
      this.s, this.r := s, r;
      nodes := map[s := Cell(0, 0, Black, s, s, s), r := Cell(0, 0, Black, s, s, s)];
      tree := Leaf;
    }

    method SetParent(x: nat, p: nat)
      requires x in nodes
      modifies this`nodes
      ensures nodes == old(nodes)[x := old(nodes[x]).(parent := p)]
    {
      nodes := nodes[x := nodes[x].(parent := p)];
    }

    method SetSlot(x: nat, c: bool, y: nat)
      requires x in nodes
      modifies this`nodes
      ensures nodes == old(nodes)[x := WithSlot(old(nodes[x]), c, y)]
    {
      nodes := nodes[x := WithSlot(nodes[x], c, y)];
    }

    /** The writes of a rotation, on objects that are all different. */
    method Relink(node: nat, c: bool, ghost b: nat, ghost m: nat, ghost p: nat)
      requires node in nodes && b in nodes && p in nodes && s in nodes && (m != s ==> m in nodes)
      requires b == Slot(nodes[node], !c) && m == Slot(nodes[b], c) && p == nodes[node].parent
      requires node != b && node != p && b != p && m !in {node, b, p} && s !in {node, b, p}
      modifies this`nodes
      ensures nodes.Keys == old(nodes.Keys)
      ensures nodes[node] == WithSlot(old(nodes[node]), !c, m).(parent := b)
      ensures nodes[b] == WithSlot(old(nodes[b]), c, node).(parent := p)
      ensures nodes[p] == WithSlot(old(nodes[p]), node == old(nodes[p].right), b)
      ensures m != s ==> nodes[m] == old(nodes[m]).(parent := node)
      ensures forall i :: i in nodes && i !in {node, b, p} && (m == s || i != m) ==> nodes[i] == old(nodes[i])
    {
      var child := Slot(nodes[node], !c);
      SetSlot(node, !c, Slot(nodes[child], c));
      if Slot(nodes[child], c) != s {
        SetParent(Slot(nodes[child], c), node);
      }
      SetParent(child, nodes[node].parent);
      var parent := nodes[node].parent;
      SetSlot(parent, node == nodes[parent].right, child);
      SetSlot(child, c, node);
      SetParent(node, child);
    }

    method Rotate(node: nat, c: bool, ghost k: Ctx, ghost t: Tree)
      requires At(nodes, s, r, k, t) && t.Node? && Child(t, !c).Node? && node == t.e.id
      modifies this`nodes
      ensures SameData(old(nodes), nodes)
      ensures At(nodes, s, r, k, Rotated(t, c)) && nodes[s] == old(nodes[s])
    {
      ghost var b := Child(t, !c);
      RotationReads(nodes, s, r, k, t, c);
      Relink(node, c, b.e.id, IdOf(Child(b, c), s), ParentOf(k, r));
      RbHeap.Rotate(old(nodes), nodes, s, r, k, t, c);
    }

    /** Hangs the new node where a search for its key ends. */
    method InsertBst(n: nat) returns (ghost k: Ctx)
      requires Valid() && n in nodes && n !in Ids(tree) && n != s && n != r
      modifies this`nodes
      ensures SameData(old(nodes), nodes)
      ensures n in nodes && nodes[n].color == old(nodes[n].color)
      ensures Plug(k, Leaf) == tree && SearchedTo(k, nodes[n].key) && n !in CtxIds(k)
      ensures At(nodes, s, r, k, Node(Entry(n, nodes[n].key, nodes[n].value), nodes[n].color, Leaf, Leaf))
    {
      var parent, side := r, false;
      k := Top;
      ghost var t := tree;
      ghost var key := nodes[n].key;
      nodes := nodes[n := nodes[n].(left := s)];
      nodes := nodes[n := nodes[n].(right := s)];
      Elsewhere(old(nodes), nodes, s, r, Top, tree, n);
      while Slot(nodes[parent], side) != s
        invariant parent in nodes && parent == ParentOf(k, r) && side == SideOf(k) && parent != n
        invariant n in nodes && nodes[n] == old(nodes[n]).(left := s, right := s)
        invariant At(nodes, s, r, k, t) && Plug(k, t) == tree && SearchedTo(k, key)
        invariant n !in CtxIds(k) && n !in Ids(t) && SameData(old(nodes), nodes)
        decreases t
      {
        SearchOn(k, t, key);
        parent := Slot(nodes[parent], side);
        side := nodes[n].key > nodes[parent].key;
        Down(nodes, s, r, k, t, side);
        Side(t, side);
        k, t := In(side, t.e, t.color, Child(t, !side), k), Child(t, side);
      }
      ghost var before := nodes;
      nodes := nodes[n := nodes[n].(parent := parent)];
      nodes := nodes[parent := WithSlot(nodes[parent], side, n)];
      Attach(before, nodes, s, r, k, n);
    }

    method SetColor(n: nat, color: Color, ghost k: Ctx, ghost t: Tree)
      requires At(nodes, s, r, k, t) && t.Node? && n == t.e.id
      modifies this`nodes
      ensures SameData(old(nodes), nodes)
      ensures At(nodes, s, r, k, t.(color := color)) && nodes == Painted(old(nodes), n, color)
    {
      nodes := nodes[n := nodes[n].(color := color)];
      Paint(old(nodes), s, r, k, t, color);
    }

    /** Red uncle: parent and uncle turn black, the grandparent red. */
    method PushRed(n: nat, uncle: nat, ghost k: Ctx, ghost t: Tree) returns (gp: nat)
      requires At(nodes, s, r, k, t) && t.Node? && n == t.e.id && k.In? && k.up.In?
      requires k.up.sib.Node? && uncle == k.up.sib.e.id
      modifies this`nodes
      ensures SameData(old(nodes), nodes)
      ensures At(nodes, s, r, k.up.up, Recolored(k, t)) && gp == k.up.e.id
    {
      ghost var p, g, u := Outer(k, t), k.up, k.up.sib;
      Up(nodes, s, r, k, t);
      Across(nodes, s, r, g, p);
      SetColor(uncle, Black, In(!g.c, g.e, g.color, p, g.up), u);
      Across(nodes, s, r, In(!g.c, g.e, g.color, p, g.up), u.(color := Black));
      ghost var g' := In(g.c, g.e, g.color, u.(color := Black), g.up);
      SetColor(nodes[n].parent, Black, g', p);
      ghost var p' := Make(k.e, Black, k.c, t, k.sib);
      Down(nodes, s, r, g', p', k.c);
      Up(nodes, s, r, g', p');
      gp := nodes[nodes[n].parent].parent;
      SetColor(gp, Red, g.up, Outer(g', p'));
    }

    /** Black uncle, node on the outer side: turns the grandparent down. */
    method TurnDown(n: nat, c: bool, ghost k: Ctx, ghost t: Tree)
      requires At(nodes, s, r, k, t) && t.Node? && n == t.e.id && k.In? && k.up.In? && k.c == c && k.up.c == c
      modifies this`nodes
      ensures SameData(old(nodes), nodes)
      ensures At(nodes, s, r, k.up.up, Straightened(k, t))
    {
      ghost var g := k.up;
      Up(nodes, s, r, k, t);
      SetColor(nodes[n].parent, Black, g, Outer(k, t));
      ghost var p := Make(k.e, Black, c, t, k.sib);
      Down(nodes, s, r, g, p, c);
      Up(nodes, s, r, g, p);
      SetColor(nodes[nodes[n].parent].parent, Red, g.up, Outer(g, p));
      ghost var t1 := Make(g.e, Red, c, p, g.sib);
      Down(nodes, s, r, g.up, t1, c);
      Down(nodes, s, r, In(c, g.e, Red, g.sib, g.up), p, c);
      Rotate(nodes[nodes[n].parent].parent, !c, g.up, t1);
    }

    /** Black uncle, node on the inner side: turns the parent towards the uncle. */
    method TurnIn(n: nat, c: bool, ghost k: Ctx, ghost t: Tree) returns (n': nat, ghost k': Ctx, ghost t': Tree)
      requires At(nodes, s, r, k, t) && Inserting(k, t) && n == t.e.id && k.In? && k.color.Red? && k.up.In? && k.c == !c
      modifies this`nodes
      ensures SameData(old(nodes), nodes)
      ensures At(nodes, s, r, k', t') && Inserting(k', t') && n' == t'.e.id && SameEntries(Plug(k, t), Plug(k', t'))
      ensures k'.In? && k'.color.Red? && k'.c == c && k'.up == k.up
    {
      InnerIsInserting(k, t);
      Up(nodes, s, r, k, t);
      n' := nodes[n].parent;
      Rotate(n', c, k.up, Outer(k, t));
      Down(nodes, s, r, k.up, Rotated(Outer(k, t), c), c);
      k', t' := In(c, t.e, Red, Child(t, !c), k.up), Make(k.e, Red, c, k.sib, Child(t, c));
    }

    /** Black uncle, node on the outer side: the parent ends up black on top. */
    method TurnOut(n: nat, c: bool, ghost k: Ctx, ghost t: Tree) returns (ghost k': Ctx)
      requires At(nodes, s, r, k, t) && Inserting(k, t) && n == t.e.id
      requires k.In? && k.color.Red? && k.up.In? && k.c == c && k.up.c == c && !IsRed(k.up.sib)
      modifies this`nodes
      ensures SameData(old(nodes), nodes)
      ensures At(nodes, s, r, k', t) && Inserting(k', t) && SameEntries(Plug(k, t), Plug(k', t))
      ensures k'.In? && k'.color.Black?
    {
      StraightenedIsBalanced(k, t);
      TurnDown(n, c, k, t);
      Down(nodes, s, r, k.up.up, Straightened(k, t), c);
      k' := In(c, k.e, Black, Make(k.up.e, Red, c, k.sib, k.up.sib), k.up.up);
      OuterEven(k', t);
      OuterNoRedRed(k', t);
    }

    /** One round of the recoloring loop; `c` is the side of the parent. */
    method Recolor(n: nat, c: bool, ghost k: Ctx, ghost t: Tree) returns (n': nat, ghost k': Ctx, ghost t': Tree)
      requires At(nodes, s, r, k, t) && Inserting(k, t) && n == t.e.id
      requires k.In? && k.color.Red? && k.up.In? && c == k.up.c
      modifies this`nodes
      ensures SameData(old(nodes), nodes)
      ensures At(nodes, s, r, k', t') && Inserting(k', t') && n' == t'.e.id
      ensures SameEntries(Plug(k, t), Plug(k', t'))
      ensures (k'.In? && k'.color.Black?) || Depth(k') < Depth(k)
    {
      UncleReads(nodes, s, r, k, t);
      var uncle := Slot(nodes[nodes[nodes[n].parent].parent], !c);
      if nodes[uncle].color.Red? {
        RecoloredIsInserting(k, t);
        n' := PushRed(n, uncle, k, t);
        k', t' := k.up.up, Recolored(k, t);
      } else {
        n', k', t' := n, k, t;
        if n == Slot(nodes[nodes[n].parent], !c) {
          n', k', t' := TurnIn(n, c, k, t);
        }
        k' := TurnOut(n', c, k', t');
      }
    }

    /** The recoloring loop, and the first node painted black. */
    method RecolorUp(n: nat, ghost k: Ctx, ghost t: Tree)
      requires At(nodes, s, r, k, t) && Inserting(k, t) && n == t.e.id
      modifies this
      ensures SameData(old(nodes), nodes)
      ensures At(nodes, s, r, Top, tree) && RedBlack(tree) && SameEntries(Plug(k, t), tree)
    {
      ghost var k', t' := k, t;
      var x := n;
      while nodes[nodes[x].parent].color.Red?
        invariant At(nodes, s, r, k', t') && Inserting(k', t') && x == t'.e.id
        invariant SameEntries(Plug(k, t), Plug(k', t')) && SameData(old(nodes), nodes)
        decreases if k'.In? && k'.color.Red? then Depth(k') + 1 else 0
      {
        GrandparentReads(nodes, s, r, k', t');
        x, k', t' := Recolor(x, nodes[x].parent == nodes[nodes[nodes[x].parent].parent].right, k', t');
      }
      InsertedIsBalanced(nodes, s, r, k', t');
      tree := Plug(k', t');
      SetColor(nodes[r].left, Black, Top, tree);
      tree := tree.(color := Black);
    }

    /** Adds an entry in front of all with the same or a greater key. The new
        object `n` is what the allocator returned. */
    method Insert(n: nat, key: nat, value: nat) returns (ghost i: nat)
      requires Valid() && n !in nodes
      modifies this
      ensures Valid() && LowerBound(old(Entries()), key, i)
      ensures Entries() == old(Entries())[..i] + [Entry(n, key, value)] + old(Entries())[i..]
    {
      ghost var before := nodes;
      nodes := nodes[n := Cell(key, value, Black, 0, 0, 0)];
      NewObject(before, s, r, tree, n);
      Elsewhere(before, nodes, s, r, Top, tree, n);
      ghost var k := InsertBst(n);
      SetColor(n, Red, k, Node(Entry(n, key, value), Black, Leaf, Leaf));
      ghost var t := Node(Entry(n, key, value), Red, Leaf, Leaf);
      RedLeafInserts(k, Leaf, t.e);
      RecolorUp(n, k, t);
      InsertedInOrder(k, old(tree), t, key);
      i := |Before(k)|;
    }

    // -------------------------------------------------------------------------
    // Looking up
    // -------------------------------------------------------------------------

    /** The search loop; `visited` counts its rounds. */
    method Search(key: nat) returns (found: Option<nat>, ghost k: Ctx, ghost t: Tree, ghost visited: nat)
      requires At(nodes, s, r, Top, tree) && Sorted(Inorder(tree))
      ensures Plug(k, t) == tree && At(nodes, s, r, k, t) && visited <= Height(tree)
      ensures found.Some? ==> t.Node? && t.e.key == key && found.value == t.e.id
      ensures Apart(k, key) && (found.None? ==> t.Leaf?)
      ensures visited == Depth(k) + if found.Some? then 1 else 0
    {
      k, t, visited := Top, tree, 0;
      var dst := nodes[r].left;
      while dst != s
        invariant At(nodes, s, r, k, t) && Plug(k, t) == tree && dst == IdOf(t, s)
        invariant Apart(k, key) && visited + Height(t) <= Height(tree) && visited == Depth(k)
        decreases t
      {
        visited := visited + 1;
        if nodes[dst].key == key {
          return Some(dst), k, t, visited;
        }
        SearchPast(k, t, key);
        var c := key > nodes[dst].key;
        Descend(nodes, s, r, k, t, c);
        dst := Slot(nodes[dst], c);
        k, t := In(c, t.e, t.color, Child(t, !c), k), Child(t, c);
      }
      found := None;
    }

    /** Finds a node with the key; visits at most 2·log2(n + 1) nodes of n. */
    method FindNode(key: nat) returns (found: Option<nat>, ghost k: Ctx, ghost t: Tree, ghost visited: nat)
      requires Valid()
      ensures Plug(k, t) == tree && At(nodes, s, r, k, t)
      ensures found.Some? ==> t.Node? && t.e.key == key && found.value == t.e.id && t.e in Entries()
      ensures found.None? ==> forall e :: e in Entries() ==> e.key != key
      ensures Highest(tree, key) == if found.Some? then Some(t.e) else None
      ensures Pow2((visited + 1) / 2) <= |Entries()| + 1
      ensures visited == Depth(k) + if found.Some? then 1 else 0
    {
      found, k, t, visited := Search(key);
      VisitsBound(tree, visited);
      HighestInHole(k, t, key);
      if found.Some? { EntryIsThere(k, t); } else { NotThere(k, key); }
    }

    /** The value stored under the key, or null; of several, that of the highest node. */
    method Get(key: nat) returns (value: nat)
      requires Valid()
      ensures value == if Highest(tree, key).Some? then Highest(tree, key).value.value else OID_NULL
      ensures (exists e :: e in Entries() && e.key == key && e.value == value) ||
              (value == OID_NULL && forall e :: e in Entries() ==> e.key != key)
    {
      var found, k, t, _ := FindNode(key);
      value := if found.None? then OID_NULL else nodes[found.value].value;
    }

    method Lookup(key: nat) returns (present: bool)
      requires Valid()
      ensures present <==> exists e :: e in Entries() && e.key == key
    {
      var found, k, t, _ := FindNode(key);
      present := found.Some?;
    }

    method Leftmost(start: nat, ghost k: Ctx, ghost t: Tree) returns (dst: nat, ghost k': Ctx, ghost t': Tree)
      requires At(nodes, s, r, k, t) && t.Node? && start == t.e.id
      ensures At(nodes, s, r, k', t') && t'.Node? && t'.left.Leaf? && dst == t'.e.id && Plug(k', t') == Plug(k, t)
      ensures Before(k') == Before(k) && Inorder(t') + After(k') == Inorder(t) + After(k)
    {
      dst, k', t' := start, k, t;
      Descend(nodes, s, r, k', t', false);
      while Slot(nodes[dst], false) != s
        invariant At(nodes, s, r, k', t') && t'.Node? && dst == t'.e.id && Plug(k', t') == Plug(k, t)
        invariant Before(k') == Before(k) && Inorder(t') + After(k') == Inorder(t) + After(k)
        invariant dst in nodes && Slot(nodes[dst], false) == IdOf(t'.left, s)
        decreases t'
      {
        LeftStep(k', t');
        dst := Slot(nodes[dst], false);
        k', t' := In(false, t'.e, t'.color, t'.right, k'), t'.left;
        Descend(nodes, s, r, k', t', false);
      }
    }

    method Climb(n: nat, ghost k: Ctx, ghost t: Tree) returns (dst: nat)
      requires At(nodes, s, r, k, t) && t.Node? && n == t.e.id
      ensures dst == if After(k) == [] then s else After(k)[0].id
    {
      var x := n;
      ghost var k', t' := k, t;
      dst := nodes[n].parent;
      Location(nodes, s, r, x, k');
      while x == nodes[dst].right
        invariant At(nodes, s, r, k', t') && t'.Node? && x == t'.e.id && dst == ParentOf(k', r) && After(k') == After(k)
        invariant dst in nodes && (x == nodes[dst].right <==> SideOf(k'))
        decreases k'
      {
        Up(nodes, s, r, k', t');
        x := dst;
        dst := nodes[dst].parent;
        t', k' := Outer(k', t'), k'.up;
        Location(nodes, s, r, x, k');
      }
      if dst == r {
        dst := s;
      }
    }

    /** The next node in order, or the sentinel. */
    method Successor(n: nat, ghost k: Ctx, ghost t: Tree) returns (dst: nat, ghost k': Ctx, ghost t': Tree)
      requires At(nodes, s, r, k, t) && t.Node? && n == t.e.id
      ensures var rest := Inorder(t.right) + After(k); dst == if rest == [] then s else rest[0].id
      ensures t.right.Node? ==>
                && At(nodes, s, r, k', t') && t'.Node? && t'.left.Leaf? && dst == t'.e.id && Plug(k', t') == Plug(k, t)
                && Before(k') == Pre(k, t) + [t.e]
    {
      Descend(nodes, s, r, k, t, true);
      dst := Slot(nodes[n], true);
      if dst != s {
        dst, k', t' := Leftmost(dst, In(true, t.e, t.color, t.left, k), t.right);
        assert (Inorder(t') + After(k'))[0] == t'.e;
      } else {
        dst := Climb(n, k, t);
        k', t' := k, t;
      }
    }

    // -------------------------------------------------------------------------
    // Removing
    // -------------------------------------------------------------------------

    /** The red sibling turns up over the parent. */
    method TurnSibling(sb: nat, c: bool, ghost k: Ctx, ghost t: Tree)
      requires At(nodes, s, r, k, t) && k.In? && k.c == c && k.sib.Node? && sb == k.sib.e.id
      modifies this`nodes
      ensures SameData(old(nodes), nodes)
      ensures At(nodes, s, r, TurnedCtx(k), t) && nodes[s] == old(nodes[s])
    {
      Across(nodes, s, r, k, t);
      SetColor(sb, Black, In(!c, k.e, k.color, t, k.up), k.sib);
      ghost var sib := k.sib.(color := Black);
      Across(nodes, s, r, In(!c, k.e, k.color, t, k.up), sib);
      Up(nodes, s, r, k.(sib := sib), t);
      ghost var p := Make(k.e, Red, c, t, sib);
      SetColor(nodes[sb].parent, Red, k.up, Outer(k.(sib := sib), t));
      Rotate(nodes[sb].parent, c, k.up, p);
      Down(nodes, s, r, k.up, Rotated(p, c), c);
      Down(nodes, s, r, In(c, k.sib.e, Black, Child(k.sib, !c), k.up), Make(k.e, Red, c, t, Child(sib, c)), c);
    }

    /** The black sibling turns red. */
    method PassDebt(sb: nat, ghost k: Ctx, ghost t: Tree)
      requires At(nodes, s, r, k, t) && k.In? && k.sib.Node? && sb == k.sib.e.id
      modifies this`nodes
      ensures SameData(old(nodes), nodes)
      ensures At(nodes, s, r, k.up, Passed(k, t)) && nodes[s] == old(nodes[s])
    {
      Across(nodes, s, r, k, t);
      SetColor(sb, Red, In(!k.c, k.e, k.color, t, k.up), k.sib);
      Up(nodes, s, r, In(!k.c, k.e, k.color, t, k.up), k.sib.(color := Red));
    }

    /** The sibling's inner child turns up over it. */
    method TurnNephew(sb: nat, c: bool, ghost k: Ctx, ghost t: Tree)
      requires At(nodes, s, r, k, t) && k.In? && k.c == c && k.sib.Node? && sb == k.sib.e.id && Child(k.sib, c).Node?
      modifies this`nodes
      ensures SameData(old(nodes), nodes)
      ensures At(nodes, s, r, k.(sib := InnerSib(k)), t) && nodes[s] == old(nodes[s])
    {
      ghost var k1, m, b := In(!c, k.e, k.color, t, k.up), Child(k.sib, c), Child(k.sib, !c);
      Across(nodes, s, r, k, t);
      Side(k.sib, c);
      Descend(nodes, s, r, k1, k.sib, c);
      SetColor(Slot(nodes[sb], c), Black, In(c, k.sib.e, k.sib.color, b, k1), m);
      Up(nodes, s, r, In(c, k.sib.e, k.sib.color, b, k1), m.(color := Black));
      SetColor(sb, Red, k1, Make(k.sib.e, k.sib.color, c, m.(color := Black), b));
      Rotate(sb, !c, k1, Make(k.sib.e, Red, c, m.(color := Black), b));
      Across(nodes, s, r, k1, InnerSib(k));
    }

    /** The sibling turns up in the parent's color, over two black nodes. */
    method PayDebt(sb: nat, c: bool, ghost k: Ctx, ghost t: Tree)
      requires At(nodes, s, r, k, t) && k.In? && k.c == c && k.sib.Node? && sb == k.sib.e.id && Child(k.sib, !c).Node?
      modifies this`nodes
      ensures SameData(old(nodes), nodes)
      ensures At(nodes, s, r, k.up, Paid(k, t)) && nodes[s] == old(nodes[s])
    {
      ghost var k1, a, b := In(!c, k.e, k.color, t, k.up), Child(k.sib, c), Child(k.sib, !c);
      ParentReads(nodes, s, r, k, t);
      Side(k.sib, !c);
      SetColor(sb, nodes[nodes[sb].parent].color, k1, k.sib);
      ghost var sib := k.sib.(color := k.color);
      Up(nodes, s, r, k1, sib);
      SetColor(nodes[sb].parent, Black, k.up, Make(k.e, k.color, !c, sib, t));
      ghost var k2 := In(!c, k.e, Black, t, k.up);
      Down(nodes, s, r, k.up, Make(k.e, Black, !c, sib, t), !c);
      Descend(nodes, s, r, k2, sib, !c);
      SetColor(Slot(nodes[sb], !c), Black, In(!c, k.sib.e, k.color, a, k2), b);
      Up(nodes, s, r, In(!c, k.sib.e, k.color, a, k2), b.(color := Black));
      Up(nodes, s, r, k2, Make(k.sib.e, k.color, !c, b.(color := Black), a));
      Rotate(nodes[sb].parent, c, k.up, Make(k.e, Black, c, t, Make(k.sib.e, k.color, c, a, b.(color := Black))));
    }

    /** The second half of a repair, with a black sibling. */
    method RepairBlack(n: nat, c: bool, ghost k: Ctx, ghost t: Tree) returns (n': nat, ghost k': Ctx, ghost t': Tree)
      requires At(nodes, s, r, k, t) && Short(k, t) && n == IdOf(t, s) && n in nodes &&
        nodes[n].parent == ParentOf(k, r)
      requires k.In? && !IsRed(t) && !IsRed(k.sib) && c == k.c
      modifies this`nodes
      ensures SameData(old(nodes), nodes)
      ensures At(nodes, s, r, k', t') && Short(k', t') && n' == IdOf(t', s)
      ensures n' in nodes && nodes[n'].parent == ParentOf(k', r)
      ensures SameEntries(Plug(k, t), Plug(k', t')) && ((k' == k.up && IsRed(t') == k.color.Red?) || k'.Top?)
    {
      SiblingExists(k, t);
      SiblingReads(nodes, s, r, k, t);
      var sb := Slot(nodes[nodes[n].parent], !c);
      if nodes[nodes[sb].right].color.Black? && nodes[nodes[sb].left].color.Black? {
        PassedIsShort(k, t);
        PassDebt(sb, k, t);
        k', t' := k.up, Passed(k, t);
        NodeReads(nodes, s, r, k', t', k.c);
        n' := nodes[n].parent;
      } else {
        k' := k;
        if nodes[Slot(nodes[sb], !c)].color.Black? {
          InnerIsShort(k, t);
          TurnNephew(sb, c, k, t);
          k' := k.(sib := InnerSib(k));
          ParentReads(nodes, s, r, k', t);
          sb := Slot(nodes[nodes[n].parent], !c);
        }
        PaidIsBalanced(k', t);
        PayDebt(sb, c, k', t);
        Out(nodes, s, r, k'.up, Paid(k', t));
        k', t' := Top, Plug(k'.up, Paid(k', t));
        n' := nodes[r].left;
        PaidIsNode(k, t, t');
      }
    }

    /** One round of the repair loop; `c` is the side of the short tree. */
    method RepairBranch(n: nat, c: bool, ghost k: Ctx, ghost t: Tree) returns (n': nat, ghost k': Ctx, ghost t': Tree)
      requires At(nodes, s, r, k, t) && Short(k, t) && n == IdOf(t, s) && n in nodes &&
        nodes[n].parent == ParentOf(k, r)
      requires k.In? && !IsRed(t) && c == k.c
      modifies this`nodes
      ensures SameData(old(nodes), nodes)
      ensures At(nodes, s, r, k', t') && Short(k', t') && n' == IdOf(t', s)
      ensures n' in nodes && nodes[n'].parent == ParentOf(k', r)
      ensures SameEntries(Plug(k, t), Plug(k', t')) && (IsRed(t') || Depth(k') < Depth(k))
    {
      SiblingExists(k, t);
      ParentReads(nodes, s, r, k, t);
      var sb := Slot(nodes[nodes[n].parent], !c);
      k' := k;
      if nodes[sb].color.Red? {
        TurnedIsShort(k, t);
        TurnSibling(sb, c, k, t);
        k' := TurnedCtx(k);
        ParentReads(nodes, s, r, k', t);
      }
      n', k', t' := RepairBlack(n, c, k', t);
    }

    /** Moves the debt up until it can be paid. */
    method Repair(n: nat, ghost k: Ctx, ghost t: Tree)
      requires At(nodes, s, r, k, t) && Short(k, t) && n == IdOf(t, s) && n in nodes &&
        nodes[n].parent == ParentOf(k, r)
      modifies this
      ensures SameData(old(nodes), nodes)
      ensures At(nodes, s, r, Top, tree) && RedBlack(tree) && SameEntries(Plug(k, t), tree)
    {
      var x := n;
      ghost var k', t' := k, t;
      FirstReads(nodes, s, r, k', t');
      while x != nodes[r].left && nodes[x].color.Black?
        invariant At(nodes, s, r, k', t') && Short(k', t') && x == IdOf(t', s)
        invariant x in nodes && nodes[x].parent == ParentOf(k', r)
        invariant SameEntries(Plug(k, t), Plug(k', t')) && SameData(old(nodes), nodes)
        invariant r in nodes && (x == nodes[r].left <==> k'.Top?) && (nodes[x].color.Black? <==> !IsRed(t'))
        decreases if IsRed(t') then 0 else Depth(k') + 1
      {
        SiblingExists(k', t');
        ParentReads(nodes, s, r, k', t');
        x, k', t' := RepairBranch(x, x == nodes[nodes[x].parent].right, k', t');
        FirstReads(nodes, s, r, k', t');
      }
      PaintSettles(k', t');
      BlackenAt(nodes, s, r, k', t');
      nodes := nodes[x := nodes[x].(color := Black)];
      tree := Plug(k', Blackened(t'));
      Out(nodes, s, r, k', Blackened(t'));
    }

    /** Hangs the only child `c` of `y` below the parent `q` of `y`. */
    method Bypass(y: nat, ghost c: nat, ghost q: nat) returns (x: nat)
      requires y in nodes && c in nodes && q in nodes && y != c && y != q && c != q && q == nodes[y].parent
      requires c == if nodes[y].left == s then nodes[y].right else nodes[y].left
      requires q == r ==> y != nodes[q].right
      modifies this`nodes
      ensures x == c && nodes.Keys == old(nodes.Keys)
      ensures nodes[c] == old(nodes[c]).(parent := q)
      ensures nodes[q] == WithSlot(old(nodes[q]), y == old(nodes[q].right), c)
      ensures forall i :: i in nodes && i != c && i != q ==> nodes[i] == old(nodes[i])
    {
      x := if nodes[y].left == s then nodes[y].right else nodes[y].left;
      SetParent(x, nodes[y].parent);
      if nodes[x].parent == r {
        SetSlot(r, false, x);
      } else {
        var p := nodes[y].parent;
        SetSlot(p, y == nodes[p].right, x);
      }
    }

    /** Copies the neighbours and color of `n` into `y`. */
    method CopyLinks(y: nat, n: nat)
      requires y in nodes && n in nodes && y != n
      modifies this`nodes
      ensures nodes == old(nodes)[y := old(nodes[n]).(key := old(nodes[y].key), value := old(nodes[y].value))]
    {
      SetSlot(y, false, nodes[n].left);
      SetSlot(y, true, nodes[n].right);
      SetParent(y, nodes[n].parent);
      nodes := nodes[y := nodes[y].(color := nodes[n].color)];
    }

    /** Gives `y` the neighbours and color of `n`. */
    method Substitute(y: nat, n: nat, ghost q: nat, ghost a: nat, ghost b: nat)
      requires y in nodes && n in nodes && q in nodes && a in nodes && b in nodes && y != n
      requires q == nodes[n].parent && a == nodes[n].left && b == nodes[n].right
      requires y !in {q, a, b} && n !in {q, a, b} && q !in {a, b}
      modifies this`nodes
      ensures nodes.Keys == old(nodes.Keys)
      ensures nodes[y] == Cell(old(nodes[y].key), old(nodes[y].value), old(nodes[n].color), q, a, b)
      ensures nodes[q] == WithSlot(old(nodes[q]), n == old(nodes[q].right), y)
      ensures nodes[a] == old(nodes[a]).(parent := y) && nodes[b] == old(nodes[b]).(parent := y)
      ensures forall i :: i in nodes && i !in {y, q, a, b} ==> nodes[i] == old(nodes[i])
    {
      CopyLinks(y, n);
      SetParent(nodes[n].left, y);
      SetParent(nodes[n].right, y);
      var p := nodes[n].parent;
      SetSlot(p, n == nodes[p].right, y);
    }

    /** Takes `y`, which has at most one child, out of the tree. */
    method Unhook(y: nat, ghost k: Ctx, ghost t: Tree) returns (x: nat)
      requires At(nodes, s, r, k, t) && t.Node? && y == t.e.id && (t.left.Leaf? || t.right.Leaf?)
      modifies this`nodes
      ensures SameData(old(nodes), nodes) && x == IdOf(OnlyChild(t), s)
      ensures At(nodes, s, r, k, OnlyChild(t)) && y in nodes && nodes[y].color == t.color
      ensures x in nodes && nodes[x].parent == ParentOf(k, r)
    {
      SpliceReads(nodes, s, r, k, t);
      x := Bypass(y, IdOf(OnlyChild(t), s), ParentOf(k, r));
      Splice(old(nodes), nodes, s, r, k, t);
    }

    /** The same, and repairs the tree. */
    method SpliceOut(y: nat, ghost k: Ctx, ghost t: Tree)
      requires At(nodes, s, r, k, t) && t.Node? && y == t.e.id && (t.left.Leaf? || t.right.Leaf?) &&
        RedBlack(Plug(k, t))
      modifies this
      ensures SameData(old(nodes), nodes)
      ensures At(nodes, s, r, Top, tree) && RedBlack(tree) && SameEntries(Plug(k, OnlyChild(t)), tree)
    {
      var x := Unhook(y, k, t);
      var black := nodes[y].color.Black?;
      if black {
        SpliceBlack(k, t);
        Repair(x, k, OnlyChild(t));
      } else {
        SpliceRed(k, t);
        tree := Plug(k, OnlyChild(t));
        Out(nodes, s, r, k, OnlyChild(t));
      }
    }

    /** Puts `y` in the place of `n`. */
    method TakePlace(y: nat, n: nat, ghost k: Ctx, ghost t: Tree)
      requires At(nodes, s, r, k, t) && t.Node? && n == t.e.id
      requires y in nodes && y !in Ids(t) && y !in CtxIds(k) && y != s && y != r
      modifies this`nodes
      ensures SameData(old(nodes), nodes)
      ensures At(nodes, s, r, k, t.(e := Entry(y, old(nodes[y]).key, old(nodes[y]).value)))
    {
      PlaceReads(nodes, s, r, k, t);
      Substitute(y, n, ParentOf(k, r), IdOf(t.left, s), IdOf(t.right, s));
      Replace(old(nodes), nodes, s, r, k, t, y);
    }

    /** Removes the node `n` found for a key; its entry is number `i`. */
    method RemoveNode(n: nat, ghost k: Ctx, ghost t: Tree, ghost i: nat)
      requires Valid() && Plug(k, t) == tree && At(nodes, s, r, k, t) && t.Node? && n == t.e.id
      requires i == |Pre(k, t)|
      modifies this
      ensures At(nodes, s, r, Top, tree) && RedBlack(tree)
      ensures i < |old(Entries())| && Entries() == Without(old(Entries()), i)
    {
      PlaceReads(nodes, s, r, k, t);
      if nodes[n].left == s || nodes[n].right == s {
        HasLeaf(nodes, s, r, k, t);
        SplicedEntries(k, t);
        SpliceOut(n, k, t);
      } else {
        RemoveInner(n, k, t, i);
      }
    }

    /** The case of a node with two children. */
    method RemoveInner(n: nat, ghost k: Ctx, ghost t: Tree, ghost i: nat)
      requires Valid() && Plug(k, t) == tree && At(nodes, s, r, k, t) && t.Node? && n == t.e.id
      requires t.left.Node? && t.right.Node?
      requires i == |Pre(k, t)|
      modifies this
      ensures At(nodes, s, r, Top, tree) && RedBlack(tree)
      ensures i < |old(Entries())| && Entries() == Without(old(Entries()), i)
    {
      var y, ky, ty := Successor(n, k, t);
      NextEntries(tree, k, t, ky, ty);
      SuccessorReads(nodes, s, r, ky, ty);
      SpliceOut(y, ky, ty);
      SwapIn(y, n, old(tree), i);
    }

    /** After the successor `y` was taken out, it replaces `n`. */
    method SwapIn(y: nat, n: nat, ghost was: Tree, ghost i: nat)
      requires At(nodes, s, r, Top, tree) && RedBlack(tree) && Distinct(was) && i + 1 < |Inorder(was)|
      requires Inorder(tree) == Without(Inorder(was), i + 1) && n == Inorder(was)[i].id && y == Inorder(was)[i + 1].id
      requires y != s && y != r && y in nodes && Inorder(was)[i + 1] == Entry(y, nodes[y].key, nodes[y].value)
      modifies this
      ensures At(nodes, s, r, Top, tree) && RedBlack(tree) && Inorder(tree) == Without(Inorder(was), i)
    {
      ghost var e := Inorder(was)[i + 1];
      GoneFromTree(was, tree, i + 1);
      assert Inorder(tree)[i].id == n;
      IdsAreInorder(tree, n);
      ghost var k, t := FindIn(Top, tree, n);
      Into(nodes, s, r, k, t);
      PlugIds(k, t);
      PlacedEntries(was, k, t, i);
      PlacedIsRedBlack(k, t, e);
      TakePlace(y, n, k, t);
      tree := Plug(k, t.(e := e));
      Out(nodes, s, r, k, t.(e := e));
    }

    /** Removes one entry with the key, if there is any, and returns its value. */
    method Remove(key: nat) returns (ret: nat, ghost i: nat)
      requires Valid()
      modifies this
      ensures Valid()
      ensures (forall e :: e in old(Entries()) ==> e.key != key) ==>
                ret == OID_NULL && Entries() == old(Entries()) && nodes == old(nodes)
      ensures (exists e :: e in old(Entries()) && e.key == key) ==>
                && i < |old(Entries())| && old(Entries())[i].key == key && old(Entries())[i].value == ret
                && old(Highest(tree, key)) == Some(old(Entries())[i])
                && Entries() == Without(old(Entries()), i) && old(Entries())[i].id !in nodes
    {
      var n, k, t, _ := FindNode(key);
      i := 0;
      if n.None? {
        return OID_NULL, i;
      }
      ret := nodes[n.value].value;
      i := |Pre(k, t)|;
      EntryAt(k, t);
      RemoveNode(n.value, k, t, i);
      GoneFromTree(old(tree), tree, i);
      SortedWithout(old(Entries()), i);
      ghost var before := nodes;
      nodes := nodes - {n.value};
      Elsewhere(before, nodes, s, r, Top, tree, n.value);
    }
  }

  function Without(s: seq<Entry>, i: nat): seq<Entry>
    requires i < |s|
  {
    s[..i] + s[i + 1..]
  }

  lemma SortedWithout(s: seq<Entry>, i: nat)
    requires i < |s| && Sorted(s)
    ensures Sorted(Without(s, i))
  {
  }

  /** The entries before and after a node. */
  function Pre(k: Ctx, t: Tree): seq<Entry>
    requires t.Node?
  {
    Before(k) + Inorder(t.left)
  }

  function Post(k: Ctx, t: Tree): seq<Entry>
    requires t.Node?
  {
    Inorder(t.right) + After(k)
  }

  lemma NodeEntries(k: Ctx, t: Tree)
    requires t.Node?
    ensures Inorder(Plug(k, t)) == Pre(k, t) + [t.e] + Post(k, t)
  {
    PlugInorder(k, t);
    Associate(Before(k), Inorder(t.left), t.e, Inorder(t.right), After(k));
  }

  lemma Associate(a: seq<Entry>, l: seq<Entry>, e: Entry, r: seq<Entry>, b: seq<Entry>)
    ensures a + (l + [e] + r) + b == a + l + [e] + (r + b)
  {
  }

  lemma Middle(a: seq<Entry>, x: Entry, y: Entry, b: seq<Entry>)
    ensures |a| < |a + [x] + b| && (a + [x] + b)[|a|] == x
    ensures Without(a + [x] + b, |a|) == a + b && (a + [x] + b)[|a| := y] == a + [y] + b
  {
  }

  /** A node's entry in the order. */
  lemma EntryAt(k: Ctx, t: Tree)
    requires t.Node?
    ensures var i, s := |Pre(k, t)|, Inorder(Plug(k, t));
      i < |s| && s[i] == t.e && Without(s, i) == Pre(k, t) + Post(k, t)
  {
    NodeEntries(k, t);
    Middle(Pre(k, t), t.e, t.e, Post(k, t));
  }

  lemma OnlyChildEntries(k: Ctx, t: Tree)
    requires t.Node? && (t.left.Leaf? || t.right.Leaf?)
    ensures Inorder(Plug(k, OnlyChild(t))) == Pre(k, t) + Post(k, t)
  {
    PlugInorder(k, OnlyChild(t));
    var l, r := Inorder(t.left), Inorder(t.right);
    if t.left.Leaf? {
      assert Before(k) + r + After(k) == Before(k) + [] + (r + After(k));
    } else {
      assert Before(k) + l + After(k) == Before(k) + l + ([] + After(k));
    }
  }

  /** Taking a node out removes its entry from the order. */
  lemma SplicedEntries(k: Ctx, t: Tree)
    requires t.Node? && (t.left.Leaf? || t.right.Leaf?)
    ensures var i, s := |Pre(k, t)|, Inorder(Plug(k, t));
      i < |s| && s[i] == t.e && Inorder(Plug(k, OnlyChild(t))) == Without(s, i)
  {
    EntryAt(k, t);
    OnlyChildEntries(k, t);
  }

  /** Taking the next node out removes the next entry. */
  lemma NextEntries(tree: Tree, k: Ctx, t: Tree, k': Ctx, t': Tree)
    requires t.Node? && t'.Node? && t'.left.Leaf? && Plug(k, t) == tree && Plug(k', t') == tree
    requires Before(k') == Pre(k, t) + [t.e]
    ensures var i, s := |Pre(k, t)|, Inorder(tree);
      && i + 1 < |s| && s[i] == t.e && s[i + 1] == t'.e
      && Inorder(Plug(k', OnlyChild(t'))) == Without(s, i + 1)
  {
    assert Pre(k', t') == Before(k');
    EntryAt(k, t);
    SplicedEntries(k', t');
  }

  lemma SuccessorReads(h: Heap, s: nat, r: nat, k: Ctx, t: Tree)
    requires At(h, s, r, k, t) && t.Node?
    ensures t.e.id in h && t.e.id != s && t.e.id != r && t.e == Entry(t.e.id, h[t.e.id].key, h[t.e.id].value)
  {
  }

  lemma {:induction false} PlugIds(k: Ctx, t: Tree)
    ensures Ids(Plug(k, t)) == Ids(t) + CtxIds(k)
  {
    if k.In? {
      PlugIds(k.up, Outer(k, t));
      Side(Outer(k, t), k.c);
    }
  }

  /** A node's place in the order is that of its object. */
  lemma PlaceOf(k: Ctx, t: Tree, i: nat)
    requires t.Node? && Distinct(Plug(k, t)) && i < |Inorder(Plug(k, t))| && Inorder(Plug(k, t))[i].id == t.e.id
    ensures i == |Pre(k, t)|
  {
    EntryAt(k, t);
    var n := |Pre(k, t)|;
    if i < n { DistinctInorder(Plug(k, t), i, n); } else if n < i { DistinctInorder(Plug(k, t), n, i); }
  }

  lemma ReplacedEntry(k: Ctx, t: Tree, e: Entry)
    requires t.Node?
    ensures |Pre(k, t)| < |Inorder(Plug(k, t))|
    ensures Inorder(Plug(k, t.(e := e))) == Inorder(Plug(k, t))[|Pre(k, t)| := e]
  {
    NodeEntries(k, t);
    NodeEntries(k, t.(e := e));
    Middle(Pre(k, t), t.e, e, Post(k, t));
  }

  lemma PlacedEntries(was: Tree, k: Ctx, t: Tree, i: nat)
    requires t.Node? && Distinct(Plug(k, t)) && i + 1 < |Inorder(was)|
    requires Inorder(Plug(k, t)) == Without(Inorder(was), i + 1) && t.e.id == Inorder(was)[i].id
    ensures Inorder(Plug(k, t.(e := Inorder(was)[i + 1]))) == Without(Inorder(was), i)
  {
    var s, e := Inorder(was), Inorder(was)[i + 1];
    PlaceOf(k, t, i);
    ReplacedEntry(k, t, e);
    assert Without(s, i + 1)[i := e] == Without(s, i);
  }

  lemma PlacedIsRedBlack(k: Ctx, t: Tree, e: Entry)
    requires t.Node? && RedBlack(Plug(k, t))
    ensures RedBlack(Plug(k, t.(e := e)))
  {
    PlugEven(k, t);
    PlugEven(k, t.(e := e));
    PlugNoRedRed(k, t);
    PlugNoRedRed(k, t.(e := e));
    BlackTopOf(k, t);
    PlugRoot(k, t.(e := e));
  }

  lemma SpliceReads(h: Heap, s: nat, r: nat, k: Ctx, t: Tree)
    requires At(h, s, r, k, t) && t.Node? && (t.left.Leaf? || t.right.Leaf?)
    ensures t.e.id in h && h[t.e.id].parent == ParentOf(k, r) && ParentOf(k, r) in h &&
      (ParentOf(k, r) == r <==> k.Top?)
    ensures IdOf(OnlyChild(t), s) in h && IdOf(OnlyChild(t), s) != ParentOf(k, r) && IdOf(OnlyChild(t), s) != t.e.id
    ensures (if h[t.e.id].left == s then h[t.e.id].right else h[t.e.id].left) == IdOf(OnlyChild(t), s)
    ensures t.e.id == h[ParentOf(k, r)].right <==> SideOf(k)
    ensures t.e.id != s && t.e.id != ParentOf(k, r) && ParentOf(k, r) != s && h[t.e.id].color == t.color
    ensures ParentOf(k, r) !in Ids(OnlyChild(t)) && t.e.id !in Ids(OnlyChild(t)) && t.e.id !in CtxIds(k)
  {
    Down(h, s, r, k, t, true);
    Down(h, s, r, k, t, false);
    Location(h, s, r, t.e.id, k);
  }

  lemma HasLeaf(h: Heap, s: nat, r: nat, k: Ctx, t: Tree)
    requires At(h, s, r, k, t) && t.Node? && t.e.id in h && (h[t.e.id].left == s || h[t.e.id].right == s)
    ensures t.left.Leaf? || t.right.Leaf?
  {
    Down(h, s, r, k, t, true);
    Down(h, s, r, k, t, false);
  }

  lemma PlaceReads(h: Heap, s: nat, r: nat, k: Ctx, t: Tree)
    requires At(h, s, r, k, t) && t.Node?
    ensures var p, a, b := ParentOf(k, r), IdOf(t.left, s), IdOf(t.right, s);
      && t.e.id in h && h[t.e.id] == Cell(t.e.key, t.e.value, t.color, p, a, b)
      && p in h && a in h && b in h && p != t.e.id && p != a && p != b && a != t.e.id && b != t.e.id && p != s
      && (t.e.id == h[p].right <==> SideOf(k)) && t.e.id != s && (a == b ==> a == s)
  {
    Down(h, s, r, k, t, true);
    Down(h, s, r, k, t, false);
    Location(h, s, r, t.e.id, k);
  }

  lemma NodeReads(h: Heap, s: nat, r: nat, k: Ctx, t: Tree, c: bool)
    requires At(h, s, r, k, t) && t.Node?
    ensures t.e.id in h && h[t.e.id].parent == ParentOf(k, r)
    ensures IdOf(Child(t, c), s) in h && (Child(t, c).Node? ==> h[IdOf(Child(t, c), s)].parent == t.e.id)
  {
    Down(h, s, r, k, t, c);
  }

  /** The sibling of a short tree, and its children. */
  lemma SiblingReads(h: Heap, s: nat, r: nat, k: Ctx, t: Tree)
    requires At(h, s, r, k, t) && k.In? && k.sib.Node?
    ensures k.e.id in h && Slot(h[k.e.id], !k.c) == k.sib.e.id && k.sib.e.id in h
    ensures h[k.sib.e.id].left in h && h[k.sib.e.id].right in h
    ensures h[h[k.sib.e.id].left].color.Red? <==> IsRed(k.sib.left)
    ensures h[h[k.sib.e.id].right].color.Red? <==> IsRed(k.sib.right)
  {
    ParentReads(h, s, r, k, t);
    ChildReads(h, s, r, In(!k.c, k.e, k.color, t, k.up), k.sib, false);
    ChildReads(h, s, r, In(!k.c, k.e, k.color, t, k.up), k.sib, true);
  }

  lemma PaidIsNode(k: Ctx, t: Tree, t': Tree)
    requires k.In? && Inorder(t') == Inorder(Plug(k, t))
    ensures t'.Node?
  {
    PlugInorder(k, t);
  }

  /** The first node is the one without a parent in the tree. */
  lemma FirstReads(h: Heap, s: nat, r: nat, k: Ctx, t: Tree)
    requires At(h, s, r, k, t)
    ensures r in h && IdOf(t, s) in h && (IdOf(t, s) == h[r].left <==> k.Top?)
    ensures h[IdOf(t, s)].color.Red? <==> IsRed(t)
  {
    Out(h, s, r, k, t);
    if k.In? { RootInCtx(k, t); }
  }

  lemma {:induction false} RootInCtx(k: Ctx, t: Tree)
    requires k.In?
    ensures Plug(k, t).Node? && Plug(k, t).e.id in CtxIds(k)
  {
    if k.up.In? { RootInCtx(k.up, Outer(k, t)); }
  }

  lemma BlackenAt(h: Heap, s: nat, r: nat, k: Ctx, t: Tree)
    requires At(h, s, r, k, t) && IdOf(t, s) in h
    ensures At(Painted(h, IdOf(t, s), Black), s, r, k, Blackened(t))
    ensures SameEntries(Plug(k, t), Plug(k, Blackened(t)))
  {
    PlugInorder(k, t);
    PlugInorder(k, Blackened(t));
    if t.Node? {
      Paint(h, s, r, k, t, Black);
    } else {
      assert Painted(h, s, Black) == h;
    }
  }

  lemma LeftStep(k: Ctx, t: Tree)
    requires t.Node?
    ensures Before(In(false, t.e, t.color, t.right, k)) == Before(k)
    ensures Inorder(t.left) + After(In(false, t.e, t.color, t.right, k)) == Inorder(t) + After(k)
  {
  }

  /** No entry around the hole has the key. */
  ghost predicate Apart(k: Ctx, key: nat) {
    forall e :: e in Before(k) || e in After(k) ==> e.key != key
  }

  lemma EntryIsThere(k: Ctx, t: Tree)
    requires t.Node?
    ensures t.e in Inorder(Plug(k, t))
  {
    EntryAt(k, t);
  }

  lemma NotThere(k: Ctx, key: nat)
    requires Apart(k, key)
    ensures forall e :: e in Inorder(Plug(k, Leaf)) ==> e.key != key
  {
    PlugInorder(k, Leaf);
  }

  lemma VisitsBound(t: Tree, visited: nat)
    requires RedBlack(t) && visited <= Height(t)
    ensures Pow2((visited + 1) / 2) <= |Inorder(t)| + 1
  {
    HeightIsLogarithmic(t);
    Pow2Grows((visited + 1) / 2, (Height(t) + 1) / 2);
  }

  /** One step down, on side `c`. */
  lemma Descend(h: Heap, s: nat, r: nat, k: Ctx, t: Tree, c: bool)
    requires At(h, s, r, k, t) && t.Node?
    ensures At(h, s, r, In(c, t.e, t.color, Child(t, !c), k), Child(t, c))
    ensures t.e.id in h && Slot(h[t.e.id], c) == IdOf(Child(t, c), s)
    ensures Plug(In(c, t.e, t.color, Child(t, !c), k), Child(t, c)) == Plug(k, t)
    ensures Child(t, c) < t && Height(Child(t, c)) < Height(t)
  {
    ChildReads(h, s, r, k, t, c);
    Down(h, s, r, k, t, c);
    Side(t, c);
  }

  /** A key that is not here can only lie on one side. */
  lemma SearchPast(k: Ctx, t: Tree, key: nat)
    requires t.Node? && t.e.key != key && Sorted(Inorder(Plug(k, t)))
    requires Apart(k, key)
    ensures Apart(In(key > t.e.key, t.e, t.color, Child(t, !(key > t.e.key)), k), key)
  {
    PlugInorder(k, t);
    SortedAround(Before(k), Inorder(t.left), t.e, Inorder(t.right), After(k));
  }

  lemma NewObject(h: Heap, s: nat, r: nat, t: Tree, n: nat)
    requires At(h, s, r, Top, t) && n !in h
    ensures n !in Ids(t) && n != s && n != r
  {
    IdsInHeap(h, s, r, t, n);
  }

  lemma {:induction false} IdsInHeap(h: Heap, s: nat, p: nat, t: Tree, n: nat)
    requires TreeAt(h, s, p, t) && n !in h
    ensures n !in Ids(t)
    decreases t
  {
    if t.Node? {
      IdsInHeap(h, s, t.e.id, t.left, n);
      IdsInHeap(h, s, t.e.id, t.right, n);
    }
  }

  /** The uncle of a node with a grandparent. */
  lemma UncleReads(h: Heap, s: nat, r: nat, k: Ctx, t: Tree)
    requires At(h, s, r, k, t) && t.Node? && k.In? && k.up.In?
    ensures t.e.id in h && h[t.e.id].parent == k.e.id && k.e.id in h && h[k.e.id].parent == k.up.e.id && k.up.e.id in h
    ensures Slot(h[k.up.e.id], !k.up.c) == IdOf(k.up.sib, s) && IdOf(k.up.sib, s) in h
    ensures h[IdOf(k.up.sib, s)].color.Red? <==> IsRed(k.up.sib)
    ensures t.e.id == Slot(h[k.e.id], !k.up.c) <==> k.c == !k.up.c
  {
    assert CtxAt(h, s, r, k.e.id, k.up) && TreeAt(h, s, k.up.e.id, k.up.sib);
    if k.sib.Node? { assert k.sib.e.id in Ids(k.sib); }
  }

  /** A red parent has a parent, and lies on the side `NODE_LOCATION` finds. */
  lemma GrandparentReads(h: Heap, s: nat, r: nat, k: Ctx, t: Tree)
    requires At(h, s, r, k, t) && t.Node? && t.e.id in h && h[t.e.id].parent in h && h[h[t.e.id].parent].color.Red? &&
      BlackTop(k)
    ensures k.In? && k.color.Red? && k.up.In? && k.e.id in h && h[k.e.id].parent == k.up.e.id && k.up.e.id in h
    ensures k.e.id == h[k.up.e.id].right <==> k.up.c
  {
    Up(h, s, r, k, t);
    Location(h, s, r, k.e.id, k.up);
  }

  /** Where an entry with the key goes: in front of all that are not smaller. */
  predicate LowerBound(s: seq<Entry>, key: nat, i: nat) {
    i <= |s| && forall j :: 0 <= j < |s| ==> (j < i <==> s[j].key < key)
  }

  lemma InsertedInOrder(k: Ctx, tree: Tree, t: Tree, key: nat)
    requires Plug(k, Leaf) == tree && t.Node? && Inorder(t) == [t.e] && t.e.key == key
    requires SearchedTo(k, key) && Sorted(Inorder(tree))
    ensures var i, was := |Before(k)|, Inorder(tree);
      && LowerBound(was, key, i)
      && Inorder(Plug(k, t)) == was[..i] + [t.e] + was[i..] && Sorted(Inorder(Plug(k, t)))
  {
    var a, b := Before(k), After(k);
    PlugInorder(k, Leaf);
    PlugInorder(k, t);
    assert Inorder(tree) == a + b;
    assert Inorder(Plug(k, t)) == a + [t.e] + b;
    SplitAt(a, b, t.e, key);
  }

  lemma SplitAt(a: seq<Entry>, b: seq<Entry>, e: Entry, key: nat)
    requires e.key == key && Sorted(a + b)
    requires (forall i :: 0 <= i < |a| ==> a[i].key < key) && (forall i :: 0 <= i < |b| ==> b[i].key >= key)
    ensures a + [e] + b == (a + b)[..|a|] + [e] + (a + b)[|a|..] && Sorted(a + [e] + b)
    ensures LowerBound(a + b, key, |a|)
  {
    var s, s' := a + b, a + [e] + b;
    assert s[..|a|] == a && s[|a|..] == b;
    forall i, j | 0 <= i < j < |s'| ensures s'[i].key <= s'[j].key {
      assert if i < |a| then s'[i] == s[i] else if i == |a| then s'[i] == e else s'[i] == s[i - 1];
      assert if j < |a| then s'[j] == s[j] else if j == |a| then s'[j] == e else s'[j] == s[j - 1];
    }
  }

  /** When the parent is black, only the first node can still be red. */
  lemma InsertedIsBalanced(h: Heap, s: nat, r: nat, k: Ctx, t: Tree)
    requires At(h, s, r, k, t) && Inserting(k, t) && (k.In? ==> k.color.Black?)
    ensures Plug(k, t).Node? && RedBlack(Plug(k, t).(color := Black)) && At(h, s, r, Top, Plug(k, t))
    ensures Inorder(Plug(k, t).(color := Black)) == Inorder(Plug(k, t))
  {
    PlugEven(k, t);
    assert NoRedRedCtx(k, true);
    PlugNoRedRed(k, t);
    Out(h, s, r, k, t);
    PlugNode(k, t);
  }

  lemma {:induction false} PlugNode(k: Ctx, t: Tree)
    requires t.Node?
    ensures Plug(k, t).Node?
  {
    if k.In? { PlugNode(k.up, Outer(k, t)); }
  }
}
