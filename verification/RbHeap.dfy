/** How a red-black tree lies in the object pool: a sentinel for all leaves and a
    header whose left slot holds the first node. */
module RbHeap {
  import opened RbTree
  import opened RbRepair

  /** A tree_map_node. */
  datatype Cell = Cell(key: nat, value: nat, color: Color, parent: nat, left: nat, right: nat)

  type Heap = map<nat, Cell>

  function Slot(n: Cell, c: bool): nat {
    if c then n.right else n.left
  }

  function WithSlot(n: Cell, c: bool, x: nat): Cell {
    if c then n.(right := x) else n.(left := x)
  }

  function MakeCell(e: Entry, color: Color, p: nat, c: bool, x: nat, y: nat): Cell {
    if c then Cell(e.key, e.value, color, p, y, x) else Cell(e.key, e.value, color, p, x, y)
  }

  function IdOf(t: Tree, s: nat): nat {
    if t.Leaf? then s else t.e.id
  }

  function ParentOf(k: Ctx, r: nat): nat {
    if k.Top? then r else k.e.id
  }

  /** The nodes of `t`, below `p`. */
  predicate TreeAt(h: Heap, s: nat, p: nat, t: Tree)
    decreases t
  {
    t.Node? ==>
      && t.e.id in h
      && h[t.e.id] == MakeCell(t.e, t.color, p, false, IdOf(t.left, s), IdOf(t.right, s))
      && TreeAt(h, s, t.e.id, t.left) && TreeAt(h, s, t.e.id, t.right)
  }

  /** The nodes around the hole, which holds `x`. */
  predicate CtxAt(h: Heap, s: nat, r: nat, x: nat, k: Ctx)
    decreases k
  {
    if k.Top? then r in h && h[r].left == x && h[r].right == s && h[r].color.Black?
    else
      && k.e.id in h
      && h[k.e.id] == MakeCell(k.e, k.color, ParentOf(k.up, r), k.c, x, IdOf(k.sib, s))
      && TreeAt(h, s, k.e.id, k.sib) && CtxAt(h, s, r, k.e.id, k.up)
  }

  /** Tree `t` lies in the hole of `k`. */
  predicate At(h: Heap, s: nat, r: nat, k: Ctx, t: Tree) {
    && CtxAt(h, s, r, IdOf(t, s), k) && TreeAt(h, s, ParentOf(k, r), t)
    && Distinct(t) && DistinctCtx(k) && Ids(t) !! CtxIds(k)
    && s != r && s !in Ids(t) && s !in CtxIds(k) && r !in Ids(t) && r !in CtxIds(k)
    && s in h && h[s].color.Black?
  }

  lemma Up(h: Heap, s: nat, r: nat, k: Ctx, t: Tree)
    requires At(h, s, r, k, t) && k.In?
    ensures At(h, s, r, k.up, Make(k.e, k.color, k.c, t, k.sib))
  {
  }

  lemma Down(h: Heap, s: nat, r: nat, k: Ctx, t: Tree, c: bool)
    requires At(h, s, r, k, t) && t.Node?
    ensures At(h, s, r, In(c, t.e, t.color, Child(t, !c), k), Child(t, c))
    ensures Slot(h[t.e.id], c) == IdOf(Child(t, c), s)
  {
  }

  lemma {:induction false} Out(h: Heap, s: nat, r: nat, k: Ctx, t: Tree)
    requires At(h, s, r, k, t)
    ensures At(h, s, r, Top, Plug(k, t))
  {
    if k.In? {
      Up(h, s, r, k, t);
      Out(h, s, r, k.up, Make(k.e, k.color, k.c, t, k.sib));
    }
  }

  /** A node seen from its side `c`. */
  lemma TreeSide(h: Heap, s: nat, p: nat, t: Tree, c: bool)
    requires t.Node?
    ensures TreeAt(h, s, p, t) <==>
              && t.e.id in h
              && h[t.e.id] == MakeCell(t.e, t.color, p, c, IdOf(Child(t, c), s), IdOf(Child(t, !c), s))
              && TreeAt(h, s, t.e.id, Child(t, c)) && TreeAt(h, s, t.e.id, Child(t, !c))
  {
  }

  // ---------------------------------------------------------------------------
  // Frames
  // ---------------------------------------------------------------------------

  predicate Same(h: Heap, h': Heap, ids: set<nat>) {
    forall i :: i in ids && i in h ==> i in h' && h'[i] == h[i]
  }

  lemma {:induction false} TreeFrame(h: Heap, h': Heap, s: nat, p: nat, t: Tree)
    requires TreeAt(h, s, p, t) && Same(h, h', Ids(t))
    ensures TreeAt(h', s, p, t)
    decreases t
  {
    if t.Node? {
      TreeFrame(h, h', s, t.e.id, t.left);
      TreeFrame(h, h', s, t.e.id, t.right);
    }
  }

  lemma {:induction false} CtxFrame(h: Heap, h': Heap, s: nat, r: nat, x: nat, k: Ctx)
    requires CtxAt(h, s, r, x, k) && Same(h, h', CtxIds(k) + {r})
    ensures CtxAt(h', s, r, x, k)
    decreases k
  {
    if k.In? {
      TreeFrame(h, h', s, k.e.id, k.sib);
      CtxFrame(h, h', s, r, k.e.id, k.up);
    }
  }

  function SideOf(k: Ctx): bool {
    k.In? && k.c
  }

  /** Putting `y` into the hole. */
  lemma CtxFill(h: Heap, h': Heap, s: nat, r: nat, x: nat, y: nat, k: Ctx)
    requires CtxAt(h, s, r, x, k) && r !in CtxIds(k) && DistinctCtx(k)
    requires var p := ParentOf(k, r);
      p in h && p in h' && h'[p] == WithSlot(h[p], SideOf(k), y) && Same(h, h', CtxIds(k) + {r} - {p})
    ensures CtxAt(h', s, r, y, k)
  {
    if k.In? {
      TreeFrame(h, h', s, k.e.id, k.sib);
      CtxFrame(h, h', s, r, k.e.id, k.up);
    }
  }

  /** The slot of the hole's parent that `NODE_LOCATION` finds is the hole. */
  lemma Location(h: Heap, s: nat, r: nat, x: nat, k: Ctx)
    requires CtxAt(h, s, r, x, k) && x != s && x !in CtxIds(k)
    ensures ParentOf(k, r) in h && (x == h[ParentOf(k, r)].right <==> SideOf(k))
  {
    if k.In? && k.sib.Node? { assert k.sib.e.id in Ids(k.sib); }
  }

  // ---------------------------------------------------------------------------
  // Single writes
  // ---------------------------------------------------------------------------

  function Painted(h: Heap, x: nat, color: Color): Heap
    requires x in h
  {
    h[x := h[x].(color := color)]
  }

  lemma Paint(h: Heap, s: nat, r: nat, k: Ctx, t: Tree, color: Color)
    requires At(h, s, r, k, t) && t.Node?
    ensures At(Painted(h, t.e.id, color), s, r, k, t.(color := color))
  {
    var h' := Painted(h, t.e.id, color);
    TreeFrame(h, h', s, t.e.id, t.left);
    TreeFrame(h, h', s, t.e.id, t.right);
    CtxFrame(h, h', s, r, t.e.id, k);
  }

  /** Moving a subtree below another parent. */
  lemma Reparent(h: Heap, h': Heap, s: nat, p: nat, p': nat, t: Tree)
    requires TreeAt(h, s, p, t) && Distinct(t)
    requires t.Node? ==> t.e.id in h' && h'[t.e.id] == h[t.e.id].(parent := p') && Same(h, h', Ids(t) - {t.e.id})
    ensures TreeAt(h', s, p', t)
  {
    if t.Node? {
      TreeFrame(h, h', s, t.e.id, t.left);
      TreeFrame(h, h', s, t.e.id, t.right);
    }
  }

  /** What the writes of a rotation amount to. */
  predicate RotationWrites(h: Heap, h': Heap, s: nat, r: nat, k: Ctx, t: Tree, c: bool)
    requires At(h, s, r, k, t) && t.Node? && Child(t, !c).Node?
  {
    var b, p := Child(t, !c), ParentOf(k, r);
    var m := Child(b, c);
    && t.e.id in h' && b.e.id in h' && p in h' && p in h && s in h' && h'[s] == h[s]
    && h'[t.e.id] == MakeCell(t.e, t.color, b.e.id, c, IdOf(Child(t, c), s), IdOf(m, s))
    && h'[b.e.id] == MakeCell(b.e, b.color, p, c, t.e.id, IdOf(Child(b, !c), s))
    && h'[p] == WithSlot(h[p], t.e.id == h[p].right, b.e.id)
    && (m.Node? ==> m.e.id in h && m.e.id in h' && h'[m.e.id] == h[m.e.id].(parent := t.e.id))
    && Same(h, h', Ids(t) + CtxIds(k) + {r} - {t.e.id, b.e.id, p, IdOf(m, s)})
  }

  lemma RotationTree(h: Heap, h': Heap, s: nat, r: nat, k: Ctx, t: Tree, c: bool)
    requires At(h, s, r, k, t) && t.Node? && Child(t, !c).Node? && RotationWrites(h, h', s, r, k, t, c)
    ensures TreeAt(h', s, ParentOf(k, r), Rotated(t, c))
  {
    var b := Child(t, !c);
    var u := Make(t.e, t.color, c, Child(t, c), Child(b, c));
    Side(t, c);
    Side(b, c);
    TreeSide(h, s, ParentOf(k, r), t, c);
    TreeSide(h, s, t.e.id, b, c);
    TreeSide(h', s, b.e.id, u, c);
    TreeSide(h', s, ParentOf(k, r), Rotated(t, c), c);
    TreeFrame(h, h', s, t.e.id, Child(t, c));
    TreeFrame(h, h', s, b.e.id, Child(b, !c));
    Reparent(h, h', s, b.e.id, t.e.id, Child(b, c));
  }

  lemma Rotate(h: Heap, h': Heap, s: nat, r: nat, k: Ctx, t: Tree, c: bool)
    requires At(h, s, r, k, t) && t.Node? && Child(t, !c).Node? && RotationWrites(h, h', s, r, k, t, c)
    ensures At(h', s, r, k, Rotated(t, c))
  {
    RotationTree(h, h', s, r, k, t, c);
    RotationKeepsIds(t, c);
    Location(h, s, r, t.e.id, k);
    CtxFill(h, h', s, r, t.e.id, Child(t, !c).e.id, k);
  }

  /** The objects a rotation reads are all different. */
  lemma RotationReads(h: Heap, s: nat, r: nat, k: Ctx, t: Tree, c: bool)
    requires At(h, s, r, k, t) && t.Node? && Child(t, !c).Node?
    ensures var b, p := Child(t, !c), ParentOf(k, r);
      var m := Child(b, c);
      && t.e.id in h && b.e.id in h && p in h && t.e.id != b.e.id && p != t.e.id && p != b.e.id && s != p
      && s != t.e.id && s != b.e.id
      && h[t.e.id] == MakeCell(t.e, t.color, p, c, IdOf(Child(t, c), s), b.e.id)
      && h[b.e.id] == MakeCell(b.e, b.color, t.e.id, c, IdOf(m, s), IdOf(Child(b, !c), s))
      && (m.Node? ==> m.e.id in h && m.e.id != t.e.id && m.e.id != b.e.id && m.e.id != p && m.e.id != s)
  {
    Side(t, c);
    Side(Child(t, !c), c);
    TreeSide(h, s, ParentOf(k, r), t, c);
    TreeSide(h, s, t.e.id, Child(t, !c), c);
  }

  /** Hanging a new node into an empty hole. */
  lemma Attach(h: Heap, h': Heap, s: nat, r: nat, k: Ctx, n: nat)
    requires At(h, s, r, k, Leaf) && n !in CtxIds(k) && n != s && n != r && n in h'
    requires h'[n].parent == ParentOf(k, r) && h'[n].left == s && h'[n].right == s
    requires var p := ParentOf(k, r);
      p in h && p in h' && h'[p] == WithSlot(h[p], SideOf(k), n) && Same(h, h', CtxIds(k) + {r, s} - {p})
    ensures At(h', s, r, k, Node(Entry(n, h'[n].key, h'[n].value), h'[n].color, Leaf, Leaf))
  {
    CtxFill(h, h', s, r, s, n, k);
  }

  /** From a subtree to the one beside it. */
  lemma Across(h: Heap, s: nat, r: nat, k: Ctx, t: Tree)
    requires At(h, s, r, k, t) && k.In?
    ensures At(h, s, r, In(!k.c, k.e, k.color, t, k.up), k.sib)
  {
    Up(h, s, r, k, t);
    Side(Outer(k, t), !k.c);
    Down(h, s, r, k.up, Outer(k, t), !k.c);
  }

  /** Writing an object outside the tree. */
  lemma Elsewhere(h: Heap, h': Heap, s: nat, r: nat, k: Ctx, t: Tree, n: nat)
    requires At(h, s, r, k, t) && n !in Ids(t) && n !in CtxIds(k) && n != s && n != r
    requires Same(h, h', Ids(t) + CtxIds(k) + {s, r})
    ensures At(h', s, r, k, t)
  {
    TreeFrame(h, h', s, ParentOf(k, r), t);
    CtxFrame(h, h', s, r, IdOf(t, s), k);
  }

  /** Any part of the tree can be looked at. */
  lemma {:induction false} Into(h: Heap, s: nat, r: nat, k: Ctx, t: Tree)
    requires At(h, s, r, Top, Plug(k, t))
    ensures At(h, s, r, k, t)
  {
    if k.In? {
      Into(h, s, r, k.up, Outer(k, t));
      Side(Outer(k, t), k.c);
      Down(h, s, r, k.up, Outer(k, t), k.c);
    }
  }

  /** The objects around a hole. */
  lemma ParentReads(h: Heap, s: nat, r: nat, k: Ctx, t: Tree)
    requires At(h, s, r, k, t) && k.In?
    ensures k.e.id in h && h[k.e.id] == MakeCell(k.e, k.color, ParentOf(k.up, r), k.c, IdOf(t, s), IdOf(k.sib, s))
    ensures At(h, s, r, In(!k.c, k.e, k.color, t, k.up), k.sib) && At(h, s, r, k.up, Outer(k, t))
    ensures IdOf(t, s) in h && IdOf(k.sib, s) in h && (h[IdOf(k.sib, s)].color.Red? <==> IsRed(k.sib))
    ensures h[IdOf(t, s)].color.Red? <==> IsRed(t)
    ensures k.sib.Node? ==> (IdOf(t, s) == h[k.e.id].right <==> k.c)
  {
    Up(h, s, r, k, t);
    Across(h, s, r, k, t);
    if k.sib.Node? { assert k.sib.e.id in Ids(k.sib); }
  }

  /** The children of a node and their colors. */
  lemma ChildReads(h: Heap, s: nat, r: nat, k: Ctx, t: Tree, c: bool)
    requires At(h, s, r, k, t) && t.Node?
    ensures t.e.id in h && Slot(h[t.e.id], c) == IdOf(Child(t, c), s) && IdOf(Child(t, c), s) in h
    ensures h[IdOf(Child(t, c), s)].color.Red? <==> IsRed(Child(t, c))
  {
    Down(h, s, r, k, t, c);
  }

  /** Taking a node with at most one child, `x`, out of the tree. */
  lemma Splice(h: Heap, h': Heap, s: nat, r: nat, k: Ctx, t: Tree)
    requires At(h, s, r, k, t) && t.Node? && (t.left.Leaf? || t.right.Leaf?)
    requires var p, x := ParentOf(k, r), IdOf(OnlyChild(t), s);
      && p in h && x in h && x != p && x in h' && h'[x] == h[x].(parent := p)
      && p in h' && h'[p] == WithSlot(h[p], SideOf(k), x)
      && s in h' && h'[s].color.Black? && Same(h, h', Ids(OnlyChild(t)) + CtxIds(k) + {r} - {x, p})
    ensures At(h', s, r, k, OnlyChild(t))
  {
    var x := OnlyChild(t);
    Reparent(h, h', s, t.e.id, ParentOf(k, r), x);
    CtxFill(h, h', s, r, t.e.id, IdOf(x, s), k);
  }

  /** Putting object `y` with another entry in the place of a node. */
  lemma Replace(h: Heap, h': Heap, s: nat, r: nat, k: Ctx, t: Tree, y: nat)
    requires At(h, s, r, k, t) && t.Node? && y !in Ids(t) && y !in CtxIds(k) && y != s && y != r && y in h'
    requires var p, a, b := ParentOf(k, r), IdOf(t.left, s), IdOf(t.right, s);
      && p in h && p in h' && h'[p] == WithSlot(h[p], SideOf(k), y)
      && h'[y].color == t.color && h'[y].parent == p && h'[y].left == a && h'[y].right == b
      && a in h && a in h' && h'[a] == h[a].(parent := y) && b in h && b in h' && h'[b] == h[b].(parent := y)
      && s in h' && h'[s].color.Black? && Same(h, h', Ids(t) + CtxIds(k) + {r} - {t.e.id, a, b, p})
    ensures At(h', s, r, k, t.(e := Entry(y, h'[y].key, h'[y].value)))
  {
    Reparent(h, h', s, t.e.id, y, t.left);
    Reparent(h, h', s, t.e.id, y, t.right);
    CtxFill(h, h', s, r, t.e.id, y, k);
  }
}
