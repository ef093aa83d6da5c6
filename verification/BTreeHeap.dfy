/** How a B-tree lies in the object pool. */
module BTreeHeap {
  import opened BTree

  const EMPTY_ITEM: Item := Item(0, 0)

  /** A tree_map_node; object 0 is the null object. */
  datatype Cell = Cell(n: nat, items: seq<Item>, slots: seq<nat>)

  type Heap = map<nat, Cell>

  const ZERO: Cell := Cell(0, seq(ORDER - 1, _ => EMPTY_ITEM), seq(ORDER, _ => 0))

  /** Unused places are empty. */
  function Pad(items: seq<Item>): (s: seq<Item>)
    requires |items| <= ORDER - 1
    ensures |s| == ORDER - 1
  {
    items + seq(ORDER - 1 - |items|, _ => EMPTY_ITEM)
  }

  function PadIds(ids: seq<nat>): (s: seq<nat>)
    requires |ids| <= ORDER
    ensures |s| == ORDER
  {
    ids + seq(ORDER - |ids|, _ => 0)
  }

  function CellOf(items: seq<Item>, ids: seq<nat>): Cell
    requires |items| <= ORDER - 1 && |ids| <= ORDER
  {
    Cell(|items|, Pad(items), PadIds(ids))
  }

  function IdsOf(kids: seq<Tree>): (s: seq<nat>)
    ensures |s| == |kids| && forall i :: 0 <= i < |s| ==> s[i] == kids[i].id
  {
    seq(|kids|, i requires 0 <= i < |kids| => kids[i].id)
  }

  predicate TreeAt(h: Heap, t: Tree)
    decreases t
  {
    && t.id != 0 && t.id in h && |t.items| <= ORDER - 1 && |t.kids| <= ORDER
    && h[t.id] == CellOf(t.items, IdsOf(t.kids))
    && forall i :: 0 <= i < |t.kids| ==> TreeAt(h, t.kids[i])
  }

  predicate AllAt(h: Heap, ts: seq<Tree>) {
    forall i :: 0 <= i < |ts| ==> TreeAt(h, ts[i])
  }

  function Ids(t: Tree): set<nat>
    decreases t
  {
    {t.id} + IdsF(t.kids)
  }

  function IdsF(ts: seq<Tree>): set<nat>
    decreases ts
  {
    if ts == [] then {} else Ids(ts[0]) + IdsF(ts[1..])
  }

  predicate Distinct(t: Tree)
    decreases t
  {
    t.id !in IdsF(t.kids) && DistinctF(t.kids)
  }

  predicate DistinctF(ts: seq<Tree>)
    decreases ts
  {
    ts != [] ==> Distinct(ts[0]) && DistinctF(ts[1..]) && Ids(ts[0]) !! IdsF(ts[1..])
  }

  lemma {:induction false} ForestAppend(x: seq<Tree>, y: seq<Tree>)
    ensures IdsF(x + y) == IdsF(x) + IdsF(y)
    ensures DistinctF(x + y) <==> DistinctF(x) && DistinctF(y) && IdsF(x) !! IdsF(y)
  {
    if x == [] {
      assert x + y == y;
    } else {
      assert (x + y)[1..] == x[1..] + y;
      ForestAppend(x[1..], y);
    }
  }

  lemma ForestOne(t: Tree)
    ensures IdsF([t]) == Ids(t) && (DistinctF([t]) <==> Distinct(t))
  {
    assert [t][1..] == [];
  }

  /** A forest around one of its trees. */
  lemma ForestAround(x: seq<Tree>, t: Tree, y: seq<Tree>)
    ensures IdsF(x + ([t] + y)) == IdsF(x) + Ids(t) + IdsF(y)
    ensures DistinctF(x + ([t] + y)) <==>
              && DistinctF(x) && Distinct(t) && DistinctF(y)
              && IdsF(x) !! Ids(t) && IdsF(x) !! IdsF(y) && Ids(t) !! IdsF(y)
  {
    ForestAppend(x, [t] + y);
    ForestAppend([t], y);
    ForestOne(t);
  }

  predicate Same(h: Heap, h': Heap, ids: set<nat>) {
    forall i :: i in ids && i in h ==> i in h' && h'[i] == h[i]
  }

  lemma {:induction false} TreeFrame(h: Heap, h': Heap, t: Tree)
    requires TreeAt(h, t) && Same(h, h', Ids(t))
    ensures TreeAt(h', t)
    decreases t
  {
    ForestFrame(h, h', t.kids);
  }

  lemma {:induction false} ForestFrame(h: Heap, h': Heap, ts: seq<Tree>)
    requires AllAt(h, ts) && Same(h, h', IdsF(ts))
    ensures AllAt(h', ts)
    decreases ts
  {
    if ts != [] {
      TreeFrame(h, h', ts[0]);
      ForestFrame(h, h', ts[1..]);
      forall i | 0 <= i < |ts| ensures TreeAt(h', ts[i]) {
        if i > 0 { assert ts[i] == ts[1..][i - 1]; }
      }
    }
  }

  // ---------------------------------------------------------------------------
  // Around the hole
  // ---------------------------------------------------------------------------

  function CtxIds(k: Ctx): set<nat> {
    if k.Top? then {} else {k.id} + IdsF(k.ka) + IdsF(k.kb) + CtxIds(k.up)
  }

  predicate DistinctCtx(k: Ctx) {
    k.In? ==>
      && DistinctF(k.ka) && DistinctF(k.kb) && IdsF(k.ka) !! IdsF(k.kb) && DistinctCtx(k.up)
      && k.id !in IdsF(k.ka) && k.id !in IdsF(k.kb) && k.id !in CtxIds(k.up)
      && IdsF(k.ka) !! CtxIds(k.up) && IdsF(k.kb) !! CtxIds(k.up)
  }

  predicate CtxAt(h: Heap, root: nat, x: nat, k: Ctx)
    decreases k
  {
    if k.Top? then root == x
    else
      && k.id != 0 && k.id in h && |k.a| + |k.b| <= ORDER - 1 && |k.ka| + |k.kb| < ORDER
      && h[k.id] == CellOf(k.a + k.b, IdsOf(k.ka) + ([x] + IdsOf(k.kb)))
      && AllAt(h, k.ka) && AllAt(h, k.kb) && CtxAt(h, root, k.id, k.up)
  }

  predicate At(h: Heap, root: nat, k: Ctx, t: Tree) {
    CtxAt(h, root, t.id, k) && TreeAt(h, t) && Distinct(t) && DistinctCtx(k) && Ids(t) !! CtxIds(k)
  }

  lemma {:induction false} CtxFrame(h: Heap, h': Heap, root: nat, x: nat, k: Ctx)
    requires CtxAt(h, root, x, k) && Same(h, h', CtxIds(k))
    ensures CtxAt(h', root, x, k)
    decreases k
  {
    if k.In? {
      ForestFrame(h, h', k.ka);
      ForestFrame(h, h', k.kb);
      CtxFrame(h, h', root, k.id, k.up);
    }
  }

  lemma IdsOfParts(x: seq<Tree>, t: Tree, y: seq<Tree>)
    ensures IdsOf(x + ([t] + y)) == IdsOf(x) + ([t.id] + IdsOf(y))
  {
  }

  lemma AllAtParts(h: Heap, x: seq<Tree>, t: Tree, y: seq<Tree>)
    ensures AllAt(h, x + ([t] + y)) <==> AllAt(h, x) && TreeAt(h, t) && AllAt(h, y)
  {
    var s := x + ([t] + y);
    assert s[|x|] == t;
    assert forall i :: 0 <= i < |x| ==> s[i] == x[i];
    assert forall i :: 0 <= i < |y| ==> s[|x| + 1 + i] == y[i];
    if AllAt(h, s) {
      forall i | 0 <= i < |y| ensures TreeAt(h, y[i]) { assert TreeAt(h, s[|x| + 1 + i]); }
    }
  }

  lemma Up(h: Heap, root: nat, k: Ctx, t: Tree)
    requires At(h, root, k, t) && k.In?
    ensures At(h, root, k.up, Outer(k, t))
  {
    IdsOfParts(k.ka, t, k.kb);
    AllAtParts(h, k.ka, t, k.kb);
    ForestAround(k.ka, t, k.kb);
  }

  /** The other way: the hole moves to one of the children. */
  lemma Into(h: Heap, root: nat, k: Ctx, t: Tree)
    requires k.In? && At(h, root, k.up, Outer(k, t))
    ensures At(h, root, k, t)
  {
    IdsOfParts(k.ka, t, k.kb);
    AllAtParts(h, k.ka, t, k.kb);
    ForestAround(k.ka, t, k.kb);
  }

  lemma Down(h: Heap, root: nat, k: Ctx, t: Tree, i: nat)
    requires At(h, root, k, t) && i < |t.kids| && i <= |t.items|
    ensures At(h, root, Below(k, t, i), t.kids[i])
    ensures t.id in h && |h[t.id].slots| == ORDER && i < ORDER && h[t.id].slots[i] == t.kids[i].id != 0
  {
    BelowIsSame(k, t, i);
    Into(h, root, Below(k, t, i), t.kids[i]);
  }

  lemma {:induction false} Out(h: Heap, root: nat, k: Ctx, t: Tree)
    requires At(h, root, k, t)
    ensures At(h, root, Top, Plug(k, t))
  {
    if k.In? {
      Up(h, root, k, t);
      Out(h, root, k.up, Outer(k, t));
    }
  }

  // ---------------------------------------------------------------------------
  // One node's arrays
  // ---------------------------------------------------------------------------

  /** Splits a full node's arrays: the median goes up, the right half moves out. */
  method SplitCell(cell: Cell, ghost items: seq<Item>, ghost ids: seq<nat>) returns (m: Item, left: Cell, right: Cell)
    requires |items| == ORDER - 1 && (|ids| == 0 || |ids| == ORDER) && cell == CellOf(items, ids)
    ensures m == items[MIN]
    ensures left == CellOf(items[..MIN], if ids == [] then [] else ids[..MIN + 1])
    ensures right == CellOf(items[MIN + 1..], if ids == [] then [] else ids[MIN + 1..])
  {
    right := ZERO;
    var c := ORDER / 2;
    m := cell.items[c - 1];
    left := cell.(items := cell.items[c - 1 := EMPTY_ITEM]);
    for i := c to ORDER
      invariant |left.items| == |right.items| == ORDER - 1 && |left.slots| == |right.slots| == ORDER
      invariant right.n == if i < ORDER then i - c else ORDER - 1 - c
      invariant forall j :: 0 <= j < ORDER - 1 ==>
                  left.items[j] == if j == c - 1 || c <= j < i then EMPTY_ITEM else items[j]
      invariant forall j :: 0 <= j < ORDER - 1 ==> right.items[j] == if j < right.n then items[c + j] else EMPTY_ITEM
      invariant forall j :: 0 <= j < ORDER ==> left.slots[j] == if c <= j < i then 0 else cell.slots[j]
      invariant forall j :: 0 <= j < ORDER ==> right.slots[j] == if j < i - c then cell.slots[c + j] else 0
    {
      if i != ORDER - 1 {
        right := right.(items := right.items[right.n := left.items[i]], n := right.n + 1);
        left := left.(items := left.items[i := EMPTY_ITEM]);
      }
      right := right.(slots := right.slots[i - c := left.slots[i]]);
      left := left.(slots := left.slots[i := 0]);
    }
    left := left.(n := c - 1);
    assert left.items == Pad(items[..MIN]) && right.items == Pad(items[MIN + 1..]);
    assert left.slots == PadIds(if ids == [] then [] else ids[..MIN + 1]);
    assert right.slots == PadIds(if ids == [] then [] else ids[MIN + 1..]);
  }

  /** Makes room for an item, and puts it there. */
  method InsertItemAt(cell: Cell, p: nat, item: Item, ghost a: seq<Item>, ghost b: seq<Item>) returns (cell': Cell)
    requires |a| + |b| < ORDER - 1 && p == |a| && cell.n == |a| + |b| && cell.items == Pad(a + b)
    requires forall i :: 0 <= i < |b| ==> b[i].key != 0
    ensures cell' == Cell(|a| + 1 + |b|, Pad(a + ([item] + b)), cell.slots)
  {
    var items := cell.items;
    if items[p].key != 0 {
      items := items[..p + 1] + items[p..ORDER - 2];
    }
    items := items[p := item];
    cell' := cell.(items := items, n := cell.n + 1);
    assert cell'.items == Pad(a + ([item] + b));
  }

  /** Puts an item and the child to its right behind child `p`. */
  method InsertNodeAt(cell: Cell, p: nat, item: Item, left: nat, right: nat, ghost a: seq<Item>, ghost ka: seq<nat>,
      ghost b: seq<Item>, ghost kb: seq<nat>) returns (cell': Cell)
    requires |a| == |ka| == p && |b| == |kb| && |a| + |b| < ORDER - 1 && cell == CellOf(a + b, ka + ([left] + kb))
    requires forall i :: 0 <= i < |b| ==> b[i].key != 0
    ensures cell' == CellOf(a + ([item] + b), ka + ([left] + ([right] + kb)))
  {
    var slots := cell.slots;
    if cell.items[p].key != 0 {
      slots := slots[..p + 1] + slots[p..ORDER - 1];
    }
    slots := slots[p := left];
    slots := slots[p + 1 := right];
    cell' := InsertItemAt(cell, p, item, a, b);
    cell' := cell'.(slots := slots);
    assert cell'.slots == PadIds(ka + ([left] + ([right] + kb)));
  }

  // ---------------------------------------------------------------------------
  // Splitting a node
  // ---------------------------------------------------------------------------

  /** The two halves of a full node. */
  lemma HalvesAt(h: Heap, h': Heap, t: Tree, id: nat, d: nat)
    requires TreeAt(h, t) && Distinct(t) && Level(t, d) && |t.items| == ORDER - 1 && id != 0 && id !in Ids(t)
    requires t.id in h' && h'[t.id] == CellOf(LeftHalf(t).items, IdsOf(LeftHalf(t).kids))
    requires id in h' && h'[id] == CellOf(RightHalf(t, id).items, IdsOf(RightHalf(t, id).kids))
    requires Same(h, h', IdsF(t.kids))
    ensures TreeAt(h', LeftHalf(t)) && TreeAt(h', RightHalf(t, id))
    ensures Distinct(LeftHalf(t)) && Distinct(RightHalf(t, id)) && Ids(LeftHalf(t)) !! Ids(RightHalf(t, id))
    ensures Ids(LeftHalf(t)) + Ids(RightHalf(t, id)) == Ids(t) + {id}
  {
    var l, r := LeftHalf(t), RightHalf(t, id);
    assert t.kids == l.kids + r.kids;
    ForestAppend(l.kids, r.kids);
    ForestFrame(h, h', t.kids);
    assert forall i :: 0 <= i < |l.kids| ==> l.kids[i] == t.kids[i];
    assert forall i :: 0 <= i < |r.kids| ==> r.kids[i] == t.kids[|l.kids| + i];
  }

  /** A full node below a node with room: both halves have their place. */
  lemma SplitBelow(h: Heap, h': Heap, root: nat, k: Ctx, t: Tree, id: nat, d: nat)
    requires At(h, root, k, t) && k.In? && Level(t, d) && |t.items| == ORDER - 1
    requires |k.a| == |k.ka| && |k.b| == |k.kb| && |k.a| + |k.b| < ORDER - 1
    requires id != 0 && id !in Ids(t) && id !in CtxIds(k)
    requires t.id in h' && h'[t.id] == CellOf(LeftHalf(t).items, IdsOf(LeftHalf(t).kids))
    requires id in h' && h'[id] == CellOf(RightHalf(t, id).items, IdsOf(RightHalf(t, id).kids))
    requires k.id in h' &&
      h'[k.id] == CellOf(k.a + ([t.items[MIN]] + k.b), IdsOf(k.ka) + ([t.id] + ([id] + IdsOf(k.kb))))
    requires forall i :: i in h && i !in {t.id, id, k.id} ==> i in h' && h'[i] == h[i]
    ensures At(h', root, LeftCtx(k, t, id), LeftHalf(t))
  {
    HalvesAt(h, h', t, id, d);
    ForestFrame(h, h', k.ka);
    ForestFrame(h, h', k.kb);
    CtxFrame(h, h', root, k.id, k.up);
    SplitCtxAt(h', root, k, t, id);
    SplitDistinct(k, t, id);
  }

  lemma SplitCtxAt(h: Heap, root: nat, k: Ctx, t: Tree, id: nat)
    requires k.In? && k.id != 0 && |t.items| == ORDER - 1 && |k.a| == |k.ka| && |k.b| == |k.kb| &&
      |k.a| + |k.b| < ORDER - 1
    requires AllAt(h, k.ka) && AllAt(h, k.kb) && CtxAt(h, root, k.id, k.up) && TreeAt(h, RightHalf(t, id))
    requires k.id in h && h[k.id] == CellOf(k.a + ([t.items[MIN]] + k.b), IdsOf(k.ka) + ([t.id] + ([id] + IdsOf(k.kb))))
    ensures CtxAt(h, root, t.id, LeftCtx(k, t, id))
  {
    var lk := LeftCtx(k, t, id);
    assert IdsOf(lk.kb) == [id] + IdsOf(k.kb);
    forall i | 0 <= i < |lk.kb| ensures TreeAt(h, lk.kb[i]) {
      if i > 0 { assert lk.kb[i] == k.kb[i - 1]; }
    }
  }

  lemma SplitDistinct(k: Ctx, t: Tree, id: nat)
    requires k.In? && |t.items| == ORDER - 1 && DistinctCtx(k) && Ids(t) !! CtxIds(k) && id !in CtxIds(k)
    requires Distinct(RightHalf(t, id)) && Ids(LeftHalf(t)) !! Ids(RightHalf(t, id))
    requires Ids(LeftHalf(t)) + Ids(RightHalf(t, id)) == Ids(t) + {id}
    ensures DistinctCtx(LeftCtx(k, t, id)) && Ids(LeftHalf(t)) !! CtxIds(LeftCtx(k, t, id))
  {
    ForestAppend([RightHalf(t, id)], k.kb);
    ForestOne(RightHalf(t, id));
  }

  /** From the left half to the right one. */
  lemma ToRight(h: Heap, root: nat, k: Ctx, t: Tree, id: nat)
    requires k.In? && |t.items| == ORDER - 1 && At(h, root, LeftCtx(k, t, id), LeftHalf(t))
    ensures At(h, root, RightCtx(k, t), RightHalf(t, id))
  {
    Up(h, root, LeftCtx(k, t, id), LeftHalf(t));
    SplitOuter(k, t, id);
    Into(h, root, RightCtx(k, t), RightHalf(t, id));
  }

  /** A full root: the halves hang below a new root. */
  lemma SplitRoot(h: Heap, h': Heap, t: Tree, id: nat, up: nat, d: nat)
    requires At(h, t.id, Top, t) && Level(t, d) && |t.items| == ORDER - 1
    requires id != 0 && up != 0 && id != up && id !in Ids(t) && up !in Ids(t)
    requires t.id in h' && h'[t.id] == CellOf(LeftHalf(t).items, IdsOf(LeftHalf(t).kids))
    requires id in h' && h'[id] == CellOf(RightHalf(t, id).items, IdsOf(RightHalf(t, id).kids))
    requires up in h' && h'[up] == CellOf([t.items[MIN]], [t.id, id])
    requires forall i :: i in h && i !in {t.id, id, up} ==> i in h' && h'[i] == h[i]
    ensures At(h', up, Top, Grown(t, id, up))
  {
    var l, r, g := LeftHalf(t), RightHalf(t, id), Grown(t, id, up);
    HalvesAt(h, h', t, id, d);
    assert g.kids == [l] + [r];
    ForestAppend([l], [r]);
    ForestOne(l);
    ForestOne(r);
    assert IdsOf(g.kids) == [t.id, id];
  }

  /** One leaf gets an item more. */
  lemma LeafInserted(h: Heap, h': Heap, root: nat, k: Ctx, t: Tree, p: nat, e: Item)
    requires At(h, root, k, t) && t.kids == [] && p <= |t.items| < ORDER - 1
    requires h' == h[t.id := Cell(|t.items| + 1, Pad(t.items[..p] + ([e] + t.items[p..])), h[t.id].slots)]
    ensures At(h', root, k, Inserted(t, p, e))
  {
    CtxFrame(h, h', root, t.id, k);
  }

  lemma {:induction false} IdsBelow(h: Heap, t: Tree, n: nat)
    requires TreeAt(h, t) && forall i :: i in h ==> i < n
    ensures forall i :: i in Ids(t) ==> i < n
    decreases t
  {
    ForestBelow(h, t.kids, n);
  }

  lemma {:induction false} ForestBelow(h: Heap, ts: seq<Tree>, n: nat)
    requires AllAt(h, ts) && forall i :: i in h ==> i < n
    ensures forall i :: i in IdsF(ts) ==> i < n
    decreases ts
  {
    if ts != [] {
      IdsBelow(h, ts[0], n);
      ForestBelow(h, ts[1..], n);
    }
  }

  lemma {:induction false} CtxBelow(h: Heap, root: nat, x: nat, k: Ctx, n: nat)
    requires CtxAt(h, root, x, k) && forall i :: i in h ==> i < n
    ensures forall i :: i in CtxIds(k) ==> i < n
    decreases k
  {
    if k.In? {
      ForestBelow(h, k.ka, n);
      ForestBelow(h, k.kb, n);
      CtxBelow(h, root, k.id, k.up, n);
    }
  }
}
