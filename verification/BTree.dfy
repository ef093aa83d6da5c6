/** B-trees as values, with a path to the node an insertion works on. */
module BTree {

  datatype Item = Item(key: nat, value: nat)

  /** A leaf has no children; `id` is the object that holds the node. */
  datatype Tree = Tree(id: nat, items: seq<Item>, kids: seq<Tree>)

  /** In order: children and items alternate. */
  function Inorder(t: Tree): seq<Item>
    decreases t
  {
    if t.kids == [] then t.items else Inorder(t.kids[0]) + Rest(t.items, t.kids[1..])
  }

  /** Items, each followed by the child to its right. */
  function Rest(items: seq<Item>, kids: seq<Tree>): seq<Item>
    decreases kids
  {
    if items == [] || kids == [] then [] else [items[0]] + Inorder(kids[0]) + Rest(items[1..], kids[1..])
  }

  /** Children, each followed by the item to its right. */
  function Front(items: seq<Item>, kids: seq<Tree>): seq<Item>
    decreases kids
  {
    if items == [] || kids == [] then [] else Inorder(kids[0]) + [items[0]] + Front(items[1..], kids[1..])
  }

  lemma {:induction false} RestAppend(a: seq<Item>, ka: seq<Tree>, b: seq<Item>, kb: seq<Tree>)
    requires |a| == |ka| && |b| == |kb|
    ensures Rest(a + b, ka + kb) == Rest(a, ka) + Rest(b, kb)
  {
    if a == [] {
      assert a + b == b && ka + kb == kb;
    } else {
      assert (a + b)[1..] == a[1..] + b && (ka + kb)[1..] == ka[1..] + kb;
      RestAppend(a[1..], ka[1..], b, kb);
    }
  }

  function Interleave(items: seq<Item>, kids: seq<Tree>): seq<Item>
    requires kids != []
  {
    Inorder(kids[0]) + Rest(items, kids[1..])
  }

  /** The order around child number |a|. */
  lemma {:induction false} Around(a: seq<Item>, ka: seq<Tree>, t: Tree, b: seq<Item>, kb: seq<Tree>)
    requires |a| == |ka| && |b| == |kb|
    ensures Interleave(a + b, ka + ([t] + kb)) == Front(a, ka) + (Inorder(t) + Rest(b, kb))
  {
    var kids := ka + ([t] + kb);
    if a == [] {
      assert a + b == b && kids == [t] + kb && kids[1..] == kb;
    } else {
      var tail := ka[1..] + ([t] + kb);
      Around(a[1..], ka[1..], t, b, kb);
      assert kids[1..] == tail && kids[0] == ka[0] && (a + b)[1..] == a[1..] + b && (a + b)[0] == a[0];
      Step(a[0], a[1..] + b, tail);
      assert Rest(a + b, kids[1..]) == [a[0]] + Interleave(a[1..] + b, tail);
      Shift(Inorder(ka[0]), a[0], Front(a[1..], ka[1..]), Inorder(t) + Rest(b, kb));
    }
  }

  lemma Step(x: Item, items: seq<Item>, kids: seq<Tree>)
    requires kids != []
    ensures Rest([x] + items, kids) == [x] + Interleave(items, kids)
  {
    assert ([x] + items)[1..] == items;
  }

  lemma Shift(i: seq<Item>, x: Item, f: seq<Item>, r: seq<Item>)
    ensures i + ([x] + (f + r)) == (i + [x] + f) + r
  {
  }

  /** A tree with a hole between the items `a` and `b` of the innermost node. */
  datatype Ctx = Top | In(id: nat, a: seq<Item>, ka: seq<Tree>, b: seq<Item>, kb: seq<Tree>, up: Ctx)

  predicate Matched(k: Ctx) {
    k.In? ==> |k.a| == |k.ka| && |k.b| == |k.kb| && Matched(k.up)
  }

  /** The node around the hole, filled. */
  function Outer(k: Ctx, t: Tree): Tree
    requires k.In?
  {
    Tree(k.id, k.a + k.b, k.ka + ([t] + k.kb))
  }

  function Plug(k: Ctx, t: Tree): Tree {
    if k.Top? then t else Plug(k.up, Outer(k, t))
  }

  function Before(k: Ctx): seq<Item> {
    if k.Top? then [] else Before(k.up) + Front(k.a, k.ka)
  }

  function After(k: Ctx): seq<Item> {
    if k.Top? then [] else Rest(k.b, k.kb) + After(k.up)
  }

  lemma OuterInorder(k: Ctx, t: Tree)
    requires k.In? && |k.a| == |k.ka| && |k.b| == |k.kb|
    ensures Inorder(Outer(k, t)) == Front(k.a, k.ka) + (Inorder(t) + Rest(k.b, k.kb))
  {
    Around(k.a, k.ka, t, k.b, k.kb);
  }

  lemma {:induction false} PlugInorder(k: Ctx, t: Tree)
    requires Matched(k)
    ensures Inorder(Plug(k, t)) == Before(k) + Inorder(t) + After(k)
  {
    if k.In? {
      OuterInorder(k, t);
      PlugInorder(k.up, Outer(k, t));
      Associate(Before(k.up), Front(k.a, k.ka), Inorder(t), Rest(k.b, k.kb), After(k.up));
    }
  }

  lemma Associate(a: seq<Item>, b: seq<Item>, c: seq<Item>, d: seq<Item>, e: seq<Item>)
    ensures a + (b + (c + d)) + e == (a + b) + c + (d + e)
  {
  }

  // ---------------------------------------------------------------------------
  // Shape
  // ---------------------------------------------------------------------------

  const ORDER: nat := 8
  const MIN: nat := 3

  /** All leaves are `d` levels down; inner nodes have a child on each side of
      every item. */
  predicate Level(t: Tree, d: nat) {
    if d == 0 then t.kids == [] else |t.kids| == |t.items| + 1 && forall i :: 0 <= i < |t.kids| ==>
      Level(t.kids[i], d - 1)
  }

  /** 3 to 7 items in every node below. */
  predicate Filled(t: Tree, d: nat) {
    d > 0 ==> forall i :: 0 <= i < |t.kids| ==> MIN <= |t.kids[i].items| <= ORDER - 1 && Filled(t.kids[i], d - 1)
  }

  predicate Kid(t: Tree, d: nat) {
    Level(t, d) && Filled(t, d) && MIN <= |t.items| <= ORDER - 1
  }

  predicate Kids(ts: seq<Tree>, d: nat) {
    forall i :: 0 <= i < |ts| ==> Kid(ts[i], d)
  }

  /** The context takes a tree of depth `d`; the node above the hole has room for
      one more item. */
  predicate Takes(k: Ctx, d: nat) {
    CtxOk(k, d) && (k.In? ==> |k.a| + |k.b| < ORDER - 1)
  }

  predicate CtxOk(k: Ctx, d: nat) {
    k.In? ==>
      && |k.a| == |k.ka| && |k.b| == |k.kb| && Kids(k.ka, d) && Kids(k.kb, d)
      && 1 <= |k.a| + |k.b| <= ORDER - 1 && (k.up.In? ==> MIN <= |k.a| + |k.b|)
      && CtxOk(k.up, d + 1)
  }

  /** A tree that may stand in the hole: smaller only at the root. */
  predicate Standing(k: Ctx, t: Tree, d: nat) {
    Level(t, d) && Filled(t, d) && 1 <= |t.items| <= ORDER - 1 && (k.In? ==> MIN <= |t.items|)
  }

  /** A whole tree in good shape. */
  predicate Shaped(t: Tree, d: nat) {
    Level(t, d) && Filled(t, d) && 1 <= |t.items| <= ORDER - 1
  }

  lemma {:induction false} CtxMatched(k: Ctx, d: nat)
    requires CtxOk(k, d)
    ensures Matched(k)
  {
    if k.In? { CtxMatched(k.up, d + 1); }
  }

  lemma OuterStands(k: Ctx, t: Tree, d: nat)
    requires k.In? && CtxOk(k, d) && Standing(k, t, d)
    ensures Standing(k.up, Outer(k, t), d + 1)
  {
    var o := Outer(k, t);
    forall i | 0 <= i < |o.kids| ensures Kid(o.kids[i], d) {
      assert o.kids[i] == if i < |k.ka| then k.ka[i] else if i == |k.ka| then t else k.kb[i - |k.ka| - 1];
    }
  }

  lemma {:induction false} PlugIsShaped(k: Ctx, t: Tree, d: nat) returns (e: nat)
    requires CtxOk(k, d) && Standing(k, t, d)
    ensures Shaped(Plug(k, t), e)
  {
    if k.In? {
      OuterStands(k, t, d);
      e := PlugIsShaped(k.up, Outer(k, t), d + 1);
    } else {
      e := d;
    }
  }

  // ---------------------------------------------------------------------------
  // Going down and splitting
  // ---------------------------------------------------------------------------

  /** The context of child `i`. */
  function Below(k: Ctx, t: Tree, i: nat): Ctx
    requires i < |t.kids| && i <= |t.items|
  {
    In(t.id, t.items[..i], t.kids[..i], t.items[i..], t.kids[i + 1..], k)
  }

  lemma BelowIsSame(k: Ctx, t: Tree, i: nat)
    requires i < |t.kids| && i <= |t.items|
    ensures Outer(Below(k, t, i), t.kids[i]) == t && Plug(Below(k, t, i), t.kids[i]) == Plug(k, t)
  {
    assert t.items[..i] + t.items[i..] == t.items;
    assert t.kids[..i] + ([t.kids[i]] + t.kids[i + 1..]) == t.kids;
  }

  lemma BelowTakes(k: Ctx, t: Tree, d: nat, i: nat)
    requires CtxOk(k, d) && Standing(k, t, d) && d > 0 && i < |t.kids|
    ensures i <= |t.items| && CtxOk(Below(k, t, i), d - 1) && Standing(Below(k, t, i), t.kids[i], d - 1)
  {
    assert forall j :: 0 <= j < |t.kids| ==> Kid(t.kids[j], d - 1);
  }

  /** The left half of a full node. */
  function LeftHalf(t: Tree): Tree
    requires |t.items| == ORDER - 1
  {
    Tree(t.id, t.items[..MIN], if t.kids == [] then [] else t.kids[..if |t.kids| < MIN + 1 then |t.kids| else MIN + 1])
  }

  function RightHalf(t: Tree, id: nat): Tree
    requires |t.items| == ORDER - 1
  {
    Tree(id, t.items[MIN + 1..], if |t.kids| < MIN + 1 then [] else t.kids[MIN + 1..])
  }

  lemma HalvesStand(k: Ctx, t: Tree, id: nat, d: nat)
    requires Level(t, d) && Filled(t, d) && |t.items| == ORDER - 1
    ensures Kid(LeftHalf(t), d) && Kid(RightHalf(t, id), d)
  {
  }

  lemma HalvesInorder(t: Tree, id: nat, d: nat)
    requires Level(t, d) && |t.items| == ORDER - 1
    ensures Inorder(t) == Inorder(LeftHalf(t)) + ([t.items[MIN]] + Inorder(RightHalf(t, id)))
  {
    var l, r, m := LeftHalf(t), RightHalf(t, id), t.items[MIN];
    if d == 0 {
      assert t.items == l.items + ([m] + r.items);
    } else {
      var y := [m] + r.items;
      assert t.items == l.items + y && t.kids[1..] == l.kids[1..] + r.kids;
      RestAppend(l.items, l.kids[1..], y, r.kids);
      Step(m, r.items, r.kids);
      assert Rest(t.items, t.kids[1..]) == Rest(l.items, l.kids[1..]) + ([m] + Inorder(r));
    }
  }

  /** The contexts of the two halves once the median is in the node above. */
  function LeftCtx(k: Ctx, t: Tree, id: nat): Ctx
    requires k.In? && |t.items| == ORDER - 1
  {
    k.(b := [t.items[MIN]] + k.b, kb := [RightHalf(t, id)] + k.kb)
  }

  function RightCtx(k: Ctx, t: Tree): Ctx
    requires k.In? && |t.items| == ORDER - 1
  {
    k.(a := k.a + [t.items[MIN]], ka := k.ka + [LeftHalf(t)])
  }

  lemma SplitTakes(k: Ctx, t: Tree, id: nat, d: nat)
    requires k.In? && Takes(k, d) && Standing(k, t, d) && |t.items| == ORDER - 1
    ensures CtxOk(LeftCtx(k, t, id), d) && Standing(LeftCtx(k, t, id), LeftHalf(t), d)
    ensures CtxOk(RightCtx(k, t), d) && Standing(RightCtx(k, t), RightHalf(t, id), d)
  {
    HalvesStand(k, t, id, d);
  }

  lemma SplitOuter(k: Ctx, t: Tree, id: nat)
    requires k.In? && |t.items| == ORDER - 1
    ensures Outer(LeftCtx(k, t, id), LeftHalf(t)) == Outer(RightCtx(k, t), RightHalf(t, id))
  {
    var l, r, m := LeftHalf(t), RightHalf(t, id), t.items[MIN];
    assert k.a + ([m] + k.b) == (k.a + [m]) + k.b;
    assert k.ka + ([l] + ([r] + k.kb)) == (k.ka + [l]) + ([r] + k.kb);
  }

  lemma SplitInorder(k: Ctx, t: Tree, id: nat, d: nat)
    requires k.In? && CtxOk(k, d) && Standing(k, t, d) && |t.items| == ORDER - 1
    requires CtxOk(LeftCtx(k, t, id), d)
    ensures Inorder(Plug(LeftCtx(k, t, id), LeftHalf(t))) == Inorder(Plug(k, t))
    ensures Plug(LeftCtx(k, t, id), LeftHalf(t)) == Plug(RightCtx(k, t), RightHalf(t, id))
    ensures Before(LeftCtx(k, t, id)) == Before(k)
    ensures After(LeftCtx(k, t, id)) == [t.items[MIN]] + (Inorder(RightHalf(t, id)) + After(k))
  {
    var l, r, m := LeftHalf(t), RightHalf(t, id), t.items[MIN];
    SplitOuter(k, t, id);
    CtxMatched(k, d);
    CtxMatched(LeftCtx(k, t, id), d);
    PlugInorder(k, t);
    PlugInorder(LeftCtx(k, t, id), l);
    HalvesInorder(t, id, d);
    RestCons(m, k.b, r, k.kb);
    Regroup(Before(k), Inorder(l), m, Inorder(r), Rest(k.b, k.kb), After(k.up));
  }

  lemma RestCons(x: Item, items: seq<Item>, t: Tree, kids: seq<Tree>)
    ensures Rest([x] + items, [t] + kids) == [x] + Inorder(t) + Rest(items, kids)
  {
    assert ([x] + items)[1..] == items && ([t] + kids)[1..] == kids;
  }

  lemma Regroup(a: seq<Item>, l: seq<Item>, m: Item, r: seq<Item>, b: seq<Item>, c: seq<Item>)
    ensures a + (l + ([m] + r)) + (b + c) == a + l + (([m] + r + b) + c)
    ensures ([m] + r + b) + c == [m] + (r + (b + c))
  {
  }

  lemma {:induction false} FrontAppend(a: seq<Item>, ka: seq<Tree>, x: Item, t: Tree)
    requires |a| == |ka|
    ensures Front(a + [x], ka + [t]) == Front(a, ka) + (Inorder(t) + [x])
  {
    if a == [] {
      assert a + [x] == [x] && ka + [t] == [t];
      assert [x][1..] == [] && [t][1..] == [];
    } else {
      assert (a + [x])[1..] == a[1..] + [x] && (ka + [t])[1..] == ka[1..] + [t];
      FrontAppend(a[1..], ka[1..], x, t);
    }
  }

  // ---------------------------------------------------------------------------
  // Search order; equal keys are allowed
  // ---------------------------------------------------------------------------

  predicate Sorted(s: seq<Item>) {
    forall i, j :: 0 <= i < j < |s| ==> s[i].key <= s[j].key
  }

  predicate Low(s: seq<Item>, key: nat) {
    forall i :: 0 <= i < |s| ==> s[i].key <= key
  }

  predicate High(s: seq<Item>, key: nat) {
    forall i :: 0 <= i < |s| ==> s[i].key >= key
  }

  lemma SortedParts(x: seq<Item>, y: seq<Item>)
    requires Sorted(x + y)
    ensures Sorted(x) && Sorted(y)
  {
    var s := x + y;
    assert forall i :: 0 <= i < |x| ==> x[i] == s[i];
    assert forall i :: 0 <= i < |y| ==> y[i] == s[|x| + i];
  }

  lemma LowByLast(s: seq<Item>, key: nat)
    requires Sorted(s) && (s != [] ==> s[|s| - 1].key <= key)
    ensures Low(s, key)
  {
  }

  lemma HighByFirst(s: seq<Item>, key: nat)
    requires Sorted(s) && (s != [] ==> s[0].key >= key)
    ensures High(s, key)
  {
  }

  /** The hole is where an item with the key belongs. */
  predicate Searched(k: Ctx, key: nat) {
    Low(Before(k), key) && High(After(k), key)
  }

  lemma WholeSorted(k: Ctx, t: Tree)
    requires Matched(k) && Sorted(Inorder(Plug(k, t)))
    ensures Sorted(Before(k)) && Sorted(Inorder(t)) && Sorted(After(k))
  {
    PlugInorder(k, t);
    SortedParts(Before(k) + Inorder(t), After(k));
    SortedParts(Before(k), Inorder(t));
  }

  lemma {:induction false} FrontLast(a: seq<Item>, ka: seq<Tree>)
    requires |a| == |ka| && a != []
    ensures Front(a, ka) != [] && Front(a, ka)[|Front(a, ka)| - 1] == a[|a| - 1]
  {
    var b, kb := a[..|a| - 1], ka[..|a| - 1];
    assert a == b + [a[|a| - 1]] && ka == kb + [ka[|a| - 1]];
    FrontAppend(b, kb, a[|a| - 1], ka[|a| - 1]);
  }

  /** Going down between items that are not greater and not smaller than the key. */
  lemma SearchedOn(k: Ctx, t: Tree, key: nat)
    requires k.In? && Matched(k) && Searched(k.up, key) && Sorted(Inorder(Plug(k, t)))
    requires (k.a != [] ==> k.a[|k.a| - 1].key <= key) && (k.b != [] ==> k.b[0].key >= key)
    ensures Searched(k, key)
  {
    WholeSorted(k, t);
    LowSide(k, key);
    HighSide(k, key);
  }

  lemma LowSide(k: Ctx, key: nat)
    requires k.In? && |k.a| == |k.ka| && Sorted(Before(k)) && Low(Before(k.up), key)
    requires k.a != [] ==> k.a[|k.a| - 1].key <= key
    ensures Low(Before(k), key)
  {
    if k.a != [] { BeforeLast(k); LowByLast(Before(k), key); } else { assert Before(k) == Before(k.up); }
  }

  lemma HighSide(k: Ctx, key: nat)
    requires k.In? && |k.b| == |k.kb| && Sorted(After(k)) && High(After(k.up), key)
    requires k.b != [] ==> k.b[0].key >= key
    ensures High(After(k), key)
  {
    if k.b != [] { AfterFirst(k); HighByFirst(After(k), key); } else { assert After(k) == After(k.up); }
  }

  lemma BeforeLast(k: Ctx)
    requires k.In? && |k.a| == |k.ka| && k.a != []
    ensures Before(k) != [] && Before(k)[|Before(k)| - 1] == k.a[|k.a| - 1]
  {
    FrontLast(k.a, k.ka);
  }

  lemma AfterFirst(k: Ctx)
    requires k.In? && |k.b| == |k.kb| && k.b != []
    ensures After(k) != [] && After(k)[0] == k.b[0]
  {
  }

  lemma LeftSearched(k: Ctx, t: Tree, id: nat, d: nat, key: nat)
    requires k.In? && Takes(k, d) && Standing(k, t, d) && |t.items| == ORDER - 1
    requires Searched(k, key) && Sorted(Inorder(Plug(k, t))) && key <= t.items[MIN].key
    ensures Searched(LeftCtx(k, t, id), key)
  {
    SplitTakes(k, t, id, d);
    SplitInorder(k, t, id, d);
    CtxMatched(LeftCtx(k, t, id), d);
    WholeSorted(LeftCtx(k, t, id), LeftHalf(t));
    HighByFirst(After(LeftCtx(k, t, id)), key);
  }

  lemma RightSearched(k: Ctx, t: Tree, id: nat, d: nat, key: nat)
    requires k.In? && Takes(k, d) && Standing(k, t, d) && |t.items| == ORDER - 1
    requires Searched(k, key) && Sorted(Inorder(Plug(k, t))) && key > t.items[MIN].key
    ensures Searched(RightCtx(k, t), key)
  {
    var m := t.items[MIN];
    SplitTakes(k, t, id, d);
    SplitInorder(k, t, id, d);
    CtxMatched(RightCtx(k, t), d);
    WholeSorted(RightCtx(k, t), RightHalf(t, id));
    FrontLast(k.a + [m], k.ka + [LeftHalf(t)]);
    LowByLast(Before(RightCtx(k, t)), key);
  }

  /** A full root splits under a new one. */
  function Grown(t: Tree, id: nat, up: nat): Tree
    requires |t.items| == ORDER - 1
  {
    Tree(up, [t.items[MIN]], [LeftHalf(t), RightHalf(t, id)])
  }

  lemma GrownStands(t: Tree, id: nat, up: nat, d: nat)
    requires Standing(Top, t, d) && |t.items| == ORDER - 1
    ensures Standing(Top, Grown(t, id, up), d + 1) && Inorder(Grown(t, id, up)) == Inorder(t)
  {
    HalvesStand(Top, t, id, d);
    HalvesInorder(t, id, d);
    var l, r, m := LeftHalf(t), RightHalf(t, id), t.items[MIN];
    assert [l, r][1..] == [r] && [m] + [] == [m] && [r] + [] == [r];
    RestCons(m, [], r, []);
    assert [m] + Inorder(r) + [] == [m] + Inorder(r);
  }

  /** A leaf with an item more. */
  function Inserted(t: Tree, p: nat, e: Item): Tree
    requires p <= |t.items|
  {
    t.(items := t.items[..p] + ([e] + t.items[p..]))
  }

  lemma InsertedInOrder(k: Ctx, t: Tree, p: nat, e: Item)
    requires Matched(k) && t.kids == [] && p <= |t.items| && Searched(k, e.key) && Sorted(Inorder(Plug(k, t)))
    requires Low(t.items[..p], e.key) && High(t.items[p..], e.key)
    ensures var i := |Before(k)| + p;
      && i <= |Inorder(Plug(k, t))|
      && Inorder(Plug(k, Inserted(t, p, e))) == Inorder(Plug(k, t))[..i] + ([e] + Inorder(Plug(k, t))[i..])
      && Sorted(Inorder(Plug(k, Inserted(t, p, e))))
  {
    var x, y := Before(k) + t.items[..p], t.items[p..] + After(k);
    LeafInorder(k, t, p, e);
    CutAt(x, e, y);
    assert Low(x, e.key) && High(y, e.key);
    OneMore(x, e, y);
  }

  lemma LeafInorder(k: Ctx, t: Tree, p: nat, e: Item)
    requires Matched(k) && t.kids == [] && p <= |t.items|
    ensures Inorder(Plug(k, t)) == (Before(k) + t.items[..p]) + (t.items[p..] + After(k))
    ensures Inorder(Plug(k, Inserted(t, p, e))) == (Before(k) + t.items[..p]) + ([e] + (t.items[p..] + After(k)))
  {
    assert t.items == t.items[..p] + t.items[p..];
    LeafInTree(k, t, t.items[..p] + t.items[p..]);
    LeafInTree(k, Inserted(t, p, e), t.items[..p] + ([e] + t.items[p..]));
    Parts(Before(k), t.items[..p], e, t.items[p..], After(k));
  }

  lemma LeafInTree(k: Ctx, t: Tree, s: seq<Item>)
    requires Matched(k) && t.kids == [] && t.items == s
    ensures Inorder(Plug(k, t)) == Before(k) + s + After(k)
  {
    PlugInorder(k, t);
  }

  lemma Parts(a: seq<Item>, b: seq<Item>, e: Item, c: seq<Item>, d: seq<Item>)
    ensures a + (b + c) + d == (a + b) + (c + d) && a + (b + ([e] + c)) + d == (a + b) + ([e] + (c + d))
  {
  }

  lemma CutAt(x: seq<Item>, e: Item, y: seq<Item>)
    ensures x + ([e] + y) == (x + y)[..|x|] + ([e] + (x + y)[|x|..])
  {
    assert (x + y)[..|x|] == x && (x + y)[|x|..] == y;
  }

  lemma OneMore(x: seq<Item>, e: Item, y: seq<Item>)
    requires Sorted(x + y) && Low(x, e.key) && High(y, e.key)
    ensures Sorted(x + ([e] + y))
  {
    SortedParts(x, y);
    var s := x + ([e] + y);
    forall i, j | 0 <= i < j < |s| ensures s[i].key <= s[j].key {
      assert s[i] == if i < |x| then x[i] else if i == |x| then e else y[i - |x| - 1];
      assert s[j] == if j < |x| then x[j] else if j == |x| then e else y[j - |x| - 1];
    }
  }

  // ---------------------------------------------------------------------------
  // Height
  // ---------------------------------------------------------------------------

  function Power4(d: nat): nat {
    if d == 0 then 1 else 4 * Power4(d - 1)
  }

  /** Items and the trees to their right. */
  lemma {:induction false} RestSize(items: seq<Item>, kids: seq<Tree>, d: nat)
    requires |items| == |kids| && Kids(kids, d)
    ensures |Rest(items, kids)| >= |items| * Power4(d + 1)
    decreases d, |items| + 1
  {
    if items != [] {
      KidSize(kids[0], d);
      RestSize(items[1..], kids[1..], d);
      OneLess(|items|, Power4(d + 1));
    }
  }

  lemma OneLess(n: nat, p: nat)
    requires n > 0
    ensures n * p == (n - 1) * p + p
  {
  }

  lemma {:induction false} SizeOf(t: Tree, d: nat)
    requires Level(t, d) && Filled(t, d) && d > 0
    ensures |Inorder(t)| >= (|t.items| + 1) * Power4(d) - 1
    decreases d, 0
  {
    KidSize(t.kids[0], d - 1);
    RestSize(t.items, t.kids[1..], d - 1);
    OneLess(|t.items| + 1, Power4(d));
  }

  lemma {:induction false} KidSize(t: Tree, d: nat)
    requires Kid(t, d)
    ensures |Inorder(t)| >= Power4(d + 1) - 1
    decreases d, 1
  {
    if d > 0 {
      SizeOf(t, d);
      Least(|t.items| + 1, Power4(d));
    }
  }

  lemma Least(n: nat, p: nat)
    requires n >= 4
    ensures n * p >= 4 * p
  {
    if n > 4 { Least(n - 1, p); }
  }

  /** The leaves of a tree with n items are at most log4((n + 1) / 2) levels down. */
  lemma HeightIsLogarithmic(t: Tree, d: nat)
    requires Shaped(t, d)
    ensures 2 * Power4(d) <= |Inorder(t)| + 1
  {
    if d > 0 {
      SizeOf(t, d);
      AtLeastTwo(|t.items| + 1, Power4(d));
    }
  }

  lemma AtLeastTwo(n: nat, p: nat)
    requires n >= 2
    ensures n * p >= 2 * p
  {
    if n > 2 { AtLeastTwo(n - 1, p); }
  }
}
