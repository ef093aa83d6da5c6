/** Red-black trees as values, with a path to the part a loop works on. */
module RbTree {
  import opened Powers
  import opened Wrappers

  datatype Color = Black | Red

  /** An entry and the object that holds it. */
  datatype Entry = Entry(id: nat, key: nat, value: nat)

  datatype Tree = Leaf | Node(e: Entry, color: Color, left: Tree, right: Tree)

  /** A node with `at` on side `c` and `other` on the other; right is true. */
  function Make(e: Entry, color: Color, c: bool, at: Tree, other: Tree): Tree {
    if c then Node(e, color, other, at) else Node(e, color, at, other)
  }

  function Child(t: Tree, c: bool): Tree
    requires t.Node?
  {
    if c then t.right else t.left
  }

  /** A tree with a hole, innermost node first; the hole is on its side `c`. */
  datatype Ctx = Top | In(c: bool, e: Entry, color: Color, sib: Tree, up: Ctx)

  function Plug(k: Ctx, t: Tree): Tree {
    match k
    case Top => t
    case In(c, e, color, sib, up) => Plug(up, Make(e, color, c, t, sib))
  }

  function Depth(k: Ctx): nat {
    if k.Top? then 0 else 1 + Depth(k.up)
  }

  function Inorder(t: Tree): seq<Entry> {
    if t.Leaf? then [] else Inorder(t.left) + [t.e] + Inorder(t.right)
  }

  function Before(k: Ctx): seq<Entry> {
    if k.Top? then [] else Before(k.up) + (if k.c then Inorder(k.sib) + [k.e] else [])
  }

  function After(k: Ctx): seq<Entry> {
    if k.Top? then [] else (if k.c then [] else [k.e] + Inorder(k.sib)) + After(k.up)
  }

  lemma {:induction false} PlugInorder(k: Ctx, t: Tree)
    ensures Inorder(Plug(k, t)) == Before(k) + Inorder(t) + After(k)
  {
    if k.In? { PlugInorder(k.up, Make(k.e, k.color, k.c, t, k.sib)); }
  }

  /** An entry with the key, a node before those below it. No keys are compared but for
      equality. */
  function Highest(t: Tree, key: nat): Option<Entry> {
    if t.Leaf? then None
    else if t.e.key == key then Some(t.e)
    else if Highest(t.left, key).Some? then Highest(t.left, key)
    else Highest(t.right, key)
  }

  lemma {:induction false} HighestIsIn(t: Tree, key: nat)
    ensures Highest(t, key).Some? ==> Highest(t, key).value in Inorder(t) && Highest(t, key).value.key == key
  {
    if t.Node? {
      HighestIsIn(t.left, key);
      HighestIsIn(t.right, key);
    }
  }

  /** With no such entry around the hole it is the one in the hole. */
  lemma {:induction false} HighestInHole(k: Ctx, t: Tree, key: nat)
    requires forall e :: e in Before(k) || e in After(k) ==> e.key != key
    ensures Highest(Plug(k, t), key) == Highest(t, key)
  {
    if k.In? {
      SideLacks(k, key);
      HighestIsIn(k.sib, key);
      HighestInHole(k.up, Make(k.e, k.color, k.c, t, k.sib), key);
    }
  }

  lemma SideLacks(k: Ctx, key: nat)
    requires k.In? && forall e :: e in Before(k) || e in After(k) ==> e.key != key
    ensures k.e.key != key && forall e :: e in Inorder(k.sib) ==> e.key != key
    ensures forall e :: e in Before(k.up) || e in After(k.up) ==> e.key != key
  {
    assert k.c ==> Before(k) == Before(k.up) + (Inorder(k.sib) + [k.e]) && After(k) == [] + After(k.up);
    assert !k.c ==> After(k) == [k.e] + Inorder(k.sib) + After(k.up) && Before(k) == Before(k.up) + [];
    assert k.e in Before(k) || k.e in After(k);
  }

  // ---------------------------------------------------------------------------
  // Red-black balance
  // ---------------------------------------------------------------------------

  function Weight(color: Color): nat {
    if color.Black? then 1 else 0
  }

  /** Black nodes on the leftmost path. */
  function Blacks(t: Tree): nat {
    if t.Leaf? then 0 else Blacks(t.left) + Weight(t.color)
  }

  /** Every path has the same number of black nodes. */
  predicate Even(t: Tree) {
    t.Node? ==> Even(t.left) && Even(t.right) && Blacks(t.left) == Blacks(t.right)
  }

  /** The tree is even when a tree with `n` blacks fills the hole. */
  predicate EvenCtx(k: Ctx, n: nat) {
    k.In? ==> Even(k.sib) && Blacks(k.sib) == n && EvenCtx(k.up, n + Weight(k.color))
  }

  lemma {:induction false} PlugEven(k: Ctx, t: Tree)
    ensures Even(Plug(k, t)) <==> Even(t) && EvenCtx(k, Blacks(t))
  {
    if k.In? {
      var m := Make(k.e, k.color, k.c, t, k.sib);
      PlugEven(k.up, m);
      if Even(m) && EvenCtx(k.up, Blacks(m)) { assert Blacks(m) == Blacks(t) + Weight(k.color); }
      if Even(t) && EvenCtx(k, Blacks(t)) { assert Blacks(m) == Blacks(t) + Weight(k.color); }
    }
  }

  predicate IsRed(t: Tree) {
    t.Node? && t.color.Red?
  }

  /** No red node has a red child. */
  predicate NoRedRed(t: Tree) {
    t.Node? ==>
      && NoRedRed(t.left) && NoRedRed(t.right)
      && (t.color.Red? ==> !IsRed(t.left) && !IsRed(t.right))
  }

  predicate NoRedRedCtx(k: Ctx, red: bool) {
    k.In? ==>
      && NoRedRed(k.sib)
      && (k.color.Red? ==> !red && !IsRed(k.sib))
      && NoRedRedCtx(k.up, k.color.Red?)
  }

  lemma {:induction false} PlugNoRedRed(k: Ctx, t: Tree)
    ensures NoRedRed(Plug(k, t)) <==> NoRedRed(t) && NoRedRedCtx(k, IsRed(t))
  {
    if k.In? { PlugNoRedRed(k.up, Make(k.e, k.color, k.c, t, k.sib)); }
  }

  lemma {:induction false} BlackHole(k: Ctx, red: bool)
    requires NoRedRedCtx(k, red)
    ensures NoRedRedCtx(k, false)
  {
  }

  /** Balance and order of a node, seen from its side `c`. */
  lemma MakeFacts(e: Entry, color: Color, c: bool, a: Tree, b: Tree)
    ensures Even(Make(e, color, c, a, b)) <==> Even(a) && Even(b) && Blacks(a) == Blacks(b)
    ensures Even(Make(e, color, c, a, b)) ==> Blacks(Make(e, color, c, a, b)) == Blacks(a) + Weight(color)
    ensures NoRedRed(Make(e, color, c, a, b)) <==>
              NoRedRed(a) && NoRedRed(b) && (color.Red? ==> !IsRed(a) && !IsRed(b))
    ensures Inorder(Make(e, color, c, a, b)) ==
            if c then Inorder(b) + [e] + Inorder(a) else Inorder(a) + [e] + Inorder(b)
  {
  }

  /** The tree around the hole of `k`, up to the node above it. */
  function Outer(k: Ctx, t: Tree): Tree
    requires k.In?
  {
    Make(k.e, k.color, k.c, t, k.sib)
  }

  lemma OuterEven(k: Ctx, t: Tree)
    requires k.In?
    ensures Even(t) && EvenCtx(k, Blacks(t)) <==> Even(Outer(k, t)) && EvenCtx(k.up, Blacks(Outer(k, t)))
  {
    MakeFacts(k.e, k.color, k.c, t, k.sib);
  }

  lemma OuterNoRedRed(k: Ctx, t: Tree)
    requires k.In?
    ensures NoRedRed(t) && NoRedRedCtx(k, IsRed(t)) <==> NoRedRed(Outer(k, t)) && NoRedRedCtx(k.up, k.color.Red?)
  {
    MakeFacts(k.e, k.color, k.c, t, k.sib);
  }

  /** The first node is black, unless it fills the hole itself. */
  predicate BlackTop(k: Ctx) {
    k.In? ==> if k.up.Top? then k.color.Black? else BlackTop(k.up)
  }

  lemma {:induction false} PlugRoot(k: Ctx, t: Tree)
    requires BlackTop(k) && (k.Top? ==> !IsRed(t))
    ensures !IsRed(Plug(k, t))
  {
    if k.In? && k.up.In? { PlugRoot(k.up, Make(k.e, k.color, k.c, t, k.sib)); }
  }

  predicate RedBlack(t: Tree) {
    Even(t) && NoRedRed(t) && !IsRed(t)
  }

  function Height(t: Tree): nat {
    if t.Leaf? then 0 else 1 + (if Height(t.left) > Height(t.right) then Height(t.left) else Height(t.right))
  }

  lemma {:induction false} BlacksBoundHeight(t: Tree)
    requires Even(t) && NoRedRed(t)
    ensures Height(t) <= 2 * Blacks(t) + (if IsRed(t) then 1 else 0)
  {
    if t.Node? {
      BlacksBoundHeight(t.left);
      BlacksBoundHeight(t.right);
    }
  }

  lemma {:induction false} BlacksBoundSize(t: Tree)
    requires Even(t)
    ensures Pow2(Blacks(t)) <= |Inorder(t)| + 1
  {
    if t.Node? {
      BlacksBoundSize(t.left);
      BlacksBoundSize(t.right);
    }
  }

  /** Paths are at most 2·log2(n + 1) long, for n entries. */
  lemma HeightIsLogarithmic(t: Tree)
    requires RedBlack(t)
    ensures Pow2((Height(t) + 1) / 2) <= |Inorder(t)| + 1
  {
    BlacksBoundHeight(t);
    BlacksBoundSize(t);
    Pow2Grows((Height(t) + 1) / 2, Blacks(t));
  }

  // ---------------------------------------------------------------------------
  // Search order; equal keys may lie on both sides
  // ---------------------------------------------------------------------------

  predicate Sorted(s: seq<Entry>) {
    forall i, j :: 0 <= i < j < |s| ==> s[i].key <= s[j].key
  }

  function Ids(t: Tree): set<nat> {
    if t.Leaf? then {} else Ids(t.left) + {t.e.id} + Ids(t.right)
  }

  function CtxIds(k: Ctx): set<nat> {
    if k.Top? then {} else {k.e.id} + Ids(k.sib) + CtxIds(k.up)
  }

  /** No object is used twice. */
  predicate Distinct(t: Tree) {
    t.Node? ==>
      && Distinct(t.left) && Distinct(t.right)
      && t.e.id !in Ids(t.left) && t.e.id !in Ids(t.right) && Ids(t.left) !! Ids(t.right)
  }

  predicate DistinctCtx(k: Ctx) {
    k.In? ==>
      && Distinct(k.sib) && DistinctCtx(k.up)
      && k.e.id !in Ids(k.sib) && k.e.id !in CtxIds(k.up) && Ids(k.sib) !! CtxIds(k.up)
  }

  lemma {:induction false} IdsAreInorder(t: Tree, x: nat)
    ensures x in Ids(t) <==> exists i :: 0 <= i < |Inorder(t)| && Inorder(t)[i].id == x
  {
    if t.Node? {
      IdsAreInorder(t.left, x);
      IdsAreInorder(t.right, x);
      var l, r := Inorder(t.left), Inorder(t.right);
      var s := Inorder(t);
      assert s == l + [t.e] + r;
      assert s[|l|] == t.e;
      if i :| 0 <= i < |l| && l[i].id == x { assert s[i] == l[i]; }
      if i :| 0 <= i < |r| && r[i].id == x { assert s[|l| + 1 + i] == r[i]; }
      if i :| 0 <= i < |s| && s[i].id == x {
        assert if i < |l| then s[i] == l[i] else if i == |l| then s[i] == t.e else s[i] == r[i - |l| - 1];
      }
    }
  }

  /** A node seen from its side `c`. */
  lemma Side(t: Tree, c: bool)
    requires t.Node?
    ensures t == Make(t.e, t.color, c, Child(t, c), Child(t, !c))
    ensures Ids(t) == Ids(Child(t, c)) + {t.e.id} + Ids(Child(t, !c))
    ensures Distinct(t) <==>
              && Distinct(Child(t, c)) && Distinct(Child(t, !c)) && Ids(Child(t, c)) !! Ids(Child(t, !c))
              && t.e.id !in Ids(Child(t, c)) && t.e.id !in Ids(Child(t, !c))
  {
  }

  /** The two sides of a rotation: `a` above `b`, `b` on side `!c`, turned towards `c`. */
  function Rotated(t: Tree, c: bool): Tree
    requires t.Node? && Child(t, !c).Node?
  {
    var b := Child(t, !c);
    Make(b.e, b.color, c, Make(t.e, t.color, c, Child(t, c), Child(b, c)), Child(b, !c))
  }

  lemma RotationKeepsIds(t: Tree, c: bool)
    requires t.Node? && Child(t, !c).Node?
    ensures Ids(Rotated(t, c)) == Ids(t)
    ensures Distinct(t) ==> Distinct(Rotated(t, c))
  {
    var b := Child(t, !c);
    var u := Make(t.e, t.color, c, Child(t, c), Child(b, c));
    Side(t, c);
    Side(b, c);
    Side(u, c);
    Side(Rotated(t, c), c);
  }

  lemma Regroup(a: seq<Entry>, x: Entry, b: seq<Entry>, y: Entry, c: seq<Entry>)
    ensures a + [x] + (b + [y] + c) == (a + [x] + b) + [y] + c
  {
  }

  lemma IdAt(t: Tree, i: nat)
    requires i < |Inorder(t)|
    ensures Inorder(t)[i].id in Ids(t)
  {
    IdsAreInorder(t, Inorder(t)[i].id);
  }

  lemma {:induction false} DistinctInorder(t: Tree, i: nat, j: nat)
    requires Distinct(t) && i < j < |Inorder(t)|
    ensures Inorder(t)[i].id != Inorder(t)[j].id
  {
    var l, r := Inorder(t.left), Inorder(t.right);
    var s, m := Inorder(t), |l|;
    assert s == l + [t.e] + r;
    if j < m { DistinctInorder(t.left, i, j); }
    else if i > m { DistinctInorder(t.right, i - m - 1, j - m - 1); }
    else {
      if i < m { IdAt(t.left, i); }
      if j > m { IdAt(t.right, j - m - 1); }
    }
  }

  /** An object whose entry has left the order is not in the tree any more. */
  lemma GoneFromTree(t: Tree, t': Tree, i: nat)
    requires Distinct(t) && i < |Inorder(t)| && Inorder(t') == Inorder(t)[..i] + Inorder(t)[i + 1..]
    ensures Inorder(t)[i].id !in Ids(t')
  {
    var s, s' := Inorder(t), Inorder(t');
    IdsAreInorder(t', s[i].id);
    forall j | 0 <= j < |s'| ensures s'[j].id != s[i].id {
      if j < i { DistinctInorder(t, j, i); } else { DistinctInorder(t, i, j + 1); }
    }
  }

  /** The place of an object in the tree. */
  lemma {:induction false} FindIn(k: Ctx, t: Tree, x: nat) returns (k': Ctx, t': Tree)
    requires x in Ids(t)
    ensures Plug(k', t') == Plug(k, t) && t'.Node? && t'.e.id == x
    decreases t
  {
    if x == t.e.id {
      k', t' := k, t;
    } else if x in Ids(t.left) {
      k', t' := FindIn(In(false, t.e, t.color, t.right, k), t.left, x);
    } else {
      k', t' := FindIn(In(true, t.e, t.color, t.left, k), t.right, x);
    }
  }
}
