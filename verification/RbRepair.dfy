/** Balance while an entry is being removed from a red-black tree. */
module RbRepair {
  import opened RbTree

  /** A tree whose first node may be red with red children. */
  function Blackened(t: Tree): Tree {
    if t.Leaf? then t else t.(color := Black)
  }

  /** The tree in the hole has one black node too few; otherwise, and but for its
      color, all is balanced. */
  ghost predicate Short(k: Ctx, t: Tree) {
    && Even(t) && EvenCtx(k, Blacks(t) + 1)
    && NoRedRed(Blackened(t)) && NoRedRedCtx(k, false) && BlackTop(k)
  }

  /** The sibling of a tree that is short is never a leaf. */
  lemma SiblingExists(k: Ctx, t: Tree)
    requires Short(k, t) && k.In?
    ensures k.sib.Node? && (IsRed(k.sib) ==> k.color.Black? && Child(k.sib, k.c).Node? && Child(k.sib, !k.c).Node?)
    ensures IsRed(k.sib) ==> !IsRed(Child(k.sib, k.c)) && !IsRed(Child(k.sib, !k.c))
  {
  }

  /** Painting a red short tree black settles the debt. */
  lemma PaintSettles(k: Ctx, t: Tree)
    requires Short(k, t) && (k.Top? || IsRed(t))
    ensures RedBlack(Plug(k, Blackened(t)))
  {
    if t.Node? { assert Even(Blackened(t)) && (IsRed(t) ==> Blacks(Blackened(t)) == Blacks(t) + 1); }
    PlugEven(k, Blackened(t));
    PlugNoRedRed(k, Blackened(t));
    PlugRoot(k, Blackened(t));
  }

  // Red sibling: it turns up, black, over the red parent.

  function TurnedCtx(k: Ctx): Ctx
    requires k.In? && k.sib.Node?
  {
    In(k.c, k.e, Red, Child(k.sib, k.c), In(k.c, k.sib.e, Black, Child(k.sib, !k.c), k.up))
  }

  lemma TurnedIsShort(k: Ctx, t: Tree)
    requires Short(k, t) && k.In? && IsRed(k.sib) && !IsRed(t)
    ensures Short(TurnedCtx(k), t) && k.color.Black? && !IsRed(TurnedCtx(k).sib)
    ensures Inorder(Plug(TurnedCtx(k), t)) == Inorder(Plug(k, t))
  {
    SiblingExists(k, t);
    Side(k.sib, k.c);
    var a, b := Child(k.sib, k.c), Child(k.sib, !k.c);
    MakeFacts(k.sib.e, Red, k.c, a, b);
    assert EvenCtx(k.up, Blacks(t) + 1 + 1);
    assert Blacks(a) == Blacks(t) + 1 && Blacks(b) == Blacks(t) + 1;
    assert EvenCtx(TurnedCtx(k).up, Blacks(t) + 1);
    PlugInorder(k.up, Outer(k, t));
    PlugInorder(k.up, Outer(TurnedCtx(k).up, Outer(TurnedCtx(k), t)));
    MakeFacts(k.e, k.color, k.c, t, k.sib);
    MakeFacts(k.e, Red, k.c, t, a);
    MakeFacts(k.sib.e, Black, k.c, Outer(TurnedCtx(k), t), b);
    Regroup(Inorder(t), k.e, Inorder(a), k.sib.e, Inorder(b));
    Regroup(Inorder(b), k.sib.e, Inorder(a), k.e, Inorder(t));
  }

  // Black sibling with black children: it turns red, and the debt moves up.

  function Passed(k: Ctx, t: Tree): Tree
    requires k.In? && k.sib.Node?
  {
    Make(k.e, k.color, k.c, t, k.sib.(color := Red))
  }

  lemma PassedIsShort(k: Ctx, t: Tree)
    requires Short(k, t) && k.In? && k.sib.Node? && !IsRed(k.sib) && !IsRed(t)
    requires !IsRed(k.sib.left) && !IsRed(k.sib.right)
    ensures Short(k.up, Passed(k, t))
    ensures Inorder(Plug(k.up, Passed(k, t))) == Inorder(Plug(k, t))
  {
    var u := k.sib.(color := Red);
    assert Even(u) && Blacks(u) == Blacks(t) && NoRedRed(u);
    MakeFacts(k.e, k.color, k.c, t, u);
    MakeFacts(k.e, Black, k.c, t, u);
    assert Blackened(Passed(k, t)) == Make(k.e, Black, k.c, t, u);
    BlackHole(k.up, k.color.Red?);
    PlugInorder(k.up, Outer(k, t));
    PlugInorder(k.up, Passed(k, t));
    MakeFacts(k.e, k.color, k.c, t, k.sib);
  }

  // Black sibling whose red child is the inner one: that child turns up.

  function InnerSib(k: Ctx): Tree
    requires k.In? && k.sib.Node? && Child(k.sib, k.c).Node?
  {
    var m := Child(k.sib, k.c);
    Make(m.e, Black, k.c, Child(m, k.c), Make(k.sib.e, Red, k.c, Child(m, !k.c), Child(k.sib, !k.c)))
  }

  lemma InnerSibFacts(k: Ctx)
    requires k.In? && k.sib.Node? && !IsRed(k.sib) && Even(k.sib) && NoRedRed(k.sib)
    requires IsRed(Child(k.sib, k.c)) && !IsRed(Child(k.sib, !k.c))
    ensures Even(InnerSib(k)) && Blacks(InnerSib(k)) == Blacks(k.sib) && NoRedRed(InnerSib(k))
    ensures IsRed(Child(InnerSib(k), !k.c)) && !IsRed(InnerSib(k))
  {
    var m, b := Child(k.sib, k.c), Child(k.sib, !k.c);
    var u := Make(k.sib.e, Red, k.c, Child(m, !k.c), b);
    Side(k.sib, k.c);
    Side(m, k.c);
    MakeFacts(k.sib.e, Black, k.c, m, b);
    MakeFacts(m.e, Red, k.c, Child(m, k.c), Child(m, !k.c));
    MakeFacts(k.sib.e, Red, k.c, Child(m, !k.c), b);
    MakeFacts(m.e, Black, k.c, Child(m, k.c), u);
  }

  lemma InnerIsShort(k: Ctx, t: Tree)
    requires Short(k, t) && k.In? && k.sib.Node? && !IsRed(k.sib)
    requires IsRed(Child(k.sib, k.c)) && !IsRed(Child(k.sib, !k.c))
    ensures Short(k.(sib := InnerSib(k)), t) && IsRed(Child(InnerSib(k), !k.c)) && !IsRed(InnerSib(k))
    ensures Inorder(Plug(k.(sib := InnerSib(k)), t)) == Inorder(Plug(k, t))
  {
    InnerSibFacts(k);
    InnerEntries(k);
    PlugInorder(k, t);
    PlugInorder(k.(sib := InnerSib(k)), t);
  }

  lemma InnerEntries(k: Ctx)
    requires k.In? && k.sib.Node? && Child(k.sib, k.c).Node?
    ensures Inorder(InnerSib(k)) == Inorder(k.sib)
  {
    var m, b := Child(k.sib, k.c), Child(k.sib, !k.c);
    Side(k.sib, k.c);
    Side(m, k.c);
    MakeFacts(k.sib.e, k.sib.color, k.c, m, b);
    MakeFacts(m.e, m.color, k.c, Child(m, k.c), Child(m, !k.c));
    MakeFacts(k.sib.e, Red, k.c, Child(m, !k.c), b);
    MakeFacts(m.e, Black, k.c, Child(m, k.c), Make(k.sib.e, Red, k.c, Child(m, !k.c), b));
    Regroup(Inorder(Child(m, k.c)), m.e, Inorder(Child(m, !k.c)), k.sib.e, Inorder(b));
    Regroup(Inorder(b), k.sib.e, Inorder(Child(m, !k.c)), m.e, Inorder(Child(m, k.c)));
  }

  // Black sibling whose outer child is red: the sibling turns up and pays the debt.

  function Paid(k: Ctx, t: Tree): Tree
    requires k.In? && k.sib.Node? && Child(k.sib, !k.c).Node?
  {
    Make(k.sib.e, k.color, k.c, Make(k.e, Black, k.c, t, Child(k.sib, k.c)), Child(k.sib, !k.c).(color := Black))
  }

  lemma PaidIsBalanced(k: Ctx, t: Tree)
    requires Short(k, t) && k.In? && k.sib.Node? && !IsRed(k.sib) && IsRed(Child(k.sib, !k.c)) && !IsRed(t)
    ensures Short(Top, Plug(k.up, Paid(k, t)))
    ensures Inorder(Plug(k.up, Paid(k, t))) == Inorder(Plug(k, t))
  {
    var a, b := Child(k.sib, k.c), Child(k.sib, !k.c);
    var b' := b.(color := Black);
    var p := Make(k.e, Black, k.c, t, a);
    Side(k.sib, k.c);
    MakeFacts(k.sib.e, Black, k.c, a, b);
    assert Even(b') && Blacks(b') == Blacks(b) + 1 && NoRedRed(b') && Inorder(b') == Inorder(b);
    MakeFacts(k.e, Black, k.c, t, a);
    MakeFacts(k.sib.e, k.color, k.c, p, b');
    PlugEven(k.up, Paid(k, t));
    PlugNoRedRed(k.up, Paid(k, t));
    BlackenedIsFine(Plug(k.up, Paid(k, t)));
    PaidEntries(k, t);
  }

  lemma BlackenedIsFine(t: Tree)
    requires NoRedRed(t)
    ensures NoRedRed(Blackened(t))
  {
  }

  lemma PaidEntries(k: Ctx, t: Tree)
    requires k.In? && k.sib.Node? && Child(k.sib, !k.c).Node?
    ensures Inorder(Plug(k.up, Paid(k, t))) == Inorder(Plug(k, t))
  {
    var a, b := Child(k.sib, k.c), Child(k.sib, !k.c);
    var p := Make(k.e, Black, k.c, t, a);
    Side(k.sib, k.c);
    assert Inorder(b.(color := Black)) == Inorder(b);
    MakeFacts(k.sib.e, k.sib.color, k.c, a, b);
    MakeFacts(k.e, k.color, k.c, t, k.sib);
    MakeFacts(k.e, Black, k.c, t, a);
    MakeFacts(k.sib.e, k.color, k.c, p, b.(color := Black));
    PlugInorder(k.up, Outer(k, t));
    PlugInorder(k.up, Paid(k, t));
    Regroup(Inorder(t), k.e, Inorder(a), k.sib.e, Inorder(b));
    Regroup(Inorder(b), k.sib.e, Inorder(a), k.e, Inorder(t));
  }

  // Taking a node with at most one child out of the tree.

  /** What is left below a node with at most one child. */
  function OnlyChild(t: Tree): Tree
    requires t.Node?
  {
    if t.left.Leaf? then t.right else t.left
  }

  lemma SpliceBlack(k: Ctx, t: Tree)
    requires t.Node? && (t.left.Leaf? || t.right.Leaf?) && t.color.Black? && RedBlack(Plug(k, t))
    ensures Short(k, OnlyChild(t))
  {
    PlugEven(k, t);
    PlugNoRedRed(k, t);
    BlackTopOf(k, t);
    BlackHole(k, IsRed(t));
    BlackenedIsFine(OnlyChild(t));
  }

  lemma SpliceRed(k: Ctx, t: Tree)
    requires t.Node? && (t.left.Leaf? || t.right.Leaf?) && t.color.Red? && RedBlack(Plug(k, t))
    ensures RedBlack(Plug(k, OnlyChild(t)))
  {
    PlugEven(k, t);
    PlugNoRedRed(k, t);
    BlackTopOf(k, t);
    BlackHole(k, IsRed(t));
    PlugEven(k, OnlyChild(t));
    PlugNoRedRed(k, OnlyChild(t));
    PlugRoot(k, OnlyChild(t));
  }

  lemma {:induction false} BlackTopOf(k: Ctx, t: Tree)
    requires !IsRed(Plug(k, t))
    ensures BlackTop(k) && (k.Top? ==> !IsRed(t))
  {
    if k.In? && k.up.In? { BlackTopOf(k.up, Outer(k, t)); }
  }
}
