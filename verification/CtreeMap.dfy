/** The crit-bit tree map over the object pool, updated in place. */
module CtreeMap {
  import opened CritBit
  import opened Wrappers

  const OID_NULL: nat := 0

  /** What a PMEMoid refers to: an inner node, or a user's value (or nothing). */
  datatype Slot = Value(v: nat) | Node(id: nat)

  /** A tree_map_entry. */
  datatype Item = Item(key: nat, slot: Slot)

  /** A tree_map_node. */
  datatype Cell = Cell(diff: nat, e0: Item, e1: Item)

  type Heap = map<nat, Cell>

  const EMPTY: Item := Item(0, Value(OID_NULL))

  function Entry(n: Cell, c: bool): Item {
    if c then n.e1 else n.e0
  }

  function WithEntry(n: Cell, c: bool, e: Item): Cell {
    if c then n.(e1 := e) else n.(e0 := e)
  }

  /** The entry that refers to a trie. */
  function ItemOf(t: Trie): Item {
    match t
    case Leaf(k, v) => Item(k, Value(v))
    case Fork(id, _, _, _) => Item(0, Node(id))
  }

  predicate TrieAt(h: Heap, t: Trie)
    decreases t
  {
    t.Fork? ==>
      && t.id in h && h[t.id] == Cell(t.diff, ItemOf(t.left), ItemOf(t.right))
      && TrieAt(h, t.left) && TrieAt(h, t.right)
  }

  function Ids(t: Trie): set<nat> {
    if t.Leaf? then {} else Ids(t.left) + {t.id} + Ids(t.right)
  }

  predicate Distinct(t: Trie) {
    t.Fork? ==>
      && Distinct(t.left) && Distinct(t.right)
      && t.id !in Ids(t.left) && t.id !in Ids(t.right) && Ids(t.left) !! Ids(t.right)
  }

  /** A trie with a hole, innermost node first. */
  datatype Ctx = Top | In(c: bool, id: nat, diff: nat, sib: Trie, up: Ctx)

  function Plug(k: Ctx, t: Trie): Trie {
    if k.Top? then t else Plug(k.up, Make(k.id, k.diff, k.c, t, k.sib))
  }

  function CtxIds(k: Ctx): set<nat> {
    if k.Top? then {} else {k.id} + Ids(k.sib) + CtxIds(k.up)
  }

  predicate DistinctCtx(k: Ctx) {
    k.In? ==>
      && Distinct(k.sib) && DistinctCtx(k.up)
      && k.id !in Ids(k.sib) && k.id !in CtxIds(k.up) && Ids(k.sib) !! CtxIds(k.up)
  }

  /** The nodes around the hole, which holds `e`; `root` is the map's root entry. */
  predicate CtxAt(h: Heap, root: Item, e: Item, k: Ctx)
    decreases k
  {
    if k.Top? then root == e
    else
      && k.id in h
      && h[k.id] == (if k.c then Cell(k.diff, ItemOf(k.sib), e) else Cell(k.diff, e, ItemOf(k.sib)))
      && TrieAt(h, k.sib) && CtxAt(h, root, Item(0, Node(k.id)), k.up)
  }

  predicate At(h: Heap, root: Item, k: Ctx, t: Trie) {
    CtxAt(h, root, ItemOf(t), k) && TrieAt(h, t) && Distinct(t) && DistinctCtx(k) && Ids(t) !! CtxIds(k)
  }

  /** A pointer to an entry: the root, or one of a node's two. */
  datatype Place = Root | Of(id: nat, c: bool)

  function PlaceOf(k: Ctx): Place {
    if k.Top? then Root else Of(k.id, k.c)
  }

  predicate Same(h: Heap, h': Heap, ids: set<nat>) {
    forall i :: i in ids && i in h ==> i in h' && h'[i] == h[i]
  }

  lemma {:induction false} TrieFrame(h: Heap, h': Heap, t: Trie)
    requires TrieAt(h, t) && Same(h, h', Ids(t))
    ensures TrieAt(h', t)
  {
    if t.Fork? {
      TrieFrame(h, h', t.left);
      TrieFrame(h, h', t.right);
    }
  }

  lemma {:induction false} CtxFrame(h: Heap, h': Heap, root: Item, e: Item, k: Ctx)
    requires CtxAt(h, root, e, k) && Same(h, h', CtxIds(k))
    ensures CtxAt(h', root, e, k)
    decreases k
  {
    if k.In? {
      TrieFrame(h, h', k.sib);
      CtxFrame(h, h', root, Item(0, Node(k.id)), k.up);
    }
  }

  lemma Down(h: Heap, root: Item, k: Ctx, t: Trie, c: bool)
    requires At(h, root, k, t) && t.Fork?
    ensures At(h, root, In(c, t.id, t.diff, Child(t, !c), k), Child(t, c))
    ensures Plug(In(c, t.id, t.diff, Child(t, !c), k), Child(t, c)) == Plug(k, t)
    ensures t.id in h && h[t.id].diff == t.diff && Entry(h[t.id], c) == ItemOf(Child(t, c))
  {
  }

  lemma Up(h: Heap, root: Item, k: Ctx, t: Trie)
    requires At(h, root, k, t) && k.In?
    ensures At(h, root, k.up, Make(k.id, k.diff, k.c, t, k.sib))
    ensures Plug(k.up, Make(k.id, k.diff, k.c, t, k.sib)) == Plug(k, t)
  {
  }

  lemma {:induction false} Out(h: Heap, root: Item, k: Ctx, t: Trie)
    requires At(h, root, k, t)
    ensures At(h, root, Top, Plug(k, t))
  {
    if k.In? {
      Up(h, root, k, t);
      Out(h, root, k.up, Make(k.id, k.diff, k.c, t, k.sib));
    }
  }

  /** Storing the entry of another trie in the hole. */
  lemma Fill(h: Heap, h': Heap, root: Item, root': Item, k: Ctx, e: Item, t: Trie)
    requires CtxAt(h, root, e, k) && DistinctCtx(k)
    requires TrieAt(h', t) && Distinct(t) && Ids(t) !! CtxIds(k)
    requires if k.Top? then root' == ItemOf(t) && Same(h, h', {})
             else
               && root' == root && k.id in h && k.id in h' && h'[k.id] == WithEntry(h[k.id], k.c, ItemOf(t))
               && Same(h, h', CtxIds(k) - {k.id})
    ensures At(h', root', k, t)
  {
    if k.In? {
      TrieFrame(h, h', k.sib);
      CtxFrame(h, h', root, Item(0, Node(k.id)), k.up);
    }
  }

  class CtreeMap {
    var root: Item
    var nodes: Heap
    ghost var trie: Option<Trie>

    /** The pool holds the trie and nothing else. */
    ghost predicate Valid()
      reads this
    {
      match trie
      case None => root == EMPTY && nodes == map[]
      case Some(t) => At(nodes, root, Top, t) && Good(t) && nodes.Keys == Ids(t)
    }

    /** The map it stands for. */
    ghost function Contents(): map<nat, nat>
      reads this
    {
      if trie.None? then map[] else Map(trie.value)
    }

    constructor ()
      ensures Valid() && Contents() == map[]
    {
      root, nodes, trie := EMPTY, map[], None;
    }

    method Load(p: Place) returns (e: Item)
      requires p.Of? ==> p.id in nodes
      ensures e == if p.Root? then root else Entry(nodes[p.id], p.c)
    {
      e := if p.Root? then root else Entry(nodes[p.id], p.c);
    }

    method Store(p: Place, e: Item)
      requires p.Of? ==> p.id in nodes
      modifies this`root, this`nodes
      ensures if p.Root? then root == e && nodes == old(nodes)
              else root == old(root) && nodes == old(nodes)[p.id := WithEntry(old(nodes[p.id]), p.c, e)]
      ensures nodes.Keys == old(nodes.Keys)
    {
      if p.Root? { root := e; } else { nodes := nodes[p.id := WithEntry(nodes[p.id], p.c, e)]; }
    }

    /** Follows the bits of the key to a leaf, from the root entry on. */
    method Descend(key: nat) returns (p: Place, parent: Option<Place>, ghost k: Ctx, ghost t: Trie)
      requires Valid()
      ensures trie.Some? ==> At(nodes, root, k, t) && t.Leaf? && Plug(k, t) == trie.value
      ensures trie.None? ==> k.Top? && root == EMPTY
      ensures p == PlaceOf(k) && Follows(k, key) && parent == if k.Top? then None else Some(PlaceOf(k.up))
      ensures p.Of? ==> p.id in nodes
    {
      p, parent, k, t := Root, None, Top, if trie.Some? then trie.value else Leaf(0, OID_NULL);
      var e := Load(p);
      while e.slot.Node?
        invariant trie.Some? ==> At(nodes, root, k, t) && Plug(k, t) == trie.value
        invariant trie.None? ==> k.Top? && root == EMPTY && t.Leaf?
        invariant p == PlaceOf(k) && e == ItemOf(t) && (p.Of? ==> p.id in nodes)
        invariant Follows(k, key) && parent == if k.Top? then None else Some(PlaceOf(k.up))
        decreases t
      {
        var c := Bit(key, nodes[e.slot.id].diff);
        Down(nodes, root, k, t, c);
        parent, p := Some(p), Of(e.slot.id, c);
        k, t := In(c, t.id, t.diff, Child(t, !c), k), Child(t, c);
        e := Load(p);
      }
    }

    /** The value of a key, or nothing. */
    method Get(key: nat) returns (value: Option<nat>)
      requires Valid() && key != 0
      ensures value == if key in Contents() then Some(Contents()[key]) else None
    {
      var p, _, k, t := Descend(key);
      var e := Load(p);
      if trie.Some? { Found(nodes, root, k, t, trie.value, key); }
      value := if e.key == key then Some(e.slot.v) else None;
    }

    /** Hangs the new leaf above the first node whose bit is below the critical
        one. The new node `n` is what the allocator returned. */
    method InsertLeaf(n: nat, key: nat, value: nat, diff: nat)
      requires Valid() && trie.Some? && n !in nodes
      modifies this
      ensures trie == old(Some(Add(trie.value, n, key, value, diff))) && At(nodes, root, Top, trie.value)
      ensures nodes.Keys == Ids(trie.value)
    {
      var d := Bit(key, diff);
      nodes := nodes[n := WithEntry(Cell(diff, EMPTY, EMPTY), d, Item(key, Value(value)))];
      NewNode(old(nodes), nodes, root, trie.value, n);
      var p := Root;
      ghost var k, t := Top, trie.value;
      var e := Load(p);
      while e.slot.Node? && nodes[e.slot.id].diff >= diff
        invariant trie == old(trie) && At(nodes, root, k, t) && p == PlaceOf(k) && e == ItemOf(t) &&
          Plug(k, t) == trie.value
        invariant Follows(k, key) && Above(k, diff) && n !in Ids(t) && n !in CtxIds(k)
        invariant n in nodes && Entry(nodes[n], d) == Item(key, Value(value)) && nodes[n].diff == diff
        invariant nodes.Keys == Ids(trie.value) + {n}
        decreases t
      {
        var c := Bit(key, nodes[e.slot.id].diff);
        Down(nodes, root, k, t, c);
        p := Of(e.slot.id, c);
        k, t := In(c, t.id, t.diff, Child(t, !c), k), Child(t, c);
        e := Load(p);
      }
      ghost var w := Make(n, diff, d, Leaf(key, value), t);
      PutAbove(p, e, n, d, k, t, diff, key, value);
      PathAdd(k, t, n, key, value, diff);
      AddedIds(k, t, n, diff, d, Leaf(key, value));
      Out(nodes, root, k, w);
      trie := Some(Plug(k, w));
    }

    /** The new node takes the place of the entry `p` points at, and that entry goes
        below it. */
    method PutAbove(p: Place, e: Item, n: nat, d: bool, ghost k: Ctx, ghost t: Trie, ghost diff: nat, ghost key: nat,
        ghost value: nat)
      requires At(nodes, root, k, t) && p == PlaceOf(k) && e == ItemOf(t) && n !in Ids(t) && n !in CtxIds(k)
      requires n in nodes && Entry(nodes[n], d) == Item(key, Value(value)) && nodes[n].diff == diff
      modifies this`nodes, this`root
      ensures At(nodes, root, k, Make(n, diff, d, Leaf(key, value), t)) && nodes.Keys == old(nodes.Keys)
    {
      ghost var before, was := nodes, root;
      nodes := nodes[n := WithEntry(nodes[n], !d, e)];
      ghost var w := Make(n, diff, d, Leaf(key, value), t);
      Attached(before, nodes, root, k, t, n, diff, d, key, value);
      before := nodes;
      Store(p, Item(0, Node(n)));
      TrieFrame(before, nodes, w);
      Fill(before, nodes, was, root, k, ItemOf(t), w);
    }

    /** Sets the value of a key. */
    method Insert(n: nat, key: nat, value: nat)
      requires Valid() && key != 0 && n !in nodes
      modifies this
      ensures Valid() && Contents() == old(Contents())[key := value]
      ensures trie == Some(old(if trie.None? then Leaf(key, value) else CritBit.Insert(trie.value, n, key, value)))
    {
      var p, _, k, t := Descend(key);
      var e := Load(p);
      if trie.Some? {
        Found(nodes, root, k, t, trie.value, key);
        InsertIsGood(trie.value, n, key, value);
      }
      if e.key == 0 || e.key == key {
        ghost var before, was := nodes, root;
        Store(p, Item(key, Value(value)));
        if trie.Some? {
          PathUpdate(k, t, key, value);
          Fill(before, nodes, was, root, k, ItemOf(t), Leaf(key, value));
          Out(nodes, root, k, Leaf(key, value));
          PlugIds(k, t);
          PlugIds(k, Leaf(key, value));
        }
        trie := Some(Plug(k, Leaf(key, value)));
      } else {
        InsertLeaf(n, key, value, FindCritBit(e.key, key));
      }
    }

    /** Removes a key and returns its value; an inner node with one child left goes. */
    method Remove(key: nat) returns (ret: nat)
      requires Valid() && key != 0
      modifies this
      ensures Valid() && Contents() == old(Contents()) - {key}
      ensures ret == if key in old(Contents()) then old(Contents())[key] else OID_NULL
    {
      var p, parent, k, t := Descend(key);
      var leaf := Load(p);
      if trie.Some? { Found(nodes, root, k, t, trie.value, key); }
      if leaf.key != key {
        return OID_NULL;
      }
      ret := leaf.slot.v;
      if parent.None? {
        root, trie := EMPTY, None;
        return;
      }
      RemoveBelow(parent.value, key, k, t);
    }

    /** The sibling of the leaf takes the place of their parent. */
    method RemoveBelow(parent: Place, key: nat, ghost k: Ctx, ghost t: Trie)
      requires Valid() && trie.Some? && At(nodes, root, k, t) && Plug(k, t) == trie.value && Follows(k, key)
      requires k.In? && t.Leaf? && t.key == key != 0 && parent == PlaceOf(k.up)
      modifies this
      ensures Valid() && Contents() == old(Contents()) - {key}
    {
      ParentReads(nodes, root, k, t, trie.value, key);
      DropIsGood(trie.value, key);
      PathDrop(k, t, key);
      var dest := Load(parent);
      var node := dest.slot.id;
      var e := Entry(nodes[node], Entry(nodes[node], false).key == key);
      ghost var before, was := nodes, root;
      Store(parent, e);
      Lifted(before, nodes, was, root, k);
      trie := Some(Plug(k.up, k.sib));
      DroppedIds(k, t);
      Release(node);
    }

    /** Frees a node that is no longer in the trie. */
    method Release(node: nat)
      requires trie.Some? && At(nodes, root, Top, trie.value) && node !in Ids(trie.value)
      modifies this`nodes
      ensures At(nodes, root, Top, trie.value) && nodes == old(nodes) - {node}
    {
      ghost var before := nodes;
      nodes := nodes - {node};
      TrieFrame(before, nodes, trie.value);
    }
  }

  /** The path into the hole is the one the bits of the key select. */
  predicate Follows(k: Ctx, key: nat) {
    k.In? ==> k.c == Bit(key, k.diff) && Follows(k.up, key)
  }

  predicate Above(k: Ctx, d: nat) {
    k.In? ==> k.diff >= d && Above(k.up, d)
  }

  lemma {:induction false} PathBest(k: Ctx, t: Trie, key: nat)
    requires Follows(k, key)
    ensures Best(Plug(k, t), key) == Best(t, key)
  {
    if k.In? { PathBest(k.up, Make(k.id, k.diff, k.c, t, k.sib), key); }
  }

  lemma {:induction false} PathUpdate(k: Ctx, t: Trie, key: nat, value: nat)
    requires Follows(k, key)
    ensures Update(Plug(k, t), key, value) == Plug(k, Update(t, key, value))
  {
    if k.In? { PathUpdate(k.up, Make(k.id, k.diff, k.c, t, k.sib), key, value); }
  }

  lemma {:induction false} PathAdd(k: Ctx, t: Trie, n: nat, key: nat, value: nat, d: nat)
    requires Follows(k, key) && Above(k, d)
    ensures Add(Plug(k, t), n, key, value, d) == Plug(k, Add(t, n, key, value, d))
  {
    if k.In? { PathAdd(k.up, Make(k.id, k.diff, k.c, t, k.sib), n, key, value, d); }
  }

  lemma {:induction false} PathDropUp(k: Ctx, t: Trie, key: nat)
    requires Follows(k, key) && t.Fork?
    ensures Plug(k, t).Fork? && Drop(Plug(k, t), key) == Plug(k, Drop(t, key))
  {
    if k.In? { PathDropUp(k.up, Make(k.id, k.diff, k.c, t, k.sib), key); }
  }

  lemma PathDrop(k: Ctx, t: Trie, key: nat)
    requires Follows(k, key) && k.In? && t.Leaf?
    ensures Plug(k, t).Fork? && Drop(Plug(k, t), key) == Plug(k.up, k.sib)
  {
    PathDropUp(k.up, Make(k.id, k.diff, k.c, t, k.sib), key);
  }

  lemma {:induction false} PlugIds(k: Ctx, t: Trie)
    ensures Ids(Plug(k, t)) == Ids(t) + CtxIds(k)
  {
    if k.In? { PlugIds(k.up, Make(k.id, k.diff, k.c, t, k.sib)); }
  }

  lemma AddedIds(k: Ctx, t: Trie, n: nat, diff: nat, d: bool, leaf: Trie)
    requires leaf.Leaf?
    ensures Ids(Plug(k, Make(n, diff, d, leaf, t))) == Ids(Plug(k, t)) + {n}
  {
    PlugIds(k, t);
    PlugIds(k, Make(n, diff, d, leaf, t));
  }

  lemma DroppedIds(k: Ctx, t: Trie)
    requires k.In? && t.Leaf? && k.id !in Ids(k.sib) && k.id !in CtxIds(k.up)
    ensures Ids(Plug(k.up, k.sib)) == Ids(Plug(k, t)) - {k.id}
  {
    PlugIds(k, t);
    PlugIds(k.up, k.sib);
  }

  lemma {:induction false} IdsInHeap(h: Heap, t: Trie, n: nat)
    requires TrieAt(h, t) && n !in h
    ensures n !in Ids(t)
  {
    if t.Fork? {
      IdsInHeap(h, t.left, n);
      IdsInHeap(h, t.right, n);
    }
  }

  lemma NewNode(h: Heap, h': Heap, root: Item, t: Trie, n: nat)
    requires At(h, root, Top, t) && n !in h && Same(h, h', h.Keys)
    ensures At(h', root, Top, t) && n !in Ids(t)
  {
    IdsInHeap(h, t, n);
    TrieFrame(h, h', t);
  }

  /** The search has found the key, or the map does not have it. */
  lemma Found(h: Heap, root: Item, k: Ctx, t: Trie, whole: Trie, key: nat)
    requires At(h, root, k, t) && t.Leaf? && Plug(k, t) == whole && Follows(k, key) && Good(whole)
    ensures k.In? ==> k.id in h && Entry(h[k.id], k.c) == ItemOf(t)
    ensures k.Top? ==> root == ItemOf(t)
    ensures Best(whole, key) == t && t.key != 0
    ensures key in Map(whole) <==> t.key == key
    ensures key in Map(whole) ==> Map(whole)[key] == t.value
  {
    PathBest(k, t, key);
    BestIsIt(whole, key);
    Inside(k, t);
  }

  /** The trie after the sibling has moved up. */
  lemma Lifted(h: Heap, h': Heap, root: Item, root': Item, k: Ctx)
    requires k.In? && DistinctCtx(k) && CtxAt(h, root, Item(0, Node(k.id)), k.up) && TrieAt(h, k.sib)
    requires if k.up.Top? then root' == ItemOf(k.sib) && h' == h
             else root' == root && k.up.id in h && h' == h[k.up.id := WithEntry(h[k.up.id], k.up.c, ItemOf(k.sib))]
    ensures At(h', root', Top, Plug(k.up, k.sib))
  {
    TrieFrame(h, h', k.sib);
    Fill(h, h', root, root', k.up, Item(0, Node(k.id)), k.sib);
    Out(h', root', k.up, k.sib);
  }

  /** The node above a leaf with the key, and what takes its place. */
  lemma ParentReads(h: Heap, root: Item, k: Ctx, t: Trie, whole: Trie, key: nat)
    requires At(h, root, k, t) && k.In? && t.Leaf? && t.key == key != 0 && Follows(k, key) && whole == Plug(k, t) &&
      Good(whole)
    ensures k.id in h && Entry(h[k.id], Entry(h[k.id], false).key == key) == ItemOf(k.sib)
    ensures whole.Fork? && key in Map(whole)
    ensures k.up.In? ==> k.up.id in h && Entry(h[k.up.id], k.up.c) == Item(0, Node(k.id))
    ensures k.up.Top? ==> root == Item(0, Node(k.id))
    ensures k.id !in Ids(k.sib) && k.id !in CtxIds(k.up)
    ensures CtxAt(h, root, Item(0, Node(k.id)), k.up) && TrieAt(h, k.sib)
  {
    Inside(k.up, Make(k.id, k.diff, k.c, t, k.sib));
    PathDropUp(k.up, Make(k.id, k.diff, k.c, t, k.sib), key);
    PathBest(k, t, key);
    BestIsIt(whole, key);
    assert CtxAt(h, root, Item(0, Node(k.id)), k.up);
    if k.sib.Leaf? { assert k.sib.key in Map(k.sib); }
  }

  lemma {:induction false} Inside(k: Ctx, t: Trie)
    requires Good(Plug(k, t))
    ensures Good(t)
  {
    if k.In? { Inside(k.up, Make(k.id, k.diff, k.c, t, k.sib)); }
  }

  /** The new node above `t`. */
  lemma Attached(h: Heap, h': Heap, root: Item, k: Ctx, t: Trie, n: nat, diff: nat, d: bool, key: nat, value: nat)
    requires At(h, root, k, t) && n in h && n !in Ids(t) && n !in CtxIds(k)
    requires h[n].diff == diff && Entry(h[n], d) == Item(key, Value(value))
    requires h' == h[n := WithEntry(h[n], !d, ItemOf(t))]
    ensures var w := Make(n, diff, d, Leaf(key, value), t);
      TrieAt(h', w) && Distinct(w) && Ids(w) == Ids(t) + {n} && CtxAt(h', root, ItemOf(t), k)
  {
    TrieFrame(h, h', t);
    CtxFrame(h, h', root, ItemOf(t), k);
  }
}
