/** The transactional hash map: buckets of entries linked through the pool. A
    transaction that aborts leaves everything as it was. */
module HashmapTx {
  import opened HashTable

  const OID_NULL: nat := 0
  const INIT_BUCKETS_NUM: nat := 10
  const MIN_HASHSET_THRESHOLD: nat := 5
  const MAX_HASHSET_THRESHOLD: nat := 10

  /** An entry in the pool; object 0 is the null object. */
  datatype Cell = Cell(key: nat, value: nat, next: nat)

  type Pool = map<nat, Cell>

  /** Which of so many buckets a key goes to. */
  type Placement = (nat, nat) -> nat

  ghost predicate InRange(g: Placement) {
    forall len, key :: len > 0 ==> g(len, key) < len
  }

  /** The placement the map uses. */
  function HashOf(f: Coefficients): Placement
    requires f.p > 0
  {
    (len, key) => if len == 0 then 0 else Hash(f, len, key)
  }

  lemma HashIsInRange(f: Coefficients)
    requires f.p > 0
    ensures InRange(HashOf(f))
  {
  }

  /** No key twice: `w` tells for each key the one entry that has it. */
  ghost predicate Index(p: Pool, w: map<nat, nat>) {
    && (forall i :: i in p ==> p[i].key in w && w[p[i].key] == i)
    && (forall k :: k in w ==> w[k] in p && p[w[k]].key == k)
  }

  /** What the entries hold. */
  ghost function MapOf(p: Pool, w: map<nat, nat>): (m: map<nat, nat>)
    requires Index(p, w)
    ensures m.Keys == w.Keys
  {
    map k | k in w :: p[w[k]].value
  }

  /** A bucket: a list without repetition of entries that belong there. */
  ghost predicate Bucket(p: Pool, g: Placement, len: nat, i: nat, head: nat, ids: seq<nat>)
    requires len > 0
    decreases |ids|
  {
    if ids == [] then head == 0
    else
      && head == ids[0] != 0 && head in p && head !in ids[1..] && g(len, p[head].key) == i
      && Bucket(p, g, len, i, p[head].next, ids[1..])
  }

  ghost predicate BucketAt(p: Pool, g: Placement, heads: seq<nat>, chains: seq<seq<nat>>, i: nat)
    requires i < |heads| == |chains|
  {
    Bucket(p, g, |heads|, i, heads[i], chains[i])
  }

  ghost predicate Buckets(p: Pool, g: Placement, heads: seq<nat>, chains: seq<seq<nat>>)
    requires InRange(g)
  {
    |heads| == |chains| > 0 && forall i {:trigger BucketAt(p, g, heads, chains, i)} :: 0 <= i < |heads| ==>
      BucketAt(p, g, heads, chains, i)
  }

  /** The entry is in the bucket its hash selects. */
  ghost predicate Linked(p: Pool, g: Placement, chains: seq<seq<nat>>, id: nat)
    requires InRange(g) && id in p
  {
    |chains| > 0 && id in chains[g(|chains|, p[id].key)]
  }

  /** Every entry hangs in one of the tables, and only there. */
  ghost predicate Apart(p: Pool, g: Placement, a: seq<seq<nat>>, b: seq<seq<nat>>)
    requires InRange(g)
  {
    forall id {:trigger Linked(p, g, a, id)} {:trigger Linked(p, g, b, id)} :: id in p ==>
      (Linked(p, g, a, id) <==> !Linked(p, g, b, id))
  }

  /** The same entries up to their links. */
  ghost predicate Relinked(p: Pool, q: Pool) {
    p.Keys == q.Keys && forall i :: i in p ==> p[i].key == q[i].key && p[i].value == q[i].value
  }

  lemma MapRelinked(p: Pool, q: Pool, w: map<nat, nat>)
    requires Relinked(p, q) && Index(p, w)
    ensures Index(q, w) && MapOf(q, w) == MapOf(p, w)
  {
  }

  lemma IndexWith(p: Pool, w: map<nat, nat>, id: nat, c: Cell)
    requires Index(p, w) && id !in p && c.key !in w
    ensures Index(p[id := c], w[c.key := id])
  {
  }

  lemma MapWith(p: Pool, w: map<nat, nat>, id: nat, c: Cell)
    requires Index(p, w) && id !in p && c.key !in w
    ensures Index(p[id := c], w[c.key := id])
    ensures MapOf(p[id := c], w[c.key := id]) == MapOf(p, w)[c.key := c.value]
    ensures |p[id := c]| == |p| + 1
  {
    IndexWith(p, w, id, c);
    assert p[id := c].Keys == p.Keys + {id};
  }

  lemma MapWithout(p: Pool, w: map<nat, nat>, id: nat)
    requires Index(p, w) && id in p
    ensures Index(p - {id}, w - {p[id].key}) && MapOf(p - {id}, w - {p[id].key}) == MapOf(p, w) - {p[id].key}
    ensures |p - {id}| == |p| - 1
  {
    assert p.Keys == (p - {id}).Keys + {id};
  }

  // ---------------------------------------------------------------------------
  // Lists
  // ---------------------------------------------------------------------------

  lemma {:induction false} BucketFacts(p: Pool, g: Placement, len: nat, i: nat, head: nat, ids: seq<nat>)
    requires len > 0 && Bucket(p, g, len, i, head, ids)
    ensures head == First(ids) && forall x :: x in ids ==> x != 0 && x in p && g(len, p[x].key) == i
    decreases |ids|
  {
    if ids != [] {
      BucketFacts(p, g, len, i, p[head].next, ids[1..]);
      assert forall x :: x in ids ==> x == head || x in ids[1..];
    }
  }

  lemma {:induction false} NextDiffers(p: Pool, g: Placement, len: nat, i: nat, head: nat, ids: seq<nat>, n: nat)
    requires len > 0 && Bucket(p, g, len, i, head, ids) && 0 < n < |ids|
    ensures ids[n] != ids[n - 1]
    decreases n
  {
    if n > 1 { NextDiffers(p, g, len, i, p[head].next, ids[1..], n - 1); } else { assert ids[1] == ids[1..][0]; }
  }

  function First(ids: seq<nat>): nat {
    if ids == [] then 0 else ids[0]
  }

  /** The pool after other entries have changed. */
  lemma {:induction false} BucketFrame(p: Pool, q: Pool, g: Placement, len: nat, i: nat, head: nat, ids: seq<nat>)
    requires InRange(g) && len > 0 && Bucket(p, g, len, i, head, ids)
    requires forall x :: x in ids && x in p ==> x in q && q[x] == p[x]
    ensures Bucket(q, g, len, i, head, ids)
    decreases |ids|
  {
    if ids != [] { BucketFrame(p, q, g, len, i, p[head].next, ids[1..]); }
  }

  /** A new first entry. */
  lemma BucketPush(p: Pool, g: Placement, len: nat, i: nat, head: nat, ids: seq<nat>, id: nat)
    requires InRange(g) && len > 0 && Bucket(p, g, len, i, head, ids) && id !in ids && id != 0 && id in p
    requires p[id].next == head && g(len, p[id].key) == i
    ensures Bucket(p, g, len, i, id, [id] + ids)
  {
    assert ([id] + ids)[1..] == ids;
  }

  /** The first entry is taken away. */
  lemma BucketPop(p: Pool, g: Placement, len: nat, i: nat, head: nat, ids: seq<nat>)
    requires InRange(g) && len > 0 && Bucket(p, g, len, i, head, ids) && head != 0
    ensures ids != [] && head == ids[0] && head in p && head !in ids[1..] && g(len, p[head].key) == i
    ensures Bucket(p, g, len, i, p[head].next, ids[1..])
  {
  }

  function Cut(ids: seq<nat>, n: nat): (s: seq<nat>)
    requires n < |ids|
    ensures |s| == |ids| - 1 && forall j :: 0 <= j < |s| ==> s[j] == ids[if j < n then j else j + 1]
  {
    ids[..n] + ids[n + 1..]
  }

  /** The list without its entry `n`, once the entry before points past it. */
  lemma {:induction false} BucketCut(p: Pool, q: Pool, g: Placement, len: nat, i: nat, head: nat, ids: seq<nat>, n: nat)
    requires InRange(g) && len > 0 && Bucket(p, g, len, i, head, ids) && 0 < n < |ids|
    requires forall x :: x in ids && x in p && x != ids[n] && x != ids[n - 1] ==> x in q && q[x] == p[x]
    requires ids[n] in p && ids[n - 1] in p && ids[n - 1] in q &&
      q[ids[n - 1]] == p[ids[n - 1]].(next := p[ids[n]].next)
    ensures Bucket(q, g, len, i, head, Cut(ids, n))
    decreases n
  {
    var s := Cut(ids, n);
    if n == 1 {
      BucketPop(p, g, len, i, ids[1], ids[1..]);
      BucketFrame(p, q, g, len, i, p[ids[1]].next, ids[1..][1..]);
      assert s[1..] == ids[1..][1..];
    } else {
      BucketCut(p, q, g, len, i, p[head].next, ids[1..], n - 1);
      assert s[1..] == Cut(ids[1..], n - 1);
    }
  }

  // ---------------------------------------------------------------------------
  // Tables
  // ---------------------------------------------------------------------------

  /** The table takes part with all its buckets. */
  lemma NotThere(p: Pool, g: Placement, heads: seq<nat>, chains: seq<seq<nat>>, id: nat)
    requires InRange(g) && Buckets(p, g, heads, chains) && id in p
    ensures forall j :: 0 <= j < |chains| && id in chains[j] ==> j == g(|chains|, p[id].key)
  {
    forall j | 0 <= j < |chains| && id in chains[j] ensures j == g(|chains|, p[id].key) {
      assert BucketAt(p, g, heads, chains, j);
      BucketFacts(p, g, |heads|, j, heads[j], chains[j]);
    }
  }

  lemma NotHeld(p: Pool, w: map<nat, nat>, g: Placement, chains: seq<seq<nat>>, key: nat)
    requires InRange(g) && Index(p, w) && AllLinked(p, g, chains) && |chains| > 0
    requires var ids := chains[g(|chains|, key)]; forall j :: 0 <= j < |ids| ==> ids[j] in p && p[ids[j]].key != key
    ensures key !in w
  {
    assert forall i :: i in p ==> Linked(p, g, chains, i);
  }

  /** One bucket changes, and so may the entries in it. */
  lemma OtherBuckets(p: Pool, q: Pool, g: Placement, heads: seq<nat>, chains: seq<seq<nat>>, i: nat, head: nat,
      ids: seq<nat>)
    requires InRange(g) && Buckets(p, g, heads, chains) && i < |heads| && Bucket(q, g, |heads|, i, head, ids)
    requires forall j, x :: 0 <= j < |heads| && j != i && x in chains[j] && x in p ==> x in q && q[x] == p[x]
    ensures Buckets(q, g, heads[i := head], chains[i := ids])
  {
    var heads', chains' := heads[i := head], chains[i := ids];
    forall j | 0 <= j < |heads| ensures BucketAt(q, g, heads', chains', j) {
      if j != i {
        assert BucketAt(p, g, heads, chains, j);
        BucketFrame(p, q, g, |heads|, j, heads[j], chains[j]);
      }
    }
  }

  /** An entry that is new to the table goes to the front of its bucket. */
  lemma PushKeepsBuckets(p: Pool, q: Pool, g: Placement, heads: seq<nat>, chains: seq<seq<nat>>, id: nat)
    requires InRange(g) && Buckets(p, g, heads, chains) && id != 0 && id in q
    requires forall x :: x in p && x != id ==> x in q && q[x] == p[x]
    requires forall j :: 0 <= j < |chains| ==> id !in chains[j]
    requires q[id].next == heads[g(|heads|, q[id].key)]
    ensures var h := g(|heads|, q[id].key); Buckets(q, g, heads[h := id], chains[h := [id] + chains[h]])
  {
    var h := g(|heads|, q[id].key);
    assert BucketAt(p, g, heads, chains, h);
    BucketFrame(p, q, g, |heads|, h, heads[h], chains[h]);
    BucketPush(q, g, |heads|, h, heads[h], chains[h], id);
    OtherBuckets(p, q, g, heads, chains, h, id, [id] + chains[h]);
  }

  /** The first entry of a bucket leaves the table; its link may change then. */
  lemma PopKeepsBuckets(p: Pool, q: Pool, g: Placement, heads: seq<nat>, chains: seq<seq<nat>>, i: nat)
    requires InRange(g) && Buckets(p, g, heads, chains) && i < |heads| && heads[i] != 0
    requires forall x :: x in p && x != heads[i] ==> x in q && q[x] == p[x]
    ensures chains[i] != [] && heads[i] == chains[i][0] && heads[i] in p && heads[i] !in chains[i][1..]
    ensures g(|heads|, p[heads[i]].key) == i
    ensures Buckets(q, g, heads[i := p[heads[i]].next], chains[i := chains[i][1..]])
  {
    var e, ids := heads[i], chains[i];
    assert BucketAt(p, g, heads, chains, i);
    BucketPop(p, g, |heads|, i, e, ids);
    BucketFrame(p, q, g, |heads|, i, p[e].next, ids[1..]);
    NotThere(p, g, heads, chains, e);
    OtherBuckets(p, q, g, heads, chains, i, p[e].next, ids[1..]);
  }

  /** Moving the first entry of bucket `i` of one table to the other one. */
  lemma MoveKeepsBoth(p: Pool, q: Pool, g: Placement, ha: seq<nat>, a: seq<seq<nat>>, hb: seq<nat>, b: seq<seq<nat>>,
      i: nat)
    requires InRange(g) && Buckets(p, g, ha, a) && Buckets(p, g, hb, b) && Apart(p, g, a, b)
    requires i < |ha| && ha[i] != 0 && ha[i] in p
    requires q == p[ha[i] := p[ha[i]].(next := hb[g(|hb|, p[ha[i]].key)])]
    ensures a[i] != [] && Buckets(q, g, ha[i := p[ha[i]].next], a[i := a[i][1..]])
    ensures var h := g(|hb|, p[ha[i]].key); Buckets(q, g, hb[h := ha[i]], b[h := [ha[i]] + b[h]])
  {
    var e := ha[i];
    PopKeepsBuckets(p, q, g, ha, a, i);
    assert Linked(p, g, a, e);
    NotThere(p, g, hb, b, e);
    PushKeepsBuckets(p, q, g, hb, b, e);
  }

  /** Afterwards every entry is still in exactly one of the tables. */
  lemma MoveKeepsApart(p: Pool, q: Pool, g: Placement, a: seq<seq<nat>>, b: seq<seq<nat>>, i: nat, e: nat)
    requires InRange(g) && Apart(p, g, a, b) && Relinked(p, q) && e in p && |a| > 0 && |b| > 0
    requires i == g(|a|, p[e].key) && a[i] != [] && a[i][0] == e && e !in a[i][1..]
    ensures var h := g(|b|, p[e].key); Apart(q, g, a[i := a[i][1..]], b[h := [e] + b[h]])
  {
    var h := g(|b|, p[e].key);
    var a', b' := a[i := a[i][1..]], b[h := [e] + b[h]];
    assert a[i] == [e] + a[i][1..];
    forall id | id in q ensures Linked(q, g, a', id) <==> !Linked(q, g, b', id) {
      if id != e {
        assert Linked(q, g, a', id) <==> Linked(p, g, a, id);
        assert Linked(q, g, b', id) <==> Linked(p, g, b, id);
      }
    }
  }

  /** An id that is not in use is in no bucket. */
  lemma NoneHas(p: Pool, g: Placement, heads: seq<nat>, chains: seq<seq<nat>>, id: nat)
    requires InRange(g) && Buckets(p, g, heads, chains) && id !in p
    ensures forall j :: 0 <= j < |chains| ==> id !in chains[j]
  {
    forall j | 0 <= j < |chains| ensures id !in chains[j] {
      assert BucketAt(p, g, heads, chains, j);
      BucketFacts(p, g, |heads|, j, heads[j], chains[j]);
    }
  }

  ghost predicate AllLinked(p: Pool, g: Placement, chains: seq<seq<nat>>)
    requires InRange(g)
  {
    forall id {:trigger Linked(p, g, chains, id)} :: id in p ==> Linked(p, g, chains, id)
  }

  /** A table that holds all entries, each key once. */
  ghost predicate TableOk(p: Pool, w: map<nat, nat>, g: Placement, heads: seq<nat>, chains: seq<seq<nat>>)
    requires InRange(g)
  {
    0 !in p && Buckets(p, g, heads, chains) && AllLinked(p, g, chains) && Index(p, w)
  }

  lemma LinkIsGood(p: Pool, w: map<nat, nat>, g: Placement, heads: seq<nat>, chains: seq<seq<nat>>, id: nat, c: Cell)
    requires InRange(g) && TableOk(p, w, g, heads, chains) && id != 0 && id !in p && c.key !in w
    requires c.next == heads[g(|heads|, c.key)]
    ensures var h := g(|heads|, c.key);
      TableOk(p[id := c], w[c.key := id], g, heads[h := id], chains[h := [id] + chains[h]])
    ensures MapOf(p[id := c], w[c.key := id]) == MapOf(p, w)[c.key := c.value] && |p[id := c]| == |p| + 1
  {
    MapWith(p, w, id, c);
    NoneHas(p, g, heads, chains, id);
    PushKeepsBuckets(p, p[id := c], g, heads, chains, id);
    StayLinked(p, p[id := c], g, chains, g(|heads|, c.key), id);
  }

  lemma DetachIsGood(p: Pool, w: map<nat, nat>, g: Placement, heads: seq<nat>, chains: seq<seq<nat>>, h: nat, e: nat)
    requires InRange(g) && TableOk(p, w, g, heads, chains) && h < |heads| && e == heads[h] && e in p
    ensures chains[h] != [] && TableOk(p - {e}, w - {p[e].key}, g, heads[h := p[e].next], chains[h := chains[h][1..]])
    ensures MapOf(p - {e}, w - {p[e].key}) == MapOf(p, w) - {p[e].key} && |p - {e}| == |p| - 1
  {
    PopKeepsBuckets(p, p - {e}, g, heads, chains, h);
    MapWithout(p, w, e);
    StillLinked(p, p - {e}, g, chains, h, 0);
    assert Cut(chains[h], 0) == chains[h][1..];
  }

  lemma UnlinkIsGood(p: Pool, q: Pool, w: map<nat, nat>, g: Placement, heads: seq<nat>, chains: seq<seq<nat>>,
      h: nat, n: nat, e: nat, prev: nat)
    requires InRange(g) && TableOk(p, w, g, heads, chains) && h < |heads| && 0 < n < |chains[h]|
    requires e == chains[h][n] && prev == chains[h][n - 1] && e in p && prev in p
    requires q == p[prev := p[prev].(next := p[e].next)]
    ensures TableOk(q - {e}, w - {p[e].key}, g, heads, chains[h := Cut(chains[h], n)])
    ensures MapOf(q - {e}, w - {p[e].key}) == MapOf(p, w) - {p[e].key} && |q - {e}| == |p| - 1
  {
    assert BucketAt(p, g, heads, chains, h);
    NextDiffers(p, g, |heads|, h, heads[h], chains[h], n);
    MapRelinked(p, q, w);
    assert q.Keys == p.Keys;
    assert |q| == |p|;
    MapWithout(q, w, e);
    UnlinkKeepsBuckets(p, q - {e}, g, heads, chains, h, n);
    StillLinked(p, q - {e}, g, chains, h, n);
  }

  lemma StayLinked(p: Pool, q: Pool, g: Placement, chains: seq<seq<nat>>, h: nat, id: nat)
    requires InRange(g) && AllLinked(p, g, chains) && h < |chains| && id in q && h == g(|chains|, q[id].key)
    requires forall x :: x in q && x != id ==> x in p && p[x].key == q[x].key
    ensures AllLinked(q, g, chains[h := [id] + chains[h]])
  {
    var c := chains[h := [id] + chains[h]];
    forall x | x in q ensures Linked(q, g, c, x) {
      if x != id { assert Linked(p, g, chains, x); } else { assert c[h][0] == id; }
    }
  }

  /** Unlinking entry `n` of bucket `h`: its predecessor, or the bucket, points past it. */
  lemma UnlinkKeepsBuckets(p: Pool, q: Pool, g: Placement, heads: seq<nat>, chains: seq<seq<nat>>, h: nat, n: nat)
    requires InRange(g) && Buckets(p, g, heads, chains) && h < |heads| && 0 < n < |chains[h]|
    requires var ids := chains[h];
      && (forall x :: x in p && x != ids[n] && x != ids[n - 1] ==> x in q && q[x] == p[x])
      && ids[n] in p && ids[n - 1] in p && ids[n - 1] in q && q[ids[n - 1]] == p[ids[n - 1]].(next := p[ids[n]].next)
    ensures Buckets(q, g, heads, chains[h := Cut(chains[h], n)])
  {
    var ids := chains[h];
    assert BucketAt(p, g, heads, chains, h);
    BucketFacts(p, g, |heads|, h, heads[h], ids);
    BucketCut(p, q, g, |heads|, h, heads[h], ids, n);
    NotThere(p, g, heads, chains, ids[n]);
    NotThere(p, g, heads, chains, ids[n - 1]);
    OtherBuckets(p, q, g, heads, chains, h, heads[h], Cut(ids, n));
    assert heads[h := heads[h]] == heads;
  }

  lemma StillLinked(p: Pool, q: Pool, g: Placement, chains: seq<seq<nat>>, h: nat, n: nat)
    requires InRange(g) && AllLinked(p, g, chains) && h < |chains| && n < |chains[h]|
    requires forall x :: x in q ==> x in p && p[x].key == q[x].key && x != chains[h][n]
    ensures AllLinked(q, g, chains[h := Cut(chains[h], n)])
  {
    var c := chains[h := Cut(chains[h], n)];
    forall x | x in q ensures Linked(q, g, c, x) {
      assert Linked(p, g, chains, x);
      if g(|chains|, p[x].key) == h {
        var j :| 0 <= j < |chains[h]| && chains[h][j] == x;
        assert c[h][if j < n then j else j - 1] == x;
      }
    }
  }

  lemma IdsAreIn(p: Pool, g: Placement, heads: seq<nat>, chains: seq<seq<nat>>, h: nat)
    requires InRange(g) && Buckets(p, g, heads, chains) && h < |heads|
    ensures heads[h] == First(chains[h]) && forall x :: x in chains[h] ==> x != 0 && x in p
  {
    assert BucketAt(p, g, heads, chains, h);
    BucketFacts(p, g, |heads|, h, heads[h], chains[h]);
  }

  /** When one table is empty the other one has all entries. */
  lemma AllMoved(p: Pool, g: Placement, a: seq<seq<nat>>, b: seq<seq<nat>>)
    requires InRange(g) && Apart(p, g, a, b) && |a| > 0 && forall j :: 0 <= j < |a| ==> a[j] == []
    ensures AllLinked(p, g, b)
  {
    forall id | id in p ensures Linked(p, g, b, id) {
      assert !Linked(p, g, a, id);
    }
  }

  function Zeros(len: nat): (s: seq<nat>)
    ensures |s| == len && forall i :: 0 <= i < len ==> s[i] == 0
  {
    seq(len, _ => 0)
  }

  function NoChains(len: nat): (s: seq<seq<nat>>)
    ensures |s| == len && forall i :: 0 <= i < len ==> s[i] == []
  {
    seq(len, _ => [])
  }

  lemma {:induction false} MapSize(p: Pool, w: map<nat, nat>)
    requires Index(p, w)
    ensures |MapOf(p, w)| == |p|
    decreases |p|
  {
    if p == map[] {
      assert w.Keys == {};
    } else {
      var id :| id in p;
      MapWithout(p, w, id);
      MapSize(p - {id}, w - {p[id].key});
      OneKeyLess(MapOf(p, w), p[id].key);
    }
  }

  lemma OneKeyLess(m: map<nat, nat>, k: nat)
    requires k in m
    ensures |m| == |m - {k}| + 1
  {
    assert m.Keys == (m - {k}).Keys + {k};
  }

  class HashmapTx {
    const g: Placement
    var count: nat
    var heads: seq<nat>
    var entries: Pool
    ghost var chains: seq<seq<nat>>
    ghost var owner: map<nat, nat>     // the entry of each key

    ghost predicate Valid()
      reads this
    {
      InRange(g) && TableOk(entries, owner, g, heads, chains) && count == |entries|
    }

    ghost function Contents(): map<nat, nat>
      requires Valid()
      reads this
    {
      MapOf(entries, owner)
    }

    /** An empty map that places keys by the hash function with these coefficients. */
    constructor (f: Coefficients)
      requires f.p > 0
      ensures Valid() && Contents() == map[] && |heads| == INIT_BUCKETS_NUM
      ensures forall len, key :: len > 0 ==> g(len, key) == Hash(f, len, key)
    {
      g, count, entries, owner := HashOf(f), 0, map[], map[];
      heads, chains := Zeros(INIT_BUCKETS_NUM), NoChains(INIT_BUCKETS_NUM);
      new;
      HashIsInRange(f);
    }

    /** Looks for a key in its bucket: the entry, the one before, and how many come
        before. */
    method Find(key: nat) returns (e: nat, prev: nat, num: nat)
      requires Valid()
      ensures var ids := chains[g(|heads|, key)];
        && num <= |ids| && (num < |ids| ==> e == ids[num]) && prev == (if num == 0 then 0 else ids[num - 1])
        && (e == 0 <==> num == |ids|)
        && (num < |ids| ==> e in entries && entries[e].key == key)
        && (num == |ids| ==> key !in owner)
    {
      var h := g(|heads|, key);
      ghost var ids := chains[h];
      IdsAreIn(entries, g, heads, chains, h);
      assert BucketAt(entries, g, heads, chains, h) && ids[0..] == ids;
      e, prev, num := heads[h], 0, 0;
      while e != 0
        invariant num <= |ids| && Bucket(entries, g, |heads|, h, e, ids[num..])
        invariant prev == if num == 0 then 0 else ids[num - 1]
        invariant forall j :: 0 <= j < num ==> ids[j] in entries && entries[ids[j]].key != key
        decreases |ids| - num
      {
        assert ids[num..][0] == ids[num] && ids[num..][1..] == ids[num + 1..];
        if entries[e].key == key {
          return;
        }
        e, prev, num := entries[e].next, e, num + 1;
      }
      NotHeld(entries, owner, g, chains, key);
    }

    method Get(key: nat) returns (value: nat)
      requires Valid()
      ensures value == if key in Contents() then Contents()[key] else OID_NULL
    {
      var e, prev, num := Find(key);
      value := if e != 0 then entries[e].value else OID_NULL;
    }

    method Lookup(key: nat) returns (found: bool)
      requires Valid()
      ensures found <==> key in Contents()
    {
      var e, prev, num := Find(key);
      found := e != 0;
    }

    method Count() returns (n: nat)
      requires Valid()
      ensures n == |Contents()|
    {
      MapSize(entries, owner);
      n := count;
    }

    /** While entries move: two tables, every entry in one of them. */
    ghost predicate Moving(p: Pool, into: seq<nat>, ids: seq<seq<nat>>)
      reads this
    {
      && InRange(g) && 0 !in entries && Relinked(p, entries)
      && Buckets(entries, g, heads, chains) && Buckets(entries, g, into, ids) && Apart(entries, g, chains, ids)
    }

    method MoveFirst(i: nat, into: seq<nat>, ghost p: Pool, ghost ids: seq<seq<nat>>)
      returns (into': seq<nat>, ghost ids': seq<seq<nat>>)
      requires Moving(p, into, ids) && i < |heads| && heads[i] != 0
      modifies this`heads, this`entries, this`chains
      ensures Moving(p, into', ids') && |into'| == |into|
      ensures old(chains[i]) != [] && chains == old(chains)[i := old(chains[i])[1..]]
    {
      ghost var p0, a, ha := entries, chains, heads;
      PopKeepsBuckets(entries, entries, g, heads, chains, i);
      var en := heads[i];
      var h := g(|into|, entries[en].key);
      heads := heads[i := entries[en].next];
      entries := entries[en := entries[en].(next := into[h])];
      into' := into[h := en];
      MoveKeepsBoth(p0, entries, g, ha, a, into, ids, i);
      MoveKeepsApart(p0, entries, g, a, ids, i, en);
      chains, ids' := chains[i := chains[i][1..]], ids[h := [en] + ids[h]];
    }

    method Drain(i: nat, into: seq<nat>, ghost p: Pool, ghost ids: seq<seq<nat>>)
      returns (into': seq<nat>, ghost ids': seq<seq<nat>>)
      requires Moving(p, into, ids) && i < |heads|
      modifies this`heads, this`entries, this`chains
      ensures Moving(p, into', ids') && |into'| == |into|
      ensures chains == old(chains)[i := []]
    {
      into', ids' := into, ids;
      while heads[i] != 0
        invariant Moving(p, into', ids') && |into'| == |into| && i < |heads| && |chains| == |old(chains)|
        invariant chains[i := []] == old(chains)[i := []]
        decreases |chains[i]|
      {
        into', ids' := MoveFirst(i, into', p, ids');
      }
      IdsAreIn(entries, g, heads, chains, i);
      assert chains[i] == [];
    }

    /** A new table; if the transaction does not commit, the old one stays. */
    method Rebuild(newLen: nat, commits: bool)
      requires Valid()
      modifies this`heads, this`entries, this`chains
      ensures Valid() && Contents() == old(Contents()) && entries.Keys == old(entries.Keys)
      ensures |heads| == if !commits || newLen == 0 then |old(heads)| else newLen
    {
      if !commits {
        return;
      }
      var len := if newLen == 0 then |heads| else newLen;
      ghost var p := entries;
      var into := Zeros(len);
      ghost var ids := NoChains(len);
      var i := 0;
      while i < |heads|
        invariant i <= |heads| && Moving(p, into, ids) && |into| == len
        invariant forall j :: 0 <= j < i ==> chains[j] == []
      {
        into, ids := Drain(i, into, p, ids);
        i := i + 1;
      }
      AllMoved(entries, g, chains, ids);
      MapRelinked(p, entries, owner);
      heads, chains := into, ids;
    }

    /** A new entry at the front of its bucket. */
    method Link(id: nat, key: nat, value: nat)
      requires Valid() && id != 0 && id !in entries && key !in owner
      modifies this
      ensures Valid() && Contents() == old(Contents())[key := value] && |heads| == |old(heads)|
      ensures count == old(count) + 1
    {
      var h := g(|heads|, key);
      var c := Cell(key, value, heads[h]);
      LinkIsGood(entries, owner, g, heads, chains, id, c);
      entries, heads, count := entries[id := c], heads[h := id], count + 1;
      chains, owner := chains[h := [id] + chains[h]], owner[key := id];
    }

    /** One more entry for the key makes its bucket too long. */
    ghost predicate Crowded(key: nat)
      requires Valid()
      reads this
    {
      var num := |chains[g(|heads|, key)]| + 1;
      num > MAX_HASHSET_THRESHOLD || (num > MIN_HASHSET_THRESHOLD && count + 1 > 2 * |heads|)
    }

    /** Adds an entry: 0 on success, 1 if the key exists, -1 if the transaction
        aborts. `id` is the object that is allocated. */
    method Insert(key: nat, value: nat, id: nat, commits: bool, rebuilds: bool) returns (r: int)
      requires Valid() && id != 0 && id !in entries
      modifies this
      ensures Valid() && r == if key in old(Contents()) then 1 else if commits then 0 else -1
      ensures Contents() == if r == 0 then old(Contents())[key := value] else old(Contents())
      ensures |heads| == if r == 0 && rebuilds && old(Crowded(key)) then 2 * |old(heads)| else |old(heads)|
    {
      var e, prev, num := Find(key);
      if e != 0 {
        return 1;
      }
      if !commits {
        return -1;
      }
      Link(id, key, value);
      num := num + 1;
      if num > MAX_HASHSET_THRESHOLD || (num > MIN_HASHSET_THRESHOLD && count > 2 * |heads|) {
        Rebuild(|heads| * 2, rebuilds);
      }
      r := 0;
    }

    /** Takes an entry out of its bucket. */
    method Unlink(e: nat, prev: nat, ghost num: nat)
      requires Valid() && e in entries
      requires var ids := chains[g(|heads|, entries[e].key)];
        num < |ids| && e == ids[num] && prev == if num == 0 then 0 else ids[num - 1]
      modifies this
      ensures Valid() && Contents() == old(Contents()) - {old(entries[e].key)}
      ensures count + 1 == old(count) && |heads| == |old(heads)|
    {
      var h := g(|heads|, entries[e].key);
      ghost var p, ids := entries, chains[h];
      IdsAreIn(p, g, heads, chains, h);
      if prev == 0 {
        Detach(e, h);
      } else {
        UnlinkIsGood(p, p[prev := p[prev].(next := p[e].next)], owner, g, heads, chains, h, num, e, prev);
        entries := entries[prev := entries[prev].(next := entries[e].next)];
        entries, count := entries - {e}, count - 1;
        chains, owner := chains[h := Cut(ids, num)], owner - {p[e].key};
      }
    }

    /** Takes away the first entry of a bucket. */
    method Detach(e: nat, h: nat)
      requires Valid() && e in entries && h < |heads| && heads[h] == e
      modifies this
      ensures Valid() && Contents() == old(Contents()) - {old(entries[e].key)}
      ensures count + 1 == old(count) && |heads| == |old(heads)|
    {
      DetachIsGood(entries, owner, g, heads, chains, h, e);
      owner := owner - {entries[e].key};
      heads, entries, count := heads[h := entries[e].next], entries - {e}, count - 1;
      chains := chains[h := chains[h][1..]];
    }

    /** Removes the entry of a key, if there is one and the transaction commits. */
    method Remove(key: nat, commits: bool, rebuilds: bool) returns (removed: bool)
      requires Valid()
      modifies this
      ensures Valid() && (removed <==> key in old(Contents()) && commits)
      ensures Contents() == if removed then old(Contents()) - {key} else old(Contents())
      ensures |heads| == if removed && rebuilds && count < |old(heads)| &&
        |old(heads)| > 1 then |old(heads)| / 2 else |old(heads)|
    {
      var e, prev, num := Find(key);
      if e == 0 || !commits {
        return false;
      }
      Unlink(e, prev, num);
      if count < |heads| {
        Rebuild(|heads| / 2, rebuilds);
      }
      removed := true;
    }
  }
}
