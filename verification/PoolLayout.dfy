/** How clumps tile a persistent-memory pool. Lengths are in 64-byte chunks. */
module PoolLayout {

  const CHUNK_SIZE: nat := 64   // also one more than the mask of the state bits

  const FREE: nat := 0
  const RESERVED: nat := 1
  const ACTIVATING: nat := 2
  const ACTIVE: nat := 3
  const FREEING: nat := 4

  datatype Clump = Clump(n: nat, state: nat)

  predicate Proper(cs: seq<Clump>) {
    forall k :: 0 <= k < |cs| ==> cs[k].n >= 1 && cs[k].state <= FREEING
  }

  /** The size field: bytes, with the state in the low bits. */
  function Raw(c: Clump): nat {
    CHUNK_SIZE * c.n + c.state
  }

  function Chunks(raw: nat): nat {
    raw / CHUNK_SIZE
  }

  function State(raw: nat): nat {
    raw % CHUNK_SIZE
  }

  lemma RawFields(c: Clump)
    requires c.state <= FREEING
    ensures Chunks(Raw(c)) == c.n && State(Raw(c)) == c.state
  {
  }

  function Len(cs: seq<Clump>): nat {
    if cs == [] then 0 else cs[0].n + Len(cs[1..])
  }

  lemma {:induction false} LenAppend(a: seq<Clump>, b: seq<Clump>)
    ensures Len(a + b) == Len(a) + Len(b)
  {
    if a == [] {
      assert a + b == b;
    } else {
      assert (a + b)[1..] == a[1..] + b;
      LenAppend(a[1..], b);
    }
  }

  /** The size fields from chunk `a` on spell out the clumps. */
  predicate Seg(m: seq<nat>, a: nat, cs: seq<Clump>)
    decreases cs
  {
    cs != [] ==> a < |m| && m[a] == Raw(cs[0]) && Seg(m, a + cs[0].n, cs[1..])
  }

  lemma {:induction false} SegAppend(m: seq<nat>, a: nat, x: seq<Clump>, y: seq<Clump>)
    ensures Seg(m, a, x + y) <==> Seg(m, a, x) && Seg(m, a + Len(x), y)
    decreases x
  {
    if x == [] {
      assert x + y == y;
    } else {
      assert (x + y)[1..] == x[1..] + y;
      SegAppend(m, a + x[0].n, x[1..], y);
    }
  }

  lemma {:induction false} SegFrame(m: seq<nat>, m': seq<nat>, a: nat, cs: seq<Clump>)
    requires Seg(m, a, cs) && |m'| == |m| && Proper(cs)
    requires forall i :: a <= i < a + Len(cs) && i < |m| ==> m'[i] == m[i]
    ensures Seg(m', a, cs)
    decreases cs
  {
    if cs != [] { SegFrame(m, m', a + cs[0].n, cs[1..]); }
  }

  /** The prevsize fields: each clump knows its predecessor's size, `q` chunks for
      the first. */
  predicate PrevSeg(p: seq<nat>, a: nat, q: nat, cs: seq<Clump>)
    decreases cs
  {
    cs != [] ==> a < |p| && p[a] == CHUNK_SIZE * q && PrevSeg(p, a + cs[0].n, cs[0].n, cs[1..])
  }

  function LastLen(q: nat, cs: seq<Clump>): nat {
    if cs == [] then q else cs[|cs| - 1].n
  }

  lemma {:induction false} PrevAppend(p: seq<nat>, a: nat, q: nat, x: seq<Clump>, y: seq<Clump>)
    ensures PrevSeg(p, a, q, x + y) <==> PrevSeg(p, a, q, x) && PrevSeg(p, a + Len(x), LastLen(q, x), y)
    decreases x
  {
    if x == [] {
      assert x + y == y;
    } else {
      assert (x + y)[1..] == x[1..] + y;
      PrevAppend(p, a + x[0].n, x[0].n, x[1..], y);
    }
  }

  lemma {:induction false} PrevFrame(p: seq<nat>, p': seq<nat>, a: nat, q: nat, cs: seq<Clump>)
    requires PrevSeg(p, a, q, cs) && |p'| == |p| && Proper(cs)
    requires forall i :: a <= i < a + Len(cs) && i < |p| ==> p'[i] == p[i]
    ensures PrevSeg(p', a, q, cs)
    decreases cs
  {
    if cs != [] { PrevFrame(p, p', a + cs[0].n, cs[0].n, cs[1..]); }
  }

  /** The whole pool: the clumps, then a terminator of size zero in the last chunk. */
  predicate Tiles(m: seq<nat>, cs: seq<Clump>) {
    Tail(m, 0, cs)
  }

  /** The same from chunk `a` on. */
  predicate Tail(m: seq<nat>, a: nat, cs: seq<Clump>) {
    Proper(cs) && |m| == a + Len(cs) + 1 && m[a + Len(cs)] == 0 && Seg(m, a, cs)
  }

  lemma {:induction false} TailAppend(m: seq<nat>, a: nat, x: seq<Clump>, y: seq<Clump>)
    ensures Tail(m, a, x + y) <==> Proper(x) && Seg(m, a, x) && Tail(m, a + Len(x), y)
  {
    LenAppend(x, y);
    SegAppend(m, a, x, y);
    ProperAppend(x, y);
  }

  lemma ProperAppend(x: seq<Clump>, y: seq<Clump>)
    ensures Proper(x + y) <==> Proper(x) && Proper(y)
  {
    var s := x + y;
    assert forall k :: 0 <= k < |x| ==> s[k] == x[k];
    assert forall k :: 0 <= k < |y| ==> s[|x| + k] == y[k];
  }

  /** Where clump `k` starts. */
  function Start(cs: seq<Clump>, k: nat): nat
    requires k <= |cs|
  {
    Len(cs[..k])
  }

  lemma StartNext(cs: seq<Clump>, k: nat)
    requires k < |cs|
    ensures Start(cs, k + 1) == Start(cs, k) + cs[k].n && Start(cs, k + 1) <= Len(cs)
  {
    assert cs[..k + 1] == cs[..k] + [cs[k]];
    LenAppend(cs[..k], [cs[k]]);
    assert Len([cs[k]]) == cs[k].n;
    assert cs == cs[..k + 1] + cs[k + 1..];
    LenAppend(cs[..k + 1], cs[k + 1..]);
  }

  /** Reading a header, on a walk from chunk `a` on. */
  lemma TailHeader(m: seq<nat>, a: nat, cs: seq<Clump>, k: nat)
    requires Tail(m, a, cs) && k <= |cs|
    ensures a + Start(cs, k) < |m| && m[a + Start(cs, k)] == if k < |cs| then Raw(cs[k]) else 0
    ensures k < |cs| ==> m[a + Start(cs, k)] != 0
  {
    if k < |cs| {
      StartNext(cs, k);
      assert cs == cs[..k] + cs[k..];
      SegAppend(m, a, cs[..k], cs[k..]);
    } else {
      assert cs[..k] == cs;
    }
  }

  lemma HeaderAt(m: seq<nat>, cs: seq<Clump>, k: nat)
    requires Tiles(m, cs) && k <= |cs|
    ensures Start(cs, k) < |m| && m[Start(cs, k)] == if k < |cs| then Raw(cs[k]) else 0
    ensures k < |cs| ==> m[Start(cs, k)] != 0
  {
    TailHeader(m, 0, cs, k);
  }

  lemma {:induction false} StartsGrow(cs: seq<Clump>, j: nat, k: nat)
    requires Proper(cs) && j < k <= |cs|
    ensures Start(cs, j) + cs[j].n <= Start(cs, k)
  {
    StartNext(cs, k - 1);
    if j < k - 1 { StartsGrow(cs, j, k - 1); }
  }

  // ---------------------------------------------------------------------------
  // What recovery makes of a pool
  // ---------------------------------------------------------------------------

  /** A chunk: free, the first of an allocated clump, or a later one of it. */
  datatype Cell = Free | Head(n: nat) | Body

  function Repeat(x: Cell, n: nat): (s: seq<Cell>)
    ensures |s| == n && forall i :: 0 <= i < n ==> s[i] == x
  {
    seq(n, _ => x)
  }

  /** Reserved and half-freed clumps count as free, half-activated ones as allocated. */
  predicate Kept(c: Clump) {
    c.state == ACTIVE || c.state == ACTIVATING
  }

  function Cells(c: Clump): seq<Cell> {
    if Kept(c) && c.n > 0 then [Head(c.n)] + Repeat(Body, c.n - 1) else Repeat(Free, c.n)
  }

  /** The pool as recovery will leave it. */
  function Layout(cs: seq<Clump>): seq<Cell> {
    if cs == [] then [] else Cells(cs[0]) + Layout(cs[1..])
  }

  lemma {:induction false} LayoutAppend(x: seq<Clump>, y: seq<Clump>)
    ensures Layout(x + y) == Layout(x) + Layout(y)
  {
    if x == [] {
      assert x + y == y;
    } else {
      assert (x + y)[1..] == x[1..] + y;
      LayoutAppend(x[1..], y);
    }
  }

  lemma LayoutOne(c: Clump)
    ensures Layout([c]) == Cells(c)
  {
  }

  /** Only free and active clumps, and no two free ones side by side. */
  predicate Settled(cs: seq<Clump>) {
    forall k :: 0 <= k < |cs| ==> cs[k].state == FREE || cs[k].state == ACTIVE
  }

  predicate NoFreePair(cs: seq<Clump>) {
    forall k :: 0 <= k < |cs| - 1 ==> !(cs[k].state == FREE && cs[k + 1].state == FREE)
  }

  predicate Normal(cs: seq<Clump>) {
    Proper(cs) && Settled(cs) && NoFreePair(cs)
  }

  lemma {:induction false} LayoutLen(cs: seq<Clump>)
    ensures |Layout(cs)| == Len(cs)
  {
    if cs != [] { LayoutLen(cs[1..]); }
  }

  lemma FirstLen(cs: seq<Clump>)
    requires Normal(cs) && cs != []
    ensures |Layout(cs)| >= cs[0].n && (cs[0].state == FREE <==> Layout(cs)[0] == Free)
    ensures cs[0].state == ACTIVE ==> Layout(cs)[0] == Head(cs[0].n)
    ensures cs[0].state == FREE && |Layout(cs)| > cs[0].n ==> Layout(cs)[cs[0].n] != Free
    ensures cs[0].state == FREE ==> forall i :: 0 <= i < cs[0].n ==> Layout(cs)[i] == Free
    ensures Layout(cs)[cs[0].n..] == Layout(cs[1..])
  {
    if |cs| > 1 {
      assert Layout(cs[1..]) == Cells(cs[1]) + Layout(cs[2..]) by { assert cs[1..][1..] == cs[2..]; }
      assert cs[0].state == FREE ==> Layout(cs)[cs[0].n] == Layout(cs[1..])[0];
    }
  }

  /** The layout determines the recovered clumps, so recovery always ends with the
      same walk, however often it is interrupted. */
  lemma {:induction false} NormalFormIsUnique(x: seq<Clump>, y: seq<Clump>)
    requires Normal(x) && Normal(y) && Layout(x) == Layout(y)
    ensures x == y
  {
    LayoutLen(x);
    LayoutLen(y);
    if x != [] && y != [] {
      FirstLen(x);
      FirstLen(y);
      assert x[0].n == y[0].n;
      assert Normal(x[1..]) && Normal(y[1..]);
      NormalFormIsUnique(x[1..], y[1..]);
      assert x == [x[0]] + x[1..] && y == [y[0]] + y[1..];
    } else if x != [] {
      assert false;
    } else if y != [] {
      assert false;
    }
  }

  /** A clump of `n` chunks that recovery keeps starts at chunk `a`. */
  predicate KeptAt(cs: seq<Clump>, a: nat, n: nat) {
    cs != [] && if a == 0 then Kept(cs[0]) && cs[0].n == n else a >= cs[0].n && KeptAt(cs[1..], a - cs[0].n, n)
  }

  /** The layout says exactly where the kept clumps are. */
  lemma {:induction false} LayoutHeads(cs: seq<Clump>, a: nat, n: nat)
    requires Proper(cs)
    ensures a < |Layout(cs)| && Layout(cs)[a] == Head(n) <==> KeptAt(cs, a, n)
  {
    if cs != [] && a >= cs[0].n {
      LayoutHeads(cs[1..], a - cs[0].n, n);
      assert |Layout(cs)| == cs[0].n + |Layout(cs[1..])|;
      if a < |Layout(cs)| { assert Layout(cs)[a] == Layout(cs[1..])[a - cs[0].n]; }
    }
  }

  lemma {:induction false} KeptClump(cs: seq<Clump>, k: nat)
    requires Proper(cs) && k < |cs| && Kept(cs[k])
    ensures KeptAt(cs, Start(cs, k), cs[k].n)
  {
    if k > 0 {
      assert cs[..k] == [cs[0]] + cs[1..][..k - 1];
      LenAppend([cs[0]], cs[1..][..k - 1]);
      assert Len([cs[0]]) == cs[0].n;
      KeptClump(cs[1..], k - 1);
    } else {
      assert cs[..0] == [];
    }
  }

  lemma SameKept(before: seq<Clump>, after: seq<Clump>)
    requires Proper(before) && Proper(after) && Layout(after) == Layout(before)
    ensures forall a, n :: KeptAt(after, a, n) <==> KeptAt(before, a, n)
    ensures forall k :: 0 <= k < |before| && Kept(before[k]) ==> KeptAt(after, Start(before, k), before[k].n)
  {
    forall a: nat, n: nat ensures KeptAt(after, a, n) <==> KeptAt(before, a, n) {
      LayoutHeads(before, a, n);
      LayoutHeads(after, a, n);
    }
    forall k | 0 <= k < |before| && Kept(before[k]) ensures KeptAt(after, Start(before, k), before[k].n) {
      KeptClump(before, k);
    }
  }

  // ---------------------------------------------------------------------------
  // Replacing clumps by others of the same total length
  // ---------------------------------------------------------------------------

  predicate SameOutside(m: seq<nat>, m': seq<nat>, a: nat, b: nat) {
    |m'| == |m| && forall i :: 0 <= i < |m| && !(a <= i < b) ==> m'[i] == m[i]
  }

  /** `Tiles` for clumps that come in three parts. */
  predicate Tiles3(m: seq<nat>, x: seq<Clump>, y: seq<Clump>, z: seq<Clump>) {
    Proper(x) && Proper(y) && Seg(m, 0, x) && Seg(m, Len(x), y) && Tail(m, Len(x) + Len(y), z)
  }

  predicate Prev3(p: seq<nat>, x: seq<Clump>, y: seq<Clump>, z: seq<Clump>) {
    && PrevSeg(p, 0, 0, x) && PrevSeg(p, Len(x), LastLen(0, x), y)
    && PrevSeg(p, Len(x) + Len(y), LastLen(LastLen(0, x), y), z)
  }

  lemma TilesParts(m: seq<nat>, x: seq<Clump>, y: seq<Clump>, z: seq<Clump>)
    ensures Tiles(m, x + (y + z)) <==> Tiles3(m, x, y, z)
  {
    TailAppend(m, 0, x, y + z);
    TailAppend(m, Len(x), y, z);
  }

  lemma TilesReplace(m: seq<nat>, m': seq<nat>, x: seq<Clump>, y: seq<Clump>, y': seq<Clump>, z: seq<Clump>)
    requires Tiles3(m, x, y, z) && Proper(y') && Len(y') == Len(y) && Seg(m', Len(x), y')
    requires SameOutside(m, m', Len(x), Len(x) + Len(y))
    ensures Tiles3(m', x, y', z)
  {
    AroundFrame(m, m', x, Len(x) + Len(y), z);
  }

  lemma AroundFrame(m: seq<nat>, m': seq<nat>, x: seq<Clump>, b: nat, z: seq<Clump>)
    requires Proper(x) && Seg(m, 0, x) && Tail(m, b, z) && SameOutside(m, m', Len(x), b)
    ensures Seg(m', 0, x) && Tail(m', b, z)
  {
    SegFrame(m, m', 0, x);
    SegFrame(m, m', b, z);
  }

  lemma PrevParts(p: seq<nat>, x: seq<Clump>, y: seq<Clump>, z: seq<Clump>)
    ensures PrevSeg(p, 0, 0, x + (y + z)) <==> Prev3(p, x, y, z)
  {
    PrevAppend(p, 0, 0, x, y + z);
    PrevAppend(p, Len(x), LastLen(0, x), y, z);
  }

  /** The prevsize field behind changed clumps has to follow. */
  lemma PrevAround(p: seq<nat>, p': seq<nat>, x: seq<Clump>, b: nat, q: nat, q': nat, z: seq<Clump>)
    requires Proper(x) && Proper(z) && PrevSeg(p, 0, 0, x) && PrevSeg(p, b, q, z) && |p'| == |p|
    requires forall i :: 0 <= i < Len(x) && i < |p| ==> p'[i] == p[i]
    requires forall i :: b < i < |p| ==> p'[i] == p[i]
    requires z != [] ==> b < |p'| && p'[b] == CHUNK_SIZE * q'
    ensures PrevSeg(p', 0, 0, x) && PrevSeg(p', b, q', z)
  {
    PrevFrame(p, p', 0, 0, x);
    if z != [] { PrevFrame(p, p', b + z[0].n, z[0].n, z[1..]); }
  }

  lemma LayoutReplace(x: seq<Clump>, y: seq<Clump>, y': seq<Clump>, z: seq<Clump>)
    requires Layout(y') == Layout(y)
    ensures Layout(x + (y' + z)) == Layout(x + (y + z))
  {
    LayoutAppend(x, y + z);
    LayoutAppend(y, z);
    LayoutAppend(x, y' + z);
    LayoutAppend(y', z);
  }

  lemma {:induction false} FreeLayout(cs: seq<Clump>)
    requires forall k :: 0 <= k < |cs| ==> !Kept(cs[k])
    ensures Layout(cs) == Repeat(Free, Len(cs))
  {
    if cs != [] {
      FreeLayout(cs[1..]);
      assert Repeat(Free, cs[0].n) + Repeat(Free, Len(cs[1..])) == Repeat(Free, Len(cs));
    }
  }

  predicate FirstFree(cs: seq<Clump>) {
    cs != [] && cs[0].state == FREE
  }

  predicate LastFree(cs: seq<Clump>) {
    cs != [] && cs[|cs| - 1].state == FREE
  }

  lemma PairAppend(x: seq<Clump>, y: seq<Clump>)
    ensures NoFreePair(x + y) <==> NoFreePair(x) && NoFreePair(y) && !(LastFree(x) && FirstFree(y))
  {
    var s := x + y;
    assert forall k :: 0 <= k < |x| ==> s[k] == x[k];
    assert forall k :: 0 <= k < |y| ==> s[|x| + k] == y[k];
    if NoFreePair(s) {
      forall k | 0 <= k < |y| - 1 ensures !(y[k].state == FREE && y[k + 1].state == FREE) {
        assert s[|x| + k] == y[k] && s[|x| + k + 1] == y[k + 1];
      }
      if x != [] && y != [] { assert s[|x| - 1 + 1] == y[0]; }
    }
    if NoFreePair(x) && NoFreePair(y) && !(LastFree(x) && FirstFree(y)) {
      forall k | 0 <= k < |s| - 1 ensures !(s[k].state == FREE && s[k + 1].state == FREE) {
        if k >= |x| { assert s[k] == y[k - |x|] && s[k + 1] == y[k - |x| + 1]; }
        else if k == |x| - 1 { assert s[k + 1] == y[0]; }
      }
    }
  }

  lemma PairParts(x: seq<Clump>, y: seq<Clump>, z: seq<Clump>)
    requires y != []
    ensures NoFreePair(x + (y + z)) <==>
              && NoFreePair(x) && NoFreePair(y) && NoFreePair(z)
              && !(LastFree(x) && FirstFree(y)) && !(LastFree(y) && FirstFree(z))
  {
    PairAppend(x, y + z);
    PairAppend(y, z);
    assert (y + z)[0] == y[0];
  }

  // ---------------------------------------------------------------------------
  // Splitting a free clump and relabelling a clump
  // ---------------------------------------------------------------------------

  function Halves(c: Clump, n: nat): seq<Clump>
    requires n <= c.n
  {
    [Clump(n, RESERVED), Clump(c.n - n, FREE)]
  }

  lemma One(m: seq<nat>, a: nat, q: nat, c: Clump)
    ensures Len([c]) == c.n && (Seg(m, a, [c]) <==> a < |m| && m[a] == Raw(c))
    ensures PrevSeg(m, a, q, [c]) <==> a < |m| && m[a] == CHUNK_SIZE * q
    ensures LastLen(q, [c]) == c.n && (Proper([c]) <==> c.n >= 1 && c.state <= FREEING)
  {
    assert [c][1..] == [];
  }

  lemma Two(m: seq<nat>, a: nat, q: nat, c: Clump, d: Clump)
    ensures Len([c, d]) == c.n + d.n
    ensures Seg(m, a, [c, d]) <==> a < |m| && m[a] == Raw(c) && a + c.n < |m| && m[a + c.n] == Raw(d)
    ensures PrevSeg(m, a, q, [c, d]) <==>
              a < |m| && m[a] == CHUNK_SIZE * q && a + c.n < |m| && m[a + c.n] == CHUNK_SIZE * c.n
    ensures LastLen(q, [c, d]) == d.n
    ensures Proper([c, d]) <==> c.n >= 1 && c.state <= FREEING && d.n >= 1 && d.state <= FREEING
  {
    assert [c, d][1..] == [d];
    One(m, a + c.n, c.n, d);
  }

  /** What the walk says about one clump. */
  lemma TilesOne(m: seq<nat>, x: seq<Clump>, c: Clump, z: seq<Clump>)
    requires Tiles3(m, x, [c], z)
    ensures Len(x) + c.n < |m| && m[Len(x)] == Raw(c) && c.n >= 1 && c.state <= FREEING && Proper(x) && Proper(z)
  {
    One(m, Len(x), 0, c);
    assert Tail(m, Len(x) + c.n, z);
  }

  /** Writing inside a clump does not disturb the walk. */
  lemma WriteInside(m: seq<nat>, x: seq<Clump>, c: Clump, z: seq<Clump>, i: nat, v: nat)
    requires Tiles3(m, x, [c], z) && Len(x) < i < Len(x) + c.n
    ensures i < |m| && Tiles3(m[i := v], x, [c], z)
  {
    TilesOne(m, x, c, z);
    One(m[i := v], Len(x), 0, c);
    TilesReplace(m, m[i := v], x, [c], [c], z);
  }

  lemma Relabel(m: seq<nat>, x: seq<Clump>, c: Clump, z: seq<Clump>, state: nat)
    requires Tiles3(m, x, [c], z) && state <= FREEING
    ensures Len(x) < |m| && Tiles3(m[Len(x) := CHUNK_SIZE * c.n + state], x, [Clump(c.n, state)], z)
  {
    TilesOne(m, x, c, z);
    One(m, Len(x), 0, c);
    One(m[Len(x) := CHUNK_SIZE * c.n + state], Len(x), 0, Clump(c.n, state));
    TilesReplace(m, m[Len(x) := CHUNK_SIZE * c.n + state], x, [c], [Clump(c.n, state)], z);
  }

  lemma SplitTiles(m: seq<nat>, x: seq<Clump>, c: Clump, z: seq<Clump>, n: nat)
    requires Tiles3(m, x, [c], z) && 1 <= n < c.n && Len(x) + n < |m|
    requires m[Len(x) + n] == CHUNK_SIZE * (c.n - n) + FREE
    ensures Len(x) < |m| && Tiles3(m[Len(x) := CHUNK_SIZE * n + RESERVED], x, Halves(c, n), z)
  {
    TilesOne(m, x, c, z);
    var m' := m[Len(x) := CHUNK_SIZE * n + RESERVED];
    One(m, Len(x), 0, c);
    Two(m', Len(x), 0, Clump(n, RESERVED), Clump(c.n - n, FREE));
    TilesReplace(m, m', x, [c], Halves(c, n), z);
  }

  lemma SplitPrev(p: seq<nat>, p': seq<nat>, x: seq<Clump>, c: Clump, z: seq<Clump>, n: nat)
    requires Prev3(p, x, [c], z) && Proper(x) && Proper(z) && 1 <= n < c.n && Len(x) + c.n < |p| == |p'|
    requires p'[Len(x) + n] == CHUNK_SIZE * n && p'[Len(x) + c.n] == CHUNK_SIZE * (c.n - n)
    requires forall i :: 0 <= i < |p| && i != Len(x) + n && i != Len(x) + c.n ==> p'[i] == p[i]
    ensures Prev3(p', x, Halves(c, n), z)
  {
    One(p, Len(x), LastLen(0, x), c);
    SplitAround(p, p', x, Len(x) + c.n, c.n, c.n - n, z, Len(x) + n);
    Two(p', Len(x), LastLen(0, x), Clump(n, RESERVED), Clump(c.n - n, FREE));
  }

  lemma SplitAround(p: seq<nat>, p': seq<nat>, x: seq<Clump>, b: nat, q: nat, q': nat, z: seq<Clump>, a: nat)
    requires Proper(x) && Proper(z) && PrevSeg(p, 0, 0, x) && PrevSeg(p, b, q, z) && |p'| == |p|
    requires Len(x) < a < b < |p| && p'[b] == CHUNK_SIZE * q'
    requires forall i :: 0 <= i < |p| && i != a && i != b ==> p'[i] == p[i]
    ensures PrevSeg(p', 0, 0, x) && PrevSeg(p', b, q', z)
  {
    PrevAround(p, p', x, b, q, q', z);
  }

  lemma SplitRest(x: seq<Clump>, c: Clump, z: seq<Clump>, n: nat)
    requires c.state == FREE && 1 <= n < c.n
    ensures Layout(x + (Halves(c, n) + z)) == Layout(x + ([c] + z))
    ensures NoFreePair(x + ([c] + z)) ==> NoFreePair(x + (Halves(c, n) + z))
  {
    FreeLayout([c]);
    FreeLayout(Halves(c, n));
    One([], 0, 0, c);
    Two([], 0, 0, Clump(n, RESERVED), Clump(c.n - n, FREE));
    LayoutReplace(x, [c], Halves(c, n), z);
    PairParts(x, [c], z);
    PairParts(x, Halves(c, n), z);
  }

  lemma RelabelPrev(p: seq<nat>, x: seq<Clump>, c: Clump, z: seq<Clump>, state: nat)
    requires Prev3(p, x, [c], z)
    ensures Prev3(p, x, [Clump(c.n, state)], z)
  {
    One(p, Len(x), LastLen(0, x), c);
    One(p, Len(x), LastLen(0, x), Clump(c.n, state));
  }

  lemma RelabelRest(x: seq<Clump>, c: Clump, z: seq<Clump>, state: nat)
    ensures NoFreePair(x + ([c] + z)) && state != FREE ==> NoFreePair(x + ([Clump(c.n, state)] + z))
    ensures Kept(c) == Kept(Clump(c.n, state)) ==> Layout(x + ([Clump(c.n, state)] + z)) == Layout(x + ([c] + z))
  {
    PairParts(x, [c], z);
    PairParts(x, [Clump(c.n, state)], z);
    if Kept(c) == Kept(Clump(c.n, state)) {
      LayoutOne(c);
      LayoutOne(Clump(c.n, state));
      LayoutReplace(x, [c], [Clump(c.n, state)], z);
    }
  }

  /** Writing the prevsize field behind a clump that has not changed its length. */
  lemma SamePrev(p: seq<nat>, p': seq<nat>, x: seq<Clump>, c: Clump, z: seq<Clump>)
    requires Prev3(p, x, [c], z) && Proper(x) && Proper(z) && c.n >= 1 && Len(x) + c.n < |p|
    requires p' == p[Len(x) + c.n := CHUNK_SIZE * c.n]
    ensures Prev3(p', x, [c], z)
  {
    One(p, Len(x), LastLen(0, x), c);
    One(p', Len(x), LastLen(0, x), c);
    PrevAround(p, p', x, Len(x) + c.n, c.n, c.n, z);
  }

  lemma StartOf(x: seq<Clump>, y: seq<Clump>, z: seq<Clump>)
    requires y != []
    ensures |x| < |x + (y + z)| && Start(x + (y + z), |x|) == Len(x)
  {
    assert (x + (y + z))[..|x|] == x;
  }

  // ---------------------------------------------------------------------------
  // Freeing
  // ---------------------------------------------------------------------------

  /** The clumps that become one when `c` is freed: itself and free neighbours. */
  function Joined(x: seq<Clump>, c: Clump, z: seq<Clump>): seq<Clump> {
    (if LastFree(x) then [x[|x| - 1]] else []) + ([c] + (if FirstFree(z) then [z[0]] else []))
  }

  function BeforeJoined(x: seq<Clump>): seq<Clump> {
    if LastFree(x) then x[..|x| - 1] else x
  }

  function AfterJoined(z: seq<Clump>): seq<Clump> {
    if FirstFree(z) then z[1..] else z
  }

  lemma Regroup(x: seq<Clump>, c: Clump, z: seq<Clump>)
    ensures x + ([c] + z) == BeforeJoined(x) + (Joined(x, c, z) + AfterJoined(z))
    ensures Joined(x, c, z) != [] && Joined(x, c, z)[|Joined(x, c, z)| - 1].n == if FirstFree(z) then z[0].n else c.n
    ensures Len(x) == Len(BeforeJoined(x)) + (if LastFree(x) then x[|x| - 1].n else 0)
    ensures Len(Joined(x, c, z)) ==
            (if LastFree(x) then x[|x| - 1].n else 0) + c.n + (if FirstFree(z) then z[0].n else 0)
  {
    var d, e := if LastFree(x) then [x[|x| - 1]] else [], if FirstFree(z) then [z[0]] else [];
    assert x == BeforeJoined(x) + d && z == e + AfterJoined(z);
    FiveParts(BeforeJoined(x), d, [c], e, AfterJoined(z));
    LenAppend(BeforeJoined(x), d);
    LenAppend(d, [c] + e);
    LenAppend([c], e);
    OneLen(c);
    if LastFree(x) { OneLen(x[|x| - 1]); }
    if FirstFree(z) { OneLen(z[0]); }
  }

  lemma OneLen(c: Clump)
    ensures Len([c]) == c.n
  {
    assert [c][1..] == [];
  }

  lemma FiveParts(a: seq<Clump>, b: seq<Clump>, c: seq<Clump>, d: seq<Clump>, e: seq<Clump>)
    ensures (a + b) + (c + (d + e)) == a + ((b + (c + d)) + e)
  {
  }

  lemma JoinTiles(m: seq<nat>, x: seq<Clump>, c: Clump, z: seq<Clump>)
    requires Tiles3(m, x, [c], z)
    ensures Tiles3(m, BeforeJoined(x), Joined(x, c, z), AfterJoined(z))
  {
    Regroup(x, c, z);
    TilesParts(m, x, [c], z);
    TilesParts(m, BeforeJoined(x), Joined(x, c, z), AfterJoined(z));
  }

  lemma JoinPrev(p: seq<nat>, x: seq<Clump>, c: Clump, z: seq<Clump>)
    requires Prev3(p, x, [c], z)
    ensures Prev3(p, BeforeJoined(x), Joined(x, c, z), AfterJoined(z))
  {
    Regroup(x, c, z);
    PrevParts(p, x, [c], z);
    PrevParts(p, BeforeJoined(x), Joined(x, c, z), AfterJoined(z));
  }

  lemma FuseTiles(m: seq<nat>, x: seq<Clump>, y: seq<Clump>, z: seq<Clump>)
    requires Tiles3(m, x, y, z) && y != []
    ensures Len(x) < |m| && Len(y) >= 1 && Tiles3(m[Len(x) := CHUNK_SIZE * Len(y) + FREE], x, [Clump(Len(y), FREE)], z)
  {
    var m' := m[Len(x) := CHUNK_SIZE * Len(y) + FREE];
    One(m', Len(x), 0, Clump(Len(y), FREE));
    TilesReplace(m, m', x, y, [Clump(Len(y), FREE)], z);
  }

  lemma FusePrev(p: seq<nat>, p': seq<nat>, x: seq<Clump>, y: seq<Clump>, z: seq<Clump>)
    requires Prev3(p, x, y, z) && Proper(x) && Proper(y) && Proper(z) && y != [] && Len(x) + Len(y) < |p|
    requires p' == p[Len(x) + Len(y) := CHUNK_SIZE * Len(y)]
    ensures Prev3(p', x, [Clump(Len(y), FREE)], z)
  {
    One(p', Len(x), LastLen(0, x), Clump(Len(y), FREE));
    PrevAround(p, p', x, Len(x) + Len(y), LastLen(LastLen(0, x), y), Len(y), z);
  }

  /** The pool after freeing `c`. */
  function Fused(x: seq<Clump>, c: Clump, z: seq<Clump>): seq<Clump> {
    BeforeJoined(x) + ([Clump(Len(Joined(x, c, z)), FREE)] + AfterJoined(z))
  }

  lemma FusedLayout(x: seq<Clump>, c: Clump, z: seq<Clump>)
    ensures Layout(Fused(x, c, z)) == Layout(x + ([Clump(c.n, FREE)] + z))
  {
    var y, f := Joined(x, Clump(c.n, FREE), z), Clump(Len(Joined(x, c, z)), FREE);
    Regroup(x, c, z);
    Regroup(x, Clump(c.n, FREE), z);
    FreeLayout(y);
    FreeLayout([f]);
    One([], 0, 0, f);
    LayoutReplace(BeforeJoined(x), y, [f], AfterJoined(z));
  }

  lemma FusedPairs(x: seq<Clump>, c: Clump, z: seq<Clump>)
    requires NoFreePair(x + ([c] + z))
    ensures NoFreePair(Fused(x, c, z))
  {
    PairParts(x, [c], z);
    if LastFree(x) { PairAppend(x[..|x| - 1], [x[|x| - 1]]); assert x == x[..|x| - 1] + [x[|x| - 1]]; }
    if FirstFree(z) { PairAppend([z[0]], z[1..]); assert z == [z[0]] + z[1..]; }
    PairParts(BeforeJoined(x), [Clump(Len(Joined(x, c, z)), FREE)], AfterJoined(z));
  }

  /** What freeing reads around clump `c`. */
  lemma NeighbourReads(m: seq<nat>, p: seq<nat>, x: seq<Clump>, c: Clump, z: seq<Clump>)
    requires Tiles3(m, x, [c], z) && Prev3(p, x, [c], z)
    ensures Len(x) < |p| && p[Len(x)] == CHUNK_SIZE * LastLen(0, x) && LastLen(0, x) <= Len(x)
    ensures x == [] <==> LastLen(0, x) == 0
    ensures x != [] ==> m[Len(x) - LastLen(0, x)] == Raw(x[|x| - 1]) && x[|x| - 1].state <= FREEING
    ensures Len(x) + c.n < |m| && m[Len(x) + c.n] == if z == [] then 0 else Raw(z[0])
    ensures z != [] ==> z[0].state <= FREEING && Len(x) + c.n + z[0].n < |m|
  {
    One(p, Len(x), LastLen(0, x), c);
    TilesOne(m, x, c, z);
    NextReads(m, Len(x) + c.n, z) by { assert Tail(m, Len(x) + c.n, z) by { One(m, Len(x), 0, c); } }
    if x != [] { LastReads(m, 0, x); }
  }

  lemma NextReads(m: seq<nat>, a: nat, z: seq<Clump>)
    requires Tail(m, a, z)
    ensures a < |m| && m[a] == if z == [] then 0 else Raw(z[0])
    ensures z != [] ==> z[0].state <= FREEING && a + z[0].n < |m|
  {
  }

  /** The header of the last of several clumps. */
  lemma {:induction false} LastReads(m: seq<nat>, a: nat, y: seq<Clump>)
    requires Seg(m, a, y) && Proper(y) && y != []
    ensures 1 <= y[|y| - 1].n <= Len(y) && a + Len(y) - y[|y| - 1].n < |m| && y[|y| - 1].state <= FREEING
    ensures m[a + Len(y) - y[|y| - 1].n] == Raw(y[|y| - 1])
    decreases y
  {
    if |y| == 1 {
      OneLen(y[0]);
      assert y == [y[0]];
    } else {
      LastReads(m, a + y[0].n, y[1..]);
    }
  }

  lemma {:induction false} StartRelabel(cs: seq<Clump>, k: nat, state: nat, j: nat)
    requires k < |cs| && j <= |cs|
    ensures Start(cs[k := Clump(cs[k].n, state)], j) == Start(cs, j)
    decreases j
  {
    if j > 0 {
      StartRelabel(cs, k, state, j - 1);
      StartNext(cs, j - 1);
      StartNext(cs[k := Clump(cs[k].n, state)], j - 1);
    } else {
      assert cs[..0] == [] && cs[k := Clump(cs[k].n, state)][..0] == [];
    }
  }

  /** The same for the prevsize fields. */
  lemma WriteInsidePrev(p: seq<nat>, x: seq<Clump>, c: Clump, z: seq<Clump>, i: nat, v: nat)
    requires Prev3(p, x, [c], z) && Proper(x) && Proper(z) && Len(x) < i < Len(x) + c.n <= |p|
    ensures Prev3(p[i := v], x, [c], z)
  {
    One(p, Len(x), LastLen(0, x), c);
    One(p[i := v], Len(x), LastLen(0, x), c);
    PrevFrame(p, p[i := v], 0, 0, x);
    PrevFrame(p, p[i := v], Len(x) + c.n, c.n, z);
  }

  // ---------------------------------------------------------------------------
  // What recovery and freeing keep
  // ---------------------------------------------------------------------------

  lemma LayoutAround(x: seq<Clump>, c: Clump, z: seq<Clump>)
    ensures Layout(x + ([c] + z)) == Layout(x) + (Cells(c) + Layout(z))
  {
    LayoutAppend(x, [c] + z);
    LayoutAppend([c], z);
    LayoutOne(c);
  }

  /** Freeing a clump changes the layout at that clump only. */
  lemma FreeingLayout(x: seq<Clump>, c: Clump, z: seq<Clump>)
    ensures Layout(x + ([c] + z)) == Layout(x) + (Cells(c) + Layout(z))
    ensures Layout(Fused(x, c, z)) == Layout(x) + (Repeat(Free, c.n) + Layout(z))
  {
    LayoutAround(x, c, z);
    LayoutAround(x, Clump(c.n, FREE), z);
    FusedLayout(x, c, z);
  }

  lemma JoinedProper(w: seq<Clump>, y: seq<Clump>, v: seq<Clump>)
    requires Proper(w + (y + v)) && y != []
    ensures Proper(w + ([Clump(Len(y), FREE)] + v))
  {
    ProperAppend(w, y + v);
    ProperAppend(y, v);
    assert Len(y) >= y[0].n >= 1;
    assert Proper([Clump(Len(y), FREE)]);
    ProperAppend([Clump(Len(y), FREE)], v);
    ProperAppend(w, [Clump(Len(y), FREE)] + v);
  }

  lemma FusedProper(x: seq<Clump>, c: Clump, z: seq<Clump>)
    requires Proper(x + ([c] + z))
    ensures Proper(Fused(x, c, z))
  {
    Regroup(x, c, z);
    JoinedProper(BeforeJoined(x), Joined(x, c, z), AfterJoined(z));
  }

  /** Freeing a clump leaves every other allocated clump at its place. */
  lemma FreeKeepsOthers(x: seq<Clump>, c: Clump, z: seq<Clump>)
    requires Proper(x + ([c] + z))
    ensures var cs := x + ([c] + z); forall j :: 0 <= j < |cs| && j != |x| && Kept(cs[j]) ==>
              KeptAt(cs, Start(cs, j), cs[j].n) && KeptAt(Fused(x, c, z), Start(cs, j), cs[j].n)
  {
    var cs := x + ([c] + z);
    forall j | 0 <= j < |cs| && j != |x| && Kept(cs[j])
      ensures KeptAt(cs, Start(cs, j), cs[j].n) && KeptAt(Fused(x, c, z), Start(cs, j), cs[j].n)
    {
      KeptClump(cs, j);
      OtherPlace(x, c, z, j);
      FreeKeepsPlace(x, c, z, Start(cs, j), cs[j].n);
    }
  }

  lemma OtherPlace(x: seq<Clump>, c: Clump, z: seq<Clump>, j: nat)
    requires Proper(x + ([c] + z)) && j < |x + ([c] + z)| && j != |x|
    ensures var a := Start(x + ([c] + z), j); a < Len(x) || a >= Len(x) + c.n
  {
    var cs := x + ([c] + z);
    StartOf(x, [c], z);
    StartNext(cs, |x|);
    if j < |x| {
      StartsGrow(cs, j, |x|);
    } else if j > |x| + 1 {
      StartsGrow(cs, |x| + 1, j);
    }
  }

  /** The cells outside the freed clump. */
  lemma FreeCells(x: seq<Clump>, c: Clump, z: seq<Clump>, a: nat)
    requires Proper(x + ([c] + z))
    ensures var l, l' := Layout(x + ([c] + z)), Layout(Fused(x, c, z));
      && |l'| == |l| && (a < |l| && !(Len(x) <= a < Len(x) + c.n) ==> l'[a] == l[a])
      && (Len(x) <= a < Len(x) + c.n && a < |l| ==> l'[a] == Free)
  {
    FreeingLayout(x, c, z);
    LayoutLen(x);
    LayoutLen([c]);
    LayoutOne(c);
    OneLen(c);
    InThree(Layout(x), Cells(c), Repeat(Free, c.n), Layout(z), a);
  }

  lemma InThree(x: seq<Cell>, y: seq<Cell>, y': seq<Cell>, z: seq<Cell>, a: nat)
    requires |y'| == |y|
    ensures a < |x| + |y| + |z| && !(|x| <= a < |x| + |y|) ==> (x + (y' + z))[a] == (x + (y + z))[a]
    ensures |x| <= a < |x| + |y| ==> (x + (y' + z))[a] == y'[a - |x|]
  {
  }

  lemma FreeKeepsPlace(x: seq<Clump>, c: Clump, z: seq<Clump>, a: nat, n: nat)
    requires Proper(x + ([c] + z)) && KeptAt(x + ([c] + z), a, n) && (a < Len(x) || a >= Len(x) + c.n)
    ensures KeptAt(Fused(x, c, z), a, n)
  {
    FusedProper(x, c, z);
    FreeCells(x, c, z, a);
    LayoutHeads(x + ([c] + z), a, n);
    LayoutHeads(Fused(x, c, z), a, n);
  }

  lemma FreeInventsNothing(x: seq<Clump>, c: Clump, z: seq<Clump>)
    requires Proper(x + ([c] + z))
    ensures forall a, n :: KeptAt(Fused(x, c, z), a, n) ==> KeptAt(x + ([c] + z), a, n)
  {
    FusedProper(x, c, z);
    forall a: nat, n: nat | KeptAt(Fused(x, c, z), a, n) ensures KeptAt(x + ([c] + z), a, n) {
      FreeCells(x, c, z, a);
      LayoutHeads(x + ([c] + z), a, n);
      LayoutHeads(Fused(x, c, z), a, n);
    }
  }

  /** The memory handed out for different clumps does not overlap; each begins one
      chunk behind its header and ends before the next one. */
  lemma PayloadsAreDisjoint(cs: seq<Clump>, j: nat, k: nat)
    requires Proper(cs) && j < k < |cs|
    ensures Start(cs, j) + cs[j].n < Start(cs, k) + 1 && Start(cs, k) + cs[k].n <= Len(cs)
  {
    StartsGrow(cs, j, k);
    StartNext(cs, k);
  }
}
