/** The prevsize fields as crashes and recovery leave them: each is right, or it leads
    into a clump that nobody has, to a header that still lies there. */
module PoolNear {
  import opened PoolLayout

  /** What the first clump has in front of it. */
  const NOTHING: Clump := Clump(0, ACTIVE)

  function Last(c: Clump, x: seq<Clump>): Clump {
    if x == [] then c else x[|x| - 1]
  }

  /** Nobody has the clump; while the program runs (`strict`) that means it is free. */
  predicate Idle(c: Clump, strict: bool) {
    if strict then c.state == FREE else !Kept(c)
  }

  predicate Exact(p: seq<nat>, a: nat, c: Clump) {
    a < |p| && p[a] == CHUNK_SIZE * c.n
  }

  predicate Stale(m: seq<nat>, p: seq<nat>, a: nat, c: Clump, strict: bool) {
    && a < |p| == |m| && Idle(c, strict)
    && var q := Chunks(p[a]);
       1 <= q < c.n && q <= a && Chunks(m[a - q]) == q && State(m[a - q]) <= FREEING
  }

  predicate PrevOk(m: seq<nat>, p: seq<nat>, a: nat, c: Clump, strict: bool) {
    Exact(p, a, c) || Stale(m, p, a, c, strict)
  }

  /** The prevsize fields of the clumps `cs` from chunk `a` on, behind clump `c`. */
  predicate Near(m: seq<nat>, p: seq<nat>, a: nat, c: Clump, cs: seq<Clump>, strict: bool)
    decreases cs
  {
    cs != [] ==> PrevOk(m, p, a, c, strict) && Near(m, p, a + cs[0].n, cs[0], cs[1..], strict)
  }

  predicate Near3(m: seq<nat>, p: seq<nat>, x: seq<Clump>, y: seq<Clump>, z: seq<Clump>, strict: bool) {
    && Near(m, p, 0, NOTHING, x, strict) && Near(m, p, Len(x), Last(NOTHING, x), y, strict)
    && Near(m, p, Len(x) + Len(y), Last(Last(NOTHING, x), y), z, strict)
  }

  lemma {:induction false} NearAppend(m: seq<nat>, p: seq<nat>, a: nat, c: Clump, x: seq<Clump>, y: seq<Clump>,
      strict: bool)
    ensures Near(m, p, a, c, x + y, strict) <==>
              Near(m, p, a, c, x, strict) && Near(m, p, a + Len(x), Last(c, x), y, strict)
    decreases x
  {
    if x == [] {
      assert x + y == y;
    } else {
      assert (x + y)[1..] == x[1..] + y;
      NearAppend(m, p, a + x[0].n, x[0], x[1..], y, strict);
    }
  }

  lemma NearParts(m: seq<nat>, p: seq<nat>, x: seq<Clump>, y: seq<Clump>, z: seq<Clump>, strict: bool)
    ensures Near(m, p, 0, NOTHING, x + (y + z), strict) <==> Near3(m, p, x, y, z, strict)
  {
    NearAppend(m, p, 0, NOTHING, x, y + z, strict);
    NearAppend(m, p, Len(x), Last(NOTHING, x), y, z, strict);
  }

  lemma NearOne(m: seq<nat>, p: seq<nat>, a: nat, c: Clump, d: Clump, strict: bool)
    ensures Near(m, p, a, c, [d], strict) <==> PrevOk(m, p, a, c, strict)
  {
    assert [d][1..] == [];
  }

  /** Right fields are near. */
  lemma {:induction false} ExactIsNear(m: seq<nat>, p: seq<nat>, a: nat, c: Clump, cs: seq<Clump>, strict: bool)
    requires PrevSeg(p, a, c.n, cs)
    ensures Near(m, p, a, c, cs, strict)
    decreases cs
  {
    if cs != [] { ExactIsNear(m, p, a + cs[0].n, cs[0], cs[1..], strict); }
  }

  /** When every clump is free or allocated, only free ones are idle. */
  lemma {:induction false} SettledIsStrict(m: seq<nat>, p: seq<nat>, a: nat, c: Clump, cs: seq<Clump>)
    requires Near(m, p, a, c, cs, false) && Settled([c] + cs)
    ensures Near(m, p, a, c, cs, true)
    decreases cs
  {
    assert ([c] + cs)[0] == c;
    if cs != [] {
      assert [cs[0]] + cs[1..] == ([c] + cs)[1..];
      SettledIsStrict(m, p, a + cs[0].n, cs[0], cs[1..]);
    }
  }

  lemma {:induction false} StrictIsNear(m: seq<nat>, p: seq<nat>, a: nat, c: Clump, cs: seq<Clump>, strict: bool)
    requires Near(m, p, a, c, cs, true)
    ensures Near(m, p, a, c, cs, strict)
    decreases cs
  {
    if cs != [] { StrictIsNear(m, p, a + cs[0].n, cs[0], cs[1..], strict); }
  }

  lemma StrictParts(m: seq<nat>, p: seq<nat>, x: seq<Clump>, y: seq<Clump>, z: seq<Clump>)
    requires Near3(m, p, x, y, z, true)
    ensures Near3(m, p, x, y, z, false)
  {
    StrictIsNear(m, p, 0, NOTHING, x, false);
    StrictIsNear(m, p, Len(x), Last(NOTHING, x), y, false);
    StrictIsNear(m, p, Len(x) + Len(y), Last(Last(NOTHING, x), y), z, false);
  }

  /** Fields stay near as long as neither they nor what lies in front of them changes. */
  lemma {:induction false} NearFrame(m: seq<nat>, p: seq<nat>, m': seq<nat>, p': seq<nat>, a: nat, c: Clump,
      cs: seq<Clump>, strict: bool)
    requires Near(m, p, a, c, cs, strict) && Proper(cs) && |m'| == |m| && |p'| == |p|
    requires forall i :: 0 <= i < |m| && a - c.n <= i < a + Len(cs) ==> m'[i] == m[i]
    requires forall i :: a <= i < a + Len(cs) && i < |p| ==> p'[i] == p[i]
    ensures Near(m', p', a, c, cs, strict)
    decreases cs
  {
    if cs != [] { NearFrame(m, p, m', p', a + cs[0].n, cs[0], cs[1..], strict); }
  }

  /** Behind a change that ends at `b` only the field at `b` is in question. */
  lemma NearBehind(m: seq<nat>, p: seq<nat>, m': seq<nat>, p': seq<nat>, b: nat, c: Clump, c': Clump, z: seq<Clump>,
      strict: bool)
    requires Near(m, p, b, c, z, strict) && Proper(z) && |m'| == |m| && |p'| == |p|
    requires forall i :: b <= i < |m| ==> m'[i] == m[i]
    requires forall i :: b < i < |p| ==> p'[i] == p[i]
    requires z != [] ==> PrevOk(m', p', b, c', strict)
    ensures Near(m', p', b, c', z, strict)
  {
    if z != [] { NearFrame(m, p, m', p', b + z[0].n, z[0], z[1..], strict); }
  }

  /** Changes behind the clumps `x` do not matter to them, nor to the field behind them. */
  lemma NearBefore(m: seq<nat>, p: seq<nat>, m': seq<nat>, p': seq<nat>, x: seq<Clump>, y: seq<Clump>, d: Clump,
      strict: bool)
    requires Near(m, p, 0, NOTHING, x, strict) && Near(m, p, Len(x), Last(NOTHING, x), y, strict) && y != []
    requires Proper(x) && |m'| == |m| && |p'| == |p|
    requires forall i :: 0 <= i < Len(x) && i < |m| ==> m'[i] == m[i]
    requires forall i :: 0 <= i <= Len(x) && i < |p| ==> p'[i] == p[i]
    ensures Near(m', p', 0, NOTHING, x, strict) && Near(m', p', Len(x), Last(NOTHING, x), [d], strict)
  {
    NearFrame(m, p, m', p', 0, NOTHING, x, strict);
    NearOne(m', p', Len(x), Last(NOTHING, x), d, strict);
  }

  lemma BehindOne(m: seq<nat>, p: seq<nat>, x: seq<Clump>, c: Clump, z: seq<Clump>, strict: bool)
    requires Near3(m, p, x, [c], z, strict)
    ensures PrevOk(m, p, Len(x), Last(NOTHING, x), strict)
    ensures z != [] ==> PrevOk(m, p, Len(x) + c.n, c, strict)
  {
    OneLen(c);
    NearOne(m, p, Len(x), Last(NOTHING, x), c, strict);
  }

  /** One clump is changed into another of the same length. */
  lemma NearChange(m: seq<nat>, p: seq<nat>, m': seq<nat>, p': seq<nat>, x: seq<Clump>, c: Clump, c': Clump,
      z: seq<Clump>, strict: bool)
    requires Near3(m, p, x, [c], z, strict) && Proper(x) && Proper(z) && c'.n == c.n && |m'| == |m| && |p'| == |p|
    requires forall i :: 0 <= i < |m| && !(Len(x) <= i < Len(x) + c.n) ==> m'[i] == m[i]
    requires forall i :: 0 <= i < |p| && !(Len(x) < i <= Len(x) + c.n) ==> p'[i] == p[i]
    requires z != [] ==> PrevOk(m', p', Len(x) + c.n, c', strict)
    ensures Near3(m', p', x, [c'], z, strict)
  {
    OneLen(c);
    OneLen(c');
    NearBefore(m, p, m', p', x, [c], c', strict);
    NearBehind(m, p, m', p', Len(x) + c.n, c, c', z, strict);
  }

  /** A new state for a clump, with its header. */
  lemma NearRelabel(m: seq<nat>, p: seq<nat>, x: seq<Clump>, c: Clump, z: seq<Clump>, state: nat, v: nat, strict: bool)
    requires Near3(m, p, x, [c], z, strict) && Proper(x) && Proper(z) && Len(x) < |m| && c.n >= 1
    requires Idle(c, strict) ==> Idle(Clump(c.n, state), strict)
    ensures Near3(m[Len(x) := v], p, x, [Clump(c.n, state)], z, strict)
  {
    BehindOne(m, p, x, c, z, strict);
    NearChange(m, p, m[Len(x) := v], p, x, c, Clump(c.n, state), z, strict);
  }

  /** Writing inside a clump, unless that is where the field behind it leads. */
  lemma NearInside(m: seq<nat>, p: seq<nat>, x: seq<Clump>, c: Clump, z: seq<Clump>, i: nat, v: nat, strict: bool)
    requires Near3(m, p, x, [c], z, strict) && Proper(x) && Proper(z) && Len(x) < i < Len(x) + c.n && i < |m|
    requires Idle(c, strict) ==> Chunks(v) == Len(x) + c.n - i && State(v) <= FREEING
    ensures Near3(m[i := v], p, x, [c], z, strict)
  {
    BehindOne(m, p, x, c, z, strict);
    NearChange(m, p, m[i := v], p, x, c, c, z, strict);
  }

  lemma NearInsidePrev(m: seq<nat>, p: seq<nat>, x: seq<Clump>, c: Clump, z: seq<Clump>, i: nat, v: nat, strict: bool)
    requires Near3(m, p, x, [c], z, strict) && Proper(x) && Proper(z) && Len(x) < i < Len(x) + c.n && i < |p|
    ensures Near3(m, p[i := v], x, [c], z, strict)
  {
    BehindOne(m, p, x, c, z, strict);
    NearChange(m, p, m, p[i := v], x, c, c, z, strict);
  }

  /** Writing the field behind a clump so that it is right, or leads to a header inside. */
  lemma NearField(m: seq<nat>, p: seq<nat>, x: seq<Clump>, c: Clump, z: seq<Clump>, q: nat, strict: bool)
    requires Near3(m, p, x, [c], z, strict) && Proper(x) && Proper(z) && 1 <= q <= c.n && Len(x) + c.n < |p| == |m|
    requires q < c.n ==> Idle(c, strict) && Chunks(m[Len(x) + c.n - q]) == q && State(m[Len(x) + c.n - q]) <= FREEING
    ensures Near3(m, p[Len(x) + c.n := CHUNK_SIZE * q], x, [c], z, strict)
  {
    var b, p' := Len(x) + c.n, p[Len(x) + c.n := CHUNK_SIZE * q];
    assert Chunks(p'[b]) == q;
    NearChange(m, p, m, p', x, c, c, z, strict);
  }

  /** Reserving a whole free clump: its header and the field behind it. */
  lemma NearWhole(m: seq<nat>, p: seq<nat>, x: seq<Clump>, c: Clump, z: seq<Clump>, state: nat, v: nat)
    requires Near3(m, p, x, [c], z, true) && Proper(x) && Proper(z) && c.n >= 1 && Len(x) + c.n < |p| == |m|
    ensures Near3(m[Len(x) := v], p[Len(x) + c.n := CHUNK_SIZE * c.n], x, [Clump(c.n, state)], z, true)
  {
    NearChange(m, p, m[Len(x) := v], p[Len(x) + c.n := CHUNK_SIZE * c.n], x, c, Clump(c.n, state), z, true);
  }

  /** The field behind the rest of a split clump. */
  lemma NearBehindSplit(m: seq<nat>, p: seq<nat>, m': seq<nat>, p': seq<nat>, b: nat, c: Clump, e: Clump, z: seq<Clump>)
    requires Near(m, p, b, c, z, true) && Proper(z) && |m'| == |m| && |p'| == |p| && Exact(p', b, e)
    requires forall i :: b <= i < |m| ==> m'[i] == m[i]
    requires forall i :: b < i < |p| ==> p'[i] == p[i]
    ensures Near(m', p', b, e, z, true)
  {
    NearBehind(m, p, m', p', b, c, e, z, true);
  }

  /** Splitting a free clump, once everything is written. */
  lemma NearSplit(m: seq<nat>, p: seq<nat>, m': seq<nat>, p': seq<nat>, x: seq<Clump>, c: Clump, z: seq<Clump>, n: nat)
    requires Near3(m, p, x, [c], z, true) && Proper(x) && Proper(z) && 1 <= n < c.n && Len(x) + c.n < |p| == |m|
    requires |m'| == |m| && |p'| == |p|
    requires forall i :: 0 <= i < |m| && !(Len(x) <= i < Len(x) + c.n) ==> m'[i] == m[i]
    requires forall i :: 0 <= i < |p| && i != Len(x) + n && i != Len(x) + c.n ==> p'[i] == p[i]
    requires p'[Len(x) + n] == CHUNK_SIZE * n && p'[Len(x) + c.n] == CHUNK_SIZE * (c.n - n)
    ensures Near3(m', p', x, Halves(c, n), z, true)
  {
    OneLen(c);
    var d, e := Clump(n, RESERVED), Clump(c.n - n, FREE);
    NearBefore(m, p, m', p', x, [c], d, true);
    NearBehindSplit(m, p, m', p', Len(x) + c.n, c, e, z);
    NearTwo(m', p', Len(x), Last(NOTHING, x), d, e);
    NearHalves(m', p', x, d, e, z);
  }

  lemma NearHalves(m: seq<nat>, p: seq<nat>, x: seq<Clump>, d: Clump, e: Clump, z: seq<Clump>)
    requires Near(m, p, 0, NOTHING, x, true) && Near(m, p, Len(x), Last(NOTHING, x), [d, e], true)
    requires Near(m, p, Len(x) + d.n + e.n, e, z, true)
    ensures Near3(m, p, x, [d, e], z, true)
  {
    Two([], 0, 0, d, e);
  }

  lemma NearTwo(m: seq<nat>, p: seq<nat>, a: nat, c: Clump, d: Clump, e: Clump)
    requires Near(m, p, a, c, [d], true) && Exact(p, a + d.n, d)
    ensures Near(m, p, a, c, [d, e], true)
  {
    NearOne(m, p, a, c, d, true);
    NearOne(m, p, a + d.n, d, e, true);
    assert [d, e][1..] == [e];
  }

  // ---------------------------------------------------------------------------
  // Joining
  // ---------------------------------------------------------------------------

  /** Joining clumps into a free one by their first header: the field behind them may
      then lead to the last of the old headers. */
  lemma NearJoin(m: seq<nat>, p: seq<nat>, x: seq<Clump>, y: seq<Clump>, z: seq<Clump>, v: nat, strict: bool)
    requires Near3(m, p, x, y, z, strict) && Tiles3(m, x, y, z) && y != [] && |p| == |m| && Len(x) < |m|
    ensures Near3(m[Len(x) := v], p, x, [Clump(Len(y), FREE)], z, strict)
  {
    LastReads(m, Len(x), y);
    RawFields(y[|y| - 1]);
    NearBefore(m, p, m[Len(x) := v], p, x, y, Clump(Len(y), FREE), strict);
    NearBehindJoined(m, p, Len(x), Len(x) + Len(y), y[|y| - 1], v, z, strict);
    NearThree(m[Len(x) := v], p, x, Clump(Len(y), FREE), z, strict);
  }

  lemma NearThree(m: seq<nat>, p: seq<nat>, x: seq<Clump>, f: Clump, z: seq<Clump>, strict: bool)
    requires Near(m, p, 0, NOTHING, x, strict) && Near(m, p, Len(x), Last(NOTHING, x), [f], strict)
    requires Near(m, p, Len(x) + f.n, f, z, strict)
    ensures Near3(m, p, x, [f], z, strict)
  {
    OneLen(f);
  }

  lemma NearBehindJoined(m: seq<nat>, p: seq<nat>, a: nat, b: nat, d: Clump, v: nat, z: seq<Clump>, strict: bool)
    requires Near(m, p, b, d, z, strict) && Proper(z) && a < b && a < |m| == |p| && 1 <= d.n <= b - a && b - d.n < |m|
    requires Chunks(m[b - d.n]) == d.n && State(m[b - d.n]) <= FREEING
    ensures Near(m[a := v], p, b, Clump(b - a, FREE), z, strict)
  {
    if z != [] { JoinedField(m, p, a, b, d, v, z, strict); }
    NearBehind(m, p, m[a := v], p, b, d, Clump(b - a, FREE), z, strict);
  }

  lemma JoinedField(m: seq<nat>, p: seq<nat>, a: nat, b: nat, d: Clump, v: nat, z: seq<Clump>, strict: bool)
    requires Near(m, p, b, d, z, strict) && z != [] && a < b && a < |m| == |p| && 1 <= d.n <= b - a && b - d.n < |m|
    requires Chunks(m[b - d.n]) == d.n && State(m[b - d.n]) <= FREEING
    ensures PrevOk(m[a := v], p, b, Clump(b - a, FREE), strict)
  {
    assert Exact(p, b, d) || Stale(m, p, b, d, strict);
  }

  /** Then the field is put right. */
  lemma NearJoined(m: seq<nat>, p: seq<nat>, x: seq<Clump>, y: seq<Clump>, z: seq<Clump>, v: nat, strict: bool)
    requires Near3(m, p, x, y, z, strict) && Tiles3(m, x, y, z) && y != [] && |p| == |m| && Len(x) < |m|
    requires Len(x) + Len(y) < |p| && Len(y) >= 1
    ensures Near3(m[Len(x) := v], p[Len(x) + Len(y) := CHUNK_SIZE * Len(y)], x, [Clump(Len(y), FREE)], z, strict)
  {
    NearJoin(m, p, x, y, z, v, strict);
    assert Proper(x) && Proper(z);
    NearField(m[Len(x) := v], p, x, Clump(Len(y), FREE), z, Len(y), strict);
  }
}
