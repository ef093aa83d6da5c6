/** The rotating first-fit allocator over a persistent-memory pool. The machine may
    lose power before any persisted store; from then on stores have no effect. */
module Pool {
  import opened PoolFreeing
  import opened PoolLayout
  import opened PoolNear
  import opened Wrappers

  /** Bytes of the clump for a request of `size` bytes, header included. */
  function ClumpBytes(size: nat): (n: nat)
    ensures n % CHUNK_SIZE == 0 && n >= 128 && n - CHUNK_SIZE >= size
    ensures n > 128 ==> n - CHUNK_SIZE < size + CHUNK_SIZE
  {
    if size <= 64 then 128 else 64 + (size + 63) / 64 * 64
  }

  predicate Fits(c: Clump, bytes: nat) {
    c.state == FREE && bytes <= CHUNK_SIZE * c.n
  }

  /** Where the first fit lies on a walk from chunk `start` on. */
  function FirstFitIn(start: nat, tail: seq<Clump>, bytes: nat): Option<nat>
    decreases tail
  {
    if tail == [] then None
    else if Fits(tail[0], bytes) then Some(start)
    else FirstFitIn(start + tail[0].n, tail[1..], bytes)
  }

  lemma {:induction false} FirstFitAt(start: nat, tail: seq<Clump>, bytes: nat) returns (k: nat)
    ensures k <= |tail| && forall j :: 0 <= j < k ==> !Fits(tail[j], bytes)
    ensures if k == |tail| then FirstFitIn(start, tail, bytes).None?
            else Fits(tail[k], bytes) && FirstFitIn(start, tail, bytes) == Some(start + Start(tail, k))
    decreases tail
  {
    if tail == [] || Fits(tail[0], bytes) {
      k := 0;
      assert tail[..0] == [];
    } else {
      k := FirstFitAt(start + tail[0].n, tail[1..], bytes);
      k := k + 1;
      assert tail[..k] == [tail[0]] + tail[1..][..k - 1];
      LenAppend([tail[0]], tail[1..][..k - 1]);
      OneLen(tail[0]);
    }
  }

  function SearchIn(start: nat, tail: seq<Clump>, whole: seq<Clump>, bytes: nat): Option<nat> {
    if FirstFitIn(start, tail, bytes).Some? then FirstFitIn(start, tail, bytes) else FirstFitIn(0, whole, bytes)
  }

  function Position(p: Option<nat>): nat {
    if p.Some? then p.value else 0
  }

  lemma StartBehind(cs: seq<Clump>, i: nat, k: nat)
    requires i + k <= |cs|
    ensures Start(cs, i) + Start(cs[i..], k) == Start(cs, i + k)
  {
    assert cs[..i + k] == cs[..i] + cs[i..][..k];
    LenAppend(cs[..i], cs[i..][..k]);
  }

  /** From clump `i` round to there again. */
  lemma FitIsRotating(cs: seq<Clump>, i: nat, bytes: nat) returns (k: nat)
    requires i <= |cs|
    ensures var found := SearchIn(Start(cs, i), cs[i..], cs, bytes);
      && (found.None? ==> forall j :: 0 <= j < |cs| ==> !Fits(cs[j], bytes))
      && (found.Some? ==>
            && k < |cs| && Fits(cs[k], bytes) && found.value == Start(cs, k)
            && (forall j :: i <= j < |cs| && (k < i || j < k) ==> !Fits(cs[j], bytes))
            && (k < i ==> forall j :: 0 <= j < k ==> !Fits(cs[j], bytes)))
  {
    var k' := FirstFitAt(Start(cs, i), cs[i..], bytes);
    assert forall j :: i <= j < i + k' ==> cs[i..][j - i] == cs[j];
    if k' < |cs[i..]| {
      k := i + k';
      StartBehind(cs, i, k');
    } else {
      k := FirstFitAt(0, cs, bytes);
    }
  }

  /** A free clump of enough bytes has its header at chunk `a`. */
  predicate FreeAndFits(m: seq<nat>, a: nat, bytes: nat) {
    a < |m| && a + Chunks(m[a]) < |m| && State(m[a]) == FREE && bytes <= CHUNK_SIZE * Chunks(m[a])
  }

  lemma {:induction false} FirstFitFits(m: seq<nat>, start: nat, tail: seq<Clump>, bytes: nat)
    requires Tail(m, start, tail) && FirstFitIn(start, tail, bytes).Some?
    ensures FreeAndFits(m, FirstFitIn(start, tail, bytes).value, bytes)
    decreases tail
  {
    NextReads(m, start, tail);
    RawFields(tail[0]);
    if !Fits(tail[0], bytes) { FirstFitFits(m, start + tail[0].n, tail[1..], bytes); }
  }

  lemma FoundFits(m: seq<nat>, start: nat, tail: seq<Clump>, whole: seq<Clump>, bytes: nat)
    requires Tail(m, start, tail) && Tiles(m, whole) && SearchIn(start, tail, whole, bytes).Some?
    ensures FreeAndFits(m, SearchIn(start, tail, whole, bytes).value, bytes)
  {
    if FirstFitIn(start, tail, bytes).Some? {
      FirstFitFits(m, start, tail, bytes);
    } else {
      FirstFitFits(m, 0, whole, bytes);
    }
  }

  lemma RawOf(raw: nat)
    requires State(raw) == FREE
    ensures raw == Raw(Clump(Chunks(raw), FREE))
  {
  }

  lemma InsideIsNoStart(cs: seq<Clump>, x: seq<Clump>, at: nat)
    requires Proper(cs) && x != [] && x <= cs && Len(x) - x[|x| - 1].n < at < Len(x)
    ensures Start(cs, |x| - 1) < at < Start(cs, |x|) && forall k :: 0 <= k < |cs| ==> Start(cs, k) != at
  {
    assert cs[..|x|] == x && cs[|x| - 1] == x[|x| - 1];
    StartNext(cs, |x| - 1);
    forall k | 0 <= k < |cs| ensures Start(cs, k) != at {
      if k > |x| { StartsGrow(cs, |x|, k); }
      if k < |x| - 1 { StartsGrow(cs, k, |x| - 1); }
    }
  }

  /** From a header off the walk, inside a free clump of it: the next reservation is made
      there, in memory that the walk still counts as free, if and only if it fits; otherwise
      it is made in a clump of the walk. */
  lemma AstraySearch(at: nat, total: nat, cs: seq<Clump>, u: seq<Clump>, v: seq<Clump>, bytes: nat)
    requires cs == u + v && at + total == Len(u) && forall k :: 0 <= k < |cs| ==> Start(cs, k) != at
    ensures bytes <= CHUNK_SIZE * total <==> SearchIn(at, [Clump(total, FREE)] + v, cs, bytes) == Some(at)
    ensures bytes > CHUNK_SIZE * total && SearchIn(at, [Clump(total, FREE)] + v, cs, bytes).Some? ==>
              exists k :: 0 <= k < |cs| && Fits(cs[k], bytes) &&
                SearchIn(at, [Clump(total, FREE)] + v, cs, bytes).value == Start(cs, k)
  {
    var tail := [Clump(total, FREE)] + v;
    assert tail[1..] == v && cs[..|u|] == u && cs[|u|..] == v;
    if bytes > CHUNK_SIZE * total {
      assert FirstFitIn(at, tail, bytes) == FirstFitIn(at + total, v, bytes);
      var k := FitIsRotating(cs, |u|, bytes);
    }
  }

  /** The header and the fields behind it that reserving writes. */
  function TakenSize(m: seq<nat>, clp: nat, n: nat, bytes: nat): seq<nat>
    requires clp + n < |m| && bytes <= CHUNK_SIZE * n
  {
    if CHUNK_SIZE * n - bytes >= 2 * CHUNK_SIZE
    then m[clp + bytes / CHUNK_SIZE := CHUNK_SIZE * n - bytes + FREE][clp := bytes + RESERVED]
    else m[clp := CHUNK_SIZE * n + RESERVED]
  }

  /** What reserving takes from a free clump. */
  function Split(c: Clump, bytes: nat): seq<Clump>
    requires bytes % CHUNK_SIZE == 0 && bytes <= CHUNK_SIZE * c.n
  {
    if CHUNK_SIZE * c.n - bytes >= 2 * CHUNK_SIZE
    then [Clump(bytes / CHUNK_SIZE, RESERVED), Clump(c.n - bytes / CHUNK_SIZE, FREE)]
    else [Clump(c.n, RESERVED)]
  }

  /** Clump `k` of `cs` is reserved for `bytes`, with less than two chunks more than that; if
      there is at least so much more, nothing more is taken and the rest is a free clump
      behind it. The other clumps stay. */
  ghost predicate Taken(cs: seq<Clump>, cs': seq<Clump>, k: nat, bytes: nat) {
    && k < |cs| && k < |cs'| && cs'[..k] == cs[..k]
    && cs'[k].state == RESERVED && bytes <= CHUNK_SIZE * cs'[k].n < bytes + 2 * CHUNK_SIZE
    && if CHUNK_SIZE * cs[k].n < bytes + 2 * CHUNK_SIZE then
         cs'[k].n == cs[k].n && cs'[k + 1..] == cs[k + 1..]
       else
         && CHUNK_SIZE * cs'[k].n == bytes && k + 1 < |cs'|
         && cs'[k + 1] == Clump(cs[k].n - cs'[k].n, FREE) && cs'[k + 2..] == cs[k + 1..]
  }

  /** The same for the header at `at` and the one behind what is taken. */
  ghost predicate TakenHeaders(m: seq<nat>, m': seq<nat>, at: nat, bytes: nat) {
    && at < |m| == |m'|
    && var n, n' := Chunks(m[at]), Chunks(m'[at]);
       && State(m'[at]) == RESERVED && bytes <= CHUNK_SIZE * n' < bytes + 2 * CHUNK_SIZE
       && if CHUNK_SIZE * n < bytes + 2 * CHUNK_SIZE then
            n' == n && forall j :: 0 <= j < |m| && j != at ==> m'[j] == m[j]
          else
            && CHUNK_SIZE * n' == bytes && at + n' < |m|
            && State(m'[at + n']) == FREE && Chunks(m'[at + n']) == n - n'
            && forall j :: 0 <= j < |m| && j != at && j != at + n' ==> m'[j] == m[j]
  }

  lemma SplitTakes(x: seq<Clump>, c: Clump, z: seq<Clump>, bytes: nat)
    requires Fits(c, bytes) && bytes % CHUNK_SIZE == 0 && bytes >= CHUNK_SIZE
    ensures Taken(x + ([c] + z), x + (Split(c, bytes) + z), |x|, bytes)
  {
    var y := Split(c, bytes);
    var cs, cs' := x + ([c] + z), x + (y + z);
    assert cs[|x|] == c && cs[|x| + 1..] == z;
    assert cs'[..|x|] == x && cs[..|x|] == x && cs'[|x|] == y[0] && cs'[|x| + |y|..] == z;
    if |y| == 2 { assert cs'[|x| + 1] == y[1]; }
  }

  lemma TakenSizeTakes(m: seq<nat>, clp: nat, bytes: nat)
    requires clp < |m| && clp + Chunks(m[clp]) < |m| && bytes <= CHUNK_SIZE * Chunks(m[clp])
    requires bytes % CHUNK_SIZE == 0 && bytes >= CHUNK_SIZE
    ensures TakenHeaders(m, TakenSize(m, clp, Chunks(m[clp]), bytes), clp, bytes)
  {
    var n := Chunks(m[clp]);
    if CHUNK_SIZE * n - bytes >= 2 * CHUNK_SIZE {
      RawFields(Clump(bytes / CHUNK_SIZE, RESERVED));
      RawFields(Clump(n - bytes / CHUNK_SIZE, FREE));
    } else {
      RawFields(Clump(n, RESERVED));
    }
  }

  lemma OneClump(m: seq<nat>, c: Clump)
    requires c.n >= 1 && c.state <= FREEING && |m| == c.n + 1 && m[0] == Raw(c) && m[c.n] == 0
    ensures Tiles(m, [c])
  {
    assert Len([c]) == c.n + Len([]);
    assert [c][1..] == [];
  }

  lemma TakenKeeps(x: seq<Clump>, c: Clump, z: seq<Clump>, bytes: nat, y: seq<Clump>)
    requires Fits(c, bytes) && bytes % CHUNK_SIZE == 0 && bytes >= CHUNK_SIZE
    requires y == [c] || y == [Clump(c.n, RESERVED)] || y == Split(c, bytes)
    ensures y != [] && Layout(x + (y + z)) == Layout(x + ([c] + z))
    ensures NoFreePair(x + ([c] + z)) ==> NoFreePair(x + (y + z))
  {
    RelabelRest(x, c, z, RESERVED);
    if |y| == 2 { SplitRest(x, c, z, bytes / CHUNK_SIZE); }
  }

  lemma Replaced(cs: seq<Clump>, k: nat, c: Clump)
    requires k < |cs|
    ensures cs[..k] + ([c] + cs[k + 1..]) == cs[k := c] && (c == cs[k] ==> cs[k := c] == cs)
  {
  }

  /** A clump of a pool gets another state that is not free. */
  lemma Relabelled(cs: seq<Clump>, k: nat, state: nat, prev: Option<nat>)
    requires k < |cs| && Live(cs, prev) && state != FREE
    ensures var x, c, z, c' := cs[..k], cs[k], cs[k + 1..], Clump(cs[k].n, state);
      && x + ([c] + z) == cs && x + ([c'] + z) == cs[k := c'] && Live(cs[k := c'], prev)
      && (NoFreePair(cs) ==> NoFreePair(cs[k := c']))
  {
    Replaced(cs, k, cs[k]);
    Replaced(cs, k, Clump(cs[k].n, state));
    RelabelRest(cs[..k], cs[k], cs[k + 1..], state);
    SameStarts(cs, k, state, prev);
  }

  /** The remembered clump still is one. */
  ghost predicate Live(cs: seq<Clump>, p: Option<nat>) {
    p.Some? ==> exists k :: 0 <= k < |cs| && Start(cs, k) == p.value
  }

  /** The variables of the coalescing scan. */
  datatype Scan = Scan(clp: nat, first: Option<nat>, last: Option<nat>, csize: nat)

  class Pool {
    const size: array<nat>       // by chunk; meaningful where a header lies
    const prevsize: array<nat>
    var prevClp: Option<nat>     // volatile: where the next search begins
    var fuel: nat                // persisted stores until power is lost
    var up: bool
    ghost var clumps: seq<Clump>
    ghost var intact: bool       // no store of freeing has gone astray

    /** The clumps are what the size fields spell out. */
    ghost predicate Walk()
      reads this, size
    {
      size != prevsize && size.Length == prevsize.Length && Tiles(size[..], clumps)
    }

    /** In every pool that crashes and recovery can leave. */
    ghost predicate Tiled()
      reads this, size, prevsize
    {
      Walk() && (intact ==> Near(size[..], prevsize[..], 0, NOTHING, clumps, false))
    }

    /** A running program's pool, also after recovery. */
    ghost predicate Ready()
      reads this, size, prevsize
    {
      && up && intact && Tiled() && Near(size[..], prevsize[..], 0, NOTHING, clumps, true)
      && Live(clumps, prevClp)
    }

    /** All prevsize fields are right. */
    ghost predicate Right()
      reads this, prevsize
    {
      PrevSeg(prevsize[..], 0, 0, clumps)
    }

    /** Since the pool was made there was no crash. */
    ghost predicate Valid()
      reads this, size, prevsize
    {
      Ready() && Right() && NoFreePair(clumps)
    }

    lemma ReadyWhenRight()
      requires up && intact && Walk() && Right() && Live(clumps, prevClp)
      ensures Ready()
    {
      ExactIsNear(size[..], prevsize[..], 0, NOTHING, clumps, true);
      ExactIsNear(size[..], prevsize[..], 0, NOTHING, clumps, false);
    }

    /** The layout of a new pool: one free clump of `n` chunks and a terminator. */
    constructor (n: nat, fuel: nat)
      requires n > 0
      ensures Valid() && clumps == [Clump(n, FREE)] && this.fuel == fuel && prevClp.None?
      ensures fresh(size) && fresh(prevsize)
    {
      var s, p := new nat[n + 1](_ => 0), new nat[n + 1](_ => 0);
      s[0] := CHUNK_SIZE * n;
      size, prevsize := s, p;
      prevClp, this.fuel, up := None, fuel, true;
      clumps, intact := [Clump(n, FREE)], true;
      new;
      OneClump(size[..], Clump(n, FREE));
      One(prevsize[..], 0, 0, Clump(n, FREE));
      ReadyWhenRight();
    }

    method StoreSize(a: nat, v: nat)
      requires a < size.Length && size != prevsize
      modifies this`fuel, this`up, size
      ensures up ==> old(up) && size[..] == old(size[..])[a := v]
      ensures !up ==> size[..] == old(size[..])
      ensures old(up) && old(fuel) >= 1 ==> up && fuel == old(fuel) - 1
    {
      if up && fuel > 0 {
        fuel := fuel - 1;
        size[a] := v;
      } else {
        up := false;
      }
    }

    method StorePrev(a: nat, v: nat)
      requires a < prevsize.Length && size != prevsize
      modifies this`fuel, this`up, prevsize
      ensures up ==> old(up) && prevsize[..] == old(prevsize[..])[a := v]
      ensures !up ==> prevsize[..] == old(prevsize[..])
      ensures old(up) && old(fuel) >= 1 ==> up && fuel == old(fuel) - 1
    {
      if up && fuel > 0 {
        fuel := fuel - 1;
        prevsize[a] := v;
      } else {
        up := false;
      }
    }

    /** The first fit on a walk. */
    method FirstFit(start: nat, bytes: nat, ghost tail: seq<Clump>) returns (found: Option<nat>)
      requires Tail(size[..], start, tail)
      ensures found == FirstFitIn(start, tail, bytes)
    {
      var clp: nat := start;
      ghost var rest := tail;
      NextReads(size[..], clp, rest);
      while size[clp] != 0
        invariant clp < size.Length
        invariant Tail(size[..], clp, rest) && FirstFitIn(clp, rest, bytes) == FirstFitIn(start, tail, bytes)
        decreases |rest|
      {
        NextReads(size[..], clp, rest);
        if rest == [] { assert false; }
        RawFields(rest[0]);
        if bytes <= CHUNK_SIZE * Chunks(size[clp]) && State(size[clp]) == FREE {
          return Some(clp);
        }
        clp := clp + Chunks(size[clp]);
        rest := rest[1..];
        NextReads(size[..], clp, rest);
      }
      found := None;
    }

    /** The clump `c` between `x` and `z`, with all fields as they are without or after
        recovery (`strict`), or as a crash may leave them. */
    ghost predicate Holds(x: seq<Clump>, y: seq<Clump>, z: seq<Clump>, strict: bool)
      reads this, size, prevsize
    {
      && size != prevsize && size.Length == prevsize.Length
      && Tiles3(size[..], x, y, z) && Near3(size[..], prevsize[..], x, y, z, strict)
    }

    ghost predicate RightAt(x: seq<Clump>, y: seq<Clump>, z: seq<Clump>)
      reads this, prevsize
    {
      Prev3(prevsize[..], x, y, z)
    }

    lemma HoldsLess(x: seq<Clump>, y: seq<Clump>, z: seq<Clump>)
      requires Holds(x, y, z, true)
      ensures Holds(x, y, z, false)
    {
      StrictParts(size[..], prevsize[..], x, y, z);
    }

    /** The pool of a running program, in three parts. */
    lemma Disassemble(x: seq<Clump>, y: seq<Clump>, z: seq<Clump>)
      requires Ready() && clumps == x + (y + z)
      ensures Holds(x, y, z, true) && (Right() ==> RightAt(x, y, z))
    {
      HoldsWhole(x, y, z);
    }

    /** What the stores have made of the three parts. */
    ghost method Assemble(x: seq<Clump>, y: seq<Clump>, z: seq<Clump>)
      requires intact && Holds(x, y, z, false)
      modifies this`clumps
      ensures clumps == x + (y + z) && Tiled() && (RightAt(x, y, z) ==> Right())
      ensures Holds(x, y, z, true) && up && Live(x + (y + z), prevClp) ==> Ready()
    {
      clumps := x + (y + z);
      HoldsWhole(x, y, z);
    }

    /** From three parts to the whole. */
    lemma HoldsWhole(x: seq<Clump>, y: seq<Clump>, z: seq<Clump>)
      ensures clumps == x + (y + z) ==> (Right() <==> RightAt(x, y, z))
      ensures intact && clumps == x + (y + z) ==> (Tiled() <==> Holds(x, y, z, false))
      ensures intact && clumps == x + (y + z) ==>
                (Walk() && Near(size[..], prevsize[..], 0, NOTHING, clumps, true) <==> Holds(x, y, z, true))
    {
      TilesParts(size[..], x, y, z);
      NearParts(size[..], prevsize[..], x, y, z, false);
      NearParts(size[..], prevsize[..], x, y, z, true);
      PrevParts(prevsize[..], x, y, z);
    }

    /** A free header. `on` says that it is that of the clump `c` of the walk. */
    ghost predicate FreeAt(clp: nat, x: seq<Clump>, c: Clump, z: seq<Clump>, on: bool)
      reads this, size, prevsize
    {
      && size != prevsize && size.Length == prevsize.Length
      && c.n >= 1 && c.state == FREE && clp + c.n < size.Length && size[clp] == Raw(c)
      && (on ==> clp == Len(x) && Holds(x, [c], z, true))
    }

    /** Laying out the rest inside a free clump, before it is visible. */
    method LayOut(clp: nat, n: nat, leftover: nat, ghost x: seq<Clump>, ghost c: Clump, ghost z: seq<Clump>,
        ghost on: bool)
      requires FreeAt(clp, x, c, z, on) && 1 <= n < c.n == n + leftover
      modifies this`fuel, this`up, size, prevsize
      ensures !old(up) ==> !up
      ensures old(up) && old(fuel) >= 3 ==> up && fuel == old(fuel) - 3
      ensures on ==> Holds(x, [c], z, true)
      ensures up ==>
                && size[..] == old(size[..])[clp + n := CHUNK_SIZE * leftover + FREE]
                && prevsize[..] == old(prevsize[..])[clp + n := CHUNK_SIZE * n][clp + c.n := CHUNK_SIZE * leftover]
    {
      ghost var m, p := size[..], prevsize[..];
      StoreSize(clp + n, CHUNK_SIZE * leftover + FREE);
      if on {
        TilesOne(m, x, c, z);
        WriteInside(m, x, c, z, clp + n, CHUNK_SIZE * leftover + FREE);
        NearInside(m, p, x, c, z, clp + n, CHUNK_SIZE * leftover + FREE, true);
      }
      StorePrev(clp + n, CHUNK_SIZE * n);
      if on { NearInsidePrev(size[..], p, x, c, z, clp + n, CHUNK_SIZE * n, true); }
      ghost var p' := prevsize[..];
      StorePrev(clp + n + leftover, CHUNK_SIZE * leftover);
      if on && up { NearField(size[..], p', x, c, z, leftover, true); }
    }

    /** Splitting: the rest is laid out inside the free clump before the one store
        that makes it visible. */
    method SplitOff(clp: nat, n: nat, leftover: nat, ghost x: seq<Clump>, ghost c: Clump, ghost z: seq<Clump>,
        ghost on: bool)
      requires FreeAt(clp, x, c, z, on) && 1 <= n < c.n == n + leftover
      modifies this`fuel, this`up, size, prevsize
      ensures !old(up) ==> !up
      ensures old(up) && old(fuel) >= 4 ==> up && fuel == old(fuel) - 4
      ensures on ==> Holds(x, if up then Halves(c, n) else [c], z, true)
      ensures on && up && old(RightAt(x, [c], z)) ==> RightAt(x, Halves(c, n), z)
      ensures up ==>
                size[..] == old(size[..])[clp + n := CHUNK_SIZE * leftover + FREE][clp := CHUNK_SIZE * n + RESERVED]
    {
      ghost var m, p := size[..], prevsize[..];
      LayOut(clp, n, leftover, x, c, z, on);
      ghost var m' := size[..];
      StoreSize(clp, CHUNK_SIZE * n + RESERVED);
      if on && up { SplitIsRight(m, p, m', x, c, z, n); }
    }

    lemma SplitIsRight(m: seq<nat>, p: seq<nat>, m': seq<nat>, x: seq<Clump>, c: Clump, z: seq<Clump>, n: nat)
      requires size != prevsize && Tiles3(m, x, [c], z) && Near3(m, p, x, [c], z, true) && Tiles3(m', x, [c], z)
      requires 1 <= n < c.n && |p| == |m| == |m'| && Len(x) + c.n < |m| && c.state == FREE
      requires m' == m[Len(x) + n := CHUNK_SIZE * (c.n - n) + FREE]
      requires size[..] == m'[Len(x) := CHUNK_SIZE * n + RESERVED]
      requires prevsize[..] == p[Len(x) + n := CHUNK_SIZE * n][Len(x) + c.n := CHUNK_SIZE * (c.n - n)]
      ensures Holds(x, Halves(c, n), z, true) && (Prev3(p, x, [c], z) ==> RightAt(x, Halves(c, n), z))
    {
      TilesOne(m, x, c, z);
      SplitTiles(m', x, c, z, n);
      NearSplit(m, p, size[..], prevsize[..], x, c, z, n);
      if Prev3(p, x, [c], z) { SplitPrev(p, prevsize[..], x, c, z, n); }
    }

    /** One store of the state bits. */
    method SetState(clp: nat, state: nat, ghost x: seq<Clump>, ghost c: Clump, ghost z: seq<Clump>)
      requires size != prevsize && clp == Len(x) && Tiles3(size[..], x, [c], z) && state <= FREEING
      modifies this`fuel, this`up, size
      ensures !old(up) ==> !up
      ensures old(up) && old(fuel) >= 1 ==> up && fuel == old(fuel) - 1
      ensures Tiles3(size[..], x, [if up then Clump(c.n, state) else c], z)
      ensures clp < size.Length
      ensures size[..] == if up then old(size[..])[clp := CHUNK_SIZE * c.n + state] else old(size[..])
    {
      TilesOne(size[..], x, c, z);
      RawFields(c);
      Relabel(size[..], x, c, z, state);
      StoreSize(clp, CHUNK_SIZE * Chunks(size[clp]) + state);
    }

    /** Reserves a free clump as it is. */
    method TakeWhole(clp: nat, ghost x: seq<Clump>, ghost c: Clump, ghost z: seq<Clump>, ghost on: bool)
      returns (ghost c': Clump)
      requires FreeAt(clp, x, c, z, on)
      modifies this`fuel, this`up, size, prevsize
      ensures !old(up) ==> !up
      ensures old(up) && old(fuel) >= 2 ==> up && fuel == old(fuel) - 2
      ensures (c' == c || c' == Clump(c.n, RESERVED)) && (on ==> Holds(x, [c'], z, false))
      ensures up ==> c' == Clump(c.n, RESERVED) && (on ==> Holds(x, [c'], z, true))
      ensures on && up && old(RightAt(x, [c], z)) ==> RightAt(x, [c'], z)
      ensures up ==> size[..] == old(size[..])[clp := CHUNK_SIZE * c.n + RESERVED]
    {
      ghost var m, p := size[..], prevsize[..];
      RawFields(c);
      var sz := Chunks(size[clp]);
      StoreSize(clp, CHUNK_SIZE * sz + RESERVED);
      c' := if up then Clump(c.n, RESERVED) else c;
      ghost var m' := size[..];
      StorePrev(clp + sz, CHUNK_SIZE * sz);
      if on { WholeIsRight(m, p, m', x, c, z, c'); }
    }

    lemma WholeIsRight(m: seq<nat>, p: seq<nat>, m': seq<nat>, x: seq<Clump>, c: Clump, z: seq<Clump>, c': Clump)
      requires size != prevsize && Tiles3(m, x, [c], z) && Near3(m, p, x, [c], z, true) && c.state == FREE
      requires |p| == |m| && Len(x) + c.n < |m| && size[..] == m'
      requires c' == c || c' == Clump(c.n, RESERVED)
      requires m' == m[Len(x) := Raw(c')] && (prevsize[..] == p || prevsize[..] == p[Len(x) + c.n := CHUNK_SIZE * c.n])
      requires prevsize[..] != p ==> c' == Clump(c.n, RESERVED)
      ensures Holds(x, [c'], z, false)
      ensures c'.state == RESERVED && prevsize[..] == p[Len(x) + c.n := CHUNK_SIZE * c.n] ==>
                Holds(x, [c'], z, true) && (Prev3(p, x, [c], z) ==> RightAt(x, [c'], z))
    {
      TilesOne(m, x, c, z);
      Relabel(m, x, c, z, c'.state);
      StrictParts(m, p, x, [c], z);
      NearRelabel(m, p, x, c, z, c'.state, Raw(c'), false);
      if c'.state == RESERVED && prevsize[..] == p[Len(x) + c.n := CHUNK_SIZE * c.n] {
        NearWhole(m, p, x, c, z, RESERVED, Raw(c'));
        HoldsLess(x, [c'], z);
        if Prev3(p, x, [c], z) {
          RelabelPrev(p, x, c, z, RESERVED);
          SamePrev(p, prevsize[..], x, c', z);
        }
      }
    }

    /** The stores of reserving a fitting free clump. */
    method TakeStores(clp: nat, bytes: nat, ghost x: seq<Clump>, ghost c: Clump, ghost z: seq<Clump>, ghost on: bool)
      returns (ghost y: seq<Clump>)
      requires FreeAt(clp, x, c, z, on) && Fits(c, bytes) && bytes % CHUNK_SIZE == 0 && bytes >= CHUNK_SIZE
      modifies this`fuel, this`up, size, prevsize
      ensures !old(up) ==> !up
      ensures old(up) && old(fuel) >= 4 ==> up && fuel >= old(fuel) - 4
      ensures (y == [c] || y == [Clump(c.n, RESERVED)] || y == Split(c, bytes)) && (on ==> Holds(x, y, z, false))
      ensures up ==> y == Split(c, bytes) && (on ==> Holds(x, y, z, true))
      ensures on && up && old(RightAt(x, [c], z)) ==> RightAt(x, y, z)
      ensures up ==> size[..] == TakenSize(old(size[..]), clp, c.n, bytes)
    {
      RawFields(c);
      y := [c];
      var sz := CHUNK_SIZE * Chunks(size[clp]);
      if sz - bytes >= 2 * CHUNK_SIZE {
        SplitOff(clp, bytes / CHUNK_SIZE, (sz - bytes) / CHUNK_SIZE, x, c, z, on);
        if up { y := Halves(c, bytes / CHUNK_SIZE); }
        if on { HoldsLess(x, y, z); }
      } else {
        ghost var c' := TakeWhole(clp, x, c, z, on);
        y := [c'];
      }
    }

    /** The pool after these stores. */
    method TakeParts(clp: nat, bytes: nat, ghost x: seq<Clump>, ghost c: Clump, ghost z: seq<Clump>)
      returns (ghost y: seq<Clump>)
      requires Ready() && clumps == x + ([c] + z) && clp == Len(x) && Fits(c, bytes)
      requires bytes % CHUNK_SIZE == 0 && bytes >= CHUNK_SIZE
      modifies this`fuel, this`up, this`clumps, this`prevClp, size, prevsize
      ensures old(fuel) >= 4 ==> up && fuel >= old(fuel) - 4
      ensures Tiled() && clumps == x + (y + z)
      ensures y == [c] || y == [Clump(c.n, RESERVED)] || y == Split(c, bytes)
      ensures up ==> Ready() && prevClp == Some(clp) && y == Split(c, bytes)
      ensures up && old(Right()) ==> Right()
    {
      Disassemble(x, [c], z);
      TilesOne(size[..], x, c, z);
      y := TakeStores(clp, bytes, x, c, z, true);
      StartOf(x, y, z);
      prevClp := Some(clp);
      Assemble(x, y, z);
    }

    /** Reserves a fitting free clump. */
    method Take(clp: nat, bytes: nat, ghost x: seq<Clump>, ghost c: Clump, ghost z: seq<Clump>)
      requires Ready() && clumps == x + ([c] + z) && clp == Len(x) && Fits(c, bytes)
      requires bytes % CHUNK_SIZE == 0 && bytes >= CHUNK_SIZE
      modifies this`fuel, this`up, this`clumps, this`prevClp, size, prevsize
      ensures Tiled() && Layout(clumps) == old(Layout(clumps))
      ensures old(fuel) >= 4 ==> up && fuel >= old(fuel) - 4
      ensures up ==> Ready() && prevClp == Some(clp) && clumps == x + (Split(c, bytes) + z)
      ensures up && old(Right()) ==> Right()
      ensures up && old(NoFreePair(clumps)) ==> NoFreePair(clumps)
    {
      ghost var y := TakeParts(clp, bytes, x, c, z);
      TakenKeeps(x, c, z, bytes, y);
    }

    /** Where the search for a request begins. */
    ghost predicate StartsAt(i: nat)
      reads this
    {
      i < |clumps| && (prevClp.Some? ==> Start(clumps, i) == prevClp.value) && (prevClp.None? ==> i == 0)
    }

    /** Clump `k` is the first that fits, from clump `i` round to there again. */
    ghost predicate RotatingFit(i: nat, k: nat, bytes: nat)
      reads this
    {
      && StartsAt(i) && k < |clumps| && Fits(clumps[k], bytes)
      && (forall j :: i <= j < |clumps| && (k < i || j < k) ==> !Fits(clumps[j], bytes))
      && (k < i ==> forall j :: 0 <= j < k ==> !Fits(clumps[j], bytes))
    }

    /** The search, from where the last one ended and then from the first clump. */
    method SearchFrom(bytes: nat, ghost tail: seq<Clump>, ghost whole: seq<Clump>) returns (found: Option<nat>)
      requires Tail(size[..], Position(prevClp), tail) && Tiles(size[..], whole)
      ensures found == SearchIn(Position(prevClp), tail, whole, bytes)
    {
      found := FirstFit(if prevClp.Some? then prevClp.value else 0, bytes, tail);
      if found.None? {
        found := FirstFit(0, bytes, whole);
      }
    }

    method FindFit(bytes: nat) returns (found: Option<nat>, ghost i: nat, ghost k: nat)
      requires Walk() && Live(clumps, prevClp)
      ensures found.None? ==> forall j :: 0 <= j < |clumps| ==> !Fits(clumps[j], bytes)
      ensures found.Some? ==> RotatingFit(i, k, bytes) && found.value == Start(clumps, k)
    {
      i := 0;
      assert clumps[..0] == [];
      if prevClp.Some? { i :| 0 <= i < |clumps| && Start(clumps, i) == prevClp.value; }
      assert clumps == clumps[..i] + clumps[i..];
      TailAppend(size[..], 0, clumps[..i], clumps[i..]);
      found := SearchFrom(bytes, clumps[i..], clumps);
      k := FitIsRotating(clumps, i, bytes);
    }

    /** Reserves memory in the first fitting free clump, searching on from where the
        last search ended. None means that the program exits. */
    method Reserve(request: nat) returns (ptr: Option<nat>, ghost i: nat, ghost k: nat)
      requires Ready()
      modifies this`fuel, this`up, this`clumps, this`prevClp, size, prevsize
      ensures Tiled() && Layout(clumps) == old(Layout(clumps))
      ensures ptr.None? <==> forall j :: 0 <= j < |old(clumps)| ==> !Fits(old(clumps)[j], ClumpBytes(request))
      ensures ptr.None? ==> Ready() && clumps == old(clumps) && prevsize[..] == old(prevsize[..])
      ensures ptr.Some? ==> old(RotatingFit(i, k, ClumpBytes(request))) && ptr.value == Start(old(clumps), k) + 1
      ensures ptr.Some? && up ==>
                && Ready() && prevClp == Some(ptr.value - 1)
                && Taken(old(clumps), clumps, k, ClumpBytes(request))
      ensures up && old(Valid()) ==> Valid()
      ensures up && old(NoFreePair(clumps)) ==> NoFreePair(clumps)
      ensures old(fuel) >= 4 ==> up && fuel >= old(fuel) - 4
    {
      var bytes := ClumpBytes(request);
      var found;
      found, i, k := FindFit(bytes);
      if found.None? {
        return None, i, k;
      }
      ghost var x, c, z := clumps[..k], clumps[k], clumps[k + 1..];
      Replaced(clumps, k, c);
      SplitTakes(x, c, z, bytes);
      Take(found.value, bytes, x, c, z);
      ptr := Some(found.value + 1);
    }

    /** The one store of activating. */
    method ActivateClump(clp: nat, ghost x: seq<Clump>, ghost c: Clump, ghost z: seq<Clump>) returns (ghost c': Clump)
      requires Holds(x, [c], z, true) && clp == Len(x) && c.state == RESERVED
      modifies this`fuel, this`up, size
      ensures !old(up) ==> !up
      ensures old(up) && old(fuel) >= 1 ==> up && fuel == old(fuel) - 1
      ensures c' == (if up then Clump(c.n, ACTIVE) else c) && Holds(x, [c'], z, true)
      ensures RightAt(x, [c], z) ==> RightAt(x, [c'], z)
    {
      TilesOne(size[..], x, c, z);
      if RightAt(x, [c], z) { RelabelPrev(prevsize[..], x, c, z, ACTIVE); }
      NearRelabel(size[..], prevsize[..], x, c, z, ACTIVE, CHUNK_SIZE * c.n + ACTIVE, true);
      SetState(clp, ACTIVE, x, c, z);
      c' := if up then Clump(c.n, ACTIVE) else c;
    }

    method ActivateParts(clp: nat, ghost x: seq<Clump>, ghost c: Clump, ghost z: seq<Clump>, ghost after: seq<Clump>)
      requires Ready() && clumps == x + ([c] + z) && clp == Len(x) && c.state == RESERVED
      requires after == x + ([Clump(c.n, ACTIVE)] + z) && Live(after, prevClp)
      modifies this`fuel, this`up, this`clumps, size
      ensures old(fuel) >= 1 ==> up && fuel == old(fuel) - 1
      ensures clumps == (if up then after else old(clumps)) && Tiled()
      ensures up ==> Ready() && (old(Right()) ==> Right())
    {
      Disassemble(x, [c], z);
      ghost var c' := ActivateClump(clp, x, c, z);
      HoldsLess(x, [c'], z);
      Assemble(x, [c'], z);
    }

    /** Marks reserved memory as allocated. */
    method Activate(ptr: nat, ghost k: nat)
      requires Ready() && k < |clumps| && ptr == Start(clumps, k) + 1 && clumps[k].state == RESERVED
      modifies this`fuel, this`up, this`clumps, size
      ensures Tiled() && clumps == if up then old(clumps)[k := Clump(old(clumps)[k].n, ACTIVE)] else old(clumps)
      ensures up ==> Ready() && (old(Valid()) ==> Valid())
      ensures old(fuel) >= 1 ==> up && fuel == old(fuel) - 1
    {
      Relabelled(clumps, k, ACTIVE, prevClp);
      ActivateParts(ptr - 1, clumps[..k], clumps[k], clumps[k + 1..], clumps[k := Clump(clumps[k].n, ACTIVE)]);
    }

    /** The owner of a clump writes to its memory, where headers may have been. */
    method UserWrite(i: nat, v: nat, w: nat, ghost k: nat)
      requires Ready() && k < |clumps| && clumps[k].state != FREE && i < size.Length
      requires Start(clumps, k) < i < Start(clumps, k) + clumps[k].n
      modifies size, prevsize
      ensures Ready() && (old(Valid()) ==> Valid())
      ensures size[..] == old(size[..])[i := v] && prevsize[..] == old(prevsize[..])[i := w]
    {
      ghost var x, c, z := clumps[..k], clumps[k], clumps[k + 1..];
      assert clumps == x + ([c] + z);
      HoldsWhole(x, [c], z);
      ghost var m, p := size[..], prevsize[..];
      TilesOne(m, x, c, z);
      WriteInside(m, x, c, z, i, v);
      NearInside(m, p, x, c, z, i, v, true);
      NearInsidePrev(m[i := v], p, x, c, z, i, w, true);
      if RightAt(x, [c], z) { WriteInsidePrev(p, x, c, z, i, w); }
      size[i] := v;
      prevsize[i] := w;
      assert size[..] == m[i := v] && prevsize[..] == p[i := w];
      HoldsLess(x, [c], z);
      HoldsWhole(x, [c], z);
    }

    /** The stores of freeing: the header of the free clump, then the prevsize field
        behind it, if it has to follow. */
    method FreeStores(clp: nat)
      requires size != prevsize && Reads(size[..], prevsize[..], clp)
      requires var plan := FreePlan(size[..], prevsize[..], clp); plan.at + plan.total < size.Length
      modifies this`fuel, this`up, this`prevClp, size, prevsize
      ensures !old(up) ==> !up
      ensures old(up) && old(fuel) >= 2 ==> up && fuel >= old(fuel) - 2
      ensures var m, p, plan := old(size[..]), old(prevsize[..]), FreePlan(old(size[..]), old(prevsize[..]), clp);
        && plan.at < |m|
        && (size[..] == m || size[..] == Freed(m, plan))
        && (up ==>
              && size[..] == Freed(m, plan) && prevsize[..] == Followed(p, plan)
              && prevClp == if plan.follow then Some(plan.at) else old(prevClp))
        && (!up ==> prevsize[..] == p)
    {
      var sz := Chunks(size[clp]);
      var lastfree, firstfree := clp + sz, clp - Chunks(prevsize[clp]);
      var last := State(size[lastfree]) == FREE;
      var first := firstfree != clp && State(size[firstfree]) == FREE;
      var csize, at := sz, clp;
      if first {
        csize, at := csize + Chunks(size[firstfree]), firstfree;
      }
      if last {
        csize := csize + Chunks(size[lastfree]);
      }
      StoreSize(at, CHUNK_SIZE * csize + FREE);
      if first || last {
        StorePrev(at + csize, CHUNK_SIZE * csize);
        prevClp := Some(at);
      }
    }

    ghost function OutcomeFor(x: seq<Clump>, c: Clump): Outcome
      requires PrevInside(size[..], prevsize[..], x)
      reads this, size, prevsize
    {
      FreeOutcome(size[..], prevsize[..], x, c)
    }

    /** What the stores of freeing will lead to. */
    lemma FreeFacts(x: seq<Clump>, c: Clump, z: seq<Clump>)
      requires Ready() && clumps == x + ([c] + z) && c.state != FREE
      ensures Tiles3(size[..], x, [c], z)
      ensures Reads(size[..], prevsize[..], Len(x)) && PrevInside(size[..], prevsize[..], x)
      ensures var m, plan, o := size[..], FreePlan(size[..], prevsize[..], Len(x)), OutcomeFor(x, c);
        && plan.at + plan.total < |m| && Tiles(Freed(m, plan), AfterFree(o, x, c, z))
        && (!o.Astray? ==>
              && LeadsTo(m, prevsize[..], Len(x), AfterFree(o, x, c, z))
              && Live(AfterFree(o, x, c, z), if plan.follow then Some(plan.at) else prevClp))
        && (o.Astray? ==>
              && LastFree(x) && Len(x) - x[|x| - 1].n < plan.at < Len(x) && plan.follow
              && plan.at + plan.total == Len(x) + Len(Ahead(c, z)))
        && (Right() ==> o.Joins? && PrevSeg(Followed(prevsize[..], plan), 0, 0, Fused(x, c, z)))
    {
      var m, p := size[..], prevsize[..];
      HoldsWhole(x, [c], z);
      FreeLeadsTo(m, p, x, c, z);
      if Right() {
        PrevSegIsSafe(m, p, x, c, z);
        FreedPrev(m, p, x, c, z);
      }
      FreedLive(m, p, x, c, z, prevClp);
      if FreeOutcome(m, p, x, c).Astray? { AstrayPlan(m, p, x, c, z); }
    }

    method FreeClump(clp: nat, ghost x: seq<Clump>, ghost c: Clump, ghost z: seq<Clump>) returns (ghost o: Outcome)
      requires Ready() && clumps == x + ([c] + z) && clp == Len(x) && c.state != FREE
      modifies this, size, prevsize
      ensures !old(up) ==> !up
      ensures old(fuel) >= 2 ==> up && fuel >= old(fuel) - 2
      ensures old(PrevInside(size[..], prevsize[..], x)) && o == old(OutcomeFor(x, c))
      ensures Tiled() && (clumps == old(clumps) || clumps == AfterFree(o, x, c, z))
      ensures up ==> clumps == AfterFree(o, x, c, z)
      ensures intact <==> !o.Astray?
      ensures up && !o.Astray? ==> Ready()
      ensures up && o.Astray? ==>
                && Reads(old(size[..]), old(prevsize[..]), Len(x))
                && var plan := FreePlan(old(size[..]), old(prevsize[..]), clp);
                   Led(plan.at, plan.total, x, x + Ahead(c, z), AfterJoined(z))
      ensures old(Right()) ==> o.Joins? && (up ==> Right())
    {
      ghost var m := size[..];
      FreeFacts(x, c, z);
      ghost var plan := FreePlan(m, prevsize[..], clp);
      o := OutcomeFor(x, c);
      FreeStores(clp);
      if size[..] == Freed(m, plan) { clumps := AfterFree(o, x, c, z); }
      intact := !o.Astray?;
      if intact && clumps == AfterFree(o, x, c, z) {
        StrictIsNear(size[..], prevsize[..], 0, NOTHING, clumps, false);
      }
      if up && !intact { AstrayIsLed(m, plan, x, c, z); }
    }

    lemma AstrayIsLed(m: seq<nat>, plan: Plan, x: seq<Clump>, c: Clump, z: seq<Clump>)
      requires Walk() && prevClp == Some(plan.at) && clumps == x + ([c] + z) && Tiles3(m, x, [c], z) && LastFree(x)
      requires Len(x) - x[|x| - 1].n < plan.at < Len(x) && plan.at + plan.total == Len(x) + Len(Ahead(c, z))
      requires plan.at < |m| && size[..] == Freed(m, plan)
      ensures Led(plan.at, plan.total, x, x + Ahead(c, z), AfterJoined(z))
    {
      AstrayTail(m, x, c, z, plan);
      AheadSplits(x, c, z);
    }

    /** Gives memory back. The clump and its free neighbours become one, unless the
        prevsize field is stale; what happens then depends on what lies where it leads. */
    method Free(ptr: Option<nat>, ghost k: nat) returns (ghost o: Outcome)
      requires Ready()
      requires ptr.Some? ==> k < |clumps| && ptr.value == Start(clumps, k) + 1 && clumps[k].state != FREE
      modifies this, size, prevsize
      ensures ptr.None? ==> Ready() && clumps == old(clumps) && (old(Valid()) ==> Valid())
      ensures ptr.Some? ==>
                && old(PrevInside(size[..], prevsize[..], clumps[..k])) && o == old(OutcomeFor(clumps[..k], clumps[k]))
                && Tiled() && (up && !o.Astray? ==> Ready())
      ensures ptr.Some? ==>
                clumps == old(clumps) || clumps == old(AfterFree(o, clumps[..k], clumps[k], clumps[k + 1..]))
      ensures ptr.Some? && up ==> clumps == old(AfterFree(o, clumps[..k], clumps[k], clumps[k + 1..]))
      ensures ptr.Some? && old(Valid()) ==> o.Joins? && (up ==> Valid())
      ensures ptr.Some? && up && o.Astray? ==>
                var x, c, z := old(clumps)[..k], old(clumps)[k], old(clumps)[k + 1..];
                && Reads(old(size[..]), old(prevsize[..]), Len(x))
                && var plan := FreePlan(old(size[..]), old(prevsize[..]), Len(x));
                   Led(plan.at, plan.total, x, x + Ahead(c, z), AfterJoined(z))
      ensures ptr.Some? ==> forall j :: 0 <= j < |old(clumps)| && j != k && Kept(old(clumps)[j]) ==>
                KeptAt(clumps, Start(old(clumps), j), old(clumps)[j].n)
      ensures ptr.Some? ==> forall a, n :: KeptAt(clumps, a, n) ==> KeptAt(old(clumps), a, n)
      ensures old(fuel) >= 2 ==> up && fuel >= old(fuel) - 2
    {
      o := Joins;
      if ptr.None? {
        return;
      }
      ghost var x, c, z := clumps[..k], clumps[k], clumps[k + 1..];
      assert clumps == x + ([c] + z);
      if NoFreePair(clumps) { FusedPairs(x, c, z); }
      o := FreeClump(ptr.value - 1, x, c, z);
      AfterFreeKept(o, x, c, z);
      AllKept(old(clumps));
    }

    // -------------------------------------------------------------------------
    // After a store of freeing went astray
    // -------------------------------------------------------------------------

    /** The search will begin at a header that is not on the walk: it lies inside the free
        clump that ends `x`, and says that everything up to `v` is one free clump. */
    ghost predicate Led(at: nat, total: nat, x: seq<Clump>, u: seq<Clump>, v: seq<Clump>)
      reads this, size
    {
      && Walk() && prevClp == Some(at) && clumps == u + v && x <= u && at + total == Len(u)
      && LastFree(x) && Len(x) - x[|x| - 1].n < at < Len(x) && Tail(size[..], at, [Clump(total, FREE)] + v)
    }

    /** The next reservation is made there, in memory that the walk counts as free, if and
        only if the request fits; otherwise it is made in a clump of the walk. */
    lemma NextReservation(at: nat, total: nat, x: seq<Clump>, u: seq<Clump>, v: seq<Clump>, bytes: nat)
      requires Led(at, total, x, u, v)
      ensures var found := SearchIn(at, [Clump(total, FREE)] + v, clumps, bytes);
        && (found == Some(at) <==> bytes <= CHUNK_SIZE * total)
        && (found.Some? && found != Some(at) ==>
              exists k :: 0 <= k < |clumps| && Fits(clumps[k], bytes) && found.value == Start(clumps, k))
        && Start(clumps, |x| - 1) < at < Start(clumps, |x|) && clumps[|x| - 1].state == FREE
    {
      InsideIsNoStart(clumps, x, at);
      AstraySearch(at, total, clumps, u, v, bytes);
    }

    /** Reserving wherever the search may begin: `tail` is the walk from there, `whole` the
        one from the first chunk. */
    method ReserveAnywhere(request: nat, ghost tail: seq<Clump>, ghost whole: seq<Clump>) returns (ptr: Option<nat>)
      requires size != prevsize && size.Length == prevsize.Length
      requires Tail(size[..], Position(prevClp), tail) && Tiles(size[..], whole)
      modifies this`fuel, this`up, this`prevClp, size, prevsize
      ensures var m, found := old(size[..]), old(SearchIn(Position(prevClp), tail, whole, ClumpBytes(request)));
        && ptr == (if found.Some? then Some(found.value + 1) else None)
        && (found.Some? ==> prevClp == found && FreeAndFits(m, found.value, ClumpBytes(request)))
        && (found.Some? && up ==> TakenHeaders(m, size[..], found.value, ClumpBytes(request)))
        && (found.None? ==> size[..] == old(size[..]) && prevClp == old(prevClp) && up == old(up))
      ensures old(up) && old(fuel) >= 4 ==> up && fuel >= old(fuel) - 4
    {
      var bytes := ClumpBytes(request);
      var found := SearchFrom(bytes, tail, whole);
      if found.None? {
        return None;
      }
      FoundFits(size[..], Position(prevClp), tail, whole, bytes);
      RawOf(size[found.value]);
      TakenSizeTakes(size[..], found.value, bytes);
      ghost var c := Clump(Chunks(size[found.value]), FREE);
      ghost var y := TakeStores(found.value, bytes, [], c, [], false);
      prevClp := found;
      ptr := Some(found.value + 1);
    }

    // -------------------------------------------------------------------------
    // Recovery
    // -------------------------------------------------------------------------

    /** Power is back: the volatile part is lost, the persisted stores are not. */
    method Reboot(fuel: nat)
      requires Tiled()
      modifies this`fuel, this`up, this`prevClp
      ensures up && this.fuel == fuel && prevClp.None? && Tiled()
    {
      this.fuel, up, prevClp := fuel, true, None;
    }

    /** The store that settles one clump, if it needs one. */
    method SettleStore(clp: nat, ghost x: seq<Clump>, ghost c: Clump, ghost z: seq<Clump>) returns (ghost c': Clump)
      requires size != prevsize && clp == Len(x) && Tiles3(size[..], x, [c], z)
      modifies this`fuel, this`up, size
      ensures !old(up) ==> !up
      ensures old(up) && old(fuel) >= 1 ==> up && fuel >= old(fuel) - 1
      ensures (c' == c || c' == Settled1(c)) && (up ==> c' == Settled1(c)) && Tiles3(size[..], x, [c'], z)
      ensures clp < size.Length && size[..] == old(size[..])[clp := Raw(c')]
    {
      TilesOne(size[..], x, c, z);
      RawFields(c);
      var state := State(size[clp]);
      if state == RESERVED {
        SetState(clp, FREE, x, c, z);
      } else if state == ACTIVATING {
        SetState(clp, ACTIVE, x, c, z);
      } else if state == FREEING {
        SetState(clp, FREE, x, c, z);
      }
      c' := if up then Settled1(c) else c;
    }

    /** The state of one clump, settled. */
    method SettleClump(clp: nat, ghost x: seq<Clump>, ghost c: Clump, ghost z: seq<Clump>) returns (ghost c': Clump)
      requires Tiled() && clumps == x + ([c] + z) && clp == Len(x)
      modifies this`fuel, this`up, this`clumps, size
      ensures !old(up) ==> !up
      ensures old(up) && old(fuel) >= 1 ==> up && fuel >= old(fuel) - 1
      ensures Tiled() && Layout(clumps) == old(Layout(clumps)) && clumps == x + ([c'] + z)
      ensures c'.n == c.n && (up ==> c' == Settled1(c))
    {
      ghost var m := size[..];
      TilesParts(m, x, [c], z);
      NearParts(m, prevsize[..], x, [c], z, false);
      RelabelRest(x, c, z, Settle(c.state));
      TilesOne(m, x, c, z);
      c' := SettleStore(clp, x, c, z);
      if intact { NearRelabel(m, prevsize[..], x, c, z, c'.state, Raw(c'), false); }
      clumps := x + ([c'] + z);
      TilesParts(size[..], x, [c'], z);
      NearParts(size[..], prevsize[..], x, [c'], z, false);
    }

    /** The header behind the clumps `x`. */
    method ReadHeader(clp: nat, ghost x: seq<Clump>, ghost rest: seq<Clump>) returns (raw: nat)
      requires Walk() && clumps == x + rest && clp == Len(x)
      ensures raw != 0 <==> rest != []
      ensures rest != [] ==> Chunks(raw) == rest[0].n && State(raw) == rest[0].state
    {
      Behind(size[..], x, rest);
      if rest != [] { RawFields(rest[0]); }
      raw := size[clp];
    }

    method RecoverOne(clp: nat, ghost x: seq<Clump>, ghost rest: seq<Clump>) returns (ghost c': Clump)
      requires Tiled() && clumps == x + rest && clp == Len(x) && rest != []
      modifies this`fuel, this`up, this`clumps, size
      ensures !old(up) ==> !up
      ensures old(up) && old(fuel) >= 1 ==> up && fuel >= old(fuel) - 1
      ensures Tiled() && Layout(clumps) == old(Layout(clumps))
      ensures clumps == (x + [c']) + rest[1..] && Len(x + [c']) == clp + rest[0].n
      ensures up ==> c' == Settled1(rest[0])
    {
      assert rest == [rest[0]] + rest[1..];
      Behind(size[..], x, rest);
      c' := SettleClump(clp, x, rest[0], rest[1..]);
      Advance(x, c', rest[1..]);
    }

    /** Settles interrupted clumps, one store each. */
    method Recover()
      requires Tiled()
      modifies this`fuel, this`up, this`clumps, size
      ensures !old(up) ==> !up
      ensures old(up) && old(fuel) >= |old(clumps)| ==> up && fuel >= old(fuel) - |old(clumps)|
      ensures Tiled() && Layout(clumps) == old(Layout(clumps))
      ensures up ==> IsSettling(old(clumps), clumps)
    {
      var clp := 0;
      ghost var x, rest := [], clumps;
      var raw := ReadHeader(clp, x, rest);
      while raw != 0
        invariant Tiled() && Layout(clumps) == old(Layout(clumps)) && clumps == x + rest && clp == Len(x)
        invariant raw != 0 <==> rest != []
        invariant rest != [] ==> Chunks(raw) == rest[0].n
        invariant SettledTo(old(clumps), x, rest, up) && (!old(up) ==> !up)
        invariant old(up) && old(fuel) >= |old(clumps)| ==> up && fuel >= old(fuel) - |x|
        decreases |rest|
      {
        SettlingGrows(old(clumps), x, rest);
        ghost var c' := RecoverOne(clp, x, rest);
        clp := clp + Chunks(raw);
        x, rest := x + [c'], rest[1..];
        raw := ReadHeader(clp, x, rest);
      }
      assert clumps == x && old(clumps)[..|x|] == old(clumps);
    }

    /** What was not allocated when the pool was opened. */
    lemma OpenedHeaders(before: seq<Clump>, mid: seq<Clump>, m: seq<nat>)
      requires IsSettling(before, mid) && Tiles(m, mid) && Proper(before) && OnlyFreed(m, size[..])
      ensures forall k :: 0 <= k < |before| && !Kept(before[k]) ==>
                Start(before, k) < size.Length && State(size[Start(before, k)]) == FREE
    {
      SettledHeaders(m, before, mid);
    }

    lemma ReadyWhenNormal()
      requires up && intact && Tiled() && Normal(clumps) && prevClp.None?
      ensures Ready()
    {
      SettledIsStrict(size[..], prevsize[..], 0, NOTHING, clumps);
    }

    /** One store that makes free clumps one. */
    method Join(firstfree: nat, csize: nat, ghost x: seq<Clump>, ghost y: seq<Clump>, ghost z: seq<Clump>)
      requires Tiled() && clumps == x + (y + z) && firstfree == Len(x) && csize == Len(y) && y != []
      modifies this`fuel, this`up, this`clumps, size
      ensures !old(up) ==> !up
      ensures old(up) && old(fuel) >= 1 ==> up && fuel >= old(fuel) - 1
      ensures Tiled() && clumps == x + ((if up then [Clump(csize, FREE)] else y) + z)
      ensures OnlyFreed(old(size[..]), size[..])
    {
      ghost var m := size[..];
      TilesParts(m, x, y, z);
      HoldsWhole(x, y, z);
      FuseTiles(m, x, y, z);
      RawFields(Clump(csize, FREE));
      StoreSize(firstfree, CHUNK_SIZE * csize + FREE);
      TilesParts(size[..], x, [Clump(csize, FREE)], z);
      if up {
        if intact { NearJoin(m, prevsize[..], x, y, z, CHUNK_SIZE * csize + FREE, false); }
        clumps := x + ([Clump(csize, FREE)] + z);
        HoldsWhole(x, [Clump(csize, FREE)], z);
      }
    }

    /** At the end of a run of free clumps: two or more become one. */
    method EndRun(firstfree: Option<nat>, lastfree: Option<nat>, csize: nat, ghost x: seq<Clump>,
        ghost run: seq<Clump>, ghost z: seq<Clump>)
      returns (ghost y: seq<Clump>)
      requires Tiled() && clumps == x + (run + z) && FreeRun(run) && csize == Len(run)
      requires (firstfree.Some? <==> run != []) && (firstfree.Some? ==> firstfree.value == Len(x)) &&
        (lastfree.Some? <==> |run| >= 2)
      modifies this`fuel, this`up, this`clumps, size
      ensures !old(up) ==> !up
      ensures old(up) && (|run| < 2 || old(fuel) >= 1) ==> up && fuel >= old(fuel) - (if |run| < 2 then 0 else 1)
      ensures Tiled() && Layout(clumps) == old(Layout(clumps)) && clumps == x + (y + z) && Len(y) == Len(run) &&
        FreeRun(y)
      ensures up ==> |y| <= 1
      ensures OnlyFreed(old(size[..]), size[..])
    {
      y := run;
      if firstfree.Some? && lastfree.Some? {
        JoinLayout(x, run, z);
        Join(firstfree.value, csize, x, run, z);
        if up { y := [Clump(csize, FREE)]; }
        One([], 0, 0, Clump(csize, FREE));
      }
    }

    /** The scan stands behind a run of free clumps that begins behind `x`. */
    ghost predicate Scanned(g: Scan, x: seq<Clump>, run: seq<Clump>, rest: seq<Clump>)
      reads this, size, prevsize
    {
      && Tiled() && clumps == x + (run + rest) && g.clp == Len(x) + Len(run)
      && (g.first.Some? <==> run != []) && (g.first.Some? ==> g.first.value == Len(x))
      && (g.last.Some? <==> |run| >= 2) && FreeRun(run) && g.csize == Len(run)
      && (up ==> NoFreePair(x) && !LastFree(x))
    }

    method ScanOne(g: Scan, raw: nat, ghost x: seq<Clump>, ghost run: seq<Clump>, ghost rest: seq<Clump>)
      returns (g': Scan, ghost x': seq<Clump>, ghost run': seq<Clump>)
      requires Scanned(g, x, run, rest) && rest != [] && Chunks(raw) == rest[0].n && State(raw) == rest[0].state
      modifies this`fuel, this`up, this`clumps, size
      ensures !old(up) ==> !up
      ensures |run'| <= |run| + 1
      ensures old(up) && old(fuel) >= |run| + |rest| ==> up && fuel >= old(fuel) - (|run| + 1 - |run'|)
      ensures Scanned(g', x', run', rest[1..]) && Layout(clumps) == old(Layout(clumps))
      ensures Settled(x) && Settled(rest) ==> Settled(x') && Settled(rest[1..])
      ensures OnlyFreed(old(size[..]), size[..])
    {
      var sz, state := Chunks(raw), State(raw);
      if state == FREE {
        RunGrows(x, run, rest);
        g' := if g.first.None? then g.(first := Some(g.clp)) else g.(last := Some(g.clp));
        g' := g'.(csize := g.csize + sz, clp := g.clp + sz);
        x', run' := x, run + [rest[0]];
      } else {
        ghost var y := EndRun(g.first, g.last, g.csize, x, run, rest);
        RunEnds(x, y, rest);
        g' := Scan(g.clp + sz, None, None, 0);
        x', run' := x + (y + [rest[0]]), [];
      }
    }

    /** Joins neighbouring free clumps, one store each run. */
    method Coalesce()
      requires Tiled()
      modifies this`fuel, this`up, this`clumps, size
      ensures !old(up) ==> !up
      ensures old(up) && old(fuel) >= |old(clumps)| ==> up && fuel >= old(fuel) - |old(clumps)|
      ensures Tiled() && Layout(clumps) == old(Layout(clumps))
      ensures up && old(Settled(clumps)) ==> Normal(clumps)
      ensures OnlyFreed(old(size[..]), size[..])
    {
      var g := Scan(0, None, None, 0);
      ghost var x, run, rest := [], [], clumps;
      assert clumps == x + (run + rest);
      var raw := ReadAt(g, x, run, rest);
      while raw != 0
        invariant Scanned(g, x, run, rest) && Layout(clumps) == old(Layout(clumps))
        invariant raw != 0 <==> rest != []
        invariant rest != [] ==> Chunks(raw) == rest[0].n && State(raw) == rest[0].state
        invariant (old(Settled(clumps)) ==> Settled(x) && Settled(rest)) && (!old(up) ==> !up)
        invariant |run| + |rest| <= |old(clumps)| && OnlyFreed(old(size[..]), size[..])
        invariant old(up) && old(fuel) >= |old(clumps)| ==> up && fuel >= old(fuel) - |old(clumps)| + |run| + |rest|
        decreases |rest|
      {
        g, x, run := ScanOne(g, raw, x, run, rest);
        rest := rest[1..];
        raw := ReadAt(g, x, run, rest);
      }
      ghost var y := EndRun(g.first, g.last, g.csize, x, run, rest);
      LastRun(x, y);
    }

    method ReadAt(g: Scan, ghost x: seq<Clump>, ghost run: seq<Clump>, ghost rest: seq<Clump>) returns (raw: nat)
      requires Scanned(g, x, run, rest)
      ensures raw != 0 <==> rest != []
      ensures rest != [] ==> Chunks(raw) == rest[0].n && State(raw) == rest[0].state
    {
      assert x + (run + rest) == (x + run) + rest;
      LenAppend(x, run);
      raw := ReadHeader(g.clp, x + run, rest);
    }

    /** The stores of opening a pool. */
    method OpenStores(fuel: nat)
      requires Tiled()
      modifies this`fuel, this`up, this`clumps, this`prevClp, size
      ensures Tiled() && Layout(clumps) == old(Layout(clumps)) && prevClp.None?
      ensures fuel >= 2 * |old(clumps)| ==> up && this.fuel >= fuel - 2 * |old(clumps)|
      ensures up ==> Normal(clumps)
      ensures up ==> forall k :: 0 <= k < |old(clumps)| && !Kept(old(clumps)[k]) ==>
                Start(old(clumps), k) < size.Length && State(size[Start(old(clumps), k)]) == FREE
    {
      Reboot(fuel);
      Recover();
      ghost var mid, m := clumps, size[..];
      if up { SettlingSettles(old(clumps), mid); }
      Coalesce();
      if up { OpenedHeaders(old(clumps), mid, m); }
    }

    /** What happens when a pool is opened; it may be interrupted and repeated. The
        allocated clumps stay where they are, and nothing else is allocated; when it is
        not interrupted, for which two stores a clump are enough, it always ends with the
        same clumps, ready for the program. The old headers of what was not allocated
        then read as free. */
    method Open(fuel: nat)
      requires Tiled()
      modifies this`fuel, this`up, this`clumps, this`prevClp, size
      ensures Tiled() && Layout(clumps) == old(Layout(clumps))
      ensures fuel >= 2 * |old(clumps)| ==> up && this.fuel >= fuel - 2 * |old(clumps)|
      ensures up ==> Normal(clumps) && forall cs :: Normal(cs) && Layout(cs) == old(Layout(clumps)) ==> cs == clumps
      ensures up && intact ==> Ready()
      ensures forall a, n :: KeptAt(clumps, a, n) <==> KeptAt(old(clumps), a, n)
      ensures forall k :: 0 <= k < |old(clumps)| && Kept(old(clumps)[k]) ==>
                KeptAt(clumps, Start(old(clumps), k), old(clumps)[k].n)
      ensures up ==> forall k :: 0 <= k < |old(clumps)| && !Kept(old(clumps)[k]) ==>
                Start(old(clumps), k) < size.Length && State(size[Start(old(clumps), k)]) == FREE
    {
      OpenStores(fuel);
      SameKept(old(clumps), clumps);
      if up {
        OnlyNormalForm(clumps);
        if intact { ReadyWhenNormal(); }
      }
    }

    /** A crash anywhere in freeing, and the pool opened again: no other allocated
        clump has moved or gone. */
    method FreeAndOpen(ptr: nat, ghost k: nat, fuel: nat)
      requires Ready() && k < |clumps| && ptr == Start(clumps, k) + 1 && clumps[k].state != FREE
      modifies this, size, prevsize
      ensures Tiled() && (up ==> Normal(clumps))
      ensures forall j :: 0 <= j < |old(clumps)| && j != k && Kept(old(clumps)[j]) ==>
                KeptAt(clumps, Start(old(clumps), j), old(clumps)[j].n)
      ensures forall a, n :: KeptAt(clumps, a, n) ==> KeptAt(old(clumps), a, n)
    {
      ghost var o := Free(Some(ptr), k);
      Open(fuel);
    }
  }

  /** Every size field is as it was, or has been made that of a free clump. */
  predicate OnlyFreed(m: seq<nat>, m': seq<nat>) {
    |m'| == |m| && forall i :: 0 <= i < |m| ==> m'[i] == m[i] || State(m'[i]) == FREE
  }

  function Settled1(c: Clump): Clump {
    Clump(c.n, Settle(c.state))
  }

  /** What recovery makes of the clumps. */
  predicate IsSettling(cs: seq<Clump>, cs': seq<Clump>) {
    |cs'| == |cs| && forall k :: 0 <= k < |cs| ==> cs'[k] == Settled1(cs[k])
  }

  /** Recovery has dealt with `x`; `rest` is as it was. */
  predicate SettledTo(cs: seq<Clump>, x: seq<Clump>, rest: seq<Clump>, up: bool) {
    |x| <= |cs| && rest == cs[|x|..] && (up ==> IsSettling(cs[..|x|], x))
  }

  lemma SettlingGrows(cs: seq<Clump>, x: seq<Clump>, rest: seq<Clump>)
    requires SettledTo(cs, x, rest, false) && rest != []
    ensures forall c :: SettledTo(cs, x + [c], rest[1..], false)
    ensures IsSettling(cs[..|x|], x) ==> SettledTo(cs, x + [Settled1(rest[0])], rest[1..], true)
  {
    assert cs[|x|..][1..] == cs[|x| + 1..];
  }

  lemma SettlingSettles(cs: seq<Clump>, cs': seq<Clump>)
    requires IsSettling(cs, cs') && Proper(cs)
    ensures Settled(cs')
  {
  }

  lemma {:induction false} SettlingStarts(cs: seq<Clump>, cs': seq<Clump>, k: nat)
    requires IsSettling(cs, cs') && k <= |cs|
    ensures Start(cs', k) == Start(cs, k)
  {
    if k > 0 {
      SettlingStarts(cs, cs', k - 1);
      StartNext(cs, k - 1);
      StartNext(cs', k - 1);
    } else {
      assert cs[..0] == [] && cs'[..0] == [];
    }
  }

  lemma SettledHeaders(m: seq<nat>, cs: seq<Clump>, cs': seq<Clump>)
    requires IsSettling(cs, cs') && Tiles(m, cs') && Proper(cs)
    ensures forall k :: 0 <= k < |cs| && !Kept(cs[k]) ==> Start(cs, k) < |m| && State(m[Start(cs, k)]) == FREE
  {
    forall k | 0 <= k < |cs| && !Kept(cs[k]) ensures Start(cs, k) < |m| && State(m[Start(cs, k)]) == FREE {
      SettlingStarts(cs, cs', k);
      HeaderAt(m, cs', k);
      RawFields(cs'[k]);
    }
  }

  lemma AllKept(cs: seq<Clump>)
    requires Proper(cs)
    ensures forall j :: 0 <= j < |cs| && Kept(cs[j]) ==> KeptAt(cs, Start(cs, j), cs[j].n)
  {
    forall j | 0 <= j < |cs| && Kept(cs[j]) ensures KeptAt(cs, Start(cs, j), cs[j].n) {
      KeptClump(cs, j);
    }
  }

  /** Where the next search begins after freeing. */
  lemma FreedLive(m: seq<nat>, p: seq<nat>, x: seq<Clump>, c: Clump, z: seq<Clump>, prev: Option<nat>)
    requires Tiles3(m, x, [c], z) && Near3(m, p, x, [c], z, true) && |p| == |m| && c.state != FREE
    requires Live(x + ([c] + z), prev) && PrevInside(m, p, x) && Reads(m, p, Len(x))
    ensures var plan, o := FreePlan(m, p, Len(x)), FreeOutcome(m, p, x, c);
      !o.Astray? ==> Live(AfterFree(o, x, c, z), if plan.follow then Some(plan.at) else prev)
  {
    match FreeOutcome(m, p, x, c)
    case Joins =>
      PlanJoins(m, p, x, c, z);
      FusedIsLive(x, c, z, prev);
    case Astray =>
    case Apart =>
      ApartPlan(m, p, x, c, z);
      ApartIsLive(x, c, z, prev);
  }

  lemma ApartIsLive(x: seq<Clump>, c: Clump, z: seq<Clump>, p: Option<nat>)
    requires Live(x + ([c] + z), p)
    ensures Live(AfterFree(Apart, x, c, z), Some(Len(x)))
    ensures !FirstFree(z) ==> Live(AfterFree(Apart, x, c, z), p)
  {
    AheadParts(x, c, z);
    StartOf(x, [Clump(Len(Ahead(c, z)), FREE)], AfterJoined(z));
    if !FirstFree(z) {
      var cs := x + ([c] + z);
      assert cs[|x|] == c && AfterFree(Apart, x, c, z) == cs[|x| := Clump(c.n, FREE)];
      SameStarts(cs, |x|, FREE, p);
    }
  }

  predicate FreeRun(cs: seq<Clump>) {
    forall j :: 0 <= j < |cs| ==> cs[j].state == FREE
  }

  lemma RunGrows(x: seq<Clump>, run: seq<Clump>, rest: seq<Clump>)
    requires rest != []
    ensures x + (run + rest) == x + ((run + [rest[0]]) + rest[1..]) == (x + (run + [rest[0]])) + rest[1..]
    ensures Len(run + [rest[0]]) == Len(run) + rest[0].n && Len(x + (run + [rest[0]])) == Len(x) + Len(run) + rest[0].n
    ensures Settled(rest) ==> Settled(rest[1..])
  {
    One([], 0, 0, rest[0]);
    LenAppend(run, [rest[0]]);
    LenAppend(x, run + [rest[0]]);
  }

  lemma RunEnds(x: seq<Clump>, y: seq<Clump>, rest: seq<Clump>)
    requires rest != [] && rest[0].state != FREE && FreeRun(y)
    ensures x + (y + rest) == (x + (y + [rest[0]])) + ([] + rest[1..]) == (x + (y + [rest[0]]) + []) + rest[1..]
    ensures Len(x + (y + [rest[0]])) == Len(x) + Len(y) + rest[0].n && !LastFree(x + (y + [rest[0]]))
    ensures |y| <= 1 && NoFreePair(x) && !LastFree(x) ==> NoFreePair(x + (y + [rest[0]]))
    ensures Settled(x) && Settled(rest) ==> Settled(x + (y + [rest[0]])) && Settled(rest[1..])
  {
    RunGrows(x, y, rest);
    PairAppend(y, [rest[0]]);
    PairAppend(x, y + [rest[0]]);
    SettledAppend(y, [rest[0]]);
    SettledAppend(x, y + [rest[0]]);
  }

  lemma SettledAppend(x: seq<Clump>, y: seq<Clump>)
    ensures Settled(x) && Settled(y) ==> Settled(x + y)
  {
  }

  lemma LastRun(x: seq<Clump>, y: seq<Clump>)
    requires FreeRun(y)
    ensures |y| <= 1 && NoFreePair(x) && !LastFree(x) ==> NoFreePair(x + (y + []))
    ensures Settled(x) ==> Settled(x + (y + []))
  {
    assert y + [] == y;
    PairAppend(x, y);
    SettledAppend(x, y);
  }

  lemma Behind(m: seq<nat>, x: seq<Clump>, rest: seq<Clump>)
    requires Tiles(m, x + rest)
    ensures Len(x) < |m| && m[Len(x)] == if rest == [] then 0 else Raw(rest[0])
    ensures rest != [] ==> rest[0].n >= 1 && rest[0].state <= FREEING
  {
    TailAppend(m, 0, x, rest);
  }

  lemma Advance(x: seq<Clump>, c: Clump, z: seq<Clump>)
    ensures x + ([c] + z) == (x + [c]) + z && Len(x + [c]) == Len(x) + c.n
    ensures Settled(x) && (c.state == FREE || c.state == ACTIVE) ==> Settled(x + [c])
  {
    LenAppend(x, [c]);
    One([], 0, 0, c);
  }

  lemma JoinLayout(x: seq<Clump>, y: seq<Clump>, z: seq<Clump>)
    requires forall j :: 0 <= j < |y| ==> y[j].state == FREE
    ensures Layout(x + ([Clump(Len(y), FREE)] + z)) == Layout(x + (y + z))
  {
    FreeLayout(y);
    FreeLayout([Clump(Len(y), FREE)]);
    One([], 0, 0, Clump(Len(y), FREE));
    LayoutReplace(x, y, [Clump(Len(y), FREE)], z);
  }

  /** What recovery makes of an interrupted state. */
  function Settle(state: nat): nat {
    if state == RESERVED || state == FREEING then FREE else if state == ACTIVATING then ACTIVE else state
  }

  /** The clump freeing remembers, or the one remembered before. */
  lemma FusedIsLive(x: seq<Clump>, c: Clump, z: seq<Clump>, p: Option<nat>)
    requires Live(x + ([c] + z), p)
    ensures Live(Fused(x, c, z), Some(Len(BeforeJoined(x))))
    ensures !LastFree(x) && !FirstFree(z) ==> Live(Fused(x, c, z), p) && Joined(x, c, z) == [c]
  {
    StartOf(BeforeJoined(x), [Clump(Len(Joined(x, c, z)), FREE)], AfterJoined(z));
    if !LastFree(x) && !FirstFree(z) {
      var cs := x + ([c] + z);
      One([], 0, 0, c);
      assert Joined(x, c, z) == [c];
      assert cs[|x|] == c && Fused(x, c, z) == cs[|x| := Clump(c.n, FREE)];
      SameStarts(cs, |x|, FREE, p);
    }
  }

  lemma SameStarts(cs: seq<Clump>, k: nat, state: nat, p: Option<nat>)
    requires k < |cs| && Live(cs, p)
    ensures Live(cs[k := Clump(cs[k].n, state)], p)
  {
    if p.Some? {
      var j :| 0 <= j < |cs| && Start(cs, j) == p.value;
      StartRelabel(cs, k, state, j);
    }
  }

  lemma OnePrev(p: seq<nat>, x: seq<Clump>, y: seq<Clump>, z: seq<Clump>)
    requires Prev3(p, x, y, z) && y != []
    ensures LastLen(LastLen(0, x), y) == Len(y) ==> Prev3(p, x, [Clump(Len(y), FREE)], z)
  {
    One(p, Len(x), LastLen(0, x), Clump(Len(y), FREE));
  }

  /** The prevsize fields after freeing. */
  lemma FreedPrev(m: seq<nat>, p: seq<nat>, x: seq<Clump>, c: Clump, z: seq<Clump>)
    requires Tiles3(m, x, [c], z) && Prev3(p, x, [c], z) && Reads(m, p, Len(x)) && PrevSafe(m, p, x, c)
    ensures var plan := FreePlan(m, p, Len(x));
      && plan.at + plan.total < |p|
      && PrevSeg(if plan.follow then p[plan.at + plan.total := CHUNK_SIZE * plan.total] else p, 0, 0, Fused(x, c, z))
  {
    PlanJoins(m, p, x, c, z);
    Regroup(x, c, z);
    JoinTiles(m, x, c, z);
    JoinPrev(p, x, c, z);
    FusedPrev(p, BeforeJoined(x), Joined(x, c, z), AfterJoined(z), FreePlan(m, p, Len(x)).follow);
  }

  lemma FusedPrev(p: seq<nat>, w: seq<Clump>, y: seq<Clump>, v: seq<Clump>, follow: bool)
    requires Prev3(p, w, y, v) && Proper(w) && Proper(y) && Proper(v) && y != [] && Len(w) + Len(y) < |p|
    requires follow || LastLen(LastLen(0, w), y) == Len(y)
    ensures PrevSeg(if follow then p[Len(w) + Len(y) := CHUNK_SIZE * Len(y)] else p, 0, 0,
                    w + ([Clump(Len(y), FREE)] + v))
  {
    var p' := p[Len(w) + Len(y) := CHUNK_SIZE * Len(y)];
    FusePrev(p, p', w, y, v);
    OnePrev(p, w, y, v);
    PrevParts(p', w, [Clump(Len(y), FREE)], v);
    PrevParts(p, w, [Clump(Len(y), FREE)], v);
  }

  lemma OnlyNormalForm(cs: seq<Clump>)
    requires Normal(cs)
    ensures forall y :: Normal(y) && Layout(y) == Layout(cs) ==> y == cs
  {
    forall y | Normal(y) && Layout(y) == Layout(cs) ensures y == cs {
      NormalFormIsUnique(y, cs);
    }
  }
}
