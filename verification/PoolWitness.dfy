/** A run of the allocator after which freed memory stays allocated. */
module PoolWitness {
  import opened Pool
  import opened PoolFreeing
  import opened PoolLayout
  import opened PoolNear
  import opened Wrappers

  /** After the three reservations and the activation; after recovery. */
  function Crashed(n: nat): seq<Clump>
    requires n > 6
  {
    [Clump(2, RESERVED), Clump(2, RESERVED), Clump(2, ACTIVE), Clump(n - 6, FREE)]
  }

  function Recovered(n: nat): seq<Clump>
    requires n > 6
  {
    [Clump(4, FREE), Clump(2, ACTIVE), Clump(n - 6, FREE)]
  }

  lemma ThreeStarts(a: Clump, b: Clump, rest: seq<Clump>)
    ensures Start([a] + rest, 1) == a.n && Start([a, b] + rest, 2) == a.n + b.n && Start([a] + rest, 0) == 0
  {
    assert ([a] + rest)[..1] == [a] && ([a, b] + rest)[..2] == [a, b] && ([a] + rest)[..0] == [];
    OneLen(a);
    Two([], 0, 0, a, b);
  }

  lemma RecoveredIsNormal(n: nat)
    requires n > 6
    ensures Normal(Recovered(n)) && Layout(Recovered(n)) == Layout(Crashed(n))
  {
    var r, a := [Clump(2, RESERVED), Clump(2, RESERVED)], [Clump(2, ACTIVE), Clump(n - 6, FREE)];
    assert Crashed(n) == r + a && Recovered(n) == [Clump(4, FREE)] + a;
    LayoutAppend(r, a);
    LayoutAppend([Clump(4, FREE)], a);
    FreeLayout(r);
    FreeLayout([Clump(4, FREE)]);
    Two([], 0, 0, r[0], r[1]);
    OneLen(Clump(4, FREE));
  }

  /** Reserving the least amount where only the last clump is free. */
  method ReserveLast(p: Pool, ghost cs: seq<Clump>, ghost n: nat)
    requires p.Valid() && p.clumps == cs + [Clump(n, FREE)] && n >= 4
    requires forall j :: 0 <= j < |cs| ==> cs[j].state != FREE
    modifies p`fuel, p`up, p`clumps, p`prevClp, p.size, p.prevsize
    ensures old(p.fuel) >= 4 ==> p.up && p.fuel >= old(p.fuel) - 4
    ensures p.up ==> p.Valid() && p.clumps == cs + [Clump(2, RESERVED), Clump(n - 2, FREE)]
  {
    ghost var before := p.clumps;
    OnlyLastFits(cs, n, before);
    var ptr, i, k := p.Reserve(64);
    if p.up {
      assert k == |cs|;
      LastTaken(cs, n, before, p.clumps);
    }
  }

  lemma OnlyLastFits(cs: seq<Clump>, n: nat, before: seq<Clump>)
    requires n >= 4 && before == cs + [Clump(n, FREE)] && forall j :: 0 <= j < |cs| ==> cs[j].state != FREE
    ensures Fits(before[|cs|], 128) && forall j :: 0 <= j < |before| ==> (Fits(before[j], 128) <==> j == |cs|)
  {
  }

  lemma LastTaken(cs: seq<Clump>, n: nat, before: seq<Clump>, after: seq<Clump>)
    requires n >= 4 && before == cs + [Clump(n, FREE)] && Taken(before, after, |cs|, 128)
    ensures after == cs + [Clump(2, RESERVED), Clump(n - 2, FREE)]
  {
    assert before[..|cs|] == cs && before[|cs| + 1..] == [];
    assert after == after[..|cs|] + [after[|cs|], after[|cs| + 1]] + after[|cs| + 2..];
  }

  /** Three clumps are reserved and the third is activated; then power is lost. */
  method Crash(n: nat, fuel: nat) returns (p: Pool)
    requires n >= 8 && fuel >= 13
    ensures fresh(p) && fresh(p.size) && fresh(p.prevsize) && p.up && p.Valid() && p.clumps == Crashed(n)
  {
    p := new Pool(n, fuel);
    ReserveLast(p, [], n);
    ReserveLast(p, [Clump(2, RESERVED)], n - 2);
    ReserveLast(p, [Clump(2, RESERVED), Clump(2, RESERVED)], n - 4);
    var r := Clump(2, RESERVED);
    assert p.clumps == [r, r] + [r, Clump(n - 6, FREE)];
    ThreeStarts(r, r, [r, Clump(n - 6, FREE)]);
    p.Activate(5, 2);
  }

  /** The third clump's field names the second one, whose header reads as free now, but
      lies inside the joined clump. */
  lemma FieldIsStale(p: Pool, n: nat)
    requires n >= 8 && p.Tiled() && p.clumps == Recovered(n) && p.size.Length > 2 && State(p.size[2]) == FREE
    requires p.prevsize.Length > 4 && p.prevsize[4] == 128
    ensures PrevInside(p.size[..], p.prevsize[..], p.clumps[..1])
    ensures p.OutcomeFor(p.clumps[..1], p.clumps[1]).Astray?
  {
    assert p.clumps[..1] == [Clump(4, FREE)];
    OneLen(Clump(4, FREE));
    assert Len(p.clumps) == 4 + Len(p.clumps[1..]);
    HeaderAt(p.size[..], p.clumps, 1);
    assert Start(p.clumps, 1) == 4;
  }

  /** The field in front of the active clump, before recovery; recovery does not write it. */
  lemma FieldBefore(p: Pool, n: nat)
    requires n >= 8 && p.Valid() && p.clumps == Crashed(n)
    ensures p.prevsize.Length > 4 && p.prevsize[4] == 128 && Start(p.clumps, 1) == 2 && Start(p.clumps, 2) == 4
  {
    var r := Clump(2, RESERVED);
    assert p.clumps == [r] + p.clumps[1..] && p.clumps == [r, r] + p.clumps[2..];
    ThreeStarts(r, r, p.clumps[2..]);
    ThreeStarts(r, r, p.clumps[1..]);
    PrevAppend(p.prevsize[..], 0, 0, [r, r], p.clumps[2..]);
    Two([], 0, 0, r, r);
  }

  /** After recovery the pool is in order, but for that field. */
  method Reopen(n: nat, fuel: nat, fuel': nat) returns (p: Pool)
    requires n >= 8 && fuel >= 13 && fuel' >= 8
    ensures fresh(p) && fresh(p.size) && fresh(p.prevsize) && p.Ready() && p.clumps == Recovered(n)
    ensures p.fuel >= fuel' - 8 && p.prevsize.Length > 4 && p.prevsize[4] == 128 && Start(p.clumps, 1) == 4
    ensures PrevInside(p.size[..], p.prevsize[..], p.clumps[..1]) && p.OutcomeFor(p.clumps[..1], p.clumps[1]).Astray?
  {
    p := Crash(n, fuel);
    FieldBefore(p, n);
    RecoveredIsNormal(n);
    p.Open(fuel');
    FieldIsStale(p, n);
    assert p.clumps == [Clump(4, FREE)] + p.clumps[1..];
    ThreeStarts(Clump(4, FREE), Clump(2, ACTIVE), p.clumps[1..]);
  }

  /** In a pool of any size that can be made: three clumps are reserved, the third is
      activated, power is lost, the pool is opened again, and the program frees its
      clump. There is fuel for every store, so nothing else goes wrong; but the clump is
      still allocated, and the next search begins in the middle of the free one. */
  method FreeIsLost(n: nat, fuel: nat, fuel': nat) returns (p: Pool)
    requires n >= 8 && fuel >= 13 && fuel' >= 10
    ensures fresh(p) && fresh(p.size) && fresh(p.prevsize) && p.up && p.fuel >= fuel' - 10
    ensures p.Tiled() && p.clumps == Recovered(n) && KeptAt(p.clumps, 4, 2)
    ensures p.Led(2, n - 2, [Clump(4, FREE)], Recovered(n), [])
  {
    p := Reopen(n, fuel, fuel');
    KeptClump(p.clumps, 1);
    FreeThird(p, n);
  }

  method FreeThird(p: Pool, ghost n: nat)
    requires n >= 8 && p.Ready() && p.clumps == Recovered(n) && Start(p.clumps, 1) == 4 && p.fuel >= 2
    requires PrevInside(p.size[..], p.prevsize[..], p.clumps[..1]) && p.prevsize.Length > 4 && p.prevsize[4] == 128
    requires p.OutcomeFor(p.clumps[..1], p.clumps[1]).Astray?
    modifies p, p.size, p.prevsize
    ensures p.up && p.fuel >= old(p.fuel) - 2 && p.Tiled() && p.clumps == Recovered(n)
    ensures p.Led(2, n - 2, [Clump(4, FREE)], Recovered(n), [])
  {
    LedParts(n);
    ghost var o := p.Free(Some(5), 1);
  }

  lemma LedParts(n: nat)
    requires n > 6
    ensures Recovered(n)[..1] == [Clump(4, FREE)] && Recovered(n)[1] == Clump(2, ACTIVE)
    ensures Recovered(n)[2..] == [Clump(n - 6, FREE)] && AfterJoined(Recovered(n)[2..]) == []
    ensures Recovered(n)[..1] + Ahead(Recovered(n)[1], Recovered(n)[2..]) == Recovered(n)
    ensures Len(Recovered(n)) == n && Len([Clump(4, FREE)]) == 4
  {
    var r := Recovered(n);
    OneLen(r[0]);
    Two([], 0, 0, r[1], r[2]);
    assert r == [r[0]] + [r[1], r[2]];
    LenAppend([r[0]], [r[1], r[2]]);
  }

  // ---------------------------------------------------------------------------
  // The same memory is handed out twice
  // ---------------------------------------------------------------------------

  lemma WalkOne(m: seq<nat>, a: nat, c: Clump)
    requires c.n >= 1 && c.state <= FREEING && |m| == a + c.n + 1 && m[a] == Raw(c) && m[a + c.n] == 0
    ensures Tail(m, a, [c])
  {
    One(m, a, 0, c);
  }

  lemma WalkTwo(m: seq<nat>, a: nat, c: Clump, d: Clump)
    requires c.n >= 1 && c.state <= FREEING && a < |m| && m[a] == Raw(c) && Tail(m, a + c.n, [d])
    ensures Tail(m, a, [c, d])
  {
    assert [c, d] == [c] + [d];
    One(m, a, 0, c);
    TailAppend(m, a, [c], [d]);
  }

  lemma WalkThree(m: seq<nat>, a: nat, c: Clump, d: Clump, e: Clump)
    requires c.n >= 1 && c.state <= FREEING && a < |m| && m[a] == Raw(c) && Tail(m, a + c.n, [d, e])
    ensures Tail(m, a, [c, d, e])
  {
    assert [c, d, e] == [c] + [d, e];
    One(m, a, 0, c);
    TailAppend(m, a, [c], [d, e]);
  }

  lemma SearchOne(a: nat, c: Clump, bytes: nat)
    ensures FirstFitIn(a, [c], bytes) == if Fits(c, bytes) then Some(a) else None
  {
    assert [c][1..] == [];
  }

  lemma SearchTwo(a: nat, c: Clump, d: Clump, bytes: nat)
    ensures FirstFitIn(a, [c, d], bytes) ==
              if Fits(c, bytes) then Some(a) else if Fits(d, bytes) then Some(a + c.n) else None
  {
    assert [c, d][1..] == [d];
    SearchOne(a + c.n, d, bytes);
  }

  lemma SearchThree(a: nat, c: Clump, d: Clump, e: Clump, bytes: nat)
    ensures Fits(c, bytes) ==> FirstFitIn(a, [c, d, e], bytes) == Some(a)
    ensures !Fits(c, bytes) && Fits(d, bytes) ==> FirstFitIn(a, [c, d, e], bytes) == Some(a + c.n)
  {
    assert [c, d, e][1..] == [d, e];
    SearchTwo(a + c.n, d, e, bytes);
  }

  /** The size fields that matter, in a pool of `n` chunks. */
  ghost predicate Fields(p: Pool, n: nat, at0: nat, at2: nat, at4: nat)
    reads p, p.size
  {
    && n >= 8 && p.up && p.size != p.prevsize && p.size.Length == p.prevsize.Length == n + 1
    && p.size[0] == at0 && p.size[2] == at2 && p.size[4] == at4 && p.size[n] == 0
  }

  /** The first reservation is made inside the free clump. */
  method First(p: Pool, n: nat) returns (ptr: Option<nat>)
    requires n >= 8 && p.up && p.fuel >= 4 && p.clumps == Recovered(n)
    requires p.Led(2, n - 2, [Clump(4, FREE)], Recovered(n), [])
    modifies p`fuel, p`up, p`prevClp, p.size, p.prevsize
    ensures ptr == Some(3) && p.fuel >= old(p.fuel) - 4 && p.prevClp == Some(2)
    ensures Fields(p, n, Raw(Clump(4, FREE)), Raw(Clump(2, RESERVED)), Raw(Clump(n - 4, FREE)))
  {
    LedParts(n);
    ghost var tail := [Clump(n - 2, FREE)];
    assert tail + [] == tail;
    SearchOne(2, Clump(n - 2, FREE), 128);
    RawFields(Clump(n - 2, FREE));
    HeaderAt(p.size[..], p.clumps, 0);
    assert p.clumps[..0] == [];
    TailHeader(p.size[..], 2, tail, 0);
    assert tail[..0] == [];
    TailHeader(p.size[..], 2, tail, 1);
    assert tail[..1] == tail;
    OneLen(Clump(n - 2, FREE));
    ptr := p.ReserveAnywhere(64, tail, Recovered(n));
  }

  /** The second takes all behind it. */
  method Second(p: Pool, n: nat) returns (ptr: Option<nat>)
    requires n >= 8 && Fields(p, n, Raw(Clump(4, FREE)), Raw(Clump(2, RESERVED)), Raw(Clump(n - 4, FREE)))
    requires p.fuel >= 4 && p.prevClp == Some(2)
    modifies p`fuel, p`up, p`prevClp, p.size, p.prevsize
    ensures ptr == Some(5) && p.fuel >= old(p.fuel) - 4 && p.prevClp == Some(4)
    ensures Fields(p, n, Raw(Clump(4, FREE)), Raw(Clump(2, RESERVED)), Raw(Clump(n - 4, RESERVED)))
  {
    ghost var r, f := Clump(2, RESERVED), Clump(n - 4, FREE);
    WalkOne(p.size[..], 4, f);
    WalkTwo(p.size[..], 2, r, f);
    WalkTwo(p.size[..], 0, Clump(4, FREE), f);
    assert ClumpBytes(64 * (n - 5)) == CHUNK_SIZE * (n - 4);
    SearchTwo(2, r, f, CHUNK_SIZE * (n - 4));
    RawFields(f);
    ptr := p.ReserveAnywhere(64 * (n - 5), [r, f], [Clump(4, FREE), f]);
  }

  /** The third goes round to the first chunk and splits the clump there. */
  method Third(p: Pool, n: nat) returns (ptr: Option<nat>)
    requires n >= 8 && Fields(p, n, Raw(Clump(4, FREE)), Raw(Clump(2, RESERVED)), Raw(Clump(n - 4, RESERVED)))
    requires p.fuel >= 4 && p.prevClp == Some(4)
    modifies p`fuel, p`up, p`prevClp, p.size, p.prevsize
    ensures ptr == Some(1) && p.fuel >= old(p.fuel) - 4 && p.prevClp == Some(0)
    ensures Fields(p, n, Raw(Clump(2, RESERVED)), Raw(Clump(2, FREE)), Raw(Clump(n - 4, RESERVED)))
  {
    ghost var r, f := Clump(n - 4, RESERVED), Clump(4, FREE);
    WalkOne(p.size[..], 4, r);
    WalkTwo(p.size[..], 0, f, r);
    SearchOne(4, r, 128);
    SearchTwo(0, f, r, 128);
    RawFields(f);
    ptr := p.ReserveAnywhere(64, [r], [f, r]);
  }

  /** The fourth gets what the first one got. */
  method Fourth(p: Pool, n: nat) returns (ptr: Option<nat>)
    requires n >= 8 && Fields(p, n, Raw(Clump(2, RESERVED)), Raw(Clump(2, FREE)), Raw(Clump(n - 4, RESERVED)))
    requires p.fuel >= 4 && p.prevClp == Some(0)
    modifies p`fuel, p`up, p`prevClp, p.size, p.prevsize
    ensures ptr == Some(3) && p.up
  {
    ghost var a, b, c := Clump(2, RESERVED), Clump(2, FREE), Clump(n - 4, RESERVED);
    WalkOne(p.size[..], 4, c);
    WalkTwo(p.size[..], 2, b, c);
    WalkThree(p.size[..], 0, a, b, c);
    SearchThree(0, a, b, c, 128);
    ptr := p.ReserveAnywhere(64, [a, b, c], [a, b, c]);
  }

  /** After the lost free, in a pool of any size: of four reservations the first and the
      last get the same memory, and nothing is freed in between. */
  method SameMemoryTwice(n: nat, fuel: nat, fuel': nat) returns (p: Pool, first: Option<nat>, last: Option<nat>)
    requires n >= 8 && fuel >= 13 && fuel' >= 26
    ensures fresh(p) && p.up && first == last == Some(3)
  {
    p := FreeIsLost(n, fuel, fuel');
    first := First(p, n);
    var second := Second(p, n);
    var third := Third(p, n);
    last := Fourth(p, n);
  }
}
