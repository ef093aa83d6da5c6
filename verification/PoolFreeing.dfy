/** What freeing a clump reads and stores, also when a prevsize field is stale. */
module PoolFreeing {
  import opened PoolLayout
  import opened PoolNear
  import opened Wrappers

  /** The header to write, the chunks of the free clump it gets, and whether the
      prevsize field behind that clump is written too. */
  datatype Plan = Plan(at: nat, total: nat, follow: bool)

  /** Freeing reads inside the pool. */
  predicate Reads(m: seq<nat>, p: seq<nat>, clp: nat) {
    |p| == |m| && clp < |m| && clp + Chunks(m[clp]) < |m| && Chunks(p[clp]) <= clp
  }

  function FreePlan(m: seq<nat>, p: seq<nat>, clp: nat): Plan
    requires Reads(m, p, clp)
  {
    var sz := Chunks(m[clp]);
    var lastfree, firstfree := clp + sz, clp - Chunks(p[clp]);
    var last := State(m[lastfree]) == FREE;
    var first := firstfree != clp && State(m[firstfree]) == FREE;
    Plan(if first then firstfree else clp,
         (if first then Chunks(m[firstfree]) else 0) + sz + (if last then Chunks(m[lastfree]) else 0),
         first || last)
  }

  /** The prevsize field of `c` is right where that matters: it leads to a free
      predecessor, or to nothing that reads as free. */
  predicate PrevSafe(m: seq<nat>, p: seq<nat>, x: seq<Clump>, c: Clump) {
    var clp := Len(x);
    && clp < |p| && Chunks(p[clp]) <= clp < |m|
    && var q := Chunks(p[clp]);
       if LastFree(x) then q == LastLen(0, x) else q == 0 || State(m[clp - q]) != FREE
  }

  /** Without a crash every prevsize field is. */
  lemma PrevSegIsSafe(m: seq<nat>, p: seq<nat>, x: seq<Clump>, c: Clump, z: seq<Clump>)
    requires Tiles3(m, x, [c], z) && Prev3(p, x, [c], z) && |p| == |m|
    ensures Reads(m, p, Len(x)) && PrevSafe(m, p, x, c)
  {
    NeighbourReads(m, p, x, c, z);
    TilesOne(m, x, c, z);
    RawFields(c);
    if x != [] { RawFields(x[|x| - 1]); }
  }

  /** With such a field the clump and its free neighbours become one. */
  lemma PlanJoins(m: seq<nat>, p: seq<nat>, x: seq<Clump>, c: Clump, z: seq<Clump>)
    requires Tiles3(m, x, [c], z) && Reads(m, p, Len(x)) && PrevSafe(m, p, x, c)
    ensures FreePlan(m, p, Len(x)) == Plan(Len(BeforeJoined(x)), Len(Joined(x, c, z)), LastFree(x) || z == [] ||
      FirstFree(z))
  {
    TilesOne(m, x, c, z);
    RawFields(c);
    NextReadsFree(m, x, c, z);
    Regroup(x, c, z);
    if LastFree(x) {
      LastReads(m, 0, x);
      RawFields(x[|x| - 1]);
    }
  }

  lemma NextReadsFree(m: seq<nat>, x: seq<Clump>, c: Clump, z: seq<Clump>)
    requires Tiles3(m, x, [c], z)
    ensures Len(x) + c.n < |m|
    ensures State(m[Len(x) + c.n]) == FREE <==> z == [] || FirstFree(z)
    ensures Chunks(m[Len(x) + c.n]) == if z == [] then 0 else z[0].n
  {
    One(m, Len(x), 0, c);
    NextReads(m, Len(x) + c.n, z);
    if z != [] { RawFields(z[0]); }
  }

  /** The size field after freeing. */
  function Freed(m: seq<nat>, plan: Plan): seq<nat>
    requires plan.at < |m|
  {
    m[plan.at := CHUNK_SIZE * plan.total + FREE]
  }

  lemma FreedTiles(m: seq<nat>, p: seq<nat>, x: seq<Clump>, c: Clump, z: seq<Clump>)
    requires Tiles3(m, x, [c], z) && Reads(m, p, Len(x)) && PrevSafe(m, p, x, c)
    ensures FreePlan(m, p, Len(x)).at < |m| && Tiles(Freed(m, FreePlan(m, p, Len(x))), Fused(x, c, z))
  {
    PlanJoins(m, p, x, c, z);
    JoinTiles(m, x, c, z);
    Regroup(x, c, z);
    FusedTiles(m, BeforeJoined(x), Joined(x, c, z), AfterJoined(z), FreePlan(m, p, Len(x)));
  }

  lemma FusedTiles(m: seq<nat>, w: seq<Clump>, y: seq<Clump>, v: seq<Clump>, plan: Plan)
    requires Tiles3(m, w, y, v) && y != [] && plan.at == Len(w) && plan.total == Len(y)
    ensures plan.at < |m| && Tiles(Freed(m, plan), w + ([Clump(Len(y), FREE)] + v))
  {
    FuseTiles(m, w, y, v);
    TilesParts(Freed(m, plan), w, [Clump(Len(y), FREE)], v);
  }

  /** In any tiled pool, freeing a clump does what it should exactly when its prevsize
      field is safe. After recovery it need not be: coalescing does not rewrite it. */
  lemma FreesExactlyWhenSafe(m: seq<nat>, p: seq<nat>, x: seq<Clump>, c: Clump, z: seq<Clump>)
    requires Tiles(m, x + ([c] + z)) && Reads(m, p, Len(x)) && c.state != FREE
    ensures var plan := FreePlan(m, p, Len(x));
      plan.at < |m| && (Tiles(Freed(m, plan), Fused(x, c, z)) <==> PrevSafe(m, p, x, c))
  {
    TilesParts(m, x, [c], z);
    if PrevSafe(m, p, x, c) {
      FreedTiles(m, p, x, c, z);
    } else {
      UnsafeMisses(m, p, x, c, z);
    }
  }

  /** An unsafe field sends the store to another header than the free clump's. */
  lemma UnsafeMisses(m: seq<nat>, p: seq<nat>, x: seq<Clump>, c: Clump, z: seq<Clump>)
    requires Tiles3(m, x, [c], z) && Reads(m, p, Len(x)) && c.state != FREE && !PrevSafe(m, p, x, c)
    ensures var plan := FreePlan(m, p, Len(x)); plan.at < |m| && !Tiles(Freed(m, plan), Fused(x, c, z))
  {
    var m' := Freed(m, FreePlan(m, p, Len(x)));
    var w, f, v := BeforeJoined(x), Clump(Len(Joined(x, c, z)), FREE), AfterJoined(z);
    TilesOne(m, x, c, z);
    RawFields(c);
    RawFields(f);
    Regroup(x, c, z);
    if LastFree(x) { LastReads(m, 0, x); }
    assert m'[Len(w)] != Raw(f);
    TilesParts(m', w, [f], v);
    assert !Seg(m', Len(w), [f]);
  }

  // ---------------------------------------------------------------------------
  // The three outcomes of freeing a clump after recovery
  // ---------------------------------------------------------------------------

  /** The clump joins its free neighbours; or the store goes astray, into the free clump
      in front; or the clump is freed but not joined with that one. */
  datatype Outcome = Joins | Astray | Apart

  predicate PrevInside(m: seq<nat>, p: seq<nat>, x: seq<Clump>) {
    Len(x) < |p| && Chunks(p[Len(x)]) <= Len(x) < |m|
  }

  /** It depends on the prevsize field, and on what lies where that leads. */
  function FreeOutcome(m: seq<nat>, p: seq<nat>, x: seq<Clump>, c: Clump): Outcome
    requires PrevInside(m, p, x)
  {
    if PrevSafe(m, p, x, c) then Joins else if State(m[Len(x) - Chunks(p[Len(x)])]) == FREE then Astray else Apart
  }

  /** The freed clump and a free one behind it. */
  function Ahead(c: Clump, z: seq<Clump>): seq<Clump> {
    [c] + (if FirstFree(z) then [z[0]] else [])
  }

  function AfterFree(o: Outcome, x: seq<Clump>, c: Clump, z: seq<Clump>): seq<Clump> {
    match o
    case Joins => Fused(x, c, z)
    case Astray => x + ([c] + z)
    case Apart => x + ([Clump(Len(Ahead(c, z)), FREE)] + AfterJoined(z))
  }

  lemma AheadParts(x: seq<Clump>, c: Clump, z: seq<Clump>)
    ensures x + ([c] + z) == x + (Ahead(c, z) + AfterJoined(z))
    ensures Len(Ahead(c, z)) == c.n + (if FirstFree(z) then z[0].n else 0)
    ensures Ahead(c, z) != [] && (!FirstFree(z) ==> Ahead(c, z) == [c] && AfterJoined(z) == z)
  {
    var e := if FirstFree(z) then [z[0]] else [];
    assert z == e + AfterJoined(z);
    assert [c] + (e + AfterJoined(z)) == ([c] + e) + AfterJoined(z);
    LenAppend([c], e);
    OneLen(c);
    if FirstFree(z) { OneLen(z[0]); }
  }

  /** A clump in use is followed by a right field, and its own leads into the pool. */
  lemma NearReads(m: seq<nat>, p: seq<nat>, x: seq<Clump>, c: Clump, z: seq<Clump>)
    requires Tiles3(m, x, [c], z) && Near3(m, p, x, [c], z, true) && |p| == |m| && c.state != FREE
    ensures Reads(m, p, Len(x)) && PrevInside(m, p, x) && (z != [] ==> Exact(p, Len(x) + c.n, c))
    ensures !PrevSafe(m, p, x, c) ==> LastFree(x) && Stale(m, p, Len(x), x[|x| - 1], true)
  {
    TilesOne(m, x, c, z);
    RawFields(c);
    BehindOne(m, p, x, c, z, true);
    if x != [] {
      LastReads(m, 0, x);
      RawFields(x[|x| - 1]);
    }
  }

  /** A stale field leads to a free header inside the free clump in front. */
  lemma AstrayReads(m: seq<nat>, p: seq<nat>, x: seq<Clump>, c: Clump, z: seq<Clump>)
    requires Tiles3(m, x, [c], z) && Near3(m, p, x, [c], z, true) && |p| == |m| && c.state != FREE
    requires PrevInside(m, p, x) && FreeOutcome(m, p, x, c).Astray?
    ensures Reads(m, p, Len(x)) && LastFree(x)
    ensures var q := Chunks(p[Len(x)]);
      1 <= q < x[|x| - 1].n && Chunks(m[Len(x) - q]) == q && State(m[Len(x) - q]) == FREE
  {
    NearReads(m, p, x, c, z);
  }

  /** What an astray store writes: the length of the free clump in front, as far as the
      stale field goes, and everything behind it that is free then. */
  lemma AstrayPlan(m: seq<nat>, p: seq<nat>, x: seq<Clump>, c: Clump, z: seq<Clump>)
    requires Tiles3(m, x, [c], z) && Near3(m, p, x, [c], z, true) && |p| == |m| && c.state != FREE
    requires PrevInside(m, p, x) && FreeOutcome(m, p, x, c).Astray?
    ensures Reads(m, p, Len(x)) && LastFree(x)
    ensures var plan := FreePlan(m, p, Len(x));
      Len(x) - x[|x| - 1].n < plan.at < Len(x) && plan.at + plan.total == Len(x) + Len(Ahead(c, z)) && plan.follow
  {
    AstrayReads(m, p, x, c, z);
    NextReadsFree(m, x, c, z);
    TilesOne(m, x, c, z);
    RawFields(c);
    AheadParts(x, c, z);
  }

  lemma ApartPlan(m: seq<nat>, p: seq<nat>, x: seq<Clump>, c: Clump, z: seq<Clump>)
    requires Tiles3(m, x, [c], z) && Near3(m, p, x, [c], z, true) && |p| == |m| && c.state != FREE
    requires PrevInside(m, p, x) && FreeOutcome(m, p, x, c).Apart?
    ensures Reads(m, p, Len(x))
    ensures FreePlan(m, p, Len(x)) == Plan(Len(x), Len(Ahead(c, z)), z == [] || FirstFree(z))
  {
    NearReads(m, p, x, c, z);
    NextReadsFree(m, x, c, z);
    TilesOne(m, x, c, z);
    RawFields(c);
    AheadParts(x, c, z);
  }

  /** Writing inside the last clump of `x` does not disturb the walk. */
  lemma WriteInsideLast(m: seq<nat>, x: seq<Clump>, rest: seq<Clump>, i: nat, v: nat)
    requires Tiles(m, x + rest) && x != [] && Len(x) - x[|x| - 1].n < i < Len(x)
    ensures i < |m| && Tiles(m[i := v], x + rest)
  {
    var w, d := x[..|x| - 1], x[|x| - 1];
    LastSplit(x, rest);
    TilesParts(m, w, [d], rest);
    WriteInside(m, w, d, rest, i, v);
    TilesParts(m[i := v], w, [d], rest);
  }

  lemma LastSplit(x: seq<Clump>, rest: seq<Clump>)
    requires x != []
    ensures x[..|x| - 1] + ([x[|x| - 1]] + rest) == x + rest && Len(x) == Len(x[..|x| - 1]) + x[|x| - 1].n
  {
    var w, d := x[..|x| - 1], [x[|x| - 1]];
    ThreeParts(w, d, rest);
    LenAppend(w, d);
    OneLen(x[|x| - 1]);
    assert w + d == x;
  }

  lemma ThreeParts(a: seq<Clump>, b: seq<Clump>, c: seq<Clump>)
    ensures a + (b + c) == (a + b) + c
  {
  }

  /** The walk after an astray store is the same. */
  lemma AstrayTiles(m: seq<nat>, p: seq<nat>, x: seq<Clump>, c: Clump, z: seq<Clump>)
    requires Tiles3(m, x, [c], z) && Near3(m, p, x, [c], z, true) && |p| == |m| && c.state != FREE
    requires PrevInside(m, p, x) && FreeOutcome(m, p, x, c).Astray?
    ensures Reads(m, p, Len(x)) && FreePlan(m, p, Len(x)).at < |m|
    ensures Tiles(Freed(m, FreePlan(m, p, Len(x))), x + ([c] + z))
  {
    AstrayPlan(m, p, x, c, z);
    var plan := FreePlan(m, p, Len(x));
    TilesParts(m, x, [c], z);
    WriteInsideLast(m, x, [c] + z, plan.at, CHUNK_SIZE * plan.total + FREE);
  }

  lemma TailAhead(m: seq<nat>, x: seq<Clump>, c: Clump, z: seq<Clump>)
    requires Tiles3(m, x, [c], z)
    ensures Tail(m, Len(x) + Len(Ahead(c, z)), AfterJoined(z))
  {
    AheadParts(x, c, z);
    TilesParts(m, x, [c], z);
    TilesParts(m, x, Ahead(c, z), AfterJoined(z));
  }

  lemma AheadSplits(x: seq<Clump>, c: Clump, z: seq<Clump>)
    ensures x + ([c] + z) == (x + Ahead(c, z)) + AfterJoined(z) && Len(x + Ahead(c, z)) == Len(x) + Len(Ahead(c, z))
  {
    AheadParts(x, c, z);
    LenAppend(x, Ahead(c, z));
    ThreeParts(x, Ahead(c, z), AfterJoined(z));
  }

  /** From where an astray store went the walk goes on behind what it counted as free. */
  lemma AstrayTail(m: seq<nat>, x: seq<Clump>, c: Clump, z: seq<Clump>, plan: Plan)
    requires Tiles3(m, x, [c], z) && plan.at < Len(x) && plan.at + plan.total == Len(x) + Len(Ahead(c, z))
    ensures plan.at < |m| && Tail(Freed(m, plan), plan.at, [Clump(plan.total, FREE)] + AfterJoined(z))
  {
    TailAhead(m, x, c, z);
    TailFrom(m, plan, AfterJoined(z));
  }

  lemma TailFrom(m: seq<nat>, plan: Plan, v: seq<Clump>)
    requires Tail(m, plan.at + plan.total, v) && plan.total >= 1 && plan.at < |m|
    ensures Tail(Freed(m, plan), plan.at, [Clump(plan.total, FREE)] + v)
  {
    var f := Clump(plan.total, FREE);
    SegFrame(m, Freed(m, plan), plan.at + plan.total, v);
    OneLen(f);
    TailAppend(Freed(m, plan), plan.at, [f], v);
    One(Freed(m, plan), plan.at, 0, f);
  }

  /** Clumps that become one by the stores of a plan. */
  lemma PlannedNear(m: seq<nat>, p: seq<nat>, w: seq<Clump>, y: seq<Clump>, v: seq<Clump>, plan: Plan)
    requires Tiles3(m, w, y, v) && Near3(m, p, w, y, v, true) && |p| == |m| && y != []
    requires plan.at == Len(w) && plan.total == Len(y)
    ensures plan.at + plan.total < |m| && Tiles(Freed(m, plan), w + ([Clump(Len(y), FREE)] + v))
    ensures Near(Freed(m, plan), p, 0, NOTHING, w + ([Clump(Len(y), FREE)] + v), true)
    ensures Near(Freed(m, plan), p[plan.at + plan.total := CHUNK_SIZE * plan.total], 0, NOTHING,
                 w + ([Clump(Len(y), FREE)] + v), true)
  {
    FusedTiles(m, w, y, v, plan);
    FuseTiles(m, w, y, v);
    var m', f := Freed(m, plan), Clump(Len(y), FREE);
    NearJoin(m, p, w, y, v, CHUNK_SIZE * Len(y) + FREE, true);
    NearJoined(m, p, w, y, v, CHUNK_SIZE * Len(y) + FREE, true);
    NearParts(m', p, w, [f], v, true);
    NearParts(m', p[plan.at + plan.total := CHUNK_SIZE * plan.total], w, [f], v, true);
  }

  lemma NearRegroup(m: seq<nat>, p: seq<nat>, x: seq<Clump>, c: Clump, z: seq<Clump>, w: seq<Clump>, y: seq<Clump>,
      v: seq<Clump>)
    requires Tiles3(m, x, [c], z) && Near3(m, p, x, [c], z, true) && x + ([c] + z) == w + (y + v)
    ensures Tiles3(m, w, y, v) && Near3(m, p, w, y, v, true)
  {
    TilesParts(m, x, [c], z);
    TilesParts(m, w, y, v);
    NearParts(m, p, x, [c], z, true);
    NearParts(m, p, w, y, v, true);
  }

  /** The prevsize fields after the stores of the plan. */
  function Followed(p: seq<nat>, plan: Plan): seq<nat>
    requires plan.at + plan.total < |p|
  {
    if plan.follow then p[plan.at + plan.total := CHUNK_SIZE * plan.total] else p
  }

  /** The stores of freeing make a sound pool of `cs`, also when only the first is made. */
  ghost predicate LeadsTo(m: seq<nat>, p: seq<nat>, clp: nat, cs: seq<Clump>) {
    && Reads(m, p, clp)
    && var plan := FreePlan(m, p, clp);
       && plan.at + plan.total < |m| && Tiles(Freed(m, plan), cs)
       && Near(Freed(m, plan), p, 0, NOTHING, cs, true)
       && Near(Freed(m, plan), Followed(p, plan), 0, NOTHING, cs, true)
  }

  lemma JoinsLeadsTo(m: seq<nat>, p: seq<nat>, x: seq<Clump>, c: Clump, z: seq<Clump>)
    requires Tiles3(m, x, [c], z) && Near3(m, p, x, [c], z, true) && |p| == |m| && Reads(m, p, Len(x))
    requires PrevSafe(m, p, x, c)
    ensures LeadsTo(m, p, Len(x), Fused(x, c, z))
  {
    PlanJoins(m, p, x, c, z);
    Regroup(x, c, z);
    NearRegroup(m, p, x, c, z, BeforeJoined(x), Joined(x, c, z), AfterJoined(z));
    PlannedNear(m, p, BeforeJoined(x), Joined(x, c, z), AfterJoined(z), FreePlan(m, p, Len(x)));
  }

  lemma ApartLeadsTo(m: seq<nat>, p: seq<nat>, x: seq<Clump>, c: Clump, z: seq<Clump>)
    requires Tiles3(m, x, [c], z) && Near3(m, p, x, [c], z, true) && |p| == |m| && c.state != FREE
    requires PrevInside(m, p, x) && FreeOutcome(m, p, x, c).Apart?
    ensures LeadsTo(m, p, Len(x), AfterFree(Apart, x, c, z))
  {
    ApartPlan(m, p, x, c, z);
    AheadParts(x, c, z);
    NearRegroup(m, p, x, c, z, x, Ahead(c, z), AfterJoined(z));
    PlannedNear(m, p, x, Ahead(c, z), AfterJoined(z), FreePlan(m, p, Len(x)));
  }

  /** What the stores of freeing lead to in any pool that crashes and recovery leave. */
  lemma FreeLeadsTo(m: seq<nat>, p: seq<nat>, x: seq<Clump>, c: Clump, z: seq<Clump>)
    requires Tiles3(m, x, [c], z) && Near3(m, p, x, [c], z, true) && |p| == |m| && c.state != FREE
    ensures Reads(m, p, Len(x)) && PrevInside(m, p, x)
    ensures var plan, o := FreePlan(m, p, Len(x)), FreeOutcome(m, p, x, c);
      && plan.at + plan.total < |m| && Tiles(Freed(m, plan), AfterFree(o, x, c, z))
      && (!o.Astray? ==> LeadsTo(m, p, Len(x), AfterFree(o, x, c, z)))
  {
    NearReads(m, p, x, c, z);
    match FreeOutcome(m, p, x, c)
    case Joins => JoinsLeadsTo(m, p, x, c, z);
    case Astray =>
      AstrayTiles(m, p, x, c, z);
      AstrayPlan(m, p, x, c, z);
      AheadInside(m, x, c, z);
    case Apart => ApartLeadsTo(m, p, x, c, z);
  }

  lemma AheadInside(m: seq<nat>, x: seq<Clump>, c: Clump, z: seq<Clump>)
    requires Tiles3(m, x, [c], z)
    ensures Len(x) + Len(Ahead(c, z)) < |m|
  {
    AheadParts(x, c, z);
    TilesParts(m, x, [c], z);
    TilesParts(m, x, Ahead(c, z), AfterJoined(z));
  }

  // ---------------------------------------------------------------------------
  // What freeing keeps
  // ---------------------------------------------------------------------------

  lemma ApartLayout(x: seq<Clump>, c: Clump, z: seq<Clump>)
    ensures Layout(AfterFree(Apart, x, c, z)) == Layout(Fused(x, c, z))
  {
    var y, f := Ahead(Clump(c.n, FREE), z), Clump(Len(Ahead(c, z)), FREE);
    AheadParts(x, c, z);
    AheadParts(x, Clump(c.n, FREE), z);
    FreeLayout(y);
    FreeLayout([f]);
    OneLen(f);
    LayoutReplace(x, y, [f], AfterJoined(z));
    FusedLayout(x, c, z);
  }

  /** Whatever freeing does, every other allocated clump stays at its place, and nothing
      new is allocated. */
  lemma AfterFreeKept(o: Outcome, x: seq<Clump>, c: Clump, z: seq<Clump>)
    requires Proper(x + ([c] + z))
    ensures var cs := x + ([c] + z); forall j :: 0 <= j < |cs| && j != |x| && Kept(cs[j]) ==>
              KeptAt(AfterFree(o, x, c, z), Start(cs, j), cs[j].n)
    ensures forall a, n :: KeptAt(AfterFree(o, x, c, z), a, n) ==> KeptAt(x + ([c] + z), a, n)
  {
    var cs := x + ([c] + z);
    FreeKeepsOthers(x, c, z);
    FreeInventsNothing(x, c, z);
    FusedProper(x, c, z);
    if o.Apart? {
      ApartLayout(x, c, z);
      AheadParts(x, c, z);
      JoinedProper(x, Ahead(c, z), AfterJoined(z));
      SameKept(Fused(x, c, z), AfterFree(Apart, x, c, z));
    }
  }
}
