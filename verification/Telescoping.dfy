/** Which checkpoints telescoping garbage collection picks. Checkpoint numbers act
    as a binary counter; the bits that flip when checkpoint `n` is taken pick
    earlier checkpoints at single-precision offsets. */
module Telescoping {
  import opened Powers
  import opened Snapshots

  const NUM_BITS: nat := 64

  /** The first checkpoint at which rounding makes the offset wrong. */
  const FIRST_BAD: nat := 33554431

  /** The number of times 2 divides `c`. */
  function Twos(c: nat): nat
    requires c > 0
  {
    if c % 2 == 1 then 0 else 1 + Twos(c / 2)
  }

  /** The checkpoint whose taking marks `c`. */
  function StepOf(c: nat): nat
    requires c > 0
  {
    c + 3 * Pow2(Twos(c)) - 1
  }

  lemma {:induction false} TwosDivide(c: nat) returns (half: nat)
    requires c > 0
    ensures c == Pow2(Twos(c)) * (2 * half + 1)
  {
    if c % 2 == 1 { half := c / 2; } else { half := TwosDivide(c / 2); }
  }

  lemma {:induction false} TwosOf(c: nat, k: nat, half: nat)
    requires c == Pow2(k) * (2 * half + 1)
    ensures c > 0 && Twos(c) == k
  {
    if k > 0 {
      assert c == 2 * (Pow2(k - 1) * (2 * half + 1));
      TwosOf(c / 2, k - 1, half);
    }
  }

  // ---------------------------------------------------------------------------
  // Bits
  // ---------------------------------------------------------------------------

  /** `position & (x ^ (x + 1))`, for a power of two. */
  predicate Flips(x: nat, position: nat)
    requires position > 0
  {
    (x / position) % 2 != ((x + 1) / position) % 2
  }

  lemma DivDiv(x: nat, p: nat)
    requires p > 0
    ensures x / (2 * p) == (x / 2) / p
  {
    var q, r := x / (2 * p), x % (2 * p);
    assert x == q * (2 * p) + r;
    assert x / 2 == q * p + r / 2 && 0 <= r / 2 < p;
    DivUnique(x / 2, p, q, r / 2);
  }

  lemma MultipleIsLarge(d: int, p: int)
    requires d >= 1 && p > 0
    ensures d * p >= p
  {
    assert (d - 1) * p >= 0;
  }

  lemma SmallMultiple(d: int, p: int, e: int)
    requires p > 0 && d * p == e && -p < e < p
    ensures d == 0
  {
    if d >= 1 { MultipleIsLarge(d, p); } else if d <= -1 { MultipleIsLarge(-d, p); }
  }

  lemma DivUnique(x: nat, p: nat, q: nat, r: nat)
    requires p > 0 && x == q * p + r && r < p
    ensures x / p == q && x % p == r
  {
    var q', r' := x / p, x % p;
    assert x == p * q' + r' && 0 <= r' < p;
    assert (q' - q) * p == r - r';
    SmallMultiple(q' - q, p, r - r');
  }

  /** A bit flips exactly when all lower bits of the new number are zero. */
  lemma {:induction false} FlipMeansDivides(x: nat, i: nat)
    ensures Flips(x, Pow2(i)) <==> (x + 1) % Pow2(i) == 0
  {
    if i > 0 {
      var p := Pow2(i - 1);
      DivDiv(x, p);
      DivDiv(x + 1, p);
      if x % 2 == 1 {
        FlipMeansDivides(x / 2, i - 1);
        assert (x + 1) / 2 == x / 2 + 1;
        HalfDivides(x + 1, p);
      } else {
        assert (x + 1) / 2 == x / 2;
        OddNotDivided(x + 1, p);
      }
    }
  }

  lemma HalfDivides(x: nat, p: nat)
    requires p > 0 && x % 2 == 0
    ensures x % (2 * p) == 0 <==> (x / 2) % p == 0
  {
    var q, r := (x / 2) / p, (x / 2) % p;
    assert x == q * (2 * p) + 2 * r;
    DivUnique(x, 2 * p, q, 2 * r);
  }

  lemma OddNotDivided(x: nat, p: nat)
    requires p > 0 && x % 2 == 1
    ensures x % (2 * p) != 0
  {
    var q, r := x / (2 * p), x % (2 * p);
    assert x == 2 * (q * p) + r;
  }

  // ---------------------------------------------------------------------------
  // Offsets
  // ---------------------------------------------------------------------------

  /** Powers of two by which `x` exceeds 24 bits. */
  function Excess(x: nat): nat {
    if x < 16777216 then 0 else 1 + Excess(x / 2)
  }

  /** Rounding to a multiple of `q`, ties to an even multiple. */
  function Nearest(x: nat, q: nat): nat
    requires q > 0
  {
    var m, r := x / q, x % q;
    if 2 * r < q || (2 * r == q && m % 2 == 0) then m * q else (m + 1) * q
  }

  /** The IEEE 754 single-precision number nearest to `x`. */
  function Single(x: nat): nat {
    Nearest(x, Pow2(Excess(x)))
  }

  /** `offset * 2 + 1` in single precision. */
  function Next(offset: nat): nat {
    Single(Single(offset * 2) + 1)
  }

  function Distance(x: nat, y: nat): nat {
    if x < y then y - x else x - y
  }

  lemma NearestCases(x: nat, q: nat) returns (m: nat, r: nat)
    requires q > 0
    ensures x == m * q + r && r < q
    ensures Nearest(x, q) == if 2 * r < q || (2 * r == q && m % 2 == 0) then m * q else (m + 1) * q
  {
    m, r := x / q, x % q;
  }

  lemma Apart(m: nat, k: nat, q: nat)
    ensures (k < m ==> k * q + q <= m * q) && (k > m + 1 ==> (m + 1) * q + q <= k * q)
  {
    if k < m { MultiplesApart(k, m, q); }
    if k > m + 1 { MultiplesApart(m + 1, k, q); }
  }

  /** No multiple of `q` is nearer to `x`, and of two as near the even one is taken. */
  lemma NearestIs(x: nat, q: nat, k: nat) returns (n: nat)
    requires q > 0
    ensures Nearest(x, q) == n * q && Distance(x, n * q) <= Distance(x, k * q)
    ensures Distance(x, n * q) == Distance(x, k * q) && n != k ==> n % 2 == 0
  {
    var m, r := NearestCases(x, q);
    NextMultiple(m, q);
    Apart(m, k, q);
    Nearer(x, q, m, r, m * q, (m + 1) * q, k * q, k);
    n := if 2 * r < q || (2 * r == q && m % 2 == 0) then m else m + 1;
  }

  lemma Nearer(x: nat, q: nat, m: nat, r: nat, low: nat, high: nat, y: nat, k: nat)
    requires x == low + r && r < q && high == low + q
    requires (k < m ==> y + q <= low) && (k > m + 1 ==> high + q <= y)
    requires (k == m ==> y == low) && (k == m + 1 ==> y == high)
    ensures 2 * r < q || (2 * r == q && m % 2 == 0) ==>
              Distance(x, low) <= Distance(x, y) && (Distance(x, low) == Distance(x, y) && k != m ==> m % 2 == 0)
    ensures !(2 * r < q || (2 * r == q && m % 2 == 0)) ==>
              && Distance(x, high) <= Distance(x, y)
              && (Distance(x, high) == Distance(x, y) && k != m + 1 ==> (m + 1) % 2 == 0)
  {
  }

  lemma NextMultiple(m: nat, q: nat)
    ensures (m + 1) * q == m * q + q
  {
  }

  lemma {:induction false} MultiplesApart(a: nat, b: nat, q: nat)
    requires a < b
    ensures a * q + q <= b * q
    decreases b
  {
    NextMultiple(b - 1, q);
    if a < b - 1 { MultiplesApart(a, b - 1, q); }
  }

  /** The unit leaves 24 bits, the first of them one if there are more. */
  lemma {:induction false} UnitLeaves24Bits(x: nat)
    ensures x / Pow2(Excess(x)) < 16777216
    ensures Excess(x) > 0 ==> x / Pow2(Excess(x)) >= 8388608
  {
    if x >= 16777216 {
      UnitLeaves24Bits(x / 2);
      DivDiv(x, Pow2(Excess(x / 2)));
    }
  }

  lemma SmallIsExact(x: nat)
    requires x < 16777216
    ensures Single(x) == x
  {
    assert Pow2(0) == 1;
  }

  lemma {:induction false} ExcessOf(m: nat, d: nat)
    requires m >= 23 && d <= 1
    ensures Excess(3 * Pow2(m) + d) == m - 22
  {
    if m == 23 {
      Pow2Values();
      assert (3 * Pow2(23) + d) / 2 == 12582912;
    } else {
      assert (3 * Pow2(m) + d) / 2 == 3 * Pow2(m - 1);
      ExcessOf(m - 1, 0);
      Pow2Grows(23, m);
      Pow2Values();
    }
  }

  lemma Pow2Values()
    ensures Pow2(0) == 1 && Pow2(1) == 2 && Pow2(2) == 4 && Pow2(22) == 4194304 && Pow2(23) == 8388608
  {
    assert Pow2(4) == 16;
    assert Pow2(7) == 128;
    Pow2Sum(4, 7);
    Pow2Sum(11, 11);
    assert Pow2(11) == 2048;
    assert Pow2(22) == 4194304;
  }

  lemma {:induction false} Pow2Sum(m: nat, n: nat)
    ensures Pow2(m + n) == Pow2(m) * Pow2(n)
  {
    if n > 0 { Pow2Sum(m, n - 1); }
  }

  /** Large offsets are multiples of the rounding unit, and the one is rounded off. */
  lemma LargeRounds(m: nat, d: nat)
    requires m >= 24 && d <= 1
    ensures Single(3 * Pow2(m) + d) == 3 * Pow2(m)
  {
    ExcessOf(m, d);
    UnitOf(m);
    NearestToMultiple(12582912, Pow2(m - 22), d);
  }

  /** The rounding unit of 3·2^m. */
  lemma UnitOf(m: nat)
    requires m >= 24
    ensures Pow2(m - 22) >= 4 && 3 * Pow2(m) == 12582912 * Pow2(m - 22)
  {
    Pow2Sum(22, m - 22);
    Pow2Grows(2, m - 22);
    Pow2Values();
  }

  lemma NearestToMultiple(a: nat, q: nat, d: nat)
    requires q >= 4 && d <= 1
    ensures Nearest(a * q + d, q) == a * q
  {
    DivUnique(a * q + d, q, a, d);
  }

  /** The offset for bit `i`: up to bit 23 what doubling and adding one gives; from bit
      24 on the added one is lost, which makes it one too large. */
  function Rounded(i: nat): nat
    requires i >= 1
  {
    if i <= 23 then 3 * Pow2(i - 1) - 1 else 3 * Pow2(i - 1)
  }

  /** That is what the loop computes from the offset before in single precision. */
  lemma NextIs(i: nat)
    requires i >= 2
    ensures Next(Rounded(i - 1)) == Rounded(i)
  {
    if i <= 23 { SmallNext(i); } else if i == 24 { TieNext(); } else { LargeNext(i); }
  }

  lemma SmallNext(i: nat)
    requires 2 <= i <= 23
    ensures Next(Rounded(i - 1)) == Rounded(i)
  {
    SmallDoubles(i - 1);
  }

  lemma TieNext()
    ensures Next(Rounded(23)) == Rounded(24)
  {
    TieRounds();
  }

  lemma LargeNext(i: nat)
    requires i >= 25
    ensures Next(Rounded(i - 1)) == Rounded(i)
  {
    LargeDoubles(i - 1);
  }

  lemma SmallDoubles(i: nat)
    requires 1 <= i <= 22
    ensures Single(Single((3 * Pow2(i - 1) - 1) * 2) + 1) == 3 * Pow2(i) - 1
  {
    Pow2Grows(i, 22);
    Pow2Values();
    SmallIsExact((3 * Pow2(i - 1) - 1) * 2);
    SmallIsExact((3 * Pow2(i - 1) - 1) * 2 + 1);
  }

  lemma LargeDoubles(i: nat)
    requires i >= 24
    ensures Single(Single(3 * Pow2(i - 1) * 2) + 1) == 3 * Pow2(i)
  {
    LargeRounds(i, 0);
    LargeRounds(i, 1);
  }

  lemma TieRounds()
    ensures Single(Single((3 * Pow2(22) - 1) * 2) + 1) == 3 * Pow2(23)
  {
    Pow2Values();
    assert Excess(25165822) == 1 && Excess(25165823) == 1;
    assert Single(25165822) == 25165822 && Single(25165823) == 25165824;
  }

  // ---------------------------------------------------------------------------
  // The schedule
  // ---------------------------------------------------------------------------

  /** A checkpoint that bit `i` picks, with the exact offset, is due at this step. */
  lemma PickedIsDue(n: nat, i: nat)
    requires 1 <= i && (n + 1) % Pow2(i) == 0 && n > 3 * Pow2(i - 1) - 1
    ensures var c := n + 1 - 3 * Pow2(i - 1); c > 0 && Twos(c) == i - 1 && StepOf(c) == n
  {
    var m := DueMultiple(n + 1, Pow2(i - 1));
    TwosOf(n + 1 - 3 * Pow2(i - 1), i - 1, m - 2);
  }

  lemma DueMultiple(x: nat, p: nat) returns (m: nat)
    requires p > 0 && x % (2 * p) == 0 && x > 3 * p
    ensures m >= 2 && x == p * (2 * m) && x - 3 * p == p * (2 * (m - 2) + 1)
  {
    m := x / (2 * p);
    assert x == (2 * p) * m;
    SmallFactor(2 * p, m);
  }

  lemma SmallFactor(p: nat, m: nat)
    ensures m < 2 ==> p * m <= p
  {
  }

  /** A checkpoint due at step `n` is picked by the bit above its lowest one. */
  lemma DueIsPicked(n: nat, c: nat)
    requires c > 0 && StepOf(c) == n
    ensures var i := Twos(c) + 1; (n + 1) % Pow2(i) == 0 && n > 3 * Pow2(i - 1) - 1 && c == n + 1 - 3 * Pow2(i - 1)
  {
    var half := TwosDivide(c);
    var p := Pow2(Twos(c));
    assert n + 1 == p * (2 * half + 1) + 3 * p == (half + 2) * (2 * p) + 0;
    DivUnique(n + 1, 2 * p, half + 2, 0);
  }

  /** Every checkpoint is picked by exactly one bit of exactly one step:
      2^k·odd at the step 3·2^k - 1 later. */
  lemma PickedExactlyOnce(c: nat, n: nat, i: nat)
    requires c > 0 && i >= 1
    ensures Flips(n, Pow2(i)) && n > 3 * Pow2(i - 1) - 1 && c == n + 1 - 3 * Pow2(i - 1)
        <==> n == StepOf(c) && i == Twos(c) + 1
  {
    FlipMeansDivides(n, i);
    if n == StepOf(c) { DueIsPicked(n, c); }
    if (n + 1) % Pow2(i) == 0 && n > 3 * Pow2(i - 1) - 1 { PickedIsDue(n, i); }
  }

  // ---------------------------------------------------------------------------
  // What stays unmarked
  // ---------------------------------------------------------------------------

  /** The checkpoints up to `n` that no step up to `n` marks. */
  function Unmarked(n: nat): set<nat> {
    set c | 1 <= c <= n && StepOf(c) > n
  }

  function Level(n: nat, k: nat): set<nat> {
    set c | 1 <= c <= n && StepOf(c) > n && Twos(c) == k
  }

  lemma OddFactor(n: nat, c: nat, p: nat, q: nat, odd: nat)
    requires p > 0 && c == p * odd && c <= n < c + 3 * p - 1 && p * q <= n < p * q + p
    ensures q - 2 <= odd <= q
  {
    if odd > q { MultipleIsLarge(odd - q, p); }
    if odd + 3 <= q { MultipleIsLarge(q - odd - 2, p); }
  }

  /** The largest multiples of `p` up to `p * q + p - 1` that are odd multiples. */
  function Latest(p: nat, q: nat): set<int> {
    if q % 2 == 1 then {p * q, p * (q - 2)} else {p * (q - 1)}
  }

  lemma LevelIsLatest(n: nat, c: nat, p: nat, q: nat)
    requires 1 <= c <= n && StepOf(c) > n && p == Pow2(Twos(c)) && p * q <= n < p * q + p
    ensures c in Latest(p, q)
  {
    var odd := LevelOdd(n, c, p, q);
    OddChoices(c, p, q, odd);
  }

  lemma LevelOdd(n: nat, c: nat, p: nat, q: nat) returns (odd: nat)
    requires 1 <= c <= n && StepOf(c) > n && p == Pow2(Twos(c)) && p * q <= n < p * q + p
    ensures c == p * odd && odd % 2 == 1 && q - 2 <= odd <= q
  {
    odd := OddPart(c);
    OddFactor(n, c, p, q, odd);
  }

  lemma OddPart(c: nat) returns (odd: nat)
    requires c > 0
    ensures c == Pow2(Twos(c)) * odd && odd % 2 == 1
  {
    var half := TwosDivide(c);
    odd := 2 * half + 1;
  }

  lemma Quotient(n: nat, p: nat) returns (q: nat)
    requires p > 0
    ensures p * q <= n < p * q + p
  {
    q := n / p;
  }

  lemma OddChoices(c: nat, p: nat, q: nat, odd: nat)
    requires c == p * odd && odd % 2 == 1 && q - 2 <= odd <= q
    ensures c in Latest(p, q)
  {
    if odd == q {
    } else if odd == q - 1 {
      assert q % 2 == 0;
    } else {
      assert odd == q - 2 && q % 2 == 1;
    }
  }

  /** Of the checkpoints 2^k·odd at most two are unmarked. */
  lemma LevelIsSmall(n: nat, k: nat)
    ensures |Level(n, k)| <= 2
  {
    var p := Pow2(k);
    var q := Quotient(n, p);
    forall c | c in Level(n, k) ensures c in Latest(p, q) {
      LevelIsLatest(n, c, p, q);
    }
    SubsetSize(Level(n, k), Latest(p, q));
    LatestIsSmall(p, q);
  }

  lemma LatestIsSmall(p: nat, q: nat)
    ensures |Latest(p, q)| <= 2
  {
  }

  lemma SubsetSize<T>(a: set<T>, b: set<T>)
    requires a <= b
    ensures |a| <= |b|
  {
    assert b == a + (b - a);
  }

  function Log2(n: nat): nat
    requires n > 0
  {
    if n == 1 then 0 else 1 + Log2(n / 2)
  }

  lemma {:induction false} TwosAtMostLog(c: nat, n: nat)
    requires 0 < c <= n
    ensures Twos(c) <= Log2(n)
  {
    if c % 2 == 0 { TwosAtMostLog(c / 2, n / 2); }
  }

  function UpToLevel(n: nat, k: nat): set<nat> {
    set c | 1 <= c <= n && StepOf(c) > n && Twos(c) <= k
  }

  lemma {:induction false} LevelsAreSmall(n: nat, k: nat)
    ensures |UpToLevel(n, k)| <= 2 * (k + 1)
  {
    LevelIsSmall(n, k);
    if k == 0 {
      assert UpToLevel(n, 0) == Level(n, 0);
    } else {
      LevelsAreSmall(n, k - 1);
      assert UpToLevel(n, k) == UpToLevel(n, k - 1) + Level(n, k);
    }
  }

  /** After any number of steps only logarithmically many checkpoints are unmarked. */
  lemma UnmarkedIsLogarithmic(n: nat)
    requires n > 0
    ensures |Unmarked(n)| <= 2 * (Log2(n) + 1)
  {
    forall c | c in Unmarked(n) ensures c in UpToLevel(n, Log2(n)) {
      TwosAtMostLog(c, n);
    }
    assert Unmarked(n) == UpToLevel(n, Log2(n));
    LevelsAreSmall(n, Log2(n));
  }

  // ---------------------------------------------------------------------------
  // The collector
  // ---------------------------------------------------------------------------

  /** `c` is due at one of the steps from the first one to `n`. */
  predicate DueBy(c: nat, n: nat) {
    c > 0 && INITIAL_GLOBAL_SNAPSHOT < StepOf(c) <= n
  }

  /** `c` is due at step `n`, for a bit below `i`. */
  predicate DueAt(c: nat, n: nat, i: nat) {
    c > 0 && StepOf(c) == n && Twos(c) + 1 < i
  }

  lemma LateDue(c: nat, k: nat)
    requires c > 0 && Twos(c) == k && k >= 23
    ensures StepOf(c) >= FIRST_BAD
  {
    var half := TwosDivide(c);
    Pow2Grows(23, k);
    Pow2Values();
    MultipleIsLarge(2 * half + 1, Pow2(k));
  }

  /** Until the first bad checkpoint, bit `i` picks exactly what it has to; below
      bit 24 it always does. */
  lemma BitPicksDue(n: nat, i: nat, c: nat)
    requires 1 <= i && (i <= 23 || n < FIRST_BAD)
    ensures DueAt(c, n, i + 1) && !DueAt(c, n, i) <==> Flips(n, Pow2(i)) && n > Rounded(i) && c == n - Rounded(i)
  {
    if i <= 23 {
      if c > 0 { PickedExactlyOnce(c, n, i); }
    } else {
      HighBitIsIdle(n, i);
      if c > 0 && Twos(c) == i - 1 { LateDue(c, i - 1); }
    }
  }

  lemma HighBitIsIdle(n: nat, i: nat)
    requires i >= 24 && n < FIRST_BAD
    ensures !(Flips(n, Pow2(i)) && n > Rounded(i))
  {
    FlipMeansDivides(n, i);
    if (n + 1) % Pow2(i) == 0 && n > 3 * Pow2(i - 1) {
      PickedIsDue(n, i);
      LateDue(n + 1 - 3 * Pow2(i - 1), i - 1);
    }
  }

  /** At the first bad checkpoint, bit 24 picks a checkpoint marked long before. */
  lemma BadPick()
    ensures Flips(FIRST_BAD, Pow2(24)) && FIRST_BAD > Rounded(24) && DueBy(FIRST_BAD - Rounded(24), FIRST_BAD - 1)
  {
    Pow2Values();
    assert Pow2(24) == 16777216;
    assert FIRST_BAD - Rounded(24) == 8388607;
    assert StepOf(8388607) == 8388609;
  }

  lemma PickIsNew(n: nat, i: nat)
    requires 1 <= i && (i <= 23 || n < FIRST_BAD) && Flips(n, Pow2(i)) && n > Rounded(i)
    ensures !DueBy(n - Rounded(i), n - 1) && !DueAt(n - Rounded(i), n, i)
  {
    BitPicksDue(n, i, n - Rounded(i));
  }

  lemma AllBitsSeen(n: nat, c: nat)
    requires 0 < n < FIRST_BAD
    ensures DueBy(c, n) <==> DueBy(c, n - 1) || (DueAt(c, n, NUM_BITS) && n > INITIAL_GLOBAL_SNAPSHOT)
  {
    if c > 0 && StepOf(c) == n && Twos(c) >= 23 { LateDue(c, Twos(c)); }
  }

  /** Marked are what was due before step `n`, and what is due then for a bit below `i`. */
  ghost predicate MarkedBelow(marks: multiset<nat>, n: nat, i: nat)
    requires n > 0
  {
    forall c :: marks[c] == (if DueBy(c, n - 1) then 1 else 0) + (if DueAt(c, n, i) then 1 else 0)
  }

  /** What bit `i` of step `n` picks is new, and it is all that was missing. */
  lemma PickFacts(marks: multiset<nat>, n: nat, i: nat)
    requires n > 0 && 1 <= i && (i <= 23 || n < FIRST_BAD) && MarkedBelow(marks, n, i)
    ensures if Flips(n, Pow2(i)) && n > Rounded(i)
            then marks[n - Rounded(i)] == 0 && MarkedBelow(marks + multiset{n - Rounded(i)}, n, i + 1)
            else MarkedBelow(marks, n, i + 1)
  {
    var pick := Flips(n, Pow2(i)) && n > Rounded(i);
    if pick { PickIsNew(n, i); }
    forall c: nat
      ensures (if DueAt(c, n, i + 1) then 1 else 0) ==
              (if DueAt(c, n, i) then 1 else 0) + (if pick && c == n - Rounded(i) then 1 else 0)
    {
      BitPicksDue(n, i, c);
      DueStays(c, n, i);
    }
  }

  lemma DueStays(c: nat, n: nat, i: nat)
    ensures DueAt(c, n, i) ==> DueAt(c, n, i + 1)
  {
  }

  /** The first odd step behind `n`. */
  function OddBehind(n: nat): nat {
    if n % 2 == 0 then n + 1 else n + 2
  }

  /** An even step marks nothing; the first bit of an odd one picks the checkpoint two
      before it. */
  lemma StepParity(n: nat, i: nat)
    requires n > 2 && i >= 1
    ensures n % 2 == 0 ==> !Flips(n, Pow2(i))
    ensures n % 2 == 1 && i == 1 ==> Flips(n, Pow2(1)) && n > Rounded(1) && n - Rounded(1) == n - 2
  {
    FlipMeansDivides(n, i);
    OddOrEven(n + 1, Pow2(i - 1));
    assert Pow2(0) == 1;
  }

  lemma OddOrEven(x: nat, p: nat)
    requires p > 0
    ensures x % 2 == 1 ==> x % (2 * p) != 0
  {
    if x % 2 == 1 { OddNotDivided(x, p); }
  }

  lemma OddIsDue(n: nat)
    requires n > 2 && n % 2 == 1
    ensures StepOf(n - 2) == n
  {
    assert Pow2(0) == 1;
  }

  /** Deleting an element from a vector: the later ones move down. */
  function Without(s: seq<nat>, c: nat): (t: seq<nat>)
    requires c in s
    ensures multiset(t) == multiset(s) - multiset{c}
  {
    assert s == [s[0]] + s[1..];
    if s[0] == c then s[1..] else [s[0]] + Without(s[1..], c)
  }

  lemma MembersOf(s: seq<nat>, c: nat)
    requires c in s && multiset(s)[c] <= 1
    ensures c !in Without(s, c) && forall d :: d in Without(s, c) <==> d in s && d != c
  {
    assert forall d :: d in Without(s, c) <==> d in multiset(Without(s, c));
    assert forall d :: d in s <==> d in multiset(s);
  }

  /** How the vectors belong together: a chosen checkpoint waits exactly as long as it is
      in use, and none is in two vectors or twice in one. */
  ghost predicate Filed(keep: seq<nat>, waiting: seq<nat>, chosen: seq<nat>, gone: seq<nat>) {
    && (forall c :: c in waiting ==> c in keep)
    && (forall c :: c in chosen || c in gone ==> c !in keep)
    && (forall c :: multiset(keep)[c] <= 1)
    && (forall c :: (multiset(waiting) + multiset(chosen) + multiset(gone))[c] <= 1)
  }

  lemma MovedBetween(w: multiset<nat>, ch: multiset<nat>, g: multiset<nat>, c: nat)
    requires c in w
    ensures (w - multiset{c}) + (ch + multiset{c}) == w + ch
    ensures (w - multiset{c}) + (ch + multiset{c}) + g == w + ch + g
  {
  }

  lemma ReleasedIsFiled(keep: seq<nat>, waiting: seq<nat>, chosen: seq<nat>, gone: seq<nat>, c: nat)
    requires Filed(keep, waiting, chosen, gone) && c in keep
    ensures c !in waiting ==> Filed(Without(keep, c), waiting, chosen, gone)
    ensures c in waiting ==> Filed(Without(keep, c), Without(waiting, c), chosen + [c], gone)
    ensures c in waiting ==>
              multiset(Without(waiting, c)) + multiset(chosen + [c]) == multiset(waiting) + multiset(chosen)
  {
    MembersOf(keep, c);
    if c in waiting {
      MovedIsFiled(keep, waiting, chosen, gone, c);
    }
  }

  lemma MovedIsFiled(keep: seq<nat>, waiting: seq<nat>, chosen: seq<nat>, gone: seq<nat>, c: nat)
    requires Filed(keep, waiting, chosen, gone) && c in keep && c in waiting
    ensures Filed(Without(keep, c), Without(waiting, c), chosen + [c], gone)
    ensures multiset(Without(waiting, c)) + multiset(chosen + [c]) == multiset(waiting) + multiset(chosen)
  {
    var all := multiset(waiting) + multiset(chosen) + multiset(gone);
    assert multiset(waiting)[c] <= all[c];
    MembersOf(keep, c);
    MembersOf(waiting, c);
    assert multiset(chosen + [c]) == multiset(chosen) + multiset{c};
    MovedBetween(multiset(waiting), multiset(chosen), multiset(gone), c);
  }

  lemma MarkedIsFiled(keep: seq<nat>, waiting: seq<nat>, chosen: seq<nat>, gone: seq<nat>, c: nat)
    requires Filed(keep, waiting, chosen, gone) && c !in waiting && c !in chosen && c !in gone
    ensures c in keep ==> Filed(keep, waiting + [c], chosen, gone)
    ensures c !in keep ==> Filed(keep, waiting, chosen + [c], gone)
  {
    var all := multiset(waiting) + multiset(chosen) + multiset(gone);
    assert all[c] == 0;
    assert multiset(waiting + [c]) + multiset(chosen) + multiset(gone) == all + multiset{c};
    assert multiset(waiting) + multiset(chosen + [c]) + multiset(gone) == all + multiset{c};
  }

  class Collector {
    var keep: seq<nat>          // in use
    var collectable: seq<nat>   // chosen, but in use
    var toCollect: seq<nat>     // chosen, not in use
    var collected: seq<nat>
    var lastGc: nat             // the checkpoint at which garbage was last collected

    ghost function Marks(): multiset<nat>
      reads this`collectable, this`toCollect, this`collected
    {
      multiset(collectable) + multiset(toCollect) + multiset(collected)
    }

    ghost predicate Sorted()
      reads this`keep, this`collectable, this`toCollect, this`collected
    {
      Filed(keep, collectable, toCollect, collected)
    }

    /** Exactly the checkpoints due by step `n` are marked, each once. */
    ghost predicate Valid(n: nat)
      reads this`keep, this`collectable, this`toCollect, this`collected
    {
      Sorted() && forall c :: Marks()[c] == if DueBy(c, n) then 1 else 0
    }

    constructor ()
      ensures Valid(lastGc) && lastGc == INITIAL_GLOBAL_SNAPSHOT && keep == []
    {
      keep, collectable, toCollect, collected := [], [], [], [];
      lastGc := INITIAL_GLOBAL_SNAPSHOT;
    }

    /** Somebody wants to use a checkpoint: too late once it is to be collected; dies if
        it is in use already. */
    method Keep(c: nat) returns (kept: bool, died: bool)
      requires Sorted()
      modifies this`keep
      ensures Sorted()
      ensures !kept && !died <==> c in toCollect || c in collected
      ensures died <==> c in old(keep)
      ensures keep == if kept then old(keep) + [c] else old(keep)
    {
      if c in toCollect || c in collected {
        return false, false;
      }
      if c in collectable || c in keep {
        return false, true;
      }
      keep := keep + [c];
      kept, died := true, false;
    }

    /** The checkpoint is no longer in use; if it was chosen meanwhile it can go now. */
    method Release(c: nat) returns (result: int)
      requires Sorted()
      modifies this`keep, this`collectable, this`toCollect
      ensures Sorted() && Marks() == old(Marks()) && c !in keep
      ensures result == if c in old(toCollect) || c in collected then -1 else if c in old(keep) || c == 0 then 0 else 1
      ensures keep == if c in old(keep) then Without(old(keep), c) else old(keep)
      ensures toCollect == if c in old(collectable) then old(toCollect) + [c] else old(toCollect)
    {
      if c in toCollect || c in collected {
        return -1;
      }
      if c !in keep {
        return if c == 0 then 0 else 1;
      }
      ReleasedIsFiled(keep, collectable, toCollect, collected, c);
      MembersOf(keep, c);
      keep := Without(keep, c);
      if c in collectable {
        collectable := Without(collectable, c);
        toCollect := toCollect + [c];
      }
      result := 0;
    }

    /** Files a chosen checkpoint; dies if it was chosen before. */
    method Mark(c: nat) returns (died: bool)
      requires Sorted()
      modifies this`collectable, this`toCollect
      ensures died == (old(Marks())[c] > 0) && Sorted()
      ensures Marks() == if died then old(Marks()) else old(Marks()) + multiset{c}
    {
      if c in collectable || c in toCollect || c in collected {
        return true;
      }
      MarkedIsFiled(keep, collectable, toCollect, collected, c);
      if c in keep {
        collectable := collectable + [c];
      } else {
        toCollect := toCollect + [c];
      }
      died := false;
    }

    /** Step `n` has looked at the bits below `i`. */
    ghost predicate Through(n: nat, i: nat)
      requires n > 0
      reads this`keep, this`collectable, this`toCollect, this`collected
    {
      Sorted() && MarkedBelow(Marks(), n, i)
    }

    /** Bit `i` of step `n` picks a checkpoint. */
    ghost predicate Picks(n: nat, i: nat)
      requires i >= 1
    {
      Flips(n, Pow2(i)) && n > Rounded(i)
    }

    lemma PickAtNewStep(n: nat, i: nat)
      requires n > 2 && i >= 1 && Through(n, i)
      ensures i <= 23 || n < FIRST_BAD ==>
                if Picks(n, i)
                then Marks()[n - Rounded(i)] == 0 && MarkedBelow(Marks() + multiset{n - Rounded(i)}, n, i + 1)
                else MarkedBelow(Marks(), n, i + 1)
      ensures i == 24 && n == FIRST_BAD ==> Picks(n, i) && Marks()[n - Rounded(i)] > 0
    {
      if i <= 23 || n < FIRST_BAD { PickFacts(Marks(), n, i); }
      if i == 24 && n == FIRST_BAD { BadPick(); }
    }

    lemma PickByParity(n: nat, i: nat)
      requires n > 2 && i >= 1
      ensures n % 2 == 0 ==> !Picks(n, i)
      ensures n % 2 == 1 && i == 1 ==> Picks(n, 1) && n - Rounded(1) == n - 2
    {
      StepParity(n, i);
    }

    /** Looks at one bit of one step and marks what it picks. */
    method PickAndMark(n: nat, position: nat, offset: nat, ghost i: nat) returns (died: bool)
      requires i >= 1 && position == Pow2(i) && offset == Rounded(i) && Sorted()
      modifies this`collectable, this`toCollect
      ensures Sorted()
      ensures died <==> Picks(n, i) && old(Marks())[n - Rounded(i)] > 0
      ensures Marks() == if Picks(n, i) && !died then old(Marks()) + multiset{n - Rounded(i)} else old(Marks())
    {
      died := false;
      if Flips(n, position) && n > offset {
        died := Mark(n - offset);
      }
    }

    /** One bit of one step. */
    method Pick(n: nat, position: nat, offset: nat, ghost i: nat) returns (died: bool)
      requires n > 2 && i >= 1 && position == Pow2(i) && offset == Rounded(i) && Sorted()
      modifies this`collectable, this`toCollect
      ensures Sorted()
      ensures old(Through(n, i)) && (i <= 23 || n < FIRST_BAD) ==> !died && Through(n, i + 1)
      ensures old(Through(n, i)) && i == 24 && n == FIRST_BAD ==> died
      ensures n % 2 == 0 ==> !died && Marks() == old(Marks())
      ensures n % 2 == 1 && i == 1 ==> (died <==> old(Marks())[n - 2] > 0)
    {
      PickByParity(n, i);
      if Through(n, i) { PickAtNewStep(n, i); }
      died := PickAndMark(n, position, offset, i);
    }

    /** Doubling and adding one in single precision. */
    method NextOffset(offset: nat, ghost i: nat) returns (o: nat)
      requires i >= 1 && offset == Rounded(i)
      ensures o == Rounded(i + 1)
    {
      o := Single(Single(offset * 2) + 1);
      NextIs(i + 1);
    }

    /** The loop over the bits of the counter, at a new step and at a repeated one. */
    method PickAll(n: nat) returns (died: bool)
      requires INITIAL_GLOBAL_SNAPSHOT < n <= FIRST_BAD && Sorted()
      modifies this`collectable, this`toCollect
      ensures Sorted()
      ensures old(Through(n, 1)) ==> (died <==> n == FIRST_BAD)
      ensures old(Through(n, 1)) && !died ==> Through(n, NUM_BITS)
      ensures n % 2 == 1 && old(Marks())[n - 2] > 0 ==> died
      ensures n % 2 == 0 ==> !died && Marks() == old(Marks())
    {
      var offset, position, i := 2, 2, 1;
      Pow2Values();
      ghost var anew, marks := Through(n, 1), Marks();
      while i < NUM_BITS
        invariant 1 <= i <= NUM_BITS && position == Pow2(i) && offset == Rounded(i) && Sorted()
        invariant anew ==> Through(n, i) && (n == FIRST_BAD ==> i <= 24)
        invariant i == 1 || n % 2 == 0 ==> Marks() == marks
        invariant i > 1 && n % 2 == 1 ==> marks[n - 2] == 0
      {
        died := Pick(n, position, offset, i);
        if died {
          return;
        }
        offset := NextOffset(offset, i);
        position := position * 2;
        i := i + 1;
      }
      died := false;
    }

    /** One step: the flipped bits of the counter pick earlier checkpoints. A new step
        dies at the first bad checkpoint, where rounding picks a marked one; a repeated
        step dies if it is odd, and does nothing if it is even. */
    method PerformTelescoping(n: nat, ghost performed: nat) returns (died: bool)
      requires INITIAL_GLOBAL_SNAPSHOT < n <= performed + 1 && performed < FIRST_BAD && Valid(performed)
      modifies this`collectable, this`toCollect
      ensures died <==> if n == performed + 1 then n == FIRST_BAD else n % 2 == 1
      ensures !died ==> Valid(if n == performed + 1 then n else performed)
    {
      if n <= performed && n % 2 == 1 { OddIsDue(n); }
      died := PickAll(n);
      if !died && n == performed + 1 {
        forall c { AllBitsSeen(n, c); }
      }
    }

    /** Runs all steps from the last garbage collection to the checkpoint just taken.
        Steps up to `performed` have been run before. */
    method Update(cpJustTaken: nat, ghost performed: nat) returns (died: bool)
      requires INITIAL_GLOBAL_SNAPSHOT <= lastGc <= performed < FIRST_BAD && Valid(performed)
      modifies this`collectable, this`toCollect
      ensures died <==> OddBehind(lastGc) <= Min(cpJustTaken, performed) || cpJustTaken >= FIRST_BAD
      ensures !died ==> Valid(if cpJustTaken > performed then cpJustTaken else performed)
    {
      var n := lastGc + 1;
      ghost var done := performed;
      while n <= cpJustTaken
        invariant lastGc < n <= FIRST_BAD && n <= done + 1 && done < FIRST_BAD && Valid(done)
        invariant n <= cpJustTaken + 1 || n == lastGc + 1
        invariant done == if n - 1 > performed then n - 1 else performed
        invariant OddBehind(lastGc) <= performed ==> n <= OddBehind(lastGc)
      {
        died := PerformTelescoping(n, done);
        if died {
          return;
        }
        if n == done + 1 { done := n; }
        n := n + 1;
      }
      died := false;
    }
  }

  function Min(a: nat, b: nat): nat {
    if a < b then a else b
  }

  /** Of the checkpoints taken so far only logarithmically many are not chosen. */
  lemma FewStayUnmarked(n: nat)
    requires n > INITIAL_GLOBAL_SNAPSHOT
    ensures |set c | INITIAL_GLOBAL_SNAPSHOT < c <= n && !DueBy(c, n)| <= 2 * (Log2(n) + 1)
  {
    var left := set c | INITIAL_GLOBAL_SNAPSHOT < c <= n && !DueBy(c, n);
    assert left <= Unmarked(n);
    SubsetSize(left, Unmarked(n));
    UnmarkedIsLogarithmic(n);
  }
}
