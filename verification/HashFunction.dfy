/** How the hash function spreads keys. */
module HashFunction {
  import opened HashTable

  ghost predicate Divides(d: int, n: int) {
    exists m: int :: n == d * m
  }

  ghost predicate Coprime(a: nat, p: nat) {
    forall d: nat :: Divides(d, a) && Divides(d, p) ==> d == 1
  }

  // ---------------------------------------------------------------------------
  // Remainders
  // ---------------------------------------------------------------------------

  lemma DividesSum(d: int, m: int, n: int, k: int)
    requires Divides(d, m) && Divides(d, n)
    ensures Divides(d, m + n) && Divides(d, m * k)
  {
    var i: int :| m == d * i;
    var j: int :| n == d * j;
    assert m + n == d * (i + j) && m * k == d * (i * k);
  }

  lemma RemainderIs(n: int, q: int, d: nat, r: nat)
    requires n == d * q + r && r < d
    ensures n % d == r
  {
    Multiple(d, n / d - q);
    assert d * (n / d - q) == r - n % d;
  }

  /** No multiple of `d` but zero lies within `d` of zero. */
  lemma Multiple(d: nat, k: int)
    ensures k == 0 || d * k >= d || d * k + d <= 0
  {
  }

  lemma SameRemainder(m: int, n: int, d: nat)
    requires d > 0
    ensures m % d == n % d <==> Divides(d, m - n)
  {
    if m % d == n % d {
      assert m - n == d * (m / d - n / d);
    }
    if k: int :| m - n == d * k {
      assert m == d * (n / d + k) + n % d;
      RemainderIs(m, n / d + k, d, n % d);
    }
  }

  lemma AddToRemainder(m: int, a: int, d: nat)
    requires d > 0
    ensures (m + a) % d == (m % d + a) % d
  {
    assert (m + a) - (m % d + a) == d * (m / d);
    SameRemainder(m + a, m % d + a, d);
  }

  lemma DividesDividend(d: int, a: int, q: int, r: int)
    requires Divides(d, a) && Divides(d, r)
    ensures Divides(d, a * q + r)
  {
    DividesSum(d, a, a, q);
    DividesSum(d, a * q, r, 1);
  }

  lemma CoprimeRemainder(a: nat, q: nat, r: nat)
    requires Coprime(a, a * q + r)
    ensures Coprime(r, a)
  {
    forall d: nat | Divides(d, r) && Divides(d, a) ensures d == 1 {
      DividesDividend(d, a, q, r);
    }
  }

  lemma BezoutStep(a: int, q: int, r: int, x: int, y: int)
    requires x * r + y * a == 1
    ensures (y - x * q) * a + x * (a * q + r) == 1
  {
    assert (y - x * q) * a == y * a - x * q * a;
    assert x * (a * q + r) == x * q * a + x * r;
  }

  /** Some multiple of `a` leaves the remainder one. */
  lemma {:induction false} Bezout(a: nat, p: nat) returns (u: int, v: int)
    requires Coprime(a, p) && p > 0
    ensures u * a + v * p == 1
    decreases a
  {
    if a == 0 {
      assert a == p * 0 && p == p * 1;
      assert Divides(p, a) && Divides(p, p);
      u, v := 0, 1;
    } else {
      var q, r := p / a, p % a;
      assert p == a * q + r;
      CoprimeRemainder(a, q, r);
      var x, y := Bezout(r, a);
      BezoutStep(a, q, r, x, y);
      u, v := y - x * q, x;
    }
  }

  /** Euclid's lemma. */
  lemma DividesFactor(a: nat, p: nat, k: int)
    requires Coprime(a, p) && p > 0
    ensures Divides(p, a * k) <==> Divides(p, k)
  {
    if Divides(p, k) {
      DividesSum(p, k, k, a);
    }
    if Divides(p, a * k) {
      var u, v := Bezout(a, p);
      var m: int :| a * k == p * m;
      FactorIs(a, p, k, u, v, m);
    }
  }

  lemma FactorIs(a: int, p: int, k: int, u: int, v: int, m: int)
    requires u * a + v * p == 1 && a * k == p * m
    ensures k == p * (u * m + v * k)
  {
    calc {
      k;
      (u * a + v * p) * k;
      u * (a * k) + v * p * k;
      u * (p * m) + v * p * k;
      p * (u * m + v * k);
    }
  }

  // ---------------------------------------------------------------------------
  // Buckets
  // ---------------------------------------------------------------------------

  /** The sum fits into 64 bits. */
  predicate Fits(f: Coefficients, key: nat) {
    f.a * key + f.b < U64
  }

  lemma HashOf(f: Coefficients, len: nat, key: nat, n: nat)
    requires f.p > 0 && len > 0 && n == f.a * key + f.b
    ensures Hash(f, len, key) == n % U64 % f.p % len
  {
  }

  lemma Once(n: int, d: nat)
    requires d > 0
    ensures n % d % d == n % d
  {
    RemainderIs(n % d, 0, d, n % d);
  }

  lemma Small(n: nat, d: nat)
    requires n < d
    ensures n % d == n
  {
    RemainderIs(n, 0, d, n);
  }

  lemma NextKey(f: Coefficients, key: nat)
    ensures f.a * (key + 1) + f.b == f.a * key + f.b + f.a
  {
  }

  lemma WordHash(f: Coefficients, key: nat, n: nat)
    requires n == f.a * key + f.b
    ensures Hash(f.(p := U64), U64, key) == n % U64
  {
    HashOf(f.(p := U64), U64, key, n);
    Once(n, U64);
  }

  /** In 64-bit arithmetic alone neighbouring keys lie `a` apart. */
  lemma WordSteps(f: Coefficients, key: nat)
    ensures Hash(f.(p := U64), U64, 0) == f.b % U64
    ensures Hash(f.(p := U64), U64, key + 1) == (Hash(f.(p := U64), U64, key) + f.a) % U64
  {
    WordHash(f, 0, f.b);
    WordStep(f, key, f.a * key + f.b);
  }

  lemma WordStep(f: Coefficients, key: nat, n: nat)
    requires n == f.a * key + f.b
    ensures Hash(f.(p := U64), U64, key + 1) == (Hash(f.(p := U64), U64, key) + f.a) % U64
  {
    NextKey(f, key);
    WordHash(f, key, n);
    WordHash(f, key + 1, n + f.a);
    AddToRemainder(n, f.a, U64);
  }

  /** The modulus, then the length of the table, folds that. */
  lemma HashFolds(f: Coefficients, len: nat, key: nat)
    requires f.p > 0 && len > 0
    ensures Hash(f, f.p, key) == Hash(f.(p := U64), U64, key) % f.p
    ensures Hash(f, len, key) == Hash(f, f.p, key) % len
  {
    var n := f.a * key + f.b;
    HashOf(f, f.p, key, n);
    HashOf(f, len, key, n);
    HashOf(f.(p := U64), U64, key, n);
    Once(n % U64, f.p);
    Once(n, U64);
  }

  lemma FittingHash(f: Coefficients, key: nat, n: nat)
    requires f.p > 0 && Fits(f, key) && n == f.a * key + f.b
    ensures Hash(f, f.p, key) == n % f.p
  {
    HashOf(f, f.p, key, n);
    Small(n, U64);
    Once(n, f.p);
  }

  /** As long as the sum fits, neighbouring keys lie `a` apart round the modulus. */
  lemma HashSteps(f: Coefficients, key: nat)
    requires f.p > 0
    ensures Fits(f, 0) ==> Hash(f, f.p, 0) == f.b % f.p
    ensures Fits(f, key + 1) ==> Hash(f, f.p, key + 1) == (Hash(f, f.p, key) + f.a) % f.p
  {
    if Fits(f, 0) { FittingHash(f, 0, f.b); }
    if Fits(f, key + 1) {
      var n := f.a * key + f.b;
      NextKey(f, key);
      FittingHash(f, key, n);
      FittingHash(f, key + 1, n + f.a);
      AddToRemainder(n, f.a, f.p);
    }
  }

  lemma SameSums(a: nat, b: nat, p: nat, x: nat, y: nat)
    requires p > 0 && Coprime(a, p)
    ensures (a * x + b) % p == (a * y + b) % p <==> x % p == y % p
  {
    SameRemainder(a * x + b, a * y + b, p);
    assert a * x + b - (a * y + b) == a * (x - y);
    DividesFactor(a, p, x - y);
    SameRemainder(x, y, p);
  }

  /** In a table of at least `p` buckets two keys share one exactly if they differ by a
      multiple of `p`, unless the sum wraps round. */
  lemma CollidesExactly(f: Coefficients, len: nat, x: nat, y: nat)
    requires 0 < f.p <= len && Coprime(f.a, f.p) && Fits(f, x) && Fits(f, y)
    ensures Hash(f, len, x) == Hash(f, len, y) <==> x % f.p == y % f.p
  {
    FittingHash(f, x, f.a * x + f.b);
    FittingHash(f, y, f.a * y + f.b);
    SameSums(f.a, f.b, f.p, x, y);
    LongTable(f, len, x);
    LongTable(f, len, y);
  }

  /** So no two keys below `p` do. */
  lemma SmallKeysApart(f: Coefficients, len: nat, x: nat, y: nat)
    requires 0 < f.p <= len && Coprime(f.a, f.p) && Fits(f, x) && Fits(f, y)
    requires x < f.p && y < f.p && x != y
    ensures Hash(f, len, x) != Hash(f, len, y)
  {
    CollidesExactly(f, len, x, y);
    Small(x, f.p);
    Small(y, f.p);
  }

  lemma LongTable(f: Coefficients, len: nat, key: nat)
    requires 0 < f.p <= len
    ensures Hash(f, len, key) == Hash(f, f.p, key)
  {
    HashFolds(f, len, key);
    Small(Hash(f, f.p, key), len);
  }
}
