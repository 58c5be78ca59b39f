/** The modulus of the sequence hash, `2^61 - 1`, is prime: the Lucas-Lehmer argument over the ring
    of pairs `u + v * sqrt(3)`. The hash needs it: without zero divisors a difference of blocks
    cannot be hidden by its positional weight. */
module Mersenne {
  import opened Division

  const P: nat := 0x1FFF_FFFF_FFFF_FFFF

  // ---------------------------------------------------------------------------------------
  // Congruences
  // ---------------------------------------------------------------------------------------

  function Times(k: int, m: int): int {
    k * m
  }

  ghost predicate Cong(m: int, a: int, b: int) {
    exists k :: a - b == Times(k, m)
  }

  lemma CongSelf(m: int, a: int)
    ensures Cong(m, a, a)
  {
    assert a - a == Times(0, m);
  }

  lemma CongTrans(m: int, a: int, b: int, c: int)
    requires Cong(m, a, b) && Cong(m, b, c)
    ensures Cong(m, a, c)
  {
    var k, l :| a - b == Times(k, m) && b - c == Times(l, m);
    assert a - c == Times(k + l, m);
  }

  lemma CongAdd(m: int, a: int, b: int, c: int, d: int)
    requires Cong(m, a, b) && Cong(m, c, d)
    ensures Cong(m, a + c, b + d) && Cong(m, a - c, b - d)
  {
    var k, l :| a - b == Times(k, m) && c - d == Times(l, m);
    assert (a + c) - (b + d) == Times(k + l, m);
    assert (a - c) - (b - d) == Times(k - l, m);
  }

  lemma CongMul(m: int, a: int, b: int, c: int, d: int)
    requires Cong(m, a, b) && Cong(m, c, d)
    ensures Cong(m, a * c, b * d)
  {
    var k, l :| a - b == Times(k, m) && c - d == Times(l, m);
    assert a * c - b * d == (a - b) * c + b * (c - d);
    assert (a - b) * c + b * (c - d) == (k * c + b * l) * m;
    assert a * c - b * d == Times(k * c + b * l, m);
  }

  /** Congruence modulo a positive number is equality of remainders. */
  lemma CongIsMod(m: int, a: int, b: int)
    requires m > 0
    ensures Cong(m, a, b) <==> a % m == b % m
  {
    DivMod(a, m);
    DivMod(b, m);
    if a % m == b % m {
      assert a - b == (a / m) * m - (b / m) * m == (a / m - b / m) * m;
      assert a - b == Times(a / m - b / m, m);
    }
    if Cong(m, a, b) {
      var k :| a - b == Times(k, m);
      var d := a / m - b / m - k;
      assert d * m == (a / m) * m - (b / m) * m - k * m;
      assert d * m == b % m - a % m;
      SmallMultiple(d, m);
    }
  }

  // ---------------------------------------------------------------------------------------
  // Powers of 2 + sqrt(3)
  // ---------------------------------------------------------------------------------------

  /** `(2 + sqrt 3)^k == U(k) + V(k) * sqrt 3`. */
  function U(k: nat): int {
    if k == 0 then 1 else 2 * U(k - 1) + 3 * V(k - 1)
  }

  function V(k: nat): int {
    if k == 0 then 0 else U(k - 1) + 2 * V(k - 1)
  }

  lemma {:induction false} PowerSum(i: nat, j: nat)
    ensures U(i + j) == U(i) * U(j) + 3 * (V(i) * V(j))
    ensures V(i + j) == U(i) * V(j) + V(i) * U(j)
    decreases j
  {
    if j > 0 {
      PowerSum(i, j - 1);
      PowerSumStep(U(i), V(i), U(j - 1), V(j - 1));
      assert i + j - 1 == i + (j - 1);
    }
  }

  lemma PowerSumStep(u: int, v: int, x: int, y: int)
    ensures 2 * (u * x + 3 * (v * y)) + 3 * (u * y + v * x) == u * (2 * x + 3 * y) + 3 * (v * (x + 2 * y))
    ensures u * x + 3 * (v * y) + 2 * (u * y + v * x) == u * (x + 2 * y) + v * (2 * x + 3 * y)
  {
  }

  lemma {:induction false} Norm(k: nat)
    ensures U(k) * U(k) - 3 * (V(k) * V(k)) == 1
  {
    if k > 0 {
      Norm(k - 1);
      var u, v := U(k - 1), V(k - 1);
      assert (2 * u + 3 * v) * (2 * u + 3 * v) - 3 * ((u + 2 * v) * (u + 2 * v)) == u * u - 3 * (v * v);
    }
  }

  lemma Double(k: nat)
    ensures U(2 * k) == 2 * (U(k) * U(k)) - 1
    ensures V(2 * k) == 2 * U(k) * V(k)
  {
    hide U, V;
    PowerSum(k, k);
    Norm(k);
    assert k + k == 2 * k;
  }

  /** The `k`th power is `1`, or `-1`, modulo `q`. */
  ghost predicate IsOne(q: int, k: nat) {
    Cong(q, U(k), 1) && Cong(q, V(k), 0)
  }

  ghost predicate IsNegative(q: int, k: nat) {
    Cong(q, U(k), -1) && Cong(q, V(k), 0)
  }

  lemma SumOf(q: int, i: nat, j: nat, a: int, b: int)
    requires Cong(q, U(i), a) && Cong(q, V(i), 0) && Cong(q, U(j), b) && Cong(q, V(j), 0)
    ensures Cong(q, U(i + j), a * b) && Cong(q, V(i + j), 0)
  {
    hide U, V, Cong;
    PowerSum(i, j);
    CongMul(q, U(i), a, U(j), b);
    CongMul(q, V(i), 0, V(j), 0);
    CongSelf(q, 3);
    CongMul(q, 3, 3, V(i) * V(j), 0);
    CongAdd(q, U(i) * U(j), a * b, 3 * (V(i) * V(j)), 0);
    CongMul(q, U(i), a, V(j), 0);
    CongMul(q, V(i), 0, U(j), b);
    CongAdd(q, U(i) * V(j), a * 0, V(i) * U(j), 0 * b);
  }

  lemma {:induction false} OddMultiple(q: int, h: nat, m: nat)
    requires IsNegative(q, h) && m % 2 == 1
    ensures IsNegative(q, m * h)
  {
    hide U, V, Cong;
    if m > 1 {
      OddMultiple(q, h, m - 2);
      SumOf(q, h, h, -1, -1);
      SumOf(q, (m - 2) * h, h + h, -1, 1);
      assert m * h == (m - 2) * h + (h + h);
    } else {
      assert m * h == h;
    }
  }

  lemma {:induction false} EvenMultiples(q: int, d: nat, n: nat)
    requires IsOne(q, d)
    ensures IsOne(q, n * d)
  {
    hide Cong;
    if n == 0 {
      assert n * d == 0;
      CongSelf(q, 1);
      CongSelf(q, 0);
    } else {
      EvenMultiples(q, d, n - 1);
      hide U, V;
      SumOf(q, (n - 1) * d, d, 1, 1);
      assert n * d == (n - 1) * d + d;
    }
  }

  function Pow2(k: nat): nat {
    if k == 0 then 1 else 2 * Pow2(k - 1)
  }

  lemma {:induction false} Pow2Sum(a: nat, b: nat)
    ensures Pow2(a + b) == Pow2(a) * Pow2(b)
    decreases b
  {
    if b > 0 {
      Pow2Sum(a, b - 1);
      assert a + b - 1 == a + (b - 1);
    }
  }

  /** With `-1` at `2^t`, no exponent below `2^(t+1)` gives `1`. */
  lemma {:induction false} NotOne(q: int, t: nat, m: nat, a: nat)
    requires q > 2 && IsNegative(q, Pow2(t))
    requires 0 < m && a <= t && m * Pow2(a) < Pow2(t + 1)
    ensures !IsOne(q, m * Pow2(a))
    decreases m
  {
    hide U, V, Cong, IsOne, IsNegative;
    if m % 2 == 0 {
      assert m * Pow2(a) == (m / 2) * Pow2(a + 1);
      MultipleGrows(m / 2, Pow2(a + 1));
      assert a != t;
      NotOne(q, t, m / 2, a + 1);
    } else {
      OddNotOne(q, t, m, a);
    }
  }

  lemma OddNotOne(q: int, t: nat, m: nat, a: nat)
    requires q > 2 && IsNegative(q, Pow2(t)) && a <= t && m % 2 == 1
    ensures !IsOne(q, m * Pow2(a))
  {
    hide U, V, Cong, Pow2;
    if IsOne(q, m * Pow2(a)) {
      Pow2Sum(a, t - a);
      assert a + (t - a) == t;
      assert Pow2(t - a) * (m * Pow2(a)) == m * (Pow2(a) * Pow2(t - a));
      EvenMultiples(q, m * Pow2(a), Pow2(t - a));
      OddMultiple(q, Pow2(t), m);
      OneIsNotNegative(q, U(m * Pow2(t)));
    }
  }

  lemma OneIsNotNegative(q: int, u: int)
    requires q > 2
    ensures !Cong(q, u, 1) || !Cong(q, u, -1)
  {
    CongIsMod(q, u, 1);
    CongIsMod(q, u, -1);
    DivUnique(-1, q, -1);
    DivUnique(1, q, 0);
  }

  // ---------------------------------------------------------------------------------------
  // Too many powers for a small divisor
  // ---------------------------------------------------------------------------------------

  /** The `k`th power modulo `q`, as one number below `q * q`. */
  function Code(q: int, k: nat): (c: int)
    requires q > 0
    ensures 0 <= c < q * q
  {
    DivMod(U(k), q);
    DivMod(V(k), q);
    CodeInRange(q, U(k) % q, V(k) % q);
    U(k) % q * q + V(k) % q
  }

  lemma CodeInRange(q: int, a: int, b: int)
    requires 0 <= a < q && 0 <= b < q
    ensures 0 <= a * q + b < q * q
  {
    assert a * q >= 0;
    assert (q - 1 - a) * q >= 0;
  }

  lemma CodeInjective(q: int, a: int, b: int, c: int, d: int)
    requires 0 <= b < q && 0 <= d < q && a * q + b == c * q + d
    ensures a == c && b == d
  {
    assert (a - c) * q == d - b;
    SmallMultiple(a - c, q);
  }

  /** Two equal powers make their quotient `1`. */
  lemma EqualPowers(q: int, i: nat, n: nat)
    requires Cong(q, U(i + n), U(i)) && Cong(q, V(i + n), V(i))
    ensures IsOne(q, n)
  {
    hide U, V, Cong;
    PowerSum(n, i);
    Norm(i);
    var u, v, x, y := U(i), V(i), U(n), V(n);
    Cancel(u, v, x, y);
    CongSelf(q, u);
    CongSelf(q, v);
    CongMul(q, U(i + n), u, u, u);
    CongMul(q, V(i + n), v, v, v);
    CongSelf(q, 3);
    CongMul(q, 3, 3, V(i + n) * v, v * v);
    CongAdd(q, U(i + n) * u, u * u, 3 * (V(i + n) * v), 3 * (v * v));
    CongMul(q, V(i + n), v, u, u);
    CongMul(q, U(i + n), u, v, v);
    CongAdd(q, V(i + n) * u, v * u, U(i + n) * v, u * v);
  }

  lemma Cancel(u: int, v: int, x: int, y: int)
    requires u * u - 3 * (v * v) == 1
    ensures (x * u + 3 * (y * v)) * u - 3 * ((x * v + y * u) * v) == x
    ensures (x * v + y * u) * u - (x * u + 3 * (y * v)) * v == y
  {
  }

  ghost function Codes(q: int, n: nat): set<int>
    requires q > 0
  {
    if n == 0 then {} else Codes(q, n - 1) + {Code(q, n - 1)}
  }

  lemma {:induction false} CodesMembers(q: int, n: nat)
    requires q > 0
    ensures forall c :: c in Codes(q, n) ==> 0 <= c < q * q
    ensures forall c :: c in Codes(q, n) ==> exists i: nat :: i < n && Code(q, i) == c
  {
    hide Code;
    if n > 0 {
      CodesMembers(q, n - 1);
    }
  }

  lemma {:induction false} CodesDistinct(q: int, n: nat, t: nat)
    requires q > 2 && IsNegative(q, Pow2(t)) && n <= Pow2(t + 1)
    ensures |Codes(q, n)| == n
    decreases n
  {
    hide Code, U, V, Cong, IsNegative, Pow2;
    if n > 0 {
      CodesDistinct(q, n - 1, t);
      CodesMembers(q, n - 1);
      if Code(q, n - 1) in Codes(q, n - 1) {
        var i: nat :| i < n - 1 && Code(q, i) == Code(q, n - 1);
        EqualCodes(q, i, n - 1 - i);
        Pow2Zero();
        assert (n - 1 - i) * Pow2(0) == n - 1 - i;
        NotOne(q, t, n - 1 - i, 0);
        assert false;
      }
    }
  }

  lemma Pow2Zero()
    ensures Pow2(0) == 1
  {
  }

  lemma EqualCodes(q: int, i: nat, n: nat)
    requires q > 0 && Code(q, i) == Code(q, i + n)
    ensures IsOne(q, n)
  {
    hide U, V;
    DivMod(U(i), q);
    DivMod(V(i), q);
    DivMod(U(i + n), q);
    DivMod(V(i + n), q);
    CodeInjective(q, U(i) % q, V(i) % q, U(i + n) % q, V(i + n) % q);
    CongIsMod(q, U(i + n), U(i));
    CongIsMod(q, V(i + n), V(i));
    EqualPowers(q, i, n);
  }

  lemma {:induction false} BoundedSet(s: set<int>, m: nat)
    requires forall c :: c in s ==> 0 <= c < m
    ensures |s| <= m
    decreases m
  {
    if m == 0 {
      forall c: int
        ensures c !in s
      {
      }
      assert s == {};
    } else {
      BoundedSet(s - {m - 1}, m - 1);
      assert m - 1 in s ==> s == (s - {m - 1}) + {m - 1};
      assert m - 1 !in s ==> s - {m - 1} == s;
    }
  }

  /** A divisor that sees `-1` at `2^t` has a square of at least `2^(t+1)`. */
  lemma DivisorIsLarge(q: int, t: nat)
    requires q > 2 && IsNegative(q, Pow2(t))
    ensures q * q >= Pow2(t + 1)
  {
    hide Codes, IsNegative, Pow2;
    CodesDistinct(q, Pow2(t + 1), t);
    CodesMembers(q, Pow2(t + 1));
    assert q * q >= 0;
    BoundedSet(Codes(q, Pow2(t + 1)), q * q);
  }

  // ---------------------------------------------------------------------------------------
  // The Lucas-Lehmer sequence of `2^61 - 1`
  // ---------------------------------------------------------------------------------------

  /** Step `i` of the sequence `4, s * s - 2, ...` is `s` modulo `P`. */
  ghost predicate Lucas(i: nat, s: int) {
    Cong(P, 2 * U(Pow2(i)), s)
  }

  lemma Next(i: nat, s: int, t: int)
    requires Lucas(i, s) && (s * s - 2) % P == t
    ensures Lucas(i + 1, t)
  {
    hide Cong, U, V;
    var u := U(Pow2(i));
    Double(Pow2(i));
    CongMul(P, 2 * u, s, 2 * u, s);
    CongSelf(P, 2);
    CongAdd(P, 2 * u * (2 * u), s * s, 2, 2);
    assert 2 * U(Pow2(i + 1)) == 2 * u * (2 * u) - 2;
    assert t % P == t;
    CongIsMod(P, s * s - 2, t);
    CongTrans(P, 2 * U(Pow2(i + 1)), s * s - 2, t);
  }

  lemma LucasFirst()
    ensures Lucas(20, 1762244237164037571)
  {
    hide Lucas;
    LucasStart();
    Next(0, 4, 14);
    Next(1, 14, 194);
    Next(2, 194, 37634);
    Next(3, 37634, 1416317954);
    Next(4, 1416317954, 2005956546822746114);
    Next(5, 2005956546822746114, 360360107812989935);
    Next(6, 360360107812989935, 21902747593568545);
    Next(7, 21902747593568545, 1740602589084945420);
    Next(8, 1740602589084945420, 1337198076820436604);
    Next(9, 1337198076820436604, 2247350346121565718);
    Next(10, 2247350346121565718, 83171871456026787);
    Next(11, 83171871456026787, 582723273476042577);
    Next(12, 582723273476042577, 389768199659558512);
    Next(13, 389768199659558512, 1660083560587298637);
    Next(14, 1660083560587298637, 1309051187682605027);
    Next(15, 1309051187682605027, 2060268568186095243);
    Next(16, 2060268568186095243, 1727984905136219803);
    Next(17, 1727984905136219803, 1123503237312787381);
    Next(18, 1123503237312787381, 720442006828744208);
    Next(19, 720442006828744208, 1762244237164037571);
  }

  lemma LucasSecond()
    requires Lucas(20, 1762244237164037571)
    ensures Lucas(40, 526190922173809863)
  {
    hide Lucas;
    Next(20, 1762244237164037571, 675035788244419149);
    Next(21, 675035788244419149, 403242138936649547);
    Next(22, 403242138936649547, 23218429299703654);
    Next(23, 23218429299703654, 2303338777166369587);
    Next(24, 2303338777166369587, 1807999318695779203);
    Next(25, 1807999318695779203, 2117213806962939560);
    Next(26, 2117213806962939560, 608422148964310898);
    Next(27, 608422148964310898, 1994472770237557072);
    Next(28, 1994472770237557072, 505071132657882993);
    Next(29, 505071132657882993, 1458686264893839860);
    Next(30, 1458686264893839860, 828943682511799464);
    Next(31, 828943682511799464, 1873899805900111440);
    Next(32, 1873899805900111440, 2100166639529159434);
    Next(33, 2100166639529159434, 1690337638073925992);
    Next(34, 1690337638073925992, 1850462809098646917);
    Next(35, 1850462809098646917, 655691867230185654);
    Next(36, 655691867230185654, 1312985360173846259);
    Next(37, 1312985360173846259, 555029261697599761);
    Next(38, 555029261697599761, 361044435199227874);
    Next(39, 361044435199227874, 526190922173809863);
  }

  lemma LucasThird()
    requires Lucas(40, 526190922173809863)
    ensures Lucas(59, 0)
  {
    hide Lucas;
    Next(40, 526190922173809863, 1323436870952128874);
    Next(41, 1323436870952128874, 891169157258972721);
    Next(42, 891169157258972721, 185842366834216629);
    Next(43, 185842366834216629, 222804261526276637);
    Next(44, 222804261526276637, 991039614021822014);
    Next(45, 991039614021822014, 481713520561357424);
    Next(46, 481713520561357424, 1344980214107405881);
    Next(47, 1344980214107405881, 1970899971015200366);
    Next(48, 1970899971015200366, 1072613472477948613);
    Next(49, 1072613472477948613, 1908660977355480791);
    Next(50, 1908660977355480791, 863790468803724241);
    Next(51, 863790468803724241, 2198539655050736259);
    Next(52, 2198539655050736259, 1534797684548241153);
    Next(53, 1534797684548241153, 257154353612781495);
    Next(54, 257154353612781495, 2098355710732986488);
    Next(55, 2098355710732986488, 1394647967359914492);
    Next(56, 1394647967359914492, 1080792493261747995);
    Next(57, 1080792493261747995, 2147483648);
    Next(58, 2147483648, 0);
  }

  lemma LucasStart()
    ensures Lucas(0, 4)
  {
    assert U(0) == 1 && V(0) == 0;
    assert U(1) == 2;
    Pow2Zero();
    CongSelf(P, 4);
  }

  // ---------------------------------------------------------------------------------------
  // Primality, and what it gives
  // ---------------------------------------------------------------------------------------

  lemma DivisorSeesNegative(q: int, e: int)
    requires e * q == P
    ensures IsNegative(q, Pow2(60))
  {
    LucasFirst();
    LucasSecond();
    LucasThird();
    LastStep(q, e, 59);
  }

  lemma LastStep(q: int, e: int, t: nat)
    requires e * q == P && Lucas(t, 0)
    ensures IsNegative(q, Pow2(t + 1))
  {
    hide U, V;
    var h := Pow2(t);
    var k :| 2 * U(h) - 0 == Times(k, P);
    assert k * (e * q) == (k * e) * q;
    assert 2 * U(h) == (k * e) * q;
    Double(h);
    assert 2 * U(h) * U(h) == (k * e * U(h)) * q by {
      assert (k * e) * q * U(h) == (k * e * U(h)) * q;
    }
    assert U(2 * h) - -1 == Times(k * e * U(h), q);
    assert 2 * U(h) * V(h) == (k * e * V(h)) * q by {
      assert (k * e) * q * V(h) == (k * e * V(h)) * q;
    }
    assert V(2 * h) - 0 == Times(k * e * V(h), q);
  }

  lemma Pow2Of61()
    ensures Pow2(61) == P + 1
  {
    Pow2Sum(30, 31);
    Pow2Sum(30, 1);
    Pow2Sum(20, 10);
    Pow2Sum(10, 10);
    assert Pow2(10) == 1024;
  }

  /** `2^61 - 1` has no divisor but one and itself. */
  lemma PrimeModulus(a: nat, b: nat)
    requires a * b == P
    ensures a == 1 || b == 1
  {
    if a != 1 && b != 1 {
      var q, e := if a <= b then a else b, if a <= b then b else a;
      assert e * q == P && q <= e;
      assert q > 2 by {
        assert q == 0 ==> e * q == 0;
        assert q == 2 ==> e * q == 2 * e;
      }
      assert q * q <= e * q by { assert (e - q) * q >= 0; }
      DivisorSeesNegative(q, e);
      hide IsNegative;
      DivisorIsLarge(q, 60);
      Pow2Of61();
      assert false;
    }
  }

  /** A common divisor of both numbers that is a combination of them. */
  lemma {:induction false} Bezout(a: nat, b: nat) returns (g: nat, x: int, y: int, c: nat, d: nat)
    requires a + b > 0
    ensures x * a + y * b == g && c * g == a && d * g == b
    decreases b
  {
    if b == 0 {
      g, x, y, c, d := a, 1, 0, 1, 0;
    } else {
      DivMod(a, b);
      var g', x', y', c', d' := Bezout(b, a % b);
      var k := a / b;
      g, x, y, c, d := g', y', x' - k * y', k * c' + d', c';
      assert y' * a + (x' - k * y') * b == x' * b + y' * (a - k * b);
      assert (k * c' + d') * g == k * (c' * g) + d' * g;
    }
  }

  /** No zero divisors: a product that vanishes modulo `P` has a factor that does. */
  lemma NoZeroDivisors(a: int, b: int)
    requires Cong(P, a * b, 0)
    ensures Cong(P, a, 0) || Cong(P, b, 0)
  {
    var r := a % P;
    DivMod(a, P);
    var g, x, y, c, d := Bezout(r, P);
    PrimeModulus(d, g);
    if d == 1 {
      assert a == Times(a / P + c, P) by { assert r == c * P; }
    } else {
      Invert(a, b, r, x, y);
    }
  }

  lemma Invert(a: int, b: int, r: int, x: int, y: int)
    requires Cong(P, a * b, 0) && a == (a / P) * P + r && x * r + y * P == 1
    ensures Cong(P, b, 0)
  {
    var k :| a * b - 0 == Times(k, P);
    var n := a / P;
    assert x * a == 1 - y * P + x * n * P;
    assert x * (a * b) == b * (x * a);
    assert b * (1 - y * P + x * n * P) == b - b * y * P + b * x * n * P;
    assert x * (k * P) == x * k * P;
    assert b - 0 == Times(x * k + b * y - b * x * n, P);
  }
}
