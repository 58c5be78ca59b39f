/** The benchmark design: task orders are rotations of `0..n`, and a square of orders is Latin when
    every task is once in every order and once at every position. */
module LatinSquare {
  import opened Division

  type Line = seq<nat>

  /** Every number below `n` is in the line exactly once, and nothing else is. */
  ghost predicate Permutation(line: Line, n: nat) {
    |line| == n && forall v: nat :: v < n ==> v in line && multiset(line)[v] == 1
  }

  function Column(square: seq<Line>, col: nat): Line
    requires forall r :: 0 <= r < |square| ==> col < |square[r]|
  {
    seq(|square|, r requires 0 <= r < |square| => square[r][col])
  }

  ghost predicate SquareOf(square: seq<Line>, n: nat) {
    |square| == n && forall r :: 0 <= r < n ==> |square[r]| == n
  }

  ghost predicate Latin(square: seq<Line>) {
    var n := |square|;
    && n > 0 && SquareOf(square, n)
    && (forall r :: 0 <= r < n ==> Permutation(square[r], n))
    && (forall c :: 0 <= c < n ==> Permutation(Column(square, c), n))
  }

  // ---------------------------------------------------------------------------------------
  // Distinct entries below n are a permutation
  // ---------------------------------------------------------------------------------------

  predicate Distinct(line: Line, n: nat) {
    && (forall i :: 0 <= i < |line| ==> line[i] < n)
    && (forall i, j :: 0 <= i < j < |line| ==> line[i] != line[j])
  }

  function Elements(line: Line): set<nat> {
    if line == [] then {} else Elements(line[..|line| - 1]) + {line[|line| - 1]}
  }

  function Below(n: nat): set<nat> {
    if n == 0 then {} else Below(n - 1) + {n - 1}
  }

  lemma {:induction false} BelowMembers(n: nat)
    ensures |Below(n)| == n && forall v: nat :: v in Below(n) <==> v < n
  {
    if n > 0 {
      BelowMembers(n - 1);
    }
  }

  lemma {:induction false} ElementsMembers(line: Line)
    ensures |Elements(line)| <= |line| && forall v :: v in Elements(line) <==> v in line
    ensures (forall i, j :: 0 <= i < j < |line| ==> line[i] != line[j]) ==> |Elements(line)| == |line|
    decreases |line|
  {
    if line != [] {
      var init := line[..|line| - 1];
      ElementsMembers(init);
      assert line == init + [line[|line| - 1]];
    }
  }

  lemma SameSize(a: set<nat>, b: set<nat>)
    requires a <= b && |a| == |b|
    ensures a == b
  {
    assert |b - a| == |b| - |a|;
  }

  lemma {:induction false} OnceEach(line: Line)
    requires forall i, j :: 0 <= i < j < |line| ==> line[i] != line[j]
    ensures forall v :: v in line ==> multiset(line)[v] == 1
    decreases |line|
  {
    if line != [] {
      var init, last := line[..|line| - 1], line[|line| - 1];
      OnceEach(init);
      assert line == init + [last];
      assert last !in multiset(init);
    }
  }

  lemma TwiceIsTwice(line: Line, i: nat, j: nat)
    requires i < j < |line| && line[i] == line[j]
    ensures multiset(line)[line[i]] >= 2
  {
    assert line == line[..j] + line[j..];
    assert line[i] == line[..j][i] && line[j] == line[j..][0];
    assert line[i] in multiset(line[..j]) && line[i] in multiset(line[j..]);
  }

  /** The running check and the counting definition agree. */
  lemma PermutationExactly(line: Line, n: nat)
    ensures Permutation(line, n) <==> |line| == n && Distinct(line, n)
  {
    ElementsMembers(line);
    BelowMembers(n);
    if |line| == n && Distinct(line, n) {
      SameSize(Elements(line), Below(n));
      OnceEach(line);
    }
    if Permutation(line, n) {
      assert Below(n) <= Elements(line);
      Sizes(Below(n), Elements(line));
      SameSize(Below(n), Elements(line));
      forall i, j | 0 <= i < j < |line|
        ensures line[i] != line[j]
      {
        assert line[i] in Below(n);
        if line[i] == line[j] {
          TwiceIsTwice(line, i, j);
        }
      }
      forall i | 0 <= i < |line|
        ensures line[i] < n
      {
        assert line[i] in Below(n);
      }
    }
  }

  lemma Sizes(a: set<nat>, b: set<nat>)
    requires a <= b
    ensures |a| <= |b|
  {
    assert |b - a| == |b| - |a|;
  }

  // ---------------------------------------------------------------------------------------
  // The decision
  // ---------------------------------------------------------------------------------------

  method Clear(seen: array<bool>)
    modifies seen
    ensures forall v :: 0 <= v < seen.Length ==> !seen[v]
  {
    for i := 0 to seen.Length
      invariant forall v :: 0 <= v < i ==> !seen[v]
    {
      seen[i] := false;
    }
  }

  /** Mark a value; report whether it was already marked. */
  method Replace(seen: array<bool>, v: nat) returns (was: bool)
    requires v < seen.Length
    modifies seen
    ensures was == old(seen[v])
    ensures forall u :: 0 <= u < seen.Length ==> seen[u] == (u == v || old(seen[u]))
  {
    was := seen[v];
    seen[v] := true;
  }

  method RowOk(seen: array<bool>, row: Line) returns (ok: bool)
    modifies seen
    ensures ok <==> Distinct(row, seen.Length)
  {
    Clear(seen);
    for i := 0 to |row|
      invariant Distinct(row[..i], seen.Length)
      invariant forall v :: 0 <= v < seen.Length ==> (seen[v] <==> v in row[..i])
    {
      assert row[..i + 1] == row[..i] + [row[i]];
      if row[i] >= seen.Length {
        return false;
      }
      var was := Replace(seen, row[i]);
      if was {
        var k :| 0 <= k < i && row[..i][k] == row[i];
        return false;
      }
    }
    assert row[..|row|] == row;
    return true;
  }

  method ColumnOk(seen: array<bool>, square: seq<Line>, col: nat) returns (ok: bool)
    requires forall r :: 0 <= r < |square| ==> col < |square[r]| && square[r][col] < seen.Length
    modifies seen
    ensures ok <==> Distinct(Column(square, col), seen.Length)
  {
    ghost var line := Column(square, col);
    Clear(seen);
    for i := 0 to |square|
      invariant Distinct(line[..i], seen.Length)
      invariant forall v :: 0 <= v < seen.Length ==> (seen[v] <==> v in line[..i])
    {
      assert line[..i + 1] == line[..i] + [line[i]];
      var v := square[i][col];
      var was := Replace(seen, v);
      if was {
        ghost var k :| 0 <= k < i && line[..i][k] == line[i];
        return false;
      }
    }
    assert line[..|line|] == line;
    return true;
  }

  method RowsOk(seen: array<bool>, square: seq<Line>) returns (ok: bool)
    modifies seen
    ensures ok <==> forall r :: 0 <= r < |square| ==> Distinct(square[r], seen.Length)
  {
    for r := 0 to |square|
      invariant forall k :: 0 <= k < r ==> Distinct(square[k], seen.Length)
    {
      ok := RowOk(seen, square[r]);
      if !ok {
        return;
      }
    }
    return true;
  }

  method ColumnsOk(seen: array<bool>, square: seq<Line>) returns (ok: bool)
    requires SquareOf(square, seen.Length)
    requires forall r :: 0 <= r < |square| ==> Distinct(square[r], seen.Length)
    modifies seen
    ensures ok <==> forall c :: 0 <= c < seen.Length ==> Distinct(Column(square, c), seen.Length)
  {
    for col := 0 to seen.Length
      invariant forall k :: 0 <= k < col ==> Distinct(Column(square, k), seen.Length)
    {
      ok := ColumnOk(seen, square, col);
      if !ok {
        return;
      }
    }
    return true;
  }

  /** True exactly for the non-empty Latin squares; ragged or out-of-range input is refused. */
  method IsLatinSquare(square: seq<Line>) returns (ok: bool)
    ensures ok <==> Latin(square)
  {
    var n := |square|;
    if n == 0 || exists r :: 0 <= r < n && |square[r]| != n {
      return false;
    }
    LatinExactly(square);
    var seen := new bool[n](i => false);
    ok := RowsOk(seen, square);
    if ok {
      ok := ColumnsOk(seen, square);
    }
  }

  lemma LatinExactly(square: seq<Line>)
    requires SquareOf(square, |square|)
    ensures Latin(square) <==>
            && |square| > 0
            && (forall r :: 0 <= r < |square| ==> Distinct(square[r], |square|))
            && (forall c :: 0 <= c < |square| ==> Distinct(Column(square, c), |square|))
  {
    hide Permutation, Distinct;
    forall r | 0 <= r < |square|
      ensures Permutation(square[r], |square|) <==> Distinct(square[r], |square|)
    {
      PermutationExactly(square[r], |square|);
    }
    forall c | 0 <= c < |square|
      ensures Permutation(Column(square, c), |square|) <==> Distinct(Column(square, c), |square|)
    {
      PermutationExactly(Column(square, c), |square|);
    }
  }

  // ---------------------------------------------------------------------------------------
  // Rotations
  // ---------------------------------------------------------------------------------------

  function Rotation(n: nat, k: nat): Line {
    seq(n, j requires 0 <= j < n => (k + j) % n)
  }

  function CyclicRotations(n: nat): seq<Line> {
    seq(n, k requires 0 <= k < n => Rotation(n, k))
  }

  function RotationsSubset(n: nat, k: nat): seq<Line> {
    if n == 0 || k == 0 then []
    else
      var taken := if k <= n then k else n;
      seq(taken, r requires 0 <= r < taken => StepInRange(n, taken, r); CyclicRotations(n)[r * n / taken])
  }

  lemma StepInRange(n: nat, taken: nat, r: nat)
    requires r < taken <= n
    ensures 0 <= r * n / taken < n
  {
  }

  /** Position `p` of rotation `k` holds task `i` for exactly one `k`. */
  lemma RotationHolds(n: int, k: int, p: int, i: int)
    requires 0 <= k < n && 0 <= p < n && 0 <= i < n
    ensures CyclicRotations(n)[k][p] == i <==> k == (i - p) % n
  {
    assert CyclicRotations(n)[k][p] == (k + p) % n;
    WrapOnce(k + p, n);
    WrapOnce(i - p, n);
  }

  lemma WrapOnce(x: int, n: int)
    requires -n < x < 2 * n
    ensures x % n == if x < 0 then x + n else if x < n then x else x - n
  {
  }

  lemma RotationDistinct(n: nat, k: nat)
    requires k < n
    ensures Distinct(Rotation(n, k), n)
  {
    forall j | 0 <= j < n
      ensures Rotation(n, k)[j] == if k + j < n then k + j else k + j - n
    {
      WrapOnce(k + j, n);
    }
  }

  /** The rotations of any positive number of tasks form a Latin square. */
  lemma RotationsAreLatin(n: nat)
    requires n > 0
    ensures Latin(CyclicRotations(n))
  {
    var square := CyclicRotations(n);
    forall r | 0 <= r < n
      ensures Distinct(square[r], n)
    {
      RotationDistinct(n, r);
    }
    forall c | 0 <= c < n
      ensures Distinct(Column(square, c), n)
    {
      assert Column(square, c) == Rotation(n, c);
      RotationDistinct(n, c);
    }
    LatinExactly(square);
  }

  lemma StepsIncrease(n: nat, taken: nat, r: nat, s: nat)
    requires r < s < taken <= n
    ensures r * n / taken < s * n / taken
  {
    MultipleGrows(s - r, n);
    assert (s - r) * n == s * n - r * n;
    Increase(r * n, s * n, taken);
  }

  lemma Increase(a: nat, b: nat, d: nat)
    requires d > 0 && a + d <= b
    ensures a / d < b / d
  {
  }

  /** A subset has `min(n, k)` orders, all different and all rotations; the full subset is the
      whole square. */
  lemma SubsetIsDistinct(n: nat, k: nat)
    ensures var orders := RotationsSubset(n, k);
            && |orders| == (if k <= n then k else n)
            && (forall r :: 0 <= r < |orders| ==> orders[r] in CyclicRotations(n))
            && (forall r, s :: 0 <= r < s < |orders| ==> orders[r] != orders[s])
            && (k >= n ==> orders == CyclicRotations(n))
  {
    var orders := RotationsSubset(n, k);
    var taken := if k <= n then k else n;
    hide CyclicRotations, RotationsSubset;
    SubsetSize(n, k);
    forall r | 0 <= r < |orders|
      ensures orders[r] in CyclicRotations(n)
      ensures k >= n ==> orders[r] == CyclicRotations(n)[r]
    {
      StepOfSubset(n, k, r);
    }
    forall r, s | 0 <= r < s < |orders|
      ensures orders[r] != orders[s]
    {
      StepOfSubset(n, k, r);
      StepOfSubset(n, k, s);
      StepsIncrease(n, taken, r, s);
    }
  }

  lemma SubsetSize(n: nat, k: nat)
    ensures |CyclicRotations(n)| == n && |RotationsSubset(n, k)| == if k <= n then k else n
  {
  }

  lemma StepOfSubset(n: nat, k: nat, r: nat)
    requires r < |RotationsSubset(n, k)|
    ensures var taken, order := if k <= n then k else n, RotationsSubset(n, k)[r];
            && 0 < taken && r < taken && 0 <= r * n / taken < n && |CyclicRotations(n)| == n
            && order == CyclicRotations(n)[r * n / taken]
            && |order| == n && order[0] == r * n / taken
            && (k >= n ==> r * n / taken == r)
  {
    var taken := if k <= n then k else n;
    StepInRange(n, taken, r);
    WrapOnce(r * n / taken, n);
    if k >= n {
      DivUnique(r * n, n, r);
    }
  }

  /** The orders are evenly stepped: order `r` is the last rotation that does not lie past `r` of the
      `min(n, k)` equal parts of the cycle. */
  lemma SubsetIsEven(n: nat, k: nat, r: nat, order: Line)
    requires r < |RotationsSubset(n, k)| && order == RotationsSubset(n, k)[r]
    ensures 0 < |order| == n
    ensures var taken := if k <= n then k else n; order[0] * taken <= r * n < (order[0] + 1) * taken
    ensures forall p :: 0 <= p < n ==> order[p] == (order[0] + p) % n
  {
    hide RotationsSubset;
    StepOfSubset(n, k, r);
    Quotient(r * n, if k <= n then k else n);
  }

  lemma Quotient(a: nat, d: nat)
    requires d > 0
    ensures a / d * d <= a < (a / d + 1) * d
  {
  }

  ghost predicate Visits(orders: seq<Line>, i: nat, p: nat) {
    exists r :: 0 <= r < |orders| && p < |orders[r]| && orders[r][p] == i
  }

  /** Every task visits every position exactly when all `n` rotations are taken. */
  lemma BalancedExactly(n: nat, k: nat)
    requires n > 0 && k > 0
    ensures (forall i: nat, p: nat :: i < n && p < n ==> Visits(RotationsSubset(n, k), i, p)) <==> k >= n
  {
    hide RotationsSubset;
    var orders := RotationsSubset(n, k);
    SubsetIsDistinct(n, k);
    if k >= n {
      forall i: nat, p: nat | i < n && p < n
        ensures Visits(orders, i, p)
      {
        WrapOnce(i - p, n);
        RotationHolds(n, (i - p) % n, p, i);
        assert p < |orders[(i - p) % n]|;
      }
    }
    if forall i: nat, p: nat :: i < n && p < n ==> Visits(orders, i, p) {
      TooFewOrders(orders, n);
    }
  }

  /** Fewer orders than tasks leave some task out of the first position. */
  lemma TooFewOrders(orders: seq<Line>, n: nat)
    requires forall i: nat :: i < n ==> Visits(orders, i, 0)
    ensures |orders| >= n
  {
    var firsts := seq(|orders|, r requires 0 <= r < |orders| => if orders[r] == [] then n else orders[r][0]);
    ElementsMembers(firsts);
    BelowMembers(n);
    forall i: nat | i < n
      ensures i in Elements(firsts)
    {
      assert Visits(orders, i, 0);
      var r :| 0 <= r < |orders| && 0 < |orders[r]| && orders[r][0] == i;
      assert firsts[r] == i;
    }
    Sizes(Below(n), Elements(firsts));
  }
}
