/** A string rewriting engine: leftmost reduction to a fixed point, critical pairs from
    proper suffix/prefix overlaps, and the confluence report built from them.

    The module proves the critical-pair lemma and Newman's lemma for the engine's own overlap
    enumeration. The enumeration never looks at one left-hand side lying inside another, so a
    positive report alone does not give unique normal forms; `UniqueNormalFormsExactly` states
    the finite check that has to be added. */
module Rewriting {
  import opened Wrappers

  type Symbol = n: nat | n < 0x1_0000_0000

  type Term = seq<Symbol>

  datatype RawRule = Rule(lhs: Term, rhs: Term)

  /** The rule constructor rejects an empty left-hand side. */
  type Rule = r: RawRule | r.lhs != [] witness RawRule.Rule([0], [])

  type System = seq<Rule>

  datatype CriticalPair = CriticalPair(term: Term, reductionA: Term, reductionB: Term)

  datatype Report = Report(confluent: bool, failures: seq<CriticalPair>)

  /** The step bound of `normalize`. */
  const MAX_STEPS: nat := 100_000

  // ---------------------------------------------------------------------------------------
  // Reduction
  // ---------------------------------------------------------------------------------------

  predicate Matches(t: Term, pos: nat, r: Rule) {
    pos + |r.lhs| <= |t| && t[pos..pos + |r.lhs|] == r.lhs
  }

  predicate IsRedex(sys: System, t: Term, pos: nat, idx: nat) {
    idx < |sys| && Matches(t, pos, sys[idx])
  }

  function ApplyAt(t: Term, pos: nat, r: Rule): Term
    requires pos + |r.lhs| <= |t|
  {
    t[..pos] + r.rhs + t[pos + |r.lhs|..]
  }

  ghost predicate StepBy(sys: System, t: Term, u: Term, pos: nat, idx: nat) {
    IsRedex(sys, t, pos, idx) && u == ApplyAt(t, pos, sys[idx])
  }

  /** One reduction anywhere in the term, by any rule. */
  ghost predicate Step(sys: System, t: Term, u: Term) {
    exists pos: nat, idx: nat :: StepBy(sys, t, u, pos, idx)
  }

  ghost predicate Normal(sys: System, t: Term) {
    forall pos: nat, idx: nat :: !IsRedex(sys, t, pos, idx)
  }

  ghost predicate Derives(sys: System, t: Term, u: Term, n: nat)
    decreases n
  {
    if n == 0 then t == u else exists v :: Step(sys, t, v) && Derives(sys, v, u, n - 1)
  }

  ghost predicate Reaches(sys: System, t: Term, u: Term) {
    exists n: nat :: Derives(sys, t, u, n)
  }

  ghost predicate JoinAt(sys: System, u: Term, v: Term, w: Term) {
    Reaches(sys, u, w) && Reaches(sys, v, w)
  }

  ghost predicate Joinable(sys: System, u: Term, v: Term) {
    exists w :: JoinAt(sys, u, v, w)
  }

  /** Termination is the caller's concern: every step shrinks some natural-number measure. */
  ghost predicate Terminates(sys: System, m: Term -> nat) {
    forall t: Term, u: Term :: Step(sys, t, u) ==> m(u) < m(t)
  }

  ghost predicate IsNormalFormOf(sys: System, t: Term, n: Term) {
    Reaches(sys, t, n) && Normal(sys, n)
  }

  ghost predicate OnlyNormalFormOf(sys: System, t: Term, n: Term) {
    forall n': Term :: IsNormalFormOf(sys, t, n') <==> n' == n
  }

  ghost predicate HasUniqueNormalForm(sys: System, t: Term) {
    exists n: Term :: OnlyNormalFormOf(sys, t, n)
  }

  /** Every term has exactly one normal form, whatever rules are applied wherever. */
  ghost predicate UniqueNormalForms(sys: System) {
    forall t: Term :: HasUniqueNormalForm(sys, t)
  }

  lemma StepReaches(sys: System, t: Term, u: Term)
    requires Step(sys, t, u)
    ensures Reaches(sys, t, u)
  {
    assert Derives(sys, u, u, 0);
    assert Derives(sys, t, u, 1);
  }

  lemma ReachesSelf(sys: System, t: Term)
    ensures Reaches(sys, t, t)
  {
    assert Derives(sys, t, t, 0);
  }

  lemma {:induction false} DerivesCompose(sys: System, t: Term, u: Term, v: Term, n: nat, k: nat)
    requires Derives(sys, t, u, n) && Derives(sys, u, v, k)
    ensures Derives(sys, t, v, n + k)
    decreases n
  {
    if n > 0 {
      var x :| Step(sys, t, x) && Derives(sys, x, u, n - 1);
      DerivesCompose(sys, x, u, v, n - 1, k);
    }
  }

  lemma ReachesTransitive(sys: System, t: Term, u: Term, v: Term)
    requires Reaches(sys, t, u) && Reaches(sys, u, v)
    ensures Reaches(sys, t, v)
  {
    var n: nat :| Derives(sys, t, u, n);
    var k: nat :| Derives(sys, u, v, k);
    DerivesCompose(sys, t, u, v, n, k);
  }

  lemma FirstStep(sys: System, t: Term, u: Term) returns (v: Term)
    requires Reaches(sys, t, u) && t != u
    ensures Step(sys, t, v) && Reaches(sys, v, u)
  {
    var n: nat :| Derives(sys, t, u, n);
    v :| Step(sys, t, v) && Derives(sys, v, u, n - 1);
  }

  lemma NormalIsFinal(sys: System, t: Term, u: Term)
    requires Normal(sys, t) && Reaches(sys, t, u)
    ensures t == u
  {
  }

  // Reduction is closed under context.

  lemma StepInContext(sys: System, x: Term, t: Term, z: Term, u: Term)
    requires Step(sys, t, u)
    ensures Step(sys, x + t + z, x + u + z)
  {
    var pos: nat, idx: nat :| StepBy(sys, t, u, pos, idx);
    var r := sys[idx];
    var big := x + t + z;
    var p := |x| + pos;
    assert big[p..p + |r.lhs|] == t[pos..pos + |r.lhs|];
    assert big[..p] == x + t[..pos];
    assert big[p + |r.lhs|..] == t[pos + |r.lhs|..] + z;
    assert ApplyAt(big, p, r) == x + u + z;
    assert StepBy(sys, big, x + u + z, p, idx);
  }

  lemma {:induction false} DerivesInContext(sys: System, x: Term, t: Term, z: Term, u: Term, n: nat)
    requires Derives(sys, t, u, n)
    ensures Derives(sys, x + t + z, x + u + z, n)
    decreases n
  {
    if n > 0 {
      var v :| Step(sys, t, v) && Derives(sys, v, u, n - 1);
      StepInContext(sys, x, t, z, v);
      DerivesInContext(sys, x, v, z, u, n - 1);
    }
  }

  lemma JoinableInContext(sys: System, x: Term, u: Term, v: Term, z: Term)
    requires Joinable(sys, u, v)
    ensures Joinable(sys, x + u + z, x + v + z)
  {
    var w :| JoinAt(sys, u, v, w);
    var n: nat :| Derives(sys, u, w, n);
    var k: nat :| Derives(sys, v, w, k);
    DerivesInContext(sys, x, u, z, w, n);
    DerivesInContext(sys, x, v, z, w, k);
    assert JoinAt(sys, x + u + z, x + v + z, x + w + z);
  }

  lemma JoinableSymmetric(sys: System, u: Term, v: Term)
    requires Joinable(sys, u, v)
    ensures Joinable(sys, v, u)
  {
    var w :| JoinAt(sys, u, v, w);
    assert JoinAt(sys, v, u, w);
  }

  // ---------------------------------------------------------------------------------------
  // Newman's lemma
  // ---------------------------------------------------------------------------------------

  ghost predicate LocallyConfluent(sys: System) {
    forall t: Term, u: Term, v: Term :: Step(sys, t, u) && Step(sys, t, v) ==> Joinable(sys, u, v)
  }

  lemma {:induction false} Newman(sys: System, m: Term -> nat, t: Term, u: Term, v: Term) returns (w: Term)
    requires Terminates(sys, m) && LocallyConfluent(sys)
    requires Reaches(sys, t, u) && Reaches(sys, t, v)
    ensures Reaches(sys, u, w) && Reaches(sys, v, w)
    decreases m(t)
  {
    if t == u {
      w := v;
      ReachesSelf(sys, v);
    } else if t == v {
      w := u;
      ReachesSelf(sys, u);
    } else {
      var u1 := FirstStep(sys, t, u);
      var v1 := FirstStep(sys, t, v);
      assert Joinable(sys, u1, v1);
      var x :| JoinAt(sys, u1, v1, x);
      var y := Newman(sys, m, u1, u, x);
      ReachesTransitive(sys, v1, x, y);
      w := Newman(sys, m, v1, y, v);
      ReachesTransitive(sys, u, y, w);
    }
  }

  // ---------------------------------------------------------------------------------------
  // Leftmost redex and normalisation
  // ---------------------------------------------------------------------------------------

  /** The earliest position that matches; among the rules matching there, the first one. */
  ghost predicate IsFirstRedex(sys: System, t: Term, pos: nat, idx: nat) {
    && IsRedex(sys, t, pos, idx)
    && forall p: nat, i: nat :: IsRedex(sys, t, p, i) ==> pos < p || (pos == p && idx <= i)
  }

  function FirstRule(sys: System, t: Term, pos: nat, from: nat): (r: Option<nat>)
    requires from <= |sys|
    ensures r.Some? ==> from <= r.value && IsRedex(sys, t, pos, r.value)
    ensures r.Some? ==> forall i: nat :: from <= i < r.value ==> !IsRedex(sys, t, pos, i)
    ensures r.None? ==> forall i: nat :: from <= i ==> !IsRedex(sys, t, pos, i)
    decreases |sys| - from
  {
    if from == |sys| then None
    else if Matches(t, pos, sys[from]) then Some(from)
    else FirstRule(sys, t, pos, from + 1)
  }

  function FirstRedexFrom(sys: System, t: Term, from: nat): (r: Option<(nat, nat)>)
    requires from <= |t|
    ensures r.Some? ==> from <= r.value.0 && IsRedex(sys, t, r.value.0, r.value.1)
    ensures r.Some? ==> forall p: nat, i: nat :: from <= p && IsRedex(sys, t, p, i) ==>
                          r.value.0 < p || (r.value.0 == p && r.value.1 <= i)
    ensures r.None? ==> forall p: nat, i: nat :: from <= p ==> !IsRedex(sys, t, p, i)
    decreases |t| - from
  {
    if from == |t| then None
    else
      match FirstRule(sys, t, from, 0)
      case Some(idx) => Some((from, idx))
      case None => FirstRedexFrom(sys, t, from + 1)
  }

  function FirstRedex(sys: System, t: Term): (r: Option<(nat, nat)>)
    ensures r.Some? ==> IsFirstRedex(sys, t, r.value.0, r.value.1)
    ensures r.None? <==> Normal(sys, t)
  {
    FirstRedexFrom(sys, t, 0)
  }

  method FindFirstRedex(sys: System, t: Term) returns (r: Option<(nat, nat)>)
    ensures r.Some? ==> IsFirstRedex(sys, t, r.value.0, r.value.1)
    ensures r.None? <==> Normal(sys, t)
    ensures r == FirstRedex(sys, t)
  {
    for pos := 0 to |t|
      invariant FirstRedexFrom(sys, t, pos) == FirstRedex(sys, t)
    {
      for idx := 0 to |sys|
        invariant FirstRule(sys, t, pos, idx) == FirstRule(sys, t, pos, 0)
      {
        var lhs := sys[idx].lhs;
        if |lhs| <= |t| - pos && t[pos..pos + |lhs|] == lhs {
          return Some((pos, idx));
        }
      }
    }
    return None;
  }

  function Normalize(sys: System, t: Term, steps: nat): Term
    decreases steps, |t|
  {
    if steps == 0 then t
    else
      match FirstRedex(sys, t)
      case None => t
      case Some((pos, idx)) => Normalize(sys, ApplyAt(t, pos, sys[idx]), steps - 1)
  }

  method NormalizeBounded(sys: System, input: Term, maxSteps: nat) returns (term: Term)
    ensures term == Normalize(sys, input, maxSteps)
    ensures Reaches(sys, input, term)
  {
    term := input;
    var steps := 0;
    while steps < maxSteps
      invariant steps <= maxSteps
      invariant Normalize(sys, term, maxSteps - steps) == Normalize(sys, input, maxSteps)
    {
      var redex := FindFirstRedex(sys, term);
      match redex {
        case Some((pos, idx)) =>
          var rule := sys[idx];
          var out := term[..pos];
          out := out + rule.rhs;
          out := out + term[pos + |rule.lhs|..];
          term := out;
          steps := steps + 1;
        case None =>
          NormalizeReaches(sys, input, maxSteps);
          return;
      }
    }
    NormalizeReaches(sys, input, maxSteps);
  }

  lemma {:induction false} NormalizeReaches(sys: System, t: Term, steps: nat)
    ensures Reaches(sys, t, Normalize(sys, t, steps))
    decreases steps
  {
    ReachesSelf(sys, t);
    if steps > 0 {
      match FirstRedex(sys, t)
      case None =>
      case Some((pos, idx)) =>
        var u := ApplyAt(t, pos, sys[idx]);
        assert StepBy(sys, t, u, pos, idx);
        StepReaches(sys, t, u);
        NormalizeReaches(sys, u, steps - 1);
        ReachesTransitive(sys, t, u, Normalize(sys, u, steps - 1));
    }
  }

  /** A run of leftmost reductions from `t` to `u` that stops when no rule matches or the steps are
      used up. */
  ghost predicate LeftmostRun(sys: System, t: Term, u: Term, steps: nat, run: seq<Term>) {
    && 0 < |run| <= steps + 1 && run[0] == t && run[|run| - 1] == u
    && (forall i :: 0 <= i < |run| - 1 ==> LeftmostStep(sys, run[i], run[i + 1]))
    && (|run| == steps + 1 || Normal(sys, u))
  }

  ghost predicate RunsLeftmost(sys: System, t: Term, u: Term, steps: nat) {
    exists run :: LeftmostRun(sys, t, u, steps, run)
  }

  ghost predicate LeftmostStep(sys: System, t: Term, u: Term) {
    exists pos: nat, idx: nat ::
      && IsFirstRedex(sys, t, pos, idx)
      && u == t[..pos] + sys[idx].rhs + t[pos + |sys[idx].lhs|..]
  }

  /** The result is the end of the leftmost run. */
  lemma {:induction false} NormalizeRuns(sys: System, t: Term, steps: nat) returns (run: seq<Term>)
    ensures LeftmostRun(sys, t, Normalize(sys, t, steps), steps, run)
    decreases steps
  {
    run := [t];
    if steps > 0 {
      match FirstRedex(sys, t)
      case None =>
      case Some((pos, idx)) =>
        var u := ApplyAt(t, pos, sys[idx]);
        assert LeftmostStep(sys, t, u);
        var rest := NormalizeRuns(sys, u, steps - 1);
        run := [t] + rest;
    }
  }

  /** And there is no other end. */
  lemma {:induction false} RunEnds(sys: System, t: Term, u: Term, steps: nat, run: seq<Term>)
    requires LeftmostRun(sys, t, u, steps, run)
    ensures u == Normalize(sys, t, steps)
    decreases steps
  {
    if |run| > 1 {
      var next := run[1];
      assert LeftmostStep(sys, t, next);
      LeftmostStepIs(sys, t, next);
      var rest := run[1..];
      forall i | 0 <= i < |rest| - 1
        ensures LeftmostStep(sys, rest[i], rest[i + 1])
      {
        assert LeftmostStep(sys, run[i + 1], run[i + 2]);
      }
      RunEnds(sys, next, u, steps - 1, rest);
    }
  }

  lemma LeftmostStepIs(sys: System, t: Term, u: Term)
    requires LeftmostStep(sys, t, u)
    ensures FirstRedex(sys, t).Some?
    ensures var (pos, idx) := FirstRedex(sys, t).value; u == ApplyAt(t, pos, sys[idx])
  {
    var pos: nat, idx: nat :| IsFirstRedex(sys, t, pos, idx)
        && u == t[..pos] + sys[idx].rhs + t[pos + |sys[idx].lhs|..];
    assert IsRedex(sys, t, pos, idx);
  }

  /** The step bound is never hit on a term whose measure is within it. */
  lemma {:induction false} NormalizeIsNormal(sys: System, m: Term -> nat, t: Term, steps: nat)
    requires Terminates(sys, m) && m(t) <= steps
    ensures Normal(sys, Normalize(sys, t, steps))
    decreases steps
  {
    match FirstRedex(sys, t)
    case None =>
    case Some((pos, idx)) =>
      var u := ApplyAt(t, pos, sys[idx]);
      assert StepBy(sys, t, u, pos, idx);
      assert Step(sys, t, u);
      NormalizeIsNormal(sys, m, u, steps - 1);
  }

  // ---------------------------------------------------------------------------------------
  // Critical pairs
  // ---------------------------------------------------------------------------------------

  /** A proper suffix of `a.lhs` of length `k` is a proper prefix of `b.lhs`. */
  predicate Overlaps(a: Rule, b: Rule, k: nat) {
    1 <= k < |a.lhs| && k < |b.lhs| && a.lhs[|a.lhs| - k..] == b.lhs[..k]
  }

  function OverlapTerm(a: Rule, b: Rule, k: nat): Term
    requires Overlaps(a, b, k)
  {
    a.lhs + b.lhs[k..]
  }

  /** The two normalised reducts of an overlap. */
  function PairOf(sys: System, a: Rule, b: Rule, k: nat): CriticalPair
    requires Overlaps(a, b, k)
  {
    var term := OverlapTerm(a, b, k);
    CriticalPair(term,
                 Normalize(sys, ApplyAt(term, 0, a), MAX_STEPS),
                 Normalize(sys, ApplyAt(term, |a.lhs| - k, b), MAX_STEPS))
  }

  predicate Diverges(sys: System, a: Rule, b: Rule, k: nat) {
    Overlaps(a, b, k) && PairOf(sys, a, b, k).reductionA != PairOf(sys, a, b, k).reductionB
  }

  function FailuresUpTo(sys: System, a: Rule, b: Rule, k: nat): seq<CriticalPair> {
    if k == 0 then []
    else FailuresUpTo(sys, a, b, k - 1) + FailureAt(sys, a, b, k)
  }

  function MaxOverlap(a: Rule, b: Rule): nat {
    (if |a.lhs| <= |b.lhs| then |a.lhs| else |b.lhs|) - 1
  }

  function RowFailures(sys: System, i: nat, j: nat): seq<CriticalPair>
    requires i < |sys| && j <= |sys|
  {
    if j == 0 then []
    else RowFailures(sys, i, j - 1) + FailuresUpTo(sys, sys[i], sys[j - 1], MaxOverlap(sys[i], sys[j - 1]))
  }

  function AllFailures(sys: System, i: nat): seq<CriticalPair>
    requires i <= |sys|
  {
    if i == 0 then [] else AllFailures(sys, i - 1) + RowFailures(sys, i - 1, |sys|)
  }

  lemma AppendAssociates<T>(a: seq<T>, b: seq<T>, c: seq<T>)
    ensures (a + b) + c == a + (b + c)
  {
  }

  function FailureAt(sys: System, a: Rule, b: Rule, k: nat): seq<CriticalPair> {
    if Diverges(sys, a, b, k) then [PairOf(sys, a, b, k)] else []
  }

  method CheckOverlap(sys: System, a: Rule, b: Rule, k: nat) returns (found: seq<CriticalPair>)
    requires 1 <= k <= MaxOverlap(a, b)
    ensures found == FailureAt(sys, a, b, k)
  {
    hide Normalize, Reaches;
    var la := |a.lhs|;
    found := [];
    if a.lhs[la - k..] == b.lhs[..k] {
      assert Overlaps(a, b, k);
      var term := a.lhs + b.lhs[k..];
      var redA := ApplyAt(term, 0, a);
      var redB := ApplyAt(term, la - k, b);
      var nfA := NormalizeBounded(sys, redA, MAX_STEPS);
      var nfB := NormalizeBounded(sys, redB, MAX_STEPS);
      if nfA != nfB {
        found := [CriticalPair(term, nfA, nfB)];
      }
    }
  }

  method CollectOverlaps(sys: System, a: Rule, b: Rule, out0: seq<CriticalPair>) returns (out: seq<CriticalPair>)
    ensures out == out0 + FailuresUpTo(sys, a, b, MaxOverlap(a, b))
  {
    hide FailureAt;
    out := out0;
    for k := 1 to MaxOverlap(a, b) + 1
      invariant out == out0 + FailuresUpTo(sys, a, b, k - 1)
    {
      var found := CheckOverlap(sys, a, b, k);
      AppendAssociates(out0, FailuresUpTo(sys, a, b, k - 1), found);
      out := out + found;
    }
  }

  method CriticalPairs(sys: System) returns (out: seq<CriticalPair>)
    ensures out == AllFailures(sys, |sys|)
  {
    hide FailuresUpTo;
    out := [];
    for i := 0 to |sys|
      invariant out == AllFailures(sys, i)
    {
      for j := 0 to |sys|
        invariant out == AllFailures(sys, i) + RowFailures(sys, i, j)
      {
        AppendAssociates(AllFailures(sys, i), RowFailures(sys, i, j),
                         FailuresUpTo(sys, sys[i], sys[j], MaxOverlap(sys[i], sys[j])));
        out := CollectOverlaps(sys, sys[i], sys[j], out);
      }
    }
  }

  /** A failure told from the two rules: they overlap in `k` symbols, and the leftmost runs of the two
      reducts of the overlap, of at most 100,000 steps each, end in different terms. */
  ghost predicate FailureTold(sys: System, a: Rule, b: Rule, k: nat, cp: CriticalPair) {
    && 1 <= k < |a.lhs| && k < |b.lhs| && a.lhs[|a.lhs| - k..] == b.lhs[..k]
    && cp.term == a.lhs + b.lhs[k..] && cp.reductionA != cp.reductionB
    && RunsLeftmost(sys, a.rhs + b.lhs[k..], cp.reductionA, 100_000)
    && RunsLeftmost(sys, a.lhs[..|a.lhs| - k] + b.rhs, cp.reductionB, 100_000)
  }

  lemma Reducts(a: Rule, b: Rule, k: nat)
    requires Overlaps(a, b, k)
    ensures ApplyAt(OverlapTerm(a, b, k), 0, a) == a.rhs + b.lhs[k..]
    ensures ApplyAt(OverlapTerm(a, b, k), |a.lhs| - k, b) == a.lhs[..|a.lhs| - k] + b.rhs
  {
    var t := OverlapTerm(a, b, k);
    assert t == a.lhs[..|a.lhs| - k] + b.lhs by {
      assert a.lhs == a.lhs[..|a.lhs| - k] + a.lhs[|a.lhs| - k..];
      assert b.lhs == b.lhs[..k] + b.lhs[k..];
    }
  }

  lemma ToldIsPair(sys: System, a: Rule, b: Rule, k: nat, cp: CriticalPair)
    requires FailureTold(sys, a, b, k, cp)
    ensures Diverges(sys, a, b, k) && cp == PairOf(sys, a, b, k)
  {
    hide Normalize, LeftmostRun;
    Reducts(a, b, k);
    var run1 :| LeftmostRun(sys, a.rhs + b.lhs[k..], cp.reductionA, 100_000, run1);
    var run2 :| LeftmostRun(sys, a.lhs[..|a.lhs| - k] + b.rhs, cp.reductionB, 100_000, run2);
    RunEnds(sys, a.rhs + b.lhs[k..], cp.reductionA, MAX_STEPS, run1);
    RunEnds(sys, a.lhs[..|a.lhs| - k] + b.rhs, cp.reductionB, MAX_STEPS, run2);
  }

  lemma PairTold(sys: System, a: Rule, b: Rule, k: nat)
    requires Diverges(sys, a, b, k)
    ensures FailureTold(sys, a, b, k, PairOf(sys, a, b, k))
  {
    hide Normalize, LeftmostRun;
    Reducts(a, b, k);
    var u, v := a.rhs + b.lhs[k..], a.lhs[..|a.lhs| - k] + b.rhs;
    var run1 := NormalizeRuns(sys, u, MAX_STEPS);
    var run2 := NormalizeRuns(sys, v, MAX_STEPS);
  }

  lemma {:induction false} FailuresUpToAll(sys: System, a: Rule, b: Rule, n: nat)
    requires n <= MaxOverlap(a, b)
    ensures forall cp :: cp in FailuresUpTo(sys, a, b, n) ==>
              exists k: nat :: k <= n && Diverges(sys, a, b, k) && cp == PairOf(sys, a, b, k)
    ensures forall k: nat :: k <= n && Diverges(sys, a, b, k) ==> PairOf(sys, a, b, k) in FailuresUpTo(sys, a, b, n)
  {
    hide PairOf;
    if n > 0 {
      FailuresUpToAll(sys, a, b, n - 1);
    }
  }

  /** The pair of rules `i` and `j` on an overlap that diverges. */
  ghost predicate IsFailure(sys: System, i: nat, j: nat, k: nat, cp: CriticalPair) {
    i < |sys| && j < |sys| && Diverges(sys, sys[i], sys[j], k) && cp == PairOf(sys, sys[i], sys[j], k)
  }

  lemma {:induction false} RowFailuresAll(sys: System, i: nat, n: nat)
    requires i < |sys| && n <= |sys|
    ensures forall cp :: cp in RowFailures(sys, i, n) ==> exists j: nat, k: nat :: j < n && IsFailure(sys, i, j, k, cp)
    ensures forall cp, j: nat, k: nat :: j < n && IsFailure(sys, i, j, k, cp) ==> cp in RowFailures(sys, i, n)
  {
    hide PairOf, FailuresUpTo;
    if n > 0 {
      RowFailuresAll(sys, i, n - 1);
      FailuresUpToAll(sys, sys[i], sys[n - 1], MaxOverlap(sys[i], sys[n - 1]));
      forall cp | cp in RowFailures(sys, i, n)
        ensures exists j: nat, k: nat :: j < n && IsFailure(sys, i, j, k, cp)
      {
        if cp in FailuresUpTo(sys, sys[i], sys[n - 1], MaxOverlap(sys[i], sys[n - 1])) {
          var k: nat :| Diverges(sys, sys[i], sys[n - 1], k) && cp == PairOf(sys, sys[i], sys[n - 1], k);
          assert IsFailure(sys, i, n - 1, k, cp);
        }
      }
    }
  }

  lemma {:induction false} AllFailuresAll(sys: System, n: nat)
    requires n <= |sys|
    ensures forall cp :: cp in AllFailures(sys, n) ==>
              exists i: nat, j: nat, k: nat :: i < n && IsFailure(sys, i, j, k, cp)
    ensures forall cp, i: nat, j: nat, k: nat :: i < n && IsFailure(sys, i, j, k, cp) ==> cp in AllFailures(sys, n)
  {
    hide PairOf, RowFailures, Diverges;
    if n > 0 {
      AllFailuresAll(sys, n - 1);
      RowFailuresAll(sys, n - 1, |sys|);
    }
  }

  function KeepDiverging(pairs: seq<CriticalPair>): seq<CriticalPair> {
    if pairs == [] then []
    else (if pairs[0].reductionA != pairs[0].reductionB then [pairs[0]] else []) + KeepDiverging(pairs[1..])
  }

  /** No overlap the engine enumerates has two different normalised reducts. */
  ghost predicate OverlapsAgree(sys: System) {
    forall i: nat, j: nat, k: nat :: i < |sys| && j < |sys| ==> !Diverges(sys, sys[i], sys[j], k)
  }

  /** The report is positive exactly when every enumerated overlap agrees; each listed failure
      is a term that really reduces to two different terms. */
  method IsConfluent(sys: System) returns (report: Report)
    ensures report.confluent <==> OverlapsAgree(sys)
    ensures report.confluent <==> report.failures == []
    ensures forall cp :: cp in report.failures ==>
              cp.reductionA != cp.reductionB && Reaches(sys, cp.term, cp.reductionA)
                  && Reaches(sys, cp.term, cp.reductionB)
    ensures forall cp :: cp in report.failures ==>
              exists i: nat, j: nat, k: nat :: i < |sys| && j < |sys| && FailureTold(sys, sys[i], sys[j], k, cp)
    ensures forall i: nat, j: nat, k: nat, cp ::
              i < |sys| && j < |sys| && FailureTold(sys, sys[i], sys[j], k, cp) ==> cp in report.failures
  {
    hide FailureTold, Normalize, PairOf, AllFailures, Reaches, OverlapsAgree;
    var pairs := CriticalPairs(sys);
    var failures := KeepDiverging(pairs);
    report := Report(failures == [], failures);
    FailuresTold(sys, pairs);
    KeepsAll(pairs);
    NoFailuresExactly(sys);
  }

  /** Exactly the overlaps that diverge are listed. */
  lemma FailuresTold(sys: System, failures: seq<CriticalPair>)
    requires failures == AllFailures(sys, |sys|)
    ensures forall cp :: cp in failures ==> Genuine(sys, cp)
    ensures forall cp :: cp in failures ==>
              exists i: nat, j: nat, k: nat :: i < |sys| && j < |sys| && FailureTold(sys, sys[i], sys[j], k, cp)
    ensures forall i: nat, j: nat, k: nat, cp ::
              i < |sys| && j < |sys| && FailureTold(sys, sys[i], sys[j], k, cp) ==> cp in failures
  {
    hide FailureTold, PairOf, AllFailures, Genuine;
    AllFailuresAll(sys, |sys|);
    forall cp | cp in failures
      ensures Genuine(sys, cp)
      ensures exists i: nat, j: nat, k: nat :: i < |sys| && j < |sys| && FailureTold(sys, sys[i], sys[j], k, cp)
    {
      var i: nat, j: nat, k: nat :| i < |sys| && j < |sys| && IsFailure(sys, i, j, k, cp);
      PairTold(sys, sys[i], sys[j], k);
      PairGenuine(sys, i, j, k);
    }
    forall i: nat, j: nat, k: nat, cp | i < |sys| && j < |sys| && FailureTold(sys, sys[i], sys[j], k, cp)
      ensures cp in failures
    {
      ToldIsPair(sys, sys[i], sys[j], k, cp);
      assert IsFailure(sys, i, j, k, cp);
    }
  }

  lemma {:induction false} KeepsAll(pairs: seq<CriticalPair>)
    requires forall cp :: cp in pairs ==> cp.reductionA != cp.reductionB
    ensures KeepDiverging(pairs) == pairs
  {
    if pairs != [] {
      assert pairs[0] in pairs;
      KeepsAll(pairs[1..]);
    }
  }

  ghost predicate Genuine(sys: System, cp: CriticalPair) {
    cp.reductionA != cp.reductionB && Reaches(sys, cp.term, cp.reductionA) && Reaches(sys, cp.term, cp.reductionB)
  }

  lemma OverlapReductsReached(sys: System, i: nat, j: nat, k: nat)
    requires i < |sys| && j < |sys| && Overlaps(sys[i], sys[j], k)
    ensures var a, b, t := sys[i], sys[j], OverlapTerm(sys[i], sys[j], k);
            Step(sys, t, ApplyAt(t, 0, a)) && Step(sys, t, ApplyAt(t, |a.lhs| - k, b))
  {
    var a, b, t := sys[i], sys[j], OverlapTerm(sys[i], sys[j], k);
    assert t[0..|a.lhs|] == a.lhs;
    var q := |a.lhs| - k;
    assert t[q..q + |b.lhs|] == a.lhs[q..] + b.lhs[k..] == b.lhs;
    assert StepBy(sys, t, ApplyAt(t, 0, a), 0, i);
    assert StepBy(sys, t, ApplyAt(t, q, b), q, j);
  }

  lemma PairGenuine(sys: System, i: nat, j: nat, k: nat)
    requires i < |sys| && j < |sys| && Diverges(sys, sys[i], sys[j], k)
    ensures Genuine(sys, PairOf(sys, sys[i], sys[j], k))
  {
    var a, b, t := sys[i], sys[j], OverlapTerm(sys[i], sys[j], k);
    OverlapReductsReached(sys, i, j, k);
    var ra, rb := ApplyAt(t, 0, a), ApplyAt(t, |a.lhs| - k, b);
    StepReaches(sys, t, ra);
    StepReaches(sys, t, rb);
    NormalizeReaches(sys, ra, MAX_STEPS);
    NormalizeReaches(sys, rb, MAX_STEPS);
    ReachesTransitive(sys, t, ra, Normalize(sys, ra, MAX_STEPS));
    ReachesTransitive(sys, t, rb, Normalize(sys, rb, MAX_STEPS));
  }

  lemma NoFailuresExactly(sys: System)
    ensures AllFailures(sys, |sys|) == [] <==> OverlapsAgree(sys)
  {
    hide AllFailures, PairOf;
    AllFailuresAll(sys, |sys|);
    if AllFailures(sys, |sys|) != [] {
      var cp := AllFailures(sys, |sys|)[0];
      assert cp in AllFailures(sys, |sys|);
      var i: nat, j: nat, k: nat :| i < |sys| && IsFailure(sys, i, j, k, cp);
    }
    if i: nat, j: nat, k: nat :| i < |sys| && j < |sys| && Diverges(sys, sys[i], sys[j], k) {
      assert IsFailure(sys, i, j, k, PairOf(sys, sys[i], sys[j], k));
    }
  }

  // ---------------------------------------------------------------------------------------
  // The critical-pair lemma
  // ---------------------------------------------------------------------------------------

  /** What the overlap enumeration leaves out: one left-hand side inside another rule's. */
  ghost predicate InnerMatch(sys: System, i: nat, j: nat, off: nat) {
    i < |sys| && j < |sys| && i != j && Matches(sys[j].lhs, off, sys[i])
  }

  ghost predicate InnerAgrees(sys: System, i: nat, j: nat, off: nat)
    requires InnerMatch(sys, i, j, off)
  {
    Normalize(sys, ApplyAt(sys[j].lhs, off, sys[i]), MAX_STEPS) == Normalize(sys, sys[j].rhs, MAX_STEPS)
  }

  /** The finite check missing from the report: reducing a left-hand side by the rule inside it
      and by its own rule gives the same normalised term. */
  ghost predicate InnerPairsAgree(sys: System) {
    forall i: nat, j: nat, off: nat :: InnerMatch(sys, i, j, off) ==> InnerAgrees(sys, i, j, off)
  }

  /** No left-hand side is a factor of another rule's left-hand side. */
  ghost predicate NoInnerMatch(sys: System) {
    forall i: nat, j: nat, off: nat :: !InnerMatch(sys, i, j, off)
  }

  lemma SameNormalizationJoins(sys: System, u: Term, v: Term)
    requires Normalize(sys, u, MAX_STEPS) == Normalize(sys, v, MAX_STEPS)
    ensures Joinable(sys, u, v)
  {
    NormalizeReaches(sys, u, MAX_STEPS);
    NormalizeReaches(sys, v, MAX_STEPS);
    assert JoinAt(sys, u, v, Normalize(sys, u, MAX_STEPS));
  }

  lemma RuleInContext(sys: System, x: Term, i: nat, z: Term)
    requires i < |sys|
    ensures Step(sys, x + sys[i].lhs + z, x + sys[i].rhs + z)
  {
    var t := x + sys[i].lhs + z;
    assert t[|x|..|x| + |sys[i].lhs|] == sys[i].lhs;
    assert ApplyAt(t, |x|, sys[i]) == x + sys[i].rhs + z;
    assert StepBy(sys, t, x + sys[i].rhs + z, |x|, i);
  }

  lemma DisjointPeakJoins(sys: System, x: Term, i: nat, y: Term, j: nat, z: Term)
    requires i < |sys| && j < |sys|
    ensures Joinable(sys, x + sys[i].rhs + y + sys[j].lhs + z, x + sys[i].lhs + y + sys[j].rhs + z)
  {
    var a, b := sys[i], sys[j];
    var u := x + a.rhs + y + b.lhs + z;
    var v := x + a.lhs + y + b.rhs + z;
    var w := x + a.rhs + y + b.rhs + z;
    RuleInContext(sys, x + a.rhs + y, j, z);
    RuleInContext(sys, x, i, y + b.rhs + z);
    assert v == x + a.lhs + (y + b.rhs + z);
    assert w == x + a.rhs + (y + b.rhs + z);
    StepReaches(sys, u, w);
    StepReaches(sys, v, w);
    assert JoinAt(sys, u, v, w);
  }

  lemma DisjointCase(sys: System, t: Term, p: nat, i: nat, q: nat, j: nat)
    requires IsRedex(sys, t, p, i) && IsRedex(sys, t, q, j) && p + |sys[i].lhs| <= q
    ensures Joinable(sys, ApplyAt(t, p, sys[i]), ApplyAt(t, q, sys[j]))
  {
    var a, b := sys[i], sys[j];
    var x, y, z := t[..p], t[p + |a.lhs|..q], t[q + |b.lhs|..];
    DisjointPeakJoins(sys, x, i, y, j, z);
    assert ApplyAt(t, p, a) == x + a.rhs + y + b.lhs + z;
    assert ApplyAt(t, q, b) == x + a.lhs + y + b.rhs + z by {
      assert t[p..p + |a.lhs|] == a.lhs;
      assert t[..q] == x + a.lhs + y;
    }
  }

  /** Redex `j` lies inside redex `i`. */
  lemma InnerCase(sys: System, t: Term, p: nat, i: nat, q: nat, j: nat)
    requires IsRedex(sys, t, p, i) && IsRedex(sys, t, q, j)
    requires p <= q && q + |sys[j].lhs| <= p + |sys[i].lhs| && i != j
    requires InnerPairsAgree(sys)
    ensures Joinable(sys, ApplyAt(t, p, sys[i]), ApplyAt(t, q, sys[j]))
  {
    var a, b, off := sys[i], sys[j], q - p;
    InnerInContext(t, p, a, q, b);
    assert InnerMatch(sys, j, i, off);
    assert InnerAgrees(sys, j, i, off);
    var inner := ApplyAt(a.lhs, off, b);
    SameNormalizationJoins(sys, a.rhs, inner);
    JoinableInContext(sys, t[..p], a.rhs, inner, t[p + |a.lhs|..]);
  }

  lemma InnerInContext(t: Term, p: nat, a: Rule, q: nat, b: Rule)
    requires Matches(t, p, a) && Matches(t, q, b)
    requires p <= q && q + |b.lhs| <= p + |a.lhs|
    ensures Matches(a.lhs, q - p, b)
    ensures var x, z := t[..p], t[p + |a.lhs|..];
            && ApplyAt(t, p, a) == x + a.rhs + z
            && ApplyAt(t, q, b) == x + ApplyAt(a.lhs, q - p, b) + z
  {
    var off, x, z := q - p, t[..p], t[p + |a.lhs|..];
    assert t == x + a.lhs + z;
    assert a.lhs[off..off + |b.lhs|] == t[q..q + |b.lhs|];
    assert t[..q] == x + a.lhs[..off];
    assert t[q + |b.lhs|..] == a.lhs[off + |b.lhs|..] + z;
  }

  /** Redex `j` starts inside redex `i` and ends after it. */
  lemma OverlapCase(sys: System, t: Term, p: nat, i: nat, q: nat, j: nat)
    requires IsRedex(sys, t, p, i) && IsRedex(sys, t, q, j)
    requires p < q < p + |sys[i].lhs| < q + |sys[j].lhs|
    requires OverlapsAgree(sys)
    ensures Joinable(sys, ApplyAt(t, p, sys[i]), ApplyAt(t, q, sys[j]))
  {
    var a, b := sys[i], sys[j];
    var k := p + |a.lhs| - q;
    var x, z := t[..p], t[q + |b.lhs|..];
    assert a.lhs[|a.lhs| - k..] == t[q..p + |a.lhs|] == b.lhs[..k];
    assert Overlaps(a, b, k);
    var peak := OverlapTerm(a, b, k);
    var redA, redB := ApplyAt(peak, 0, a), ApplyAt(peak, q - p, b);
    assert !Diverges(sys, a, b, k);
    SameNormalizationJoins(sys, redA, redB);
    JoinableInContext(sys, x, redA, redB, z);
    OverlapInContext(t, p, a, q, b, k);
  }

  lemma OverlapInContext(t: Term, p: nat, a: Rule, q: nat, b: Rule, k: nat)
    requires Matches(t, p, a) && Matches(t, q, b) && p < q
    requires Overlaps(a, b, k) && k == p + |a.lhs| - q
    ensures var peak, x, z := OverlapTerm(a, b, k), t[..p], t[q + |b.lhs|..];
            && ApplyAt(t, p, a) == x + ApplyAt(peak, 0, a) + z
            && ApplyAt(t, q, b) == x + ApplyAt(peak, q - p, b) + z
  {
  }

  lemma PeakJoins(sys: System, t: Term, p: nat, i: nat, q: nat, j: nat)
    requires IsRedex(sys, t, p, i) && IsRedex(sys, t, q, j) && p <= q
    requires OverlapsAgree(sys) && InnerPairsAgree(sys)
    ensures Joinable(sys, ApplyAt(t, p, sys[i]), ApplyAt(t, q, sys[j]))
  {
    var la, lb := |sys[i].lhs|, |sys[j].lhs|;
    if p + la <= q {
      DisjointCase(sys, t, p, i, q, j);
    } else if p == q && i == j {
      var u := ApplyAt(t, p, sys[i]);
      ReachesSelf(sys, u);
      assert JoinAt(sys, u, u, u);
    } else if q + lb <= p + la {
      assert i != j;
      InnerCase(sys, t, p, i, q, j);
    } else if p == q {
      InnerCase(sys, t, q, j, p, i);
      JoinableSymmetric(sys, ApplyAt(t, q, sys[j]), ApplyAt(t, p, sys[i]));
    } else {
      OverlapCase(sys, t, p, i, q, j);
    }
  }

  lemma CriticalPairLemma(sys: System)
    requires OverlapsAgree(sys) && InnerPairsAgree(sys)
    ensures LocallyConfluent(sys)
  {
    forall t: Term, u: Term, v: Term | Step(sys, t, u) && Step(sys, t, v)
      ensures Joinable(sys, u, v)
    {
      var p: nat, i: nat :| StepBy(sys, t, u, p, i);
      var q: nat, j: nat :| StepBy(sys, t, v, q, j);
      if p <= q {
        PeakJoins(sys, t, p, i, q, j);
      } else {
        PeakJoins(sys, t, q, j, p, i);
        JoinableSymmetric(sys, v, u);
      }
    }
  }

  // ---------------------------------------------------------------------------------------
  // Unique normal forms
  // ---------------------------------------------------------------------------------------

  /** For any terminating system, however it terminates: when the report is positive and the
      inner matches agree too, each term has one normal form and the bounded engine returns it
      for every term within the step bound. */
  lemma ConfluenceSound(sys: System, m: Term -> nat)
    requires Terminates(sys, m) && OverlapsAgree(sys) && InnerPairsAgree(sys)
    ensures UniqueNormalForms(sys)
    ensures forall t: Term :: m(t) <= MAX_STEPS ==> OnlyNormalFormOf(sys, t, Normalize(sys, t, MAX_STEPS))
  {
    CriticalPairLemma(sys);
    forall t: Term, steps: nat | m(t) <= steps
      ensures OnlyNormalFormOf(sys, t, Normalize(sys, t, steps))
    {
      OnlyOneNormalForm(sys, m, t, steps);
    }
    forall t: Term
      ensures HasUniqueNormalForm(sys, t)
    {
      assert OnlyNormalFormOf(sys, t, Normalize(sys, t, m(t)));
    }
  }

  lemma OnlyOneNormalForm(sys: System, m: Term -> nat, t: Term, steps: nat)
    requires Terminates(sys, m) && LocallyConfluent(sys) && m(t) <= steps
    ensures OnlyNormalFormOf(sys, t, Normalize(sys, t, steps))
  {
    var n := Normalize(sys, t, steps);
    NormalizeReaches(sys, t, steps);
    NormalizeIsNormal(sys, m, t, steps);
    forall n': Term | IsNormalFormOf(sys, t, n')
      ensures n' == n
    {
      var w := Newman(sys, m, t, n, n');
      NormalIsFinal(sys, n, w);
      NormalIsFinal(sys, n', w);
    }
  }

  lemma UniqueFormsAgree(sys: System, m: Term -> nat, t: Term, u: Term, v: Term)
    requires Terminates(sys, m) && HasUniqueNormalForm(sys, t)
    requires Reaches(sys, t, u) && Reaches(sys, t, v)
    requires m(u) <= MAX_STEPS && m(v) <= MAX_STEPS
    ensures Normalize(sys, u, MAX_STEPS) == Normalize(sys, v, MAX_STEPS)
  {
    var nu, nv := Normalize(sys, u, MAX_STEPS), Normalize(sys, v, MAX_STEPS);
    NormalizeReaches(sys, u, MAX_STEPS);
    NormalizeReaches(sys, v, MAX_STEPS);
    NormalizeIsNormal(sys, m, u, MAX_STEPS);
    NormalizeIsNormal(sys, m, v, MAX_STEPS);
    ReachesTransitive(sys, t, u, nu);
    ReachesTransitive(sys, t, v, nv);
    var n: Term :| OnlyNormalFormOf(sys, t, n);
    assert IsNormalFormOf(sys, t, nu) && IsNormalFormOf(sys, t, nv);
  }

  predicate LengthDecreasing(sys: System) {
    forall i :: 0 <= i < |sys| ==> |sys[i].rhs| < |sys[i].lhs|
  }

  lemma LengthTerminates(sys: System)
    requires LengthDecreasing(sys)
    ensures Terminates(sys, (t: Term) => |t|)
  {
  }

  ghost predicate ShortRules(sys: System) {
    forall i :: 0 <= i < |sys| ==> |sys[i].lhs| <= MAX_STEPS / 2
  }

  lemma OverlapMustAgree(sys: System, i: nat, j: nat, k: nat)
    requires LengthDecreasing(sys) && UniqueNormalForms(sys) && ShortRules(sys)
    requires i < |sys| && j < |sys|
    ensures !Diverges(sys, sys[i], sys[j], k)
  {
    hide Normalize, Reaches;
    if Overlaps(sys[i], sys[j], k) {
      LengthTerminates(sys);
      var a, b, t := sys[i], sys[j], OverlapTerm(sys[i], sys[j], k);
      var ra, rb := ApplyAt(t, 0, a), ApplyAt(t, |a.lhs| - k, b);
      OverlapReductsReached(sys, i, j, k);
      StepReaches(sys, t, ra);
      StepReaches(sys, t, rb);
      assert HasUniqueNormalForm(sys, t);
      UniqueFormsAgree(sys, (t: Term) => |t|, t, ra, rb);
    }
  }

  lemma InnerMustAgree(sys: System, i: nat, j: nat, off: nat)
    requires LengthDecreasing(sys) && UniqueNormalForms(sys) && ShortRules(sys)
    requires InnerMatch(sys, i, j, off)
    ensures InnerAgrees(sys, i, j, off)
  {
    hide Normalize, Reaches;
    LengthTerminates(sys);
    var t := sys[j].lhs;
    var inner := ApplyAt(t, off, sys[i]);
    RuleInContext(sys, [], j, []);
    assert [] + t + [] == t && [] + sys[j].rhs + [] == sys[j].rhs;
    assert StepBy(sys, t, inner, off, i);
    StepReaches(sys, t, inner);
    StepReaches(sys, t, sys[j].rhs);
    assert HasUniqueNormalForm(sys, t);
    UniqueFormsAgree(sys, (t: Term) => |t|, t, inner, sys[j].rhs);
  }

  /** Exactly when a length-decreasing system has unique normal forms. The positive half holds for
      every such system. The other half needs left-hand sides too short to exhaust the step bound
      inside the check itself; `ReportStopsEarly` shows a confluent system it rejects. */
  lemma UniqueNormalFormsExactly(sys: System)
    requires LengthDecreasing(sys)
    ensures OverlapsAgree(sys) && InnerPairsAgree(sys) ==> UniqueNormalForms(sys)
    ensures ShortRules(sys) ==> (UniqueNormalForms(sys) <==> OverlapsAgree(sys) && InnerPairsAgree(sys))
  {
    LengthTerminates(sys);
    if OverlapsAgree(sys) && InnerPairsAgree(sys) {
      ConfluenceSound(sys, (t: Term) => |t|);
    } else if UniqueNormalForms(sys) && ShortRules(sys) {
      forall i: nat, j: nat, k: nat | i < |sys| && j < |sys|
        ensures !Diverges(sys, sys[i], sys[j], k)
      {
        OverlapMustAgree(sys, i, j, k);
      }
      forall i: nat, j: nat, off: nat | InnerMatch(sys, i, j, off)
        ensures InnerAgrees(sys, i, j, off)
      {
        InnerMustAgree(sys, i, j, off);
      }
    }
  }

  /** The report's promise holds where no left-hand side is a factor of another. */
  lemma ReportDecidesConfluence(sys: System)
    requires LengthDecreasing(sys) && NoInnerMatch(sys)
    ensures OverlapsAgree(sys) ==> UniqueNormalForms(sys)
    ensures ShortRules(sys) ==> (UniqueNormalForms(sys) <==> OverlapsAgree(sys))
  {
    UniqueNormalFormsExactly(sys);
  }

  method NormalForm(sys: System, input: Term) returns (n: Term)
    ensures Reaches(sys, input, n)
    ensures LengthDecreasing(sys) && |input| <= MAX_STEPS ==> Normal(sys, n)
    ensures LengthDecreasing(sys) && |input| <= MAX_STEPS && OverlapsAgree(sys) && InnerPairsAgree(sys) ==>
              OnlyNormalFormOf(sys, input, n)
  {
    n := NormalizeBounded(sys, input, MAX_STEPS);
    if LengthDecreasing(sys) && |input| <= MAX_STEPS {
      LengthTerminates(sys);
      NormalizeIsNormal(sys, (t: Term) => |t|, input, MAX_STEPS);
      if OverlapsAgree(sys) && InnerPairsAgree(sys) {
        ConfluenceSound(sys, (t: Term) => |t|);
      }
    }
  }

  /** A positive report alone is not enough: `2` sits inside `1 2 3`, no proper overlap exists,
      and `1 2 3` has the two normal forms `4` and `1 3`. */
  lemma ReportMissesInnerMatches()
    ensures var sys: System := [RawRule.Rule([1, 2, 3], [4]), RawRule.Rule([2], [])];
            LengthDecreasing(sys) && OverlapsAgree(sys) && !UniqueNormalForms(sys)
  {
    var sys: System := [RawRule.Rule([1, 2, 3], [4]), RawRule.Rule([2], [])];
    forall i: nat, j: nat, k: nat | i < |sys| && j < |sys|
      ensures !Overlaps(sys[i], sys[j], k)
    {
      if i == 0 && j == 0 && 1 <= k < 3 {
        assert sys[i].lhs[3 - k..][0] != sys[j].lhs[..k][0];
      }
    }
    TwoNormalForms(sys);
  }

  lemma NormalInExample(sys: System, t: Term)
    requires sys == [RawRule.Rule([1, 2, 3], [4]), RawRule.Rule([2], [])]
    requires |t| < 3 && 2 !in t
    ensures Normal(sys, t)
  {
    forall pos: nat, idx: nat
      ensures !IsRedex(sys, t, pos, idx)
    {
      if idx == 1 && pos < |t| {
        assert t[pos..pos + 1][0] == t[pos];
      }
    }
  }

  lemma TwoNormalForms(sys: System)
    requires sys == [RawRule.Rule([1, 2, 3], [4]), RawRule.Rule([2], [])]
    ensures !HasUniqueNormalForm(sys, [1, 2, 3])
  {
    var t: Term, u: Term, v: Term := [1, 2, 3], [4], [1, 3];
    NormalInExample(sys, u);
    NormalInExample(sys, v);
    assert StepBy(sys, t, u, 0, 0);
    assert StepBy(sys, t, v, 1, 1);
    hide IsRedex, StepBy;
    StepReaches(sys, t, u);
    StepReaches(sys, t, v);
    assert IsNormalFormOf(sys, t, u) && IsNormalFormOf(sys, t, v);
    assert u[0] != v[0];
  }

  // ---------------------------------------------------------------------------------------
  // A confluent system the report rejects
  // ---------------------------------------------------------------------------------------

  function Xs(n: nat): Term {
    seq(n, i => 0)
  }

  /** `Y x^n Y -> Y x^(n-1) Y` and `x -> ` (nothing), where `x` is symbol 0 and `Y` symbol 1. */
  function Deleting(n: nat): System
    requires n > 0
  {
    [RawRule.Rule([1] + Xs(n) + [1], [1] + Xs(n - 1) + [1]), RawRule.Rule([0], [])]
  }

  function WithoutX(t: Term): Term {
    if t == [] then [] else (if t[0] == 0 then [] else [t[0]]) + WithoutX(t[1..])
  }

  lemma {:induction false} WithoutXAppend(a: Term, b: Term)
    ensures WithoutX(a + b) == WithoutX(a) + WithoutX(b)
  {
    if a == [] {
      assert a + b == b;
    } else {
      assert (a + b)[1..] == a[1..] + b;
      WithoutXAppend(a[1..], b);
    }
  }

  lemma {:induction false} WithoutXOfXs(n: nat)
    ensures WithoutX(Xs(n)) == []
  {
    if n > 0 {
      WithoutXOfXs(n - 1);
      assert Xs(n)[1..] == Xs(n - 1);
    }
  }

  lemma {:induction false} NothingToDelete(t: Term)
    requires 0 !in t
    ensures WithoutX(t) == t
  {
    if t != [] {
      NothingToDelete(t[1..]);
    }
  }

  lemma StepKeepsRest(n: nat, t: Term, u: Term)
    requires n > 0 && Step(Deleting(n), t, u)
    ensures WithoutX(u) == WithoutX(t)
  {
    var pos: nat, idx: nat :| StepBy(Deleting(n), t, u, pos, idx);
    var r := Deleting(n)[idx];
    var before, after := t[..pos], t[pos + |r.lhs|..];
    assert t == before + r.lhs + after && u == before + r.rhs + after;
    hide WithoutX;
    RuleKeepsRest(n, idx);
    WithoutXAppend(before + r.lhs, after);
    WithoutXAppend(before, r.lhs);
    WithoutXAppend(before + r.rhs, after);
    WithoutXAppend(before, r.rhs);
  }

  lemma RuleKeepsRest(n: nat, idx: nat)
    requires n > 0 && idx < 2
    ensures WithoutX(Deleting(n)[idx].lhs) == WithoutX(Deleting(n)[idx].rhs)
  {
    if idx == 0 {
      WithoutXAppend([1] + Xs(n), [1]);
      WithoutXAppend([1], Xs(n));
      WithoutXAppend([1] + Xs(n - 1), [1]);
      WithoutXAppend([1], Xs(n - 1));
      WithoutXOfXs(n);
      WithoutXOfXs(n - 1);
    }
  }

  lemma {:induction false} DerivesKeepsRest(n: nat, t: Term, u: Term, k: nat)
    requires n > 0 && Derives(Deleting(n), t, u, k)
    ensures WithoutX(u) == WithoutX(t)
    decreases k
  {
    hide WithoutX, Deleting;
    if k > 0 {
      var v :| Step(Deleting(n), t, v) && Derives(Deleting(n), v, u, k - 1);
      StepKeepsRest(n, t, v);
      DerivesKeepsRest(n, v, u, k - 1);
    }
  }

  /** Whatever is rewritten where, what remains of a term is the term without its `x`. */
  lemma DeletingIsConfluent(n: nat)
    requires n > 0
    ensures LengthDecreasing(Deleting(n)) && UniqueNormalForms(Deleting(n))
  {
    var sys := Deleting(n);
    LengthTerminates(sys);
    forall t: Term
      ensures HasUniqueNormalForm(sys, t)
    {
      var m := Normalize(sys, t, |t|);
      NormalizeReaches(sys, t, |t|);
      NormalizeIsNormal(sys, (t: Term) => |t|, t, |t|);
      forall u: Term | IsNormalFormOf(sys, t, u)
        ensures u == WithoutX(t)
      {
        NormalIsRest(n, t, u);
      }
      assert IsNormalFormOf(sys, t, m);
      assert OnlyNormalFormOf(sys, t, m);
    }
  }

  lemma NormalIsRest(n: nat, t: Term, u: Term)
    requires n > 0 && IsNormalFormOf(Deleting(n), t, u)
    ensures u == WithoutX(t)
  {
    var k: nat :| Derives(Deleting(n), t, u, k);
    DerivesKeepsRest(n, t, u, k);
    forall i | 0 <= i < |u|
      ensures u[i] != 0
    {
      assert !IsRedex(Deleting(n), u, i, 1);
      assert u[i..i + 1] == [u[i]];
    }
    NothingToDelete(u);
  }

  /** As long as the first run of `x` is shorter than `n`, the engine deletes it one by one. */
  lemma {:induction false} DeletesFirstRun(n: nat, a: nat, tail: Term, steps: nat)
    requires n > 0 && steps <= a < n && tail != [] && tail[0] == 1
    ensures Normalize(Deleting(n), [1] + Xs(a) + tail, steps) == [1] + Xs(a - steps) + tail
    decreases steps
  {
    hide Normalize, Deleting, FirstRedex, IsFirstRedex, ApplyAt, Xs;
    var sys, t := Deleting(n), [1] + Xs(a) + tail;
    if steps == 0 {
      NormalizeNothing(sys, t);
    } else {
      FirstIsX(n, a, tail);
      NormalizeFirst(sys, t, 1, 1, steps);
      DeletesFirstRun(n, a - 1, tail, steps - 1);
    }
  }

  lemma NormalizeNothing(sys: System, t: Term)
    ensures Normalize(sys, t, 0) == t
  {
  }

  lemma NormalizeFirst(sys: System, t: Term, pos: nat, idx: nat, steps: nat)
    requires steps > 0 && FirstRedex(sys, t) == Some((pos, idx))
    ensures Normalize(sys, t, steps) == Normalize(sys, ApplyAt(t, pos, sys[idx]), steps - 1)
  {
  }

  lemma NoMatch(t: Term, pos: nat, r: Rule, i: nat)
    requires pos + i < |t| && i < |r.lhs| && t[pos + i] != r.lhs[i]
    ensures !Matches(t, pos, r)
  {
  }

  lemma FirstIsX(n: nat, a: nat, tail: Term)
    requires 0 < a < n && tail != [] && tail[0] == 1
    ensures var t := [1] + Xs(a) + tail;
            && FirstRedex(Deleting(n), t) == Some((1, 1))
            && ApplyAt(t, 1, Deleting(n)[1]) == [1] + Xs(a - 1) + tail
  {
    var sys, t := Deleting(n), [1] + Xs(a) + tail;
    var lhs := sys[0].lhs;
    hide FirstRedex;
    assert t[1..2] == [0] && IsRedex(sys, t, 1, 1);
    assert t[0] == 1 && t[1] == 0 && t[a + 1] == 1 && lhs[0] == 1 && lhs[a + 1] == 0;
    NoMatch(t, 0, sys[0], a + 1);
    NoMatch(t, 1, sys[0], 0);
    assert t[0..1] == [1] && !Matches(t, 0, sys[1]);
    assert t[..1] + [] + t[2..] == [1] + Xs(a - 1) + tail;
  }

  lemma FirstIsWhole(n: nat, tail: Term)
    requires n > 0
    ensures var t := [1] + Xs(n) + [1] + tail;
            && FirstRedex(Deleting(n), t) == Some((0, 0))
            && ApplyAt(t, 0, Deleting(n)[0]) == [1] + Xs(n - 1) + [1] + tail
  {
  }

  /** With runs longer than the step bound the two reducts of the overlap of the first rule with itself
      are both cut off on the way to their common normal form: a confluent, shrinking system whose
      report is negative. */
  lemma ReportStopsEarly(n: nat)
    requires n == MAX_STEPS + 1
    ensures LengthDecreasing(Deleting(n)) && UniqueNormalForms(Deleting(n)) && !OverlapsAgree(Deleting(n))
  {
    DeletingIsConfluent(n);
    OverlapOfFirst(n);
    var sys, a := Deleting(n), Deleting(n)[0];
    var t := OverlapTerm(a, a, 1);
    hide Normalize, UniqueNormalForms, LengthDecreasing, Deleting;
    var restA, restB := [1] + Xs(n) + [1], [1] + Xs(n - 1) + [1];
    DeletesFirstRun(n, n - 1, restA, MAX_STEPS);
    OneThenDeletes(n, MAX_STEPS);
    assert ([1] + Xs(n - 1 - MAX_STEPS) + restA)[1] != ([1] + Xs(n - MAX_STEPS) + restB)[1];
    assert Diverges(sys, a, a, 1);
    assert !OverlapsAgree(sys) by {
      assert Diverges(sys, sys[0], sys[0], 1);
    }
  }

  lemma OneThenDeletes(n: nat, steps: nat)
    requires 0 < steps <= n
    ensures var rest := [1] + Xs(n - 1) + [1];
            Normalize(Deleting(n), [1] + Xs(n) + rest, steps) == [1] + Xs(n - steps) + rest
  {
    hide Normalize, Deleting, FirstRedex;
    var tail, rest := Xs(n - 1) + [1], [1] + Xs(n - 1) + [1];
    var t := [1] + Xs(n) + [1] + tail;
    FirstIsWhole(n, tail);
    NormalizeFirst(Deleting(n), t, 0, 0, steps);
    assert t == [1] + Xs(n) + rest && [1] + Xs(n - 1) + [1] + tail == [1] + Xs(n - 1) + rest;
    DeletesFirstRun(n, n - 1, rest, steps - 1);
  }

  lemma OverlapOfFirst(n: nat)
    requires n > 0
    ensures var a, t := Deleting(n)[0], [1] + Xs(n) + [1] + Xs(n) + [1];
            && Overlaps(a, a, 1) && OverlapTerm(a, a, 1) == t
            && ApplyAt(t, 0, a) == [1] + Xs(n - 1) + ([1] + Xs(n) + [1])
            && ApplyAt(t, |a.lhs| - 1, a) == [1] + Xs(n) + ([1] + Xs(n - 1) + [1])
  {
  }

  // ---------------------------------------------------------------------------------------
  // The shipped rule set
  // ---------------------------------------------------------------------------------------

  const WS: Symbol := 0
  const LP: Symbol := 1
  const RP: Symbol := 2
  const SEP: Symbol := 3

  function DemoRules(): System {
    [RawRule.Rule([WS, WS], [WS]), RawRule.Rule([LP, RP], []), RawRule.Rule([SEP, WS], [WS]),
     RawRule.Rule([WS, RP], [RP]), RawRule.Rule([SEP, RP], [RP])]
  }

  lemma NormalizeOneStep(sys: System, t: Term, idx: nat, u: Term, steps: nat)
    requires IsFirstRedex(sys, t, 0, idx) && u == ApplyAt(t, 0, sys[idx]) && steps > 0
    ensures Normalize(sys, t, steps) == Normalize(sys, u, steps - 1)
  {
  }

  lemma NormalizeDone(sys: System, t: Term, steps: nat)
    requires Normal(sys, t)
    ensures Normalize(sys, t, steps) == t
  {
  }

  lemma DemoSingle(x: Symbol, y: Symbol, idx: nat, z: Symbol, steps: nat)
    requires idx < 5 && DemoRules()[idx] == RawRule.Rule([x, y], [z]) && steps > 0
    ensures Normalize(DemoRules(), [x, y], steps) == [z]
  {
    var sys := DemoRules();
    assert Matches([x, y], 0, sys[idx]);
    forall i: nat | IsRedex(sys, [x, y], 0, i)
      ensures i == idx
    {
      assert [x, y][0..2] == [x, y];
    }
    NormalizeOneStep(sys, [x, y], idx, [z], steps);
    assert Normal(sys, [z]);
    NormalizeDone(sys, [z], steps - 1);
  }

  /** The shipped rules give every term a unique normal form. */
  lemma DemoRulesConfluent()
    ensures LengthDecreasing(DemoRules()) && NoInnerMatch(DemoRules()) && OverlapsAgree(DemoRules())
    ensures UniqueNormalForms(DemoRules())
  {
    var sys := DemoRules();
    forall i: nat, j: nat, off: nat
      ensures !InnerMatch(sys, i, j, off)
    {
      if i < |sys| && j < |sys| && off == 0 {
        assert sys[j].lhs[0..2] == sys[j].lhs;
      }
    }
    forall i: nat, j: nat, k: nat | i < |sys| && j < |sys|
      ensures !Diverges(sys, sys[i], sys[j], k)
    {
      if Overlaps(sys[i], sys[j], k) {
        DemoOverlapAgrees(i, j, k);
      }
    }
    ReportDecidesConfluence(sys);
  }

  lemma DemoOverlapShape(i: nat, j: nat, k: nat)
    requires i < 5 && j < 5 && Overlaps(DemoRules()[i], DemoRules()[j], k)
    ensures k == 1 && (i == 0 || i == 2) && (j == 0 || j == 3)
  {
    var a, b := DemoRules()[i], DemoRules()[j];
    assert a.lhs[1..][0] == b.lhs[..1][0];
  }

  lemma DemoReducts(i: nat, j: nat)
    requires (i == 0 || i == 2) && (j == 0 || j == 3) && Overlaps(DemoRules()[i], DemoRules()[j], 1)
    ensures var a, b, t := DemoRules()[i], DemoRules()[j], OverlapTerm(DemoRules()[i], DemoRules()[j], 1);
            && ApplyAt(t, 0, a) == [WS, b.lhs[1]]
            && ApplyAt(t, 1, b) == [a.lhs[0], b.lhs[1]]
  {
  }

  lemma DemoOverlapAgrees(i: nat, j: nat, k: nat)
    requires i < 5 && j < 5 && Overlaps(DemoRules()[i], DemoRules()[j], k)
    ensures !Diverges(DemoRules(), DemoRules()[i], DemoRules()[j], k)
  {
    hide Normalize;
    DemoOverlapShape(i, j, k);
    DemoReducts(i, j);
    var last := DemoRules()[j].lhs[1];
    DemoSingle(WS, last, if j == 0 then 0 else 3, last, MAX_STEPS);
    DemoSingle(SEP, last, if j == 0 then 2 else 4, last, MAX_STEPS);
  }
}
