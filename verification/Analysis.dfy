/** Task signals turned into complexity and risk scores (analysis.py). */
module Analysis {
  import opened Common

  predicate Unit(x: real) { 0.0 <= x <= 1.0 }

  function Clamp(x: real): (r: real)
    ensures Unit(r)
  {
    MaxReal(0.0, MinReal(1.0, x))
  }

  datatype TaskProfile = TaskProfile(
    files: nat,
    modules: nat,
    architecturalImpact: real,
    securityImpact: real,
    dataImpact: real,
    ambiguity: real,
    novelty: real,
    reversibility: real,
    testCoverage: real,
    priorFailures: nat,
    expectedOutputTokens: nat)

  /** Every signal of easier is at most as hard as the same signal of harder. */
  predicate Easier(easier: TaskProfile, harder: TaskProfile) {
    && easier.files <= harder.files
    && easier.modules <= harder.modules
    && easier.architecturalImpact <= harder.architecturalImpact
    && easier.securityImpact <= harder.securityImpact
    && easier.dataImpact <= harder.dataImpact
    && easier.ambiguity <= harder.ambiguity
    && easier.novelty <= harder.novelty
    && easier.reversibility >= harder.reversibility
    && easier.testCoverage >= harder.testCoverage
    && easier.priorFailures <= harder.priorFailures
    && easier.expectedOutputTokens <= harder.expectedOutputTokens
  }

  /** The factors later stages read, with the blended score and its level (0 is the mildest). */
  datatype Complexity = Complexity(score: real, level: nat, architecturalImpact: real, ambiguity: real)

  datatype Risk = Risk(
    score: real,
    level: nat,
    securityImpact: real,
    dataImpact: real,
    irreversibility: real,
    priorFailures: real)

  function Saturating(count: nat, k: real): real
    requires k > 0.0
  {
    (count as real) / (count as real + k)
  }

  function LevelOf(score: real): nat {
    if score < 0.15 then 0
    else if score < 0.35 then 1
    else if score < 0.60 then 2
    else if score < 0.85 then 3
    else 4
  }

  function AssessComplexity(t: TaskProfile): Complexity {
    var score := Clamp(
      0.20 * Saturating(t.files, 12.0) + 0.20 * Saturating(t.modules, 5.0)
      + 0.25 * t.architecturalImpact + 0.15 * t.ambiguity + 0.10 * t.novelty
      + 0.10 * (1.0 - t.testCoverage));
    Complexity(score, LevelOf(score), t.architecturalImpact, t.ambiguity)
  }

  const CRITICAL_SIGNAL := 0.85

  function AssessRisk(t: TaskProfile): Risk {
    var failures := Saturating(t.priorFailures, 3.0);
    var irreversibility := 1.0 - t.reversibility;
    var score := Clamp(
      0.30 * t.securityImpact + 0.25 * t.dataImpact + 0.20 * irreversibility
      + 0.10 * t.architecturalImpact + 0.15 * failures);
    var critical :=
      t.securityImpact >= CRITICAL_SIGNAL || t.dataImpact >= CRITICAL_SIGNAL || irreversibility >= CRITICAL_SIGNAL;
    Risk(score, if critical then 4 else LevelOf(score), t.securityImpact, t.dataImpact, irreversibility, failures)
  }

  lemma CancelFactor(x: real, y: real, d: real)
    requires d > 0.0 && x * d <= y * d
    ensures x <= y
  {}

  lemma Associates(x: real, d: real, e: real)
    ensures (x * d) * e == x * (d * e)
  {}

  /** Cross-multiplied fractions compare like the fractions. */
  lemma FractionsCompare(p: real, d: real, q: real, e: real)
    requires d > 0.0 && e > 0.0 && p * e <= q * d
    ensures p / d <= q / e
  {
    var x, y := p / d, q / e;
    assert x * d == p && y * e == q;
    Associates(x, d, e);
    Associates(y, e, d);
    assert e * d == d * e > 0.0;
    CancelFactor(x, y, d * e);
  }

  lemma SaturatingMonotone(a: nat, b: nat, k: real)
    requires a <= b && k > 0.0
    ensures 0.0 <= Saturating(a, k) <= Saturating(b, k) <= 1.0
  {
    var p, q := a as real, b as real;
    assert p * (q + k) <= q * (p + k) by {
      assert p * (q + k) == p * q + p * k && q * (p + k) == p * q + q * k;
      assert p * k <= q * k;
    }
    FractionsCompare(p, p + k, q, q + k);
    FractionsCompare(0.0, 1.0, p, p + k);
    FractionsCompare(q, q + k, 1.0, 1.0);
  }

  /** Both scores are weighted averages: they lie between the mildest and the hardest of their factors. */
  lemma ScoresAreAverages(t: TaskProfile, lo: real, hi: real)
    requires 0.0 <= lo && hi <= 1.0
    ensures
      && lo <= Saturating(t.files, 12.0) <= hi && lo <= Saturating(t.modules, 5.0) <= hi
      && lo <= t.architecturalImpact <= hi && lo <= t.ambiguity <= hi && lo <= t.novelty <= hi
      && lo <= 1.0 - t.testCoverage <= hi
      ==> lo <= AssessComplexity(t).score <= hi
    ensures
      && lo <= t.securityImpact <= hi && lo <= t.dataImpact <= hi && lo <= 1.0 - t.reversibility <= hi
      && lo <= t.architecturalImpact <= hi && lo <= Saturating(t.priorFailures, 3.0) <= hi
      ==> lo <= AssessRisk(t).score <= hi
  {
    WeightedComplexity(Saturating(t.files, 12.0), Saturating(t.modules, 5.0), t, lo, hi);
    WeightedRisk(Saturating(t.priorFailures, 3.0), t, lo, hi);
  }

  lemma WeightedComplexity(files: real, modules: real, t: TaskProfile, lo: real, hi: real)
    ensures
      && lo <= files <= hi && lo <= modules <= hi && lo <= t.architecturalImpact <= hi
      && lo <= t.ambiguity <= hi && lo <= t.novelty <= hi && lo <= 1.0 - t.testCoverage <= hi
      ==> lo <= 0.20 * files + 0.20 * modules + 0.25 * t.architecturalImpact + 0.15 * t.ambiguity + 0.10 * t.novelty
                + 0.10 * (1.0 - t.testCoverage) <= hi
  {}

  lemma WeightedRisk(failures: real, t: TaskProfile, lo: real, hi: real)
    ensures
      && lo <= t.securityImpact <= hi && lo <= t.dataImpact <= hi && lo <= 1.0 - t.reversibility <= hi
      && lo <= t.architecturalImpact <= hi && lo <= failures <= hi
      ==> lo <= 0.30 * t.securityImpact + 0.25 * t.dataImpact + 0.20 * (1.0 - t.reversibility)
                + 0.10 * t.architecturalImpact + 0.15 * failures <= hi
  {}

  /** Every signal that is a share lies between zero and one, as the profile demands. */
  predicate InRange(t: TaskProfile) {
    && Unit(t.architecturalImpact) && Unit(t.securityImpact) && Unit(t.dataImpact) && Unit(t.ambiguity)
    && Unit(t.novelty) && Unit(t.reversibility) && Unit(t.testCoverage)
  }

  /** A count saturates: half way at k, never all the way. */
  lemma SaturationIs(count: nat, k: real)
    requires k > 0.0
    ensures Saturating(count, k) * (count as real + k) == count as real
    ensures 0.0 <= Saturating(count, k) < 1.0
  {
    SaturatingMonotone(0, count, k);
    FractionsCompare(0.0, 1.0, count as real, count as real + k);
  }

  /** How much each signal moves a score: from one profile in range to another, the scores differ by exactly the
      weighted differences of their signals, and the weights of either score add up to one. */
  lemma ScoresRespond(t: TaskProfile, t': TaskProfile)
    requires InRange(t) && InRange(t')
    ensures AssessComplexity(t').score - AssessComplexity(t).score ==
      0.20 * (Saturating(t'.files, 12.0) - Saturating(t.files, 12.0))
      + 0.20 * (Saturating(t'.modules, 5.0) - Saturating(t.modules, 5.0))
      + 0.25 * (t'.architecturalImpact - t.architecturalImpact) + 0.15 * (t'.ambiguity - t.ambiguity)
      + 0.10 * (t'.novelty - t.novelty) - 0.10 * (t'.testCoverage - t.testCoverage)
    ensures AssessRisk(t').score - AssessRisk(t).score ==
      0.30 * (t'.securityImpact - t.securityImpact) + 0.25 * (t'.dataImpact - t.dataImpact)
      - 0.20 * (t'.reversibility - t.reversibility) + 0.10 * (t'.architecturalImpact - t.architecturalImpact)
      + 0.15 * (Saturating(t'.priorFailures, 3.0) - Saturating(t.priorFailures, 3.0))
  {
    ScoreIsUnclamped(t);
    ScoreIsUnclamped(t');
  }

  lemma ScoreIsUnclamped(t: TaskProfile)
    requires InRange(t)
    ensures AssessComplexity(t).score ==
      0.20 * Saturating(t.files, 12.0) + 0.20 * Saturating(t.modules, 5.0) + 0.25 * t.architecturalImpact
      + 0.15 * t.ambiguity + 0.10 * t.novelty + 0.10 * (1.0 - t.testCoverage)
    ensures AssessRisk(t).score ==
      0.30 * t.securityImpact + 0.25 * t.dataImpact + 0.20 * (1.0 - t.reversibility)
      + 0.10 * t.architecturalImpact + 0.15 * Saturating(t.priorFailures, 3.0)
  {
    SaturatingMonotone(0, t.files, 12.0);
    SaturatingMonotone(0, t.modules, 5.0);
    SaturatingMonotone(0, t.priorFailures, 3.0);
    WeightedComplexity(Saturating(t.files, 12.0), Saturating(t.modules, 5.0), t, 0.0, 1.0);
    WeightedRisk(Saturating(t.priorFailures, 3.0), t, 0.0, 1.0);
  }

  const LEVEL_FLOORS: seq<real> := [0.0, 0.15, 0.35, 0.60, 0.85]

  /** A level is the highest whose floor the score reaches; one critical risk signal alone makes the risk level the
      highest. The signals that later stages read are passed on as they are. */
  lemma LevelsExactly(t: TaskProfile, level: nat)
    requires 0 < level <= 4
    ensures var c := AssessComplexity(t);
      && (c.level >= level <==> c.score >= LEVEL_FLOORS[level]) && c.level <= 4
      && c.architecturalImpact == t.architecturalImpact && c.ambiguity == t.ambiguity
    ensures var r := AssessRisk(t);
      && (r.level >= level <==>
            || r.score >= LEVEL_FLOORS[level]
            || t.securityImpact >= 0.85 || t.dataImpact >= 0.85 || 1.0 - t.reversibility >= 0.85)
      && r.level <= 4
      && r.securityImpact == t.securityImpact && r.dataImpact == t.dataImpact
      && r.irreversibility == 1.0 - t.reversibility && r.priorFailures == Saturating(t.priorFailures, 3.0)
  {}

  predicate ComplexityLeq(a: Complexity, b: Complexity) {
    && a.score <= b.score && a.level <= b.level
    && a.architecturalImpact <= b.architecturalImpact && a.ambiguity <= b.ambiguity
  }

  predicate RiskLeq(a: Risk, b: Risk) {
    && a.score <= b.score && a.level <= b.level
    && a.securityImpact <= b.securityImpact && a.dataImpact <= b.dataImpact
    && a.irreversibility <= b.irreversibility && a.priorFailures <= b.priorFailures
  }

  /** An easier task never scores higher, in either assessment or in any factor that is read later. */
  lemma AssessmentMonotone(easier: TaskProfile, harder: TaskProfile)
    requires Easier(easier, harder)
    ensures ComplexityLeq(AssessComplexity(easier), AssessComplexity(harder))
    ensures RiskLeq(AssessRisk(easier), AssessRisk(harder))
  {
    SaturatingMonotone(easier.files, harder.files, 12.0);
    SaturatingMonotone(easier.modules, harder.modules, 5.0);
    SaturatingMonotone(easier.priorFailures, harder.priorFailures, 3.0);
  }
}
