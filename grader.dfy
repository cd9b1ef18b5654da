/** The grading arithmetic of the Monte Carlo notebook grader.

    Each of the five task graders runs a checklist: it stops at the first
    check that fails, adds a fixed weight for every check passed before
    that, and reports one line of feedback. A check that raises is caught
    and ends the checklist the same way, with the exception's text. What
    the student's functions return is abstracted into a probe record per
    task: a `Check` for each yes/no test, the numbers the autograder compares
    against its constants, and the text the autograder's messages embed. */
module Grading {
  import opened Text

  /** The result of one test on the student's function: it passed, it
      failed, or evaluating it raised an exception with the given text. */
  datatype Check = Pass | Fail | Raise(error: string)

  /** A value the autograder reads off the student's result, or the text of the
      exception reading it raised. */
  datatype Attempt<T> = Value(value: T) | Raised(error: string)

  datatype Option<T> = None | Some(value: T)

  // ---------------------------------------------------------------------
  // Checklists: the score is the weight of the passing prefix.

  /** The number of checks that pass before the first one that does not. */
  function LeadingPasses(outs: seq<Check>): (k: nat)
    ensures k <= |outs|
    ensures forall i :: 0 <= i < k ==> outs[i] == Pass
    ensures k < |outs| ==> outs[k] != Pass
  {
    if outs == [] || outs[0] != Pass then 0 else 1 + LeadingPasses(outs[1..])
  }

  /** A checklist stops at k exactly when the checks before k pass and the
      one at k (if any) does not. */
  lemma StopsAt(outs: seq<Check>, k: nat)
    requires k <= |outs|
    requires forall i :: 0 <= i < k ==> outs[i] == Pass
    requires k < |outs| ==> outs[k] != Pass
    ensures LeadingPasses(outs) == k
  {
  }

  /** The sum of the first k weights. */
  function PrefixSum(ws: seq<nat>, k: nat): nat
    requires k <= |ws|
  {
    if k == 0 then 0 else PrefixSum(ws, k - 1) + ws[k - 1]
  }

  /** Passing more checks never lowers the score, so no score exceeds the
      sum of all the weights. */
  lemma {:induction false} PrefixSumMonotone(ws: seq<nat>, j: nat, k: nat)
    requires j <= k <= |ws|
    ensures PrefixSum(ws, j) <= PrefixSum(ws, k)
    decreases k - j
  {
    if j < k {
      PrefixSumMonotone(ws, j, k - 1);
    }
  }

  /** The points a checklist with these weights awards. */
  function Earned(ws: seq<nat>, outs: seq<Check>): nat
    requires |ws| == |outs|
  {
    PrefixSum(ws, LeadingPasses(outs))
  }

  /** A checklist's score lies between 0 and the sum of its weights. */
  lemma EarnedCapped(ws: seq<nat>, outs: seq<Check>)
    requires |ws| == |outs|
    ensures Earned(ws, outs) <= PrefixSum(ws, |ws|)
  {
    PrefixSumMonotone(ws, LeadingPasses(outs), |ws|);
  }

  /** The message reporting an exception raised while testing. */
  function ErrorNote(error: string): string {
    "❌ Error testing function: " + error
  }

  /** The feedback of a checklist: the success line when every check
      passes, otherwise the message of the check it stopped at, which is
      the exception's note when that check raised. */
  function Verdict(outs: seq<Check>, notes: seq<string>, success: string): string
    requires |notes| == |outs|
  {
    var k := LeadingPasses(outs);
    if k == |outs| then success
    else if outs[k].Raise? then ErrorNote(outs[k].error)
    else notes[k]
  }

  /** What a checklist that stops at k awards and reports. */
  lemma StopResult(ws: seq<nat>, outs: seq<Check>, notes: seq<string>, success: string, k: nat)
    requires |ws| == |outs| == |notes|
    requires k <= |outs|
    requires forall i :: 0 <= i < k ==> outs[i] == Pass
    requires k < |outs| ==> outs[k] != Pass
    ensures Earned(ws, outs) == PrefixSum(ws, k)
    ensures k == |outs| ==> Verdict(outs, notes, success) == success
    ensures k < |outs| ==> Verdict(outs, notes, success) == StopNote(outs[k], notes[k])
  {
    StopsAt(outs, k);
  }

  /** The note of a check that did not pass. */
  function StopNote(c: Check, failNote: string): string {
    if c.Raise? then ErrorNote(c.error) else failNote
  }

  /** The callable test never raises. */
  function CallableCheck(callable: bool): Check {
    if callable then Pass else Fail
  }

  const NotCallableNote := "❌ Function is not callable"

  // ---------------------------------------------------------------------
  // Task 1: generate_random_points

  /** What generate_random_points(100) gave: whether it is callable, whether
      it returned a pair, whether both parts are arrays, their lengths, and
      whether every x and every y lies in [-1, 1]. */
  datatype PointsProbe = PointsProbe(
    callable: bool, pair: Check, arrays: Check, lengths: Attempt<(nat, nat)>,
    xRange: Check, yRange: Check)

  const PointsWeights: seq<nat> := [2, 3, 3, 4, 4, 4]
  const PointsSuccess := "✓ generate_random_points() works correctly!"
  const TupleNote := "❌ Function should return a tuple of (x, y)"
  const ArraysNote := "❌ Function should return numpy arrays"
  const XRangeNote := "❌ x-coordinates should be between -1 and 1"
  const YRangeNote := "❌ y-coordinates should be between -1 and 1"

  /** Both arrays must hold exactly n points. */
  function PairLengthsCheck(lengths: Attempt<(nat, nat)>, n: nat): Check {
    match lengths
    case Raised(e) => Raise(e)
    case Value((a, b)) => if a == n && b == n then Pass else Fail
  }

  function PointsOutcomes(p: PointsProbe): (outs: seq<Check>)
    ensures |outs| == |PointsWeights|
  {
    [CallableCheck(p.callable), p.pair, p.arrays, PairLengthsCheck(p.lengths, 100),
     p.xRange, p.yRange]
  }

  function CountNote(lengths: Attempt<(nat, nat)>): string {
    match lengths
    case Raised(_) => ""
    case Value((a, b)) =>
      "❌ Should generate exactly 100 points, got " + NatToString(a) + " x-coords and "
      + NatToString(b) + " y-coords"
  }

  function PointsNotes(p: PointsProbe): (notes: seq<string>)
    ensures |notes| == |PointsWeights|
  {
    [NotCallableNote,
     TupleNote,
     ArraysNote,
     CountNote(p.lengths),
     XRangeNote,
     YRangeNote]
  }

  /** grade_generate_random_points: adds 2, 3, 3, 4, 4, 4 as the checks pass
      and returns at the first one that does not. */
  method GradeGenerateRandomPoints(p: PointsProbe) returns (points: nat, feedback: string)
    ensures points == Earned(PointsWeights, PointsOutcomes(p))
    ensures feedback == Verdict(PointsOutcomes(p), PointsNotes(p), PointsSuccess)
  {
    ghost var outs := PointsOutcomes(p);
    ghost var notes := PointsNotes(p);
    if !p.callable {
      StopResult(PointsWeights, outs, notes, PointsSuccess, 0);
      return 0, NotCallableNote;
    }
    points := 2;
    if p.pair != Pass {
      StopResult(PointsWeights, outs, notes, PointsSuccess, 1);
      return points, StopNote(p.pair, TupleNote);
    }
    points := points + 3;
    if p.arrays != Pass {
      StopResult(PointsWeights, outs, notes, PointsSuccess, 2);
      return points, StopNote(p.arrays, ArraysNote);
    }
    points := points + 3;
    var counted := PairLengthsCheck(p.lengths, 100);
    if counted != Pass {
      StopResult(PointsWeights, outs, notes, PointsSuccess, 3);
      return points, StopNote(counted, CountNote(p.lengths));
    }
    points := points + 4;
    if p.xRange != Pass {
      StopResult(PointsWeights, outs, notes, PointsSuccess, 4);
      return points, StopNote(p.xRange, XRangeNote);
    }
    points := points + 4;
    if p.yRange != Pass {
      StopResult(PointsWeights, outs, notes, PointsSuccess, 5);
      return points, StopNote(p.yRange, YRangeNote);
    }
    points := points + 4;
    StopResult(PointsWeights, outs, notes, PointsSuccess, 6);
    feedback := PointsSuccess;
  }

  /** The score is one of the prefix sums of 2, 3, 3, 4, 4, 4. */
  lemma PointsScoreValues(p: PointsProbe)
    ensures Earned(PointsWeights, PointsOutcomes(p)) in {0, 2, 5, 8, 12, 16, 20}
  {
    var k := LeadingPasses(PointsOutcomes(p));
    assert PrefixSum(PointsWeights, 0) == 0 && PrefixSum(PointsWeights, 1) == 2;
    assert PrefixSum(PointsWeights, 2) == 5 && PrefixSum(PointsWeights, 3) == 8;
    assert PrefixSum(PointsWeights, 4) == 12 && PrefixSum(PointsWeights, 5) == 16;
    assert PrefixSum(PointsWeights, 6) == 20;
    assert k in {0, 1, 2, 3, 4, 5, 6};
  }

  // ---------------------------------------------------------------------
  // Task 2: is_inside_circle

  /** One known point of the test table, as the autograder prints it, and
      whether it lies in the closed unit disc. */
  datatype KnownPoint = KnownPoint(x: real, y: real, xShown: string, yShown: string, inside: bool)

  const KnownPoints: seq<KnownPoint> := [
    KnownPoint(0.0, 0.0, "0", "0", true),
    KnownPoint(1.0, 0.0, "1", "0", true),
    KnownPoint(0.5, 0.5, "0.5", "0.5", true),
    KnownPoint(1.5, 0.0, "1.5", "0", false),
    KnownPoint(0.8, 0.8, "0.8", "0.8", false)]

  /** The expected answers of the test table are those of the unit disc. */
  lemma KnownPointsOnUnitDisc()
    ensures forall i :: 0 <= i < |KnownPoints| ==>
              (KnownPoints[i].inside <==> KnownPoints[i].x * KnownPoints[i].x + KnownPoints[i].y * KnownPoints[i].y <= 1.0)
  {
  }

  /** What a call on one known point gave: an exception, something that is
      not an array, or an array that matches the expected answer or not;
      in the latter case the text of its first element, whose reading can
      itself raise (an empty array has none). */
  datatype CaseResult = CaseRaised(error: string) | NotAnArray | Answer(matches: bool, shown: Attempt<string>)

  /** The five known-point calls and the length of the answer on the
      five-point batch. */
  datatype CircleRun = CircleRun(callable: bool, cases: seq<CaseResult>, batchLength: Attempt<nat>)
  type CircleProbe = p: CircleRun | |p.cases| == |KnownPoints|
    witness CircleRun(false, [NotAnArray, NotAnArray, NotAnArray, NotAnArray, NotAnArray], Raised(""))

  /** The x coordinates of the batch the length test calls the function on
      (its y coordinates are [0, 0.5, 0, 1.5, -0.7]); the answer must have
      one entry per point. */
  const BatchX: seq<real> := [0.0, 0.5, 1.5, 0.0, -0.7]

  const CircleWeights: seq<nat> := [2, 3, 3, 3, 3, 3, 3]
  const CircleSuccess := "✓ is_inside_circle() works correctly!"
  const LengthMismatchNote := "❌ Output array should have same length as input"
  const NotArrayNote := "❌ Function should return numpy array"

  function CaseCheck(c: CaseResult): Check {
    match c
    case CaseRaised(e) => Raise(e)
    case NotAnArray => Fail
    case Answer(matches, shown) =>
      if matches then Pass else if shown.Raised? then Raise(shown.error) else Fail
  }

  function LengthCheck(length: Attempt<nat>, n: nat): Check {
    match length
    case Raised(e) => Raise(e)
    case Value(m) => if m == n then Pass else Fail
  }

  function CircleOutcomes(p: CircleProbe): (outs: seq<Check>)
    ensures |outs| == |CircleWeights|
  {
    [CallableCheck(p.callable), CaseCheck(p.cases[0]), CaseCheck(p.cases[1]),
     CaseCheck(p.cases[2]), CaseCheck(p.cases[3]), CaseCheck(p.cases[4]),
     LengthCheck(p.batchLength, |BatchX|)]
  }

  function BoolText(b: bool): string {
    if b then "True" else "False"
  }

  /** The message of a known-point case that failed. */
  function CaseNote(c: CaseResult, point: KnownPoint): string {
    match c
    case Answer(_, Value(shown)) =>
      "❌ For point (" + point.xShown + ", " + point.yShown + "), expected "
      + BoolText(point.inside) + ", got " + shown
    case _ => NotArrayNote
  }

  function CircleNotes(p: CircleProbe): (notes: seq<string>)
    ensures |notes| == |CircleWeights|
  {
    [NotCallableNote] + seq(5, i requires 0 <= i < 5 => CaseNote(p.cases[i], KnownPoints[i]))
    + [LengthMismatchNote]
  }

  /** grade_is_inside_circle: 2 for being callable, 3 for each known point
      answered correctly, in order, and 3 for the batch length. */
  method GradeIsInsideCircle(p: CircleProbe) returns (points: nat, feedback: string)
    ensures points == Earned(CircleWeights, CircleOutcomes(p))
    ensures feedback == Verdict(CircleOutcomes(p), CircleNotes(p), CircleSuccess)
  {
    ghost var outs := CircleOutcomes(p);
    ghost var notes := CircleNotes(p);
    assert forall j :: 0 <= j < 5 ==>
      outs[j + 1] == CaseCheck(p.cases[j]) && notes[j + 1] == CaseNote(p.cases[j], KnownPoints[j]);
    if !p.callable {
      StopResult(CircleWeights, outs, notes, CircleSuccess, 0);
      return 0, NotCallableNote;
    }
    points := 2;
    var i := 0;
    while i < |KnownPoints|
      invariant 0 <= i <= |KnownPoints|
      invariant forall j :: 0 <= j <= i ==> outs[j] == Pass
      invariant points == PrefixSum(CircleWeights, i + 1)
    {
      var c := p.cases[i];
      if CaseCheck(c) != Pass {
        StopResult(CircleWeights, outs, notes, CircleSuccess, i + 1);
        return points, StopNote(CaseCheck(c), CaseNote(c, KnownPoints[i]));
      }
      assert PrefixSum(CircleWeights, i + 2) == PrefixSum(CircleWeights, i + 1) + 3;
      points := points + 3;
      i := i + 1;
    }
    var sized := LengthCheck(p.batchLength, |BatchX|);
    if sized != Pass {
      StopResult(CircleWeights, outs, notes, CircleSuccess, 6);
      return points, StopNote(sized, LengthMismatchNote);
    }
    points := points + 3;
    StopResult(CircleWeights, outs, notes, CircleSuccess, 7);
    feedback := CircleSuccess;
  }

  /** The score is 0, or 2 plus 3 for each check passed after it: at most 20. */
  lemma CircleScoreCapped(p: CircleProbe)
    ensures Earned(CircleWeights, CircleOutcomes(p)) <= 20
  {
    EarnedCapped(CircleWeights, CircleOutcomes(p));
    assert PrefixSum(CircleWeights, 7) == 20;
  }

  // ---------------------------------------------------------------------
  // Task 3: estimate_pi

  /** math.pi as a double, written out. */
  const MathPi: real := 3.141592653589793

  function Abs(r: real): (a: real)
    ensures a >= 0.0 && (a == r || a == -r)
  {
    if r < 0.0 then -r else r
  }

  /** What estimate_pi gave: the structural checks on estimate_pi(1000),
      the estimate itself and its text (formatted to four decimals), the
      lengths of the three arrays, and the estimates of the later calls
      with 100 and 100000 samples. */
  datatype EstimateProbe = EstimateProbe(
    callable: bool, quadruple: Check, isNumber: Check,
    estimate: real, estimateShown: string,
    arrayLengths: Attempt<(nat, nat, nat)>,
    samples: Attempt<(real, real)>)

  const EstimateWeights: seq<nat> := [3, 4, 4, 4, 4]
  const EstimateSuccess := "✓ estimate_pi() works correctly!"
  const QuadrupleNote := "❌ Function should return tuple of (pi_estimate, x, y, inside)"
  const NumberNote := "❌ π estimate should be a number"
  const ArrayLengthsNote := "❌ Arrays should have length equal to n"

  /** A plausible estimate lies strictly between 2.5 and 4.0. */
  function ReasonableCheck(estimate: real): Check {
    if 2.5 < estimate < 4.0 then Pass else Fail
  }

  function TripleLengthsCheck(lengths: Attempt<(nat, nat, nat)>, n: nat): Check {
    match lengths
    case Raised(e) => Raise(e)
    case Value((a, b, c)) => if a == n && b == n && c == n then Pass else Fail
  }

  function UnreasonableNote(shown: string): string {
    "❌ π estimate " + shown + " is unreasonable (should be between 2.5 and 4.0)"
  }

  function EstimateOutcomes(p: EstimateProbe): (outs: seq<Check>)
    ensures |outs| == |EstimateWeights|
  {
    [CallableCheck(p.callable), p.quadruple, p.isNumber, ReasonableCheck(p.estimate),
     TripleLengthsCheck(p.arrayLengths, 1000)]
  }

  function EstimateNotes(p: EstimateProbe): (notes: seq<string>)
    ensures |notes| == |EstimateWeights|
  {
    [NotCallableNote,
     QuadrupleNote,
     NumberNote,
     UnreasonableNote(p.estimateShown),
     ArrayLengthsNote]
  }

  const ImprovesNote := "✓ Estimate improves with more samples"
  const ShouldImproveNote := "⚠ Estimate should generally improve with more samples"
  const GoodAccuracyNote := "✓ Good accuracy with large sample size"
  const ModerateAccuracyNote := "⚠ Moderate accuracy with large sample size"
  const PoorAccuracyNote := "⚠ Accuracy could be better"

  /** 3 points when the large run is at least as close to pi as the small
      one, 1 otherwise. */
  function ImprovementPoints(errorSmall: real, errorLarge: real): nat {
    if errorLarge <= errorSmall then 3 else 1
  }

  function ImprovementNote(errorSmall: real, errorLarge: real): string {
    if errorLarge <= errorSmall then ImprovesNote else ShouldImproveNote
  }

  /** 3, 2 or 1 points as the large run's error is below 0.1, below 0.2, or not. */
  function AccuracyPoints(errorLarge: real): (pts: nat)
    ensures 1 <= pts <= 3
  {
    if errorLarge < 0.1 then 3 else if errorLarge < 0.2 then 2 else 1
  }

  function AccuracyNote(errorLarge: real): string {
    if errorLarge < 0.1 then GoodAccuracyNote
    else if errorLarge < 0.2 then ModerateAccuracyNote
    else PoorAccuracyNote
  }

  /** A smaller error never earns fewer accuracy points. */
  lemma AccuracyMonotone(e: real, f: real)
    requires e <= f
    ensures AccuracyPoints(f) <= AccuracyPoints(e)
  {
  }

  /** The points estimate_pi earns: the structural prefix, then the two
      partial-credit tests once every structural check passed and the two
      later calls returned. */
  function EstimateScore(p: EstimateProbe): nat {
    var outs := EstimateOutcomes(p);
    var base := Earned(EstimateWeights, outs);
    if LeadingPasses(outs) == |outs| && p.samples.Value? then
      var errorSmall := Abs(p.samples.value.0 - MathPi);
      var errorLarge := Abs(p.samples.value.1 - MathPi);
      base + ImprovementPoints(errorSmall, errorLarge) + AccuracyPoints(errorLarge)
    else base
  }

  /** The feedback of estimate_pi: the structural verdict, or, once every
      structural check passed, the error of the later calls or the three
      lines of the partial-credit tests. */
  function EstimateFeedback(p: EstimateProbe): string {
    var outs := EstimateOutcomes(p);
    if LeadingPasses(outs) < |outs| then Verdict(outs, EstimateNotes(p), EstimateSuccess)
    else match p.samples
      case Raised(e) => ErrorNote(e)
      case Value((small, large)) =>
        var errorSmall := Abs(small - MathPi);
        var errorLarge := Abs(large - MathPi);
        JoinLines([ImprovementNote(errorSmall, errorLarge), AccuracyNote(errorLarge), EstimateSuccess])
  }

  /** grade_estimate_pi. */
  method GradeEstimatePi(p: EstimateProbe) returns (points: nat, feedback: string)
    ensures points == EstimateScore(p)
    ensures feedback == EstimateFeedback(p)
  {
    ghost var outs := EstimateOutcomes(p);
    ghost var notes := EstimateNotes(p);
    if !p.callable {
      StopResult(EstimateWeights, outs, notes, EstimateSuccess, 0);
      return 0, NotCallableNote;
    }
    points := 3;
    if p.quadruple != Pass {
      StopResult(EstimateWeights, outs, notes, EstimateSuccess, 1);
      return points, StopNote(p.quadruple, QuadrupleNote);
    }
    points := points + 4;
    if p.isNumber != Pass {
      StopResult(EstimateWeights, outs, notes, EstimateSuccess, 2);
      return points, StopNote(p.isNumber, NumberNote);
    }
    points := points + 4;
    if !(2.5 < p.estimate < 4.0) {
      StopResult(EstimateWeights, outs, notes, EstimateSuccess, 3);
      return points, UnreasonableNote(p.estimateShown);
    }
    points := points + 4;
    var sized := TripleLengthsCheck(p.arrayLengths, 1000);
    if sized != Pass {
      StopResult(EstimateWeights, outs, notes, EstimateSuccess, 4);
      return points, StopNote(sized, ArrayLengthsNote);
    }
    points := points + 4;
    StopResult(EstimateWeights, outs, notes, EstimateSuccess, 5);
    match p.samples {
      case Raised(e) =>
        return points, ErrorNote(e);
      case Value((small, large)) =>
        var errorSmall := Abs(small - MathPi);
        var errorLarge := Abs(large - MathPi);
        var improvement, accuracy;
        if errorLarge <= errorSmall {
          points := points + 3;
          improvement := ImprovesNote;
        } else {
          improvement := ShouldImproveNote;
          points := points + 1;
        }
        if errorLarge < 0.1 {
          points := points + 3;
          accuracy := GoodAccuracyNote;
        } else if errorLarge < 0.2 {
          points := points + 2;
          accuracy := ModerateAccuracyNote;
        } else {
          points := points + 1;
          accuracy := PoorAccuracyNote;
        }
        feedback := JoinLines([improvement, accuracy, EstimateSuccess]);
    }
  }

  /** estimate_pi never earns more than 25, and a run whose later calls
      return after every structural check passed earns at least 21. */
  lemma EstimateScoreBounds(p: EstimateProbe)
    ensures EstimateScore(p) <= 25
    ensures LeadingPasses(EstimateOutcomes(p)) == |EstimateWeights| && p.samples.Value? ==>
              21 <= EstimateScore(p)
  {
    var outs := EstimateOutcomes(p);
    EarnedCapped(EstimateWeights, outs);
    assert PrefixSum(EstimateWeights, 5) == 19;
  }

  // ---------------------------------------------------------------------
  // Task 4: analyze_convergence

  /** What analyze_convergence(max_n=10000, num_points=10) gave. */
  datatype ConvergenceProbe = ConvergenceProbe(
    callable: bool, pair: Check, lengths: Attempt<(nat, nat)>, increasing: Check)

  const ConvergenceWeights: seq<nat> := [3, 4, 4, 4]
  const ConvergenceSuccess := "✓ analyze_convergence() works correctly!"
  const ConvergencePairNote := "❌ Function should return tuple of (sample_sizes, pi_estimates)"
  const IncreasingNote := "❌ Sample sizes should be increasing"

  function ConvergenceOutcomes(p: ConvergenceProbe): (outs: seq<Check>)
    ensures |outs| == |ConvergenceWeights|
  {
    [CallableCheck(p.callable), p.pair, PairLengthsCheck(p.lengths, 10), p.increasing]
  }

  function TenValuesNote(lengths: Attempt<(nat, nat)>): string {
    match lengths
    case Raised(_) => ""
    case Value((a, b)) =>
      "❌ Should return 10 values, got " + NatToString(a) + " and " + NatToString(b)
  }

  function ConvergenceNotes(p: ConvergenceProbe): (notes: seq<string>)
    ensures |notes| == |ConvergenceWeights|
  {
    [NotCallableNote,
     ConvergencePairNote,
     TenValuesNote(p.lengths),
     IncreasingNote]
  }

  /** grade_analyze_convergence: 3, 4, 4, 4. */
  method GradeAnalyzeConvergence(p: ConvergenceProbe) returns (points: nat, feedback: string)
    ensures points == Earned(ConvergenceWeights, ConvergenceOutcomes(p))
    ensures feedback == Verdict(ConvergenceOutcomes(p), ConvergenceNotes(p), ConvergenceSuccess)
  {
    ghost var outs := ConvergenceOutcomes(p);
    ghost var notes := ConvergenceNotes(p);
    if !p.callable {
      StopResult(ConvergenceWeights, outs, notes, ConvergenceSuccess, 0);
      return 0, NotCallableNote;
    }
    points := 3;
    if p.pair != Pass {
      StopResult(ConvergenceWeights, outs, notes, ConvergenceSuccess, 1);
      return points, StopNote(p.pair, ConvergencePairNote);
    }
    points := points + 4;
    var counted := PairLengthsCheck(p.lengths, 10);
    if counted != Pass {
      StopResult(ConvergenceWeights, outs, notes, ConvergenceSuccess, 2);
      return points, StopNote(counted, TenValuesNote(p.lengths));
    }
    points := points + 4;
    if p.increasing != Pass {
      StopResult(ConvergenceWeights, outs, notes, ConvergenceSuccess, 3);
      return points, StopNote(p.increasing, IncreasingNote);
    }
    points := points + 4;
    StopResult(ConvergenceWeights, outs, notes, ConvergenceSuccess, 4);
    feedback := ConvergenceSuccess;
  }

  lemma ConvergenceScoreCapped(p: ConvergenceProbe)
    ensures Earned(ConvergenceWeights, ConvergenceOutcomes(p)) <= 15
  {
    EarnedCapped(ConvergenceWeights, ConvergenceOutcomes(p));
    assert PrefixSum(ConvergenceWeights, 4) == 15;
  }

  // ---------------------------------------------------------------------
  // Task 5: run_multiple_simulations

  /** What run_multiple_simulations(n=1000, num_runs=10) gave: whether it
      returned a dictionary, which of the required keys it has, and the summary values (the mean
      also as printed to four decimals). */
  datatype SimulationsProbe = SimulationsProbe(
    callable: bool, isDict: Check, keys: set<SummaryKey>,
    mean: real, meanShown: string, std: real, minimum: real, maximum: real)

  /** The keys the summary dictionary must have, in the order they are checked. */
  datatype SummaryKey = MeanKey | StdKey | MinKey | MaxKey | MeanErrorKey

  const RequiredKeys: seq<SummaryKey> := [MeanKey, StdKey, MinKey, MaxKey, MeanErrorKey]

  /** The key as the dictionary spells it. */
  function KeyName(key: SummaryKey): string {
    match key
    case MeanKey => "mean"
    case StdKey => "std"
    case MinKey => "min"
    case MaxKey => "max"
    case MeanErrorKey => "mean_error"
  }
  const SimulationsWeights: seq<nat> := [3, 3, 3, 2, 2, 2]
  const SimulationsSuccess := "✓ run_multiple_simulations() works correctly!"
  const DictNote := "❌ Function should return a dictionary"
  const StdNote := "❌ Standard deviation should be positive"
  const MinMaxNote := "❌ Minimum should be less than maximum"

  /** The first of the required keys, in order, that is missing. */
  function FirstMissing<T>(required: seq<T>, keys: set<T>): (key: Option<T>)
    ensures key.None? <==> forall i :: 0 <= i < |required| ==> required[i] in keys
    ensures key.Some? ==> key.value in required && key.value !in keys
  {
    if required == [] then None
    else if required[0] !in keys then Some(required[0])
    else FirstMissing(required[1..], keys)
  }

  /** The first missing key is the one at the first index whose key is
      missing. */
  lemma {:induction false} FirstMissingAt<T>(required: seq<T>, keys: set<T>, i: nat)
    requires i < |required| && required[i] !in keys
    requires forall j :: 0 <= j < i ==> required[j] in keys
    ensures FirstMissing(required, keys) == Some(required[i])
  {
    if i > 0 {
      FirstMissingAt(required[1..], keys, i - 1);
    }
  }

  /** The autograder's loop over the required keys: it stops at the first one
      the dictionary lacks. */
  method ScanKeys(keys: set<SummaryKey>) returns (missing: Option<SummaryKey>)
    ensures missing == FirstMissing(RequiredKeys, keys)
  {
    var i := 0;
    while i < |RequiredKeys|
      invariant 0 <= i <= |RequiredKeys|
      invariant forall j :: 0 <= j < i ==> RequiredKeys[j] in keys
    {
      var key := RequiredKeys[i];
      if key !in keys {
        FirstMissingAt(RequiredKeys, keys, i);
        return Some(key);
      }
      i := i + 1;
    }
    return None;
  }

  function KeysCheck(keys: set<SummaryKey>): Check {
    if FirstMissing(RequiredKeys, keys).None? then Pass else Fail
  }

  function SimulationsOutcomes(p: SimulationsProbe): (outs: seq<Check>)
    ensures |outs| == |SimulationsWeights|
  {
    [CallableCheck(p.callable), p.isDict, KeysCheck(p.keys),
     ReasonableCheck(p.mean),
     if p.std <= 0.0 then Fail else Pass,
     if p.minimum >= p.maximum then Fail else Pass]
  }

  function MeanNote(shown: string): string {
    "❌ Mean estimate " + shown + " is unreasonable"
  }

  function MissingKeyNote(key: string): string {
    "❌ Dictionary should contain key '" + key + "'"
  }

  function SimulationsNotes(p: SimulationsProbe): (notes: seq<string>)
    ensures |notes| == |SimulationsWeights|
  {
    var missing := FirstMissing(RequiredKeys, p.keys);
    [NotCallableNote,
     DictNote,
     if missing.Some? then MissingKeyNote(KeyName(missing.value)) else "",
     MeanNote(p.meanShown),
     StdNote,
     MinMaxNote]
  }

  /** grade_run_multiple_simulations: 3, 3, then 3 once every required key
      is present (reporting the first one missing), then 2, 2, 2. */
  method GradeRunMultipleSimulations(p: SimulationsProbe) returns (points: nat, feedback: string)
    ensures points == Earned(SimulationsWeights, SimulationsOutcomes(p))
    ensures feedback == Verdict(SimulationsOutcomes(p), SimulationsNotes(p), SimulationsSuccess)
  {
    ghost var outs := SimulationsOutcomes(p);
    ghost var notes := SimulationsNotes(p);
    assert outs == [CallableCheck(p.callable), p.isDict, KeysCheck(p.keys), ReasonableCheck(p.mean),
                    if p.std <= 0.0 then Fail else Pass, if p.minimum >= p.maximum then Fail else Pass];
    if !p.callable {
      StopResult(SimulationsWeights, outs, notes, SimulationsSuccess, 0);
      return 0, NotCallableNote;
    }
    points := 3;
    if p.isDict != Pass {
      StopResult(SimulationsWeights, outs, notes, SimulationsSuccess, 1);
      return points, StopNote(p.isDict, DictNote);
    }
    points := points + 3;
    var missing := ScanKeys(p.keys);
    if missing.Some? {
      StopResult(SimulationsWeights, outs, notes, SimulationsSuccess, 2);
      return points, MissingKeyNote(KeyName(missing.value));
    }
    points := points + 3;
    if !(2.5 < p.mean < 4.0) {
      StopResult(SimulationsWeights, outs, notes, SimulationsSuccess, 3);
      return points, MeanNote(p.meanShown);
    }
    points := points + 2;
    if p.std <= 0.0 {
      StopResult(SimulationsWeights, outs, notes, SimulationsSuccess, 4);
      return points, StdNote;
    }
    points := points + 2;
    if p.minimum >= p.maximum {
      StopResult(SimulationsWeights, outs, notes, SimulationsSuccess, 5);
      return points, MinMaxNote;
    }
    points := points + 2;
    StopResult(SimulationsWeights, outs, notes, SimulationsSuccess, 6);
    feedback := SimulationsSuccess;
  }

  lemma SimulationsScoreCapped(p: SimulationsProbe)
    ensures Earned(SimulationsWeights, SimulationsOutcomes(p)) <= 15
  {
    EarnedCapped(SimulationsWeights, SimulationsOutcomes(p));
    assert PrefixSum(SimulationsWeights, 6) == 15;
  }
}
