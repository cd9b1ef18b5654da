/** A grading session: the autograder object that accumulates the score and the
    feedback lines over the five tasks and the style points, and the report
    it renders at the end. */
module Session {
  import opened Text
  import opened Grading

  /** The five graded functions, in the order they are graded. */
  datatype Task = GenerateRandomPoints | IsInsideCircle | EstimatePi | AnalyzeConvergence | RunMultipleSimulations

  const Tasks: seq<Task> := [GenerateRandomPoints, IsInsideCircle, EstimatePi, AnalyzeConvergence, RunMultipleSimulations]

  function TaskName(t: Task): string {
    match t
    case GenerateRandomPoints => "generate_random_points"
    case IsInsideCircle => "is_inside_circle"
    case EstimatePi => "estimate_pi"
    case AnalyzeConvergence => "analyze_convergence"
    case RunMultipleSimulations => "run_multiple_simulations"
  }

  /** The maximum the task table announces for each task. */
  function TaskMax(t: Task): nat {
    match t
    case GenerateRandomPoints => 20
    case IsInsideCircle => 20
    case EstimatePi => 25
    case AnalyzeConvergence => 15
    case RunMultipleSimulations => 15
  }

  /** A student's notebook, as far as grading sees it: for each task, the
      probe of the function of that name, or None when the notebook does not
      define it. */
  datatype Submission = Submission(
    points: Option<PointsProbe>, circle: Option<CircleProbe>, estimate: Option<EstimateProbe>,
    convergence: Option<ConvergenceProbe>, simulations: Option<SimulationsProbe>)

  /** The points and feedback of one task, or None when its function is
      missing from the notebook. */
  function TaskOutcome(s: Submission, t: Task): Option<(nat, string)> {
    match t
    case GenerateRandomPoints =>
      if s.points.None? then None
      else var p := s.points.value;
        Some((Earned(PointsWeights, PointsOutcomes(p)), Verdict(PointsOutcomes(p), PointsNotes(p), PointsSuccess)))
    case IsInsideCircle =>
      if s.circle.None? then None
      else var p := s.circle.value;
        Some((Earned(CircleWeights, CircleOutcomes(p)), Verdict(CircleOutcomes(p), CircleNotes(p), CircleSuccess)))
    case EstimatePi =>
      if s.estimate.None? then None
      else Some((EstimateScore(s.estimate.value), EstimateFeedback(s.estimate.value)))
    case AnalyzeConvergence =>
      if s.convergence.None? then None
      else var p := s.convergence.value;
        Some((Earned(ConvergenceWeights, ConvergenceOutcomes(p)),
              Verdict(ConvergenceOutcomes(p), ConvergenceNotes(p), ConvergenceSuccess)))
    case RunMultipleSimulations =>
      if s.simulations.None? then None
      else var p := s.simulations.value;
        Some((Earned(SimulationsWeights, SimulationsOutcomes(p)),
              Verdict(SimulationsOutcomes(p), SimulationsNotes(p), SimulationsSuccess)))
  }

  /** The points an outcome adds to the total: nothing when the function
      is missing. */
  function OutcomePoints(outcome: Option<(nat, string)>): nat {
    if outcome.Some? then outcome.value.0 else 0
  }

  function TaskPoints(s: Submission, t: Task): nat {
    OutcomePoints(TaskOutcome(s, t))
  }

  /** No task earns more than the maximum announced for it. */
  lemma TaskPointsCapped(s: Submission, t: Task)
    ensures TaskPoints(s, t) <= TaskMax(t)
  {
    match t
    case GenerateRandomPoints =>
      if s.points.Some? { PointsScoreValues(s.points.value); }
    case IsInsideCircle =>
      if s.circle.Some? { CircleScoreCapped(s.circle.value); }
    case EstimatePi =>
      if s.estimate.Some? { EstimateScoreBounds(s.estimate.value); }
    case AnalyzeConvergence =>
      if s.convergence.Some? { ConvergenceScoreCapped(s.convergence.value); }
    case RunMultipleSimulations =>
      if s.simulations.Some? { SimulationsScoreCapped(s.simulations.value); }
  }

  /** Runs the autograder of one task on the notebook's function of that name. */
  method GradeTask(s: Submission, t: Task) returns (outcome: Option<(nat, string)>)
    ensures outcome == TaskOutcome(s, t)
  {
    match t
    case GenerateRandomPoints =>
      if s.points.None? { return None; }
      var points, feedback := GradeGenerateRandomPoints(s.points.value);
      return Some((points, feedback));
    case IsInsideCircle =>
      if s.circle.None? { return None; }
      var points, feedback := GradeIsInsideCircle(s.circle.value);
      return Some((points, feedback));
    case EstimatePi =>
      if s.estimate.None? { return None; }
      var points, feedback := GradeEstimatePi(s.estimate.value);
      return Some((points, feedback));
    case AnalyzeConvergence =>
      if s.convergence.None? { return None; }
      var points, feedback := GradeAnalyzeConvergence(s.convergence.value);
      return Some((points, feedback));
    case RunMultipleSimulations =>
      if s.simulations.None? { return None; }
      var points, feedback := GradeRunMultipleSimulations(s.simulations.value);
      return Some((points, feedback));
  }

  /** The 70-character rules the autograder draws: "-" * 70 under each heading
      and "=" * 70 around the report's title and total. */
  const Rule := "----------------------------------------------------------------------"
  const Banner := "======================================================================"

  function PointsLine(earned: nat, max: nat): string {
    "Points earned: " + NatToString(earned) + "/" + NatToString(max)
  }

  /** The four feedback lines of one task: its heading, a rule, then the
      grader's feedback or the not-found message, then the points line. */
  function TaskLines(t: Task, outcome: Option<(nat, string)>): (lines: seq<string>)
    ensures |lines| == 4
  {
    ["\nTask: " + TaskName(t) + " (Max: " + NatToString(TaskMax(t)) + " points)", Rule]
    + match outcome
      case None => ["❌ Function '" + TaskName(t) + "' not found in notebook", PointsLine(0, TaskMax(t))]
      case Some((points, feedback)) => [feedback, PointsLine(points, TaskMax(t))]
  }

  /** The feedback lines of the first n tasks. */
  function TasksLines(s: Submission, n: nat): (lines: seq<string>)
    requires n <= |Tasks|
    ensures |lines| == 4 * n
  {
    if n == 0 then [] else TasksLines(s, n - 1) + TaskLines(Tasks[n - 1], TaskOutcome(s, Tasks[n - 1]))
  }

  /** The points of the first n tasks. */
  function TasksPoints(s: Submission, n: nat): nat
    requires n <= |Tasks|
  {
    if n == 0 then 0 else TasksPoints(s, n - 1) + TaskPoints(s, Tasks[n - 1])
  }

  /** Grading task i appends that task's lines and adds its points. */
  lemma TasksStep(s: Submission, i: nat, outcome: Option<(nat, string)>)
    requires i < |Tasks| && outcome == TaskOutcome(s, Tasks[i])
    ensures TasksLines(s, i + 1) == TasksLines(s, i) + TaskLines(Tasks[i], outcome)
    ensures TasksPoints(s, i + 1) == TasksPoints(s, i) + OutcomePoints(outcome)
  {
  }

  /** The style section always grants its five points. */
  const StylePoints: nat := 5
  const StyleLines: seq<string> := [
    "\nCode Style and Documentation (Max: 5 points)", Rule,
    "✓ Code style acceptable", PointsLine(StylePoints, 5)]

  /** The points a whole notebook earns. */
  function SubmissionPoints(s: Submission): nat {
    TasksPoints(s, |Tasks|) + StylePoints
  }

  /** The feedback lines a whole notebook produces. */
  function SubmissionLines(s: Submission): seq<string> {
    TasksLines(s, |Tasks|) + StyleLines
  }

  /** The points of the first n tasks never exceed their announced maxima. */
  lemma {:induction false} TasksPointsCapped(s: Submission, n: nat)
    requires n <= |Tasks|
    ensures TasksPoints(s, n) <= TasksMax(n)
  {
    if n > 0 {
      TasksPointsCapped(s, n - 1);
      TaskPointsCapped(s, Tasks[n - 1]);
    }
  }

  /** The sum of the maxima of the first n tasks. */
  function TasksMax(n: nat): nat
    requires n <= |Tasks|
  {
    if n == 0 then 0 else TasksMax(n - 1) + TaskMax(Tasks[n - 1])
  }

  /** Every notebook scores at least the style points and at most the
      grader's maximum of 100: the task maxima and the style points add up
      to exactly that. */
  lemma SubmissionScoreBounded(s: Submission)
    ensures StylePoints <= SubmissionPoints(s) <= 100
  {
    TasksPointsCapped(s, |Tasks|);
    assert TasksMax(|Tasks|) == 95;
  }

  /** The task maxima and the style points add up to the autograder's maximum. */
  lemma MaximaAddUp()
    ensures TasksMax(|Tasks|) + StylePoints == MaxPoints
  {
    assert TasksMax(1) == 20 && TasksMax(3) == 65;
  }

  /** Whether the notebook defines the task's function but that value is
      not callable. */
  predicate DefinedNotCallable(s: Submission, t: Task) {
    match t
    case GenerateRandomPoints => s.points.Some? && !s.points.value.callable
    case IsInsideCircle => s.circle.Some? && !s.circle.value.callable
    case EstimatePi => s.estimate.Some? && !s.estimate.value.callable
    case AnalyzeConvergence => s.convergence.Some? && !s.convergence.value.callable
    case RunMultipleSimulations => s.simulations.Some? && !s.simulations.value.callable
  }

  /** A name bound to something that is not callable earns nothing and is
      reported as such, whichever task it is. */
  lemma NotCallableScoresZero(s: Submission, t: Task)
    requires DefinedNotCallable(s, t)
    ensures TaskOutcome(s, t) == Some((0, NotCallableNote))
  {
  }

  /** A notebook that defines none of the five functions earns only the
      style points. */
  lemma EmptySubmissionScore(s: Submission)
    requires s.points.None? && s.circle.None? && s.estimate.None?
    requires s.convergence.None? && s.simulations.None?
    ensures SubmissionPoints(s) == StylePoints
  {
    assert TasksPoints(s, 1) == 0;
    assert TasksPoints(s, 3) == 0;
  }

  datatype Letter = A | B | C | D | F

  function LetterText(g: Letter): string {
    match g
    case A => "A"
    case B => "B"
    case C => "C"
    case D => "D"
    case F => "F"
  }

  /** How many of the four letter thresholds, 60, 70, 80 and 90, the
      percentage reaches. */
  function ThresholdsReached(percentage: real): nat {
    (if percentage >= 60.0 then 1 else 0) + (if percentage >= 70.0 then 1 else 0) +
    (if percentage >= 80.0 then 1 else 0) + (if percentage >= 90.0 then 1 else 0)
  }

  /** The letter for a percentage: A from 90, B from 80, C from 70, D from
      60, F below. */
  function LetterGrade(percentage: real): (g: Letter)
    ensures Rank(g) == ThresholdsReached(percentage)
    ensures g == A <==> percentage >= 90.0
    ensures g == F <==> percentage < 60.0
  {
    if percentage >= 90.0 then A
    else if percentage >= 80.0 then B
    else if percentage >= 70.0 then C
    else if percentage >= 60.0 then D
    else F
  }

  /** How good a letter is: 4 for A down to 0 for F. */
  function Rank(g: Letter): nat {
    match g
    case A => 4
    case B => 3
    case C => 2
    case D => 1
    case F => 0
  }

  /** A higher percentage never earns a worse letter. */
  lemma LetterGradeMonotone(p: real, q: real)
    requires p <= q
    ensures Rank(LetterGrade(p)) <= Rank(LetterGrade(q))
  {
  }

  /** The letter is the number of ten-point bands from 60 up the percentage
      reaches, capped at A. */
  lemma LetterGradeBands(p: real, k: nat)
    requires k <= 4
    ensures Rank(LetterGrade(p)) >= k <==> (k == 0 || p >= 50.0 + 10.0 * (k as real))
  {
  }

  /** The autograder's maximum score. */
  const MaxPoints: nat := 100

  /** The share of the maximum the total is, in percent. */
  function Percentage(total: nat): real {
    (total as real / MaxPoints as real) * 100.0
  }

  /** Out of 100, the percentage is the total itself, so the letter bands
      are bands of the total. */
  lemma LetterOfTotal(total: nat, k: nat)
    requires k <= 4
    ensures Rank(LetterGrade(Percentage(total))) >= k <==> (k == 0 || total >= 50 + 10 * k)
  {
    assert Percentage(total) == total as real;
    LetterGradeBands(total as real, k);
  }

  /** A higher total never earns a worse letter. */
  lemma LetterOfTotalMonotone(t1: nat, t2: nat)
    requires t1 <= t2
    ensures Rank(LetterGrade(Percentage(t1))) <= Rank(LetterGrade(Percentage(t2)))
  {
    assert Percentage(t1) == t1 as real && Percentage(t2) == t2 as real;
    LetterGradeMonotone(Percentage(t1), Percentage(t2));
  }

  /** The percentage as the report prints it, to one decimal. */
  function PercentText(total: nat): (text: string)
    ensures |text| >= 3 && text[|text| - 2..] == ".0"
    ensures IsDigits(text[..|text| - 2]) && ParseNat(text[..|text| - 2]) == total
  {
    var digits := NatToString(total);
    ParseNatToString(total);
    assert (digits + ".0")[..|digits|] == digits;
    digits + ".0"
  }

  const ReportTitle := "MONTE CARLO SIMULATION - GRADING REPORT"

  /** The lines of the report: a banner, the title, the feedback lines
      between blank lines, the total, the percentage and the letter. */
  function ReportLines(total: nat, feedback: seq<string>): (lines: seq<string>)
    ensures |lines| == |feedback| + 11
    ensures lines[..4] == [Banner, ReportTitle, Banner, ""]
    ensures lines[4..4 + |feedback|] == feedback
    ensures lines[|feedback| + 6] == "TOTAL SCORE: " + NatToString(total) + "/100"
    ensures lines[|feedback| + 9] == "Letter Grade: " + LetterText(LetterGrade(Percentage(total)))
  {
    [Banner, ReportTitle, Banner, ""]
    + feedback
    + ["", Banner, "TOTAL SCORE: " + NatToString(total) + "/" + NatToString(MaxPoints), Banner,
       "Percentage: " + PercentText(total) + "%",
       "Letter Grade: " + LetterText(LetterGrade(Percentage(total))), ""]
  }

  /** Distinct totals give distinct TOTAL SCORE lines. */
  lemma TotalLineDeterminesTotal(t1: nat, t2: nat)
    requires "TOTAL SCORE: " + NatToString(t1) + "/100" == "TOTAL SCORE: " + NatToString(t2) + "/100"
    ensures t1 == t2
  {
    var prefix := "TOTAL SCORE: ";
    var l1 := prefix + NatToString(t1) + "/100";
    var l2 := prefix + NatToString(t2) + "/100";
    assert l1[|prefix|..|l1| - 4] == NatToString(t1);
    assert l2[|prefix|..|l2| - 4] == NatToString(t2);
    NatToStringInjective(t1, t2);
  }

  /** A report gives back both the total and the feedback it was made
      from: two reports with the same lines have the same total and the
      same feedback. */
  lemma ReportDeterminesTotal(t1: nat, fb1: seq<string>, t2: nat, fb2: seq<string>)
    requires ReportLines(t1, fb1) == ReportLines(t2, fb2)
    ensures t1 == t2 && fb1 == fb2
  {
    var lines := ReportLines(t1, fb1);
    assert |fb1| == |fb2|;
    assert fb1 == lines[4..4 + |fb1|] == fb2;
    TotalLineDeterminesTotal(t1, t2);
  }

  class MonteCarloGrader {
    var totalPoints: nat
    const maxPoints: nat := MaxPoints
    var feedback: seq<string>

    constructor()
      ensures totalPoints == 0 && feedback == []
    {
      totalPoints := 0;
      feedback := [];
    }

    /** One pass of the task loop after the autograder ran: the task's heading
        and rule, then its feedback and points line (or the not-found
        message and zero points), and its points added to the total. */
    method RecordTask(t: Task, outcome: Option<(nat, string)>)
      modifies this
      ensures feedback == old(feedback) + TaskLines(t, outcome)
      ensures totalPoints == old(totalPoints) + OutcomePoints(outcome)
    {
      var heading := ["\nTask: " + TaskName(t) + " (Max: " + NatToString(TaskMax(t)) + " points)", Rule];
      feedback := feedback + heading;
      if outcome.Some? {
        var (points, text) := outcome.value;
        totalPoints := totalPoints + points;
        feedback := feedback + [text, PointsLine(points, TaskMax(t))];
      } else {
        feedback := feedback + ["❌ Function '" + TaskName(t) + "' not found in notebook", PointsLine(0, TaskMax(t))];
      }
      AppendAssociative(old(feedback), heading, feedback[|old(feedback)| + 2..]);
    }

    /** The task loop of main: each task adds its heading, its feedback and
        its points line, and its points to the total; then the style
        section adds its lines and five points. */
    method GradeSubmission(s: Submission)
      modifies this
      ensures totalPoints == old(totalPoints) + SubmissionPoints(s)
      ensures feedback == old(feedback) + SubmissionLines(s)
    {
      var i := 0;
      while i < |Tasks|
        invariant 0 <= i <= |Tasks|
        invariant totalPoints == old(totalPoints) + TasksPoints(s, i)
        invariant feedback == old(feedback) + TasksLines(s, i)
      {
        var outcome := GradeTask(s, Tasks[i]);
        RecordTask(Tasks[i], outcome);
        TasksStep(s, i, outcome);
        AppendAssociative(old(feedback), TasksLines(s, i), TaskLines(Tasks[i], outcome));
        i := i + 1;
      }
      AppendAssociative(old(feedback), TasksLines(s, |Tasks|), StyleLines);
      feedback := feedback + StyleLines;
      totalPoints := totalPoints + StylePoints;
    }

    /** generate_report: the feedback lines framed by the title and the
        score lines, joined by newlines. */
    method GenerateReport() returns (report: string)
      ensures report == JoinLines(ReportLines(totalPoints, feedback))
    {
      var lines := [Banner, ReportTitle, Banner, ""];
      var i := 0;
      while i < |feedback|
        invariant 0 <= i <= |feedback|
        invariant lines == [Banner, ReportTitle, Banner, ""] + feedback[..i]
      {
        lines := lines + [feedback[i]];
        i := i + 1;
      }
      assert feedback[..i] == feedback;
      var percentage := (totalPoints as real / maxPoints as real) * 100.0;
      var grade := LetterGrade(percentage);
      lines := lines + ["", Banner, "TOTAL SCORE: " + NatToString(totalPoints) + "/" + NatToString(maxPoints), Banner,
                        "Percentage: " + PercentText(totalPoints) + "%",
                        "Letter Grade: " + LetterText(grade), ""];
      report := JoinLines(lines);
    }
  }

  /** main: a fresh grader grades the notebook's five tasks and the style
      points and renders the report. */
  method GradeNotebook(s: Submission) returns (total: nat, report: string)
    ensures total == SubmissionPoints(s)
    ensures 5 <= total <= 100
    ensures report == JoinLines(ReportLines(total, SubmissionLines(s)))
  {
    var grader := new MonteCarloGrader();
    grader.GradeSubmission(s);
    assert grader.feedback == SubmissionLines(s);
    SubmissionScoreBounded(s);
    total := grader.totalPoints;
    report := grader.GenerateReport();
  }
}
