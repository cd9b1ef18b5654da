# Three teaching scripts, modelled and proved in Dafny

This project models the exact logic inside three teaching scripts. The
plotting and I/O around that logic is not modelled.

- **Monty Hall trial engine** (`monty_hall.dfy`, module `MontyHall`).
  - One three-door game is played under the "switch" or "stay" strategy.
  - The `MontyHallSimulation` object plays one switching game and one
    staying game per trial. It counts wins and records the running win
    percentage of each strategy after every trial.
  - The random draws are explicit inputs: a `Draw` holds the car's door,
    the first pick and the index of the host's choice in its candidate
    list. So a game is a total, deterministic function.
  - The two games of one trial are independent draws (a `Round`), as in
    the script.
- **Worksheet gradient network** (`backprop.dfy`, module `Backprop`).
  - The network is h = 3x + w1, y = 2h + w2, E = 0.5 (y − target)².
  - It is a class with a forward pass, a chain-rule backward pass, a
    gradient-descent update and histories that only grow.
  - Also modelled: the worked example and the 20-step training loop.
  - Numbers are Dafny `real`s. The formulas use only `+`, `−` and `*`, so
    exact arithmetic is the ideal that the floating-point code approximates.
- **Grading arithmetic of the Monte Carlo π notebook grader** (`grader.dfy`,
  module `Grading`, and `session.dfy`, module `Session`).
  - Each task grader runs a checklist. It adds a fixed weight per passing
    check and stops at the first check that fails or raises.
  - What the student's function returned is abstracted into a *probe*
    record. Each yes/no test is a `Check` (`Pass`, `Fail`, or `Raise` with
    the exception text), and the probe also holds the numbers and texts
    that the autograder compares or prints.
  - `Session` holds the `MonteCarloGrader` object, the task loop of
    `main`, the style points, the letter grade and the report.
- `text.dfy` (module `Text`) renders numbers as Python's `str()` does and
  joins lines as `"\n".join` does.

## Model

| member | source | states |
|---|---|---|
| `MontyHall.Without` | monty-hall/monty_hall_simulation.py:41 | the door filter keeps exactly the listed doors that are neither of the two excluded ones, never lengthening the list |
| `MontyHall.AvailableNonEmpty` | monty-hall/monty_hall_simulation.py:41-42 | for every car door and first pick the host has a goat door other than the first pick, so the fallback list is never used |
| `MontyHall.HostOpens` | monty-hall/monty_hall_simulation.py:40-42 | the door the host opens is never the car and never the first pick |
| `MontyHall.SwitchTargetUnique` | monty-hall/monty_hall_simulation.py:47 | once a door other than the first pick is open, exactly one door is left to switch to, and it differs from both |
| `MontyHall.FinalChoice` | monty-hall/monty_hall_simulation.py:44-50 | staying keeps the first pick; switching moves to a door that is neither the first pick nor the opened door, and that door is the car exactly when the first pick is not |
| `MontyHall.PlayGame` | monty-hall/monty_hall_simulation.py:24-53 | a game is won exactly when the strategy matches the deal: staying wins if and only if the first pick is the car, switching if and only if it is not, whichever goat door the host opens |
| `MontyHall.ExactlyOneStrategyWins` | monty-hall/monty_hall_simulation.py:44-53 | on the same deal exactly one of the two strategies wins |
| `MontyHall.WinsAreMatching` | monty-hall/monty_hall_simulation.py:44-53 | over any list of (car, first pick) pairs and any valid host choices, a strategy's wins equal the number of pairs where the first pick is (stay) or is not (switch) the car |
| `MontyHall.NineCases` | monty-hall/monty_hall_simulation.py:5-7 | over the nine (car, first pick) pairs staying wins 3 and switching wins 6, for any host choices: the 1/3 and 2/3 rates |
| `MontyHall.PercentInRange` | monty-hall/monty_hall_simulation.py:69-70 | a win rate of at most as many wins as trials lies in [0, 100] |
| `MontyHall.RunningRateAt` | monty-hall/monty_hall_simulation.py:69-70 | history entry k is 100 · (wins among the first k+1 trials) / (k+1), and lies in [0, 100] |
| `MontyHall.RunningRatesPrefix` | monty-hall/monty_hall_simulation.py:69-70 | further trials never rewrite a recorded history entry |
| `MontyHall.MontyHallSimulation.constructor` | monty-hall/monty_hall_simulation.py:17-22 | a new simulation has zero trials, zero wins and empty histories |
| `MontyHall.MontyHallSimulation.Bounded` | monty-hall/monty_hall_simulation.py:55-70 | in every reachable state both win counters are at most the trial count, both histories have one entry per trial, and every entry is in [0, 100] |
| `MontyHall.MontyHallSimulation.PlayRound` | monty-hall/monty_hall_simulation.py:57-70 | one iteration adds one trial, one switch outcome and one stay outcome, and appends the two new running rates |
| `MontyHall.MontyHallSimulation.RunSimulation` | monty-hall/monty_hall_simulation.py:55-70 | n iterations raise the trial count by n and add n entries to each history; the wins rise by the wins of the n games (at most n); earlier entries stay; nothing changes when n ≤ 0 |
| `MontyHall.MontyHallSimulation.Results` | monty-hall/monty_hall_simulation.py:72-76 | (0, 0) before any trial, otherwise 100 · wins / trials per strategy, equal to the last history entries and in [0, 100] |
| `MontyHall.OutcomesConcat` | monty-hall/monty_hall_simulation.py:57-66 | playing two lists of rounds one after the other gives the first list's outcomes followed by the second's |
| `MontyHall.MontyHallSimulation.AnimateFrame` | monty-hall/monty_hall_simulation.py:193-199 | one animation frame plays exactly the frame's ten rounds, appending their outcomes, and returns the current results |
| `MontyHall.RunAnimation` | monty-hall/monty_hall_simulation.py:218-221 | the animated run plays target // 10 frames of ten trials on a fresh simulation, so it runs 10 · (target // 10) ≤ target trials; its outcomes, win counters and histories are those of the frames' rounds played in order |
| `Backprop.LossNonNegative` | chain-rule/backpropagation_simulator.py:53-55 | the squared error is never negative |
| `Backprop.GradientsAreDerivatives` | chain-rule/backpropagation_simulator.py:59-76 | the chain-rule gradients y − target and 2 (y − target) are the exact first-order coefficients of the error's change in w2 and w1 |
| `Backprop.Descend` | chain-rule/backpropagation_simulator.py:80-81 | one gradient step lowers w2 by lr times the residual y − target and w1 by twice as much, the ratio of the two chain-rule gradients |
| `Backprop.StepScalesResidual` | chain-rule/backpropagation_simulator.py:78-81 | one update multiplies the residual y − target by 1 − 5·lr and the error by (1 − 5·lr)² |
| `Backprop.StepDecreasesIff` | chain-rule/backpropagation_simulator.py:65-81 | while the error is non-zero, one update strictly lowers it if and only if 0 < lr < 0.4 |
| `Backprop.TrajectoryResidual` | chain-rule/backpropagation_simulator.py:146-151 | after n updates the residual is (1 − 5·lr)ⁿ times the starting one |
| `Backprop.ErrorAfterScales` | chain-rule/backpropagation_simulator.py:146-151 | after n updates the error is ((1 − 5·lr)ⁿ)² times the starting one |
| `Backprop.SimpleNetwork.constructor` | chain-rule/backpropagation_simulator.py:39-42 | no update has been made yet: the weight histories hold only the given weights and the error history is empty |
| `Backprop.SimpleNetwork.Forward` | chain-rule/backpropagation_simulator.py:44-57 | sets h = 3x + w1, y = 2h + w2 and error = 0.5 (y − target)² ≥ 0, and returns (y, error) |
| `Backprop.SimpleNetwork.Backward` | chain-rule/backpropagation_simulator.py:59-76 | dE/dw2 = y − target and dE/dw1 = 2 (y − target) = 2 · dE/dw2 |
| `Backprop.SimpleNetwork.UpdateWeights` | chain-rule/backpropagation_simulator.py:78-86 | each weight becomes w − lr · gradient; each of the three histories gains exactly the new value, earlier entries unchanged; the update count rises by one, and the weight histories stay one longer than it and the error history as long as it |
| `Backprop.SimpleNetwork.TrainStep` | chain-rule/backpropagation_simulator.py:88-93 | runs forward, backward and update in order: it stores x and target, h and y at the old weights, the error at the old weights (also returned and appended to the error history) and the gradients y − target and 2 (y − target) at the old weights; the weights take one gradient step and are appended to their histories; one update is counted |
| `Backprop.Worksheet` | chain-rule/backpropagation_simulator.py:96-131 | with x = 2, target = 20, w1 = 1, w2 = 3: h = 7, y = 17, E = 4.5, gradients −6 and −3; after one update at lr 0.1: w1 = 1.6, w2 = 3.3, y = 18.5, E = 1.125 < 4.5 |
| `Backprop.StepAndObserve` | chain-rule/backpropagation_simulator.py:147-148 | one loop body: a training step that appends the new weights and the pre-update error to the histories and returns that error, keeping the gradients at the old weights, then a forward pass that stores h, the output and its error at the new weights and returns the output |
| `Backprop.Train` | chain-rule/backpropagation_simulator.py:146-151 | after k steps the weights are k gradient steps from the start; the weight histories gain exactly the weights after steps 1..k and the error history the errors before each step, earlier entries unchanged; k updates are counted; the returned error is the one before the last update; the network is left as the last forward pass set it (x, target, h, y and its error at the final weights) with the gradients of the last step, so a backward pass may follow |
| `Backprop.WatchItLearn` | chain-rule/backpropagation_simulator.py:139-154 | a fresh network trained 20 steps misses the target by the 20-step residual and reports the error before the 20th update |
| `Backprop.WorksheetRun` | chain-rule/backpropagation_simulator.py:139-154 | at the worksheet values the final output misses 20 by −3/2²⁰, and the final reported error is 0.5 · (3/2¹⁹)² |
| `Grading.LeadingPasses` | monte-carlo/grade_monte_carlo.py:39-83 | a checklist stops at the first check that does not pass: every earlier one passed |
| `Grading.EarnedCapped` | monte-carlo/grade_monte_carlo.py:34-83 | a checklist never awards more than the sum of its weights |
| `Grading.StopResult` | monte-carlo/grade_monte_carlo.py:80-83 | a checklist stopping at check k awards the weights before k; it reports that check's message, or the exception text when the check raised, so an exception keeps the points earned so far |
| `Grading.GradeGenerateRandomPoints` | monte-carlo/grade_monte_carlo.py:34-83 | awards the weights 2, 3, 3, 4, 4, 4 of the passing prefix and reports the message of the check it stopped at |
| `Grading.PointsScoreValues` | monte-carlo/grade_monte_carlo.py:34-83 | the score is one of 0, 2, 5, 8, 12, 16, 20 |
| `Grading.KnownPointsOnUnitDisc` | monte-carlo/grade_monte_carlo.py:98-104 | the expected answers of the known-point table are exactly membership in the closed unit disc |
| `Grading.GradeIsInsideCircle` | monte-carlo/grade_monte_carlo.py:85-132 | awards 2, then 3 per known point answered right in order, then 3 for the batch length, stopping at the first failure |
| `Grading.CircleScoreCapped` | monte-carlo/grade_monte_carlo.py:85-132 | the score is at most 20 |
| `Grading.AccuracyPoints` | monte-carlo/grade_monte_carlo.py:186-195 | the accuracy test awards between 1 and 3 points |
| `Grading.AccuracyMonotone` | monte-carlo/grade_monte_carlo.py:186-195 | a smaller error never earns fewer accuracy points |
| `Grading.GradeEstimatePi` | monte-carlo/grade_monte_carlo.py:134-202 | awards the structural prefix 3, 4, 4, 4, 4; once all pass and the later calls return, adds 3 or 1 for improvement and 3, 2 or 1 for accuracy |
| `Grading.EstimateScoreBounds` | monte-carlo/grade_monte_carlo.py:134-202 | the score is at most 25, and at least 21 once every structural check passed and the later calls returned |
| `Grading.GradeAnalyzeConvergence` | monte-carlo/grade_monte_carlo.py:204-242 | awards the weights 3, 4, 4, 4 of the passing prefix and reports the message of the check it stopped at |
| `Grading.ConvergenceScoreCapped` | monte-carlo/grade_monte_carlo.py:204-242 | the score is at most 15 |
| `Grading.FirstMissing` | monte-carlo/grade_monte_carlo.py:263-267 | no key is reported missing exactly when every required key is present; a reported key is required and absent |
| `Grading.FirstMissingAt` | monte-carlo/grade_monte_carlo.py:263-267 | the reported key is the first required key, in order, that is absent |
| `Grading.ScanKeys` | monte-carlo/grade_monte_carlo.py:263-268 | the loop over the required keys stops at the first missing key |
| `Grading.GradeRunMultipleSimulations` | monte-carlo/grade_monte_carlo.py:244-291 | awards 3, 3, 3 (all keys present), 2, 2, 2 for the passing prefix and reports the first missing key or failed check |
| `Grading.SimulationsScoreCapped` | monte-carlo/grade_monte_carlo.py:244-291 | the score is at most 15 |
| `Session.TaskPointsCapped` | monte-carlo/grade_monte_carlo.py:366-372 | no task earns more than the maximum the task table announces for it |
| `Session.NotCallableScoresZero` | monte-carlo/grade_monte_carlo.py:41-43 | a defined but non-callable function earns 0 with the not-callable message, in every task |
| `Session.GradeTask` | monte-carlo/grade_monte_carlo.py:378-385 | runs the task's grader when the notebook defines the function, and gives no outcome when it is missing |
| `Session.TaskLines` | monte-carlo/grade_monte_carlo.py:374-385 | each task adds four feedback lines: heading, rule, feedback or not-found message, points line |
| `Session.TasksPointsCapped` | monte-carlo/grade_monte_carlo.py:374-386 | the points of the first n tasks never exceed the sum of their maxima |
| `Session.MaximaAddUp` | monte-carlo/grade_monte_carlo.py:366-393 | the task maxima 20 + 20 + 25 + 15 + 15 and the 5 style points add up to the maximum of 100 |
| `Session.SubmissionScoreBounded` | monte-carlo/grade_monte_carlo.py:366-393 | every notebook scores between the 5 style points and 100 |
| `Session.EmptySubmissionScore` | monte-carlo/grade_monte_carlo.py:383-393 | a notebook defining none of the functions earns only the style points |
| `Session.LetterGrade` | monte-carlo/grade_monte_carlo.py:310-320 | the letter's rank (F = 0 … A = 4) is the number of the thresholds 60, 70, 80, 90 the percentage reaches; A exactly from 90, F exactly below 60 |
| `Session.LetterGradeMonotone` | monte-carlo/grade_monte_carlo.py:310-320 | a higher percentage never earns a worse letter |
| `Session.LetterGradeBands` | monte-carlo/grade_monte_carlo.py:310-320 | the letter is at least rank k exactly when the percentage reaches 50 + 10k (A ≥ 90, B ≥ 80, C ≥ 70, D ≥ 60) |
| `Session.LetterOfTotal` | monte-carlo/grade_monte_carlo.py:310-320 | out of 100 the letter bands are bands of the total itself |
| `Session.LetterOfTotalMonotone` | monte-carlo/grade_monte_carlo.py:310-320 | a higher total never earns a worse letter |
| `Session.PercentText` | monte-carlo/grade_monte_carlo.py:322 | the printed percentage is the total's decimal digits followed by ".0", and the total can be read back from those digits |
| `Session.ReportLines` | monte-carlo/grade_monte_carlo.py:293-326 | the report opens with banner, title, banner and a blank line, then every feedback item in order, then the total line "TOTAL SCORE: t/100" and the letter line |
| `Session.TotalLineDeterminesTotal` | monte-carlo/grade_monte_carlo.py:306 | distinct totals give distinct TOTAL SCORE lines |
| `Session.ReportDeterminesTotal` | monte-carlo/grade_monte_carlo.py:293-326 | two reports with the same lines come from the same total and the same feedback |
| `Session.MonteCarloGrader.constructor` | monte-carlo/grade_monte_carlo.py:28-31 | a new grader has a total of 0 and no feedback |
| `Session.MonteCarloGrader.RecordTask` | monte-carlo/grade_monte_carlo.py:374-385 | one pass of the task loop appends the task's four lines and adds its points, 0 for a missing function |
| `Session.MonteCarloGrader.GradeSubmission` | monte-carlo/grade_monte_carlo.py:366-393 | the task loop and the style section add the notebook's points to the total and its lines to the feedback |
| `Session.MonteCarloGrader.GenerateReport` | monte-carlo/grade_monte_carlo.py:293-326 | the report is the report lines of the current total and feedback, joined by newlines |
| `Session.GradeNotebook` | monte-carlo/grade_monte_carlo.py:359-396 | a fresh grader's total is the notebook's points, between 5 and 100, and its report frames exactly the notebook's feedback lines |

## Left out

- Plotting and animation are not modelled. This covers the static, animated and comparison figures of the Monty Hall script, `explore_network`, and every figure, axes and text call in the backpropagation script. They render; they compute nothing that is checked.
- The random generator is replaced by explicit inputs (`Draw`, `Round`). The uniformity of the draws and the statistical claim that the rates settle near 2/3 and 1/3 are not modelled. Only the exact nine-case count is proved.
- The engine takes no seed and raises no error for a zero or negative trial count. The script has neither: `range(n)` is empty for n ≤ 0, so `run_simulation` does nothing. The model follows the script.
- Floating point is not modelled. Percentages, weights and errors are exact reals.
- `Session.PercentText` prints the percentage as the total followed by ".0". This is what Python's one-decimal formatting of total / 100 · 100 gives for totals from 0 to 100, the only totals a notebook can reach.
- The letter grade compares the exact percentage total / 100 · 100, which equals the total. The floating-point thresholds at 60, 70, 80 and 90 are not modelled separately.
- `NonlinearNetwork` and `RegressionNetwork` are not modelled. They rely on the transcendental sigmoid, random initialisation and array means.
- The printed tables and f-string formatting of the backpropagation script are not modelled. The values they print are modelled: the worked example, and the final output and error of the 20-step run.
- `Backprop.SimpleNetwork.Backward` requires an earlier `Forward`, and `Backprop.SimpleNetwork.UpdateWeights` an earlier `Backward`. In the script the attributes they read do not exist before then, and the call would raise `AttributeError`.
- `Backprop.Train` requires at least one step. The error and output it returns are only defined once the loop body has run, and the script runs it 20 times.
- File and process I/O is not modelled. This covers reading the notebook (`json.load`, `exec` of its code cells in `extract_functions_from_notebook`), `sys.argv` and `sys.exit`, printing, and writing the report file. The notebook is given directly as a `Submission`.
- `main`'s outer exception handler is not modelled. It wraps the notebook extraction, the task loop, the report and the file write. The task graders catch every `Exception` their checks raise, so in the model only extraction and the file write could reach it. A failed extraction prints the error and exits before any report. A failed file write happens after the report has been printed (line 397 comes before the write at lines 400-402), so the report is shown and only the saved copy and the "saved to" line are missing.
- The student functions' bodies and the numpy checks on their results are abstracted into probe records. Each check is a pass, fail or raise outcome, and each value the autograder prints is its rendered text.
- A `Raise` outcome stands only for exceptions that are subclasses of `Exception`, which the task graders' handlers catch. A student function that raises something else, such as `SystemExit` or `KeyboardInterrupt`, escapes both the task grader's handler and `main`'s, and ends the run without a report. The model does not represent such a raise.
- Every `Check` in a probe stands for a call to the student function that returned or raised. A student function that never returns hangs the run, and no report is produced. The model does not represent non-termination.
- In `grade_estimate_pi` and `grade_run_multiple_simulations`, the numeric comparisons on the student's values (`2.5 < pi_est < 4.0`, the mean, std, min and max tests) and the `:.4f` formatting cannot raise in the model. The values are reals there, while in Python a value of an unexpected type could raise.
