/** The Monty Hall trial engine: one three-door game under the "switch" or
    "stay" strategy, and a simulation object that plays both strategies once
    per trial and records running win percentages.

    The random draws of a game (where the car is, which door the contestant
    picks first, which candidate door the host opens) are explicit inputs, so
    a game is a total, deterministic function of its draw. */
module MontyHall {
  import opened Text

  /** A door: 0, 1 or 2. */
  type Door = d: nat | d < 3

  /** The doors in the order the game enumerates them, [0, 1, 2]. */
  const AllDoors: seq<Door> := [0, 1, 2]

  /** The doors of `ds`, in order, that are neither `a` nor `b`
      (the list comprehension `[d for d in ds if d != a and d != b]`). */
  function Without(ds: seq<Door>, a: Door, b: Door): (r: seq<Door>)
    ensures |r| <= |ds|
    ensures forall d: Door :: d in r <==> d in ds && d != a && d != b
  {
    if ds == [] then []
    else if ds[0] != a && ds[0] != b then [ds[0]] + Without(ds[1..], a, b)
    else Without(ds[1..], a, b)
  }

  /** The goat doors the host may open: not the car and not the first pick. */
  function Available(car: Door, initial: Door): seq<Door> {
    Without(AllDoors, initial, car)
  }

  /** The list the host draws from: the available doors, or, if there were
      none, every door except the first pick. */
  function HostOptions(car: Door, initial: Door): seq<Door> {
    var available := Available(car, initial);
    if available != [] then available else Without(AllDoors, initial, initial)
  }

  /** The random draws of one game: the car's door, the first pick, and the
      index the host's random choice takes in its list. */
  datatype Deal = Deal(car: Door, initial: Door, pick: nat)

  /** A deal whose host index lies inside the host's list. */
  type Draw = d: Deal | d.pick < |HostOptions(d.car, d.initial)| witness Deal(0, 0, 0)

  /** The door the host opens. It is never the car and never the first pick. */
  function HostOpens(d: Draw): (shown: Door)
    ensures shown != d.car && shown != d.initial
  {
    AvailableNonEmpty(d.car, d.initial);
    HostOptions(d.car, d.initial)[d.pick]
  }

  /** The door the contestant ends on: the first pick when staying, the first
      door that is neither the first pick nor the opened door when switching. */
  function FinalChoice(d: Draw, switch: bool): (final: Door)
    ensures !switch ==> final == d.initial
    ensures switch ==> final != d.initial && final != HostOpens(d)
    ensures switch ==> (final == d.car <==> d.initial != d.car)
  {
    if switch then
      var shown := HostOpens(d);
      SwitchTargetUnique(d.initial, shown);
      var remaining := Without(AllDoors, d.initial, shown);
      // when the first pick is a goat, the car is behind neither it nor the
      // opened door, so it is the one door left
      assert d.initial != d.car ==> d.car in remaining;
      remaining[0]
    else d.initial
  }

  /** One game: does the final choice hold the car? Staying wins exactly when
      the first pick is the car; switching wins exactly when it is not,
      whichever goat door the host opens. */
  function PlayGame(d: Draw, switch: bool): (won: bool)
    ensures won <==> (switch <==> d.initial != d.car)
  {
    FinalChoice(d, switch) == d.car
  }

  /** Whatever the car and the first pick, the host has a goat door that is
      not the first pick, so the fallback list is never used. */
  lemma AvailableNonEmpty(car: Door, initial: Door)
    ensures Available(car, initial) != []
    ensures HostOptions(car, initial) == Available(car, initial)
  {
    var other: Door := if initial != 0 && car != 0 then 0 else if initial != 1 && car != 1 then 1 else 2;
    assert other in Available(car, initial);
  }

  /** Once a door other than the first pick is open, exactly one door is left
      to switch to, and it is neither of the two. */
  lemma SwitchTargetUnique(initial: Door, shown: Door)
    requires initial != shown
    ensures |Without(AllDoors, initial, shown)| == 1
    ensures Without(AllDoors, initial, shown)[0] != initial
    ensures Without(AllDoors, initial, shown)[0] != shown
  {
    var third: Door := 3 - initial - shown;
    assert third in Without(AllDoors, initial, shown);
  }

  /** Played on the same hypothetical deal, the two strategies have opposite
      outcomes: exactly one of them wins it. */
  lemma ExactlyOneStrategyWins(d: Draw)
    ensures PlayGame(d, true) != PlayGame(d, false)
  {
  }

  /** The nine (car, first pick) pairs, car-major. */
  const Pairs: seq<(Door, Door)> :=
    [(0, 0), (0, 1), (0, 2), (1, 0), (1, 1), (1, 2), (2, 0), (2, 1), (2, 2)]

  /** The host index chosen for each pair is inside that pair's host list. */
  ghost predicate ValidPicks(pick: (Door, Door) -> nat) {
    forall car: Door, initial: Door :: pick(car, initial) < |HostOptions(car, initial)|
  }

  /** How many of the listed pairs the strategy wins, the host opening
      `pick(car, initial)` in each. */
  function Wins(pairs: seq<(Door, Door)>, switch: bool, pick: (Door, Door) -> nat): nat
    requires ValidPicks(pick)
  {
    if pairs == [] then 0
    else
      var d: Draw := Deal(pairs[0].0, pairs[0].1, pick(pairs[0].0, pairs[0].1));
      (if PlayGame(d, switch) then 1 else 0) + Wins(pairs[1..], switch, pick)
  }

  /** The number of listed pairs whose first pick is (for stay) or is not
      (for switch) the car. */
  function Matching(pairs: seq<(Door, Door)>, switch: bool): nat {
    if pairs == [] then 0
    else (if (pairs[0].0 == pairs[0].1) != switch then 1 else 0) + Matching(pairs[1..], switch)
  }

  lemma {:induction false} WinsAreMatching(pairs: seq<(Door, Door)>, switch: bool, pick: (Door, Door) -> nat)
    requires ValidPicks(pick)
    ensures Wins(pairs, switch, pick) == Matching(pairs, switch)
  {
    if pairs != [] {
      var d: Draw := Deal(pairs[0].0, pairs[0].1, pick(pairs[0].0, pairs[0].1));
      WinsAreMatching(pairs[1..], switch, pick);
    }
  }

  /** Over the nine equally likely (car, first pick) pairs, staying wins 3 and
      switching wins 6, whichever goat doors the host opens: the 1/3 and 2/3 rates. */
  lemma NineCases(pick: (Door, Door) -> nat)
    requires ValidPicks(pick)
    ensures Wins(Pairs, false, pick) == 3
    ensures Wins(Pairs, true, pick) == 6
  {
    WinsAreMatching(Pairs, false, pick);
    WinsAreMatching(Pairs, true, pick);
  }

  /** One iteration of the simulation loop draws two independent games, one
      played by switching and one by staying. */
  datatype Round = Round(switchGame: Draw, stayGame: Draw)

  /** The number of `true` entries of `s`. */
  function CountTrue(s: seq<bool>): (n: nat)
    ensures n <= |s|
  {
    if s == [] then 0 else CountTrue(s[..|s| - 1]) + (if s[|s| - 1] then 1 else 0)
  }

  /** The game of a round that the given strategy plays. */
  function GameOf(round: Round, switch: bool): Draw {
    if switch then round.switchGame else round.stayGame
  }

  /** The win outcomes, in order, of the games of `rounds` that the given
      strategy plays. */
  function Outcomes(rounds: seq<Round>, switch: bool): (r: seq<bool>)
    ensures |r| == |rounds|
  {
    if rounds == [] then []
    else Outcomes(rounds[..|rounds| - 1], switch) + [PlayGame(GameOf(rounds[|rounds| - 1], switch), switch)]
  }

  lemma OutcomesSnoc(rounds: seq<Round>, i: nat, switch: bool)
    requires i < |rounds|
    ensures Outcomes(rounds[..i + 1], switch) == Outcomes(rounds[..i], switch) + [PlayGame(GameOf(rounds[i], switch), switch)]
  {
    assert rounds[..i + 1][..i] == rounds[..i];
  }

  /** Playing two lists of rounds one after the other gives the outcomes of
      the first list followed by those of the second. */
  lemma {:induction false} OutcomesConcat(a: seq<Round>, b: seq<Round>, switch: bool)
    ensures Outcomes(a + b, switch) == Outcomes(a, switch) + Outcomes(b, switch)
    decreases |b|
  {
    if b == [] {
      assert a + b == a;
    } else {
      var b' := b[..|b| - 1];
      assert (a + b)[..|a + b| - 1] == a + b';
      OutcomesConcat(a, b', switch);
    }
  }

  /** A running win rate, wins / trials * 100. */
  function Percent(wins: nat, trials: nat): real
    requires trials > 0
  {
    wins as real / trials as real * 100.0
  }

  /** A win rate of at most as many wins as trials lies in [0, 100]. */
  lemma PercentInRange(wins: nat, trials: nat)
    requires 0 < trials && wins <= trials
    ensures 0.0 <= Percent(wins, trials) <= 100.0
  {
    var q := wins as real / trials as real;
    assert q * trials as real == wins as real;
    assert q <= 1.0;
  }

  /** The running win rate after each trial of `results`: entry k is the
      rate over the first k + 1 trials. */
  function RunningRates(results: seq<bool>): (h: seq<real>)
    ensures |h| == |results|
  {
    if results == [] then []
    else RunningRates(results[..|results| - 1]) + [Percent(CountTrue(results), |results|)]
  }

  /** History entry k is 100 * (wins among the first k + 1 trials) / (k + 1),
      a percentage in [0, 100]. */
  lemma {:induction false} RunningRateAt(results: seq<bool>, k: nat)
    requires k < |results|
    ensures RunningRates(results)[k] == Percent(CountTrue(results[..k + 1]), k + 1)
    ensures 0.0 <= RunningRates(results)[k] <= 100.0
  {
    var n := |results|;
    if k == n - 1 {
      assert results[..k + 1] == results;
    } else {
      RunningRateAt(results[..n - 1], k);
      assert results[..n - 1][..k + 1] == results[..k + 1];
    }
    PercentInRange(CountTrue(results[..k + 1]), k + 1);
  }

  /** Further trials never rewrite the rates already recorded. */
  lemma {:induction false} RunningRatesPrefix(s: seq<bool>, t: seq<bool>)
    ensures RunningRates(s) <= RunningRates(s + t)
    decreases |t|
  {
    if t != [] {
      var t' := t[..|t| - 1];
      assert (s + t)[..|s + t| - 1] == s + t';
      RunningRatesPrefix(s, t');
    } else {
      assert s + t == s;
    }
  }

  lemma CountTrueAppend(s: seq<bool>, b: bool)
    ensures CountTrue(s + [b]) == CountTrue(s) + (if b then 1 else 0)
  {
    assert (s + [b])[..|s|] == s;
  }

  lemma {:induction false} CountTrueConcat(s: seq<bool>, t: seq<bool>)
    ensures CountTrue(s + t) == CountTrue(s) + CountTrue(t)
    decreases |t|
  {
    if t != [] {
      var t' := t[..|t| - 1];
      assert (s + t)[..|s + t| - 1] == s + t';
      CountTrueConcat(s, t');
    } else {
      assert s + t == s;
    }
  }

  /** The simulation state: counters of trials and wins per strategy, and the
      running win rate after every trial. */
  class MontyHallSimulation {
    var switchWins: nat
    var stayWins: nat
    var trials: nat
    var switchHistory: seq<real>
    var stayHistory: seq<real>

    /** The outcome of every game played so far, per strategy. */
    ghost var switchResults: seq<bool>
    ghost var stayResults: seq<bool>

    ghost predicate Valid()
      reads this
    {
      && |switchResults| == trials && |stayResults| == trials
      && switchWins == CountTrue(switchResults)
      && stayWins == CountTrue(stayResults)
      && switchHistory == RunningRates(switchResults)
      && stayHistory == RunningRates(stayResults)
    }

    constructor ()
      ensures Valid()
      ensures trials == 0 && switchWins == 0 && stayWins == 0
      ensures switchHistory == [] && stayHistory == []
    {
      switchWins, stayWins, trials := 0, 0, 0;
      switchHistory, stayHistory := [], [];
      switchResults, stayResults := [], [];
    }

    /** The counters never exceed the number of trials and every history has
        one entry per trial, each a percentage in [0, 100]. */
    lemma Bounded()
      requires Valid()
      ensures switchWins <= trials && stayWins <= trials
      ensures |switchHistory| == trials && |stayHistory| == trials
      ensures forall k :: 0 <= k < trials ==> 0.0 <= switchHistory[k] <= 100.0
      ensures forall k :: 0 <= k < trials ==> 0.0 <= stayHistory[k] <= 100.0
    {
      forall k | 0 <= k < trials
        ensures 0.0 <= switchHistory[k] <= 100.0 && 0.0 <= stayHistory[k] <= 100.0
      {
        RunningRateAt(switchResults, k);
        RunningRateAt(stayResults, k);
      }
    }

    /** Runs `numTrials` iterations (none when it is zero or negative, as
        Python's range gives), each playing `rounds[k]`'s two games. */
    method RunSimulation(numTrials: int, rounds: seq<Round>)
      requires Valid()
      requires |rounds| == if numTrials < 0 then 0 else numTrials
      modifies this
      ensures Valid()
      ensures trials == old(trials) + |rounds|
      ensures switchResults == old(switchResults) + Outcomes(rounds, true)
      ensures stayResults == old(stayResults) + Outcomes(rounds, false)
      ensures switchWins == old(switchWins) + CountTrue(Outcomes(rounds, true))
      ensures stayWins == old(stayWins) + CountTrue(Outcomes(rounds, false))
      ensures switchWins <= old(switchWins) + |rounds| && stayWins <= old(stayWins) + |rounds|
      ensures |switchHistory| == old(|switchHistory|) + |rounds|
      ensures |stayHistory| == old(|stayHistory|) + |rounds|
      ensures old(switchHistory) <= switchHistory && old(stayHistory) <= stayHistory
      ensures numTrials <= 0 ==>
        trials == old(trials) && switchWins == old(switchWins) && stayWins == old(stayWins) &&
        switchHistory == old(switchHistory) && stayHistory == old(stayHistory)
    {
      for i := 0 to |rounds|
        invariant Valid()
        invariant trials == old(trials) + i
        invariant switchResults == old(switchResults) + Outcomes(rounds[..i], true)
        invariant stayResults == old(stayResults) + Outcomes(rounds[..i], false)
      {
        OutcomesSnoc(rounds, i, true);
        OutcomesSnoc(rounds, i, false);
        PlayRound(rounds[i]);
        AppendAssociative(old(switchResults), Outcomes(rounds[..i], true), [PlayGame(rounds[i].switchGame, true)]);
        AppendAssociative(old(stayResults), Outcomes(rounds[..i], false), [PlayGame(rounds[i].stayGame, false)]);
      }
      assert rounds[..|rounds|] == rounds;
      CountTrueConcat(old(switchResults), Outcomes(rounds, true));
      CountTrueConcat(old(stayResults), Outcomes(rounds, false));
      RunningRatesPrefix(old(switchResults), Outcomes(rounds, true));
      RunningRatesPrefix(old(stayResults), Outcomes(rounds, false));
    }

    /** One iteration of the simulation loop: count the trial, play the
        switching game and the staying game, record both running rates. */
    method PlayRound(round: Round)
      requires Valid()
      modifies this
      ensures Valid()
      ensures trials == old(trials) + 1
      ensures switchResults == old(switchResults) + [PlayGame(round.switchGame, true)]
      ensures stayResults == old(stayResults) + [PlayGame(round.stayGame, false)]
      ensures switchHistory == old(switchHistory) + [Percent(switchWins, trials)]
      ensures stayHistory == old(stayHistory) + [Percent(stayWins, trials)]
    {
      trials := trials + 1;

      var switchWon := PlayGame(round.switchGame, true);
      if switchWon {
        switchWins := switchWins + 1;
      }
      var stayWon := PlayGame(round.stayGame, false);
      if stayWon {
        stayWins := stayWins + 1;
      }
      CountTrueAppend(switchResults, switchWon);
      CountTrueAppend(stayResults, stayWon);
      assert (switchResults + [switchWon])[..trials - 1] == switchResults;
      assert (stayResults + [stayWon])[..trials - 1] == stayResults;

      switchHistory := switchHistory + [Percent(switchWins, trials)];
      stayHistory := stayHistory + [Percent(stayWins, trials)];
      switchResults := switchResults + [switchWon];
      stayResults := stayResults + [stayWon];
    }

    /** The current win percentages (switch, stay): (0, 0) before any trial,
        otherwise wins / trials * 100 for each strategy, which is also the
        last history entry. */
    function Results(): (r: (real, real))
      reads this
      requires Valid()
      ensures trials == 0 ==> r == (0.0, 0.0)
      ensures trials > 0 ==> r.0 == Percent(switchWins, trials) && r.1 == Percent(stayWins, trials)
      ensures trials > 0 ==> r.0 == switchHistory[trials - 1] && r.1 == stayHistory[trials - 1]
      ensures 0.0 <= r.0 <= 100.0 && 0.0 <= r.1 <= 100.0
    {
      assert switchResults[..trials] == switchResults && stayResults[..trials] == stayResults;
      if trials > 0 then
        PercentInRange(switchWins, trials);
        PercentInRange(stayWins, trials);
        (Percent(switchWins, trials), Percent(stayWins, trials))
      else (0.0, 0.0)
    }

    /** One frame of the animation: ten more trials, then the current results. */
    method AnimateFrame(frame: seq<Round>) returns (switchPct: real, stayPct: real)
      requires Valid()
      requires |frame| == TrialsPerFrame
      modifies this
      ensures Valid()
      ensures trials == old(trials) + TrialsPerFrame
      ensures switchResults == old(switchResults) + Outcomes(frame, true)
      ensures stayResults == old(stayResults) + Outcomes(frame, false)
      ensures old(switchHistory) <= switchHistory && old(stayHistory) <= stayHistory
      ensures (switchPct, stayPct) == Results()
    {
      RunSimulation(TrialsPerFrame, frame);
      switchPct, stayPct := Results().0, Results().1;
    }
  }

  /** The animation runs ten trials per frame. */
  const TrialsPerFrame: nat := 10

  /** The rounds of the frames, frame after frame. */
  function Flatten(frames: seq<seq<Round>>): (rounds: seq<Round>)
    ensures (forall f :: 0 <= f < |frames| ==> |frames[f]| == TrialsPerFrame) ==>
              |rounds| == TrialsPerFrame * |frames|
  {
    if frames == [] then [] else Flatten(frames[..|frames| - 1]) + frames[|frames| - 1]
  }

  /** The animated run: a fresh simulation advanced one frame at a time for
      `targetTrials / 10` frames. It plays exactly the frames' rounds, in
      order, so its counters and histories are those of that sequence of
      games. */
  method RunAnimation(targetTrials: nat, frames: seq<seq<Round>>) returns (sim: MontyHallSimulation)
    requires |frames| == targetTrials / TrialsPerFrame
    requires forall f :: 0 <= f < |frames| ==> |frames[f]| == TrialsPerFrame
    ensures fresh(sim) && sim.Valid()
    ensures sim.trials == TrialsPerFrame * (targetTrials / TrialsPerFrame)
    ensures sim.trials <= targetTrials
    ensures sim.switchResults == Outcomes(Flatten(frames), true)
    ensures sim.stayResults == Outcomes(Flatten(frames), false)
    ensures sim.switchWins == CountTrue(Outcomes(Flatten(frames), true))
    ensures sim.stayWins == CountTrue(Outcomes(Flatten(frames), false))
    ensures sim.switchHistory == RunningRates(Outcomes(Flatten(frames), true))
    ensures sim.stayHistory == RunningRates(Outcomes(Flatten(frames), false))
  {
    sim := new MontyHallSimulation();
    for f := 0 to |frames|
      invariant sim.Valid()
      invariant sim.trials == TrialsPerFrame * f
      invariant sim.switchResults == Outcomes(Flatten(frames[..f]), true)
      invariant sim.stayResults == Outcomes(Flatten(frames[..f]), false)
    {
      var _, _ := sim.AnimateFrame(frames[f]);
      FlattenOneMore(frames, f, true);
      FlattenOneMore(frames, f, false);
    }
    assert frames[..|frames|] == frames;
    WholeFrames(targetTrials);
  }

  /** The outcomes of the first f + 1 frames are those of the first f
      followed by those of frame f. */
  lemma FlattenOneMore(frames: seq<seq<Round>>, f: nat, switch: bool)
    requires f < |frames|
    ensures Outcomes(Flatten(frames[..f + 1]), switch)
         == Outcomes(Flatten(frames[..f]), switch) + Outcomes(frames[f], switch)
  {
    assert frames[..f + 1][..f] == frames[..f];
    assert Flatten(frames[..f + 1]) == Flatten(frames[..f]) + frames[f];
    OutcomesConcat(Flatten(frames[..f]), frames[f], switch);
  }

  /** Whole frames of ten never overshoot the requested trial count. */
  lemma WholeFrames(targetTrials: nat)
    ensures TrialsPerFrame * (targetTrials / TrialsPerFrame) <= targetTrials
  {
  }
}
