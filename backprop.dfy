/** The worksheet's two-weight network
      h = 3 x + w1,   y = 2 h + w2,   E = 0.5 (y - target)^2
    trained by gradient descent. The numbers are Dafny reals: every formula
    uses only +, - and *, so exact arithmetic is the ideal the floating-point
    code approximates. */
module Backprop {
  import opened Text

  /** The hidden unit, h = 3 x + w1. */
  function Hidden(x: real, w1: real): real {
    3.0 * x + w1
  }

  /** The output, y = 2 h + w2. */
  function Output(x: real, w1: real, w2: real): real {
    2.0 * Hidden(x, w1) + w2
  }

  /** r^2. */
  function Square(r: real): real {
    r * r
  }

  /** The squared error, E = 0.5 (y - target)^2. */
  function Loss(y: real, target: real): real {
    0.5 * Square(y - target)
  }

  /** How far the output misses the target, y - target. */
  function Residual(x: real, target: real, w1: real, w2: real): real {
    Output(x, w1, w2) - target
  }

  /** The error of the network at weights (w1, w2) on one example. */
  function ErrorAt(x: real, target: real, w1: real, w2: real): real {
    Loss(Output(x, w1, w2), target)
  }

  lemma SquareNonNegative(r: real)
    ensures Square(r) >= 0.0
  {
  }

  /** (c r)^2 = c^2 r^2. */
  lemma SquareOfProduct(c: real, r: real)
    ensures Square(c * r) == Square(c) * Square(r)
  {
  }

  /** The error is never negative. */
  lemma LossNonNegative(y: real, target: real)
    ensures Loss(y, target) >= 0.0
  {
    SquareNonNegative(y - target);
  }

  /** The chain-rule gradients are the true derivatives of the error: moving
      w2 by d changes E by d * (y - target) + d^2 / 2, and moving w1 by d
      changes it by d * 2 (y - target) + 2 d^2. The first-order coefficients
      are dE/dw2 = y - target and dE/dw1 = 2 (y - target). */
  lemma GradientsAreDerivatives(x: real, target: real, w1: real, w2: real, d: real)
    ensures ErrorAt(x, target, w1, w2 + d) - ErrorAt(x, target, w1, w2)
         == d * Residual(x, target, w1, w2) + 0.5 * Square(d)
    ensures ErrorAt(x, target, w1 + d, w2) - ErrorAt(x, target, w1, w2)
         == d * (2.0 * Residual(x, target, w1, w2)) + 2.0 * Square(d)
  {
    var r := Residual(x, target, w1, w2);
    assert Output(x, w1, w2 + d) - target == r + d;
    assert Output(x, w1 + d, w2) - target == r + 2.0 * d;
    ShiftedSquare(r, d);
    ShiftedSquare(r, 2.0 * d);
  }

  /** (r + d)^2 = r^2 + 2 d r + d^2. */
  lemma ShiftedSquare(r: real, d: real)
    ensures Square(r + d) == Square(r) + 2.0 * d * r + Square(d)
  {
  }

  /** The factor 1 - 5 lr by which one step at learning rate lr scales the
      residual (5 = 1^2 + 2^2, the squared lengths of the two gradients'
      coefficients). */
  function Contraction(lr: real): real {
    1.0 - 5.0 * lr
  }

  /** The pair of weights (w1, w2). */
  datatype Weights = Weights(w1: real, w2: real)

  /** One gradient-descent update at learning rate lr on the example
      (x, target): each weight moves against its chain-rule gradient,
      dE/dw1 = 2 (y - target) and dE/dw2 = y - target. */
  function Descend(x: real, target: real, lr: real, w: Weights): (next: Weights)
    ensures next.w2 == w.w2 - lr * Residual(x, target, w.w1, w.w2)
    ensures w.w1 - next.w1 == 2.0 * (w.w2 - next.w2)
  {
    var r := Residual(x, target, w.w1, w.w2);
    Weights(w.w1 - lr * (2.0 * r), w.w2 - lr * r)
  }

  /** One gradient step at learning rate lr multiplies the residual
      y - target by (1 - 5 lr) and the error by (1 - 5 lr)^2. */
  lemma StepScalesResidual(x: real, target: real, lr: real, w: Weights)
    ensures var d := Descend(x, target, lr, w);
            Residual(x, target, d.w1, d.w2) == Contraction(lr) * Residual(x, target, w.w1, w.w2)
    ensures var d := Descend(x, target, lr, w);
            ErrorAt(x, target, d.w1, d.w2) == Square(Contraction(lr)) * ErrorAt(x, target, w.w1, w.w2)
  {
    var r := Residual(x, target, w.w1, w.w2);
    var d := Descend(x, target, lr, w);
    StepResidual(x, target, lr, w);
    SquareOfProduct(Contraction(lr), r);
  }

  /** The residual part of StepScalesResidual on its own. */
  lemma StepResidual(x: real, target: real, lr: real, w: Weights)
    ensures var d := Descend(x, target, lr, w);
            Residual(x, target, d.w1, d.w2) == Contraction(lr) * Residual(x, target, w.w1, w.w2)
  {
  }

  /** While the error is not zero, one step strictly lowers it exactly when
      0 < lr < 0.4. */
  lemma StepDecreasesIff(x: real, target: real, lr: real, w: Weights)
    requires ErrorAt(x, target, w.w1, w.w2) > 0.0
    ensures var d := Descend(x, target, lr, w);
            (ErrorAt(x, target, d.w1, d.w2) < ErrorAt(x, target, w.w1, w.w2) <==> 0.0 < lr < 0.4)
  {
    var c := Contraction(lr);
    StepScalesResidual(x, target, lr, w);
    SquareBelowOne(c);
    ScaleCompare(Square(c), ErrorAt(x, target, w.w1, w.w2));
  }

  /** For e > 0, s * e < e exactly when s < 1. */
  lemma ScaleCompare(s: real, e: real)
    requires e > 0.0
    ensures s * e < e <==> s < 1.0
  {
    if s < 1.0 {
      assert (1.0 - s) * e > 0.0;
    } else {
      assert (s - 1.0) * e >= 0.0;
    }
  }

  /** c^2 < 1 exactly when -1 < c < 1. */
  lemma SquareBelowOne(c: real)
    ensures Square(c) < 1.0 <==> -1.0 < c < 1.0
  {
    if c >= 1.0 {
      assert c * c >= c * 1.0;
    } else if c <= -1.0 {
      assert c * c >= (-c) * 1.0;
    } else if c >= 0.0 {
      assert c * c <= c * 1.0;
    } else {
      assert c * c <= (-c) * 1.0;
    }
  }

  /** x^n for a natural exponent. */
  function Pow(c: real, n: nat): real {
    if n == 0 then 1.0 else c * Pow(c, n - 1)
  }

  /** Multiplying c^m r0 by c gives c^(m+1) r0. */
  lemma PowStep(c: real, m: nat, n: nat, r0: real, before: real, after: real)
    requires n == m + 1 && before == Pow(c, m) * r0 && after == c * before
    ensures after == Pow(c, n) * r0
  {
  }

  /** The weights after n updates from w. */
  function Trajectory(x: real, target: real, lr: real, w: Weights, n: nat): Weights {
    if n == 0 then w else Descend(x, target, lr, Trajectory(x, target, lr, w, n - 1))
  }

  /** The residual after n updates from w. */
  function ResidualAfter(x: real, target: real, lr: real, w: Weights, n: nat): real {
    var t := Trajectory(x, target, lr, w, n);
    Residual(x, target, t.w1, t.w2)
  }

  /** The error at the weights n updates after w. */
  function ErrorAfter(x: real, target: real, lr: real, w: Weights, n: nat): real {
    0.5 * Square(ResidualAfter(x, target, lr, w, n))
  }

  /** The first weight after each of the first n updates from w, in order:
      what n training steps append to the w1 history. */
  function W1Path(x: real, target: real, lr: real, w: Weights, n: nat): (p: seq<real>)
    ensures |p| == n
  {
    if n == 0 then [] else W1Path(x, target, lr, w, n - 1) + [Trajectory(x, target, lr, w, n).w1]
  }

  /** The second weight after each of the first n updates from w, in order. */
  function W2Path(x: real, target: real, lr: real, w: Weights, n: nat): (p: seq<real>)
    ensures |p| == n
  {
    if n == 0 then [] else W2Path(x, target, lr, w, n - 1) + [Trajectory(x, target, lr, w, n).w2]
  }

  /** The error before each of the first n updates from w, in order: what n
      training steps append to the error history. */
  function ErrorPath(x: real, target: real, lr: real, w: Weights, n: nat): (p: seq<real>)
    ensures |p| == n
  {
    if n == 0 then [] else ErrorPath(x, target, lr, w, n - 1) + [ErrorAfter(x, target, lr, w, n - 1)]
  }

  /** Each update scales the residual by 1 - 5 lr, so after n updates it is
      (1 - 5 lr)^n times the starting one. */
  lemma {:induction false} TrajectoryResidual(x: real, target: real, lr: real, w: Weights, n: nat)
    ensures ResidualAfter(x, target, lr, w, n) == Pow(Contraction(lr), n) * Residual(x, target, w.w1, w.w2)
  {
    if n > 0 {
      TrajectoryResidual(x, target, lr, w, n - 1);
      ResidualAfterStep(x, target, lr, w, n - 1, n);
      PowStep(Contraction(lr), n - 1, n, Residual(x, target, w.w1, w.w2),
              ResidualAfter(x, target, lr, w, n - 1), ResidualAfter(x, target, lr, w, n));
    }
  }

  /** One more update scales the residual after m updates by 1 - 5 lr. */
  lemma ResidualAfterStep(x: real, target: real, lr: real, w: Weights, m: nat, n: nat)
    requires n == m + 1
    ensures ResidualAfter(x, target, lr, w, n) == Contraction(lr) * ResidualAfter(x, target, lr, w, m)
  {
    TrajectoryStep(x, target, lr, w, m, n);
    StepResidual(x, target, lr, Trajectory(x, target, lr, w, m));
  }

  /** Trajectory at index m = n + 1 is one more update after index n. */
  lemma TrajectoryStep(x: real, target: real, lr: real, w: Weights, n: nat, m: nat)
    requires m == n + 1
    ensures Trajectory(x, target, lr, w, m) == Descend(x, target, lr, Trajectory(x, target, lr, w, n))
    ensures Trajectory(x, target, lr, w, m - 1) == Trajectory(x, target, lr, w, n)
  {
  }

  /** The worksheet network: its weights, the values of its last forward and
      backward passes, and the histories kept for plotting. */
  class SimpleNetwork {
    var w1: real
    var w2: real
    var x: real
    var h: real
    var y: real
    var target: real
    var error: real
    var dEdw1: real
    var dEdw2: real
    var historyW1: seq<real>
    var historyW2: seq<real>
    var historyError: seq<real>

    /** The weights the network was built with. */
    ghost const initialW1: real
    ghost const initialW2: real
    /** Whether forward (respectively backward) has run, so that the fields
        it sets exist; before that the source's attributes are undefined. */
    ghost var hasOutput: bool
    ghost var hasGradients: bool
    /** The number of weight updates made so far. */
    ghost var updates: nat

    /** The weight histories start with the constructor's weights and end
        with the current ones; they hold one entry per update plus the
        starting weights, and the error history one entry per update. */
    ghost predicate Valid()
      reads this
    {
      && |historyError| == updates
      && |historyW1| == updates + 1
      && |historyW2| == updates + 1
      && historyW1[0] == initialW1 && historyW2[0] == initialW2
      && historyW1[|historyW1| - 1] == w1
      && historyW2[|historyW2| - 1] == w2
      && (hasGradients ==> hasOutput)
    }

    constructor (w1: real, w2: real)
      ensures Valid()
      ensures this.w1 == w1 && this.w2 == w2
      ensures historyW1 == [w1] && historyW2 == [w2] && historyError == []
      ensures !hasOutput && !hasGradients && updates == 0
    {
      this.w1, this.w2 := w1, w2;
      initialW1, initialW2 := w1, w2;
      historyW1, historyW2, historyError := [w1], [w2], [];
      hasOutput, hasGradients := false, false;
      updates := 0;
    }

    /** The forward pass: sets h, y and the error for this example and
        returns (y, error). */
    method Forward(x: real, target: real) returns (output: real, err: real)
      requires Valid()
      modifies this`x, this`h, this`y, this`target, this`error, this`hasOutput
      ensures Valid() && hasOutput
      ensures this.x == x && this.target == target
      ensures h == Hidden(x, w1) && y == Output(x, w1, w2)
      ensures error == Loss(y, target) && error >= 0.0
      ensures output == y && err == error
    {
      this.x := x;
      h := 3.0 * x + w1;
      y := 2.0 * h + w2;
      this.target := target;
      error := 0.5 * (y - target) * (y - target);
      hasOutput := true;
      LossNonNegative(y, target);
      output, err := y, error;
    }

    /** The backward pass: the chain rule gives dE/dw2 = (y - target) * 1
        and dE/dw1 = (y - target) * 2 * 1. */
    method Backward() returns (g1: real, g2: real)
      requires Valid() && hasOutput
      modifies this`dEdw1, this`dEdw2, this`hasGradients
      ensures Valid() && hasGradients
      ensures dEdw2 == y - target && dEdw1 == 2.0 * (y - target)
      ensures dEdw1 == 2.0 * dEdw2
      ensures g1 == dEdw1 && g2 == dEdw2
    {
      var dEdy := y - target;
      var dydw2 := 1.0;
      dEdw2 := dEdy * dydw2;
      var dydh := 2.0;
      var dhdw1 := 1.0;
      dEdw1 := dEdy * dydh * dhdw1;
      hasGradients := true;
      g1, g2 := dEdw1, dEdw2;
    }

    /** Gradient descent: w <- w - lr * dE/dw for both weights, then one
        entry appended to each history (the error is the one from the last
        forward pass). */
    method UpdateWeights(learningRate: real)
      requires Valid() && hasGradients
      modifies this`w1, this`w2, this`historyW1, this`historyW2, this`historyError, this`updates
      ensures Valid()
      ensures w1 == old(w1) - learningRate * dEdw1
      ensures w2 == old(w2) - learningRate * dEdw2
      ensures historyW1 == old(historyW1) + [w1]
      ensures historyW2 == old(historyW2) + [w2]
      ensures historyError == old(historyError) + [error]
      ensures updates == old(updates) + 1
    {
      w1 := w1 - learningRate * dEdw1;
      w2 := w2 - learningRate * dEdw2;
      historyW1 := historyW1 + [w1];
      historyW2 := historyW2 + [w2];
      historyError := historyError + [error];
      updates := updates + 1;
    }

    /** One training step: forward, backward, update. It returns the error
        measured before the weights changed, which is the entry it appended
        to the error history. */
    method TrainStep(x: real, target: real, learningRate: real) returns (err: real)
      requires Valid()
      modifies this
      ensures Valid() && hasOutput && hasGradients
      ensures this.x == x && this.target == target
      ensures h == Hidden(x, old(w1)) && y == Output(x, old(w1), old(w2))
      ensures error == err && err == ErrorAt(x, target, old(w1), old(w2))
      ensures dEdw2 == Residual(x, target, old(w1), old(w2)) && dEdw1 == 2.0 * dEdw2
      ensures Weights(w1, w2) == Descend(x, target, learningRate, Weights(old(w1), old(w2)))
      ensures historyError == old(historyError) + [err]
      ensures historyW1 == old(historyW1) + [w1] && historyW2 == old(historyW2) + [w2]
      ensures updates == old(updates) + 1
    {
      var _, _ := Forward(x, target);
      var _, _ := Backward();
      UpdateWeights(learningRate);
      err := error;
    }
  }

  /** The worksheet example: x = 2, target = 20, w1 = 1, w2 = 3, one update
      at learning rate 0.1. Forward gives h = 7, y = 17, E = 4.5; the
      gradients are -6 and -3; afterwards w1 = 1.6, w2 = 3.3, y = 18.5 and
      E = 1.125, lower than before. */
  method Worksheet() returns (h: real, y: real, e: real, g1: real, g2: real,
                              w1: real, w2: real, yNew: real, eNew: real)
    ensures h == 7.0 && y == 17.0 && e == 4.5
    ensures g1 == -6.0 && g2 == -3.0
    ensures w1 == 1.6 && w2 == 3.3
    ensures yNew == 18.5 && eNew == 1.125
    ensures eNew < e
  {
    var net := new SimpleNetwork(1.0, 3.0);
    var xInput, targetOutput := 2.0, 20.0;
    y, e := net.Forward(xInput, targetOutput);
    h := net.h;
    g1, g2 := net.Backward();
    net.UpdateWeights(0.1);
    yNew, eNew := net.Forward(xInput, targetOutput);
    w1, w2 := net.w1, net.w2;
  }

  /** Training for a number of steps at a fixed example, recording the error
      each step returns and re-running forward after it: the weights follow
      the trajectory of gradient descent, one error is recorded per step,
      and the last one is the error at the weights before the last update. */
  method Train(net: SimpleNetwork, x: real, target: real, learningRate: real, steps: nat)
    returns (err: real, yCurrent: real)
    requires net.Valid() && steps >= 1
    modifies net
    ensures net.Valid()
    ensures net.updates == old(net.updates) + steps
    ensures net.historyW1 == old(net.historyW1) + W1Path(x, target, learningRate, Weights(old(net.w1), old(net.w2)), steps)
    ensures net.historyW2 == old(net.historyW2) + W2Path(x, target, learningRate, Weights(old(net.w1), old(net.w2)), steps)
    ensures net.historyError == old(net.historyError) + ErrorPath(x, target, learningRate, Weights(old(net.w1), old(net.w2)), steps)
    ensures old(net.historyW1) <= net.historyW1 && old(net.historyW2) <= net.historyW2
    ensures old(net.historyError) <= net.historyError
    ensures Weights(net.w1, net.w2)
         == Trajectory(x, target, learningRate, Weights(old(net.w1), old(net.w2)), steps)
    ensures net.x == x && net.target == target
    ensures net.h == Hidden(x, net.w1)
    ensures yCurrent == net.y && yCurrent == Output(x, net.w1, net.w2)
    ensures net.error == Loss(yCurrent, target)
    ensures net.dEdw2 == ResidualAfter(x, target, learningRate, Weights(old(net.w1), old(net.w2)), steps - 1)
    ensures net.dEdw1 == 2.0 * net.dEdw2
    ensures net.hasOutput && net.hasGradients
    ensures err == net.historyError[|net.historyError| - 1]
    ensures err == ErrorAfter(x, target, learningRate, Weights(old(net.w1), old(net.w2)), steps - 1)
  {
    ghost var start := Weights(net.w1, net.w2);
    err, yCurrent := 0.0, 0.0;
    var step := 0;
    while step < steps
      invariant 0 <= step <= steps
      invariant net.Valid()
      invariant net.updates == old(net.updates) + step
      invariant net.historyW1 == old(net.historyW1) + W1Path(x, target, learningRate, start, step)
      invariant net.historyW2 == old(net.historyW2) + W2Path(x, target, learningRate, start, step)
      invariant net.historyError == old(net.historyError) + ErrorPath(x, target, learningRate, start, step)
      invariant Weights(net.w1, net.w2) == Trajectory(x, target, learningRate, start, step)
      invariant step >= 1 ==> net.x == x && net.target == target && net.h == Hidden(x, net.w1)
      invariant step >= 1 ==> yCurrent == net.y && yCurrent == Output(x, net.w1, net.w2)
      invariant step >= 1 ==> net.error == Loss(yCurrent, target)
      invariant step >= 1 ==> net.dEdw2 == ResidualAfter(x, target, learningRate, start, step - 1)
      invariant step >= 1 ==> net.dEdw1 == 2.0 * net.dEdw2
      invariant step >= 1 ==> net.hasOutput && net.hasGradients
      invariant step >= 1 ==> err == net.historyError[|net.historyError| - 1]
      invariant step >= 1 ==> err == ErrorAfter(x, target, learningRate, start, step - 1)
    {
      err, yCurrent := StepAndObserve(net, x, target, learningRate);
      ghost var previous := step;
      step := step + 1;
      TrajectoryStep(x, target, learningRate, start, previous, step);
      AppendAssociative(old(net.historyW1), W1Path(x, target, learningRate, start, previous), [net.w1]);
      AppendAssociative(old(net.historyW2), W2Path(x, target, learningRate, start, previous), [net.w2]);
      AppendAssociative(old(net.historyError), ErrorPath(x, target, learningRate, start, previous), [err]);
    }
  }

  /** The body of the training loop: one training step, then a forward
      pass that reads off the new output. */
  method StepAndObserve(net: SimpleNetwork, x: real, target: real, learningRate: real)
    returns (err: real, yCurrent: real)
    requires net.Valid()
    modifies net
    ensures net.Valid()
    ensures net.updates == old(net.updates) + 1
    ensures |net.historyError| == old(|net.historyError|) + 1
    ensures net.historyW1 == old(net.historyW1) + [net.w1]
    ensures net.historyW2 == old(net.historyW2) + [net.w2]
    ensures net.historyError == old(net.historyError) + [err]
    ensures err == ErrorAt(x, target, old(net.w1), old(net.w2))
    ensures Weights(net.w1, net.w2) == Descend(x, target, learningRate, Weights(old(net.w1), old(net.w2)))
    ensures net.x == x && net.target == target
    ensures net.h == Hidden(x, net.w1)
    ensures yCurrent == net.y && yCurrent == Output(x, net.w1, net.w2)
    ensures net.error == Loss(yCurrent, target)
    ensures net.dEdw2 == Residual(x, target, old(net.w1), old(net.w2)) && net.dEdw1 == 2.0 * net.dEdw2
    ensures net.hasOutput && net.hasGradients
  {
    err := net.TrainStep(x, target, learningRate);
    var stepError;
    yCurrent, stepError := net.Forward(x, target);
  }

  /** 2^n. */
  function TwoTo(n: nat): nat {
    if n == 0 then 1 else 2 * TwoTo(n - 1)
  }

  lemma {:induction false} TwoToAdd(m: nat, n: nat)
    ensures TwoTo(m + n) == TwoTo(m) * TwoTo(n)
    decreases n
  {
    if n > 0 {
      TwoToAdd(m, n - 1);
      assert TwoTo(m + n) == 2 * TwoTo(m + n - 1);
    }
  }

  /** (1/2)^n = 1 / 2^n. */
  lemma {:induction false} HalfPow(c: real, n: nat)
    requires c == 0.5
    ensures Pow(c, n) * (TwoTo(n) as real) == 1.0
  {
    if n > 0 {
      HalfPow(c, n - 1);
    }
  }

  /** The second part of the worksheet: a network reset to (w1, w2) is
      trained for 20 steps and then reads off its output. The output misses
      the target by the residual 20 updates leave, the reported error is the
      one before the last update, and at the worksheet's values (x = 2,
      target = 20, learning rate 0.1, weights 1 and 3) these are
      20 - 3 / 2^20 and 0.5 * (3 / 2^19)^2. */
  method WatchItLearn(x: real, target: real, learningRate: real, w1: real, w2: real)
    returns (err: real, yCurrent: real)
    ensures yCurrent - target == ResidualAfter(x, target, learningRate, Weights(w1, w2), 20)
    ensures err == ErrorAfter(x, target, learningRate, Weights(w1, w2), 19)
  {
    var net := new SimpleNetwork(w1, w2);
    err, yCurrent := Train(net, x, target, learningRate, 20);
  }

  /** From the worksheet's weights, at x = 2, target = 20 and learning
      rate 0.1, the residual after n updates is -3 / 2^n. */
  lemma WorksheetRun(x: real, target: real, lr: real, w: Weights, n: nat, m: nat)
    requires x == 2.0 && target == 20.0 && lr == 0.1 && w.w1 == 1.0 && w.w2 == 3.0
    requires n == 20 && m == 19
    ensures ResidualAfter(x, target, lr, w, n) == -3.0 / 1048576.0
    ensures ErrorAfter(x, target, lr, w, m) == 0.5 * Square(3.0 / 524288.0)
  {
    assert TwoTo(10) == 1024 && TwoTo(9) == 512;
    TwoToAdd(10, 10);
    TwoToAdd(10, 9);
    ResidualAfterHalving(x, target, lr, w, n, 1048576);
    ResidualAfterHalving(x, target, lr, w, m, 524288);
    SquareOfNegation(ResidualAfter(x, target, lr, w, m), 3.0 / 524288.0);
  }

  /** The error after n updates is the starting error scaled by the square
      of the n-th power of the contraction factor. */
  lemma ErrorAfterScales(x: real, target: real, lr: real, w: Weights, n: nat)
    ensures ErrorAfter(x, target, lr, w, n)
         == Square(Pow(Contraction(lr), n)) * ErrorAt(x, target, w.w1, w.w2)
  {
    var r, c := ResidualAfter(x, target, lr, w, n), Pow(Contraction(lr), n);
    var r0, e0 := Residual(x, target, w.w1, w.w2), ErrorAt(x, target, w.w1, w.w2);
    TrajectoryResidual(x, target, lr, w, n);
    ErrorIsHalfSquare(x, target, w.w1, w.w2, r0, e0);
    ScaledError(ErrorAfter(x, target, lr, w, n), r, c, r0, e0);
  }

  lemma ErrorIsHalfSquare(x: real, target: real, w1: real, w2: real, r: real, e: real)
    requires r == Residual(x, target, w1, w2) && e == ErrorAt(x, target, w1, w2)
    ensures e == 0.5 * Square(r)
  {
  }

  lemma ScaledError(e: real, r: real, c: real, r0: real, e0: real)
    requires e == 0.5 * Square(r) && r == c * r0 && e0 == 0.5 * Square(r0)
    ensures e == Square(c) * e0
  {
    SquareOfScaled(r, c, r0);
  }

  lemma SquareOfScaled(a: real, c: real, r: real)
    requires a == c * r
    ensures Square(a) == Square(c) * Square(r)
  {
    SquareOfProduct(c, r);
  }

  /** At a learning rate that halves the residual, n updates divide it by 2^n. */
  lemma ResidualAfterHalving(x: real, target: real, lr: real, w: Weights, n: nat, k: nat)
    requires Contraction(lr) == 0.5 && k == TwoTo(n)
    ensures ResidualAfter(x, target, lr, w, n) * (k as real) == Residual(x, target, w.w1, w.w2)
  {
    TrajectoryResidual(x, target, lr, w, n);
    HalfPow(Contraction(lr), n);
    Cancel(Pow(Contraction(lr), n), Residual(x, target, w.w1, w.w2), k as real,
           ResidualAfter(x, target, lr, w, n));
  }

  lemma Cancel(p: real, r: real, k: real, a: real)
    requires a == p * r && p * k == 1.0
    ensures a * k == r
  {
    assert a * k == (p * k) * r;
  }

  lemma SquareOfNegation(a: real, b: real)
    requires a == -b
    ensures Square(a) == Square(b)
  {
  }
}
