/**
 * The learning-rate controller `ZigZagLROnPlateauRestarts` (model.py):
 * once per epoch it compares the new metric with the previous one, keeps
 * a streak of improving and a streak of non-improving epochs, scales the
 * optimizer's learning rate up or down when a streak outlasts its
 * patience, remembers the best learning rate, and every `restart_after`
 * epochs puts that best rate back.
 *
 * Floats are modelled as `real` (exact), the initial `±inf` of the
 * previous metric as the `Metric` datatype.
 */
module LrScheduler {

  /** A float as far as the controller compares it: finite, or one of the two infinities. */
  datatype Metric = NegInf | PosInf | Finite(value: real)

  /** `a < b` on floats, infinities included. */
  predicate Below(a: Metric, b: Metric)
  {
    match a
    case NegInf => b != NegInf
    case PosInf => false
    case Finite(x) => b == PosInf || (b.Finite? && x < b.value)
  }

  /**
   * The settings fixed at construction, as the object stores them: the two
   * factors are already `1 + up_factor` and `1 - down_factor`.
   */
  datatype Config = Config(
    mode: string,
    upFactor: real,
    downFactor: real,
    upPatience: int,
    downPatience: int,
    restartAfter: int)

  /** What `step` changes: the counters, the previous metric, the best rate, and the optimizer's rate `lr`. */
  datatype State = State(
    numEpochs: nat,
    numGoodEpochs: nat,
    numBadEpochs: nat,
    prevMetric: Metric,
    bestLr: real,
    lr: real)

  /** The state of a fresh controller: `lr` is the constructor's argument, `optimizerLr` what the optimizer holds. */
  function Initial(mode: string, lr: real, optimizerLr: real): State
  {
    State(0, 0, 0, if mode == "min" then PosInf else NegInf, lr, optimizerLr)
  }

  /** Mode `"min"` improves on a strictly smaller metric; every other mode on a strictly larger one. */
  predicate Improved(c: Config, prev: Metric, metric: real)
  {
    if c.mode == "min" then Below(Finite(metric), prev) else Below(prev, Finite(metric))
  }

  /** `num_epochs % restart_after == 0`, for a non-zero `restart_after`. */
  predicate RestartDue(c: Config, numEpochs: nat)
  {
    c.restartAfter != 0 && numEpochs % c.restartAfter == 0
  }

  function Max0(n: int): nat
  {
    if n < 0 then 0 else n
  }

  /** What holds after every `step`: one streak is always empty and neither outgrows its patience. */
  predicate Inv(c: Config, s: State)
  {
    && (s.numGoodEpochs == 0 || s.numBadEpochs == 0)
    && s.numGoodEpochs <= Max0(c.upPatience)
    && s.numBadEpochs <= Max0(c.downPatience)
  }

  /**
   * The result of one `step`: the new state, and whether the call raised.
   * With `restart_after == 0` the final `%` raises `ZeroDivisionError`
   * after every other update has been made.
   */
  datatype Outcome = Outcome(state: State, raised: bool)

  /** One call `step(metric)`. */
  function Next(c: Config, s: State, metric: real): (o: Outcome)
    ensures o.state.numEpochs == s.numEpochs + 1
    ensures o.state.prevMetric == Finite(metric)
    ensures o.raised <==> c.restartAfter == 0
    ensures Inv(c, o.state)
    // an improvement records the rate in force before any scaling and extends the good streak
    ensures Improved(c, s.prevMetric, metric) ==>
      && o.state.bestLr == s.lr
      && o.state.numBadEpochs == 0
      && o.state.numGoodEpochs == (if s.numGoodEpochs + 1 > c.upPatience then 0 else s.numGoodEpochs + 1)
      && (!RestartDue(c, o.state.numEpochs) ==>
            o.state.lr == (if s.numGoodEpochs + 1 > c.upPatience then s.lr * c.upFactor else s.lr))
    // anything else keeps the best rate and extends the bad streak
    ensures !Improved(c, s.prevMetric, metric) ==>
      && o.state.bestLr == s.bestLr
      && o.state.numGoodEpochs == 0
      && o.state.numBadEpochs == (if s.numBadEpochs + 1 > c.downPatience then 0 else s.numBadEpochs + 1)
      && (!RestartDue(c, o.state.numEpochs) ==>
            o.state.lr == (if s.numBadEpochs + 1 > c.downPatience then s.lr * c.downFactor else s.lr))
    // a restart overrides any scaling made in the same call
    ensures RestartDue(c, o.state.numEpochs) ==> o.state.lr == o.state.bestLr
  {
    var epochs := s.numEpochs + 1;
    var scaled :=
      if Improved(c, s.prevMetric, metric) then
        if s.numGoodEpochs + 1 > c.upPatience then State(epochs, 0, 0, s.prevMetric, s.lr, s.lr * c.upFactor)
        else State(epochs, s.numGoodEpochs + 1, 0, s.prevMetric, s.lr, s.lr)
      else
        if s.numBadEpochs + 1 > c.downPatience then State(epochs, 0, 0, s.prevMetric, s.bestLr, s.lr * c.downFactor)
        else State(epochs, 0, s.numBadEpochs + 1, s.prevMetric, s.bestLr, s.lr);
    var updated := scaled.(prevMetric := Finite(metric));
    if c.restartAfter == 0 then Outcome(updated, true)
    else if epochs % c.restartAfter == 0 then Outcome(updated.(lr := updated.bestLr), false)
    else Outcome(updated, false)
  }

  /**
   * Successive calls `step(m)` for each `m` of `metrics`, up to the first
   * one that raises: that happens, at the first call, exactly when the
   * restart interval is 0, and after any call the invariant holds.
   */
  function Run(c: Config, s: State, metrics: seq<real>): (o: Outcome)
    ensures o.raised <==> c.restartAfter == 0 && metrics != []
    ensures metrics != [] ==> Inv(c, o.state)
    decreases |metrics|
  {
    if metrics == [] then Outcome(s, false)
    else
      var o := Next(c, s, metrics[0]);
      if o.raised then o else Run(c, o.state, metrics[1..])
  }

  /** With a non-zero restart interval nothing raises, and every call counts exactly one epoch. */
  lemma {:induction false} RunCountsEpochs(c: Config, s: State, metrics: seq<real>)
    requires c.restartAfter != 0
    ensures !Run(c, s, metrics).raised
    ensures Run(c, s, metrics).state.numEpochs == s.numEpochs + |metrics|
    decreases |metrics|
  {
    if metrics != [] {
      RunCountsEpochs(c, Next(c, s, metrics[0]).state, metrics[1..]);
    }
  }

  /** With `restart_after == 0` the very first call raises, and it has already counted its epoch. */
  lemma ZeroRestartRaises(c: Config, s: State, metrics: seq<real>)
    requires c.restartAfter == 0 && metrics != []
    ensures Run(c, s, metrics).raised
    ensures Run(c, s, metrics).state.numEpochs == s.numEpochs + 1
  {
  }

  /** The first call on a fresh controller always improves on the infinity it starts from. */
  lemma FirstStepImproves(c: Config, lr: real, optimizerLr: real, metric: real)
    ensures Improved(c, Initial(c.mode, lr, optimizerLr).prevMetric, metric)
    ensures Next(c, Initial(c.mode, lr, optimizerLr), metric).state.bestLr == optimizerLr
  {
  }

  /** An equal metric is never an improvement, in either mode. */
  lemma EqualMetricIsNoImprovement(c: Config, metric: real)
    ensures !Improved(c, Finite(metric), metric)
  {
  }

  /**
   * Positive factors (that is, `up_factor > -1` and `down_factor < 1`) keep
   * both the optimizer's rate and the best rate positive, however long the
   * controller runs.
   */
  lemma {:induction false} RunKeepsRatesPositive(c: Config, s: State, metrics: seq<real>)
    requires c.upFactor > 0.0 && c.downFactor > 0.0
    requires s.lr > 0.0 && s.bestLr > 0.0
    ensures Run(c, s, metrics).state.lr > 0.0 && Run(c, s, metrics).state.bestLr > 0.0
    decreases |metrics|
  {
    if metrics != [] {
      var o := Next(c, s, metrics[0]);
      assert o.state.lr > 0.0 && o.state.bestLr > 0.0 by {
        if Improved(c, s.prevMetric, metrics[0]) {
          if s.numGoodEpochs + 1 > c.upPatience {
            assert s.lr * c.upFactor > 0.0;
          }
        } else {
          if s.numBadEpochs + 1 > c.downPatience {
            assert s.lr * c.downFactor > 0.0;
          }
        }
      }
      if !o.raised {
        RunKeepsRatesPositive(c, o.state, metrics[1..]);
      }
    }
  }

  /**
   * Four epochs in mode "min" with both patiences 1 and a restart every 3
   * epochs, on the metrics 5, 4, 4, 6. The second epoch scales up, the
   * third (an equal metric) restarts to the best rate, the fourth scales
   * down.
   */
  lemma FourEpochTrace(lr: real, upFactor: real, downFactor: real)
    ensures
      var c := Config("min", 1.0 + upFactor, 1.0 - downFactor, 1, 1, 3);
      var s0 := Initial("min", lr, lr);
      && Run(c, s0, [5.0, 4.0]).state.lr == lr * (1.0 + upFactor)
      && Run(c, s0, [5.0, 4.0, 4.0]).state == State(3, 0, 1, Finite(4.0), lr, lr)
      && Run(c, s0, [5.0, 4.0, 4.0, 6.0]) == Outcome(State(4, 0, 0, Finite(6.0), lr, lr * (1.0 - downFactor)), false)
  {
    var c := Config("min", 1.0 + upFactor, 1.0 - downFactor, 1, 1, 3);
    var s0 := Initial("min", lr, lr);
    var s1 := State(1, 1, 0, Finite(5.0), lr, lr);
    var s2 := State(2, 0, 0, Finite(4.0), lr, lr * (1.0 + upFactor));
    var s3 := State(3, 0, 1, Finite(4.0), lr, lr);
    var s4 := State(4, 0, 0, Finite(6.0), lr, lr * (1.0 - downFactor));
    assert Next(c, s0, 5.0) == Outcome(s1, false);
    assert Next(c, s1, 4.0) == Outcome(s2, false);
    assert Next(c, s2, 4.0) == Outcome(s3, false);
    assert Next(c, s3, 6.0) == Outcome(s4, false);
    assert [5.0, 4.0][1..] == [4.0];
    assert [5.0, 4.0, 4.0][1..] == [4.0, 4.0] && [4.0, 4.0][1..] == [4.0];
    assert [5.0, 4.0, 4.0, 6.0][1..] == [4.0, 4.0, 6.0] && [4.0, 4.0, 6.0][1..] == [4.0, 6.0] && [4.0, 6.0][1..] == [6.0];
  }

  /** `param_groups[0]['lr']` of the optimizer the controller drives. */
  class Optimizer {
    var lr: real

    constructor (lr: real)
      ensures this.lr == lr
    {
      this.lr := lr;
    }
  }

  class ZigZagLROnPlateauRestarts {
    const optimizer: Optimizer
    const mode: string
    const upFactor: real
    const downFactor: real
    const upPatience: int
    const downPatience: int
    const restartAfter: int
    const verbose: bool
    var numBadEpochs: nat
    var numGoodEpochs: nat
    var prevMetric: Metric
    var bestLr: real
    var numEpochs: nat

    function Settings(): Config
    {
      Config(mode, upFactor, downFactor, upPatience, downPatience, restartAfter)
    }

    /** The controller's fields together with the rate it writes into the optimizer. */
    ghost function Snapshot(): State
      reads this, optimizer
    {
      State(numEpochs, numGoodEpochs, numBadEpochs, prevMetric, bestLr, optimizer.lr)
    }

    ghost predicate Valid()
      reads this, optimizer
    {
      Inv(Settings(), Snapshot())
    }

    constructor (optimizer: Optimizer, mode: string := "min", lr: real := 0.01,
                 upFactor: real := 1.1, downFactor: real := 0.8,
                 upPatience: int := 10, downPatience: int := 10,
                 restartAfter: int := 30, verbose: bool := true)
      ensures this.optimizer == optimizer && this.mode == mode && this.verbose == verbose
      ensures this.upFactor == 1.0 + upFactor && this.downFactor == 1.0 - downFactor
      ensures this.upPatience == upPatience && this.downPatience == downPatience
      ensures this.restartAfter == restartAfter
      ensures Snapshot() == Initial(mode, lr, optimizer.lr)
      ensures Valid()
    {
      this.optimizer := optimizer;
      this.mode := mode;
      this.upFactor := 1.0 + upFactor;
      this.downFactor := 1.0 - downFactor;
      this.upPatience := upPatience;
      this.downPatience := downPatience;
      this.numBadEpochs := 0;
      this.numGoodEpochs := 0;
      this.prevMetric := if mode == "min" then PosInf else NegInf;
      this.bestLr := lr;
      this.restartAfter := restartAfter;
      this.verbose := verbose;
      this.numEpochs := 0;
    }

    /**
     * `step(metric)`. The source writes the improving and the non-improving
     * branch out once per mode; only the comparison differs between them.
     * `raised` reports the `ZeroDivisionError` of a zero `restart_after`.
     */
    method Step(metric: real) returns (raised: bool)
      modifies this, optimizer
      ensures Snapshot() == Next(Settings(), old(Snapshot()), metric).state
      ensures raised == Next(Settings(), old(Snapshot()), metric).raised
      ensures Valid()
    {
      numEpochs := numEpochs + 1;
      if Improved(Settings(), prevMetric, metric) {
        bestLr := optimizer.lr;
        numBadEpochs := 0;
        numGoodEpochs := numGoodEpochs + 1;
        if numGoodEpochs > upPatience {
          optimizer.lr := optimizer.lr * upFactor;
          numGoodEpochs := 0;
        }
      } else {
        numBadEpochs := numBadEpochs + 1;
        numGoodEpochs := 0;
        if numBadEpochs > downPatience {
          optimizer.lr := optimizer.lr * downFactor;
          numBadEpochs := 0;
        }
      }
      prevMetric := Finite(metric);
      if restartAfter == 0 {
        return true;
      }
      if numEpochs % restartAfter == 0 {
        optimizer.lr := bestLr;
      }
      return false;
    }
  }

  /**
   * The four epochs of `FourEpochTrace` driven through the class: the rate
   * the optimizer holds after each call. The restart in epoch 3 undoes the
   * scaling of epoch 2.
   */
  method FourEpochTraceOnObject(initialLr: real) returns (lrs: seq<real>)
    ensures lrs == [initialLr, initialLr * 1.5, initialLr, initialLr * 0.5]
  {
    var opt := new Optimizer(initialLr);
    var sched := new ZigZagLROnPlateauRestarts(opt, "min", initialLr, 0.5, 0.5, 1, 1, 3);
    var raised := sched.Step(5.0);
    assert opt.lr == initialLr && sched.numGoodEpochs == 1;
    lrs := [opt.lr];
    raised := sched.Step(4.0);
    assert opt.lr == initialLr * 1.5 && sched.bestLr == initialLr;
    lrs := lrs + [opt.lr];
    raised := sched.Step(4.0);
    assert opt.lr == initialLr && sched.numBadEpochs == 1;
    lrs := lrs + [opt.lr];
    raised := sched.Step(6.0);
    assert opt.lr == initialLr * 0.5;
    lrs := lrs + [opt.lr];
  }
}
