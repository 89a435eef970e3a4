/** The trainer object of ourgan.py: its weight stores and optimizer learning
    rates change in place, one training step (`_train`) at a time, and `fit`
    drives the steps over epochs and batches. */
module OurGan {
  import opened Tensors
  import opened Losses
  import opened LearningRates
  import opened TrainStep
  import opened Cadence

  /** The data collaborator `fit` is given: its number of batches per epoch
      and the (endless) sequence of items its generator yields. */
  datatype DataSource = DataSource(batches: nat, items: nat -> Example)

  /** What `_train` returns: `g_loss` (always 0), the metrics, and the true
      and fake image batches. */
  datatype StepResult = StepResult(gLoss: real, metrics: Metrics, imgTrue: Tensor, imgFake: Tensor)

  /** A step either completes, or stops at the division `gan_loss / d_loss`
      because the discriminator loss is zero. */
  datatype StepOutcome = Stepped(result: StepResult) | ZeroDiscriminatorLoss

  /** `out` and the new weights and rates are what one step from weights `w`
      and rates `rates` gives: the weights of the substep plan, the step
      failing exactly when the discriminator loss is zero, `g_loss` 0, the
      rates of the policy after a completed step and the old rates after a
      failed one. */
  predicate StepOf(b: Backend, w: Weights, rates: Rates, batchSize: nat, draws: Draws, ex: Example,
                   w': Weights, rates': Rates, out: StepOutcome)
  {
    var (wNext, m, imgFake) := StepSpec(b, w, rates, batchSize, draws, ex);
    && w' == wNext
    && (out.Stepped? <==> m.dLoss != 0.0)
    && (out.Stepped? ==> out.result == StepResult(0.0, m, ex.img, imgFake) && rates' == Policy(m.ganLoss, m.dLoss))
    && (out.ZeroDiscriminatorLoss? ==> rates' == rates)
  }

  /** Where a run of steps ends: every step completed, or the step that read
      data item `at` met a zero discriminator loss. Either way, the weights
      and the rates the trainer is left with. */
  datatype RunEnd = Completed(w: Weights, rates: Rates) | Failed(at: nat, w: Weights, rates: Rates)

  /** A training step as a function of the weights and rates before it and
      the index of the data item it reads: the new weights and the metrics. */
  type Step = (Weights, Rates, nat) -> (Weights, Metrics)

  /** `step` is the step of `_train` on item `i` of `items` with the draws
      `sample(i)`: its weights and metrics are those of `StepSpec`. */
  ghost predicate IsStep(step: Step, b: Backend, batchSize: nat, items: nat -> Example, sample: nat -> Draws) {
    forall w: Weights, rates: Rates, i: nat {:trigger StepSpec(b, w, rates, batchSize, sample(i), items(i))} ::
      step(w, rates, i) == (StepSpec(b, w, rates, batchSize, sample(i), items(i)).0,
                            StepSpec(b, w, rates, batchSize, sample(i), items(i)).1)
  }

  /** That step, as a function. */
  function StepOn(b: Backend, batchSize: nat, items: nat -> Example, sample: nat -> Draws): (step: Step)
    ensures IsStep(step, b, batchSize, items, sample)
  {
    (w: Weights, rates: Rates, i: nat) =>
      var (w', m, _) := StepSpec(b, w, rates, batchSize, sample(i), items(i));
      (w', m)
  }

  /** `n` steps from weights `w` and rates `rates`, the first reading data
      item `i`, each following one on the next item: a completed step hands
      the policy's rates to the next one, and the first step with a zero
      discriminator loss ends the run, its weight updates done and the rates
      as they were. The failing item is one of the `n` read, and rates in
      the policy's range stay there. */
  function Training(step: Step, w: Weights, rates: Rates, i: nat, n: nat): (r: RunEnd)
    ensures r.Failed? ==> i <= r.at < i + n
    ensures LearningRates.Valid(rates) ==> LearningRates.Valid(r.rates)
    decreases n
  {
    if n == 0 then Completed(w, rates)
    else
      var (w', m) := step(w, rates, i);
      if m.dLoss == 0.0 then Failed(i, w', rates)
      else Training(step, w', Policy(m.ganLoss, m.dLoss), i + 1, n - 1)
  }

  /** Running `m` steps and then `n` more from where they left off is running
      `m + n` steps, unless one of the first `m` fails, which ends both. */
  lemma {:induction false} TrainingSplit(step: Step, w: Weights, rates: Rates, i: nat, m: nat, n: nat)
    ensures var t := Training(step, w, rates, i, m);
      Training(step, w, rates, i, m + n)
        == if t.Failed? then t else Training(step, t.w, t.rates, i + m, n)
    decreases m
  {
    if m > 0 {
      var (w', mt) := step(w, rates, i);
      if mt.dLoss != 0.0 {
        TrainingSplit(step, w', Policy(mt.ganLoss, mt.dLoss), i + 1, m - 1, n);
        assert (m - 1) + n == m + n - 1;
      }
    }
  }

  /** The same steps taken epoch by epoch: `epochs` epochs of `batches` steps
      each, the first reading item `i`; a failing epoch ends the run. */
  function Epochwise(step: Step, w: Weights, rates: Rates, i: nat, epochs: nat, batches: nat): RunEnd
    decreases epochs
  {
    if epochs == 0 then Completed(w, rates)
    else
      var t := Training(step, w, rates, i, batches);
      if t.Failed? then t else Epochwise(step, t.w, t.rates, i + batches, epochs - 1, batches)
  }

  /** Taking the steps epoch by epoch is taking the `epochs * batches` steps
      in one go. */
  lemma {:induction false} EpochwiseIsTraining(step: Step, w: Weights, rates: Rates, i: nat, epochs: nat, batches: nat)
    ensures Epochwise(step, w, rates, i, epochs, batches) == Training(step, w, rates, i, epochs * batches)
    decreases epochs
  {
    if epochs > 0 {
      var rest := (epochs - 1) * batches;
      assert batches + rest == epochs * batches;
      TrainingSplit(step, w, rates, i, batches, rest);
      var t := Training(step, w, rates, i, batches);
      if t.Completed? {
        EpochwiseIsTraining(step, t.w, t.rates, i + batches, epochs - 1, batches);
      }
    }
  }

  /** An epoch `e` that completes: the epochs e..epoch go on as the epochs
      after it from its weights, rates and next item, and the events so far
      are those of epochs 1..e. */
  lemma EpochCompletes(step: Step, wb: Weights, rb: Rates, t: RunEnd, c: Config,
                       epoch: nat, batches: nat, e: nat, pb: nat, pos: nat, trace: seq<Event>, events: seq<Event>)
    requires c.Valid() && 1 <= e <= epoch && pb == (e - 1) * batches
    requires t == Training(step, wb, rb, pb, batches) && t.Completed? && pos == pb + batches
    requires trace == Epochs(c, e - 1, batches) && events == EpochEvents(c, e, batches)
    ensures && Epochwise(step, wb, rb, pb, epoch - (e - 1), batches) == Epochwise(step, t.w, t.rates, pos, epoch - e, batches)
      && pos == e * batches
      && trace + events == Epochs(c, e, batches)
  {
    MulStep(e, batches);
  }

  /** A failing first epoch is the end of the epoch-by-epoch run, and the
      failing item is one of the epoch's. */
  lemma FailureEndsRun(step: Step, w: Weights, rates: Rates, t: RunEnd, epochs: nat, batches: nat, i: nat)
    requires epochs > 0 && t == Training(step, w, rates, i, batches) && t.Failed?
    ensures Epochwise(step, w, rates, i, epochs, batches) == t && i <= t.at < i + batches
  {
  }

  /** One step taken by `_train` is the first step of `Training`: a failure
      ends the run there, a completed step leaves the rest of the run to go
      from its weights, rates and next item. */
  lemma TrainingAfterStep(step: Step, b: Backend, batchSize: nat, items: nat -> Example, sample: nat -> Draws,
                          w: Weights, rates: Rates, i: nat, n: nat, w': Weights, rates': Rates, out: StepOutcome)
    requires IsStep(step, b, batchSize, items, sample) && n > 0
    requires StepOf(b, w, rates, batchSize, sample(i), items(i), w', rates', out)
    ensures out.ZeroDiscriminatorLoss? ==> Training(step, w, rates, i, n) == Failed(i, w', rates')
    ensures out.Stepped? ==> Training(step, w, rates, i, n) == Training(step, w', rates', i + 1, n - 1)
  {
    var spec := StepSpec(b, w, rates, batchSize, sample(i), items(i));
    assert step(w, rates, i) == (spec.0, spec.1);
  }

  /** The iterator `data.get_generator()` returns: each `__next__` yields the
      next item. */
  class DataStream {
    const items: nat -> Example
    var pos: nat

    constructor (items: nat -> Example)
      ensures this.items == items && pos == 0
    {
      this.items := items;
      pos := 0;
    }

    method Next() returns (ex: Example)
      modifies this
      ensures pos == old(pos) + 1
      ensures ex == items(old(pos))
    {
      ex := items(pos);
      pos := pos + 1;
    }
  }

  class OurGAN {
    /** The compiled Keras graphs, as opaque functions of the weights. */
    const backend: Backend
    /** The fixed evaluation inputs, sampled once at construction and kept
        for the evaluation images saved at ourgan.py:333, which the model
        does not record. */
    const aNoise: Tensor
    const aCond: Tensor

    /** The generator's weights (also read and updated through the GAN). */
    var gWeights: Params
    /** The discriminator's weights (read, frozen, through the GAN). */
    var dWeights: Params
    /** `gan.optimizer.lr` */
    var ganLr: real
    /** `discriminator.optimizer.lr` */
    var dLr: real

    ghost predicate Valid()
      reads this
    {
      LearningRates.Valid(CurrentRates())
    }

    function CurrentWeights(): TrainStep.Weights
      reads this
    {
      TrainStep.Weights(gWeights, dWeights)
    }

    function CurrentRates(): LearningRates.Rates
      reads this
    {
      LearningRates.Rates(ganLr, dLr)
    }

    /** Builds the networks (initial weights given) with both optimizers at
        2e-4, and fixes the evaluation noise and condition. */
    constructor (backend: Backend, g0: Params, d0: Params, aNoise: Tensor, aCond: Tensor)
      ensures Valid()
      ensures CurrentRates() == Initial
      ensures this.backend == backend && gWeights == g0 && dWeights == d0
      ensures this.aNoise == aNoise && this.aCond == aCond
    {
      this.backend := backend;
      this.aNoise := aNoise;
      this.aCond := aCond;
      gWeights := g0;
      dWeights := d0;
      ganLr := Low;
      dLr := Low;
    }

    /** One training step: the fake images from the generator as it stands,
        one item from the data stream, six substeps alternating
        discriminator and GAN under the current learning rates, the metrics,
        and the learning rates for the next step. */
    method Train(batchSize: nat, stream: DataStream, draws: Draws) returns (out: StepOutcome)
      requires Valid()
      modifies this, stream
      ensures Valid()
      ensures stream.pos == old(stream.pos) + 1
      ensures StepOf(backend, old(CurrentWeights()), old(CurrentRates()), batchSize, draws,
                     stream.items(old(stream.pos)), CurrentWeights(), CurrentRates(), out)
    {
      ghost var w0, rates0 := CurrentWeights(), CurrentRates();
      var imgFake := backend.predict(gWeights, draws.dNoise, draws.condFake);
      var ex := stream.Next();
      var reverseCond := Complement(ex.cond);
      var fakeTarget := Filled(batchSize, 0.0);
      var trueTarget := Filled(batchSize, 1.0);
      var gTarget := Filled(batchSize, 1.0);

      var d1 := backend.trainD(dWeights, dLr, imgFake, draws.condFake, fakeTarget, fakeTarget);
      dWeights := d1.0;
      ghost var w1 := CurrentWeights();
      var g1 := backend.trainGan(gWeights, dWeights, ganLr, draws.ganNoise1, ex.cond, gTarget, gTarget);
      gWeights := g1.0;
      ghost var w2 := CurrentWeights();
      var d2 := backend.trainD(dWeights, dLr, ex.img, ex.cond, trueTarget, trueTarget);
      dWeights := d2.0;
      ghost var w3 := CurrentWeights();
      var g2 := backend.trainGan(gWeights, dWeights, ganLr, draws.ganNoise2, ex.cond, gTarget, gTarget);
      gWeights := g2.0;
      ghost var w4 := CurrentWeights();
      var d3 := backend.trainD(dWeights, dLr, ex.img, reverseCond, trueTarget, fakeTarget);
      dWeights := d3.0;
      ghost var w5 := CurrentWeights();
      var g3 := backend.trainGan(gWeights, dWeights, ganLr, draws.ganNoise3, ex.cond, gTarget, gTarget);
      gWeights := g3.0;

      var m := Aggregate(d1.1, d2.1, d3.1, g1.1, g2.1, g3.1);
      ghost var plan := Plan(batchSize, imgFake, draws.condFake, ex, draws);
      ghost var reps := [FromD(d1.1), FromGan(g1.1), FromD(d2.1), FromGan(g2.1), FromD(d3.1), FromGan(g3.1)];
      ghost var ws := [w0, w1, w2, w3, w4, w5, CurrentWeights()];
      assert Apply(backend, ws[5], rates0, plan[5]) == (ws[6], reps[5]);
      RunChain(backend, rates0, plan, ws, reps);
      if m.dLoss == 0.0 {
        return ZeroDiscriminatorLoss;
      }
      var rate := m.ganLoss / m.dLoss;
      PolicyIsRatioRule(m.ganLoss, m.dLoss);
      if rate > 2.0 {
        ganLr, dLr := High, Low;
      } else if rate < 0.5 {
        ganLr, dLr := Low, High;
      } else {
        ganLr, dLr := Low, Low;
      }
      out := Stepped(StepResult(0.0, m, ex.img, imgFake));
    }

    /** Batch `b` of epoch `e`: one training step on the next item, then,
        if it completed, the outputs due at `b`. Against a run of `n` more
        steps of `Training`, a completed step leaves the remaining `n - 1`
        to go from the new weights, rates and item, and a failed one ends the
        run right after its training event. */
    method TrainBatch(batchSize: nat, e: int, b: int, stream: DataStream, sample: nat -> Draws,
                      modelFreqBatch: int, modelFreqEpoch: int, imgFreq: int, ghost step: Step, ghost n: nat)
      returns (events: seq<Event>, stepped: bool)
      requires Valid() && n > 0
      requires IsStep(step, backend, batchSize, stream.items, sample)
      requires Config(imgFreq, modelFreqBatch, modelFreqEpoch).Valid()
      modifies this, stream
      ensures Valid()
      ensures stream.pos == old(stream.pos) + 1
      ensures stepped ==> Training(step, old(CurrentWeights()), old(CurrentRates()), old(stream.pos), n)
                          == Training(step, CurrentWeights(), CurrentRates(), stream.pos, n - 1)
      ensures stepped ==> events == BatchEvents(Config(imgFreq, modelFreqBatch, modelFreqEpoch), e, b)
      ensures !stepped ==> Training(step, old(CurrentWeights()), old(CurrentRates()), old(stream.pos), n)
                           == Failed(old(stream.pos), CurrentWeights(), CurrentRates())
      ensures !stepped ==> events == [Trained(e, b)]
    {
      ghost var w, r, pos := CurrentWeights(), CurrentRates(), stream.pos;
      var out := Train(batchSize, stream, sample(stream.pos));
      TrainingAfterStep(step, backend, batchSize, stream.items, sample, w, r, pos, n,
                        CurrentWeights(), CurrentRates(), out);
      if out.ZeroDiscriminatorLoss? {
        return [Trained(e, b)], false;
      }
      var outputs := EmitOutputs(imgFreq, modelFreqBatch, modelFreqEpoch, e, b);
      events, stepped := [Trained(e, b)] + outputs, true;
    }

    /** One epoch of `fit`: batches 1..batches, each a training step
        followed by its outputs, then the epoch-tagged save when `e` is a
        multiple of `model_freq_epoch`. When a step fails the epoch stops
        right after that step's training event. `sample(i)` stands for the random draws of
        the step that reads the i-th data item. The epoch runs the steps of
        `Training` from the stream's position: it completes iff they all do,
        it leaves the trainer with their weights and rates, and a failure at
        item `at` ends the events at the training call of batch
        `at - old(stream.pos) + 1`. */
    method TrainEpoch(batchSize: nat, e: int, batches: nat, stream: DataStream, sample: nat -> Draws,
                      modelFreqBatch: int, modelFreqEpoch: int, imgFreq: int, ghost step: Step)
      returns (events: seq<Event>, ok: bool, ghost run: RunEnd)
      requires Valid()
      requires IsStep(step, backend, batchSize, stream.items, sample)
      requires Config(imgFreq, modelFreqBatch, modelFreqEpoch).Valid()
      modifies this, stream
      ensures Valid()
      ensures run == Training(step, old(CurrentWeights()), old(CurrentRates()), old(stream.pos), batches)
      ensures CurrentWeights() == run.w && CurrentRates() == run.rates
      ensures ok <==> run.Completed?
      ensures var c := Config(imgFreq, modelFreqBatch, modelFreqEpoch);
        && (run.Completed? ==> stream.pos == old(stream.pos) + batches && events == EpochEvents(c, e, batches))
        && (run.Failed? ==> stream.pos == run.at + 1
                            && events == Batches(c, e, run.at - old(stream.pos)) + [Trained(e, run.at - old(stream.pos) + 1)])
    {
      var c := Config(imgFreq, modelFreqBatch, modelFreqEpoch);
      ghost var w0, r0, p0 := CurrentWeights(), CurrentRates(), stream.pos;
      run := Training(step, w0, r0, p0, batches);
      events, ok := [], true;
      for b := 1 to batches + 1
        invariant Valid()
        invariant stream.pos == p0 + (b - 1)
        invariant events == Batches(c, e, b - 1)
        invariant Training(step, w0, r0, p0, batches)
               == Training(step, CurrentWeights(), CurrentRates(),
                           stream.pos, batches - (b - 1))
      {
        var batchEvents, stepped := TrainBatch(batchSize, e, b, stream, sample,
                                               modelFreqBatch, modelFreqEpoch, imgFreq, step, batches - (b - 1));
        events := events + batchEvents;
        if !stepped {
          ok := false;
          return;
        }
      }
      if e % modelFreqEpoch == 0 {
        events := events + [EpochSaved(e)];
      }
    }

    /** The training loop of `fit`: `epoch` epochs of `data.batches` steps
        each, with log lines, image saves and weight saves at their cadences.
        Returns the events in order. The run is `Epochwise` from the first
        data item, `epoch` epochs of `batches` steps (by `EpochwiseIsTraining`
        the `epoch * batches` steps of `Training`): it completes iff they all
        do, emitting the whole schedule, and leaves the trainer with their
        weights and rates. A step failing at item `at` (epoch
        `at / batches + 1`, batch `at % batches + 1`) ends the events right
        after its training call, a prefix of the schedule. */
    method Fit(batchSize: nat, epoch: nat, data: DataSource,
               modelFreqBatch: int, modelFreqEpoch: int, imgFreq: int, sample: nat -> Draws, ghost step: Step)
      returns (trace: seq<Event>, ok: bool)
      requires Valid()
      requires IsStep(step, backend, batchSize, data.items, sample)
      requires Config(imgFreq, modelFreqBatch, modelFreqEpoch).Valid()
      modifies this
      ensures Valid()
      ensures var c := Config(imgFreq, modelFreqBatch, modelFreqEpoch);
              var t := Epochwise(step, old(CurrentWeights()), old(CurrentRates()), 0, epoch, data.batches);
        && CurrentWeights() == t.w && CurrentRates() == t.rates
        && (ok <==> t.Completed?)
        && (t.Completed? ==> trace == Schedule(c, epoch, data.batches))
        && (t.Failed? ==> data.batches > 0 && trace == Cut(c, data.batches, t.at)
                          && trace <= Schedule(c, epoch, data.batches))
    {
      var c := Config(imgFreq, modelFreqBatch, modelFreqEpoch);
      ghost var w0, r0 := CurrentWeights(), CurrentRates();
      var stream := new DataStream(data.items);
      trace, ok := [], true;
      for e := 1 to epoch + 1
        invariant Valid() && fresh(stream) && stream.items == data.items
        invariant stream.pos == (e - 1) * data.batches
        invariant trace == Epochs(c, e - 1, data.batches)
        invariant Epochwise(step, w0, r0, 0, epoch, data.batches)
               == Epochwise(step, CurrentWeights(), CurrentRates(), stream.pos, epoch - (e - 1), data.batches)
      {
        ghost var wb, rb, pb := CurrentWeights(), CurrentRates(), stream.pos;
        var events, epochOk, run := TrainEpoch(batchSize, e, data.batches, stream, sample,
                                               modelFreqBatch, modelFreqEpoch, imgFreq, step);
        if !epochOk {
          FailureEndsRun(step, wb, rb, run, epoch - (e - 1), data.batches, pb);
          FailedTrace(c, epoch, data.batches, e, pb, run.at, trace, events);
          trace, ok := trace + events, false;
          return;
        }
        EpochCompletes(step, wb, rb, run, c, epoch, data.batches, e, pb, stream.pos, trace, events);
        trace := trace + events;
      }
    }
  }
}
