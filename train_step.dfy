/** The six training substeps of one `_train` call (ourgan.py:244-288) and
    what they do to the two weight stores, with the networks themselves left
    opaque. */
module TrainStep {
  import opened Tensors
  import opened Losses
  import opened LearningRates

  /** The trainable weights of one network together with the state of the
      optimizer that updates them (the Adam moments and step counter), as an
      opaque vector: an update reads and replaces both. */
  type Params = seq<real>

  /** The generator's and the discriminator's weight stores. The GAN graph is
      built over the same layer objects, so it has no store of its own. */
  datatype Weights = Weights(g: Params, d: Params)

  /** The Keras entry points, as functions of the weights they read. A
      discriminator update returns new discriminator weights only; a GAN
      update reads the discriminator weights but returns new generator
      weights only, because the discriminator was made non-trainable before
      the GAN graph was compiled (ourgan.py:65-66). Each update also reads the
      learning rate of its own optimizer. */
  datatype Backend = Backend(
    predict: (Params, Tensor, Tensor) -> Tensor,
    trainD: (Params, real, Tensor, Tensor, Tensor, Tensor) -> (Params, DReport),
    trainGan: (Params, Params, real, Tensor, Tensor, Tensor, Tensor) -> (Params, GanReport))

  /** The random tensors one step samples: the generator's noise and the
      uniform fake condition for the fake images, and fresh noise for each of
      the three GAN substeps. */
  datatype Draws = Draws(dNoise: Tensor, condFake: Tensor, ganNoise1: Tensor, ganNoise2: Tensor, ganNoise3: Tensor)

  /** One item of the data iterator: a batch of true images and their
      conditions. */
  datatype Example = Example(img: Tensor, cond: Tensor)

  datatype Net = Discriminator | Adversarial

  /** One `train_on_batch` call: which graph, its two inputs (images or noise,
      then condition) and its two targets (realness, condition). */
  datatype Substep = Substep(net: Net, input: Tensor, cond: Tensor, realTarget: Tensor, condTarget: Tensor)

  /** The substeps of one step, in the order the source issues them. */
  function Plan(batchSize: nat, imgFake: Tensor, condFake: Tensor, ex: Example, draws: Draws): seq<Substep> {
    var fakeTarget := Filled(batchSize, 0.0);
    var trueTarget := Filled(batchSize, 1.0);
    var gTarget := Filled(batchSize, 1.0);
    [ Substep(Discriminator, imgFake, condFake, fakeTarget, fakeTarget),
      Substep(Adversarial, draws.ganNoise1, ex.cond, gTarget, gTarget),
      Substep(Discriminator, ex.img, ex.cond, trueTarget, trueTarget),
      Substep(Adversarial, draws.ganNoise2, ex.cond, gTarget, gTarget),
      Substep(Discriminator, ex.img, Complement(ex.cond), trueTarget, fakeTarget),
      Substep(Adversarial, draws.ganNoise3, ex.cond, gTarget, gTarget) ]
  }

  function CountNet(s: seq<Substep>, n: Net): nat {
    if s == [] then 0 else CountNet(s[..|s| - 1], n) + (if s[|s| - 1].net == n then 1 else 0)
  }

  /** The schedule: six calls, strictly alternating and starting with the
      discriminator, so three of each. Every GAN substep trains on the true
      condition towards "real, consistent". The discriminator sees fake
      images as (fake, inconsistent), true images with their condition as
      (real, consistent), and true images with the reversed condition as
      (real, inconsistent). */
  lemma PlanShape(batchSize: nat, imgFake: Tensor, condFake: Tensor, ex: Example, draws: Draws)
    ensures var s := Plan(batchSize, imgFake, condFake, ex, draws);
      && |s| == 6
      && (forall i :: 0 <= i < 6 ==> (s[i].net == Discriminator <==> i % 2 == 0))
      && CountNet(s, Discriminator) == 3 && CountNet(s, Adversarial) == 3
      && (forall i :: 0 <= i < 6 && s[i].net == Adversarial ==>
            s[i].cond == ex.cond && s[i].realTarget == s[i].condTarget == Filled(batchSize, 1.0))
      && s[0].input == imgFake && s[0].cond == condFake
      && s[0].realTarget == s[0].condTarget == Filled(batchSize, 0.0)
      && s[2].input == ex.img && s[2].cond == ex.cond
      && s[2].realTarget == s[2].condTarget == Filled(batchSize, 1.0)
      && s[4].input == ex.img && s[4].cond == Complement(ex.cond)
      && s[4].realTarget == Filled(batchSize, 1.0) && s[4].condTarget == Filled(batchSize, 0.0)
  {
    var s := Plan(batchSize, imgFake, condFake, ex, draws);
    assert s[..6] == s;
    assert s[..6][..5] == s[..5] && s[..5][..4] == s[..4] && s[..4][..3] == s[..3];
    assert s[..3][..2] == s[..2] && s[..2][..1] == s[..1] && s[..1][..0] == [];
    assert CountNet(s[..1], Discriminator) == 1 && CountNet(s[..1], Adversarial) == 0;
    assert CountNet(s[..2], Discriminator) == 1 && CountNet(s[..2], Adversarial) == 1;
    assert CountNet(s[..3], Discriminator) == 2 && CountNet(s[..3], Adversarial) == 1;
    assert CountNet(s[..4], Discriminator) == 2 && CountNet(s[..4], Adversarial) == 2;
    assert CountNet(s[..5], Discriminator) == 3 && CountNet(s[..5], Adversarial) == 2;
  }

  /** What one call returns. */
  datatype Report = FromD(dReport: DReport) | FromGan(ganReport: GanReport)

  /** One substep applied to the weight stores with the given learning rates. */
  function Apply(b: Backend, w: Weights, rates: Rates, s: Substep): (Weights, Report) {
    match s.net
    case Discriminator =>
      var (d', rep) := b.trainD(w.d, rates.d, s.input, s.cond, s.realTarget, s.condTarget);
      (Weights(w.g, d'), FromD(rep))
    case Adversarial =>
      var (g', rep) := b.trainGan(w.g, w.d, rates.gan, s.input, s.cond, s.realTarget, s.condTarget);
      (Weights(g', w.d), FromGan(rep))
  }

  /** Frame of one substep: a discriminator substep leaves the generator
      weights alone, a GAN substep leaves the discriminator weights alone. */
  lemma ApplyFrame(b: Backend, w: Weights, rates: Rates, s: Substep)
    ensures var (w', rep) := Apply(b, w, rates, s);
      && (s.net == Discriminator ==> w'.g == w.g && rep.FromD?)
      && (s.net == Adversarial ==> w'.d == w.d && rep.FromGan?)
  {
  }

  /** The substeps run one after the other, each on the weights the previous
      one left, all with the same learning rates; one report per substep. */
  function Run(b: Backend, w: Weights, rates: Rates, steps: seq<Substep>): (r: (Weights, seq<Report>))
    ensures |r.1| == |steps|
    ensures forall i :: 0 <= i < |steps| ==> (r.1[i].FromD? <==> steps[i].net == Discriminator)
    decreases |steps|
  {
    if steps == [] then (w, [])
    else
      var (w1, rep) := Apply(b, w, rates, steps[0]);
      var (w2, reps) := Run(b, w1, rates, steps[1..]);
      (w2, [rep] + reps)
  }

  /** Substeps applied one by one, each to the weights the previous one
      left, are the run of the plan they form. */
  lemma {:induction false} RunChain(b: Backend, rates: Rates, plan: seq<Substep>, ws: seq<Weights>, reps: seq<Report>)
    requires |ws| == |plan| + 1 && |reps| == |plan|
    requires forall i :: 0 <= i < |plan| ==> Apply(b, ws[i], rates, plan[i]) == (ws[i + 1], reps[i])
    ensures Run(b, ws[0], rates, plan) == (ws[|plan|], reps)
    decreases |plan|
  {
    if plan != [] {
      RunChain(b, rates, plan[1..], ws[1..], reps[1..]);
      assert reps == [reps[0]] + reps[1..];
    }
  }

  function OnlyNet(steps: seq<Substep>, n: Net): (r: seq<Substep>)
    ensures forall i :: 0 <= i < |r| ==> r[i].net == n
  {
    if steps == [] then []
    else (if steps[0].net == n then [steps[0]] else []) + OnlyNet(steps[1..], n)
  }

  function RunD(b: Backend, d: Params, lr: real, steps: seq<Substep>): Params
    decreases |steps|
  {
    if steps == [] then d
    else RunD(b, b.trainD(d, lr, steps[0].input, steps[0].cond, steps[0].realTarget, steps[0].condTarget).0, lr, steps[1..])
  }

  /** The discriminator's weights after a run depend on its own substeps only:
      the GAN substeps in between neither change them nor feed into them. */
  lemma {:induction false} DiscriminatorIgnoresAdversarialSubsteps(b: Backend, w: Weights, rates: Rates, steps: seq<Substep>)
    ensures Run(b, w, rates, steps).0.d == RunD(b, w.d, rates.d, OnlyNet(steps, Discriminator))
    decreases |steps|
  {
    if steps != [] {
      var w1 := Apply(b, w, rates, steps[0]).0;
      DiscriminatorIgnoresAdversarialSubsteps(b, w1, rates, steps[1..]);
      var rest := OnlyNet(steps[1..], Discriminator);
      if steps[0].net == Discriminator {
        assert OnlyNet(steps, Discriminator) == [steps[0]] + rest;
        assert ([steps[0]] + rest)[1..] == rest;
      } else {
        assert OnlyNet(steps, Discriminator) == rest;
      }
    }
  }

  /** One step as a function of the weights and rates before it: generate the
      fake images with the generator as it is before any update, run the six
      substeps with the old rates, and aggregate the six reports. Returns the
      new weights, the metrics and the fake images. */
  function StepSpec(b: Backend, w: Weights, rates: Rates, batchSize: nat, draws: Draws, ex: Example): (Weights, Metrics, Tensor) {
    var imgFake := b.predict(w.g, draws.dNoise, draws.condFake);
    var (w', reps) := Run(b, w, rates, Plan(batchSize, imgFake, draws.condFake, ex, draws));
    (w', Aggregate(reps[0].dReport, reps[2].dReport, reps[4].dReport,
                   reps[1].ganReport, reps[3].ganReport, reps[5].ganReport), imgFake)
  }
}
