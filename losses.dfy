/** What one training call reports, and how a training step condenses its six
    reports into the five metrics it returns (ourgan.py, `_train`). */
module Losses {

  /** The list `discriminator.train_on_batch` returns. The discriminator has
      two sigmoid heads (realness, condition) and is compiled with one metric,
      so Keras reports, in this order: the total loss, the loss of each head,
      then the accuracy of each head. The source reads positions 0 and 1. */
  datatype DReport = DReport(
    total: real,           // [0]
    realnessLoss: real,    // [1]
    conditionLoss: real,   // [2]
    realnessAcc: real,     // [3]
    conditionAcc: real)    // [4]

  /** The list `gan.train_on_batch` returns: the total loss, then the loss of
      each of the two discriminator heads it is trained through. */
  datatype GanReport = GanReport(
    total: real,           // [0]
    realnessLoss: real,    // [1]
    conditionLoss: real)   // [2]

  /** The five scalars a training step hands back besides the images. */
  datatype Metrics = Metrics(ganLossD: real, ganLossC: real, ganLoss: real, dLoss: real, dAcc: real)

  function Mean3(a: real, b: real, c: real): real {
    (a + b + c) / 3.0
  }

  function Min3(a: real, b: real, c: real): real {
    if a <= b && a <= c then a else if b <= c then b else c
  }

  function Max3(a: real, b: real, c: real): real {
    if a >= b && a >= c then a else if b >= c then b else c
  }

  /** Lines 273-277 of `_train`, as written: the GAN sums of three terms are
      halved, and `gan_loss_c` takes position 1 of the first GAN report but
      position 0 of the other two. */
  function Aggregate(dFake: DReport, dTrue: DReport, dCond: DReport,
                     gan1: GanReport, gan2: GanReport, gan3: GanReport): Metrics
  {
    var dLoss := (dTrue.total + dFake.total + dCond.total) / 3.0;
    var dAcc := (dTrue.realnessLoss + dFake.realnessLoss + dCond.realnessLoss) / 3.0;
    var ganLossD := (gan1.total + gan2.total + gan3.total) / 2.0;
    var ganLossC := (gan1.realnessLoss + gan2.total + gan3.total) / 2.0;
    Metrics(ganLossD, ganLossC, (ganLossC + ganLossD) / 2.0, dLoss, dAcc)
  }

  /** `d_loss` is the exact mean of the three discriminator totals and lies
      between the smallest and the largest of them; `d_acc` is the exact mean
      of the three reports' position-1 entries. */
  lemma DLossIsMean(dFake: DReport, dTrue: DReport, dCond: DReport,
                    gan1: GanReport, gan2: GanReport, gan3: GanReport)
    ensures var m := Aggregate(dFake, dTrue, dCond, gan1, gan2, gan3);
      && m.dLoss == Mean3(dFake.total, dTrue.total, dCond.total)
      && Min3(dFake.total, dTrue.total, dCond.total) <= m.dLoss <= Max3(dFake.total, dTrue.total, dCond.total)
      && m.dAcc == Mean3(dFake.realnessLoss, dTrue.realnessLoss, dCond.realnessLoss)
  {
  }

  /** The discriminator metrics do not depend on which substep produced which
      report. */
  lemma DMetricsSymmetric(dFake: DReport, dTrue: DReport, dCond: DReport,
                          gan1: GanReport, gan2: GanReport, gan3: GanReport)
    ensures var m := Aggregate(dFake, dTrue, dCond, gan1, gan2, gan3);
            var p := Aggregate(dCond, dFake, dTrue, gan1, gan2, gan3);
            var q := Aggregate(dTrue, dFake, dCond, gan1, gan2, gan3);
      m == p == q
  {
  }

  /** `gan_loss_d` is one and a half times the mean of the three GAN totals,
      not their mean; `gan_loss` weighs the first GAN report at a quarter per
      entry and the other two at a half each. */
  lemma GanLossClosedForm(dFake: DReport, dTrue: DReport, dCond: DReport,
                          gan1: GanReport, gan2: GanReport, gan3: GanReport)
    ensures var m := Aggregate(dFake, dTrue, dCond, gan1, gan2, gan3);
      && m.ganLossD == 1.5 * Mean3(gan1.total, gan2.total, gan3.total)
      && m.ganLossC - m.ganLossD == (gan1.realnessLoss - gan1.total) / 2.0
      && 4.0 * m.ganLoss == gan1.total + gan1.realnessLoss + 2.0 * (gan2.total + gan3.total)
  {
  }

  /** Only positions 0 and 1 of the reports are read, and position 1 only of
      the first GAN report: the condition-head entries and both accuracies do
      not reach the metrics at all. */
  lemma MetricsReadOnlyLeadingEntries(dFake: DReport, dTrue: DReport, dCond: DReport,
                                      gan1: GanReport, gan2: GanReport, gan3: GanReport,
                                      dFake': DReport, dTrue': DReport, dCond': DReport,
                                      gan1': GanReport, gan2': GanReport, gan3': GanReport)
    requires dFake'.total == dFake.total && dFake'.realnessLoss == dFake.realnessLoss
    requires dTrue'.total == dTrue.total && dTrue'.realnessLoss == dTrue.realnessLoss
    requires dCond'.total == dCond.total && dCond'.realnessLoss == dCond.realnessLoss
    requires gan1'.total == gan1.total && gan1'.realnessLoss == gan1.realnessLoss
    requires gan2'.total == gan2.total && gan3'.total == gan3.total
    ensures Aggregate(dFake, dTrue, dCond, gan1, gan2, gan3)
         == Aggregate(dFake', dTrue', dCond', gan1', gan2', gan3')
  {
  }

  /** Discriminator totals 0.1, 0.3 and 0.5 give `d_loss` 0.3. */
  lemma DLossExample(dFake: DReport, dTrue: DReport, dCond: DReport,
                     gan1: GanReport, gan2: GanReport, gan3: GanReport)
    requires dFake.total == 0.1 && dTrue.total == 0.3 && dCond.total == 0.5
    ensures Aggregate(dFake, dTrue, dCond, gan1, gan2, gan3).dLoss == 0.3
  {
  }
}
