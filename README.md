# OurGAN training control, in Dafny

This project models the training control of `OurGAN` in LittleGAN (`ourgan.py`). LittleGAN trains a conditional GAN: a generator maps noise and a condition vector to an image. A two-headed discriminator scores each image for realness and for condition consistency. The GAN graph chains the generator into a frozen discriminator. The model covers four pieces:

- **One training step (`_train`).** The step draws fake images from the generator before any update and pulls one item from the data iterator. It then runs six `train_on_batch` calls, alternating discriminator and GAN, each with fixed inputs and 0/1 targets. It combines the six reported loss lists into five metrics. Last, it overwrites both optimizers' learning rates according to the ratio `gan_loss / d_loss`.
- **The learning-rate policy.** A ratio above 2 raises the GAN rate to 3e-4. A ratio below 0.5 raises the discriminator rate to 3e-4. Any other ratio puts both rates at 2e-4. Both optimizers start at 2e-4.
- **The cadence of `fit`.** `fit` runs `epoch` epochs of `batches` steps. After each step it may append a log line, save sample images and save the untagged "G"/"D" weights. After each epoch it may save the epoch-tagged "G-e"/"D-e" weights.
- **The networks.** They are opaque. A `Backend` value holds `predict` and the two `train_on_batch` entry points as functions of the weights. A discriminator update returns new discriminator weights. A GAN update reads the discriminator weights but returns new generator weights only, because the discriminator is frozen inside the GAN graph.

Modules:

- `Tensors`: flattened tensors, the constant targets, and the reversed condition `1 - cond`.
- `Losses`: the Keras result lists and the aggregation of lines 273-277.
- `LearningRates`: the rate policy and the set of rate pairs it can produce.
- `TrainStep`: the substep plan, running a plan against the weight stores, and a whole step as a function.
- `Cadence`: the event sequence of `fit` as functions, with membership, counting and prefix lemmas.
- `OurGan`: the mutable objects. `DataStream` is the data iterator. `OurGAN` holds the weight stores and the two learning rates as fields, and its `Train`, `TrainBatch`, `TrainEpoch` and `Fit` methods are proved against the functions above.

Points where the model pins down what the code does:

- **Zero discriminator loss.** `ourgan.py:278` divides `gan_loss / d_loss` without a guard. The model treats a zero `d_loss` as a failed step, `ZeroDiscriminatorLoss`, and `fit` stops after it. By then the weights are already updated and the rates are left as they were.
- **The GAN sums are halved.** Lines 275-276 divide each three-term GAN sum by 2, not by 3. So `gan_loss_d` is 1.5 times the mean of the three GAN totals.
- **`gan_loss_c` mixes positions.** It takes position 1 of the first GAN result and position 0 of the other two. The model keeps this exactly.
- **Report positions.** The model reads position 0 and position 1 of each result list, as the code does. Keras's own result-list order decides what those positions mean. For the discriminator, a two-output model compiled with one metric, Keras returns `[total, realness-head loss, condition-head loss, realness acc, condition acc]`. So the value the code calls `d_acc` is the mean of the realness-head losses. For the GAN, Keras returns `[total, realness-head loss, condition-head loss]`.
- **The rate rule without division.** `Policy` states the rule of lines 279-287 on the two losses, with each comparison flipped for a negative `d_loss`. `PolicyIsRatioRule` proves it equal to the code's branch chain on `gan_loss / d_loss` for every non-zero `d_loss`.
- **Runs as folds.** `Training` folds the step over the data items, and `Epochwise` folds it epoch by epoch. `TrainEpoch` and `Fit` are proved against these folds, so whether a run completes, the weights and rates it leaves and where a failed run stops all follow from the per-step contract.

## Model

The rows marked "reference definition" are the pure functions the contracts are stated against. The rows after them state their properties.

| member | source | states |
|---|---|---|
| Tensors.Filled | ourgan.py:258-260 | the fake/true/GAN targets: `n` entries, every one equal to the given 0 or 1 |
| Tensors.Complement | ourgan.py:250 | the reversed condition has the condition's length, and each of its entries adds up to 1 with the matching condition entry |
| Tensors.ComplementInvolutive | ourgan.py:250 | reversing a condition twice gives it back |
| Tensors.ComplementFixedPoint | ourgan.py:250 | the reversed condition equals the true condition iff every entry is 0.5, so only then does the mismatch substep at line 268 see no mismatch |
| Losses.Aggregate | ourgan.py:273-277 | reference definition of the five metrics as written: `d_loss` and `d_acc` are three-term sums divided by 3; `gan_loss_d` and `gan_loss_c` are three-term sums divided by 2, with `gan_loss_c` reading position 1 of the first GAN report; `gan_loss` is the mean of the two |
| Losses.DLossIsMean | ourgan.py:273-274 | `d_loss` is the exact mean of the three discriminator totals and lies between their minimum and maximum; `d_acc` is the exact mean of their position-1 entries |
| Losses.DMetricsSymmetric | ourgan.py:273-274 | the metrics do not depend on which discriminator substep produced which report |
| Losses.GanLossClosedForm | ourgan.py:275-277 | `gan_loss_d` is 1.5 times the mean of the three GAN totals; `gan_loss_c - gan_loss_d` is half of (position 1 minus position 0) of the first GAN report; `4 * gan_loss = g1[0] + g1[1] + 2 * (g2[0] + g3[0])` |
| Losses.MetricsReadOnlyLeadingEntries | ourgan.py:273-277 | only positions 0 and 1 of the reports reach the metrics, and position 1 only of the first GAN report; changing any other entry changes nothing |
| Losses.DLossExample | ourgan.py:273 | discriminator totals 0.1, 0.3, 0.5 give `d_loss` 0.3 |
| LearningRates.RatioRule | ourgan.py:279-287 | the code's branch chain on `rate`: above 2 gives (3e-4, 2e-4), below 0.5 gives (2e-4, 3e-4), anything else (2e-4, 2e-4); every result is a pair in the policy's range |
| LearningRates.Policy | ourgan.py:278-287 | for a non-zero `d_loss`, the result is always a valid pair. The GAN rate is raised iff `gan_loss > 2 * d_loss`. The discriminator rate is raised iff `2 * gan_loss < d_loss`. Both are 2e-4 iff neither holds. For a negative `d_loss` the comparisons flip |
| LearningRates.PolicyIsRatioRule | ourgan.py:278-287 | for every non-zero `d_loss` of either sign, `Policy` chooses what the code's branch chain chooses for `rate = gan_loss / d_loss` |
| LearningRates.RatioCompare | ourgan.py:278-282 | comparing `gan_loss / d_loss` with a threshold is comparing `gan_loss` with threshold times `d_loss`, flipped for a negative `d_loss` |
| LearningRates.PolicyDependsOnRatioOnly | ourgan.py:278 | scaling both losses by the same positive factor chooses the same rates |
| LearningRates.PolicyMonotone | ourgan.py:278-287 | with a positive `d_loss`, a larger `gan_loss` never lowers the GAN rate and never raises the discriminator rate |
| LearningRates.PolicyExamples | ourgan.py:279-287 | ratio 10 gives (3e-4, 2e-4). Ratio 0.1 gives (2e-4, 3e-4). Ratios 1, 2 and 0.5 give (2e-4, 2e-4) |
| TrainStep.Plan | ourgan.py:249-269 | reference definition of the six `train_on_batch` calls in the code's order, each with its network, inputs and targets |
| TrainStep.PlanShape | ourgan.py:249-269 | six substeps that strictly alternate D, GAN, D, GAN, D, GAN: three of each. Every GAN substep trains on the true condition with all-ones targets. D trains on (fake images, fake condition) with targets (0, 0), then on (true images, true condition) with (1, 1), then on (true images, `1 - cond`) with (1, 0) |
| TrainStep.Apply | ourgan.py:264-269 | reference definition of one call: a discriminator call replaces the discriminator weights using the discriminator rate; a GAN call replaces the generator weights using the GAN rate, reading the discriminator weights |
| TrainStep.ApplyFrame | ourgan.py:264-269 | a discriminator substep leaves the generator weights unchanged; a GAN substep leaves the discriminator weights unchanged (discriminator frozen, ourgan.py:65-66) |
| TrainStep.Run | ourgan.py:264-269 | running a plan yields one report per substep, each from the network that substep trains |
| TrainStep.RunChain | ourgan.py:264-269 | substeps applied one at a time, each to the weights the previous one left, give the run of the plan they form |
| TrainStep.DiscriminatorIgnoresAdversarialSubsteps | ourgan.py:264-269 | the discriminator weights after the step are its three own updates applied in order; the GAN substeps in between do not affect them |
| TrainStep.StepSpec | ourgan.py:246-277 | reference definition of one step: fake images from the generator before any update, the six substeps run with the old rates, the six reports aggregated; the new weights, the metrics and the fake images |
| Cadence.Outputs | ourgan.py:324-337 | reference definition of what follows the training call at (e, b), in order: a log line iff `b % (img_freq // 2) == 0`, the images iff `b % img_freq == 0`, the untagged weights iff `b % model_freq_batch == 0` |
| Cadence.BatchEvents | ourgan.py:319-337 | reference definition: the training call at (e, b), then its outputs |
| Cadence.Batches | ourgan.py:318-337 | reference definition: the events of batches 1..n of epoch e, in order |
| Cadence.EpochEvents | ourgan.py:318-340 | reference definition: an epoch's batches, then the tagged save iff `e % model_freq_epoch == 0` |
| Cadence.Epochs | ourgan.py:316-340 | reference definition: the events of epochs 1..n, in order |
| Cadence.Schedule | ourgan.py:316-340 | reference definition: the whole run of `fit` |
| Cadence.Fires | ourgan.py:316-340 | independent reference definition, point by point: an event belongs to the run iff its epoch is in 1..epoch and its own condition holds |
| Cadence.FiresInEpoch | ourgan.py:318-340 | the condition of each kind of event: its batch is in 1..batches and, for the three outputs, divisible by its frequency; a tagged save needs `e % model_freq_epoch == 0` |
| Cadence.EmitOutputs | ourgan.py:324-337 | the three `if` statements after a step emit exactly the log, image and untagged-weight events of the cadence |
| Cadence.ScheduleMembership | ourgan.py:316-340 | an event is in the run iff its condition holds. `_train` runs at every (e, b) with e in 1..epoch and b in 1..batches. A log line is written iff `b % (img_freq // 2) == 0`. Images are saved iff `b % img_freq == 0`. The untagged weights are saved iff `b % model_freq_batch == 0`. The tagged weights are saved iff `e % model_freq_epoch == 0` |
| Cadence.ScheduleCounts | ourgan.py:316-340 | `_train` runs exactly `epoch * batches` times. Per epoch there are `batches / (img_freq // 2)` log lines, `batches / img_freq` image saves and `batches / model_freq_batch` untagged saves. The whole run has `epoch / model_freq_epoch` tagged saves |
| Cadence.ImagesImplyLog | ourgan.py:324-328 | with an even `img_freq`, every batch that saves images also appends a log line |
| Cadence.OddImageFrequencySavesWithoutLog | ourgan.py:324-328 | with `img_freq == 5`, batch 5 saves images without a log line |
| Cadence.RunPrefix | ourgan.py:316-320 | the events up to any training call form a prefix of the full run |
| Cadence.Cut | ourgan.py:316-320 | reference definition of the run cut right after the training call that reads item `at`: epochs 1..`at / batches`, then the earlier batches of the next epoch, then that call |
| Cadence.CutRun | ourgan.py:316-320 | for an item of epoch e, the cut is the earlier epochs, the earlier batches of epoch e and that training call, and it is a prefix of the whole run |
| Cadence.FailedTrace | ourgan.py:316-320 | the events of epochs 1..e-1 followed by those of epoch e up to a failing training call are exactly `Cut` at that item, and a prefix of the whole run |
| OurGan.StepOf | ourgan.py:244-288 | reference relation for one step: the new weights are those of `StepSpec`; the step completes iff `d_loss` is not 0; a completed step returns `g_loss` 0, the metrics and both image batches, and sets both rates to `Policy(gan_loss, d_loss)`; a failed step leaves the rates as they were |
| OurGan.IsStep | ourgan.py:244-277 | `step` gives, for all weights, rates and item index `i`, the weights and metrics of `StepSpec` on item `i` with the draws of that step |
| OurGan.StepOn | ourgan.py:244-277 | the step built from `StepSpec` satisfies `IsStep`, so a step for `TrainEpoch` and `Fit` always exists |
| OurGan.Training | ourgan.py:316-321 | reference fold of `n` steps, the first reading item `i`: a completed step hands the policy's rates to the next; the first step with `d_loss` 0 ends the run, its weight updates done and the rates unchanged. The failing item is one of the `n` read, and rates in the policy's range stay there |
| OurGan.TrainingAfterStep | ourgan.py:244-288 | a step related to its inputs by `StepOf` is the first step of `Training`: if it fails, the run fails at that item with the step's weights and rates; if it completes, the run goes on from its weights and rates at the next item |
| OurGan.TrainingSplit | ourgan.py:316-321 | `m` steps and then `n` more from where they left off are `m + n` steps, unless one of the first `m` fails, which ends both |
| OurGan.Epochwise | ourgan.py:316-321 | reference fold of `epochs` epochs of `batches` steps each; a failing epoch ends the run |
| OurGan.EpochwiseIsTraining | ourgan.py:316-321 | running epoch by epoch is running the `epochs * batches` steps of `Training` in one go |
| OurGan.EpochCompletes | ourgan.py:316-340 | after a completed epoch e the rest of the run goes on from its weights, rates and next item, `e * batches`, and the events so far are those of epochs 1..e |
| OurGan.FailureEndsRun | ourgan.py:316-321 | an epoch whose `Training` fails ends the epoch-by-epoch run with that failure, and the failing item is one of the epoch's |
| OurGan.DataStream.constructor | ourgan.py:308 | a fresh iterator over the data's items stands at the first item |
| OurGan.DataStream.Next | ourgan.py:249 | each pull yields the next item and advances the iterator by exactly one |
| OurGan.OurGAN.constructor | ourgan.py:35-45 | both learning rates start at 2e-4; the weight stores are the given initial weights; the evaluation noise and condition are fixed at construction |
| OurGan.OurGAN.Train | ourgan.py:244-288 | pulls exactly one item, and the new weights, rates and outcome are related by `StepOf`. The new weights are those of the six-substep plan run with the old rates, starting from fake images generated before any update. The step fails iff `d_loss` is 0. On success it returns `g_loss` 0, the aggregated metrics and both image batches, and both rates are overwritten with `Policy(gan_loss, d_loss)`. On failure the rates are unchanged. The rates stay in the policy's range |
| OurGan.OurGAN.TrainBatch | ourgan.py:318-336 | one batch pulls exactly one item. Against a run of `n` more steps of `Training`: a completed step leaves the remaining `n - 1` steps to go from the new weights, rates and item, and the batch emits its training call and then the outputs due at `b`; a failed step ends the run with exactly those weights and rates, and the batch emits only its training call |
| OurGan.OurGAN.TrainEpoch | ourgan.py:318-340 | one epoch runs the `batches` steps of `Training` from the iterator's position: `ok` iff they all complete, and the trainer is left with their weights and rates. A completed epoch advances the iterator by `batches` and emits exactly the events of epoch e: batches 1..batches, then the tagged save iff `e % model_freq_epoch == 0`. A step failing at item `at` leaves the iterator just past it, and the events end with that batch's training call |
| OurGan.OurGAN.Fit | ourgan.py:303-340 | the run is `Epochwise` from the first item, equal to the `epoch * batches` steps of `Training` by `EpochwiseIsTraining`: `ok` iff every step completes, and the trainer is left with its weights and rates. A completed run emits exactly `Schedule`. A run failing at item `at` emits `Cut` at `at`, which ends with the failing step's training call and is a prefix of the schedule. The rates stay in the policy's range |

## Left out

- Network topology and graph construction (`_setup_layers`, `_setup_g`, `_setup_d`, `_residual_block`, `_setup_u_net`, `_setup_gan`): Keras layer wiring. The networks are the opaque functions of `Backend`, and the initial weights are constructor parameters.
- Gradient updates, Adam and tensor contents: floating-point numerics inside Keras. Losses are `real` values returned by the opaque calls, and IEEE arithmetic, including NaN and infinity, is not modelled. Each store in `Weights` stands for a network's weights together with its optimizer's state.
- Zero `d_loss`: the model treats the unguarded division as an error that ends the run, as Python-float division does. If Keras hands back NumPy scalars, the division yields an infinity or a NaN and the step falls into one of the three branches instead. The model does not capture that reading.
- Random sampling (`np.random.normal`/`uniform`): the samples of a step are a `Draws` parameter, and `Fit` takes them as a function of the step's index. The `g_noise` draw at line 256 feeds nothing, so it is not modelled.
- Exhausted data iterator: `DataSource.items` is an endless `nat -> Example`, so the model has no `StopIteration` path. A generator that runs out at ourgan.py:249 would end `fit` with an exception, which the model does not capture.
- The generator's own L1 path (`generator.compile` with `g_l1_opt`, and the commented-out call at line 270): it is never invoked, so `Backend` has no entry for it.
- Target shapes: `g_target` has shape (batch, 1) and the other targets have shape (batch). Flattened, both are `Filled(batchSize, 1.0)`.
- File, log and VCS side effects: directory creation, `train.log` contents, the git archive, image files and `utils.save_weights`. `fit` is modelled as the sequence of events it emits. A log line's text and a saved image's pixels are not recorded. `utils` is not part of this model.
- OurGan.OurGAN.constructor: the evaluation noise and condition are stored, but nothing in the model reads them. The evaluation image `generator.predict([a_noise, a_cond])` saved at ourgan.py:333 is not recorded: `ImagesSaved` carries only the epoch and batch.
- `Progbar` progress reporting, `plot`, `predict` (the inference runner with its log and PNG output) and `name`: UI and output, with no control logic.
- `conv_layers = int(math.log2(img_dim / init_dim))` at ourgan.py:50: float log arithmetic, computed without any power-of-two check, and nothing in ourgan.py reads it.
- OurGan.OurGAN.Fit: requires every frequency to be at least 1 and `img_freq` to be at least 2. For zero values the source raises a modulo-by-zero error. Negative frequencies would work in Python and are excluded here.
