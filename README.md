# CycleGAN training orchestration, modelled in Dafny

This project models the training loop of `CycleGAN/CycleGAN_main.py`: the
bookkeeping and scheduling that drive the networks, not the networks themselves.

- **Learning-rate schedule.** There are three Adam optimizers: the generator pair's (`G_optimizer`), D_A's and D_B's. Each keeps its base rate for the first `decay_epoch` epochs. After that, each is decremented in place by `base / (train_epoch - decay_epoch)` at the start of every later epoch.
- **The zipped iteration loop.** An epoch runs as many iterations as the shorter of the two training loaders has batches. Each iteration runs three steps in a fixed order:
  1. the generator step;
  2. D_A's step, with one `fakeB_store` query;
  3. D_B's step, with one `fakeA_store` query.
- **Loss composition.** The generator loss is the two least-squares adversarial terms plus the two L1 cycle terms, weighted by `lambdaA` and `lambdaB`. Each discriminator's loss is the mean of its real-batch and fake-batch errors.
- **`train_hist` bookkeeping.** Every iteration appends one value to each of the six loss lists. Every epoch appends one `per_epoch_ptimes` entry, and the run appends one `total_time` entry.
- **Evaluation dispatch.** An epoch ends with the test-set evaluation when `(epoch+1) % 10 == 0`, and with the training-set evaluation otherwise.

The networks, criteria, Adam update and image pools are opaque function values, held in a `World` record. Rates and losses are exact reals.

The project has five files:
- `schedule.dfy` (module `Schedule`): the rate schedule as a function of the number of epochs run. Lemmas give its closed form, monotonicity, non-negativity and final value.
- `losses.dfy` (module `Losses`): the loss formulas as pure functions, as in the script.
- `events.dfy` (module `Events`): the order of optimizer, pool and evaluation calls, as a trace of events, with counting lemmas.
- `training.dfy` (module `Training`): the loop as pure state transitions. There is one function per step (decay, G, D_A, D_B, an iteration, an epoch, the run), each with contracts and lemmas relating it to the schedule and the trace.
- `trainer.dfy` (module `Trainers`): class `Trainer`, the script as it runs. Its fields are the three rates, the four parameter states, `train_hist`, the two pools' past inputs and the call trace. Its methods update them in place. Each method is proved to move the trainer to the state that the matching `Training` function computes. The `while` loops over iterations and epochs carry that correspondence as their invariant.

## Model

| member | source | states |
|---|---|---|
| Schedule.DecrementsClosedForm | CycleGAN/CycleGAN_main.py:86-95 | the guard `(epoch+1) > decay_epoch` fires in none of the first `decay_epoch` epochs and in every later one, `k - max(decay_epoch, 0)` times in `k` epochs |
| Schedule.DecrementSum | CycleGAN/CycleGAN_main.py:96-98 | `train_epoch - decay_epoch` per-epoch decrements add up to exactly the base rate; a non-negative base gives a non-negative decrement |
| Schedule.RateAfter | CycleGAN/CycleGAN_main.py:86-98 | the rate is still the base rate after any number of epochs up to `decay_epoch`; the divisor is positive wherever a decrement happens (the precondition bounds the epoch count by `train_epoch`) |
| Schedule.RateAfterClosedForm | CycleGAN/CycleGAN_main.py:86-98 | after `k` epochs the rate is the base rate while `k <= decay_epoch`, else `base - (k - max(decay_epoch,0)) * base/(train_epoch - decay_epoch)`; any epoch that decrements has `train_epoch > decay_epoch` |
| Schedule.RateAfterNonIncreasing | CycleGAN/CycleGAN_main.py:86-98 | with a non-negative base, the rate after `k` epochs is at most the rate after `j <= k` epochs |
| Schedule.RateAfterNonNegative | CycleGAN/CycleGAN_main.py:86-98 | a non-negative base rate stays non-negative through the whole run, for every `decay_epoch` |
| Schedule.RateAfterLastEpochIsZero | CycleGAN/CycleGAN_main.py:86-98 | with `0 <= decay_epoch < train_epoch` the rate after the last epoch is exactly 0 |
| Schedule.RateAfterLastEpochNegativeDecay | CycleGAN/CycleGAN_main.py:86-98 | with a negative `decay_epoch` every epoch decrements, but the final rate is `base * -decay_epoch / (train_epoch - decay_epoch)`, not 0 |
| Schedule.DefaultScheduleHalfwayRate | CycleGAN/CycleGAN_main.py:86-98 | with base 0.0002, 200 epochs and decay from epoch 100, the rate after 150 epochs is 0.0001 |
| Losses.GeneratorLosses | CycleGAN/CycleGAN_main.py:119-136 | `fakeB = G_A(realA)`, `fakeA = G_B(realB)`, and `G_loss` is the sum of the two adversarial and two cycle terms |
| Losses.GeneratorLossesNonNegative | CycleGAN/CycleGAN_main.py:119-136 | with non-negative MSE, L1 and lambdas, all four terms are non-negative and none exceeds `G_loss` |
| Losses.GeneratorLossesMirror | CycleGAN/CycleGAN_main.py:119-136 | exchanging the domains (generators, discriminators, batches, lambdas) exchanges the A and B terms and leaves `G_loss` unchanged |
| Losses.DiscriminatorLossBetween | CycleGAN/CycleGAN_main.py:153-160 | `(real_loss + fake_loss) * 0.5` lies between the real-batch error and the fake-batch error |
| Losses.DiscriminatorLossZero | CycleGAN/CycleGAN_main.py:170-177 | with non-negative MSE the discriminator loss is non-negative, and zero iff both its real-label and fake-label errors are zero |
| Events.IterationCount | CycleGAN/CycleGAN_main.py:116-179 | one iteration zeroes and steps each optimizer exactly once and queries each image pool exactly once, with no rate change or evaluation |
| Events.EpochTraceOrder | CycleGAN/CycleGAN_main.py:95-200 | within an epoch every rate decrement precedes every iteration event, and the epoch's single evaluation comes last |
| Events.DecayEventsCount | CycleGAN/CycleGAN_main.py:95-98 | an epoch past `decay_epoch` decrements each optimizer's rate exactly once; an earlier one decrements none |
| Events.EpochTraceIterationCount | CycleGAN/CycleGAN_main.py:100-184 | an epoch of `n` zipped iterations has each zero_grad, step and pool query exactly `n` times |
| Events.EpochTraceDecayCount | CycleGAN/CycleGAN_main.py:95-98 | an epoch decrements each optimizer once if `e+1 > decay_epoch`, else never |
| Events.EpochTraceEvalCount | CycleGAN/CycleGAN_main.py:197-200 | an epoch runs exactly one evaluation, the one `(e+1) % 10` selects |
| Events.RunTraceIterationCount | CycleGAN/CycleGAN_main.py:86-184 | over `k` epochs of `n` iterations each, each zero_grad, step and pool query happens `k * n` times |
| Events.RunTraceDecayCount | CycleGAN/CycleGAN_main.py:86-98 | over `k` epochs each optimizer's rate is decremented once per epoch past `decay_epoch` |
| Events.EvaluationsAreTenths | CycleGAN/CycleGAN_main.py:197-200 | of `k` epochs, `k / 10` satisfy `(epoch+1) % 10 == 0` and `k - k / 10` do not |
| Events.RunTraceEvalCounts | CycleGAN/CycleGAN_main.py:86-200 | a run of `k` epochs calls the test-set evaluation `k / 10` times and the training-set evaluation `k - k / 10` times |
| Events.TimesIsProduct | CycleGAN/CycleGAN_main.py:86-100 | the iteration total accumulated epoch by epoch is `k * n` |
| Training.ZipLengthIsShorter | CycleGAN/CycleGAN_main.py:100 | `zip` over the two loaders yields as many iterations as the shorter loader has batches |
| Training.DecayRatesStep | CycleGAN/CycleGAN_main.py:95-98 | one in-place decrement of the three rates takes the schedule after `k-1` epochs to the schedule after `k` |
| Training.Decay | CycleGAN/CycleGAN_main.py:95-98 | the epoch boundary changes only the rates, and issues the decrements exactly when `e+1 > decay_epoch` |
| Training.Iteration | CycleGAN/CycleGAN_main.py:100-184 | one iteration leaves the rates alone, grows each of the six loss lists and each pool's query count by one, and issues the fixed per-iteration call order |
| Training.Iterations | CycleGAN/CycleGAN_main.py:100-184 | `k` iterations grow each per-iteration list by `k` and repeat the iteration call order `k` times |
| Training.Epoch | CycleGAN/CycleGAN_main.py:86-200 | an epoch decays the rates, grows each loss list by the zip length and `per_epoch_ptimes` by one, and produces the epoch's trace |
| Training.Epochs | CycleGAN/CycleGAN_main.py:86-200 | `k` epochs grow each loss list by `k * n` and `per_epoch_ptimes` by `k`, and append the first `k` epochs' traces |
| Training.EpochsRates | CycleGAN/CycleGAN_main.py:86-98 | starting from the base rates, the three rates after `k` epochs are the schedule's |
| Training.RunSummary | CycleGAN/CycleGAN_main.py:82-204 | a whole run from an empty `train_hist` leaves `T * n` entries in each of the six loss lists, `T * n` queries to each pool, `T` `per_epoch_ptimes` entries and one `total_time` entry, the scheduled rates and the run's trace |
| Training.RunEndsWithZeroRates | CycleGAN/CycleGAN_main.py:86-98 | with `0 <= decay_epoch < train_epoch`, all three optimizers end the run at rate 0 |
| Training.StepIsolation | CycleGAN/CycleGAN_main.py:74-76 | `G_optimizer` changes only G_A and G_B, `D_A_optimizer` only D_A, `D_B_optimizer` only D_B |
| Trainers.Trainer.constructor | CycleGAN/CycleGAN_main.py:74-82 | optimizers at their base rates, empty pools and an empty `train_hist` |
| Trainers.Trainer.DecayRates | CycleGAN/CycleGAN_main.py:95-98 | the in-place decrements of D_A's, D_B's and G's rates take the trainer to `Training.Decay` |
| Trainers.Trainer.TrainGenerators | CycleGAN/CycleGAN_main.py:115-143 | the generator half computes `GeneratorLosses` from the current parameters, returns its fakes and takes the trainer to `Training.TrainG` |
| Trainers.Trainer.TrainDiscriminatorA | CycleGAN/CycleGAN_main.py:150-164 | D_A's step queries `fakeB_store` and takes the trainer to `Training.TrainDA` |
| Trainers.Trainer.TrainDiscriminatorB | CycleGAN/CycleGAN_main.py:167-181 | D_B's step queries `fakeA_store` and takes the trainer to `Training.TrainDB` |
| Trainers.Trainer.TrainIteration | CycleGAN/CycleGAN_main.py:100-181 | one loop body takes the trainer to `Training.Iteration` |
| Trainers.Trainer.Evaluate | CycleGAN/CycleGAN_main.py:197-200 | appends exactly the evaluation that `(e+1) % 10` selects and changes nothing else |
| Trainers.Trainer.TrainIterations | CycleGAN/CycleGAN_main.py:94-184 | the zipped loop runs `num_iter = min(lenA, lenB)` iterations and takes the trainer to `Training.Iterations` |
| Trainers.Trainer.TrainEpoch | CycleGAN/CycleGAN_main.py:86-200 | one epoch of the loop takes the trainer to `Training.Epoch` |
| Trainers.Trainer.Train | CycleGAN/CycleGAN_main.py:86-204 | the whole loop takes the trainer to `Training.Run`, so `RunSummary` and `RunEndsWithZeroRates` hold of it |

## Left out

- Argument parsing, printing and the per-epoch local loss lists (`D_A_losses` and the rest), which only feed the printed means: configuration is a `Config` value.
- Data loading, resizing, cropping and flipping: a loader is its number of batches plus a function from (epoch, index) to a batch, which absorbs shuffling and augmentation.
- Network construction and architectures, tensors, `.cuda()` and `Variable`: networks and criteria are opaque functions over `real` sequences.
- `backward()` and Adam's update rule: an optimizer step is an opaque function of the parameters, the loss value and the current rate. Gradients through the graph and Adam's moment state are not modelled.
- `utils.ImagePool` internals: `query` is an opaque function of the pool, every batch it was queried with before, and the new batch.
- Floating-point rounding: rates and losses are exact reals, so the final rate is exactly 0. In floats, the repeated subtraction at lines 96-98 may end slightly off 0.
- Wall-clock time: only the number of `per_epoch_ptimes` and `total_time` entries is modelled, not their values.
- Saving parameters, pickling `train_hist` and plotting: I/O only.
- `test.test_results_network` and `train.train_results_network`: their code is not part of this model; only which one is called, and when, is recorded.
- `BCE_loss`: it is created but never used.
