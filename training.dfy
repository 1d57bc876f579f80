/**
  The training loop of the CycleGAN script, as a pure state-transition
  specification. Each function here is one step of the script: the epoch-boundary
  decay, the generator update, the two discriminator updates, one zipped
  iteration, one epoch and the whole run. The class in trainer.dfy runs the same
  steps imperatively and is proved to reach the states given here.
 */
module Training {
  import opened Schedule
  import opened Losses
  import opened Events

  function Min(a: int, b: int): int { if a < b then a else b }

  /** A shuffled training loader, modelled by its number of batches and by the
      batch (already resized, cropped and flipped) it yields at position `i` of
      epoch `e`. */
  datatype Loader = Loader(len: nat, batch: (nat, nat) -> Image)

  /** The collaborators whose code is not part of this model:
      - `nets`: the networks' forward passes and the two loss criteria;
      - `update`: backward() followed by an Adam step, as the new parameter state
        given the old one, the loss being minimised and the current learning rate;
      - `query`: ImagePool.query, as the batch a pool returns given all batches
        it was queried with before and the current one;
      - the two training loaders. */
  datatype World = World(
    nets: Nets,
    update: (Params, real, real) -> Params,
    query: (Pool, seq<Image>, Image) -> Image,
    loaderA: Loader,
    loaderB: Loader)

  /** The command-line settings the loop depends on. */
  datatype Config = Config(
    trainEpoch: int, decayEpoch: int,
    lrD: real, lrG: real,
    lambdaA: real, lambdaB: real)

  /** The current learning rates of G_optimizer, D_A_optimizer and D_B_optimizer. */
  datatype Rates = Rates(g: real, dA: real, dB: real)

  /** `train_hist`: the six per-iteration loss lists and the numbers of
      `per_epoch_ptimes` and `total_time` entries (their wall-clock values are not
      modelled). */
  datatype History = History(
    gA: seq<real>, gB: seq<real>, aCycle: seq<real>, bCycle: seq<real>,
    dA: seq<real>, dB: seq<real>,
    perEpochPtimes: nat, totalTime: nat)

  /** Everything the loop changes, plus the trace of what it issued. */
  datatype State = State(
    rates: Rates,
    models: Models,
    hist: History,
    fakeAQueries: seq<Image>,
    fakeBQueries: seq<Image>,
    trace: seq<Event>)

  /** The number of iterations per epoch: `zip` stops at the shorter loader. */
  function ZipLength(w: World): nat
  {
    Min(w.loaderA.len, w.loaderB.len)
  }

  /** Neither loader is read past its end, and the longer one is cut short at the
      length of the shorter. */
  lemma ZipLengthIsShorter(w: World)
    ensures ZipLength(w) <= w.loaderA.len && ZipLength(w) <= w.loaderB.len
    ensures ZipLength(w) == w.loaderA.len || ZipLength(w) == w.loaderB.len
  {
  }

  /** The sizes of everything the loop appends to: the six loss lists, the two
      pools' queries, and the `per_epoch_ptimes` and `total_time` entries. */
  datatype Counts = Counts(
    gA: nat, gB: nat, aCycle: nat, bCycle: nat, dA: nat, dB: nat,
    fakeAQueries: nat, fakeBQueries: nat,
    perEpochPtimes: nat, totalTime: nat)

  function CountsOf(s: State): Counts
  {
    Counts(|s.hist.gA|, |s.hist.gB|, |s.hist.aCycle|, |s.hist.bCycle|, |s.hist.dA|, |s.hist.dB|,
           |s.fakeAQueries|, |s.fakeBQueries|, s.hist.perEpochPtimes, s.hist.totalTime)
  }

  /** `k` more entries in each of the eight per-iteration lists. */
  function Grow(n: Counts, k: nat): Counts
  {
    n.(gA := n.gA + k, gB := n.gB + k, aCycle := n.aCycle + k, bCycle := n.bCycle + k,
       dA := n.dA + k, dB := n.dB + k,
       fakeAQueries := n.fakeAQueries + k, fakeBQueries := n.fakeBQueries + k)
  }

  /** The state before the first epoch: rates at their base values, empty history. */
  function Initial(c: Config, init: Models): State
  {
    State(Rates(c.lrG, c.lrD, c.lrD), init, History([], [], [], [], [], [], 0, 0), [], [], [])
  }

  /** The rates after the boundary of 0-based epoch `e`: once `e + 1` exceeds
      `decayEpoch`, each of D_A's, D_B's and G's rates loses its per-epoch decrement. */
  function DecayRates(c: Config, r: Rates, e: nat): Rates
    requires e < c.trainEpoch
  {
    if e + 1 > c.decayEpoch then
      Rates(r.g - Decrement(c.lrG, c.trainEpoch, c.decayEpoch),
            r.dA - Decrement(c.lrD, c.trainEpoch, c.decayEpoch),
            r.dB - Decrement(c.lrD, c.trainEpoch, c.decayEpoch))
    else r
  }

  /** The schedule's rates after `k` epoch boundaries: G's from `lrG`, both
      discriminators' from `lrD`. */
  function ScheduledRates(c: Config, k: nat): Rates
    requires k <= EpochCount(c)
  {
    Rates(RateAfter(c.lrG, c.trainEpoch, c.decayEpoch, k),
          RateAfter(c.lrD, c.trainEpoch, c.decayEpoch, k),
          RateAfter(c.lrD, c.trainEpoch, c.decayEpoch, k))
  }

  /** One in-place decay at the boundary of epoch `k - 1` takes the schedule's rates
      after `k - 1` epochs to those after `k`. */
  lemma DecayRatesStep(c: Config, k: nat)
    requires 0 < k <= EpochCount(c)
    ensures DecayRates(c, ScheduledRates(c, k - 1), k - 1) == ScheduledRates(c, k)
  {
  }

  /** The boundary of 0-based epoch `e`: the rates decay, and the decrements are
      issued when they happen. */
  function Decay(c: Config, s: State, e: nat): (t: State)
    requires e < c.trainEpoch
    ensures t.rates == DecayRates(c, s.rates, e)
    ensures t.models == s.models && CountsOf(t) == CountsOf(s)
    ensures t.trace == s.trace + DecayEvents(c.decayEpoch, e)
  {
    if e + 1 > c.decayEpoch then
      s.(rates := DecayRates(c, s.rates, e), trace := s.trace + DecayEvents(c.decayEpoch, e))
    else
      assert s.trace + DecayEvents(c.decayEpoch, e) == s.trace;
      s
  }

  /** The generator update: step G_A and G_B on the total generator loss and
      record its four terms. */
  function TrainG(w: World, s: State, l: GenLosses): State
  {
    s.(models := s.models.(gA := w.update(s.models.gA, l.total, s.rates.g),
                           gB := w.update(s.models.gB, l.total, s.rates.g)),
       hist := s.hist.(gA := s.hist.gA + [l.gA], gB := s.hist.gB + [l.gB],
                       aCycle := s.hist.aCycle + [l.aCycle], bCycle := s.hist.bCycle + [l.bCycle]),
       trace := s.trace + [ZeroGrad(G), Step(G)])
  }

  /** D_A's update: its fake batch is what fakeB_store returns for `fakeB`. */
  function TrainDA(w: World, s: State, realB: Image, fakeB: Image): State
  {
    var pooled := w.query(FakeBStore, s.fakeBQueries, fakeB);
    var loss := DiscriminatorLoss(w.nets, s.models.dA, realB, pooled);
    s.(models := s.models.(dA := w.update(s.models.dA, loss, s.rates.dA)),
       hist := s.hist.(dA := s.hist.dA + [loss]),
       fakeBQueries := s.fakeBQueries + [fakeB],
       trace := s.trace + [ZeroGrad(DA), Query(FakeBStore), Step(DA)])
  }

  /** D_B's update: its fake batch is what fakeA_store returns for `fakeA`. */
  function TrainDB(w: World, s: State, realA: Image, fakeA: Image): State
  {
    var pooled := w.query(FakeAStore, s.fakeAQueries, fakeA);
    var loss := DiscriminatorLoss(w.nets, s.models.dB, realA, pooled);
    s.(models := s.models.(dB := w.update(s.models.dB, loss, s.rates.dB)),
       hist := s.hist.(dB := s.hist.dB + [loss]),
       fakeAQueries := s.fakeAQueries + [fakeA],
       trace := s.trace + [ZeroGrad(DB), Query(FakeAStore), Step(DB)])
  }

  /** Iteration `i` of epoch `e`: the generator losses are computed from the models
      as they stand, then G, D_A and D_B are updated in that order. */
  function Iteration(c: Config, w: World, s: State, e: nat, i: nat): (t: State)
    ensures t.rates == s.rates
    ensures CountsOf(t) == Grow(CountsOf(s), 1)
    ensures t.trace == s.trace + IterationEvents()
  {
    var realA := w.loaderA.batch(e, i);
    var realB := w.loaderB.batch(e, i);
    var l := GeneratorLosses(w.nets, s.models, realA, realB, c.lambdaA, c.lambdaB);
    var t := TrainDB(w, TrainDA(w, TrainG(w, s, l), realB, l.fakeB), realA, l.fakeA);
    assert t.trace == s.trace + [ZeroGrad(G), Step(G)] + [ZeroGrad(DA), Query(FakeBStore), Step(DA)]
                              + [ZeroGrad(DB), Query(FakeAStore), Step(DB)];
    t
  }

  /** The first `k` iterations of epoch `e`. */
  function Iterations(c: Config, w: World, s: State, e: nat, k: nat): (t: State)
    ensures t.rates == s.rates
    ensures CountsOf(t) == Grow(CountsOf(s), k)
    ensures t.trace == s.trace + Repeat(IterationEvents(), k)
  {
    if k == 0 then s
    else
      var before := Iterations(c, w, s, e, k - 1);
      assert (s.trace + Repeat(IterationEvents(), k - 1)) + IterationEvents()
          == s.trace + Repeat(IterationEvents(), k);
      Iteration(c, w, before, e, k - 1)
  }

  /** A state one iteration past the first `k` is the first `k + 1`. */
  lemma IterationsStep(c: Config, w: World, s: State, e: nat, k: nat, t: State)
    requires t == Iteration(c, w, Iterations(c, w, s, e, k), e, k)
    ensures t == Iterations(c, w, s, e, k + 1)
  {
  }

  /** Epoch `e`: decay, the zipped iterations, a `per_epoch_ptimes` entry, and the
      evaluation hook. */
  function Epoch(c: Config, w: World, s: State, e: nat): (t: State)
    requires e < c.trainEpoch
    ensures t.rates == DecayRates(c, s.rates, e)
    ensures CountsOf(t) == Grow(CountsOf(s), ZipLength(w)).(perEpochPtimes := s.hist.perEpochPtimes + 1)
    ensures t.trace == s.trace + EpochTrace(c.decayEpoch, ZipLength(w), e)
  {
    var trained := Iterations(c, w, Decay(c, s, e), e, ZipLength(w));
    trained.(hist := trained.hist.(perEpochPtimes := trained.hist.perEpochPtimes + 1),
             trace := trained.trace + [EvalEvent(e)])
  }

  /** The first `k` epochs: `k` epochs of `n` zipped iterations add `k * n`
      entries to each per-iteration list and `k` to `per_epoch_ptimes`, and append
      the first `k` epochs' events to the trace. */
  function Epochs(c: Config, w: World, s: State, k: nat): (t: State)
    requires k <= EpochCount(c)
    ensures CountsOf(t) ==
      Grow(CountsOf(s), Times(k, ZipLength(w))).(perEpochPtimes := s.hist.perEpochPtimes + k)
    ensures t.trace == s.trace + RunTrace(c.decayEpoch, ZipLength(w), k)
  {
    if k == 0 then s
    else
      var before := Epochs(c, w, s, k - 1);
      var t := Epoch(c, w, before, k - 1);
      GrowStep(CountsOf(s), CountsOf(before), CountsOf(t), Times(k - 1, ZipLength(w)), ZipLength(w));
      AppendAssoc(s.trace, RunTrace(c.decayEpoch, ZipLength(w), k - 1), EpochTrace(c.decayEpoch, ZipLength(w), k - 1));
      t
  }

  /** Growing by `a` and then by `n` with one more epoch entry is growing by `a + n`. */
  lemma GrowStep(x: Counts, y: Counts, z: Counts, a: nat, n: nat)
    requires y == Grow(x, a).(perEpochPtimes := y.perEpochPtimes)
    requires z == Grow(y, n).(perEpochPtimes := y.perEpochPtimes + 1)
    ensures z == Grow(x, a + n).(perEpochPtimes := y.perEpochPtimes + 1)
  {
  }

  lemma AppendAssoc(a: seq<Event>, b: seq<Event>, c: seq<Event>)
    ensures (a + b) + c == a + (b + c)
  {
  }

  /** The number of epochs `range(trainEpoch)` runs. */
  function EpochCount(c: Config): nat
  {
    Max(c.trainEpoch, 0)
  }

  /** The whole run: every epoch, then one `total_time` entry. */
  function Run(c: Config, w: World, s: State): State
  {
    var trained := Epochs(c, w, s, EpochCount(c));
    trained.(hist := trained.hist.(totalTime := trained.hist.totalTime + 1))
  }

  /** Starting from the base rates, after `k` epochs every rate is the schedule's. */
  lemma {:induction false} EpochsRates(c: Config, w: World, s: State, k: nat)
    requires k <= EpochCount(c)
    requires s.rates == ScheduledRates(c, 0)
    ensures Epochs(c, w, s, k).rates == ScheduledRates(c, k)
  {
    if k > 0 {
      EpochsRates(c, w, s, k - 1);
      var before := Epochs(c, w, s, k - 1);
      assert Epochs(c, w, s, k).rates == DecayRates(c, before.rates, k - 1);
      DecayRatesStep(c, k);
    }
  }

  /** A whole run from the initial state, with `T` epochs of `n` zipped iterations:
      each of the six loss lists holds `T * n` entries, each pool was queried
      `T * n` times, `per_epoch_ptimes` holds `T` entries and `total_time` one; the
      rates are the schedule's after `T` epochs; the trace is the run's. */
  lemma RunSummary(c: Config, w: World, init: Models)
    ensures var k := EpochCount(c);
            var kn := Times(k, ZipLength(w));
            CountsOf(Run(c, w, Initial(c, init))) == Counts(kn, kn, kn, kn, kn, kn, kn, kn, k, 1)
    ensures Run(c, w, Initial(c, init)).rates == ScheduledRates(c, EpochCount(c))
    ensures Run(c, w, Initial(c, init)).trace == RunTrace(c.decayEpoch, ZipLength(w), EpochCount(c))
  {
    var s := Initial(c, init);
    EpochsRates(c, w, s, EpochCount(c));
  }

  /** With `0 <= decayEpoch < trainEpoch` all three rates are exactly zero when the
      run ends, and none was ever negative on the way. */
  lemma RunEndsWithZeroRates(c: Config, w: World, init: Models)
    requires 0 <= c.decayEpoch < c.trainEpoch
    ensures Run(c, w, Initial(c, init)).rates == Rates(0.0, 0.0, 0.0)
  {
    RunSummary(c, w, init);
    RateAfterLastEpochIsZero(c.lrG, c.trainEpoch, c.decayEpoch);
    RateAfterLastEpochIsZero(c.lrD, c.trainEpoch, c.decayEpoch);
  }

  /** Each step touches only its own optimizer's models: the generator step leaves
      both discriminators alone, and each discriminator step leaves the generators
      and the other discriminator alone. */
  lemma StepIsolation(w: World, s: State, l: GenLosses, realBatch: Image, fakeBatch: Image)
    ensures TrainG(w, s, l).models.dA == s.models.dA && TrainG(w, s, l).models.dB == s.models.dB
    ensures var t := TrainDA(w, s, realBatch, fakeBatch).models;
            t.gA == s.models.gA && t.gB == s.models.gB && t.dB == s.models.dB
    ensures var t := TrainDB(w, s, realBatch, fakeBatch).models;
            t.gA == s.models.gA && t.gB == s.models.gB && t.dA == s.models.dA
  {
  }
}
