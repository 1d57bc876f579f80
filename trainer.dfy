/**
  The training script's loop as it runs: the three optimizers' learning rates,
  the four networks' parameters, `train_hist` and the two image pools' inputs are
  fields updated in place, one statement of the script at a time. Every method is
  proved to take the trainer from a state to the one the pure steps of module
  Training give, so the properties proved there hold of the running loop.
 */
module Trainers {
  import opened Schedule
  import opened Losses
  import opened Events
  import opened Training

  class Trainer {
    // param_groups[0]['lr'] of G_optimizer, D_A_optimizer and D_B_optimizer
    var lrG: real
    var lrDA: real
    var lrDB: real

    // the parameters of G_A, G_B, D_A and D_B
    var gA: Params
    var gB: Params
    var dA: Params
    var dB: Params

    // train_hist: the six loss lists and the numbers of timing entries
    var trainHist: History

    // every batch fakeA_store and fakeB_store have been queried with, in order
    var fakeAQueries: seq<Image>
    var fakeBQueries: seq<Image>

    // the optimizer, pool and evaluation calls issued so far
    var trace: seq<Event>

    /** The trainer's fields as a value of the pure model. */
    function Snapshot(): State
      reads this
    {
      State(Rates(lrG, lrDA, lrDB), Models(gA, gB, dA, dB),
            trainHist,
            fakeAQueries, fakeBQueries, trace)
    }

    /** The optimizers at their base rates, fresh pools and an empty `train_hist`. */
    constructor (c: Config, init: Models)
      ensures Snapshot() == Initial(c, init)
    {
      lrG, lrDA, lrDB := c.lrG, c.lrD, c.lrD;
      gA, gB, dA, dB := init.gA, init.gB, init.dA, init.dB;
      trainHist := History([], [], [], [], [], [], 0, 0);
      fakeAQueries, fakeBQueries := [], [];
      trace := [];
    }

    /** The start of epoch `e`: past `decayEpoch`, each optimizer's rate is
        decremented in place, D_A's first, then D_B's, then G's. */
    method DecayRates(c: Config, e: nat)
      requires e < c.trainEpoch
      modifies this
      ensures Snapshot() == Decay(c, old(Snapshot()), e)
    {
      if e + 1 > c.decayEpoch {
        lrDA := lrDA - Decrement(c.lrD, c.trainEpoch, c.decayEpoch);
        trace := trace + [DecayLr(DA)];
        lrDB := lrDB - Decrement(c.lrD, c.trainEpoch, c.decayEpoch);
        trace := trace + [DecayLr(DB)];
        lrG := lrG - Decrement(c.lrG, c.trainEpoch, c.decayEpoch);
        trace := trace + [DecayLr(G)];
        assert trace == old(trace) + DecayEvents(c.decayEpoch, e);
      } else {
        assert old(trace) + DecayEvents(c.decayEpoch, e) == trace;
      }
    }

    /** The generator half of an iteration: compute the four loss terms from the
        current parameters, step G_A and G_B on their sum, and append the terms to
        `train_hist`. Returns the translated batches for the discriminators. */
    method TrainGenerators(c: Config, w: World, realA: Image, realB: Image) returns (fakeA: Image, fakeB: Image)
      modifies this
      ensures var l := GeneratorLosses(w.nets, old(Snapshot()).models, realA, realB, c.lambdaA, c.lambdaB);
              fakeA == l.fakeA && fakeB == l.fakeB && Snapshot() == TrainG(w, old(Snapshot()), l)
    {
      trace := trace + [ZeroGrad(G)];
      var l := GeneratorLosses(w.nets, Models(gA, gB, dA, dB), realA, realB, c.lambdaA, c.lambdaB);
      fakeA, fakeB := l.fakeA, l.fakeB;
      gA, gB := w.update(gA, l.total, lrG), w.update(gB, l.total, lrG);
      trace := trace + [Step(G)];
      trainHist := trainHist.(gA := trainHist.gA + [l.gA], gB := trainHist.gB + [l.gB],
                              aCycle := trainHist.aCycle + [l.aCycle], bCycle := trainHist.bCycle + [l.bCycle]);
      assert trace == old(trace) + [ZeroGrad(G), Step(G)];
    }

    /** D_A's step: its loss on the real B batch and on what fakeB_store returns
        for the generated one, averaged; D_A steps on it and the loss joins
        `train_hist`. */
    method TrainDiscriminatorA(w: World, realB: Image, fakeB: Image)
      modifies this
      ensures Snapshot() == TrainDA(w, old(Snapshot()), realB, fakeB)
    {
      trace := trace + [ZeroGrad(DA)];
      var pooled := w.query(FakeBStore, fakeBQueries, fakeB);
      fakeBQueries := fakeBQueries + [fakeB];
      trace := trace + [Query(FakeBStore)];
      var loss := DiscriminatorLoss(w.nets, dA, realB, pooled);
      dA := w.update(dA, loss, lrDA);
      trace := trace + [Step(DA)];
      trainHist := trainHist.(dA := trainHist.dA + [loss]);
      assert trace == old(trace) + [ZeroGrad(DA), Query(FakeBStore), Step(DA)];
    }

    /** D_B's step, the mirror image: the real A batch and what fakeA_store
        returns for the generated A batch. */
    method TrainDiscriminatorB(w: World, realA: Image, fakeA: Image)
      modifies this
      ensures Snapshot() == TrainDB(w, old(Snapshot()), realA, fakeA)
    {
      trace := trace + [ZeroGrad(DB)];
      var pooled := w.query(FakeAStore, fakeAQueries, fakeA);
      fakeAQueries := fakeAQueries + [fakeA];
      trace := trace + [Query(FakeAStore)];
      var loss := DiscriminatorLoss(w.nets, dB, realA, pooled);
      dB := w.update(dB, loss, lrDB);
      trace := trace + [Step(DB)];
      trainHist := trainHist.(dB := trainHist.dB + [loss]);
      assert trace == old(trace) + [ZeroGrad(DB), Query(FakeAStore), Step(DB)];
    }

    /** One body of the zipped loop: the `i`-th batch of each loader, the generator
        step, then D_A's and D_B's. */
    method TrainIteration(c: Config, w: World, e: nat, i: nat)
      modifies this
      ensures Snapshot() == Iteration(c, w, old(Snapshot()), e, i)
    {
      var realA := w.loaderA.batch(e, i);
      var realB := w.loaderB.batch(e, i);
      var fakeA, fakeB := TrainGenerators(c, w, realA, realB);
      TrainDiscriminatorA(w, realB, fakeB);
      TrainDiscriminatorB(w, realA, fakeA);
    }

    /** The evaluation that closes epoch `e`: on the test loaders every tenth
        epoch, on the training loaders otherwise. */
    method Evaluate(e: nat)
      modifies this
      ensures Snapshot() == old(Snapshot()).(trace := old(trace) + [EvalEvent(e)])
    {
      if (e + 1) % 10 == 0 {
        trace := trace + [TestResults];
      } else {
        trace := trace + [TrainResults];
      }
    }

    /** The loop over the zipped loaders of epoch `e`, which stops at the end of
        the shorter one. Returns the number of iterations run. */
    method TrainIterations(c: Config, w: World, e: nat) returns (numIter: nat)
      modifies this
      ensures numIter == ZipLength(w)
      ensures Snapshot() == Iterations(c, w, old(Snapshot()), e, numIter)
    {
      // the loop relates whole iterations; what one computes is not needed here
      hide Iteration;
      ghost var start := Snapshot();
      numIter := 0;
      while numIter < w.loaderA.len && numIter < w.loaderB.len
        invariant numIter <= ZipLength(w)
        invariant Snapshot() == Iterations(c, w, start, e, numIter)
      {
        TrainIteration(c, w, e, numIter);
        IterationsStep(c, w, start, e, numIter, Snapshot());
        numIter := numIter + 1;
      }
      assert numIter == Min(w.loaderA.len, w.loaderB.len);
    }

    /** Epoch `e`: the rate decay, the zipped iterations, a `per_epoch_ptimes`
        entry and the evaluation. */
    method TrainEpoch(c: Config, w: World, e: nat)
      requires e < c.trainEpoch
      modifies this
      ensures Snapshot() == Epoch(c, w, old(Snapshot()), e)
    {
      // the iterations are taken whole, as TrainIterations establishes them
      hide Iterations;
      DecayRates(c, e);
      var _ := TrainIterations(c, w, e);
      ghost var trained := Snapshot();
      trainHist := trainHist.(perEpochPtimes := trainHist.perEpochPtimes + 1);
      Evaluate(e);
      assert Snapshot() == trained.(hist := trained.hist.(perEpochPtimes := trained.hist.perEpochPtimes + 1),
                                    trace := trained.trace + [EvalEvent(e)]);
    }

    /** The whole training loop: `trainEpoch` epochs, then the `total_time` entry. */
    method Train(c: Config, w: World)
      modifies this
      ensures Snapshot() == Run(c, w, old(Snapshot()))
    {
      // the loop relates whole epochs; what one computes is not needed here
      hide Epoch;
      ghost var start := Snapshot();
      var epoch := 0;
      while epoch < c.trainEpoch
        invariant epoch <= EpochCount(c)
        invariant Snapshot() == Epochs(c, w, start, epoch)
      {
        ghost var before := Snapshot();
        TrainEpoch(c, w, epoch);
        epoch := epoch + 1;
        assert Epochs(c, w, start, epoch) == Epoch(c, w, before, epoch - 1);
      }
      assert epoch == EpochCount(c);
      ghost var trained := Snapshot();
      trainHist := trainHist.(totalTime := trainHist.totalTime + 1);
      assert Snapshot() == trained.(hist := trained.hist.(totalTime := trained.hist.totalTime + 1));
    }
  }
}
