/**
  Loss composition of one CycleGAN training iteration (least-squares GAN losses
  plus the L1 cycle-consistency losses).

  The networks and the two criteria are foreign tensor code; they are opaque
  function values here. A network is its architecture's forward pass applied to a
  parameter state; `mse(prediction, label)` is the mean-squared error of a
  prediction against a constant target tensor of the prediction's size (all ones
  for "real", all zeros for "fake"); `l1(x, y)` is the mean absolute error.
 */
module Losses {

  /** An image batch, flattened. */
  type Image = seq<real>

  /** The trainable parameter state of one network. */
  type Params = seq<real>

  datatype Nets = Nets(
    generator: (Params, Image) -> Image,
    discriminator: (Params, Image) -> Image,
    mse: (Image, real) -> real,
    l1: (Image, Image) -> real)

  /** The parameter states of G_A (A to B), G_B (B to A), D_A (judges domain B)
      and D_B (judges domain A). */
  datatype Models = Models(gA: Params, gB: Params, dA: Params, dB: Params)

  /** The values the generator half of an iteration produces: the two translated
      batches and the four loss terms with their sum. */
  datatype GenLosses = GenLosses(
    fakeB: Image, fakeA: Image,
    gA: real, gB: real, aCycle: real, bCycle: real,
    total: real)

  const RealLabel: real := 1.0
  const FakeLabel: real := 0.0

  /** The generator pass: translate each real batch, score the translation with the
      other domain's discriminator against the "real" label, reconstruct the input
      and weight the reconstruction error by lambdaA or lambdaB. The discriminators'
      own losses are no part of the generator total. */
  function GeneratorLosses(nets: Nets, m: Models, realA: Image, realB: Image, lambdaA: real, lambdaB: real)
    : (l: GenLosses)
    ensures l.fakeB == nets.generator(m.gA, realA) && l.fakeA == nets.generator(m.gB, realB)
    ensures l.total == l.gA + l.gB + l.aCycle + l.bCycle
  {
    var fakeB := nets.generator(m.gA, realA);
    var gALoss := nets.mse(nets.discriminator(m.dA, fakeB), RealLabel);
    var recA := nets.generator(m.gB, fakeB);
    var aCycleLoss := nets.l1(recA, realA) * lambdaA;
    var fakeA := nets.generator(m.gB, realB);
    var gBLoss := nets.mse(nets.discriminator(m.dB, fakeA), RealLabel);
    var recB := nets.generator(m.gA, fakeA);
    var bCycleLoss := nets.l1(recB, realB) * lambdaB;
    GenLosses(fakeB, fakeA, gALoss, gBLoss, aCycleLoss, bCycleLoss,
              gALoss + gBLoss + aCycleLoss + bCycleLoss)
  }

  /** A discriminator's loss: the mean of its error on a real batch (against the
      "real" label) and on a generated batch (against the "fake" label). */
  function DiscriminatorLoss(nets: Nets, d: Params, realBatch: Image, fakeBatch: Image): real
  {
    (nets.mse(nets.discriminator(d, realBatch), RealLabel) + nets.mse(nets.discriminator(d, fakeBatch), FakeLabel)) * 0.5
  }

  /** The mean lies between the error on the real batch and the error on the
      generated one. */
  lemma DiscriminatorLossBetween(nets: Nets, d: Params, realBatch: Image, fakeBatch: Image)
    ensures var loss := DiscriminatorLoss(nets, d, realBatch, fakeBatch);
            var r := nets.mse(nets.discriminator(d, realBatch), RealLabel);
            var f := nets.mse(nets.discriminator(d, fakeBatch), FakeLabel);
            (r <= f ==> r <= loss <= f) && (f <= r ==> f <= loss <= r)
  {
  }

  /** Both criteria never report a negative error, as mean-squared and mean-absolute errors do not. */
  ghost predicate NonNegativeCriteria(nets: Nets)
  {
    (forall x, t :: nets.mse(x, t) >= 0.0) && (forall x, y :: nets.l1(x, y) >= 0.0)
  }

  /** With non-negative criteria and weights, every generator loss term is
      non-negative, so the total bounds each term from above. */
  lemma GeneratorLossesNonNegative(nets: Nets, m: Models, realA: Image, realB: Image, lambdaA: real, lambdaB: real)
    requires NonNegativeCriteria(nets)
    requires lambdaA >= 0.0 && lambdaB >= 0.0
    ensures var l := GeneratorLosses(nets, m, realA, realB, lambdaA, lambdaB);
            l.gA >= 0.0 && l.gB >= 0.0 && l.aCycle >= 0.0 && l.bCycle >= 0.0 &&
            l.gA <= l.total && l.gB <= l.total && l.aCycle <= l.total && l.bCycle <= l.total
  {
    var l := GeneratorLosses(nets, m, realA, realB, lambdaA, lambdaB);
    var fakeB := nets.generator(m.gA, realA);
    var fakeA := nets.generator(m.gB, realB);
    assert l.aCycle == nets.l1(nets.generator(m.gB, fakeB), realA) * lambdaA;
    assert l.bCycle == nets.l1(nets.generator(m.gA, fakeA), realB) * lambdaB;
  }

  /** The same models with the roles of the two domains exchanged. */
  function Mirror(m: Models): Models
  {
    Models(m.gB, m.gA, m.dB, m.dA)
  }

  /** The generator losses are symmetric in the two domains: exchanging the
      generators, the discriminators, the real batches and the two weights
      exchanges the A and B terms and leaves the total unchanged. */
  lemma GeneratorLossesMirror(nets: Nets, m: Models, realA: Image, realB: Image, lambdaA: real, lambdaB: real)
    ensures var l := GeneratorLosses(nets, m, realA, realB, lambdaA, lambdaB);
            var r := GeneratorLosses(nets, Mirror(m), realB, realA, lambdaB, lambdaA);
            r.fakeB == l.fakeA && r.fakeA == l.fakeB &&
            r.gA == l.gB && r.gB == l.gA && r.aCycle == l.bCycle && r.bCycle == l.aCycle &&
            r.total == l.total
  {
  }

  /** With non-negative criteria a discriminator loss is zero exactly when the
      discriminator scores the real batch as real and the generated batch as fake
      without error. */
  lemma DiscriminatorLossZero(nets: Nets, d: Params, realBatch: Image, fakeBatch: Image)
    requires NonNegativeCriteria(nets)
    ensures DiscriminatorLoss(nets, d, realBatch, fakeBatch) >= 0.0
    ensures DiscriminatorLoss(nets, d, realBatch, fakeBatch) == 0.0 <==>
            nets.mse(nets.discriminator(d, realBatch), RealLabel) == 0.0 &&
            nets.mse(nets.discriminator(d, fakeBatch), FakeLabel) == 0.0
  {
    var r := nets.mse(nets.discriminator(d, realBatch), RealLabel);
    var f := nets.mse(nets.discriminator(d, fakeBatch), FakeLabel);
    assert r >= 0.0 && f >= 0.0;
  }
}
