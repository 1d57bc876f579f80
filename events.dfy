/**
  The observable order of a training run: which optimizer is decayed, zeroed or
  stepped, which image pool is queried, and which evaluation hook runs, in the
  order the training script issues them.
 */
module Events {
  import opened Schedule

  /** G_optimizer (both generators), D_A_optimizer, D_B_optimizer. */
  datatype Optimizer = G | DA | DB

  /** fakeA_store and fakeB_store, the two image pools. */
  datatype Pool = FakeAStore | FakeBStore

  datatype Event =
    | DecayLr(opt: Optimizer)
    | ZeroGrad(opt: Optimizer)
    | Step(opt: Optimizer)
    | Query(pool: Pool)
    | TestResults     // test.test_results_network on the test loaders
    | TrainResults    // train.train_results_network on the training loaders

  /** One iteration: the generator pair is zeroed and stepped, then D_A (whose fake
      batch goes through fakeB_store), then D_B (through fakeA_store). */
  function IterationEvents(): seq<Event>
  {
    [ZeroGrad(G), Step(G),
     ZeroGrad(DA), Query(FakeBStore), Step(DA),
     ZeroGrad(DB), Query(FakeAStore), Step(DB)]
  }

  /** `x` repeated `k` times. */
  function Repeat(x: seq<Event>, k: nat): seq<Event>
  {
    if k == 0 then [] else Repeat(x, k - 1) + x
  }

  /** The decrements at the boundary of 0-based epoch `e`: D_A's, D_B's, then G's rate. */
  function DecayEvents(decayEpoch: int, e: nat): seq<Event>
  {
    if e + 1 > decayEpoch then [DecayLr(DA), DecayLr(DB), DecayLr(G)] else []
  }

  /** The evaluation hook that closes 0-based epoch `e`. */
  function EvalEvent(e: nat): Event
  {
    if (e + 1) % 10 == 0 then TestResults else TrainResults
  }

  /** Epoch `e` with `n` iterations: decay first, then the iterations, then evaluation. */
  function EpochTrace(decayEpoch: int, n: nat, e: nat): seq<Event>
  {
    DecayEvents(decayEpoch, e) + Repeat(IterationEvents(), n) + [EvalEvent(e)]
  }

  /** The first `k` epochs of a run with `n` iterations per epoch. */
  function RunTrace(decayEpoch: int, n: nat, k: nat): seq<Event>
  {
    if k == 0 then [] else RunTrace(decayEpoch, n, k - 1) + EpochTrace(decayEpoch, n, k - 1)
  }

  /** The number of occurrences of `ev` in `s`. */
  function Count(s: seq<Event>, ev: Event): nat
  {
    if s == [] then 0 else Count(s[..|s| - 1], ev) + (if s[|s| - 1] == ev then 1 else 0)
  }

  lemma {:induction false} CountAppend(a: seq<Event>, b: seq<Event>, ev: Event)
    ensures Count(a + b, ev) == Count(a, ev) + Count(b, ev)
  {
    if b == [] {
      assert a + b == a;
    } else {
      var c := a + b;
      assert c[..|c| - 1] == a + b[..|b| - 1];
      assert c[|c| - 1] == b[|b| - 1];
      CountAppend(a, b[..|b| - 1], ev);
    }
  }

  lemma CountCons(x: Event, s: seq<Event>, ev: Event)
    ensures Count([x] + s, ev) == (if x == ev then 1 else 0) + Count(s, ev)
  {
    CountAppend([x], s, ev);
    assert [x][..0] == [];
  }

  /** Counting in a repetition. */
  lemma {:induction false} RepeatCount(x: seq<Event>, k: nat, ev: Event)
    ensures Count(Repeat(x, k), ev) == k * Count(x, ev)
  {
    if k > 0 {
      RepeatCount(x, k - 1, ev);
      CountAppend(Repeat(x, k - 1), x, ev);
      assert (k - 1) * Count(x, ev) + Count(x, ev) == k * Count(x, ev);
    }
  }

  /** Everything in a repetition comes from the repeated block. */
  lemma {:induction false} RepeatElements(x: seq<Event>, k: nat, j: nat)
    requires j < |Repeat(x, k)|
    ensures Repeat(x, k)[j] in x
  {
    var prefix := Repeat(x, k - 1);
    if j >= |prefix| {
      assert Repeat(x, k)[j] == x[j - |prefix|];
    } else {
      RepeatElements(x, k - 1, j);
    }
  }

  /** Each iteration zeroes and steps each optimizer exactly once and queries each
      pool exactly once, and never touches a learning rate or an evaluation hook. */
  lemma IterationCount(ev: Event)
    ensures Count(IterationEvents(), ev) == if ev.ZeroGrad? || ev.Step? || ev.Query? then 1 else 0
  {
    var s := IterationEvents();
    if ev.ZeroGrad? || ev.Step? || ev.Query? {
      var i: nat :=
        if ev == ZeroGrad(G) then 0 else if ev == Step(G) then 1
        else if ev == ZeroGrad(DA) then 2 else if ev == Query(FakeBStore) then 3
        else if ev == Step(DA) then 4 else if ev == ZeroGrad(DB) then 5
        else if ev == Query(FakeAStore) then 6 else 7;
      assert ev.Query? ==> ev.pool == FakeAStore || ev.pool == FakeBStore;
      assert !ev.Query? ==> ev.opt == G || ev.opt == DA || ev.opt == DB;
      assert s[i] == ev;
      CountOnce(s, i);
    } else {
      CountAbsent(s, ev);
    }
  }

  lemma {:induction false} CountAbsent(s: seq<Event>, ev: Event)
    requires ev !in s
    ensures Count(s, ev) == 0
  {
    if s != [] {
      CountAbsent(s[..|s| - 1], ev);
    }
  }

  /** An event that occurs at exactly one position is counted once. */
  lemma CountOnce(s: seq<Event>, i: nat)
    requires i < |s|
    requires forall j :: 0 <= j < |s| && s[j] == s[i] ==> j == i
    ensures Count(s, s[i]) == 1
  {
    var ev := s[i];
    assert s == s[..i] + [ev] + s[i + 1..];
    CountAppend(s[..i] + [ev], s[i + 1..], ev);
    CountAppend(s[..i], [ev], ev);
    assert [ev][..0] == [];
    assert ev !in s[..i];
    assert ev !in s[i + 1..] by {
      forall j | i + 1 <= j < |s| ensures s[j] != ev {
      }
    }
    CountAbsent(s[..i], ev);
    CountAbsent(s[i + 1..], ev);
  }

  /** Within an epoch the rate decrements, when there are any, come before every
      iteration event, and the epoch ends with its one evaluation. */
  lemma EpochTraceOrder(decayEpoch: int, n: nat, e: nat)
    ensures var t := EpochTrace(decayEpoch, n, e);
            var m := |DecayEvents(decayEpoch, e)|;
            (forall j :: 0 <= j < m ==> t[j].DecayLr?) &&
            (forall j :: m <= j < |t| ==> !t[j].DecayLr?) &&
            t[|t| - 1] == EvalEvent(e) &&
            (forall j :: 0 <= j < |t| - 1 ==> t[j] != TestResults && t[j] != TrainResults)
  {
    var t := EpochTrace(decayEpoch, n, e);
    var m := |DecayEvents(decayEpoch, e)|;
    var body := Repeat(IterationEvents(), n);
    forall j | m <= j < |t| - 1
      ensures !t[j].DecayLr? && t[j] != TestResults && t[j] != TrainResults
    {
      assert t[j] == body[j - m];
      RepeatElements(IterationEvents(), n, j - m);
    }
  }

  /** Counting in one epoch: its decrements, `n` copies of each iteration event, and its evaluation. */
  lemma EpochTraceCount(decayEpoch: int, n: nat, e: nat, ev: Event)
    ensures Count(EpochTrace(decayEpoch, n, e), ev) ==
      Count(DecayEvents(decayEpoch, e), ev) + n * Count(IterationEvents(), ev)
      + (if ev == EvalEvent(e) then 1 else 0)
  {
    var decay := DecayEvents(decayEpoch, e);
    var body := Repeat(IterationEvents(), n);
    CountAppend(decay + body, [EvalEvent(e)], ev);
    CountAppend(decay, body, ev);
    RepeatCount(IterationEvents(), n, ev);
  }

  /** The three decrements of an epoch past `decayEpoch`, one per optimizer. */
  lemma DecayEventsCount(decayEpoch: int, e: nat, ev: Event)
    ensures Count(DecayEvents(decayEpoch, e), ev) == if ev.DecayLr? && e + 1 > decayEpoch then 1 else 0
  {
    if e + 1 > decayEpoch {
      assert Count([], ev) == 0;
      CountCons(DecayLr(G), [], ev);
      CountCons(DecayLr(DB), [DecayLr(G)], ev);
      CountCons(DecayLr(DA), [DecayLr(DB), DecayLr(G)], ev);
      assert [DecayLr(G)] + [] == [DecayLr(G)];
      assert [DecayLr(DB)] + [DecayLr(G)] == [DecayLr(DB), DecayLr(G)];
      assert [DecayLr(DA)] + [DecayLr(DB), DecayLr(G)] == DecayEvents(decayEpoch, e);
      if ev.DecayLr? {
        assert ev.opt == G || ev.opt == DA || ev.opt == DB;
      }
    }
  }

  /** One epoch has `n` of each iteration event. */
  lemma EpochTraceIterationCount(decayEpoch: int, n: nat, e: nat, ev: Event)
    requires ev.ZeroGrad? || ev.Step? || ev.Query?
    ensures Count(EpochTrace(decayEpoch, n, e), ev) == n
  {
    EpochTraceCount(decayEpoch, n, e, ev);
    IterationCount(ev);
    DecayEventsCount(decayEpoch, e, ev);
  }

  /** One epoch has one decrement per optimizer once past `decayEpoch`, none before. */
  lemma EpochTraceDecayCount(decayEpoch: int, n: nat, e: nat, o: Optimizer)
    ensures Count(EpochTrace(decayEpoch, n, e), DecayLr(o)) == if e + 1 > decayEpoch then 1 else 0
  {
    EpochTraceCount(decayEpoch, n, e, DecayLr(o));
    IterationCount(DecayLr(o));
    DecayEventsCount(decayEpoch, e, DecayLr(o));
  }

  /** One epoch has exactly one evaluation, the one `EvalEvent` selects. */
  lemma EpochTraceEvalCount(decayEpoch: int, n: nat, e: nat, ev: Event)
    requires ev == TestResults || ev == TrainResults
    ensures Count(EpochTrace(decayEpoch, n, e), ev) == if ev == EvalEvent(e) then 1 else 0
  {
    EpochTraceCount(decayEpoch, n, e, ev);
    IterationCount(ev);
    DecayEventsCount(decayEpoch, e, ev);
  }

  /** `k * n`, by repeated addition. */
  function Times(k: nat, n: nat): nat
  {
    if k == 0 then 0 else Times(k - 1, n) + n
  }

  lemma {:induction false} TimesIsProduct(k: nat, n: nat)
    ensures Times(k, n) == k * n
  {
    if k > 0 {
      TimesIsProduct(k - 1, n);
      assert (k - 1) * n + n == k * n;
    }
  }

  /** Over a run of `k` epochs with `n` iterations each, every iteration event occurs
      `k * n` times. */
  lemma {:induction false} RunTraceIterationCount(decayEpoch: int, n: nat, k: nat, ev: Event)
    requires ev.ZeroGrad? || ev.Step? || ev.Query?
    ensures Count(RunTrace(decayEpoch, n, k), ev) == Times(k, n)
  {
    if k > 0 {
      RunTraceIterationCount(decayEpoch, n, k - 1, ev);
      CountAppend(RunTrace(decayEpoch, n, k - 1), EpochTrace(decayEpoch, n, k - 1), ev);
      EpochTraceIterationCount(decayEpoch, n, k - 1, ev);
    }
  }

  /** Each optimizer's rate is decremented once in every epoch past `decayEpoch`. */
  lemma {:induction false} RunTraceDecayCount(decayEpoch: int, n: nat, k: nat, o: Optimizer)
    ensures Count(RunTrace(decayEpoch, n, k), DecayLr(o)) == Decrements(decayEpoch, k)
  {
    if k > 0 {
      RunTraceDecayCount(decayEpoch, n, k - 1, o);
      CountAppend(RunTrace(decayEpoch, n, k - 1), EpochTrace(decayEpoch, n, k - 1), DecayLr(o));
      EpochTraceDecayCount(decayEpoch, n, k - 1, o);
    }
  }

  /** The number of the first `k` epochs that close with evaluation `ev`. */
  function Evaluations(ev: Event, k: nat): nat
  {
    if k == 0 then 0 else Evaluations(ev, k - 1) + (if EvalEvent(k - 1) == ev then 1 else 0)
  }

  /** Every tenth epoch evaluates on the test set, all others on the training set. */
  lemma {:induction false} EvaluationsAreTenths(k: nat)
    ensures Evaluations(TestResults, k) == k / 10
    ensures Evaluations(TrainResults, k) == k - k / 10
  {
    if k > 0 {
      EvaluationsAreTenths(k - 1);
      TenthsStep(k);
    }
  }

  lemma {:induction false} RunTraceEvalCount(decayEpoch: int, n: nat, k: nat, ev: Event)
    requires ev == TestResults || ev == TrainResults
    ensures Count(RunTrace(decayEpoch, n, k), ev) == Evaluations(ev, k)
  {
    if k > 0 {
      RunTraceEvalCount(decayEpoch, n, k - 1, ev);
      CountAppend(RunTrace(decayEpoch, n, k - 1), EpochTrace(decayEpoch, n, k - 1), ev);
      EpochTraceEvalCount(decayEpoch, n, k - 1, ev);
    }
  }

  /** One evaluation per epoch: the test-set one in every tenth epoch, `k / 10` of
      them in `k` epochs, and the training-set one in all the others. */
  lemma RunTraceEvalCounts(decayEpoch: int, n: nat, k: nat)
    ensures Count(RunTrace(decayEpoch, n, k), TestResults) == k / 10
    ensures Count(RunTrace(decayEpoch, n, k), TrainResults) == k - k / 10
  {
    RunTraceEvalCount(decayEpoch, n, k, TestResults);
    RunTraceEvalCount(decayEpoch, n, k, TrainResults);
    EvaluationsAreTenths(k);
  }

  lemma TenthsStep(k: nat)
    requires k > 0
    ensures k / 10 == (k - 1) / 10 + (if k % 10 == 0 then 1 else 0)
  {
  }
}
