/** The training loop of one client, its stop flag, and the batch cursor it carries across rounds. */
module Training {
  import opened Sums
  import opened Geometry
  import opened L2Norm

  /** n consecutive samples of an endless stream. */
  function Samples<X>(stream: nat -> X, start: nat, n: nat): seq<X> {
    seq(n, (i: nat) => stream(start + i))
  }

  /** A stream cut into batches of `size` samples, of which `skipped` batches have been dropped. */
  datatype Dataset<X> = Dataset(stream: nat -> X, size: nat, skipped: nat) {
    function Skip(n: nat): Dataset<X> {
      this.(skipped := skipped + n)
    }

    function At(i: nat): seq<X> {
      Samples(stream, Multiple(skipped + i, size), size)
    }

    /** The first n batches, sample by sample. */
    function First(n: nat): seq<X> {
      Samples(stream, Multiple(skipped, size), Multiple(n, size))
    }

    lemma OneMoreBatch(n: nat)
      ensures First(n + 1) == First(n) + At(n)
    {
      MultipleAdds(skipped, n, size);
    }
  }

  /** What fit returns, or the local name Python finds unbound. */
  datatype FitResult = Fitted(batchesInEpoch: nat, batchPointer: nat, l2Norm: real) | UnboundName(name: string)

  /** Call number b is the first one answered "stop". */
  predicate FirstStop(reply: nat -> bool, b: nat) {
    reply(b) && forall j: nat :: j < b ==> !reply(j)
  }

  lemma {:induction false} LeastStop(reply: nat -> bool, j: nat)
    requires reply(j)
    ensures exists b: nat :: FirstStop(reply, b)
  {
    if i: nat :| i < j && reply(i) {
      LeastStop(reply, i);
    } else {
      assert FirstStop(reply, j);
    }
  }

  /** The weights after every batch have the shapes of those the round started from. */
  ghost predicate Comparable(start: seq<Vec>, weights: nat -> seq<Vec>) {
    forall j: nat :: Pairable(start, weights(j))
  }

  /** The outcome of a fit whose first "stop" answers batch b: b + 1 consecutive batches from the
      cursor on, whatever the number of epochs; later epochs train nothing and overwrite the norm. */
  ghost predicate FitReports<X>(r: FitResult, trained: seq<X>, dataset: Dataset<X>, batchPointer: nat, epochs: nat,
                                start: seq<Vec>, weights: nat -> seq<Vec>, reply: nat -> bool, b: nat) {
    && FirstStop(reply, b) && Pairable(start, weights(b))
    && r == Fitted(b + 1, batchPointer + b + 1, if epochs == 1 then Drift(start, weights(b)) else 0.0)
    && trained == dataset.Skip(batchPointer).First(b + 1)
  }

  class CustomModel {
    const trainL2Norm: L2Metric
    var weights: seq<Vec>
    var stopTraining: bool

    constructor ()
      ensures fresh(trainL2Norm)
    {
      trainL2Norm := new L2Metric();
      weights, stopTraining := [], false;
    }

    method ResumeTrain()
      modifies this`stopTraining
      ensures !stopTraining
    {
      stopTraining := false;
    }

    method ResetTrainMetrics()
      modifies trainL2Norm`l2Norm
      ensures trainL2Norm.l2Norm == 0.0
    {
      trainL2Norm.ResetState();
    }

    /** A gradient step ends in some new weights; the metric measures how far they have drifted. */
    method TrainStep(next: seq<Vec>)
      requires trainL2Norm.initialWeights.Start? && Pairable(trainL2Norm.initialWeights.weights, next)
      modifies this`weights, trainL2Norm`l2Norm
      ensures weights == next && trainL2Norm.l2Norm == Drift(trainL2Norm.initialWeights.weights, next)
    {
      weights := next;
      var done := trainL2Norm.UpdateState(weights);
    }

    /** The callback: the server's answer can only switch the flag on. */
    method OnTrainBatchEnd(stop: bool)
      modifies this`stopTraining
      ensures stopTraining == (old(stopTraining) || stop)
    {
      if stop {
        stopTraining := true;
      }
    }

    /** The loop may train: it has starting weights to measure from, and is told to stop some time. */
    ghost predicate Ready(weights: nat -> seq<Vec>)
      reads trainL2Norm
    {
      trainL2Norm.initialWeights.Start? && Comparable(trainL2Norm.initialWeights.weights, weights)
    }

    /** One epoch: every iteration fetches a batch first and only then looks at the stop flag.
        `next(j)` are the weights after batch j, `reply(j)` is the server's answer to it. */
    method RunEpoch<X>(dataset: Dataset<X>, next: nat -> seq<Vec>, reply: nat -> bool, ghost b: nat)
      returns (l2NormVal: real, batches: nat, trained: seq<X>)
      requires !stopTraining ==> Ready(next) && FirstStop(reply, b)
      modifies this, trainL2Norm`l2Norm
      ensures stopTraining
      ensures batches == (if old(stopTraining) then 0 else b + 1) && trained == dataset.First(batches)
      ensures if old(stopTraining) then l2NormVal == 0.0 && weights == old(weights)
              else Ready(next) && l2NormVal == Drift(trainL2Norm.initialWeights.weights, next(b)) && weights == next(b)
    {
      l2NormVal, batches, trained := 0.0, 0, [];
      while true
        invariant old(stopTraining) ==> stopTraining && batches == 0 && l2NormVal == 0.0 && weights == old(weights)
        invariant !old(stopTraining) ==> Ready(next) && batches <= b + 1 && (stopTraining <==> batches == b + 1)
        invariant !old(stopTraining) && batches > 0 ==>
          l2NormVal == Drift(trainL2Norm.initialWeights.weights, next(batches - 1)) && weights == next(batches - 1)
        invariant trained == dataset.First(batches)
        decreases if stopTraining then 0 else b + 1 - batches
      {
        var batch := dataset.At(batches);
        if stopTraining {
          break;
        }
        dataset.OneMoreBatch(batches);
        trained := trained + batch;
        TrainStep(next(batches));
        l2NormVal := trainL2Norm.l2Norm;
        OnTrainBatchEnd(reply(batches));
        batches := batches + 1;
      }
    }

    /** A call that trains needs an answer "stop": without one the source never returns, since the stream
        is endless. A call with no epochs, or with the flag up, asks the server nothing. */
    method Fit<X>(dataset: Dataset<X>, batchPointer: nat, epochs: nat, next: nat -> seq<Vec>, reply: nat -> bool)
      returns (r: FitResult, trained: seq<X>)
      requires epochs > 0 && !stopTraining ==> Ready(next) && exists j :: reply(j)
      modifies this, trainL2Norm`l2Norm
      ensures epochs == 0 ==> r == UnboundName("l2_norm_val") && trained == []
      ensures epochs > 0 && old(stopTraining) ==> r == UnboundName("loss_val") && trained == []
      ensures epochs > 0 && !old(stopTraining) ==> trainL2Norm.initialWeights.Start? && exists b: nat ::
        FitReports(r, trained, dataset, batchPointer, epochs, trainL2Norm.initialWeights.weights, next, reply, b)
    {
      trained := [];
      if epochs == 0 {
        return UnboundName("l2_norm_val"), [];
      }
      ghost var b: nat := 0;
      if !stopTraining {
        ghost var j :| reply(j);
        LeastStop(reply, j);
        b :| FirstStop(reply, b);
      }
      var batchesInEpoch: nat, pointer: nat, l2NormVal, rest := 0, batchPointer, 0.0, dataset;
      for epoch := 0 to epochs
        invariant epoch == 0 ==> rest == dataset && pointer == batchPointer && trained == []
        invariant epoch == 0 ==> batchesInEpoch == 0 && stopTraining == old(stopTraining)
        invariant epoch > 0 ==> stopTraining && !old(stopTraining)
        invariant !old(stopTraining) ==> Ready(next)
        invariant epoch > 0 ==> FitReports(Fitted(batchesInEpoch, pointer, l2NormVal), trained, dataset, batchPointer,
                                           epoch, trainL2Norm.initialWeights.weights, next, reply, b)
      {
        rest := rest.Skip(pointer);
        var batches, more;
        l2NormVal, batches, more := RunEpoch(rest, next, reply, b);
        batchesInEpoch, pointer, trained := batchesInEpoch + batches, pointer + batches, trained + more;
        if batchesInEpoch == 0 {
          return UnboundName("loss_val"), [];
        }
        ResetTrainMetrics();
      }
      r := Fitted(batchesInEpoch, pointer, l2NormVal);
    }
  }

  // --------------------------------------------------- rounds of a client

  /** What a client did in a round: b + 1 batches of some size. */
  datatype Round = Round(batchSize: nat, batches: nat)

  function BatchesOf(rounds: seq<Round>): nat {
    if rounds == [] then 0 else BatchesOf(rounds[..|rounds| - 1]) + rounds[|rounds| - 1].batches
  }

  /** The samples trained on in all rounds: each starts at the cursor, counted in batches of its size. */
  function TrainedOn<X>(stream: nat -> X, rounds: seq<Round>): seq<X> {
    if rounds == [] then []
    else
      var init, r := rounds[..|rounds| - 1], rounds[|rounds| - 1];
      TrainedOn(stream, init) + Dataset(stream, r.batchSize, BatchesOf(init)).First(r.batches)
  }

  method ProcessedSamples(batches: nat, batchSize: nat) returns (samples: nat)
    ensures samples == Multiple(batches, batchSize)
  {
    MultipleIsProduct(batches, batchSize);
    samples := batches * batchSize;
  }

  /** What a client sends back after a round. */
  datatype ClientReport = ClientReport(processedSamples: nat, l2Norm: real) | ClientError(name: string)

  /** The flower client: it keeps the cursor between rounds and always fits the same local stream. */
  class FlexibleClient<!X> {
    const stream: nat -> X
    const model: CustomModel
    var batchPointer: nat
    ghost var rounds: seq<Round>
    ghost var history: seq<X>  // every sample ever trained on, in order

    ghost predicate Valid()
      reads this
    {
      batchPointer == BatchesOf(rounds) && history == TrainedOn(stream, rounds)
    }

    constructor (stream: nat -> X)
      ensures Valid() && rounds == [] && this.stream == stream && fresh(model) && fresh(model.trainL2Norm)
    {
      this.stream := stream;
      this.model := new CustomModel();
      this.batchPointer := 0;
      this.rounds, this.history := [], [];
    }

    /** The global weights become the model's own, and those the drift of the round is measured from. */
    method StartRound(parameters: seq<Vec>)
      modifies model`weights, model`stopTraining, model.trainL2Norm`initialWeights
      ensures model.weights == parameters && model.trainL2Norm.initialWeights == Start(parameters)
      ensures !model.stopTraining
    {
      model.weights := parameters;
      model.trainL2Norm.SetWeightMean(model.weights);
      model.ResumeTrain();
    }

    /** A fit that trained moves the cursor and is reported in samples. */
    method Finish(batches: nat, pointer: nat, l2Norm: real, batchSize: nat, trained: seq<X>) returns (r: ClientReport)
      requires Valid() && pointer == batchPointer + batches
      requires trained == Dataset(stream, batchSize, batchPointer).First(batches)
      modifies this
      ensures Valid() && rounds == old(rounds) + [Round(batchSize, batches)]
      ensures r == ClientReport(Multiple(batches, batchSize), l2Norm)
    {
      batchPointer := pointer;
      rounds, history := rounds + [Round(batchSize, batches)], history + trained;
      var processedSamples := ProcessedSamples(batches, batchSize);
      r := ClientReport(processedSamples, l2Norm);
    }

    /** One round from the global weights, with the batch size its configuration asks for. */
    method Fit(parameters: seq<Vec>, epochs: nat, batchSize: nat, next: nat -> seq<Vec>, reply: nat -> bool)
      returns (r: ClientReport)
      requires Valid()
      requires epochs > 0 ==> Comparable(parameters, next) && exists j :: reply(j)
      modifies this, model, model.trainL2Norm
      ensures Valid()
      ensures epochs == 0 ==> r == ClientError("l2_norm_val") && rounds == old(rounds)
      ensures epochs > 0 ==> exists b: nat ::
        && FirstStop(reply, b)
        && r == ClientReport(Multiple(b + 1, batchSize), if epochs == 1 then Drift(parameters, next(b)) else 0.0)
        && rounds == old(rounds) + [Round(batchSize, b + 1)]
    {
      StartRound(parameters);
      var dataset := Dataset(stream, batchSize, 0);
      var res, trained := model.Fit(dataset, batchPointer, epochs, next, reply);
      match res
      case UnboundName(name) =>
        r := ClientError(name);
      case Fitted(batches, pointer, l2Norm) =>
        ghost var b: nat :| FitReports(res, trained, dataset, batchPointer, epochs, parameters, next, reply, b);
        r := Finish(batches, pointer, l2Norm, batchSize, trained);
    }
  }

  // ------------------------------------------------- no gap and no repeat

  function Position(i: nat): nat {
    i
  }

  predicate SameSizes(rounds: seq<Round>) {
    forall i :: 0 <= i < |rounds| ==> rounds[i].batchSize == rounds[0].batchSize
  }

  /** With one batch size the samples trained on are a prefix of the stream: no gap and no repeat. */
  lemma {:induction false} SameSizesInOrder<X>(stream: nat -> X, rounds: seq<Round>, size: nat)
    requires forall i :: 0 <= i < |rounds| ==> rounds[i].batchSize == size
    ensures TrainedOn(stream, rounds) == Samples(stream, 0, Multiple(BatchesOf(rounds), size))
  {
    if rounds == [] {
    } else {
      var init, r := rounds[..|rounds| - 1], rounds[|rounds| - 1];
      SameSizesInOrder(stream, init, size);
      MultipleAdds(BatchesOf(init), r.batches, size);
    }
  }

  lemma {:induction false} MultipleGrowsInSize(k: nat, a: nat, b: nat)
    requires k > 0 && a < b
    ensures Multiple(k, a) < Multiple(k, b)
  {
    if k == 1 {
      assert Multiple(1, a) == Multiple(0, a) + a && Multiple(1, b) == Multiple(0, b) + b;
    } else {
      MultipleGrowsInSize(k - 1, a, b);
    }
  }

  predicate AllTrain(rounds: seq<Round>) {
    forall i :: 0 <= i < |rounds| ==> rounds[i].batchSize > 0 && rounds[i].batches > 0
  }

  predicate InOrder(positions: seq<nat>) {
    forall i :: 0 <= i < |positions| ==> positions[i] == i
  }

  lemma FirstIsStart(size: nat, skipped: nat, n: nat)
    requires size > 0 && n > 0
    ensures var first := Dataset(Position, size, skipped).First(n);
      |first| > 0 && first[0] == Multiple(skipped, size)
  {
    MultipleGrows(1, n, size);
    assert Multiple(1, size) == Multiple(0, size) + size;
    assert Dataset(Position, size, skipped).First(n)[0] == Position(Multiple(skipped, size) + 0);
  }

  /** A round that changes the batch size does not go on where the rounds before it ended. */
  lemma ChangeBreaksOrder(rounds: seq<Round>)
    requires |rounds| > 1 && AllTrain(rounds) && SameSizes(rounds[..|rounds| - 1])
    requires rounds[|rounds| - 1].batchSize != rounds[0].batchSize
    ensures !InOrder(TrainedOn(Position, rounds))
  {
    var init, r := rounds[..|rounds| - 1], rounds[|rounds| - 1];
    var size, done := init[0].batchSize, BatchesOf(init);
    SameSizesInOrder(Position, init, size);
    if size < r.batchSize {
      MultipleGrowsInSize(done, size, r.batchSize);
    } else {
      MultipleGrowsInSize(done, r.batchSize, size);
    }
    FirstIsStart(r.batchSize, done, r.batches);
    assert TrainedOn(Position, rounds)[Multiple(done, size)] == Multiple(done, r.batchSize);
  }

  lemma StreamInOrder(n: nat)
    ensures InOrder(Samples(Position, 0, n))
  {
    forall i | 0 <= i < n ensures Samples(Position, 0, n)[i] == i {
      assert Samples(Position, 0, n)[i] == Position(0 + i);
    }
  }

  lemma PrefixInOrder(a: seq<nat>, b: seq<nat>)
    requires a <= b && InOrder(b)
    ensures InOrder(a)
  {
  }

  /** One batch of one sample, then one of two: sample 1 is never trained on. */
  lemma ChangedSizeSkips()
    ensures TrainedOn(Position, [Round(1, 1)] + [Round(2, 1)]) == [0] + [2, 3]
  {
    var first, both := [Round(1, 1)], [Round(1, 1)] + [Round(2, 1)];
    assert first[..0] == [] && both[..1] == first;
    assert Multiple(0, 1) == 0 && Multiple(1, 1) == 0 + 1 && Multiple(1, 2) == Multiple(0, 2) + 2 == 2;
    var a, b := Samples(Position, 0, 1), Samples(Position, 2, 2);
    assert a[0] == Position(0) && b[0] == Position(2) && b[1] == Position(3);
    assert a == [0] && b == [2, 3];
    assert TrainedOn(Position, []) == [];
    assert TrainedOn(Position, first) == [] + a;
  }

  /** The exact condition on the cursor: the positions a client has trained on, over any number of rounds,
      are a prefix of its stream if and only if the batch size has never changed. */
  lemma {:induction false} InOrderIffSameSizes(rounds: seq<Round>)
    requires AllTrain(rounds)
    ensures InOrder(TrainedOn(Position, rounds)) <==> SameSizes(rounds)
  {
    if rounds == [] {
    } else {
      var init := rounds[..|rounds| - 1];
      assert init != [] ==> init[0] == rounds[0];
      InOrderIffSameSizes(init);
      if SameSizes(rounds) {
        SameSizesInOrder(Position, rounds, rounds[0].batchSize);
        StreamInOrder(Multiple(BatchesOf(rounds), rounds[0].batchSize));
      } else if SameSizes(init) {
        ChangeBreaksOrder(rounds);
      } else if InOrder(TrainedOn(Position, rounds)) {
        PrefixInOrder(TrainedOn(Position, init), TrainedOn(Position, rounds));
      }
    }
  }
}
