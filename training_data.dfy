/** The sample store's values and the pure and loop-level pieces of the batch trainer in
    TransferLearningHelper.kt: one-hot label encoding, label coercion, the class
    distribution and the four pre-training checks, the batch iterator and the padding of a
    batch to the shape the `train` signature expects. */
module TrainingData {
  import opened Common

  const NumClasses: nat := 5
  const MinSamplesRequired: nat := 5
  const MinSamplesPerClass: nat := 3

  /** The five class identifiers, in the order of TransferLearningHelper.CLASS_IDS. */
  const ClassIds: seq<string> := ["1", "2", "3", "4", "5"]

  /** A captured sample: the bottleneck features and the one-hot label. */
  datatype TrainingSample = TrainingSample(bottleneck: seq<real>, labelValues: seq<real>)

  /** The `classes` map: class identifier -> label index; None where getValue would throw. */
  function ClassIndexOf(className: string): (r: Option<nat>)
    ensures r.Some? <==> className in ClassIds
    ensures r.Some? ==> r.value < NumClasses && ClassIds[r.value] == className
  {
    if className == "1" then Some(0)
    else if className == "2" then Some(1)
    else if className == "3" then Some(2)
    else if className == "4" then Some(3)
    else if className == "5" then Some(4)
    else None
  }

  function Zeros(n: nat): (r: seq<real>)
    ensures |r| == n && forall j :: 0 <= j < n ==> r[j] == 0.0
  {
    seq(n, j => 0.0)
  }

  /** encoding(id): a NUM_CLASSES-long vector with 1 at position id and 0 elsewhere. */
  function Encoding(id: nat): (r: seq<real>)
    requires id < NumClasses
    ensures |r| == NumClasses && r[id] == 1.0
    ensures forall j :: 0 <= j < NumClasses && j != id ==> r[j] == 0.0
  {
    Zeros(NumClasses)[id := 1.0]
  }

  /** label.indexOfFirst { it == 1f }: the class a sample is grouped under, -1 for none. */
  function ClassIndex(values: seq<real>): (r: int)
    ensures -1 <= r < |values|
    ensures r >= 0 ==> values[r] == 1.0 && forall j :: 0 <= j < r ==> values[j] != 1.0
    ensures r == -1 ==> forall j :: 0 <= j < |values| ==> values[j] != 1.0
  {
    if values == [] then -1
    else if values[0] == 1.0 then 0
    else
      var k := ClassIndex(values[1..]);
      if k == -1 then -1 else k + 1
  }

  /** The encoded label of class `id` is grouped under class `id`. */
  lemma EncodingClassIndex(id: nat)
    requires id < NumClasses
    ensures |Encoding(id)| == NumClasses
    ensures ClassIndex(Encoding(id)) == id
  {
    var e := Encoding(id);
    var k := ClassIndex(e);
    assert e[id] == 1.0;
    assert k != -1;
    assert forall j :: 0 <= j < NumClasses && j != id ==> e[j] == 0.0;
  }

  /** prepareLabel(label, expectedSize): the label itself when it already has the expected
      length, otherwise label.copyOf(expectedSize). */
  function PrepareLabel(values: seq<real>, expectedSize: nat): (r: seq<real>)
    ensures |r| == expectedSize
    ensures forall j :: 0 <= j < expectedSize ==> r[j] == if j < |values| then values[j] else 0.0
  {
    if |values| == expectedSize then values
    else seq(expectedSize, j => if 0 <= j < |values| then values[j] else 0.0)
  }

  /** Coercing a one-hot label keeps its class when the class still fits, and loses it
      (class -1) when the label is cut before its 1. */
  lemma PrepareLabelKeepsClass(id: nat, expectedSize: nat)
    requires id < NumClasses
    ensures ClassIndex(PrepareLabel(Encoding(id), expectedSize)) == if id < expectedSize then id else -1
  {
    var r := PrepareLabel(Encoding(id), expectedSize);
    var k := ClassIndex(r);
    EncodingClassIndex(id);
    if id < expectedSize {
      assert r[id] == 1.0;
      assert k != -1;
    } else {
      assert forall j :: 0 <= j < expectedSize ==> r[j] == 0.0;
    }
  }

  // ---------------------------------------------------------------------------
  // Class distribution and validation

  /** The classes the samples are grouped under (groupBy's keys). */
  function ClassesOf(samples: seq<TrainingSample>): set<int>
  {
    set i | 0 <= i < |samples| :: ClassIndex(samples[i].labelValues)
  }

  /** How many samples are grouped under class k. */
  function CountClass(samples: seq<TrainingSample>, k: int): (c: nat)
    ensures c <= |samples|
  {
    if samples == [] then 0
    else CountClass(samples[..|samples| - 1], k) + if ClassIndex(samples[|samples| - 1].labelValues) == k then 1 else 0
  }

  lemma {:induction false} CountPositive(samples: seq<TrainingSample>, i: nat)
    requires i < |samples|
    ensures CountClass(samples, ClassIndex(samples[i].labelValues)) >= 1
  {
    if i < |samples| - 1 {
      CountPositive(samples[..|samples| - 1], i);
    }
  }

  lemma {:induction false} CountAbsent(samples: seq<TrainingSample>, k: int)
    requires k !in ClassesOf(samples)
    ensures CountClass(samples, k) == 0
  {
    if samples != [] {
      var init := samples[..|samples| - 1];
      assert forall i :: 0 <= i < |init| ==> init[i] == samples[i];
      assert ClassesOf(init) <= ClassesOf(samples);
      CountAbsent(init, k);
      assert ClassIndex(samples[|samples| - 1].labelValues) in ClassesOf(samples);
    }
  }

  /** groupBy { indexOfFirst 1.0 } reduced to the group sizes. */
  function Distribution(samples: seq<TrainingSample>): (d: map<int, nat>)
    ensures d.Keys == ClassesOf(samples)
    ensures forall k :: k in d ==> d[k] == CountClass(samples, k) && d[k] >= 1
  {
    forall k | k in ClassesOf(samples) ensures CountClass(samples, k) >= 1 {
      var i :| 0 <= i < |samples| && ClassIndex(samples[i].labelValues) == k;
      CountPositive(samples, i);
    }
    map k | k in ClassesOf(samples) :: CountClass(samples, k)
  }

  /** The user-facing rejections of startTraining, in the order they are checked. */
  datatype ValidationError =
    | NoSamples
    | TooFewSamples(count: nat)
    | TooFewClasses(found: nat)
    | ClassesTooSmall(insufficient: set<int>)

  /** The four pre-training checks: the first failing one is reported, None means
      training may start. */
  function Validate(samples: seq<TrainingSample>): (r: Option<ValidationError>)
    ensures r == Some(NoSamples) <==> |samples| == 0
    ensures (r.Some? && r.value.TooFewSamples?) <==> 0 < |samples| < MinSamplesRequired
    ensures (r.Some? && r.value.TooFewClasses?) <==>
      |samples| >= MinSamplesRequired && |ClassesOf(samples)| < 2
    ensures (r.Some? && r.value.ClassesTooSmall?) <==>
      |samples| >= MinSamplesRequired && |ClassesOf(samples)| >= 2
      && exists k :: k in ClassesOf(samples) && CountClass(samples, k) < MinSamplesPerClass
    ensures r.Some? && r.value.ClassesTooSmall? ==>
      r.value.insufficient == set k | k in ClassesOf(samples) && CountClass(samples, k) < MinSamplesPerClass
  {
    if |samples| == 0 then Some(NoSamples)
    else if |samples| < MinSamplesRequired then Some(TooFewSamples(|samples|))
    else
      var distribution := Distribution(samples);
      if |distribution| < 2 then Some(TooFewClasses(|distribution|))
      else
        var insufficient := set k | k in distribution && distribution[k] < MinSamplesPerClass;
        assert forall k :: k in ClassesOf(samples) && CountClass(samples, k) < MinSamplesPerClass ==> k in insufficient;
        if insufficient != {} then Some(ClassesTooSmall(insufficient)) else None
  }

  lemma {:induction false} CountTwoClasses(samples: seq<TrainingSample>, a: int, b: int)
    requires a != b
    ensures CountClass(samples, a) + CountClass(samples, b) <= |samples|
  {
    if samples != [] {
      CountTwoClasses(samples[..|samples| - 1], a, b);
    }
  }

  /** Passing validation needs at least six samples: the check for five is only ever
      the one reported first. */
  lemma ValidatedHasSixSamples(samples: seq<TrainingSample>)
    requires Validate(samples).None?
    ensures |samples| >= 2 * MinSamplesPerClass
  {
    var classes := ClassesOf(samples);
    var a :| a in classes;
    assert |classes - {a}| >= 1;
    var b :| b in classes - {a};
    CountTwoClasses(samples, a, b);
  }

  lemma CountAppend(samples: seq<TrainingSample>, x: TrainingSample, k: int)
    ensures CountClass(samples + [x], k) == CountClass(samples, k) + if ClassIndex(x.labelValues) == k then 1 else 0
  {
    assert (samples + [x])[..|samples|] == samples;
  }

  lemma CountThreeAndTwo(a: TrainingSample, b: TrainingSample, k: int)
    requires ClassIndex(a.labelValues) == 0 && ClassIndex(b.labelValues) == 1
    ensures CountClass([a, a, a, b, b], k) == if k == 0 then 3 else if k == 1 then 2 else 0
  {
    CountAppend([], a, k);
    CountAppend([a], a, k);
    CountAppend([a, a], a, k);
    CountAppend([a, a, a], b, k);
    CountAppend([a, a, a, b], b, k);
    assert [] + [a] == [a] && [a] + [a] == [a, a] && [a, a] + [a] == [a, a, a];
    assert [a, a, a] + [b] == [a, a, a, b] && [a, a, a, b] + [b] == [a, a, a, b, b];
  }

  /** The distribution of three samples of class 0 followed by two of class 1. */
  lemma ThreeAndTwo(a: TrainingSample, b: TrainingSample)
    requires ClassIndex(a.labelValues) == 0 && ClassIndex(b.labelValues) == 1
    ensures Distribution([a, a, a, b, b]) == map[0 := 3, 1 := 2]
  {
    var s := [a, a, a, b, b];
    assert ClassesOf(s) == {0, 1} by {
      assert ClassIndex(s[0].labelValues) == 0 && ClassIndex(s[3].labelValues) == 1;
    }
    CountThreeAndTwo(a, b, 0);
    CountThreeAndTwo(a, b, 1);
  }

  /** Five samples, three of class 0 and two of class 1: the per-class check rejects
      class 1. */
  lemma RejectsUnderpopulatedClass(features: seq<real>)
    ensures
      var a := TrainingSample(features, Encoding(0));
      var b := TrainingSample(features, Encoding(1));
      Validate([a, a, a, b, b]) == Some(ClassesTooSmall({1}))
  {
    var a := TrainingSample(features, Encoding(0));
    var b := TrainingSample(features, Encoding(1));
    EncodingClassIndex(0);
    EncodingClassIndex(1);
    ThreeAndTwo(a, b);
    var d := map[0 := 3, 1 := 2];
    assert |d| == 2 by { assert d.Keys == {0, 1}; }
    assert (set k | k in d && d[k] < MinSamplesPerClass) == {1};
  }

  // ---------------------------------------------------------------------------
  // Batching

  /** trainBatchSize = max(1, min(samples, expectedBatchSize)). */
  function TrainBatchSize(sampleCount: nat, expectedBatchSize: nat): (b: nat)
    ensures b >= 1
    ensures sampleCount >= 1 ==> b <= sampleCount
    ensures expectedBatchSize >= 1 ==> b <= expectedBatchSize
    ensures sampleCount >= 1 && expectedBatchSize >= 1 ==> b == sampleCount || b == expectedBatchSize
  {
    var m := if sampleCount < expectedBatchSize then sampleCount else expectedBatchSize;
    if m < 1 then 1 else m
  }

  /** The number of steps of size b it takes to pass n samples. */
  function NumBatches(n: nat, b: nat): (q: nat)
    requires b >= 1
    ensures n == 0 <==> q == 0
  {
    if n == 0 then 0 else if n <= b then 1 else 1 + NumBatches(n - b, b)
  }

  lemma {:induction false} MultiplyMonotone(k: nat, m: nat, b: nat)
    requires k <= m
    ensures k * b <= m * b
    decreases m - k
  {
    if k < m {
      MultiplyMonotone(k + 1, m, b);
      Distribute(k, b);
    }
  }

  lemma Distribute(k: nat, b: nat)
    ensures (k + 1) * b == k * b + b
  {
  }

  lemma DivisionUnique(x: nat, b: nat, q: nat)
    requires b >= 1 && q * b <= x < q * b + b
    ensures x / b == q
  {
    var d := x / b;
    assert x == d * b + x % b && 0 <= x % b < b;
    if d > q {
      MultiplyMonotone(q + 1, d, b);
    } else if d < q {
      MultiplyMonotone(d + 1, q, b);
    }
  }

  /** The step count is ceil(n / b), the quotient the iterator's loop amounts to. */
  lemma {:induction false} NumBatchesIsCeiling(n: nat, b: nat)
    requires b >= 1
    ensures NumBatches(n, b) == (n + b - 1) / b
    ensures NumBatches(n, b) * b - b < n <= NumBatches(n, b) * b
    decreases n
  {
    var q := NumBatches(n, b);
    if n == 0 {
      DivisionUnique(b - 1, b, 0);
    } else if n <= b {
      DivisionUnique(n + b - 1, b, 1);
    } else {
      NumBatchesIsCeiling(n - b, b);
      Distribute(q - 1, b);
      DivisionUnique(n + b - 1, b, q);
    }
  }

  /** The batches of the iterator from position `from` on: a full step, or the last b
      samples once a step reaches the end. */
  function Batches(samples: seq<TrainingSample>, b: nat, from: nat): (r: seq<seq<TrainingSample>>)
    requires 1 <= b && (|samples| == 0 || b <= |samples|)
    ensures forall k :: 0 <= k < |r| ==> |r[k]| == b
    decreases |samples| - from
  {
    var n := |samples|;
    if from >= n then []
    else if from + b >= n then [samples[n - b..]]
    else [samples[from..from + b]] + Batches(samples, b, from + b)
  }

  /** There are ceil((n - from) / b) batches. */
  lemma {:induction false} BatchesCount(samples: seq<TrainingSample>, b: nat, from: nat)
    requires 1 <= b && (|samples| == 0 || b <= |samples|)
    ensures |Batches(samples, b, from)| == if from >= |samples| then 0 else NumBatches(|samples| - from, b)
    decreases |samples| - from
  {
    if from < |samples| && from + b < |samples| {
      BatchesCount(samples, b, from + b);
    }
  }

  /** Every batch but the last is the k-th step's slice; the last one ends at the end of
      the samples. */
  lemma {:induction false} BatchesAreSlices(samples: seq<TrainingSample>, b: nat, from: nat, k: nat)
    requires 1 <= b && (|samples| == 0 || b <= |samples|)
    requires k < |Batches(samples, b, from)|
    ensures from + k * b < |samples|
    ensures k < |Batches(samples, b, from)| - 1 ==>
      from + k * b + b < |samples|
      && Batches(samples, b, from)[k] == samples[from + k * b..from + k * b + b]
    ensures k == |Batches(samples, b, from)| - 1 ==> Batches(samples, b, from)[k] == samples[|samples| - b..]
    decreases k
  {
    if k > 0 {
      BatchesAreSlices(samples, b, from + b, k - 1);
      Distribute(k - 1, b);
    }
  }

  /** Every sample from `from` on lies in one of the batches, so an epoch trains on each
      sample at least once. */
  lemma {:induction false} BatchesCover(samples: seq<TrainingSample>, b: nat, from: nat, j: nat)
    requires 1 <= b <= |samples|
    requires from <= j < |samples|
    ensures exists k :: 0 <= k < |Batches(samples, b, from)| && samples[j] in Batches(samples, b, from)[k]
    decreases |samples| - from
  {
    var n := |samples|;
    if from + b >= n {
      assert samples[j] == samples[n - b..][j - (n - b)];
      assert samples[j] in Batches(samples, b, from)[0];
    } else if j < from + b {
      assert samples[j] == samples[from..from + b][j - from];
      assert samples[j] in Batches(samples, b, from)[0];
    } else {
      BatchesCover(samples, b, from + b, j);
      var k :| 0 <= k < |Batches(samples, b, from + b)| && samples[j] in Batches(samples, b, from + b)[k];
      assert Batches(samples, b, from)[k + 1] == Batches(samples, b, from + b)[k];
    }
  }

  /** trainingBatches(trainBatchSize): walk the sample list in steps of b; a step that
      reaches the end yields the last b samples instead of a short tail. */
  method TrainingBatches(samples: seq<TrainingSample>, b: nat) returns (batches: seq<seq<TrainingSample>>)
    requires b >= 1 && (|samples| == 0 || b <= |samples|)
    ensures batches == Batches(samples, b, 0)
    ensures |batches| == NumBatches(|samples|, b)
  {
    var n := |samples|;
    batches := [];
    var nextIndex := 0;
    while nextIndex < n
      invariant batches + Batches(samples, b, nextIndex) == Batches(samples, b, 0)
      decreases n - nextIndex
    {
      var fromIndex := nextIndex;
      var toIndex := nextIndex + b;
      nextIndex := toIndex;
      var batch := if toIndex >= n then samples[n - b..n] else samples[fromIndex..toIndex];
      if toIndex >= n {
        assert samples[n - b..n] == samples[n - b..];
        assert Batches(samples, b, fromIndex) == [batch];
      } else {
        assert Batches(samples, b, fromIndex) == [batch] + Batches(samples, b, nextIndex);
      }
      batches := batches + [batch];
    }
    BatchesCount(samples, b, 0);
  }

  lemma ModBelow(j: nat, m: nat)
    requires j < m
    ensures j % m == j
  {
  }

  /** The bottleneck rows one `train` call receives: batch members first, then the batch
      repeated cyclically up to the expected batch size. */
  function PaddedBottlenecks(batch: seq<TrainingSample>, expectedBatchSize: nat): seq<seq<real>>
    requires |batch| >= 1
  {
    seq(expectedBatchSize, i requires 0 <= i < expectedBatchSize => batch[i % |batch|].bottleneck)
  }

  /** The label rows of the same call, each coerced to the expected label size. */
  function PaddedLabels(batch: seq<TrainingSample>, expectedBatchSize: nat, expectedLabelSize: nat): seq<seq<real>>
    requires |batch| >= 1
  {
    seq(expectedBatchSize, i requires 0 <= i < expectedBatchSize => PrepareLabel(batch[i % |batch|].labelValues, expectedLabelSize))
  }

  /** The rows one `train` call receives: batch members first, then the batch repeated
      cyclically up to the expected batch size; every label coerced to the expected
      label size. */
  method BuildTrainingBatch(batch: seq<TrainingSample>, expectedBatchSize: nat, expectedLabelSize: nat, bottleneckSize: nat)
    returns (bottlenecks: seq<seq<real>>, labels: seq<seq<real>>)
    requires 1 <= |batch| <= expectedBatchSize
    ensures |bottlenecks| == expectedBatchSize && |labels| == expectedBatchSize
    ensures forall i :: 0 <= i < expectedBatchSize ==>
      bottlenecks[i] == batch[i % |batch|].bottleneck
      && labels[i] == PrepareLabel(batch[i % |batch|].labelValues, expectedLabelSize)
    ensures bottlenecks == PaddedBottlenecks(batch, expectedBatchSize)
    ensures labels == PaddedLabels(batch, expectedBatchSize, expectedLabelSize)
  {
    var m := |batch|;
    var rows := new seq<real>[expectedBatchSize](_ => Zeros(bottleneckSize));
    var rowLabels := new seq<real>[expectedBatchSize](_ => Zeros(expectedLabelSize));
    for index := 0 to m
      invariant forall i :: 0 <= i < index ==>
        rows[i] == batch[i].bottleneck && rowLabels[i] == PrepareLabel(batch[i].labelValues, expectedLabelSize)
    {
      rows[index] := batch[index].bottleneck;
      rowLabels[index] := PrepareLabel(batch[index].labelValues, expectedLabelSize);
    }
    forall i | 0 <= i < m ensures i % m == i {
      ModBelow(i, m);
    }
    if m < expectedBatchSize {
      for i := m to expectedBatchSize
        invariant forall j :: 0 <= j < i ==>
          rows[j] == batch[j % m].bottleneck
          && rowLabels[j] == PrepareLabel(batch[j % m].labelValues, expectedLabelSize)
      {
        var source := batch[i % m];
        rows[i] := source.bottleneck;
        rowLabels[i] := PrepareLabel(source.labelValues, expectedLabelSize);
      }
    }
    bottlenecks, labels := rows[..], rowLabels[..];
  }
}
