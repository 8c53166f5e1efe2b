/** The evaluation script's metrics: batched inference, predictions, accuracy, confusion matrix and
    prediction distribution, which are computed separately and must agree. */
module Metrics {
  import opened Integers
  import opened Wrappers

  type Features = seq<real>

  type Row = seq<real>

  /** The network as an arbitrary function from a sample to its logits, one per class. */
  datatype Network = Network(classes: nat, logits: Features -> Row)

  ghost predicate Shaped(net: Network) {
    forall x :: |net.logits(x)| == net.classes
  }

  datatype Error = NoBatches | EmptyAxis | ShapeMismatch | IndexOutOfBounds

  datatype Report = Report(
    numSamples: nat,
    numClasses: nat,
    accuracy: real,
    distribution: seq<nat>,
    confusion: seq<seq<nat>>)

  const BATCH_SIZE: nat := 8

  // ---------------------------------------------------------------- counting

  function CountIf<T>(s: seq<T>, p: T -> bool): (n: nat)
    ensures n <= |s|
  {
    if s == [] then 0 else CountIf(s[..|s| - 1], p) + (if p(s[|s| - 1]) then 1 else 0)
  }

  function Sum(s: seq<nat>): nat {
    if s == [] then 0 else Sum(s[..|s| - 1]) + s[|s| - 1]
  }

  lemma {:induction false} CountSame<T>(s: seq<T>, p: T -> bool, q: T -> bool)
    requires forall x <- s :: p(x) == q(x)
    ensures CountIf(s, p) == CountIf(s, q)
  {
    if s != [] {
      CountSame(s[..|s| - 1], p, q);
    }
  }

  lemma {:induction false} CountSplit<T>(s: seq<T>, p: T -> bool, q: T -> bool, both: T -> bool)
    requires forall x <- s :: both(x) == (p(x) || q(x)) && !(p(x) && q(x))
    ensures CountIf(s, both) == CountIf(s, p) + CountIf(s, q)
  {
    if s != [] {
      CountSplit(s[..|s| - 1], p, q, both);
    }
  }

  function Keyed<T>(guard: T -> bool, key: T -> int, k: int): T -> bool {
    x => guard(x) && key(x) == k
  }

  function Below<T>(guard: T -> bool, key: T -> int, n: int): T -> bool {
    x => guard(x) && 0 <= key(x) < n
  }

  /** Counts per key add up to the count over all keys in range. */
  lemma {:induction false} SumOfCounts<T>(s: seq<T>, guard: T -> bool, key: T -> int, counts: seq<nat>)
    requires forall k :: 0 <= k < |counts| ==> counts[k] == CountIf(s, Keyed(guard, key, k))
    ensures Sum(counts) == CountIf(s, Below(guard, key, |counts|))
  {
    if counts == [] {
      CountZeroIff(s, Below(guard, key, 0));
    } else {
      var k := |counts| - 1;
      SumOfCounts(s, guard, key, counts[..k]);
      CountSplit(s, Below(guard, key, k), Keyed(guard, key, k), Below(guard, key, k + 1));
    }
  }

  lemma {:induction false} CountZeroIff<T>(s: seq<T>, p: T -> bool)
    ensures CountIf(s, p) == 0 <==> forall x <- s :: !p(x)
  {
    if s != [] {
      CountZeroIff(s[..|s| - 1], p);
      assert s == s[..|s| - 1] + [s[|s| - 1]];
    }
  }

  lemma {:induction false} CountAll<T>(s: seq<T>, p: T -> bool)
    ensures CountIf(s, p) == |s| <==> forall x <- s :: p(x)
  {
    if s != [] {
      CountAll(s[..|s| - 1], p);
      assert s == s[..|s| - 1] + [s[|s| - 1]];
    }
  }

  // ---------------------------------------------------------------- inference

  function Flatten<T>(batches: seq<seq<T>>): seq<T> {
    if batches == [] then [] else Flatten(batches[..|batches| - 1]) + batches[|batches| - 1]
  }

  function Rows(net: Network, samples: seq<Features>): (r: seq<Row>)
    ensures |r| == |samples|
    ensures forall i :: 0 <= i < |r| ==> r[i] == net.logits(samples[i])
  {
    seq(|samples|, i requires 0 <= i < |samples| => net.logits(samples[i]))
  }

  /** The end of the batch that begins at offset. */
  function BatchEnd(offset: nat, total: nat): (end: nat)
    requires offset < total
    ensures offset < end <= total && end <= offset + BATCH_SIZE
  {
    if offset + BATCH_SIZE < total then offset + BATCH_SIZE else total
  }

  /** What k batches of eight have covered. */
  function Covered(k: nat, total: nat): nat {
    if BATCH_SIZE * k < total then BATCH_SIZE * k else total
  }

  lemma CoveredNext(k: nat, total: nat)
    requires BATCH_SIZE * k < total
    ensures Covered(k, total) == BATCH_SIZE * k
    ensures Covered(k + 1, total) == BatchEnd(BATCH_SIZE * k, total)
  {
  }

  /** The number of batches is the number of samples over eight, rounded up. */
  lemma BatchCount(k: nat, total: nat)
    requires BATCH_SIZE * k >= total && (k > 0 ==> BATCH_SIZE * (k - 1) < total)
    ensures k == (total + BATCH_SIZE - 1) / BATCH_SIZE
  {
  }

  lemma RowsAppend(net: Network, features: seq<Features>, offset: nat, end: nat)
    requires offset <= end <= |features|
    ensures Rows(net, features[..end]) == Rows(net, features[..offset]) + Rows(net, features[offset..end])
  {
  }

  lemma FlattenAppend<T>(batches: seq<seq<T>>, batch: seq<T>)
    ensures Flatten(batches + [batch]) == Flatten(batches) + batch
  {
    assert (batches + [batch])[..|batches|] == batches;
  }

  /** Every batch but the last is full, and none is empty. */
  ghost predicate Eights<T>(batches: seq<seq<T>>, total: nat) {
    && (forall i :: 0 <= i < |batches| ==> 0 < |batches[i]| <= BATCH_SIZE)
    && (forall i :: 0 <= i < |batches| && BATCH_SIZE * (i + 1) <= total ==> |batches[i]| == BATCH_SIZE)
  }

  /** Batches of eight cover every sample once, in order; only the last may be shorter. */
  method RunBatches(net: Network, features: seq<Features>) returns (batches: seq<seq<Row>>)
    ensures Flatten(batches) == Rows(net, features)
    ensures |batches| == (|features| + 7) / 8
    ensures forall i :: 0 <= i < |batches| - 1 ==> |batches[i]| == 8
    ensures forall i :: 0 <= i < |batches| ==> 0 < |batches[i]| <= 8
  {
    batches := [];
    var offset := 0;
    ghost var k := 0;
    while offset < |features|
      invariant offset == BATCH_SIZE * k && k == |batches|
      invariant k > 0 ==> BATCH_SIZE * (k - 1) < |features|
      invariant Flatten(batches) == Rows(net, features[..Covered(k, |features|)])
      invariant Eights(batches, |features|)
    {
      CoveredNext(k, |features|);
      var end := BatchEnd(offset, |features|);
      var logits := Rows(net, features[offset..end]);
      RowsAppend(net, features, offset, end);
      FlattenAppend(batches, logits);
      batches := batches + [logits];
      offset := offset + BATCH_SIZE;
      k := k + 1;
    }
    BatchCount(k, |features|);
    assert features[..|features|] == features;
  }

  /** k is where the greatest entry of a row stands first. */
  ghost predicate FirstGreatest(row: Row, k: nat) {
    && k < |row|
    && (forall j :: 0 <= j < |row| ==> row[j] <= row[k])
    && (forall j :: 0 <= j < k ==> row[j] < row[k])
  }

  /** The first of the greatest entries, as numpy's argmax picks it. */
  function Argmax(row: Row): (k: nat)
    requires row != []
    ensures FirstGreatest(row, k)
  {
    if |row| == 1 then 0
    else
      var k := Argmax(row[..|row| - 1]);
      if row[|row| - 1] > row[k] then |row| - 1 else k
  }

  function Predictions(net: Network, features: seq<Features>): (p: seq<nat>)
    requires Shaped(net) && net.classes > 0
    ensures |p| == |features| && forall k <- p :: k < net.classes
    ensures forall i :: 0 <= i < |p| ==> FirstGreatest(net.logits(features[i]), p[i])
  {
    seq(|features|, i requires 0 <= i < |features| => Argmax(net.logits(features[i])))
  }

  // ---------------------------------------------------------------- accuracy

  /** numpy's == on two vectors: elementwise, or one of length one against all. */
  function Agreements(predictions: seq<nat>, labels: seq<int>): (r: Option<seq<bool>>)
    ensures r.None? <==> |predictions| != |labels| && |predictions| != 1 && |labels| != 1
    ensures r.Some? ==> |r.value| == (if |predictions| == 1 then |labels| else |predictions|)
    ensures r.Some? ==> forall i, p: nat, l: nat ::
      0 <= i < |r.value| && p == (if |predictions| == 1 then 0 else i) && l == (if |labels| == 1 then 0 else i) ==>
      (r.value[i] <==> predictions[p] == labels[l])
  {
    if |predictions| == |labels| then Some(seq(|labels|, i requires 0 <= i < |labels| => predictions[i] == labels[i]))
    else if |labels| == 1 then
      Some(seq(|predictions|, i requires 0 <= i < |predictions| => predictions[i] == labels[0]))
    else if |predictions| == 1 then Some(seq(|labels|, i requires 0 <= i < |labels| => predictions[0] == labels[i]))
    else None
  }

  function IsTrue(): (f: bool -> bool)
    ensures forall b :: f(b) == b
  {
    b => b
  }

  function Mean(s: seq<bool>): (m: real)
    requires s != []
    ensures m * |s| as real == CountIf(s, IsTrue()) as real
  {
    CountIf(s, IsTrue()) as real / |s| as real
  }

  // ---------------------------------------------------------------- the matrix

  function MaxOf(s: seq<int>, initial: int): (m: int)
    ensures m >= initial && (forall x <- s :: x <= m) && (m == initial || m in s)
  {
    if s == [] then initial
    else
      assert s == s[..|s| - 1] + [s[|s| - 1]];
      Max(MaxOf(s[..|s| - 1], initial), s[|s| - 1])
  }

  function MatrixSize(declared: int, predictions: seq<nat>, labels: seq<int>): (n: nat)
    ensures n > 0 && n >= declared
    ensures (forall p <- predictions :: p < n) && (forall l <- labels :: l < n)
    ensures n == 1 || n == declared || n - 1 in predictions || n - 1 in labels
  {
    var n := Max(declared, Max(MaxOf(predictions, 0), MaxOf(labels, 0)) + 1);
    n
  }

  /** A negative index counts from the end. */
  function Wrap(truth: int, size: nat): int {
    if truth < 0 then truth + size else truth
  }

  /** A label and the prediction for the same sample. */
  datatype Pair = Pair(truth: int, predicted: nat)

  /** zip stops at the shorter list. */
  function Zip(labels: seq<int>, predictions: seq<nat>): (z: seq<Pair>)
    ensures |z| == if |labels| < |predictions| then |labels| else |predictions|
    ensures forall i :: 0 <= i < |z| ==> z[i] == Pair(labels[i], predictions[i])
  {
    seq(if |labels| < |predictions| then |labels| else |predictions|,
        i requires 0 <= i < |labels| && i < |predictions| => Pair(labels[i], predictions[i]))
  }

  predicate InBounds(pairs: seq<Pair>, size: nat) {
    forall p <- pairs :: 0 <= p.truth + size && p.truth < size && p.predicted < size
  }

  function InRow(size: nat, r: int): Pair -> bool {
    (p: Pair) => Wrap(p.truth, size) == r
  }

  function InColumn(c: int): Pair -> bool {
    (p: Pair) => p.predicted == c
  }

  function OnDiagonal(size: nat): Pair -> bool {
    (p: Pair) => Wrap(p.truth, size) == p.predicted
  }

  function InCell(size: nat, r: int, c: int): Pair -> bool {
    (p: Pair) => Wrap(p.truth, size) == r && p.predicted == c
  }

  function CellCount(pairs: seq<Pair>, size: nat, r: int, c: int): nat {
    CountIf(pairs, InCell(size, r, c))
  }

  /** Every cell counts the pairs that index it. */
  ghost predicate Counts(m: seq<seq<nat>>, pairs: seq<Pair>, size: nat) {
    && |m| == size
    && (forall r :: 0 <= r < size ==> |m[r]| == size)
    && (forall r, c :: 0 <= r < size && 0 <= c < size ==> m[r][c] == CellCount(pairs, size, r, c))
  }

  lemma CellCountNext(pairs: seq<Pair>, size: nat, n: nat, r: int, c: int)
    requires n < |pairs|
    ensures CellCount(pairs[..n + 1], size, r, c)
         == CellCount(pairs[..n], size, r, c)
            + (if Wrap(pairs[n].truth, size) == r && pairs[n].predicted == c then 1 else 0)
  {
    assert pairs[..n + 1][..n] == pairs[..n];
  }

  /** The update loop on the matrix; a label below -size is an index error. */
  method Confusion(labels: seq<int>, predictions: seq<nat>, size: nat) returns (r: Result<seq<seq<nat>>, Error>)
    requires forall l <- labels :: l < size
    requires forall p <- predictions :: p < size
    ensures r.Ok? <==> InBounds(Zip(labels, predictions), size)
    ensures r.Ok? ==> Counts(r.value, Zip(labels, predictions), size)
    ensures r.Err? ==> r.error == IndexOutOfBounds
  {
    var pairs := Zip(labels, predictions);
    var matrix := new nat[size, size]((_, _) => 0);
    for n := 0 to |pairs|
      invariant InBounds(pairs[..n], size)
      invariant forall r, c :: 0 <= r < size && 0 <= c < size ==> matrix[r, c] == CellCount(pairs[..n], size, r, c)
    {
      var Pair(truth, predicted) := pairs[n];
      if truth + size < 0 {
        assert pairs[n] in pairs;
        return Err(IndexOutOfBounds);
      }
      assert labels[n] in labels && predictions[n] in predictions;
      forall r, c {
        CellCountNext(pairs, size, n, r, c);
      }
      var row := Wrap(truth, size);
      matrix[row, predicted] := matrix[row, predicted] + 1;
    }
    assert pairs[..|pairs|] == pairs;
    var list: seq<seq<nat>> := [];
    for k := 0 to size
      invariant |list| == k
      invariant forall r :: 0 <= r < k ==> |list[r]| == size
      invariant forall r, c :: 0 <= r < k && 0 <= c < size ==> list[r][c] == matrix[r, c]
    {
      var row := seq(size, c requires 0 <= c < size reads matrix => matrix[k, c]);
      list := list + [row];
    }
    return Ok(list);
  }

  function Is(c: int): int -> bool {
    x => x == c
  }

  /** How many predictions fall in each class. */
  function Distribution(predictions: seq<nat>, size: nat): (d: seq<nat>)
    ensures |d| == size
    ensures forall c :: 0 <= c < size ==> d[c] == CountIf(predictions, Is(c))
  {
    seq(size, c requires 0 <= c < size => CountIf(predictions, Is(c)))
  }

  // ---------------------------------------------------------------- the report

  /** What a run that raises nothing writes. */
  ghost predicate IsReport(report: Report, predictions: seq<nat>, labels: seq<int>, declared: int) {
    && report.numSamples == |labels|
    && report.numClasses == MatrixSize(declared, predictions, labels)
    && report.distribution == Distribution(predictions, report.numClasses)
    && InBounds(Zip(labels, predictions), report.numClasses)
    && Counts(report.confusion, Zip(labels, predictions), report.numClasses)
    && (labels == [] ==> report.accuracy == 0.0)
    && (labels != [] ==>
          && Agreements(predictions, labels).Some? && Agreements(predictions, labels).value != []
          && report.accuracy == Mean(Agreements(predictions, labels).value))
  }

  /** The script from inference to the report, or the first error it raises. */
  method Evaluate(net: Network, features: seq<Features>, labels: seq<int>, declared: int)
    returns (r: Result<Report, Error>)
    requires Shaped(net)
    ensures features == [] ==> r == Err(NoBatches)
    ensures features != [] && net.classes == 0 ==> r == Err(EmptyAxis)
    ensures features != [] && net.classes > 0 ==>
      var p := Predictions(net, features);
      if labels != [] && Agreements(p, labels).None? then r == Err(ShapeMismatch)
      else if !InBounds(Zip(labels, p), MatrixSize(declared, p, labels)) then r == Err(IndexOutOfBounds)
      else r.Ok? && IsReport(r.value, p, labels, declared)
    ensures r.Ok? ==> exists p: seq<nat> ::
      && |p| == |features| && IsReport(r.value, p, labels, declared)
      && forall i :: 0 <= i < |p| ==> FirstGreatest(net.logits(features[i]), p[i])
  {
    var batches := RunBatches(net, features);
    if batches == [] {
      return Err(NoBatches);
    }
    var logits := Flatten(batches);
    if net.classes == 0 {
      return Err(EmptyAxis);
    }
    var predictions: seq<nat> := seq(|logits|, i requires 0 <= i < |logits| => Argmax(logits[i]));
    assert predictions == Predictions(net, features);
    var accuracy := 0.0;
    if labels != [] {
      var agreements := Agreements(predictions, labels);
      if agreements.None? {
        return Err(ShapeMismatch);
      }
      accuracy := Mean(agreements.value);
    }
    var size := MatrixSize(declared, predictions, labels);
    var confusion := Confusion(labels, predictions, size);
    if confusion.Err? {
      return Err(confusion.error);
    }
    return Ok(Report(|labels|, size, accuracy, Distribution(predictions, size), confusion.value));
  }

  // ---------------------------------------------------------------- the metrics agree

  function Column(m: seq<seq<nat>>, c: nat): seq<nat>
    requires forall r <- m :: c < |r|
  {
    seq(|m|, r requires 0 <= r < |m| => m[r][c])
  }

  function Diagonal(m: seq<seq<nat>>): seq<nat>
    requires forall r <- m :: |r| == |m|
  {
    seq(|m|, r requires 0 <= r < |m| => m[r][r])
  }

  function RowSums(m: seq<seq<nat>>): seq<nat> {
    seq(|m|, r requires 0 <= r < |m| => Sum(m[r]))
  }

  function TruthOf(size: nat): Pair -> int {
    (p: Pair) => Wrap(p.truth, size)
  }

  function PredictedOf(): Pair -> int {
    (p: Pair) => p.predicted
  }

  lemma RowSum(m: seq<seq<nat>>, pairs: seq<Pair>, size: nat, r: nat)
    requires Counts(m, pairs, size) && InBounds(pairs, size) && r < size
    ensures Sum(m[r]) == CountIf(pairs, InRow(size, r))
  {
    forall k | 0 <= k < size ensures m[r][k] == CountIf(pairs, Keyed(InRow(size, r), PredictedOf(), k)) {
      CountSame(pairs, Keyed(InRow(size, r), PredictedOf(), k), InCell(size, r, k));
    }
    SumOfCounts(pairs, InRow(size, r), PredictedOf(), m[r]);
    CountSame(pairs, InRow(size, r), Below(InRow(size, r), PredictedOf(), size));
  }

  lemma ColumnSum(m: seq<seq<nat>>, pairs: seq<Pair>, size: nat, c: nat)
    requires Counts(m, pairs, size) && InBounds(pairs, size) && c < size
    ensures Sum(Column(m, c)) == CountIf(pairs, InColumn(c))
  {
    forall k | 0 <= k < size ensures Column(m, c)[k] == CountIf(pairs, Keyed(InColumn(c), TruthOf(size), k)) {
      CountSame(pairs, Keyed(InColumn(c), TruthOf(size), k), InCell(size, k, c));
    }
    SumOfCounts(pairs, InColumn(c), TruthOf(size), Column(m, c));
    CountSame(pairs, InColumn(c), Below(InColumn(c), TruthOf(size), size));
  }

  lemma Trace(m: seq<seq<nat>>, pairs: seq<Pair>, size: nat)
    requires Counts(m, pairs, size) && InBounds(pairs, size)
    ensures Sum(Diagonal(m)) == CountIf(pairs, OnDiagonal(size))
  {
    forall k | 0 <= k < size ensures Diagonal(m)[k] == CountIf(pairs, Keyed(OnDiagonal(size), PredictedOf(), k)) {
      CountSame(pairs, Keyed(OnDiagonal(size), PredictedOf(), k), InCell(size, k, k));
    }
    SumOfCounts(pairs, OnDiagonal(size), PredictedOf(), Diagonal(m));
    CountSame(pairs, OnDiagonal(size), Below(OnDiagonal(size), PredictedOf(), size));
  }

  function Always<T>(): T -> bool {
    x => true
  }

  /** Every pair lands in one cell: the entries add up to the number of pairs. */
  lemma Total(m: seq<seq<nat>>, pairs: seq<Pair>, size: nat)
    requires Counts(m, pairs, size) && InBounds(pairs, size)
    ensures Sum(RowSums(m)) == |pairs|
  {
    forall k | 0 <= k < size ensures RowSums(m)[k] == CountIf(pairs, Keyed(Always(), TruthOf(size), k)) {
      RowSum(m, pairs, size, k);
      CountSame(pairs, Keyed(Always(), TruthOf(size), k), InRow(size, k));
    }
    SumOfCounts(pairs, Always(), TruthOf(size), RowSums(m));
    CountAll(pairs, Below(Always(), TruthOf(size), size));
  }

  /** A condition on one side of the pairs counts on that side's list. */
  lemma {:induction false} CountProjected<T, U>(pairs: seq<T>, p: T -> bool, list: seq<U>, q: U -> bool)
    requires |pairs| == |list| && forall i :: 0 <= i < |pairs| ==> p(pairs[i]) == q(list[i])
    ensures CountIf(pairs, p) == CountIf(list, q)
  {
    if pairs != [] {
      var n := |pairs| - 1;
      CountProjected(pairs[..n], p, list[..n], q);
    }
  }

  /** The distribution counts every prediction. */
  lemma DistributionTotal(predictions: seq<nat>, size: nat)
    requires forall p <- predictions :: p < size
    ensures Sum(Distribution(predictions, size)) == |predictions|
  {
    var d := Distribution(predictions, size);
    forall k | 0 <= k < size ensures d[k] == CountIf(predictions, Keyed(Always(), p => p, k)) {
      CountSame(predictions, Keyed(Always(), p => p, k), Is(k));
    }
    SumOfCounts(predictions, Always(), p => p, d);
    CountAll(predictions, Below(Always(), p => p, size));
  }

  /** With a label for every prediction, a column adds up to its class's entry in the distribution. */
  lemma ColumnIsDistribution(report: Report, predictions: seq<nat>, labels: seq<int>, declared: int, c: nat)
    requires IsReport(report, predictions, labels, declared) && c < report.numClasses
    requires |labels| >= |predictions|
    ensures Sum(Column(report.confusion, c)) == report.distribution[c]
  {
    var pairs := Zip(labels, predictions);
    ColumnSum(report.confusion, pairs, report.numClasses, c);
    CountProjected(pairs, InColumn(c), predictions, Is(c));
  }

  function ColumnSums(m: seq<seq<nat>>): seq<nat>
    requires forall r <- m :: |r| == |m|
  {
    seq(|m|, c requires 0 <= c < |m| => Sum(Column(m, c)))
  }

  lemma TotalByColumns(m: seq<seq<nat>>, pairs: seq<Pair>, size: nat)
    requires Counts(m, pairs, size) && InBounds(pairs, size)
    ensures Sum(ColumnSums(m)) == |pairs|
  {
    forall k | 0 <= k < size ensures ColumnSums(m)[k] == CountIf(pairs, Keyed(Always(), PredictedOf(), k)) {
      ColumnSum(m, pairs, size, k);
      CountSame(pairs, Keyed(Always(), PredictedOf(), k), InColumn(k));
    }
    SumOfCounts(pairs, Always(), PredictedOf(), ColumnSums(m));
    CountAll(pairs, Below(Always(), PredictedOf(), size));
  }

  /** The column sums are the distribution exactly if there are at least as many labels as samples. */
  lemma ColumnsAreDistributionIff(report: Report, predictions: seq<nat>, labels: seq<int>, declared: int)
    requires IsReport(report, predictions, labels, declared)
    ensures ColumnSums(report.confusion) == report.distribution <==> |labels| >= |predictions|
    ensures Sum(report.distribution) == |predictions|
  {
    DistributionTotal(predictions, report.numClasses);
    TotalByColumns(report.confusion, Zip(labels, predictions), report.numClasses);
    if |labels| >= |predictions| {
      forall c | 0 <= c < report.numClasses ensures ColumnSums(report.confusion)[c] == report.distribution[c] {
        ColumnIsDistribution(report, predictions, labels, declared, c);
      }
    }
  }

  function WrapsTo(size: nat, r: int): int -> bool {
    x => x == r || x == r - size
  }

  /** A row adds up to the labels of its class among those that have a prediction, negative ones counted
      from the end. */
  lemma RowIsLabelCount(report: Report, predictions: seq<nat>, labels: seq<int>, declared: int, r: nat)
    requires IsReport(report, predictions, labels, declared) && r < report.numClasses
    ensures
      var paired := labels[..|Zip(labels, predictions)|];
      Sum(report.confusion[r]) == CountIf(paired, WrapsTo(report.numClasses, r))
  {
    var pairs := Zip(labels, predictions);
    var paired := labels[..|pairs|];
    RowSum(report.confusion, pairs, report.numClasses, r);
    forall i | 0 <= i < |pairs|
      ensures InRow(report.numClasses, r)(pairs[i]) == WrapsTo(report.numClasses, r)(paired[i])
    {
      assert pairs[i] in pairs;
    }
    CountProjected(pairs, InRow(report.numClasses, r), paired, WrapsTo(report.numClasses, r));
  }

  lemma {:induction false} CountConcat<T>(s: seq<T>, t: seq<T>, p: T -> bool)
    ensures CountIf(s + t, p) == CountIf(s, p) + CountIf(t, p)
  {
    if t == [] {
      assert s + t == s;
    } else {
      CountConcat(s, t[..|t| - 1], p);
      assert (s + t)[..|s + t| - 1] == s + t[..|t| - 1];
    }
  }

  /** One row's sum is the count of all labels exactly if no label left over is of its class. */
  lemma RowCountIff(report: Report, predictions: seq<nat>, labels: seq<int>, declared: int, n: nat, r: nat)
    requires IsReport(report, predictions, labels, declared) && r < report.numClasses
    requires n == |Zip(labels, predictions)|
    ensures
      Sum(report.confusion[r]) == CountIf(labels, WrapsTo(report.numClasses, r))
      <==> forall x <- labels[n..] :: !WrapsTo(report.numClasses, r)(x)
  {
    RowIsLabelCount(report, predictions, labels, declared, r);
    assert labels == labels[..n] + labels[n..];
    CountConcat(labels[..n], labels[n..], WrapsTo(report.numClasses, r));
    CountZeroIff(labels[n..], WrapsTo(report.numClasses, r));
  }

  /** The row sums are the counts of all labels exactly if every label without a prediction is too far
      below zero to be of any class; so always, when no label is left over. */
  lemma RowsAreLabelCountsIff(report: Report, predictions: seq<nat>, labels: seq<int>, declared: int)
    requires IsReport(report, predictions, labels, declared)
    ensures
      (forall r :: 0 <= r < report.numClasses ==>
         Sum(report.confusion[r]) == CountIf(labels, WrapsTo(report.numClasses, r)))
      <==> forall i :: |predictions| <= i < |labels| ==> labels[i] < -(report.numClasses as int)
  {
    var n := |Zip(labels, predictions)|;
    forall r | 0 <= r < report.numClasses
      ensures Sum(report.confusion[r]) == CountIf(labels, WrapsTo(report.numClasses, r)) <==>
              forall x <- labels[n..] :: !WrapsTo(report.numClasses, r)(x)
    {
      RowCountIff(report, predictions, labels, declared, n, r);
    }
    LeftOverLabels(labels, |predictions|, n, report.numClasses);
  }

  /** A label below the matrix size is of no class exactly if it is below minus that size. */
  lemma LeftOverLabels(labels: seq<int>, paired: nat, n: nat, size: nat)
    requires n == (if |labels| < paired then |labels| else paired) && forall l <- labels :: l < size
    ensures
      (forall r: nat :: r < size ==> forall x <- labels[n..] :: !WrapsTo(size, r)(x))
      <==> forall i :: paired <= i < |labels| ==> labels[i] < -(size as int)
  {
    forall i | paired <= i < |labels|
      ensures labels[i] in labels[n..]
      ensures labels[i] < -(size as int) <==> forall r: nat :: r < size ==> !WrapsTo(size, r)(labels[i])
    {
      assert labels[n..][i - n] == labels[i];
      var x := labels[i];
      assert x in labels;
      if x >= -(size as int) {
        assert WrapsTo(size, if x < 0 then x + size else x)(x);
      }
    }
  }

  function Correct(): Pair -> bool {
    (p: Pair) => p.truth == p.predicted
  }

  /** A negative label that lands on the cell of its prediction. */
  function WrapsOntoPrediction(size: nat): Pair -> bool {
    (p: Pair) => p.truth < 0 && p.truth + size == p.predicted
  }

  /** The trace is the correct predictions and the negative labels that wrap onto theirs. */
  lemma TraceIs(report: Report, predictions: seq<nat>, labels: seq<int>, declared: int)
    requires IsReport(report, predictions, labels, declared)
    ensures
      var pairs := Zip(labels, predictions);
      Sum(Diagonal(report.confusion))
      == CountIf(pairs, Correct()) + CountIf(pairs, WrapsOntoPrediction(report.numClasses))
  {
    var (pairs, size) := (Zip(labels, predictions), report.numClasses);
    Trace(report.confusion, pairs, size);
    CountSplit(pairs, Correct(), WrapsOntoPrediction(size), OnDiagonal(size));
  }

  lemma SameShare(a: nat, b: nat, n: nat)
    requires n > 0
    ensures a as real / n as real == b as real / n as real <==> a == b
  {
    assert a as real / n as real == b as real / n as real ==>
      a as real / n as real * n as real == b as real / n as real * n as real;
  }

  /** With one label a sample, accuracy is the share of correct predictions. */
  lemma AccuracyIsShareCorrect(report: Report, predictions: seq<nat>, labels: seq<int>, declared: int)
    requires IsReport(report, predictions, labels, declared) && |labels| == |predictions| > 0
    ensures report.accuracy == CountIf(Zip(labels, predictions), Correct()) as real / report.numSamples as real
  {
    var (pairs, agreements) := (Zip(labels, predictions), Agreements(predictions, labels).value);
    CountProjected(pairs, Correct(), agreements, IsTrue());
  }

  /** Accuracy is the trace over the number of samples exactly if no negative label wraps onto its
      prediction; so always, if no label is negative. */
  lemma AccuracyIsTraceIff(report: Report, predictions: seq<nat>, labels: seq<int>, declared: int)
    requires IsReport(report, predictions, labels, declared) && |labels| == |predictions|
    ensures labels != [] ==>
      (report.accuracy == Sum(Diagonal(report.confusion)) as real / report.numSamples as real
       <==> forall p <- Zip(labels, predictions) :: !(p.truth < 0 && p.truth + report.numClasses == p.predicted))
  {
    if labels != [] {
      var (pairs, wraps) := (Zip(labels, predictions), WrapsOntoPrediction(report.numClasses));
      TraceIs(report, predictions, labels, declared);
      AccuracyIsShareCorrect(report, predictions, labels, declared);
      CountZeroIff(pairs, wraps);
      SameShare(CountIf(pairs, Correct()), Sum(Diagonal(report.confusion)), |labels|);
      assert (forall p <- pairs :: !wraps(p)) <==>
        forall p <- pairs :: !(p.truth < 0 && p.truth + report.numClasses == p.predicted);
    }
  }

  lemma NoneNegative(labels: seq<int>, predictions: seq<nat>)
    requires forall l <- labels :: l >= 0
    ensures forall p <- Zip(labels, predictions) :: p.truth >= 0
  {
    forall i | 0 <= i < |Zip(labels, predictions)| ensures Zip(labels, predictions)[i].truth >= 0 {
      assert labels[i] in labels;
    }
  }

  /** With one label a sample and none negative, a row adds up to the labels of its class. */
  lemma RowsAgree(report: Report, predictions: seq<nat>, labels: seq<int>, declared: int)
    requires IsReport(report, predictions, labels, declared) && |labels| == |predictions|
    requires forall l <- labels :: l >= 0
    ensures forall r :: 0 <= r < report.numClasses ==> Sum(report.confusion[r]) == CountIf(labels, Is(r))
  {
    assert labels[..|labels|] == labels;
    forall r | 0 <= r < report.numClasses ensures Sum(report.confusion[r]) == CountIf(labels, Is(r)) {
      RowIsLabelCount(report, predictions, labels, declared, r);
      CountSame(labels, WrapsTo(report.numClasses, r), Is(r));
    }
  }

  /** With one label a sample and none negative, the separately computed metrics agree: columns are
      the distribution, rows the label counts, everything adds up to the number of samples, and the
      trace over that number is the accuracy. */
  lemma MetricsAgree(report: Report, predictions: seq<nat>, labels: seq<int>, declared: int)
    requires IsReport(report, predictions, labels, declared) && |labels| == |predictions|
    requires forall l <- labels :: l >= 0
    ensures ColumnSums(report.confusion) == report.distribution
    ensures forall r :: 0 <= r < report.numClasses ==> Sum(report.confusion[r]) == CountIf(labels, Is(r))
    ensures Sum(RowSums(report.confusion)) == report.numSamples == Sum(report.distribution)
    ensures labels != [] ==> report.accuracy == Sum(Diagonal(report.confusion)) as real / report.numSamples as real
  {
    ColumnsAreDistributionIff(report, predictions, labels, declared);
    RowsAgree(report, predictions, labels, declared);
    Total(report.confusion, Zip(labels, predictions), report.numClasses);
    NoneNegative(labels, predictions);
    AccuracyIsTraceIff(report, predictions, labels, declared);
  }
}
