/** Collecting the teacher's knowledge of a batch (recipe/gkd/teacher_utils.py): requests in
    micro-batches, the answers put back in order, and spread over padded buffers that all calls share. */
module TeacherKnowledge {
  import opened Arith
  import opened Options

  /** The answer for one sequence: for each token the top-k log-probabilities and their indices. */
  datatype Answer<L, I> = Answer(topk: nat, logpType: Dtype, indexType: Dtype, logps: seq<L>, indices: seq<I>)

  type Dtype = nat

  /** The answers to one micro-batch, or a failed request. */
  datatype Future<L, I> = Future(answers: seq<Answer<L, I>>, failed: bool)

  // ------------------------------------------------ masks

  /** How many positions of the mask are set before j. */
  function Rank(mask: seq<bool>, j: nat): (r: nat)
    requires j <= |mask|
    ensures r <= j
  {
    if j == 0 then 0 else Rank(mask, j - 1) + if mask[j - 1] then 1 else 0
  }

  function Count(mask: seq<bool>): nat { Rank(mask, |mask|) }

  /** The positions of the tokens. */
  ghost function Tokens(mask: seq<bool>): set<nat> { set j: nat | j < |mask| && mask[j] }

  lemma {:induction false} CountsTokens(mask: seq<bool>)
    ensures Count(mask) == |Tokens(mask)|
  {
    if mask == [] {
      assert Tokens(mask) == {};
    } else {
      var n := |mask| - 1;
      CountsTokens(mask[..n]);
      RankOfPrefix(mask, n, n);
      assert Tokens(mask) == Tokens(mask[..n]) + (if mask[n] then {n} else {});
    }
  }

  /** `row[mask]`: the cells at the positions that are set. */
  function Gather<V>(row: seq<V>, mask: seq<bool>): (r: seq<V>)
    requires |row| == |mask|
  {
    if mask == [] then []
    else
      var n := |mask| - 1;
      Gather(row[..n], mask[..n]) + if mask[n] then [row[n]] else []
  }

  /** `zeros[mask] = row`. */
  function Scattered<V>(mask: seq<bool>, row: seq<V>, zero: V): (r: seq<V>)
    requires |row| == Count(mask)
    ensures |r| == |mask|
  {
    seq(|mask|, j requires 0 <= j < |mask| => Cell(mask, row, zero, j))
  }

  function Cell<V>(mask: seq<bool>, row: seq<V>, zero: V, j: nat): V
    requires j < |mask| && |row| == Count(mask)
  {
    if mask[j] then (RankBelow(mask, j); row[Rank(mask, j)]) else zero
  }

  lemma {:induction false} RankGrows(mask: seq<bool>, i: nat, j: nat)
    requires i <= j <= |mask|
    ensures Rank(mask, i) <= Rank(mask, j)
    decreases j
  {
    if i < j { RankGrows(mask, i, j - 1); }
  }

  lemma RankBelow(mask: seq<bool>, j: nat)
    requires j < |mask| && mask[j]
    ensures Rank(mask, j) < Count(mask)
  {
    RankGrows(mask, j + 1, |mask|);
  }

  lemma {:induction false} RankOfPrefix(mask: seq<bool>, n: nat, j: nat)
    requires j <= n <= |mask|
    ensures Rank(mask[..n], j) == Rank(mask, j)
  {
    if j > 0 { RankOfPrefix(mask, n, j - 1); }
  }

  /** Gathering keeps the cells in order: the cell at a set position j becomes number Rank(j). */
  lemma {:induction false} GatherAt<V>(row: seq<V>, mask: seq<bool>)
    requires |row| == |mask|
    ensures |Gather(row, mask)| == Count(mask)
    ensures forall j :: 0 <= j < |mask| && mask[j] ==> Rank(mask, j) < Count(mask) && Gather(row, mask)[Rank(mask, j)] == row[j]
  {
    if mask != [] {
      var n := |mask| - 1;
      GatherAt(row[..n], mask[..n]);
      RankOfPrefix(mask, n, n);
      forall j | 0 <= j < |mask| && mask[j]
        ensures Rank(mask, j) < Count(mask) && Gather(row, mask)[Rank(mask, j)] == row[j]
      {
        RankBelow(mask, j);
        if j < n {
          RankOfPrefix(mask, n, j);
          assert mask[..n][j];
          assert row[..n][j] == row[j];
        }
      }
    }
  }

  /** Reading back with the mask what was spread by the mask yields the teacher's rows. */
  lemma {:induction false} GatherScattered<V>(mask: seq<bool>, row: seq<V>, zero: V)
    requires |row| == Count(mask)
    ensures Gather(Scattered(mask, row, zero), mask) == row
  {
    var spread := Scattered(mask, row, zero);
    GatherAt(spread, mask);
    forall k | 0 <= k < |row|
      ensures Gather(spread, mask)[k] == row[k]
    {
      var j := Position(mask, k);
      assert spread[j] == row[k];
    }
  }

  /** Where the k-th set position of the mask is. */
  lemma {:induction false} Position(mask: seq<bool>, k: nat) returns (j: nat)
    requires k < Count(mask)
    ensures j < |mask| && mask[j] && Rank(mask, j) == k
  {
    j := PositionBefore(mask, k, |mask|);
  }

  lemma {:induction false} PositionBefore(mask: seq<bool>, k: nat, n: nat) returns (j: nat)
    requires n <= |mask| && k < Rank(mask, n)
    ensures j < n && mask[j] && Rank(mask, j) == k
    decreases n
  {
    if mask[n - 1] && Rank(mask, n - 1) == k {
      j := n - 1;
    } else {
      j := PositionBefore(mask, k, n - 1);
    }
  }

  // ------------------------------------------------ the shared buffers

  /** The padded rows: the teacher's cells at the tokens, in order, and zeros everywhere else. */
  ghost predicate Padded<V>(tensor: array2<V>, masks: seq<seq<bool>>, rows: seq<seq<V>>, zero: V, n: nat)
    requires n <= |masks| == |rows| == tensor.Length0
    requires forall i :: 0 <= i < |masks| ==> |masks[i]| == tensor.Length1 && |rows[i]| == Count(masks[i])
    reads tensor
  {
    && (forall i, j :: 0 <= i < n && 0 <= j < tensor.Length1 ==> tensor[i, j] == Scattered(masks[i], rows[i], zero)[j])
    && (forall i, j :: n <= i < tensor.Length0 && 0 <= j < tensor.Length1 ==> tensor[i, j] == zero)
  }

  /** Reading row i of a padded tensor with its mask yields that row; everything else in it is zero. */
  lemma PaddedRow<V>(tensor: array2<V>, masks: seq<seq<bool>>, rows: seq<seq<V>>, zero: V, i: nat)
    requires i < |masks| == |rows| == tensor.Length0
    requires forall i :: 0 <= i < |masks| ==> |masks[i]| == tensor.Length1 && |rows[i]| == Count(masks[i])
    requires Padded(tensor, masks, rows, zero, |masks|)
    ensures var row := seq(tensor.Length1, j requires 0 <= j < tensor.Length1 reads tensor => tensor[i, j]);
            Gather(row, masks[i]) == rows[i] && forall j :: 0 <= j < tensor.Length1 && !masks[i][j] ==> row[j] == zero
  {
    var row := seq(tensor.Length1, j requires 0 <= j < tensor.Length1 reads tensor => tensor[i, j]);
    assert row == Scattered(masks[i], rows[i], zero);
    GatherScattered(masks[i], rows[i], zero);
  }

  /** One of the two module-level padded tensors; a cell is a vector of topk numbers. */
  class PaddedBuffer<V> {
    const zero: nat -> V
    var tensor: array2?<V>
    var topk: nat
    var dtype: Dtype

    constructor (zero: nat -> V)
      ensures tensor == null && this.zero == zero
    {
      this.zero, tensor, topk, dtype := zero, null, 0, 0;
    }

    ghost function Footprint(): set<object>
      reads this
    {
      if tensor == null then {this} else {this, tensor}
    }

    predicate Fits(rows: nat, cols: nat, k: nat, dtype: Dtype)
      reads this
    {
      tensor != null && this.dtype == dtype && tensor.Length0 == rows && tensor.Length1 == cols && topk == k
    }

    /** The tensor of the last call if it has the right type and shape, and a new one otherwise; all zero. */
    method Prepare(rows: nat, cols: nat, k: nat, dtype: Dtype)
      modifies Footprint()
      ensures Fits(rows, cols, k, dtype)
      ensures if old(Fits(rows, cols, k, dtype)) then tensor == old(tensor) else fresh(tensor)
      ensures forall i, j :: 0 <= i < rows && 0 <= j < cols ==> tensor[i, j] == zero(k)
    {
      var z := zero(k);
      if Fits(rows, cols, k, dtype) {
        var t := tensor;
        forall i, j | 0 <= i < t.Length0 && 0 <= j < t.Length1 {
          t[i, j] := z;
        }
      } else {
        tensor, topk, this.dtype := new V[rows, cols]((i, j) => z), k, dtype;
      }
    }

    /** `tensor[i][mask] = row` on a row that is still zero; the rows before it are done. */
    method ScatterRow(i: nat, mask: seq<bool>, row: seq<V>, ghost masks: seq<seq<bool>>, ghost rows: seq<seq<V>>)
      requires tensor != null && i < |masks| == |rows| == tensor.Length0 && mask == masks[i] && row == rows[i]
      requires forall i :: 0 <= i < |masks| ==> |masks[i]| == tensor.Length1 && |rows[i]| == Count(masks[i])
      requires Padded(tensor, masks, rows, zero(topk), i)
      modifies tensor
      ensures Padded(tensor, masks, rows, zero(topk), i + 1)
    {
      var j, k := 0, 0;
      while j < |mask|
        invariant j <= |mask| && k == Rank(mask, j)
        invariant forall j' :: 0 <= j' < j ==> tensor[i, j'] == Cell(mask, row, zero(topk), j')
        invariant forall j' :: j <= j' < |mask| ==> tensor[i, j'] == zero(topk)
        invariant forall i', j' :: 0 <= i' < tensor.Length0 && 0 <= j' < tensor.Length1 && i' != i ==>
                                     tensor[i', j'] == old(tensor[i', j'])
      {
        if mask[j] {
          RankBelow(mask, j);
          tensor[i, j] := row[k];
          k := k + 1;
        }
        j := j + 1;
      }
    }
  }

  // ------------------------------------------------ requests

  /** The answers of all micro-batches, one after the other. */
  function Collected<L, I>(futures: seq<Future<L, I>>): seq<Answer<L, I>> {
    if futures == [] then []
    else Collected(futures[..|futures| - 1]) + futures[|futures| - 1].answers
  }

  predicate NoneFailed<L, I>(futures: seq<Future<L, I>>) { forall k :: 0 <= k < |futures| ==> !futures[k].failed }

  /** What the teacher is expected to send for a batch: for every row as many cells as tokens. */
  predicate Answered<L, I>(answers: seq<Answer<L, I>>, masks: seq<seq<bool>>) {
    && |answers| == |masks| > 0
    && forall i :: 0 <= i < |masks| ==> |answers[i].logps| == |answers[i].indices| == Count(masks[i])
  }

  function Lengths<L, I>(answers: seq<Answer<L, I>>): seq<nat> {
    seq(|answers|, i requires 0 <= i < |answers| => |answers[i].logps|)
  }

  lemma LengthsCountTokens<L, I>(answers: seq<Answer<L, I>>, masks: seq<seq<bool>>)
    requires Answered(answers, masks)
    ensures forall i :: 0 <= i < |masks| ==> Lengths(answers)[i] == |Tokens(masks[i])|
  {
    forall i | 0 <= i < |masks|
      ensures Lengths(answers)[i] == |Tokens(masks[i])|
    {
      CountsTokens(masks[i]);
    }
  }

  function LogpsOf<L, I>(answers: seq<Answer<L, I>>): (r: seq<seq<L>>)
    ensures |r| == |answers| && forall i :: 0 <= i < |r| ==> r[i] == answers[i].logps
  {
    seq(|answers|, i requires 0 <= i < |answers| => answers[i].logps)
  }

  function IndicesOf<L, I>(answers: seq<Answer<L, I>>): (r: seq<seq<I>>)
    ensures |r| == |answers| && forall i :: 0 <= i < |r| ==> r[i] == answers[i].indices
  {
    seq(|answers|, i requires 0 <= i < |answers| => answers[i].indices)
  }

  lemma NothingScattered<V>(tensor: array2<V>, masks: seq<seq<bool>>, rows: seq<seq<V>>, zero: V)
    requires |masks| == |rows| == tensor.Length0
    requires forall i :: 0 <= i < |masks| ==> |masks[i]| == tensor.Length1 && |rows[i]| == Count(masks[i])
    requires forall i, j :: 0 <= i < tensor.Length0 && 0 <= j < tensor.Length1 ==> tensor[i, j] == zero
    ensures Padded(tensor, masks, rows, zero, 0)
  {
  }

  /** The output batch; its two tensors are the shared buffers themselves. */
  datatype Output<!L, !I> = Output(realSeqLens: seq<nat>, logps: array2<L>, indices: array2<I>)

  /** The rows of the batch, one after the other, into both buffers. `answers` is the part of
      `allAnswers` that is used. */
  method Scatter<L, I>(logps: PaddedBuffer<L>, indices: PaddedBuffer<I>, masks: seq<seq<bool>>,
                       allAnswers: seq<Answer<L, I>>, ghost answers: seq<Answer<L, I>>)
    requires answers <= allAnswers && Answered(answers, masks) && logps.tensor != null && indices.tensor != null
    requires logps.Footprint() !! indices.Footprint()
    requires |masks| == logps.tensor.Length0 == indices.tensor.Length0
    requires forall i :: 0 <= i < |masks| ==> |masks[i]| == logps.tensor.Length1 == indices.tensor.Length1
    requires Padded(logps.tensor, masks, LogpsOf(answers), logps.zero(logps.topk), 0)
    requires Padded(indices.tensor, masks, IndicesOf(answers), indices.zero(indices.topk), 0)
    modifies logps.tensor, indices.tensor
    ensures Padded(logps.tensor, masks, LogpsOf(answers), logps.zero(logps.topk), |masks|)
    ensures Padded(indices.tensor, masks, IndicesOf(answers), indices.zero(indices.topk), |masks|)
  {
    hide Padded;
    var i := 0;
    while i < |masks|
      invariant i <= |masks|
      invariant Padded(logps.tensor, masks, LogpsOf(answers), logps.zero(logps.topk), i)
      invariant Padded(indices.tensor, masks, IndicesOf(answers), indices.zero(indices.topk), i)
    {
      assert allAnswers[i] == answers[i];
      logps.ScatterRow(i, masks[i], allAnswers[i].logps, masks, LogpsOf(answers));
      indices.ScatterRow(i, masks[i], allAnswers[i].indices, masks, IndicesOf(answers));
      i := i + 1;
    }
  }

  /** What an asynchronous call returns: its `Get` is `handle_futures`. */
  class TeacherRequest<L, I> {
    const masks: seq<seq<bool>>
    const cols: nat
    const futures: seq<Future<L, I>>
    var allAnswers: seq<Answer<L, I>>
    ghost var gets: nat

    /** The lists that collect the answers belong to the request: each further call appends to them. */
    ghost predicate Valid()
      reads this
    {
      && (forall i :: 0 <= i < |masks| ==> |masks[i]| == cols)
      && (NoneFailed(futures) ==> Answered(Collected(futures), masks))
      && (NoneFailed(futures) ==> |allAnswers| == gets * |Collected(futures)|)
      && (NoneFailed(futures) && gets > 0 ==> Collected(futures) <= allAnswers)
      && (gets == 0 ==> allAnswers == [])
    }

    constructor (masks: seq<seq<bool>>, cols: nat, futures: seq<Future<L, I>>)
      requires forall i :: 0 <= i < |masks| ==> |masks[i]| == cols
      requires NoneFailed(futures) ==> Answered(Collected(futures), masks)
      ensures Valid() && this.masks == masks && this.cols == cols && this.futures == futures && gets == 0
    {
      this.masks, this.cols, this.futures := masks, cols, futures;
      allAnswers, gets := [], 0;
    }

    /** Waits for all the requests; the exception of a failed one is the result false. */
    method Collect() returns (ok: bool)
      requires Valid()
      modifies this
      ensures ok <==> NoneFailed(futures)
      ensures ok ==> Valid() && gets == old(gets) + 1 && Collected(futures) <= allAnswers
      ensures ok && old(gets) == 0 ==> allAnswers == Collected(futures)
    {
      hide Answered;
      ghost var before := allAnswers;
      assert before + [] == before;
      var f := 0;
      while f < |futures|
        invariant f <= |futures| && allAnswers == before + Collected(futures[..f])
        invariant NoneFailed(futures[..f]) && gets == old(gets)
      {
        if futures[f].failed { return false; }
        assert futures[..f + 1][..f] == futures[..f];
        allAnswers := allAnswers + futures[f].answers;
        f := f + 1;
      }
      assert futures[..f] == futures;
      ghost var answers := Collected(futures);
      gets := gets + 1;
      OneMore(old(gets), |answers|);
      assert before == [] ==> allAnswers == answers;
      assert answers <= before ==> answers <= allAnswers;
      return true;
    }

    /** None: a request failed, and the exception leaves the buffers alone. Otherwise every row of the
        buffers holds that row's own answer. The buffers are reused whenever type and shape fit: the
        previous output then shows the new rows. Only on the first call are there as many lengths as
        rows. */
    method Get(logps: PaddedBuffer<L>, indices: PaddedBuffer<I>) returns (r: Option<Output<L, I>>)
      requires Valid() && {this} !! logps.Footprint() !! indices.Footprint()
      modifies this, logps.Footprint(), indices.Footprint()
      ensures r.Some? <==> NoneFailed(futures)
      ensures r.None? ==> unchanged(old(logps.Footprint())) && unchanged(old(indices.Footprint()))
      ensures r.Some? ==>
                var answers := Collected(futures);
                var k, lt, it := answers[0].topk, answers[0].logpType, answers[0].indexType;
                && Valid() && gets == old(gets) + 1
                && |r.value.realSeqLens| == gets * |masks|
                && (forall i :: 0 <= i < |masks| ==> r.value.realSeqLens[i] == |Tokens(masks[i])|)
                && logps.tensor == r.value.logps && indices.tensor == r.value.indices
                && (if old(logps.Fits(|masks|, cols, k, lt)) then r.value.logps == old(logps.tensor) else fresh(r.value.logps))
                && (if old(indices.Fits(|masks|, cols, k, it)) then r.value.indices == old(indices.tensor) else fresh(r.value.indices))
                && logps.Fits(|masks|, cols, k, lt) && indices.Fits(|masks|, cols, k, it)
                && Padded(r.value.logps, masks, LogpsOf(answers), logps.zero(k), |masks|)
                && Padded(r.value.indices, masks, IndicesOf(answers), indices.zero(k), |masks|)
    {
      hide Collected, Padded, NoneFailed;
      var ok := Collect();
      if !ok { return None; }
      ghost var answers := Collected(futures);
      var lengths := Lengths(allAnswers);
      var k := allAnswers[0].topk;
      logps.Prepare(|masks|, cols, k, allAnswers[0].logpType);
      indices.Prepare(|masks|, cols, k, allAnswers[0].indexType);
      NothingScattered(logps.tensor, masks, LogpsOf(answers), logps.zero(k));
      NothingScattered(indices.tensor, masks, IndicesOf(answers), indices.zero(k));
      Scatter(logps, indices, masks, allAnswers, answers);
      LengthsCountTokens(answers, masks);
      assert forall i :: 0 <= i < |masks| ==> lengths[i] == Lengths(answers)[i];
      r := Some(Output(lengths, logps.tensor, indices.tensor));
    }
  }

  /** What is asked of the teacher: the token ids of the rows without their padding. */
  function Inputs(ids: seq<seq<int>>, masks: seq<seq<bool>>): (r: seq<seq<int>>)
    requires |ids| == |masks| && forall i :: 0 <= i < |ids| ==> |ids[i]| == |masks[i]|
    ensures |r| == |ids|
  {
    seq(|ids|, i requires 0 <= i < |ids| => Gather(ids[i], masks[i]))
  }

  function AnswersTo<L, I>(teacher: seq<int> -> Answer<L, I>, inputs: seq<seq<int>>): (r: seq<Answer<L, I>>)
    ensures |r| == |inputs|
  {
    seq(|inputs|, i requires 0 <= i < |inputs| => teacher(inputs[i]))
  }

  /** None: the batch does not divide evenly among the servers' workers, or is empty. Otherwise one
      request is made for each worker, and together their answers are those to the rows in order. */
  method GetTeacherKnowledge<L, I>(ids: seq<seq<int>>, masks: seq<seq<bool>>, cols: nat, nServerWorkers: nat,
                                   teacher: seq<int> -> Answer<L, I>, fails: nat -> bool)
    returns (r: Option<TeacherRequest<L, I>>)
    requires |ids| == |masks| && forall i :: 0 <= i < |ids| ==> |ids[i]| == |masks[i]| == cols
    requires forall input :: |teacher(input).logps| == |teacher(input).indices| == |input|
    ensures r.None? <==> nServerWorkers == 0 || |ids| % nServerWorkers != 0 || |ids| == 0
    ensures r.Some? ==>
              && fresh(r.value) && r.value.Valid() && r.value.masks == masks && r.value.cols == cols && r.value.gets == 0
              && |r.value.futures| == nServerWorkers
              && (forall k :: 0 <= k < nServerWorkers ==> r.value.futures[k].failed == fails(k))
              && (forall k :: 0 <= k < nServerWorkers ==> |r.value.futures[k].answers| == |ids| / nServerWorkers)
              && Collected(r.value.futures) == AnswersTo(teacher, Inputs(ids, masks))
  {
    var inputs := Inputs(ids, masks);
    var batchSize := |inputs|;
    if nServerWorkers == 0 || batchSize % nServerWorkers != 0 || batchSize == 0 { return None; }
    var micro := batchSize / nServerWorkers;
    assert batchSize == nServerWorkers * micro;
    var futures: seq<Future<L, I>>, i := [], 0;
    while i < batchSize
      invariant |futures| <= nServerWorkers && i == micro * |futures|
      invariant forall k :: 0 <= k < |futures| ==> futures[k].failed == fails(k) && |futures[k].answers| == micro
      invariant i <= batchSize && Collected(futures) == AnswersTo(teacher, inputs[..i])
    {
      NextMicroBatch(micro, |futures|, nServerWorkers);
      var future := Future(AnswersTo(teacher, inputs[i..i + micro]), fails(|futures|));
      assert (futures + [future])[..|futures|] == futures;
      assert AnswersTo(teacher, inputs[..i + micro]) == AnswersTo(teacher, inputs[..i]) + AnswersTo(teacher, inputs[i..i + micro]);
      futures, i := futures + [future], i + micro;
    }
    CancelEqual(micro, |futures|, nServerWorkers);
    assert inputs[..batchSize] == inputs;
    forall i | 0 <= i < |masks|
      ensures |inputs[i]| == Count(masks[i])
    {
      GatherAt(ids[i], masks[i]);
    }
    var request := new TeacherRequest(masks, cols, futures);
    r := Some(request);
  }

  lemma OneMore(a: nat, b: nat)
    ensures (a + 1) * b == a * b + b
  {
  }

  lemma NextMicroBatch(micro: nat, k: nat, n: nat)
    requires micro * k < n * micro
    ensures k < n && micro >= 1 && micro * k + micro == micro * (k + 1) <= n * micro
  {
    CancelFactor(micro, k, n);
    Scale(micro, k + 1, n);
  }

  lemma CancelEqual(micro: nat, k: nat, n: nat)
    requires micro >= 1 && micro * k == n * micro
    ensures k == n
  {
    if k < n { Scale(micro, k + 1, n); }
    if n < k { Scale(micro, n + 1, k); }
  }
}
