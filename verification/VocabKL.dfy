/** The distillation loss over a vocabulary that is split among tensor-parallel ranks
    (recipe/gkd/megatron_kl_loss.py, the forward pass). Numbers are reals. */
module VocabKL {
  import opened TopkDivergence

  // ------------------------------------------------ one rank

  /** The contents of a two-dimensional tensor. */
  ghost predicate Shows(tensor: array2<real>, rows: seq<seq<real>>)
    reads tensor
  {
    && |rows| == tensor.Length0
    && (forall t :: 0 <= t < |rows| ==> |rows[t]| == tensor.Length1)
    && (forall t, v :: 0 <= t < |rows| && 0 <= v < tensor.Length1 ==> tensor[t, v] == rows[t][v])
  }

  ghost function ExpRows(math: Math, rows: seq<seq<real>>, max: seq<real>): (r: seq<seq<real>>)
    requires |rows| == |max|
    ensures |r| == |rows| && forall t :: 0 <= t < |r| ==> r[t] == Exps(math, rows[t], max[t])
  {
    seq(|rows|, t requires 0 <= t < |rows| => Exps(math, rows[t], max[t]))
  }

  /** The entries that the rank owns, with the probabilities read off its own columns; all others count zero. */
  function OwnTerms(math: Math, start: nat, probs: seq<real>, logps: seq<real>, indices: seq<int>): (r: seq<real>)
    requires |logps| == |indices|
    ensures |r| == |logps|
  {
    seq(|logps|, k requires 0 <= k < |logps| =>
      if start <= indices[k] < start + |probs| then Divergence(math, logps[k], probs[indices[k] - start]) else 0.0)
  }

  function Quotients(row: seq<real>, d: real): (r: seq<real>)
    requires d != 0.0
    ensures |r| == |row| && forall i :: 0 <= i < |r| ==> r[i] == row[i] / d
  {
    seq(|row|, i requires 0 <= i < |row| => row[i] / d)
  }

  ghost function QuotientRows(rows: seq<seq<real>>, sums: seq<real>): (r: seq<seq<real>>)
    requires |rows| == |sums| && forall t :: 0 <= t < |sums| ==> sums[t] != 0.0
    ensures |r| == |rows| && forall t :: 0 <= t < |r| ==> r[t] == Quotients(rows[t], sums[t])
  {
    seq(|rows|, t requires 0 <= t < |rows| => Quotients(rows[t], sums[t]))
  }

  class TensorParallelRank {
    const rank: nat
    const vocabParallelLogits: array2<real>

    constructor (rank: nat, logits: array2<real>)
      ensures this.rank == rank && vocabParallelLogits == logits
    {
      this.rank, vocabParallelLogits := rank, logits;
    }

    method LogitsMax(ghost rows: seq<seq<real>>) returns (max: seq<real>)
      requires Shows(vocabParallelLogits, rows) && vocabParallelLogits.Length1 >= 1
      ensures |max| == |rows| && forall t :: 0 <= t < |max| ==> max[t] == Max(rows[t])
    {
      var a := vocabParallelLogits;
      max := [];
      for t := 0 to a.Length0
        invariant |max| == t && forall t' :: 0 <= t' < t ==> max[t'] == Max(rows[t'])
      {
        var best := a[t, 0];
        assert rows[t][..1] == [rows[t][0]];
        for v := 1 to a.Length1
          invariant best == Max(rows[t][..v])
        {
          assert rows[t][..v + 1][..v] == rows[t][..v];
          best := Larger(best, a[t, v]);
        }
        assert rows[t][..a.Length1] == rows[t];
        max := max + [best];
      }
    }

    /** Subtracts the maxima and exponentiates, both in place. */
    method Exponentiate(math: Math, max: seq<real>, ghost rows: seq<seq<real>>)
      requires Shows(vocabParallelLogits, rows) && |max| == |rows|
      modifies vocabParallelLogits
      ensures Shows(vocabParallelLogits, ExpRows(math, rows, max))
    {
      var a := vocabParallelLogits;
      forall t, v | 0 <= t < a.Length0 && 0 <= v < a.Length1 {
        a[t, v] := a[t, v] - max[t];
      }
      assert forall t, v :: 0 <= t < a.Length0 && 0 <= v < a.Length1 ==> a[t, v] == rows[t][v] - max[t];
      forall t, v | 0 <= t < a.Length0 && 0 <= v < a.Length1 {
        a[t, v] := math.exp(a[t, v]);
      }
    }

    method RowSums(ghost rows: seq<seq<real>>) returns (sums: seq<real>)
      requires Shows(vocabParallelLogits, rows)
      ensures |sums| == |rows| && forall t :: 0 <= t < |sums| ==> sums[t] == Sum(rows[t])
    {
      var a := vocabParallelLogits;
      sums := [];
      for t := 0 to a.Length0
        invariant |sums| == t && forall t' :: 0 <= t' < t ==> sums[t'] == Sum(rows[t'])
      {
        var sum := 0.0;
        for v := 0 to a.Length1
          invariant sum == Sum(rows[t][..v])
        {
          assert rows[t][..v + 1][..v] == rows[t][..v];
          sum := sum + a[t, v];
        }
        assert rows[t][..a.Length1] == rows[t];
        sums := sums + [sum];
      }
    }

    method Divide(sums: seq<real>, ghost rows: seq<seq<real>>)
      requires Shows(vocabParallelLogits, rows) && |sums| == |rows| && forall t :: 0 <= t < |sums| ==> sums[t] != 0.0
      modifies vocabParallelLogits
      ensures Shows(vocabParallelLogits, QuotientRows(rows, sums))
    {
      var a := vocabParallelLogits;
      forall t, v | 0 <= t < a.Length0 && 0 <= v < a.Length1 {
        a[t, v] := a[t, v] / sums[t];
      }
    }

    /** Looks up the entries of one token that the rank owns, and masks the others. */
    method TokenLoss(math: Math, t: nat, logps: seq<real>, indices: seq<int>, ghost probs: seq<real>) returns (loss: real)
      requires t < vocabParallelLogits.Length0 && |probs| == vocabParallelLogits.Length1 >= 1 && |logps| == |indices|
      requires forall v :: 0 <= v < |probs| ==> vocabParallelLogits[t, v] == probs[v]
      ensures loss == Sum(OwnTerms(math, rank * vocabParallelLogits.Length1, probs, logps, indices))
    {
      var width := vocabParallelLogits.Length1;
      var start := rank * width;
      ghost var terms := OwnTerms(math, start, probs, logps, indices);
      loss := 0.0;
      for k := 0 to |logps|
        invariant loss == Sum(terms[..k])
      {
        var own := start <= indices[k] < start + width;
        var index := if own then indices[k] - start else 0;
        var prob := if own then math.exp(logps[k]) else 0.0;
        var logp := if own then logps[k] else 0.0;
        var sourceLogp := if own then math.log(TINY + vocabParallelLogits[t, index]) else 0.0;
        assert terms[..k + 1][..k] == terms[..k];
        assert prob * (logp - sourceLogp) == terms[k];
        loss := loss + prob * (logp - sourceLogp);
      }
      assert terms[..|logps|] == terms;
    }

    method PerTokenLoss(math: Math, logps: seq<seq<real>>, indices: seq<seq<int>>, ghost probs: seq<seq<real>>)
      returns (loss: seq<real>)
      requires Shows(vocabParallelLogits, probs) && vocabParallelLogits.Length1 >= 1 && |logps| == |indices| == |probs|
      requires forall t :: 0 <= t < |probs| ==> |logps[t]| == |indices[t]|
      ensures |loss| == |probs|
      ensures forall t :: 0 <= t < |probs| ==>
                loss[t] == Sum(OwnTerms(math, rank * vocabParallelLogits.Length1, probs[t], logps[t], indices[t]))
    {
      loss := [];
      for t := 0 to vocabParallelLogits.Length0
        invariant |loss| == t
        invariant forall t' :: 0 <= t' < t ==>
                    loss[t'] == Sum(OwnTerms(math, rank * vocabParallelLogits.Length1, probs[t'], logps[t'], indices[t']))
      {
        var tokenLoss := TokenLoss(math, t, logps[t], indices[t], probs[t]);
        loss := loss + [tokenLoss];
      }
    }
  }

  // ------------------------------------------------ all ranks

  /** The logits of token t over the vocabulary of the first r ranks. */
  function Joined(shards: seq<seq<seq<real>>>, t: nat, r: nat): seq<real>
    requires r <= |shards| && forall i :: 0 <= i < |shards| ==> t < |shards[i]|
  {
    if r == 0 then [] else Joined(shards, t, r - 1) + shards[r - 1][t]
  }

  predicate Split(shards: seq<seq<seq<real>>>, tokens: nat, width: nat) {
    forall i :: 0 <= i < |shards| ==> |shards[i]| == tokens && forall t :: 0 <= t < tokens ==> |shards[i][t]| == width
  }

  lemma {:induction false} JoinedLength(shards: seq<seq<seq<real>>>, tokens: nat, width: nat, t: nat, r: nat)
    requires Split(shards, tokens, width) && t < tokens && r <= |shards|
    ensures |Joined(shards, t, r)| == r * width
  {
    if r > 0 {
      JoinedLength(shards, tokens, width, t, r - 1);
      assert r * width == (r - 1) * width + width;
    }
  }

  lemma {:induction false} JoinedPrefix(shards: seq<seq<seq<real>>>, tokens: nat, width: nat, t: nat, r: nat, n: nat)
    requires Split(shards, tokens, width) && t < tokens && r <= n <= |shards|
    ensures Joined(shards, t, r) <= Joined(shards, t, n)
    decreases n
  {
    if r < n { JoinedPrefix(shards, tokens, width, t, r, n - 1); }
  }

  lemma ExpsConcat(math: Math, a: seq<real>, b: seq<real>, m: real)
    ensures Exps(math, a + b, m) == Exps(math, a, m) + Exps(math, b, m)
  {
  }

  lemma OwnProbability(math: Math, full: seq<real>, m: real, start: nat, part: seq<real>, i: nat)
    requires Usable(math) && full != []
    requires start <= i < start + |part| <= |full| && full[start..start + |part|] == part
    ensures Sum(Exps(math, full, m)) != 0.0
    ensures Quotients(Exps(math, part, m), Sum(Exps(math, full, m)))[i - start] == Softmax(math, full, m, i)
  {
    ExpsPositive(math, full, m);
    assert full[i] == full[start..start + |part|][i - start];
  }

  /** A rank adds exactly the terms of the entries whose token lies in its part of the vocabulary. */
  lemma RankAddsItsTerms(math: Math, full: seq<real>, m: real, start: nat, part: seq<real>, logps: seq<real>, indices: seq<int>)
    requires Usable(math) && full != [] && |logps| == |indices|
    requires start + |part| <= |full| && full[start..start + |part|] == part
    ensures Sum(Exps(math, full, m)) != 0.0
    ensures var probs := Quotients(Exps(math, part, m), Sum(Exps(math, full, m)));
            Sum(Terms(math, full, m, logps, indices, start + |part|))
              == Sum(Terms(math, full, m, logps, indices, start)) + Sum(OwnTerms(math, start, probs, logps, indices))
  {
    hide Sum;
    ExpsPositive(math, full, m);
    var probs := Quotients(Exps(math, part, m), Sum(Exps(math, full, m)));
    var before := Terms(math, full, m, logps, indices, start);
    var after := Terms(math, full, m, logps, indices, start + |part|);
    var own := OwnTerms(math, start, probs, logps, indices);
    forall k | 0 <= k < |logps|
      ensures after[k] == before[k] + own[k]
    {
      if start <= indices[k] < start + |part| { OwnProbability(math, full, m, start, part, indices[k]); }
    }
    SumAdds(before, own, after);
  }

  /** The ranks hold the shards of the logits, each in a tensor of its own. */
  ghost predicate Hold(ranks: seq<TensorParallelRank>, shards: seq<seq<seq<real>>>, tokens: nat, width: nat)
    reads set r | r in ranks :: r.vocabParallelLogits
  {
    && |ranks| == |shards| >= 1 && width >= 1 && Split(shards, tokens, width)
    && (forall r :: 0 <= r < |ranks| ==> Holds(ranks[r], r, shards[r], tokens, width))
    && (forall i, j :: 0 <= i < j < |ranks| ==> ranks[i].vocabParallelLogits != ranks[j].vocabParallelLogits)
  }

  ghost predicate Holds(worker: TensorParallelRank, r: nat, shard: seq<seq<real>>, tokens: nat, width: nat)
    reads worker.vocabParallelLogits
  {
    var a := worker.vocabParallelLogits;
    worker.rank == r && a.Length0 == tokens && a.Length1 == width && Shows(a, shard)
  }

  function Tensors(ranks: seq<TensorParallelRank>): set<object> { set r | r in ranks :: r.vocabParallelLogits }

  method AllReduceMax(ranks: seq<TensorParallelRank>, ghost shards: seq<seq<seq<real>>>, tokens: nat, width: nat) returns (max: seq<real>)
    requires Hold(ranks, shards, tokens, width)
    ensures |max| == tokens
    ensures forall t :: 0 <= t < tokens ==> Joined(shards, t, |shards|) != [] && max[t] == Max(Joined(shards, t, |shards|))
  {
    max := ranks[0].LogitsMax(shards[0]);
    assert forall t :: 0 <= t < tokens ==> Joined(shards, t, 0) + shards[0][t] == shards[0][t];
    assert forall t :: 0 <= t < tokens ==> Joined(shards, t, 1) == shards[0][t];
    for r := 1 to |ranks|
      invariant |max| == tokens
      invariant forall t :: 0 <= t < tokens ==> Joined(shards, t, r) != [] && max[t] == Max(Joined(shards, t, r))
    {
      assert Holds(ranks[r], r, shards[r], tokens, width);
      var own := ranks[r].LogitsMax(shards[r]);
      forall t | 0 <= t < tokens
        ensures Max(Joined(shards, t, r + 1)) == Larger(max[t], own[t])
      {
        MaxConcat(Joined(shards, t, r), shards[r][t]);
      }
      max := seq(tokens, t requires 0 <= t < tokens && |max| == |own| == tokens => Larger(max[t], own[t]));
    }
  }

  ghost function ExpShards(math: Math, shards: seq<seq<seq<real>>>, max: seq<real>): (r: seq<seq<seq<real>>>)
    requires forall i :: 0 <= i < |shards| ==> |shards[i]| == |max|
    ensures |r| == |shards| && forall i :: 0 <= i < |r| ==> r[i] == ExpRows(math, shards[i], max)
  {
    seq(|shards|, i requires 0 <= i < |shards| => ExpRows(math, shards[i], max))
  }

  /** `all_reduce` with SUM, one rank at a time. */
  function Added(a: seq<real>, b: seq<real>): (r: seq<real>)
    requires |a| == |b|
    ensures |r| == |a| && forall i :: 0 <= i < |r| ==> r[i] == a[i] + b[i]
  {
    seq(|a|, i requires 0 <= i < |a| => a[i] + b[i])
  }

  method ExpSumsOn(math: Math, ranks: seq<TensorParallelRank>, r: nat, max: seq<real>,
                   ghost shards: seq<seq<seq<real>>>, tokens: nat, width: nat)
    returns (sums: seq<real>)
    requires Hold(ranks, shards, tokens, width) && r < |ranks| && |max| == tokens
    modifies ranks[r].vocabParallelLogits
    ensures Hold(ranks, shards[r := ExpRows(math, shards[r], max)], tokens, width)
    ensures |sums| == tokens && forall t :: 0 <= t < tokens ==> sums[t] == Sum(Exps(math, shards[r][t], max[t]))
  {
    assert Holds(ranks[r], r, shards[r], tokens, width);
    ranks[r].Exponentiate(math, max, shards[r]);
    sums := ranks[r].RowSums(ExpRows(math, shards[r], max));
  }

  method AllReduceExpSums(math: Math, ranks: seq<TensorParallelRank>, max: seq<real>,
                          ghost shards: seq<seq<seq<real>>>, tokens: nat, width: nat)
    returns (sums: seq<real>)
    requires Split(shards, tokens, width) && Hold(ranks, shards, tokens, width) && |ranks| == |shards| && |max| == tokens
    modifies Tensors(ranks)
    ensures Hold(ranks, ExpShards(math, shards, max), tokens, width)
    ensures |sums| == tokens
    ensures forall t :: 0 <= t < tokens ==> sums[t] == Sum(Exps(math, Joined(shards, t, |shards|), max[t]))
  {
    hide Hold, Exps, ExpRows, Sum;
    ghost var current := shards;
    sums := seq(tokens, _ => 0.0);
    NoExps(math, max);
    for r := 0 to |ranks|
      invariant |current| == |shards| && Hold(ranks, current, tokens, width)
      invariant forall i :: 0 <= i < r ==> current[i] == ExpRows(math, shards[i], max)
      invariant forall i :: r <= i < |shards| ==> current[i] == shards[i]
      invariant |sums| == tokens
      invariant forall t :: 0 <= t < tokens ==> sums[t] == Sum(Exps(math, Joined(shards, t, r), max[t]))
    {
      var own := ExpSumsOn(math, ranks, r, max, current, tokens, width);
      current := current[r := ExpRows(math, shards[r], max)];
      forall t | 0 <= t < tokens
        ensures Sum(Exps(math, Joined(shards, t, r + 1), max[t])) == sums[t] + own[t]
      {
        ExpsConcat(math, Joined(shards, t, r), shards[r][t], max[t]);
        SumConcat(Exps(math, Joined(shards, t, r), max[t]), Exps(math, shards[r][t], max[t]));
      }
      sums := Added(sums, own);
    }
    assert current == ExpShards(math, shards, max);
  }

  lemma NoExps(math: Math, max: seq<real>)
    ensures forall t :: 0 <= t < |max| ==> Sum(Exps(math, [], max[t])) == 0.0
  {
  }

  /** The forward pass on all ranks at once: whatever the number of ranks, the sum over the ranks is
      the divergence over the whole vocabulary. */
  method Forward(math: Math, ranks: seq<TensorParallelRank>, logps: seq<seq<real>>, indices: seq<seq<int>>,
                 ghost shards: seq<seq<seq<real>>>, tokens: nat, width: nat)
    returns (loss: seq<real>)
    requires Usable(math) && Hold(ranks, shards, tokens, width)
    requires |logps| == |indices| == tokens && forall t :: 0 <= t < tokens ==> |logps[t]| == |indices[t]|
    modifies Tensors(ranks)
    ensures |loss| == tokens
    ensures forall t :: 0 <= t < tokens ==>
              var row := Joined(shards, t, |shards|);
              && row != [] && loss[t] == TopkKL(math, row, logps[t], indices[t])
              && Measures(math, row, logps[t], indices[t], loss[t])
  {
    var max := AllReduceMax(ranks, shards, tokens, width);
    var sums := AllReduceExpSums(math, ranks, max, shards, tokens, width);
    loss := AllReduceLoss(math, ranks, max, sums, logps, indices, shards, tokens, width);
    forall t | 0 <= t < tokens
      ensures loss[t] == TopkKL(math, Joined(shards, t, |shards|), logps[t], indices[t])
      ensures Measures(math, Joined(shards, t, |shards|), logps[t], indices[t], loss[t])
    {
      hide Measures, Hold, Shows;
      JoinedLength(shards, tokens, width, t, |shards|);
      DivergenceMeasures(math, Joined(shards, t, |shards|), logps[t], indices[t]);
    }
  }

  ghost predicate LossUpTo(math: Math, shards: seq<seq<seq<real>>>, logps: seq<seq<real>>, indices: seq<seq<int>>,
                           loss: seq<real>, bound: nat)
    requires Usable(math) && |logps| == |indices| == |loss|
    requires forall i :: 0 <= i < |shards| ==> |shards[i]| == |loss|
    requires forall t :: 0 <= t < |loss| ==> |logps[t]| == |indices[t]| && Joined(shards, t, |shards|) != []
  {
    forall t :: 0 <= t < |loss| ==>
      var row := Joined(shards, t, |shards|);
      loss[t] == Sum(Terms(math, row, Max(row), logps[t], indices[t], bound))
  }

  lemma {:induction false} SumOfZeros(s: seq<real>)
    requires forall i :: 0 <= i < |s| ==> s[i] == 0.0
    ensures Sum(s) == 0.0
  {
    if s != [] { SumOfZeros(s[..|s| - 1]); }
  }

  /** The part of the vocabulary that rank r holds. */
  lemma PartOfJoined(shards: seq<seq<seq<real>>>, tokens: nat, width: nat, t: nat, r: nat) returns (start: nat)
    requires Split(shards, tokens, width) && t < tokens && r < |shards|
    ensures start == r * width && (r + 1) * width == start + width && |shards[r][t]| == width
    ensures var row := Joined(shards, t, |shards|); start + width <= |row| && row[start..start + width] == shards[r][t]
  {
    start := |Joined(shards, t, r)|;
    var row, upTo := Joined(shards, t, |shards|), Joined(shards, t, r + 1);
    JoinedLength(shards, tokens, width, t, r);
    JoinedLength(shards, tokens, width, t, r + 1);
    JoinedPrefix(shards, tokens, width, t, r + 1, |shards|);
    assert (r + 1) * width == r * width + width;
    assert row[start..start + width] == upTo[start..start + width];
  }

  lemma TermsOfRank(math: Math, shards: seq<seq<seq<real>>>, tokens: nat, width: nat, t: nat, r: nat, max: seq<real>, sums: seq<real>,
                    logps: seq<real>, indices: seq<int>)
    requires Usable(math) && Split(shards, tokens, width) && width >= 1 && t < tokens && r < |shards| && |logps| == |indices|
    requires |max| == |sums| == tokens
    requires var row := Joined(shards, t, |shards|); row != [] && max[t] == Max(row) && sums[t] == Sum(Exps(math, row, max[t]))
    ensures sums[t] != 0.0
    ensures var row := Joined(shards, t, |shards|);
            Sum(Terms(math, row, Max(row), logps, indices, (r + 1) * width))
              == Sum(Terms(math, row, Max(row), logps, indices, r * width))
                 + Sum(OwnTerms(math, r * width, Quotients(Exps(math, shards[r][t], max[t]), sums[t]), logps, indices))
  {
    hide Terms, OwnTerms, Quotients, Exps, Sum, Max, Joined, Usable;
    var start := PartOfJoined(shards, tokens, width, t, r);
    RankAddsItsTerms(math, Joined(shards, t, |shards|), max[t], start, shards[r][t], logps, indices);
  }

  method LossOn(math: Math, ranks: seq<TensorParallelRank>, r: nat, sums: seq<real>, logps: seq<seq<real>>, indices: seq<seq<int>>,
                ghost shards: seq<seq<seq<real>>>, tokens: nat, width: nat)
    returns (loss: seq<real>)
    requires Hold(ranks, shards, tokens, width) && r < |ranks| && |sums| == |logps| == |indices| == tokens
    requires forall t :: 0 <= t < tokens ==> sums[t] != 0.0 && |logps[t]| == |indices[t]|
    modifies ranks[r].vocabParallelLogits
    ensures Hold(ranks, shards[r := QuotientRows(shards[r], sums)], tokens, width)
    ensures |loss| == tokens
    ensures forall t :: 0 <= t < tokens ==>
              loss[t] == Sum(OwnTerms(math, r * width, Quotients(shards[r][t], sums[t]), logps[t], indices[t]))
  {
    assert Holds(ranks[r], r, shards[r], tokens, width);
    ranks[r].Divide(sums, shards[r]);
    loss := ranks[r].PerTokenLoss(math, logps, indices, QuotientRows(shards[r], sums));
  }

  /** What the maxima and sums are at the end of the first two reductions. */
  ghost predicate Normalized(math: Math, shards: seq<seq<seq<real>>>, max: seq<real>, sums: seq<real>, tokens: nat) {
    && |max| == |sums| == tokens && (forall i :: 0 <= i < |shards| ==> |shards[i]| == tokens)
    && forall t :: 0 <= t < tokens ==>
         var row := Joined(shards, t, |shards|);
         row != [] && max[t] == Max(row) && sums[t] == Sum(Exps(math, row, max[t]))
  }

  /** The reduction goes from the first r ranks to the first r + 1. */
  lemma LossStep(math: Math, shards: seq<seq<seq<real>>>, tokens: nat, width: nat, r: nat, max: seq<real>, sums: seq<real>,
                 logps: seq<seq<real>>, indices: seq<seq<int>>, loss: seq<real>, own: seq<real>)
    requires Usable(math) && Split(shards, tokens, width) && width >= 1 && r < |shards| && Normalized(math, shards, max, sums, tokens)
    requires |logps| == |indices| == |loss| == |own| == tokens
    requires forall t :: 0 <= t < tokens ==> sums[t] != 0.0 && |logps[t]| == |indices[t]|
    requires LossUpTo(math, shards, logps, indices, loss, r * width)
    requires forall t :: 0 <= t < tokens ==>
               own[t] == Sum(OwnTerms(math, r * width, Quotients(Exps(math, shards[r][t], max[t]), sums[t]), logps[t], indices[t]))
    ensures LossUpTo(math, shards, logps, indices, Added(loss, own), (r + 1) * width)
  {
    hide Terms, OwnTerms, Quotients, Exps;
    forall t | 0 <= t < tokens
      ensures var row := Joined(shards, t, |shards|);
              Added(loss, own)[t] == Sum(Terms(math, row, Max(row), logps[t], indices[t], (r + 1) * width))
    {
      TermsOfRank(math, shards, tokens, width, t, r, max, sums, logps[t], indices[t]);
    }
  }

  lemma NoLoss(math: Math, shards: seq<seq<seq<real>>>, tokens: nat, logps: seq<seq<real>>, indices: seq<seq<int>>, loss: seq<real>)
    requires Usable(math) && |logps| == |indices| == |loss| == tokens
    requires forall i :: 0 <= i < |shards| ==> |shards[i]| == tokens
    requires forall t :: 0 <= t < tokens ==> |logps[t]| == |indices[t]| && Joined(shards, t, |shards|) != [] && loss[t] == 0.0
    ensures LossUpTo(math, shards, logps, indices, loss, 0)
  {
    forall t | 0 <= t < tokens
      ensures var row := Joined(shards, t, |shards|); Sum(Terms(math, row, Max(row), logps[t], indices[t], 0)) == 0.0
    {
      var row := Joined(shards, t, |shards|);
      SumOfZeros(Terms(math, row, Max(row), logps[t], indices[t], 0));
    }
  }

  method AllReduceLoss(math: Math, ranks: seq<TensorParallelRank>, max: seq<real>, sums: seq<real>,
                       logps: seq<seq<real>>, indices: seq<seq<int>>,
                       ghost shards: seq<seq<seq<real>>>, tokens: nat, width: nat)
    returns (loss: seq<real>)
    requires Usable(math) && Split(shards, tokens, width) && width >= 1 && Normalized(math, shards, max, sums, tokens)
    requires |ranks| == |shards| && |logps| == |indices| == tokens && forall t :: 0 <= t < tokens ==> |logps[t]| == |indices[t]|
    requires Hold(ranks, ExpShards(math, shards, max), tokens, width)
    modifies Tensors(ranks)
    ensures |loss| == tokens && LossUpTo(math, shards, logps, indices, loss, |shards| * width)
  {
    hide Hold, LossUpTo, Exps, Sum, OwnTerms, Quotients;
    loss := seq(tokens, _ => 0.0);
    NoLoss(math, shards, tokens, logps, indices, loss);
    forall t | 0 <= t < tokens
      ensures sums[t] != 0.0
    {
      ExpsPositive(math, Joined(shards, t, |shards|), max[t]);
    }
    ghost var current := ExpShards(math, shards, max);
    for r := 0 to |ranks|
      invariant |current| == |shards| && Hold(ranks, current, tokens, width)
      invariant forall i :: r <= i < |shards| ==> current[i] == ExpRows(math, shards[i], max)
      invariant |loss| == tokens && LossUpTo(math, shards, logps, indices, loss, r * width)
    {
      var own := LossOn(math, ranks, r, sums, logps, indices, current, tokens, width);
      LossStep(math, shards, tokens, width, r, max, sums, logps, indices, loss, own);
      current := current[r := QuotientRows(current[r], sums)];
      loss := Added(loss, own);
    }
  }
}
