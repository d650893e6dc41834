/** What the distillation loss measures: the divergence of the student's distribution from the
    teacher's top-k entries, by its definition over the whole vocabulary, and the laws that make it a
    loss (recipe/gkd/megatron_kl_loss.py:107-112). Numbers are reals. */
module TopkDivergence {

  /** The two transcendental functions; all that is used of them is that `exp` is positive. */
  datatype Math = Math(exp: real -> real, log: real -> real)

  ghost predicate Usable(math: Math) { forall x :: math.exp(x) > 0.0 }

  const TINY: real := 0.00000000000000000001

  // ------------------------------------------------ sums and maxima

  function Sum(s: seq<real>): real {
    if s == [] then 0.0 else Sum(s[..|s| - 1]) + s[|s| - 1]
  }

  function Larger(x: real, y: real): real { if x < y then y else x }

  function Max(s: seq<real>): real
    requires s != []
  {
    if |s| == 1 then s[0] else Larger(Max(s[..|s| - 1]), s[|s| - 1])
  }

  lemma {:induction false} SumConcat(a: seq<real>, b: seq<real>)
    ensures Sum(a + b) == Sum(a) + Sum(b)
  {
    if b == [] {
      assert a + b == a;
    } else {
      assert (a + b)[..|a + b| - 1] == a + b[..|b| - 1];
      SumConcat(a, b[..|b| - 1]);
    }
  }

  lemma {:induction false} MaxConcat(a: seq<real>, b: seq<real>)
    requires a != [] && b != []
    ensures Max(a + b) == Larger(Max(a), Max(b))
  {
    assert (a + b)[..|a + b| - 1] == a + b[..|b| - 1];
    if |b| > 1 {
      MaxConcat(a, b[..|b| - 1]);
    } else {
      assert a + b[..0] == a;
    }
  }

  lemma {:induction false} SumPositive(s: seq<real>)
    requires s != [] && forall i :: 0 <= i < |s| ==> s[i] > 0.0
    ensures Sum(s) > 0.0
  {
    if |s| > 1 { SumPositive(s[..|s| - 1]); }
  }

  lemma {:induction false} SumAdds(a: seq<real>, b: seq<real>, c: seq<real>)
    requires |a| == |b| == |c| && forall i :: 0 <= i < |a| ==> c[i] == a[i] + b[i]
    ensures Sum(c) == Sum(a) + Sum(b)
  {
    if a != [] {
      var n := |a| - 1;
      SumAdds(a[..n], b[..n], c[..n]);
    }
  }

  // ------------------------------------------------ the loss over the whole vocabulary

  function Exps(math: Math, row: seq<real>, m: real): (r: seq<real>)
    ensures |r| == |row| && forall i :: 0 <= i < |r| ==> r[i] == math.exp(row[i] - m)
  {
    seq(|row|, i requires 0 <= i < |row| => math.exp(row[i] - m))
  }

  lemma ExpsPositive(math: Math, row: seq<real>, m: real)
    requires Usable(math) && row != []
    ensures Sum(Exps(math, row, m)) > 0.0
  {
    SumPositive(Exps(math, row, m));
  }

  /** The student's probability of token i, computed with the logits shifted by m. */
  function Softmax(math: Math, row: seq<real>, m: real, i: nat): real
    requires Usable(math) && i < |row|
  {
    ExpsPositive(math, row, m);
    math.exp(row[i] - m) / Sum(Exps(math, row, m))
  }

  /** What one of the teacher's top-k entries contributes if the student gives its token probability q. */
  function Divergence(math: Math, logp: real, q: real): real {
    math.exp(logp) * (logp - math.log(TINY + q))
  }

  function Term(math: Math, row: seq<real>, m: real, logp: real, index: int): real
    requires Usable(math)
  {
    if 0 <= index < |row| then Divergence(math, logp, Softmax(math, row, m, index)) else 0.0
  }

  /** The terms of the entries whose token is among the first `bound`. */
  function Terms(math: Math, row: seq<real>, m: real, logps: seq<real>, indices: seq<int>, bound: nat): (r: seq<real>)
    requires Usable(math) && |logps| == |indices|
    ensures |r| == |logps|
  {
    seq(|logps|, k requires 0 <= k < |logps| => if indices[k] < bound then Term(math, row, m, logps[k], indices[k]) else 0.0)
  }

  /** The top-k divergence of one token's distribution, by its definition. */
  function TopkKL(math: Math, row: seq<real>, logps: seq<real>, indices: seq<int>): real
    requires Usable(math) && |logps| == |indices| && row != []
  {
    Sum(Terms(math, row, Max(row), logps, indices, |row|))
  }

  ghost predicate Multiplies(math: Math, x: real, y: real) { math.exp(x + y) == math.exp(x) * math.exp(y) }

  /** Which shift is used does not matter, if `exp` turns sums into products. */
  lemma ShiftInvariant(math: Math, row: seq<real>, m: real, i: nat)
    requires Usable(math) && i < |row|
    requires forall x, y :: Multiplies(math, x, y)
    ensures Softmax(math, row, m, i) == Softmax(math, row, 0.0, i)
  {
    SumScales(math, row, m);
    ExpsPositive(math, row, m);
    ExpShift(math, row[i], m);
    SameQuotient(math.exp(row[i] - m), Sum(Exps(math, row, m)), math.exp(m));
  }

  lemma ExpShift(math: Math, x: real, m: real)
    requires forall x, y :: Multiplies(math, x, y)
    ensures math.exp(x - 0.0) == math.exp(x - m) * math.exp(m)
  {
    assert Multiplies(math, x - m, m);
    assert (x - m) + m == x - 0.0;
  }

  lemma ExpsPrefix(math: Math, row: seq<real>, m: real)
    requires row != []
    ensures Exps(math, row, m)[..|row| - 1] == Exps(math, row[..|row| - 1], m)
  {
  }

  lemma {:induction false} SumScales(math: Math, row: seq<real>, m: real)
    requires forall x, y :: Multiplies(math, x, y)
    ensures Sum(Exps(math, row, 0.0)) == Sum(Exps(math, row, m)) * math.exp(m)
  {
    if row != [] {
      var n := |row| - 1;
      SumScales(math, row[..n], m);
      ExpsPrefix(math, row, 0.0);
      ExpsPrefix(math, row, m);
      ExpShift(math, row[n], m);
      Distribute(Sum(Exps(math, row[..n], m)), math.exp(row[n] - m), math.exp(m));
    }
  }

  lemma Distribute(a: real, b: real, c: real)
    ensures (a + b) * c == a * c + b * c
  {
  }

  lemma SameQuotient(a: real, b: real, c: real)
    requires b > 0.0 && c > 0.0
    ensures b * c != 0.0 && (a * c) / (b * c) == a / b
  {
    var q := a / b;
    assert q * b == a;
    assert q * (b * c) == (q * b) * c;
    assert (q * (b * c)) / (b * c) == q;
  }

  // ------------------------------------------------ the laws of the loss

  /** What is used of the exponential and the logarithm in the laws below. */
  ghost predicate Calculus(math: Math) {
    && Usable(math)
    && (forall x, y :: Multiplies(math, x, y))
    && (forall x :: math.log(math.exp(x)) == x)
    && (forall y :: y > 0.0 ==> math.exp(math.log(y)) == y)
    && (forall y :: y > 0.0 ==> math.log(y) <= y - 1.0)
  }

  /** The largest entry. Subtracting it leaves no positive exponent. */
  lemma {:induction false} MaxMeaning(s: seq<real>)
    requires s != []
    ensures Max(s) in s && forall i :: 0 <= i < |s| ==> s[i] - Max(s) <= 0.0
  {
    if |s| > 1 { MaxMeaning(s[..|s| - 1]); }
  }

  /** The student's probabilities of all tokens. */
  function Probabilities(math: Math, row: seq<real>): (r: seq<real>)
    requires Usable(math) && row != []
    ensures |r| == |row| && forall i :: 0 <= i < |r| ==> r[i] == Softmax(math, row, Max(row), i)
  {
    seq(|row|, i requires 0 <= i < |row| => Softmax(math, row, Max(row), i))
  }

  lemma {:induction false} SumDivided(s: seq<real>, d: real, r: seq<real>)
    requires d != 0.0 && |r| == |s| && forall i :: 0 <= i < |s| ==> r[i] == s[i] / d
    ensures Sum(r) == Sum(s) / d
  {
    if s != [] {
      var n := |s| - 1;
      SumDivided(s[..n], d, r[..n]);
    }
  }

  /** They are positive and sum to one. */
  lemma ProbabilitiesSumToOne(math: Math, row: seq<real>)
    requires Usable(math) && row != []
    ensures Sum(Probabilities(math, row)) == 1.0
    ensures forall i :: 0 <= i < |row| ==> Probabilities(math, row)[i] > 0.0
  {
    hide Sum, Max;
    var exps := Exps(math, row, Max(row));
    ExpsPositive(math, row, Max(row));
    SumDivided(exps, Sum(exps), Probabilities(math, row));
    SelfQuotient(Sum(exps));
    forall i | 0 <= i < |row|
      ensures Probabilities(math, row)[i] > 0.0
    {
      PositiveQuotient(exps[i], Sum(exps));
    }
  }

  lemma SelfQuotient(a: real)
    requires a != 0.0
    ensures a / a == 1.0
  {
  }

  lemma PositiveQuotient(a: real, b: real)
    requires a > 0.0 && b > 0.0
    ensures a / b > 0.0
  {
  }

  /** The entries are different tokens of the vocabulary. */
  predicate Tokens(indices: seq<int>, vocabulary: nat) {
    && (forall k :: 0 <= k < |indices| ==> 0 <= indices[k] < vocabulary)
    && (forall j, k :: 0 <= j < k < |indices| ==> indices[j] != indices[k])
  }

  function Picked(s: seq<real>, indices: seq<int>): (r: seq<real>)
    requires Tokens(indices, |s|)
    ensures |r| == |indices| && forall k :: 0 <= k < |r| ==> r[k] == s[indices[k]]
  {
    seq(|indices|, k requires 0 <= k < |indices| => s[indices[k]])
  }

  lemma {:induction false} SumUpdate(s: seq<real>, i: nat, x: real)
    requires i < |s|
    ensures Sum(s[i := x]) == Sum(s) - s[i] + x
  {
    var n := |s| - 1;
    if i < n {
      SumUpdate(s[..n], i, x);
      assert s[i := x][..n] == s[..n][i := x];
    } else {
      assert s[i := x][..n] == s[..n];
    }
  }

  lemma {:induction false} SumNonNegative(s: seq<real>)
    requires forall i :: 0 <= i < |s| ==> s[i] >= 0.0
    ensures Sum(s) >= 0.0
  {
    if s != [] { SumNonNegative(s[..|s| - 1]); }
  }

  /** Different entries pick at most the whole. */
  lemma {:induction false} PickedAtMost(s: seq<real>, indices: seq<int>)
    requires Tokens(indices, |s|) && forall i :: 0 <= i < |s| ==> s[i] >= 0.0
    ensures Sum(Picked(s, indices)) <= Sum(s)
    decreases |indices|
  {
    if indices == [] {
      SumNonNegative(s);
    } else {
      var n := |indices| - 1;
      var i: nat := indices[n];
      var rest := s[i := 0.0];
      assert forall k :: 0 <= k < n ==> indices[k] != indices[n];
      PickedAtMost(rest, indices[..n]);
      SumUpdate(s, i, 0.0);
      assert Picked(s, indices)[..n] == Picked(rest, indices[..n]);
    }
  }

  /** One entry is worth at least the difference of the two probabilities. */
  lemma EntryBound(math: Math, logp: real, q: real)
    requires Calculus(math) && q >= 0.0
    ensures Divergence(math, logp, q) >= math.exp(logp) - q - TINY
  {
    var y := TINY + q;
    var l := math.log(y);
    var x := math.exp(l - logp);
    assert Multiplies(math, l - logp, logp);
    assert (l - logp) + logp == l;
    assert math.log(x) == l - logp;
    assert math.exp(l) == x * math.exp(logp);
    assert logp - l >= 1.0 - x;
    Weighted(math.exp(logp), logp - l, x, y);
  }

  lemma Weighted(p: real, a: real, x: real, y: real)
    requires p > 0.0 && a >= 1.0 - x && y == x * p
    ensures p * a >= p - y
  {
    AtLeastZero(p, a - (1.0 - x));
    assert p * a == p * (a - (1.0 - x)) + p * (1.0 - x);
    assert p * (1.0 - x) == p - x * p;
  }

  lemma AtLeastZero(p: real, a: real)
    requires p > 0.0 && a >= 0.0
    ensures p * a >= 0.0
  {
  }

  function TeacherProbabilities(math: Math, logps: seq<real>): (r: seq<real>)
    ensures |r| == |logps| && forall k :: 0 <= k < |r| ==> r[k] == math.exp(logps[k])
  {
    seq(|logps|, k requires 0 <= k < |logps| => math.exp(logps[k]))
  }

  lemma {:induction false} SumBound(terms: seq<real>, p: seq<real>, q: seq<real>, slack: real)
    requires |terms| == |p| == |q| && forall k :: 0 <= k < |terms| ==> terms[k] >= p[k] - q[k] - slack
    ensures Sum(terms) >= Sum(p) - Sum(q) - |terms| as real * slack
  {
    if terms != [] {
      var n := |terms| - 1;
      SumBound(terms[..n], p[..n], q[..n], slack);
      assert |terms| as real * slack == n as real * slack + slack;
    }
  }

  /** The loss is at least what the teacher's entries lack to a whole distribution, up to the term
      that keeps the logarithm finite: so for a whole distribution it is not negative. */
  lemma LossAtLeast(math: Math, row: seq<real>, logps: seq<real>, indices: seq<int>)
    requires Calculus(math) && row != [] && |logps| == |indices| && Tokens(indices, |row|)
    ensures TopkKL(math, row, logps, indices) >= Sum(TeacherProbabilities(math, logps)) - 1.0 - |indices| as real * TINY
  {
    hide Sum, Max, Softmax;
    var probs := Probabilities(math, row);
    ProbabilitiesSumToOne(math, row);
    PickedAtMost(probs, indices);
    TermsAtLeast(math, row, logps, indices);
    SumBound(Terms(math, row, Max(row), logps, indices, |row|), TeacherProbabilities(math, logps), Picked(probs, indices), TINY);
  }

  lemma TermsAtLeast(math: Math, row: seq<real>, logps: seq<real>, indices: seq<int>)
    requires Calculus(math) && row != [] && |logps| == |indices| && Tokens(indices, |row|)
    ensures forall k :: 0 <= k < |logps| ==>
              Terms(math, row, Max(row), logps, indices, |row|)[k]
                >= TeacherProbabilities(math, logps)[k] - Picked(Probabilities(math, row), indices)[k] - TINY
  {
    ProbabilitiesSumToOne(math, row);
    hide Sum, Max, Softmax, Multiplies;
    var terms := Terms(math, row, Max(row), logps, indices, |row|);
    forall k | 0 <= k < |logps|
      ensures terms[k] >= TeacherProbabilities(math, logps)[k] - Picked(Probabilities(math, row), indices)[k] - TINY
    {
      EntryBound(math, logps[k], Probabilities(math, row)[indices[k]]);
      assert terms[k] == Divergence(math, logps[k], Probabilities(math, row)[indices[k]]);
    }
  }

  lemma LogAtLeast(math: Math, logp: real, y: real)
    requires Calculus(math) && y >= math.exp(logp)
    ensures math.log(y) >= logp
  {
    var l := math.log(y);
    var x := math.exp(logp - l);
    assert Multiplies(math, logp - l, l);
    assert (logp - l) + l == logp;
    assert math.log(x) == logp - l <= x - 1.0;
    AtMostOne(x, y, math.exp(logp));
  }

  lemma Grows(y: real, x: real)
    requires y > 0.0 && x > 1.0
    ensures x * y > y
  {
    assert x * y == y + (x - 1.0) * y;
  }

  lemma AtMostOne(x: real, y: real, product: real)
    requires y > 0.0 && product == x * y && product <= y
    ensures x <= 1.0
  {
    if x > 1.0 { Grows(y, x); }
  }

  lemma {:induction false} SumNotPositive(s: seq<real>)
    requires forall i :: 0 <= i < |s| ==> s[i] <= 0.0
    ensures Sum(s) <= 0.0
  {
    if s != [] { SumNotPositive(s[..|s| - 1]); }
  }

  /** What remains of the loss when the student gives each entry the teacher's probability. */
  function Remainders(math: Math, logps: seq<real>): (r: seq<real>)
    ensures |r| == |logps|
    ensures forall k :: 0 <= k < |r| ==> r[k] == math.exp(logps[k]) * (logps[k] - math.log(TINY + math.exp(logps[k])))
  {
    seq(|logps|, k requires 0 <= k < |logps| => math.exp(logps[k]) * (logps[k] - math.log(TINY + math.exp(logps[k]))))
  }

  lemma AgreeingTerms(math: Math, row: seq<real>, logps: seq<real>, indices: seq<int>)
    requires Usable(math) && row != [] && |logps| == |indices| && Tokens(indices, |row|)
    requires forall k :: 0 <= k < |logps| ==> math.exp(logps[k]) == Probabilities(math, row)[indices[k]]
    ensures Terms(math, row, Max(row), logps, indices, |row|) == Remainders(math, logps)
  {
    hide Sum, Max, Softmax;
    var terms := Terms(math, row, Max(row), logps, indices, |row|);
    forall k | 0 <= k < |logps|
      ensures terms[k] == Remainders(math, logps)[k]
    {
      assert terms[k] == Divergence(math, logps[k], Probabilities(math, row)[indices[k]]);
    }
  }

  /** When the student gives each entry the teacher's probability, only the term that keeps the
      logarithm finite is left, and it is too small to matter. */
  lemma LossOfAgreement(math: Math, row: seq<real>, logps: seq<real>, indices: seq<int>)
    requires Calculus(math) && row != [] && |logps| == |indices| && Tokens(indices, |row|)
    requires forall k :: 0 <= k < |logps| ==> math.exp(logps[k]) == Probabilities(math, row)[indices[k]]
    ensures TopkKL(math, row, logps, indices) == Sum(Remainders(math, logps))
    ensures -(|indices| as real * TINY) <= TopkKL(math, row, logps, indices) <= 0.0
  {
    hide Sum, Max, Softmax;
    var terms := Terms(math, row, Max(row), logps, indices, |row|);
    var p := TeacherProbabilities(math, logps);
    AgreeingTerms(math, row, logps, indices);
    forall k | 0 <= k < |logps|
      ensures p[k] - p[k] - TINY <= terms[k] <= 0.0
    {
      EntryBound(math, logps[k], p[k]);
      LogAtLeast(math, logps[k], TINY + p[k]);
      NotPositive(p[k], logps[k] - math.log(TINY + p[k]));
    }
    SumNotPositive(terms);
    SumBound(terms, p, p, TINY);
  }

  lemma NotPositive(p: real, a: real)
    requires p > 0.0 && a <= 0.0
    ensures p * a <= 0.0
  {
  }

  // ------------------------------------------------ the direction of training

  lemma ExpIncreases(math: Math, x: real, y: real)
    requires Calculus(math) && x < y
    ensures math.exp(x) < math.exp(y)
  {
    var ratio := math.exp(y - x);
    assert math.log(ratio) == y - x <= ratio - 1.0;
    assert Multiplies(math, y - x, x);
    assert (y - x) + x == y;
    assert math.exp(y) == ratio * math.exp(x);
    Grows(math.exp(x), ratio);
  }

  lemma LogIncreases(math: Math, a: real, b: real)
    requires Calculus(math) && 0.0 < a < b
    ensures math.log(a) < math.log(b)
  {
    assert math.exp(math.log(a)) == a && math.exp(math.log(b)) == b;
    if math.log(b) < math.log(a) { ExpIncreases(math, math.log(b), math.log(a)); }
  }

  /** A larger probability of the entry's token means a smaller loss. */
  lemma DivergenceDecreases(math: Math, logp: real, q: real, r: real)
    requires Calculus(math) && 0.0 <= q < r
    ensures Divergence(math, logp, r) < Divergence(math, logp, q)
  {
    LogIncreases(math, TINY + q, TINY + r);
    StrictlyWeighted(math.exp(logp), logp - math.log(TINY + r), logp - math.log(TINY + q));
  }

  lemma StrictlyWeighted(p: real, a: real, b: real)
    requires p > 0.0 && a < b
    ensures p * a < p * b
  {
  }

  lemma QuotientOrder(a: real, b: real, c: real, d: real, ad: real, cb: real)
    requires b > 0.0 && d > 0.0 && ad == a * d && cb == c * b && ad < cb
    ensures a / b < c / d
  {
    var q, r := a / b, c / d;
    assert q * b == a && r * d == c;
    assert (r - q) * (d * b) == (r * d) * b - (q * b) * d;
    PositiveFactor(r - q, d * b);
  }

  lemma CrossProducts(e: real, e': real, rest: real, s: real, s': real)
    requires 0.0 < e < e' && rest > 0.0 && s == rest + e && s' == rest + e'
    ensures e * s' < e' * s
  {
    StrictlyWeighted(rest, 0.0, e' - e);
    assert e' * s == e' * rest + e' * e;
    assert e * s' == e * rest + e * e';
    assert rest * (e' - e) == e' * rest - e * rest;
  }

  lemma ShareGrows(e: real, e': real, rest: real)
    requires 0.0 < e < e' && rest > 0.0
    ensures e / (rest + e) < e' / (rest + e')
  {
    CrossProducts(e, e', rest, rest + e, rest + e');
    QuotientOrder(e, rest + e, e', rest + e', e * (rest + e'), e' * (rest + e));
  }

  lemma ShareShrinks(f: real, s: real, s': real)
    requires f > 0.0 && 0.0 < s < s'
    ensures f / s' < f / s
  {
    StrictlyWeighted(f, s, s');
    QuotientOrder(f, s', f, s, f * s, f * s');
  }

  lemma PositiveFactor(x: real, f: real)
    requires f > 0.0 && x * f > 0.0
    ensures x > 0.0
  {
  }

  lemma OthersPositive(math: Math, row: seq<real>, i: nat)
    requires Usable(math) && i < |row| && |row| >= 2
    ensures Sum(Exps(math, row, 0.0)) > math.exp(row[i])
  {
    var exps := Exps(math, row, 0.0);
    var j: nat := if i == 0 then 1 else 0;
    SumUpdate(exps, i, 0.0);
    SumUpdate(exps[i := 0.0], j, 0.0);
    SumNonNegative(exps[i := 0.0][j := 0.0]);
  }

  lemma RaisedSum(math: Math, row: seq<real>, i: nat, x: real)
    requires i < |row|
    ensures Exps(math, row[i := x], 0.0) == Exps(math, row, 0.0)[i := math.exp(x)]
    ensures Sum(Exps(math, row[i := x], 0.0)) == Sum(Exps(math, row, 0.0)) - math.exp(row[i]) + math.exp(x)
  {
    assert Exps(math, row[i := x], 0.0) == Exps(math, row, 0.0)[i := math.exp(x)];
    SumUpdate(Exps(math, row, 0.0), i, math.exp(x));
  }

  /** Raising the logit of a token raises its probability and lowers that of every other token. */
  lemma SoftmaxMoves(math: Math, row: seq<real>, i: nat, x: real, j: nat)
    requires Calculus(math) && i < |row| && j < |row| && |row| >= 2 && x > row[i]
    ensures var after := row[i := x];
            if j == i then Softmax(math, after, 0.0, j) > Softmax(math, row, 0.0, j)
            else Softmax(math, after, 0.0, j) < Softmax(math, row, 0.0, j)
  {
    var after := row[i := x];
    ExpIncreases(math, row[i], x);
    ExpsPositive(math, row, 0.0);
    ExpsPositive(math, after, 0.0);
    OthersPositive(math, row, i);
    RaisedSum(math, row, i, x);
    hide Calculus, Sum, Exps;
    var e, e' := math.exp(row[i]), math.exp(x);
    var rest := Sum(Exps(math, row, 0.0)) - e;
    if j == i {
      ShareGrows(e, e', rest);
    } else {
      ShareShrinks(math.exp(row[j]), rest + e, rest + e');
    }
  }

  lemma ProbabilityAtZero(math: Math, row: seq<real>, j: nat)
    requires Calculus(math) && j < |row|
    ensures Probabilities(math, row)[j] == Softmax(math, row, 0.0, j)
  {
    ShiftInvariant(math, row, Max(row), j);
  }

  lemma OneEntry(math: Math, row: seq<real>, logp: real, j: nat)
    requires Usable(math) && j < |row|
    ensures TopkKL(math, row, [logp], [j]) == Divergence(math, logp, Probabilities(math, row)[j])
  {
    assert Terms(math, row, Max(row), [logp], [j], |row|) == [Divergence(math, logp, Probabilities(math, row)[j])];
    assert Sum([Divergence(math, logp, Probabilities(math, row)[j])][..0]) == 0.0;
  }

  /** For one entry the loss strictly falls as the logit of its token grows, and strictly rises as
      that of any other token grows: training on it moves the student towards the teacher. */
  lemma LossFollowsLogits(math: Math, row: seq<real>, logp: real, i: nat, x: real, j: nat)
    requires Calculus(math) && i < |row| && j < |row| && |row| >= 2 && x > row[i]
    ensures var after := row[i := x];
            if j == i then TopkKL(math, after, [logp], [j]) < TopkKL(math, row, [logp], [j])
            else TopkKL(math, after, [logp], [j]) > TopkKL(math, row, [logp], [j])
  {
    var after := row[i := x];
    var q, r := Probabilities(math, row)[j], Probabilities(math, after)[j];
    SoftmaxMoves(math, row, i, x, j);
    ProbabilityAtZero(math, row, j);
    ProbabilityAtZero(math, after, j);
    ProbabilitiesSumToOne(math, row);
    ProbabilitiesSumToOne(math, after);
    OneEntry(math, row, logp, j);
    OneEntry(math, after, logp, j);
    if j == i { DivergenceDecreases(math, logp, q, r); } else { DivergenceDecreases(math, logp, r, q); }
  }

  // ------------------------------------------------ entries

  /** An entry adds its own loss to that of the others, and nothing if its token is outside the vocabulary. */
  lemma OneMoreEntry(math: Math, row: seq<real>, logps: seq<real>, indices: seq<int>, logp: real, index: int)
    requires Usable(math) && row != [] && |logps| == |indices|
    ensures TopkKL(math, row, logps + [logp], indices + [index]) ==
            TopkKL(math, row, logps, indices) + if 0 <= index < |row| then TopkKL(math, row, [logp], [index]) else 0.0
  {
    var before := Terms(math, row, Max(row), logps, indices, |row|);
    var after := Terms(math, row, Max(row), logps + [logp], indices + [index], |row|);
    assert after[..|after| - 1] == before;
    if 0 <= index < |row| { OneEntry(math, row, logp, index); }
  }

  // ------------------------------------------------ what a computed loss has to satisfy

  /** The student gives each entry the teacher's probability. */
  ghost predicate Agreement(math: Math, row: seq<real>, logps: seq<real>, indices: seq<int>)
    requires Usable(math) && row != [] && |logps| == |indices| && Tokens(indices, |row|)
  {
    forall k :: 0 <= k < |logps| ==> math.exp(logps[k]) == Probabilities(math, row)[indices[k]]
  }

  /** `loss` is a loss for this token: bounded from below, next to nothing for a student that agrees
      with the teacher, and for a single entry falling as its logit grows. */
  ghost predicate Measures(math: Math, row: seq<real>, logps: seq<real>, indices: seq<int>, loss: real)
    requires Usable(math) && row != [] && |logps| == |indices|
  {
    Calculus(math) && Tokens(indices, |row|) ==>
      var slack := |indices| as real * TINY;
      && loss >= Sum(TeacherProbabilities(math, logps)) - 1.0 - slack
      && (Agreement(math, row, logps, indices) ==> -slack <= loss <= 0.0)
      && (|indices| == 1 && |row| >= 2 ==> FollowsLogits(math, row, logps, indices, loss))
  }

  ghost predicate FollowsLogits(math: Math, row: seq<real>, logps: seq<real>, indices: seq<int>, loss: real)
    requires Usable(math) && |logps| == |indices| == 1 && row != []
  {
    forall i: nat, x: real :: i < |row| && x > row[i] ==> Follows(math, row, logps, indices, loss, i, x)
  }

  /** What becomes of the loss when the logit of token i is raised to x. */
  ghost predicate Follows(math: Math, row: seq<real>, logps: seq<real>, indices: seq<int>, loss: real, i: nat, x: real)
    requires Usable(math) && |logps| == |indices| == 1 && i < |row|
  {
    var after := TopkKL(math, row[i := x], logps, indices);
    if i == indices[0] then after < loss else after > loss
  }

  lemma DivergenceMeasures(math: Math, row: seq<real>, logps: seq<real>, indices: seq<int>)
    requires Usable(math) && row != [] && |logps| == |indices|
    ensures Measures(math, row, logps, indices, TopkKL(math, row, logps, indices))
  {
    hide TopkKL, Calculus, Sum, TeacherProbabilities, Probabilities;
    if Calculus(math) && Tokens(indices, |row|) {
      LossAtLeast(math, row, logps, indices);
      if Agreement(math, row, logps, indices) {
        LossOfAgreement(math, row, logps, indices);
      }
      if |indices| == 1 && |row| >= 2 {
        forall i: nat, x: real | i < |row| && x > row[i]
          ensures Follows(math, row, logps, indices, TopkKL(math, row, logps, indices), i, x)
        {
          assert logps == [logps[0]] && indices == [indices[0]];
          LossFollowsLogits(math, row, logps[0], i, x, indices[0]);
        }
      }
    }
  }
}
