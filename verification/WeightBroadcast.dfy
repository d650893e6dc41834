/** Sending the actor's weights to the rollout workers in buckets (recipe/gkd/megatron_workers.py):
    two parties that never exchange anything but broadcasts, whose number and lengths must agree. A
    weight is given flattened. */
module WeightBroadcast {
  import opened Options
  import opened Seqs

  datatype Weight<T> = Weight(key: string, data: seq<T>)

  /** One entry of `_weights_info`: a key, and the number of elements of its shape. */
  datatype Info = Info(key: string, numel: nat)

  // ------------------------------------------------ what is broadcast

  /** One broadcast: an oversize weight by itself, or the buffer, holding the weights listed. */
  datatype Message = Direct(index: nat) | Bucket(indices: seq<nat>)

  /** The broadcasts made so far, and the weights waiting in the buffer. */
  datatype Plan = Plan(sent: seq<Message>, pending: seq<nat>)

  predicate Below(indices: seq<nat>, n: nat) { forall k :: 0 <= k < |indices| ==> indices[k] < n }

  /** Where part k of a buffer starts. */
  function Offset(shapes: seq<nat>, k: nat): nat
    requires k <= |shapes|
  {
    if k == 0 then 0 else Offset(shapes, k - 1) + shapes[k - 1]
  }

  function Size(shapes: seq<nat>): nat { Offset(shapes, |shapes|) }

  /** The entries of a list at the indices given. */
  function Picked<X>(xs: seq<X>, indices: seq<nat>): (r: seq<X>)
    requires Below(indices, |xs|)
    ensures |r| == |indices|
  {
    seq(|indices|, k requires 0 <= k < |indices| => xs[indices[k]])
  }

  predicate Oversize(capacity: nat, sizes: seq<nat>, i: nat)
    requires i < |sizes|
  {
    sizes[i] > capacity
  }

  predicate MustFlush(capacity: nat, sizes: seq<nat>, pending: seq<nat>, i: nat)
    requires i < |sizes| && Below(pending, |sizes|)
  {
    Size(Picked(sizes, pending)) + sizes[i] > capacity
  }

  /** What weight i adds. */
  function Consider(capacity: nat, sizes: seq<nat>, p: Plan, i: nat): Plan
    requires i < |sizes| && Below(p.pending, |sizes|)
  {
    if Oversize(capacity, sizes, i) then Plan(p.sent + [Direct(i)], p.pending)
    else if MustFlush(capacity, sizes, p.pending, i) then Plan(p.sent + [Bucket(p.pending)], [i])
    else Plan(p.sent, p.pending + [i])
  }

  /** The broadcasts made for the first n weights. They depend on the sizes and the capacity only. */
  function PlanUpTo(capacity: nat, sizes: seq<nat>, n: nat): (p: Plan)
    requires n <= |sizes|
    ensures Below(p.pending, n)
  {
    if n == 0 then Plan([], []) else Consider(capacity, sizes, PlanUpTo(capacity, sizes, n - 1), n - 1)
  }

  function FullPlan(capacity: nat, sizes: seq<nat>): seq<Message> {
    var p := PlanUpTo(capacity, sizes, |sizes|);
    if Size(Picked(sizes, p.pending)) > 0 then p.sent + [Bucket(p.pending)] else p.sent
  }

  lemma ConsiderGrows(capacity: nat, sizes: seq<nat>, p: Plan, i: nat)
    requires i < |sizes| && Below(p.pending, |sizes|)
    ensures p.sent <= Consider(capacity, sizes, p, i).sent
  {
  }

  lemma {:induction false} PlanGrows(capacity: nat, sizes: seq<nat>, n: nat)
    requires n <= |sizes|
    ensures PlanUpTo(capacity, sizes, n).sent <= FullPlan(capacity, sizes)
    decreases |sizes| - n
  {
    hide Consider, Picked, Size;
    if n < |sizes| {
      ConsiderGrows(capacity, sizes, PlanUpTo(capacity, sizes, n), n);
      PlanGrows(capacity, sizes, n + 1);
    }
  }

  lemma {:induction false} OffsetOfPrefix(shapes: seq<nat>, more: seq<nat>, k: nat)
    requires k <= |shapes|
    ensures Offset(shapes + more, k) == Offset(shapes, k)
  {
    if k > 0 { OffsetOfPrefix(shapes, more, k - 1); }
  }

  lemma {:induction false} OffsetGrows(shapes: seq<nat>, j: nat, k: nat)
    requires j <= k <= |shapes|
    ensures Offset(shapes, j) <= Offset(shapes, k)
    decreases k
  {
    if j < k { OffsetGrows(shapes, j, k - 1); }
  }

  lemma SizeSnoc(sizes: seq<nat>, indices: seq<nat>, i: nat)
    requires Below(indices, |sizes|) && i < |sizes|
    ensures Picked(sizes, indices + [i]) == Picked(sizes, indices) + [sizes[i]]
    ensures Size(Picked(sizes, indices + [i])) == Size(Picked(sizes, indices)) + sizes[i]
  {
    OffsetOfPrefix(Picked(sizes, indices), [sizes[i]], |indices|);
  }

  // ------------------------------------------------ which weights share a broadcast

  /** The weights among the first n that fit into the buffer, and those that do not. */
  function Fitting(capacity: nat, sizes: seq<nat>, n: nat): (r: seq<nat>)
    requires n <= |sizes|
    ensures Below(r, n)
  {
    if n == 0 then [] else Fitting(capacity, sizes, n - 1) + if sizes[n - 1] <= capacity then [n - 1] else []
  }

  function TooLarge(capacity: nat, sizes: seq<nat>, n: nat): seq<nat>
    requires n <= |sizes|
  {
    if n == 0 then [] else TooLarge(capacity, sizes, n - 1) + if sizes[n - 1] > capacity then [n - 1] else []
  }

  function BucketsOf(ms: seq<Message>): seq<seq<nat>> {
    if ms == [] then [] else BucketsOf(ms[..|ms| - 1]) + match ms[|ms| - 1] case Direct(_) => [] case Bucket(indices) => [indices]
  }

  function DirectsOf(ms: seq<Message>): seq<nat> {
    if ms == [] then [] else DirectsOf(ms[..|ms| - 1]) + match ms[|ms| - 1] case Direct(i) => [i] case Bucket(_) => []
  }

  /** Every bucket fits, and could not have taken the first weight of the next one. */
  ghost predicate Filled(capacity: nat, sizes: seq<nat>, buckets: seq<seq<nat>>) {
    && (forall k :: 0 <= k < |buckets| ==> Below(buckets[k], |sizes|) && Size(Picked(sizes, buckets[k])) <= capacity)
    && (forall k :: 0 < k < |buckets| ==> buckets[k] != [] && Overflows(capacity, sizes, buckets[k - 1], buckets[k][0]))
  }

  ghost predicate Overflows(capacity: nat, sizes: seq<nat>, bucket: seq<nat>, next: nat) {
    Below(bucket, |sizes|) && next < |sizes| && Size(Picked(sizes, bucket)) + sizes[next] > capacity
  }

  /** A bucket is broadcast when the first weight of the next one comes, and an oversize weight when it
      comes itself: of all broadcasts the one whose turn is first. */
  ghost predicate InTurn(ms: seq<Message>, buckets: seq<seq<nat>>) {
    forall j, k :: 0 <= j < |ms| && ms[j].Direct? && 0 < k < |buckets| ==> TurnKept(ms, buckets, j, k)
  }

  ghost predicate TurnKept(ms: seq<Message>, buckets: seq<seq<nat>>, j: nat, k: nat)
    requires j < |ms| && ms[j].Direct? && 0 < k < |buckets|
  {
    buckets[k] != [] && (k <= |BucketsOf(ms[..j])| <==> buckets[k][0] < ms[j].index)
  }

  lemma MessageSnoc(ms: seq<Message>, m: Message)
    ensures BucketsOf(ms + [m]) == BucketsOf(ms) + match m case Direct(_) => [] case Bucket(indices) => [indices]
    ensures DirectsOf(ms + [m]) == DirectsOf(ms) + match m case Direct(i) => [i] case Bucket(_) => []
  {
    assert (ms + [m])[..|ms|] == ms;
  }

  lemma {:induction false} BucketsGrow(ms: seq<Message>, j: nat)
    requires j <= |ms|
    ensures |BucketsOf(ms[..j])| <= |BucketsOf(ms)|
    decreases |ms|
  {
    if j < |ms| {
      assert ms[..|ms| - 1][..j] == ms[..j];
      BucketsGrow(ms[..|ms| - 1], j);
    } else {
      assert ms[..j] == ms;
    }
  }

  /** What holds while the plan is made; the pending weights are the bucket being filled. */
  ghost predicate PlanInv(capacity: nat, sizes: seq<nat>, p: Plan, n: nat)
    requires n <= |sizes|
  {
    var buckets := BucketsOf(p.sent) + [p.pending];
    && Flatten(BucketsOf(p.sent)) + p.pending == Fitting(capacity, sizes, n)
    && DirectsOf(p.sent) == TooLarge(capacity, sizes, n)
    && Filled(capacity, sizes, buckets) && InTurn(p.sent, buckets)
    && (forall k :: 0 <= k < |buckets| ==> Below(buckets[k], n))
    && (forall j :: 0 <= j < |p.sent| && p.sent[j].Direct? ==> p.sent[j].index < n)
  }

  lemma DirectStep(capacity: nat, sizes: seq<nat>, p: Plan, i: nat)
    requires i < |sizes| && PlanInv(capacity, sizes, p, i) && sizes[i] > capacity
    ensures PlanInv(capacity, sizes, Plan(p.sent + [Direct(i)], p.pending), i + 1)
  {
    hide Picked, Size, Flatten, Below, Filled;
    var sent, buckets := p.sent + [Direct(i)], BucketsOf(p.sent) + [p.pending];
    MessageSnoc(p.sent, Direct(i));
    assert BucketsOf(sent) == BucketsOf(p.sent);
    BelowMore(buckets, i);
    forall j, k | 0 <= j < |sent| && sent[j].Direct? && 0 < k < |buckets|
      ensures TurnKept(sent, buckets, j, k)
    {
      TurnOfDirect(p.sent, buckets, i, j, k, capacity, sizes);
    }
    assert Fitting(capacity, sizes, i + 1) == Fitting(capacity, sizes, i);
  }

  lemma BelowMore(buckets: seq<seq<nat>>, n: nat)
    requires forall k :: 0 <= k < |buckets| ==> Below(buckets[k], n)
    ensures forall k :: 0 <= k < |buckets| ==> Below(buckets[k], n + 1)
  {
  }

  lemma TurnOfDirect(ms: seq<Message>, buckets: seq<seq<nat>>, i: nat, j: nat, k: nat, capacity: nat, sizes: seq<nat>)
    requires InTurn(ms, buckets) && Filled(capacity, sizes, buckets) && |buckets| == |BucketsOf(ms)| + 1
    requires forall k :: 0 <= k < |buckets| ==> Below(buckets[k], i)
    requires j <= |ms| && (ms + [Direct(i)])[j].Direct? && 0 < k < |buckets|
    ensures TurnKept(ms + [Direct(i)], buckets, j, k)
  {
    hide Picked, Size, Overflows;
    var sent := ms + [Direct(i)];
    assert sent[..j] == ms[..j];
    if j < |ms| {
      assert TurnKept(ms, buckets, j, k);
    } else {
      assert ms[..j] == ms;
      assert buckets[k] != [] && Below(buckets[k], i);
    }
  }

  lemma FilledAfterFlush(capacity: nat, sizes: seq<nat>, front: seq<seq<nat>>, pending: seq<nat>, i: nat)
    requires Filled(capacity, sizes, front + [pending]) && i < |sizes| && sizes[i] <= capacity
    requires Below(pending, |sizes|) && MustFlush(capacity, sizes, pending, i)
    ensures Filled(capacity, sizes, front + [pending] + [[i]])
  {
    var before, buckets := front + [pending], front + [pending] + [[i]];
    SizeOfOne(sizes, i);
    hide Picked, Size;
    forall k | 0 < k < |buckets|
      ensures buckets[k] != [] && Overflows(capacity, sizes, buckets[k - 1], buckets[k][0])
    {
      if k < |before| { assert buckets[k] == before[k] && buckets[k - 1] == before[k - 1]; }
    }
  }

  lemma FilledAfterAppend(capacity: nat, sizes: seq<nat>, front: seq<seq<nat>>, pending: seq<nat>, i: nat)
    requires Filled(capacity, sizes, front + [pending]) && i < |sizes|
    requires Below(pending, |sizes|) && !MustFlush(capacity, sizes, pending, i)
    ensures Filled(capacity, sizes, front + [pending + [i]])
  {
    var before, buckets := front + [pending], front + [pending + [i]];
    SizeSnoc(sizes, pending, i);
    assert !(Size(Picked(sizes, pending)) + sizes[i] > capacity);
    hide Picked, Size;
    forall k | 0 <= k < |buckets|
      ensures Below(buckets[k], |sizes|) && Size(Picked(sizes, buckets[k])) <= capacity
    {
      if k < |front| { assert buckets[k] == before[k]; }
    }
    forall k | 0 < k < |buckets|
      ensures buckets[k] != [] && Overflows(capacity, sizes, buckets[k - 1], buckets[k][0])
    {
      assert before[k] != [] && Overflows(capacity, sizes, before[k - 1], before[k][0]);
      assert buckets[k - 1] == before[k - 1];
    }
  }

  lemma TurnsAfterFlush(ms: seq<Message>, before: seq<seq<nat>>, pending: seq<nat>, i: nat)
    requires InTurn(ms, before) && |before| == |BucketsOf(ms)| + 1
    requires forall j :: 0 <= j < |ms| && ms[j].Direct? ==> ms[j].index < i
    ensures InTurn(ms + [Bucket(pending)], before + [[i]])
  {
    var sent, buckets := ms + [Bucket(pending)], before + [[i]];
    hide TurnKept;
    forall j, k | 0 <= j < |sent| && sent[j].Direct? && 0 < k < |buckets|
      ensures TurnKept(sent, buckets, j, k)
    {
      TurnOfBucket(ms, before, pending, i, j, k);
    }
  }

  lemma FlushStep(capacity: nat, sizes: seq<nat>, p: Plan, i: nat)
    requires i < |sizes| && PlanInv(capacity, sizes, p, i) && sizes[i] <= capacity
    requires Below(p.pending, |sizes|) && MustFlush(capacity, sizes, p.pending, i)
    ensures PlanInv(capacity, sizes, Plan(p.sent + [Bucket(p.pending)], [i]), i + 1)
  {
    var before := BucketsOf(p.sent) + [p.pending];
    hide Picked, Size, Flatten, InTurn, Filled, MustFlush, BucketsOf, DirectsOf, Fitting, TooLarge, Below;
    MessageSnoc(p.sent, Bucket(p.pending));
    FlattenConcat(BucketsOf(p.sent), [p.pending]);
    FlattenOne(p.pending);
    assert Flatten(before) == Fitting(capacity, sizes, i);
    FilledAfterFlush(capacity, sizes, BucketsOf(p.sent), p.pending, i);
    TurnsAfterFlush(p.sent, before, p.pending, i);
    FittingNext(capacity, sizes, i);
    BelowAfterFlush(before, i);
  }

  lemma BelowAfterFlush(before: seq<seq<nat>>, i: nat)
    requires forall k :: 0 <= k < |before| ==> Below(before[k], i)
    ensures forall k :: 0 <= k < |before + [[i]]| ==> Below((before + [[i]])[k], i + 1)
  {
    BelowMore(before, i);
  }

  lemma FittingNext(capacity: nat, sizes: seq<nat>, i: nat)
    requires i < |sizes|
    ensures Fitting(capacity, sizes, i + 1) == Fitting(capacity, sizes, i) + if sizes[i] <= capacity then [i] else []
    ensures TooLarge(capacity, sizes, i + 1) == TooLarge(capacity, sizes, i) + if sizes[i] > capacity then [i] else []
  {
  }

  lemma SizeOfOne(sizes: seq<nat>, i: nat)
    requires i < |sizes|
    ensures Size(Picked(sizes, [i])) == sizes[i]
  {
    assert Picked(sizes, [i]) == [sizes[i]];
    assert Offset([sizes[i]], 1) == Offset([sizes[i]], 0) + sizes[i];
  }

  lemma TurnOfBucket(ms: seq<Message>, before: seq<seq<nat>>, pending: seq<nat>, i: nat, j: nat, k: nat)
    requires InTurn(ms, before) && |before| == |BucketsOf(ms)| + 1
    requires forall j :: 0 <= j < |ms| && ms[j].Direct? ==> ms[j].index < i
    requires j < |ms| && ms[j].Direct? && 0 < k <= |before|
    ensures TurnKept(ms + [Bucket(pending)], before + [[i]], j, k)
  {
    assert (ms + [Bucket(pending)])[..j] == ms[..j];
    BucketsGrow(ms, j);
    if k < |before| { assert TurnKept(ms, before, j, k); }
  }

  lemma TurnsAfterAppend(ms: seq<Message>, front: seq<seq<nat>>, pending: seq<nat>, i: nat)
    requires InTurn(ms, front + [pending])
    ensures InTurn(ms, front + [pending + [i]])
  {
    var before, buckets := front + [pending], front + [pending + [i]];
    hide TurnKept;
    forall j, k | 0 <= j < |ms| && ms[j].Direct? && 0 < k < |buckets|
      ensures TurnKept(ms, buckets, j, k)
    {
      assert TurnKept(ms, before, j, k);
      assert k < |front| ==> before[k] == buckets[k];
      SameFirst(ms, before, buckets, j, k);
    }
  }

  lemma BelowAfterAppend(front: seq<seq<nat>>, pending: seq<nat>, i: nat)
    requires forall k :: 0 <= k < |front + [pending]| ==> Below((front + [pending])[k], i)
    ensures forall k :: 0 <= k < |front + [pending + [i]]| ==> Below((front + [pending + [i]])[k], i + 1)
  {
    var before, buckets := front + [pending], front + [pending + [i]];
    BelowMore(before, i);
    forall k | 0 <= k < |buckets|
      ensures Below(buckets[k], i + 1)
    {
      if k < |front| { assert before[k] == buckets[k]; } else { assert Below(before[k], i + 1); }
    }
  }

  lemma AppendStep(capacity: nat, sizes: seq<nat>, p: Plan, i: nat)
    requires i < |sizes| && PlanInv(capacity, sizes, p, i) && sizes[i] <= capacity
    requires Below(p.pending, |sizes|) && !MustFlush(capacity, sizes, p.pending, i)
    ensures PlanInv(capacity, sizes, Plan(p.sent, p.pending + [i]), i + 1)
  {
    hide Picked, Size, Flatten, InTurn, Filled, MustFlush, BucketsOf, DirectsOf, Fitting, TooLarge, Below;
    FilledAfterAppend(capacity, sizes, BucketsOf(p.sent), p.pending, i);
    TurnsAfterAppend(p.sent, BucketsOf(p.sent), p.pending, i);
    BelowAfterAppend(BucketsOf(p.sent), p.pending, i);
    FittingNext(capacity, sizes, i);
    assert Flatten(BucketsOf(p.sent)) + (p.pending + [i]) == Flatten(BucketsOf(p.sent)) + p.pending + [i];
  }

  lemma SameFirst(ms: seq<Message>, before: seq<seq<nat>>, buckets: seq<seq<nat>>, j: nat, k: nat)
    requires j < |ms| && ms[j].Direct? && 0 < k < |buckets| == |before| && TurnKept(ms, before, j, k)
    requires before[k] <= buckets[k]
    ensures TurnKept(ms, buckets, j, k)
  {
  }

  lemma ConsiderKeepsInv(capacity: nat, sizes: seq<nat>, p: Plan, i: nat)
    requires i < |sizes| && PlanInv(capacity, sizes, p, i) && Below(p.pending, |sizes|)
    ensures PlanInv(capacity, sizes, Consider(capacity, sizes, p, i), i + 1)
  {
    hide PlanInv, Picked, Size, MustFlush;
    if sizes[i] > capacity {
      DirectStep(capacity, sizes, p, i);
    } else if MustFlush(capacity, sizes, p.pending, i) {
      FlushStep(capacity, sizes, p, i);
    } else {
      AppendStep(capacity, sizes, p, i);
    }
  }

  lemma {:induction false} PlanKeepsInv(capacity: nat, sizes: seq<nat>, n: nat)
    requires n <= |sizes|
    ensures PlanInv(capacity, sizes, PlanUpTo(capacity, sizes, n), n)
  {
    hide PlanInv, Consider;
    if n > 0 {
      PlanKeepsInv(capacity, sizes, n - 1);
      ConsiderKeepsInv(capacity, sizes, PlanUpTo(capacity, sizes, n - 1), n - 1);
    } else {
      NothingPlanned(capacity, sizes);
    }
  }

  lemma NothingPlanned(capacity: nat, sizes: seq<nat>)
    ensures PlanInv(capacity, sizes, Plan([], []), 0)
  {
    assert Picked(sizes, []) == [];
  }

  /** The broadcasts are the greedy ones. The oversize weights go out alone, the others in order and
      in buckets that are as full as can be, every broadcast in its turn; only weights that are all
      empty are not sent. */
  ghost predicate Greedy(capacity: nat, sizes: seq<nat>, ms: seq<Message>) {
    var buckets := BucketsOf(ms);
    && DirectsOf(ms) == TooLarge(capacity, sizes, |sizes|)
    && Filled(capacity, sizes, buckets) && InTurn(ms, buckets)
    && (buckets != [] ==>
          && Flatten(buckets) == Fitting(capacity, sizes, |sizes|)
          && forall j :: 0 <= j < |ms| && ms[j].Direct? ==> |BucketsOf(ms[..j])| < |buckets|)
    && (buckets == [] ==> Size(Picked(sizes, Fitting(capacity, sizes, |sizes|))) == 0)
  }

  lemma PlanIsGreedy(capacity: nat, sizes: seq<nat>)
    ensures Greedy(capacity, sizes, FullPlan(capacity, sizes))
  {
    var p := PlanUpTo(capacity, sizes, |sizes|);
    PlanKeepsInv(capacity, sizes, |sizes|);
    if Size(Picked(sizes, p.pending)) > 0 {
      LastBucket(capacity, sizes, p);
    } else {
      NoLastBucket(capacity, sizes, p);
    }
  }

  lemma LastBucket(capacity: nat, sizes: seq<nat>, p: Plan)
    requires PlanInv(capacity, sizes, p, |sizes|)
    ensures Greedy(capacity, sizes, p.sent + [Bucket(p.pending)])
  {
    var ms := p.sent + [Bucket(p.pending)];
    MessageSnoc(p.sent, Bucket(p.pending));
    FlattenConcat(BucketsOf(p.sent), [p.pending]);
    FlattenOne(p.pending);
    hide Picked, Size, Flatten, Filled;
    forall j | 0 <= j < |ms| && ms[j].Direct?
      ensures ms[..j] == p.sent[..j] && |BucketsOf(ms[..j])| < |BucketsOf(ms)|
    {
      assert ms[..j] == p.sent[..j];
      BucketsGrow(p.sent, j);
    }
    forall j, k | 0 <= j < |ms| && ms[j].Direct? && 0 < k < |BucketsOf(ms)|
      ensures TurnKept(ms, BucketsOf(ms), j, k)
    {
      assert TurnKept(p.sent, BucketsOf(ms), j, k);
    }
  }

  lemma NoLastBucket(capacity: nat, sizes: seq<nat>, p: Plan)
    requires PlanInv(capacity, sizes, p, |sizes|) && Below(p.pending, |sizes|) && Size(Picked(sizes, p.pending)) == 0
    ensures Greedy(capacity, sizes, p.sent)
  {
    var buckets := BucketsOf(p.sent) + [p.pending];
    if |buckets| > 1 {
      var k := |buckets| - 1;
      assert Overflows(capacity, sizes, buckets[k - 1], buckets[k][0]);
      FirstOfEmpty(sizes, p.pending);
      assert false;
    } else {
      assert BucketsOf(p.sent) == [];
      assert Flatten<nat>([]) + p.pending == p.pending;
    }
  }

  lemma FirstOfEmpty(sizes: seq<nat>, indices: seq<nat>)
    requires Below(indices, |sizes|) && indices != [] && Size(Picked(sizes, indices)) == 0
    ensures sizes[indices[0]] == 0
  {
    var shapes := Picked(sizes, indices);
    OffsetGrows(shapes, 1, |shapes|);
    assert Offset(shapes, 1) == Offset(shapes, 0) + shapes[0];
  }

  // ------------------------------------------------ every weight exactly once

  function IndicesOf(m: Message): seq<nat> { match m case Direct(i) => [i] case Bucket(indices) => indices }

  /** The weights in the order in which the broadcasts carry them. */
  function Order(ms: seq<Message>): seq<nat> {
    if ms == [] then [] else Order(ms[..|ms| - 1]) + IndicesOf(ms[|ms| - 1])
  }

  function Range(n: nat): (r: seq<nat>)
    ensures |r| == n && forall k :: 0 <= k < n ==> r[k] == k
  {
    if n == 0 then [] else Range(n - 1) + [n - 1]
  }

  lemma OrderSnoc(ms: seq<Message>, m: Message)
    ensures Order(ms + [m]) == Order(ms) + IndicesOf(m)
  {
    assert (ms + [m])[..|ms|] == ms;
  }

  predicate Small(capacity: nat, sizes: seq<nat>, i: nat)
    requires i < |sizes|
  {
    0 < sizes[i] <= capacity
  }

  predicate AnySmall(capacity: nat, sizes: seq<nat>, n: nat)
    requires n <= |sizes|
  {
    exists i :: 0 <= i < n && Small(capacity, sizes, i)
  }

  predicate AnyEmpty(sizes: seq<nat>, n: nat)
    requires n <= |sizes|
  {
    exists i :: 0 <= i < n && sizes[i] == 0
  }

  /** Up to any point, each weight was sent or is pending, exactly once. */
  lemma {:induction false} PlanAccountsForAll(capacity: nat, sizes: seq<nat>, n: nat)
    requires n <= |sizes|
    ensures var p := PlanUpTo(capacity, sizes, n);
            multiset(Order(p.sent) + p.pending) == multiset(Range(n))
  {
    hide Consider, Range;
    if n > 0 {
      PlanAccountsForAll(capacity, sizes, n - 1);
      ConsiderCounts(capacity, sizes, PlanUpTo(capacity, sizes, n - 1), n - 1);
      RangeSnoc(n - 1);
    } else {
      assert PlanUpTo(capacity, sizes, 0) == Plan([], []);
    }
  }

  lemma RangeSnoc(n: nat)
    ensures multiset(Range(n + 1)) == multiset(Range(n)) + multiset{n}
  {
    assert Range(n + 1) == Range(n) + [n];
  }

  /** The buffer never overflows, and it is known what a buffer of size 0 can still hold. */
  lemma {:induction false} PlanSizes(capacity: nat, sizes: seq<nat>, n: nat)
    requires n <= |sizes|
    ensures var p := PlanUpTo(capacity, sizes, n);
            && Size(Picked(sizes, p.pending)) <= capacity
            && (Size(Picked(sizes, p.pending)) > 0 <==> AnySmall(capacity, sizes, n))
            && (!AnySmall(capacity, sizes, n) ==> (p.pending == [] <==> !AnyEmpty(sizes, n)))
  {
    hide Consider, Picked, Size, AnySmall, AnyEmpty;
    if n > 0 {
      PlanSizes(capacity, sizes, n - 1);
      ConsiderSizes(capacity, sizes, PlanUpTo(capacity, sizes, n - 1), n - 1);
      SmallSnoc(capacity, sizes, n);
    } else {
      NothingPending(capacity, sizes);
    }
  }

  lemma NothingPending(capacity: nat, sizes: seq<nat>)
    ensures Size(Picked(sizes, [])) == 0 && !AnySmall(capacity, sizes, 0) && !AnyEmpty(sizes, 0)
  {
  }

  lemma SmallSnoc(capacity: nat, sizes: seq<nat>, n: nat)
    requires 0 < n <= |sizes|
    ensures AnySmall(capacity, sizes, n) <==> AnySmall(capacity, sizes, n - 1) || Small(capacity, sizes, n - 1)
    ensures AnyEmpty(sizes, n) <==> AnyEmpty(sizes, n - 1) || sizes[n - 1] == 0
  {
  }

  lemma ConsiderCounts(capacity: nat, sizes: seq<nat>, p: Plan, i: nat)
    requires i < |sizes| && Below(p.pending, |sizes|)
    ensures var after := Consider(capacity, sizes, p, i);
            multiset(Order(after.sent) + after.pending) == multiset(Order(p.sent) + p.pending) + multiset{i}
  {
    hide Picked, Size, Order;
    OrderSnoc(p.sent, Direct(i));
    OrderSnoc(p.sent, Bucket(p.pending));
    assert Order(p.sent) + (p.pending + [i]) == Order(p.sent) + p.pending + [i];
  }

  lemma ConsiderSizes(capacity: nat, sizes: seq<nat>, p: Plan, i: nat)
    requires i < |sizes| && Below(p.pending, |sizes|) && Size(Picked(sizes, p.pending)) <= capacity
    ensures var after := Consider(capacity, sizes, p, i);
            && Below(after.pending, |sizes|) && Size(Picked(sizes, after.pending)) <= capacity
            && (Size(Picked(sizes, after.pending)) > 0 <==> Size(Picked(sizes, p.pending)) > 0 || Small(capacity, sizes, i))
            && (Size(Picked(sizes, after.pending)) == 0 ==> (after.pending == [] <==> p.pending == [] && sizes[i] != 0))
  {
    SizeSnoc(sizes, p.pending, i);
    SizeSnoc(sizes, [], i);
    assert [] + [i] == [i];
  }

  predicate ExactlyOnce(ms: seq<Message>, n: nat) { multiset(Order(ms)) == multiset(Range(n)) }

  /** Every weight is carried by exactly one broadcast, if and only if no weight is empty or some
      weight is neither empty nor oversize: a last buffer that holds only empty weights is never sent. */
  lemma EachWeightOnce(capacity: nat, sizes: seq<nat>)
    ensures ExactlyOnce(FullPlan(capacity, sizes), |sizes|)
       <==> (AnySmall(capacity, sizes, |sizes|) || !AnyEmpty(sizes, |sizes|))
  {
    var p := PlanUpTo(capacity, sizes, |sizes|);
    PlanAccountsForAll(capacity, sizes, |sizes|);
    PlanSizes(capacity, sizes, |sizes|);
    if Size(Picked(sizes, p.pending)) > 0 {
      OrderSnoc(p.sent, Bucket(p.pending));
    } else if p.pending == [] {
      assert Order(p.sent) + p.pending == Order(p.sent);
    } else {
      assert |multiset(Order(p.sent) + p.pending)| == |Order(p.sent)| + |p.pending|;
    }
  }

  /** An oversize weight and an empty one: the empty one is never sent. */
  lemma EmptyWeightIsLost()
    ensures FullPlan(4, [9, 0]) == [Direct(0)] && !ExactlyOnce(FullPlan(4, [9, 0]), 2)
  {
    hide Order, Range, Size, Picked, AnySmall, AnyEmpty;
    var sizes := [9, 0];
    NothingPending(4, sizes);
    assert PlanUpTo(4, sizes, 1) == Plan([Direct(0)], []);
    assert PlanUpTo(4, sizes, 2).sent == [Direct(0)];
    assert !AnySmall(4, sizes, 2) && AnyEmpty(sizes, 2) by {
      SmallSnoc(4, sizes, 1);
      SmallSnoc(4, sizes, 2);
    }
    PlanSizes(4, sizes, 2);
    EachWeightOnce(4, sizes);
  }

  // ------------------------------------------------ the two parties

  class TensorBuffer<T> {
    const capacity: nat
    const tensor: array<T>
    var keys: seq<string>
    var shapes: seq<nat>

    ghost predicate Valid()
      reads this
    {
      tensor.Length == capacity && |keys| == |shapes| && Size(shapes) <= capacity
    }

    /** `torch.empty`: whatever the memory held. */
    constructor (elements: nat, memory: nat -> T)
      ensures Valid() && capacity == elements && keys == [] && shapes == [] && Size(shapes) == 0 && fresh(tensor)
    {
      capacity := elements;
      tensor := new T[elements](memory);
      keys, shapes := [], [];
    }

    method Clear()
      requires Valid()
      modifies this
      ensures Valid() && keys == [] && shapes == [] && Size(shapes) == 0
    {
      keys, shapes := [], [];
    }

    method Append(key: string, numel: nat, weight: Option<seq<T>>)
      requires Valid() && Size(shapes) + numel <= capacity && (weight.Some? ==> |weight.value| == numel)
      modifies this, tensor
      ensures Valid() && keys == old(keys) + [key] && shapes == old(shapes) + [numel]
      ensures Size(shapes) == old(Size(shapes)) + numel
      ensures tensor[..old(Size(shapes))] == old(tensor[..Size(shapes)])
      ensures weight.Some? ==> tensor[old(Size(shapes))..Size(shapes)] == weight.value
    {
      var base := Size(shapes);
      if weight.Some? {
        var k := 0;
        while k < numel
          modifies tensor
          invariant 0 <= k <= numel
          invariant tensor[..base] == old(tensor[..base]) && tensor[base..base + k] == weight.value[..k]
        {
          tensor[base + k] := weight.value[k];
          k := k + 1;
        }
      }
      OffsetOfPrefix(shapes, [numel], |shapes|);
      keys, shapes := keys + [key], shapes + [numel];
    }

    /** The parts of the buffer, cut out at the offsets that the shapes give. */
    method ToTensors() returns (tensors: seq<Weight<T>>)
      requires Valid()
      ensures tensors == Cut(keys, shapes, tensor[..])
    {
      tensors := [];
      var start, k := 0, 0;
      while k < |keys|
        invariant k <= |keys| && start == Offset(shapes, k) && |tensors| == k
        invariant forall j :: 0 <= j < k ==> tensors[j] == Part(keys, shapes, tensor[..], j)
      {
        OffsetGrows(shapes, k + 1, |shapes|);
        assert tensor[start..start + shapes[k]] == tensor[..][start..start + shapes[k]];
        tensors := tensors + [Weight(keys[k], tensor[start..start + shapes[k]])];
        start, k := start + shapes[k], k + 1;
      }
    }

    /** A broadcast overwrites the receiver's buffer. */
    method Receive(message: seq<T>)
      requires Valid() && |message| == capacity
      modifies tensor
      ensures tensor[..] == message
    {
      var k := 0;
      while k < capacity
        invariant k <= capacity && tensor[..k] == message[..k]
      {
        tensor[k] := message[k];
        k := k + 1;
      }
    }
  }

  function Part<T>(keys: seq<string>, shapes: seq<nat>, data: seq<T>, k: nat): Weight<T>
    requires k < |keys| == |shapes| && Size(shapes) <= |data|
  {
    OffsetGrows(shapes, k + 1, |shapes|);
    Weight(keys[k], data[Offset(shapes, k)..Offset(shapes, k + 1)])
  }

  function Cut<T>(keys: seq<string>, shapes: seq<nat>, data: seq<T>): (r: seq<Weight<T>>)
    requires |keys| == |shapes| && Size(shapes) <= |data|
    ensures |r| == |keys|
  {
    seq(|keys|, k requires 0 <= k < |keys| => Part(keys, shapes, data, k))
  }

  function SizesIn<T>(weights: seq<Weight<T>>): (r: seq<nat>)
    ensures |r| == |weights|
  {
    seq(|weights|, i requires 0 <= i < |weights| => |weights[i].data|)
  }

  function InfosOf<T>(weights: seq<Weight<T>>): (r: seq<Info>)
    ensures |r| == |weights|
  {
    seq(|weights|, i requires 0 <= i < |weights| => Info(weights[i].key, |weights[i].data|))
  }

  // ------------------------------------------------ sender and receiver

  /** The parts of a buffer are the flattened weights listed. */
  ghost predicate Holds<T>(weights: seq<Weight<T>>, indices: seq<nat>, data: seq<T>) {
    && Below(indices, |weights|)
    && var shapes := Picked(SizesIn(weights), indices);
       Size(shapes) <= |data| && forall k :: 0 <= k < |indices| ==> PartHolds(weights, indices, shapes, data, k)
  }

  ghost predicate PartHolds<T>(weights: seq<Weight<T>>, indices: seq<nat>, shapes: seq<nat>, data: seq<T>, k: nat)
    requires k < |indices| == |shapes| && Below(indices, |weights|) && Size(shapes) <= |data|
  {
    OffsetGrows(shapes, k + 1, |shapes|);
    data[Offset(shapes, k)..Offset(shapes, k + 1)] == weights[indices[k]].data
  }

  /** What the sender puts into a broadcast. */
  ghost predicate Carries<T>(weights: seq<Weight<T>>, capacity: nat, m: Message, message: seq<T>) {
    match m
    case Direct(i) => i < |weights| && message == weights[i].data
    case Bucket(indices) => |message| == capacity && Holds(weights, indices, message)
  }

  lemma SamePart<T>(a: seq<T>, b: seq<T>, n: nat, i: nat, j: nat)
    requires i <= j <= n <= |a| && n <= |b| && a[..n] == b[..n]
    ensures a[i..j] == b[i..j]
  {
    assert a[i..j] == a[..n][i..j] && b[i..j] == b[..n][i..j];
  }

  lemma OldPartHolds<T>(weights: seq<Weight<T>>, indices: seq<nat>, i: nat, data: seq<T>, data': seq<T>, k: nat)
    requires Holds(weights, indices, data) && i < |weights| && k < |indices|
    requires var size := Size(Picked(SizesIn(weights), indices));
             size + |weights[i].data| <= |data'| && data'[..size] == data[..size]
    ensures var shapes' := Picked(SizesIn(weights), indices + [i]);
            Size(shapes') <= |data'| && PartHolds(weights, indices + [i], shapes', data', k)
  {
    var sizes := SizesIn(weights);
    var shapes := Picked(sizes, indices);
    SizeSnoc(sizes, indices, i);
    assert PartHolds(weights, indices, shapes, data, k);
    OffsetOfPrefix(shapes, [sizes[i]], k);
    OffsetOfPrefix(shapes, [sizes[i]], k + 1);
    OffsetGrows(shapes, k, k + 1);
    OffsetGrows(shapes, k + 1, |shapes|);
    hide Picked, SizesIn, Offset;
    SamePart(data', data, Size(shapes), Offset(shapes, k), Offset(shapes, k + 1));
  }

  lemma NewPartHolds<T>(weights: seq<Weight<T>>, indices: seq<nat>, i: nat, data': seq<T>)
    requires Below(indices, |weights|) && i < |weights|
    requires var size := Size(Picked(SizesIn(weights), indices));
             size + |weights[i].data| <= |data'| && data'[size..size + |weights[i].data|] == weights[i].data
    ensures var shapes' := Picked(SizesIn(weights), indices + [i]);
            Size(shapes') <= |data'| && PartHolds(weights, indices + [i], shapes', data', |indices|)
  {
    var sizes := SizesIn(weights);
    SizeSnoc(sizes, indices, i);
    OffsetOfPrefix(Picked(sizes, indices), [sizes[i]], |indices|);
  }

  lemma HoldsSnoc<T>(weights: seq<Weight<T>>, indices: seq<nat>, i: nat, data: seq<T>, data': seq<T>)
    requires Holds(weights, indices, data) && i < |weights|
    requires var size := Size(Picked(SizesIn(weights), indices));
             && size + |weights[i].data| <= |data'|
             && data'[..size] == data[..size]
             && data'[size..size + |weights[i].data|] == weights[i].data
    ensures Holds(weights, indices + [i], data')
  {
    hide PartHolds, Picked, SizesIn, Size;
    NewPartHolds(weights, indices, i, data');
    forall k | 0 <= k < |indices|
      ensures PartHolds(weights, indices + [i], Picked(SizesIn(weights), indices + [i]), data', k)
    {
      OldPartHolds(weights, indices, i, data, data', k);
    }
  }

  lemma EmptyBuffer<T>(weights: seq<Weight<T>>, data: seq<T>)
    ensures Picked(SizesIn(weights), []) == [] && Size([]) == 0 && Holds(weights, [], data)
  {
  }

  /** The actor's side; the result is what it broadcast. */
  method SendWeights<T>(weights: seq<Weight<T>>, capacity: nat, memory: nat -> T) returns (wire: seq<seq<T>>)
    ensures var plan := FullPlan(capacity, SizesIn(weights));
            |wire| == |plan| && forall j :: 0 <= j < |wire| ==> Carries(weights, capacity, plan[j], wire[j])
  {
    hide Size, Holds, Picked;
    ghost var sizes := SizesIn(weights);
    var buffer := new TensorBuffer<T>(capacity, memory);
    wire := [];
    EmptyBuffer(weights, buffer.tensor[..]);
    for i := 0 to |weights|
      invariant buffer.Valid() && buffer.capacity == capacity && fresh(buffer) && fresh(buffer.tensor)
      invariant var p := PlanUpTo(capacity, sizes, i);
                && Holds(weights, p.pending, buffer.tensor[..]) && buffer.shapes == Picked(sizes, p.pending)
                && |wire| == |p.sent| && forall j :: 0 <= j < |wire| ==> Carries(weights, capacity, p.sent[j], wire[j])
    {
      ghost var p := PlanUpTo(capacity, sizes, i);
      var Weight(key, weight) := weights[i];
      if |weight| > capacity {
        wire := wire + [weight];
      } else {
        ghost var pending := p.pending;
        if Size(buffer.shapes) + |weight| > capacity {
          wire := wire + [buffer.tensor[..]];
          buffer.Clear();
          pending := [];
          EmptyBuffer(weights, buffer.tensor[..]);
        }
        ghost var was := buffer.tensor[..];
        buffer.Append(key, |weight|, Some(weight));
        SizeSnoc(sizes, pending, i);
        HoldsSnoc(weights, pending, i, was, buffer.tensor[..]);
        assert PlanUpTo(capacity, sizes, i + 1).pending == pending + [i];
      }
    }
    if Size(buffer.shapes) > 0 {
      wire := wire + [buffer.tensor[..]];
      buffer.Clear();
    }
  }

  function NumelsOf(infos: seq<Info>): (r: seq<nat>)
    ensures |r| == |infos|
  {
    seq(|infos|, i requires 0 <= i < |infos| => infos[i].numel)
  }

  function LengthOf(capacity: nat, sizes: seq<nat>, m: Message): nat {
    match m case Direct(i) => if i < |sizes| then sizes[i] else 0 case Bucket(_) => capacity
  }

  function InfoKeys(infos: seq<Info>, indices: seq<nat>): (r: seq<string>)
    requires Below(indices, |infos|)
    ensures |r| == |indices|
  {
    seq(|indices|, k requires 0 <= k < |indices| => infos[indices[k]].key)
  }

  /** What the receiver makes of a broadcast. */
  ghost predicate Loads<T>(infos: seq<Info>, m: Message, message: seq<T>, loaded: seq<Weight<T>>) {
    match m
    case Direct(i) => i < |infos| && loaded == [Weight(infos[i].key, message)]
    case Bucket(indices) =>
      && Below(indices, |infos|)
      && var shapes := Picked(NumelsOf(infos), indices);
         Size(shapes) <= |message| && loaded == Cut(InfoKeys(infos, indices), shapes, message)
  }

  lemma NoInfos(infos: seq<Info>)
    ensures Picked(NumelsOf(infos), []) == [] && Size([]) == 0 && InfoKeys(infos, []) == []
  {
  }

  lemma InfoKeysSnoc(infos: seq<Info>, indices: seq<nat>, i: nat)
    requires Below(indices, |infos|) && i < |infos|
    ensures InfoKeys(infos, indices + [i]) == InfoKeys(infos, indices) + [infos[i].key]
  {
  }

  lemma DirectLoads<T>(infos: seq<Info>, i: nat, message: seq<T>)
    requires i < |infos|
    ensures Loads(infos, Direct(i), message, [Weight(infos[i].key, message)])
  {
  }

  lemma BucketLoads<T>(infos: seq<Info>, indices: seq<nat>, message: seq<T>, loaded: seq<Weight<T>>)
    requires Below(indices, |infos|)
    requires var shapes := Picked(NumelsOf(infos), indices);
             Size(shapes) <= |message| && loaded == Cut(InfoKeys(infos, indices), shapes, message)
    ensures Loads(infos, Bucket(indices), message, loaded)
  {
  }

  /** A broadcast of the whole buffer is cut into its weights, and the buffer is cleared. */
  method ReceiveBucket<T>(infos: seq<Info>, ghost indices: seq<nat>, buffer: TensorBuffer<T>, message: seq<T>)
    returns (tensors: seq<Weight<T>>)
    requires buffer.Valid() && Below(indices, |infos|) && |message| == buffer.capacity
    requires buffer.shapes == Picked(NumelsOf(infos), indices) && buffer.keys == InfoKeys(infos, indices)
    modifies buffer, buffer.tensor
    ensures buffer.Valid()
    ensures buffer.keys == [] && buffer.shapes == [] && Size(buffer.shapes) == 0
    ensures Loads(infos, Bucket(indices), message, tensors)
  {
    hide Size, Picked, InfoKeys, Cut, Loads;
    buffer.Receive(message);
    tensors := buffer.ToTensors();
    BucketLoads(infos, indices, message, tensors);
    buffer.Clear();
  }

  /** The rollout's side: it takes the broadcasts one after the other, expecting of each the length
      that its own list of shapes tells it, and hands what each brought to `load_weights`. */
  method ReceiveWeights<T>(infos: seq<Info>, capacity: nat, memory: nat -> T, wire: seq<seq<T>>)
    returns (loads: seq<seq<Weight<T>>>)
    requires var plan := FullPlan(capacity, NumelsOf(infos));
             |wire| == |plan| && forall j :: 0 <= j < |wire| ==> |wire[j]| == LengthOf(capacity, NumelsOf(infos), plan[j])
    ensures |loads| == |wire|
    ensures var plan := FullPlan(capacity, NumelsOf(infos));
            forall j :: 0 <= j < |loads| ==> Loads(infos, plan[j], wire[j], loads[j])
  {
    hide Size, Picked, InfoKeys, Cut, Loads;
    ghost var sizes := NumelsOf(infos);
    ghost var plan := FullPlan(capacity, sizes);
    var buffer := new TensorBuffer<T>(capacity, memory);
    loads := [];
    NoInfos(infos);
    for i := 0 to |infos|
      invariant buffer.Valid() && buffer.capacity == capacity && fresh(buffer) && fresh(buffer.tensor)
      invariant var p := PlanUpTo(capacity, sizes, i);
                && buffer.shapes == Picked(sizes, p.pending) && buffer.keys == InfoKeys(infos, p.pending)
                && |loads| == |p.sent| <= |wire|
                && forall j :: 0 <= j < |loads| ==> Loads(infos, p.sent[j], wire[j], loads[j])
    {
      ghost var p := PlanUpTo(capacity, sizes, i);
      PlanGrows(capacity, sizes, i + 1);
      var Info(key, numel) := infos[i];
      if numel > capacity {
        var tensor := wire[|loads|];
        DirectLoads(infos, i, tensor);
        loads := loads + [[Weight(key, tensor)]];
      } else {
        ghost var pending := p.pending;
        if Size(buffer.shapes) + numel > capacity {
          var tensors := ReceiveBucket(infos, pending, buffer, wire[|loads|]);
          loads := loads + [tensors];
          pending := [];
        }
        buffer.Append(key, numel, None);
        SizeSnoc(sizes, pending, i);
        InfoKeysSnoc(infos, pending, i);
        assert |loads| == |PlanUpTo(capacity, sizes, i + 1).sent|;
        assert PlanUpTo(capacity, sizes, i + 1).pending == pending + [i];
      }
    }
    if Size(buffer.shapes) > 0 {
      var tensors := ReceiveBucket(infos, PlanUpTo(capacity, sizes, |infos|).pending, buffer, wire[|loads|]);
      loads := loads + [tensors];
    }
  }

  // ------------------------------------------------ both together

  /** What was put in comes out: key by key, with the sender's values. */
  lemma LoadsWhatIsCarried<T>(weights: seq<Weight<T>>, capacity: nat, m: Message, message: seq<T>, loaded: seq<Weight<T>>)
    requires Carries(weights, capacity, m, message) && Loads(InfosOf(weights), m, message, loaded)
    ensures Below(IndicesOf(m), |weights|) && loaded == Picked(weights, IndicesOf(m))
  {
    if m.Bucket? {
      var shapes := Picked(SizesIn(weights), m.indices);
      assert NumelsOf(InfosOf(weights)) == SizesIn(weights);
      forall k | 0 <= k < |m.indices|
        ensures loaded[k] == weights[m.indices[k]]
      {
        assert PartHolds(weights, m.indices, shapes, message, k);
      }
    }
  }

  lemma PickedConcat<T>(weights: seq<Weight<T>>, a: seq<nat>, b: seq<nat>)
    requires Below(a, |weights|) && Below(b, |weights|)
    ensures Below(a + b, |weights|) && Picked(weights, a + b) == Picked(weights, a) + Picked(weights, b)
  {
  }

  lemma {:induction false} LoadsAll<T>(weights: seq<Weight<T>>, capacity: nat, ms: seq<Message>, wire: seq<seq<T>>,
                                       loads: seq<seq<Weight<T>>>)
    requires |ms| == |wire| == |loads|
    requires forall j :: 0 <= j < |ms| ==> Carries(weights, capacity, ms[j], wire[j])
    requires forall j :: 0 <= j < |ms| ==> Loads(InfosOf(weights), ms[j], wire[j], loads[j])
    ensures Below(Order(ms), |weights|) && Flatten(loads) == Picked(weights, Order(ms))
  {
    hide Carries, Loads, Picked;
    if ms != [] {
      var n := |ms| - 1;
      LoadsAll(weights, capacity, ms[..n], wire[..n], loads[..n]);
      LoadsWhatIsCarried(weights, capacity, ms[n], wire[n], loads[n]);
      PickedConcat(weights, Order(ms[..n]), IndicesOf(ms[n]));
    } else {
      PickNone(weights);
    }
  }

  lemma PickNone<T>(weights: seq<Weight<T>>)
    ensures Picked(weights, []) == []
  {
  }

  /** A whole synchronisation. The two parties stay in lockstep; what is loaded is the weights in the
      order of the broadcasts; and that is each of them exactly once just when no weight is empty or
      some weight is neither empty nor oversize. */
  method SyncRolloutWeights<T>(weights: seq<Weight<T>>, capacity: nat, senderMemory: nat -> T, receiverMemory: nat -> T)
    returns (loads: seq<seq<Weight<T>>>)
    ensures var sizes := SizesIn(weights);
            var order := Order(FullPlan(capacity, sizes));
            && Below(order, |weights|) && Flatten(loads) == Picked(weights, order)
            && (multiset(order) == multiset(Range(|weights|))
                  <==> AnySmall(capacity, sizes, |weights|) || !AnyEmpty(sizes, |weights|))
  {
    var wire := SendWeights(weights, capacity, senderMemory);
    ghost var plan := FullPlan(capacity, SizesIn(weights));
    assert NumelsOf(InfosOf(weights)) == SizesIn(weights);
    forall j | 0 <= j < |wire|
      ensures |wire[j]| == LengthOf(capacity, SizesIn(weights), plan[j])
    {
      assert Carries(weights, capacity, plan[j], wire[j]);
    }
    loads := ReceiveWeights(InfosOf(weights), capacity, receiverMemory, wire);
    LoadsAll(weights, capacity, plan, wire, loads);
    EachWeightOnce(capacity, SizesIn(weights));
  }
}
