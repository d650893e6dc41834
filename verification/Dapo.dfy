/** Dynamic sampling (recipe/dapo/dapo_ray_trainer.py): generate, drop the prompts whose trajectories all
    score the same, and go on until a training batch is full. */
module Dapo {
  import opened Options
  import opened Seqs

  /** One trajectory as a row of the batch: the prompt it belongs to, its metric, and everything else. */
  datatype Row<M, R> = Row(uid: nat, metric: M, rest: R)

  /** A prompt with its trajectories: a metric and the rest for each. */
  datatype Group<M, R> = Group(uid: nat, members: seq<(M, R)>)

  /** What one round of generation yields: n trajectories for every prompt, and every prompt with an
      identifier of its own. */
  ghost predicate Generated<M, R>(groups: seq<Group<M, R>>, n: nat) {
    && (forall a :: 0 <= a < |groups| ==> |groups[a].members| == n)
    && (forall a, b :: 0 <= a < b < |groups| ==> groups[a].uid != groups[b].uid)
  }

  /** The rows of one prompt: repeating is interleaved, so they are next to each other. */
  function RowsOfGroup<M, R>(g: Group<M, R>): (r: seq<Row<M, R>>)
    ensures |r| == |g.members|
  {
    seq(|g.members|, i requires 0 <= i < |g.members| => Row(g.uid, g.members[i].0, g.members[i].1))
  }

  function RowsOf<M, R>(groups: seq<Group<M, R>>): seq<Row<M, R>> {
    if groups == [] then [] else RowsOf(groups[..|groups| - 1]) + RowsOfGroup(groups[|groups| - 1])
  }

  lemma {:induction false} RowsConcat<M, R>(a: seq<Group<M, R>>, b: seq<Group<M, R>>)
    ensures RowsOf(a + b) == RowsOf(a) + RowsOf(b)
  {
    hide RowsOfGroup;
    if b == [] {
      assert a + b == a;
    } else {
      assert (a + b)[..|a + b| - 1] == a + b[..|b| - 1];
      RowsConcat(a, b[..|b| - 1]);
    }
  }

  lemma RowsOfOne<M, R>(g: Group<M, R>)
    ensures RowsOf([g]) == RowsOfGroup(g)
  {
    assert [g][..0] == [];
  }

  /** Rows and prompts: n to one. */
  lemma {:induction false} RowCount<M, R>(groups: seq<Group<M, R>>, n: nat)
    requires forall a :: 0 <= a < |groups| ==> |groups[a].members| == n
    ensures |RowsOf(groups)| == n * |groups|
  {
    if groups != [] {
      RowCount(groups[..|groups| - 1], n);
      assert n * |groups| == n * (|groups| - 1) + n;
    }
  }

  /** Row n * a + i is trajectory i of prompt a. */
  lemma {:induction false} RowAt<M, R>(groups: seq<Group<M, R>>, n: nat, a: nat, i: nat)
    requires a < |groups| && i < n && forall b :: 0 <= b < |groups| ==> |groups[b].members| == n
    ensures n * a + i < |RowsOf(groups)|
    ensures RowsOf(groups)[n * a + i] == Row(groups[a].uid, groups[a].members[i].0, groups[a].members[i].1)
  {
    var last := |groups| - 1;
    RowCount(groups[..last], n);
    if a < last {
      RowAt(groups[..last], n, a, i);
    }
  }

  // ------------------------------------------------ which prompts are kept

  /** `np.std(vals) > 0`. */
  predicate Varies<M(==)>(vals: seq<M>) { exists i :: 0 <= i < |vals| && vals[i] != vals[0] }

  predicate Informative<M(==)>(vals: seq<M>) { Varies(vals) || |vals| == 1 }

  function Metrics<M, R>(g: Group<M, R>): (r: seq<M>)
    ensures |r| == |g.members|
  {
    seq(|g.members|, i requires 0 <= i < |g.members| => g.members[i].0)
  }

  /** The prompts that stay, in order. */
  function KeptGroups<M(==), R>(groups: seq<Group<M, R>>): seq<Group<M, R>> {
    if groups == [] then []
    else KeptGroups(groups[..|groups| - 1]) + if Informative(Metrics(groups[|groups| - 1])) then [groups[|groups| - 1]] else []
  }

  lemma {:induction false} KeptFrom<M, R>(groups: seq<Group<M, R>>, b: nat) returns (a: nat)
    requires b < |KeptGroups(groups)|
    ensures a < |groups| && KeptGroups(groups)[b] == groups[a] && Informative(Metrics(groups[a]))
  {
    var last := |groups| - 1;
    if b < |KeptGroups(groups[..last])| {
      a := KeptFrom(groups[..last], b);
    } else {
      a := last;
    }
  }

  lemma {:induction false} KeptAll<M, R>(groups: seq<Group<M, R>>, a: nat)
    requires a < |groups| && Informative(Metrics(groups[a]))
    ensures groups[a] in KeptGroups(groups)
  {
    if a < |groups| - 1 { KeptAll(groups[..|groups| - 1], a); }
  }

  lemma {:induction false} KeptGenerated<M, R>(groups: seq<Group<M, R>>, n: nat)
    requires Generated(groups, n)
    ensures Generated(KeptGroups(groups), n)
  {
    if groups != [] {
      var last := |groups| - 1;
      KeptGenerated(groups[..last], n);
      forall b | 0 <= b < |KeptGroups(groups[..last])|
        ensures KeptGroups(groups[..last])[b].uid != groups[last].uid
      {
        var a := KeptFrom(groups[..last], b);
      }
    }
  }

  lemma {:induction false} KeptConcat<M, R>(a: seq<Group<M, R>>, b: seq<Group<M, R>>)
    ensures KeptGroups(a + b) == KeptGroups(a) + KeptGroups(b)
  {
    if b == [] {
      assert a + b == a;
    } else {
      assert (a + b)[..|a + b| - 1] == a + b[..|b| - 1];
      KeptConcat(a, b[..|b| - 1]);
    }
  }

  // ------------------------------------------------ the filter on rows

  /** The metric values that the dict collects for one identifier. */
  function ValsOf<M, R>(rows: seq<Row<M, R>>, uid: nat): seq<M> {
    if rows == [] then []
    else ValsOf(rows[..|rows| - 1], uid) + if rows[|rows| - 1].uid == uid then [rows[|rows| - 1].metric] else []
  }

  /** Two rows of the prompt differ in the metric, or the prompt has a single row. */
  ghost predicate WorthKeeping<M, R>(rows: seq<Row<M, R>>, uid: nat) {
    || (exists i, j :: 0 <= i < |rows| && 0 <= j < |rows| && rows[i].uid == uid == rows[j].uid && rows[i].metric != rows[j].metric)
    || (exists i :: 0 <= i < |rows| && rows[i].uid == uid && forall j :: 0 <= j < |rows| && rows[j].uid == uid ==> j == i)
  }

  /** Which rows the metric values of a prompt come from. */
  lemma {:induction false} ValsFrom<M, R>(rows: seq<Row<M, R>>, uid: nat) returns (at: seq<nat>)
    ensures |at| == |ValsOf(rows, uid)|
    ensures forall k :: 0 <= k < |at| ==> at[k] < |rows| && rows[at[k]].uid == uid && rows[at[k]].metric == ValsOf(rows, uid)[k]
    ensures forall k, l :: 0 <= k < l < |at| ==> at[k] < at[l]
    ensures forall i :: 0 <= i < |rows| && rows[i].uid == uid ==> i in at
  {
    if rows == [] {
      at := [];
    } else {
      var last := |rows| - 1;
      at := ValsFrom(rows[..last], uid);
      if rows[last].uid == uid { at := at + [last]; }
    }
  }

  /** The test on the collected values is the test on the prompt's rows. */
  lemma InformativeRows<M, R>(rows: seq<Row<M, R>>, uid: nat)
    ensures ValsOf(rows, uid) != [] && Informative(ValsOf(rows, uid)) <==> WorthKeeping(rows, uid)
  {
    var vals := ValsOf(rows, uid);
    var at := ValsFrom(rows, uid);
    hide ValsOf;
    if vals != [] && Varies(vals) {
      var k :| 0 <= k < |vals| && vals[k] != vals[0];
      assert rows[at[k]].metric != rows[at[0]].metric;
    } else if |vals| == 1 {
      assert forall j :: 0 <= j < |rows| && rows[j].uid == uid ==> j in at && j == at[0];
    } else if WorthKeeping(rows, uid) {
      NotWorthKeeping(rows, uid, vals, at);
    }
  }

  lemma NotWorthKeeping<M, R>(rows: seq<Row<M, R>>, uid: nat, vals: seq<M>, at: seq<nat>)
    requires |at| == |vals| != 1 && (vals == [] || !Varies(vals))
    requires forall k :: 0 <= k < |at| ==> at[k] < |rows| && rows[at[k]].uid == uid && rows[at[k]].metric == vals[k]
    requires forall k, l :: 0 <= k < l < |at| ==> at[k] < at[l]
    requires forall i :: 0 <= i < |rows| && rows[i].uid == uid ==> i in at
    ensures !WorthKeeping(rows, uid)
  {
    forall i | 0 <= i < |rows| && rows[i].uid == uid
      ensures vals != [] && rows[i].metric == vals[0]
    {
      var k :| 0 <= k < |at| && at[k] == i;
      assert vals[k] == vals[0];
    }
    if vals != [] {
      assert at[0] < at[1] && rows[at[0]].uid == uid == rows[at[1]].uid;
    }
  }

  function Selected<M, R>(rows: seq<Row<M, R>>, uids: set<nat>): seq<Row<M, R>> {
    if rows == [] then []
    else Selected(rows[..|rows| - 1], uids) + if rows[|rows| - 1].uid in uids then [rows[|rows| - 1]] else []
  }

  /** The selected rows are the rows with a chosen identifier, in order. */
  lemma {:induction false} SelectedMeaning<M, R>(rows: seq<Row<M, R>>, uids: set<nat>) returns (at: seq<nat>)
    ensures |at| == |Selected(rows, uids)|
    ensures forall k :: 0 <= k < |at| ==> at[k] < |rows| && Selected(rows, uids)[k] == rows[at[k]]
    ensures forall k, l :: 0 <= k < l < |at| ==> at[k] < at[l]
    ensures forall i :: 0 <= i < |rows| ==> (i in at <==> rows[i].uid in uids)
  {
    if rows == [] {
      at := [];
    } else {
      var last := |rows| - 1;
      at := SelectedMeaning(rows[..last], uids);
      if rows[last].uid in uids { at := at + [last]; }
    }
  }

  lemma {:induction false} ValsConcat<M, R>(a: seq<Row<M, R>>, b: seq<Row<M, R>>, uid: nat)
    ensures ValsOf(a + b, uid) == ValsOf(a, uid) + ValsOf(b, uid)
  {
    if b == [] {
      assert a + b == a;
    } else {
      assert (a + b)[..|a + b| - 1] == a + b[..|b| - 1];
      ValsConcat(a, b[..|b| - 1], uid);
    }
  }

  lemma {:induction false} SelectedConcat<M, R>(a: seq<Row<M, R>>, b: seq<Row<M, R>>, uids: set<nat>)
    ensures Selected(a + b, uids) == Selected(a, uids) + Selected(b, uids)
  {
    if b == [] {
      assert a + b == a;
    } else {
      assert (a + b)[..|a + b| - 1] == a + b[..|b| - 1];
      SelectedConcat(a, b[..|b| - 1], uids);
    }
  }

  lemma {:induction false} ValsOfOne<M, R>(rows: seq<Row<M, R>>, owner: nat, uid: nat)
    requires forall i :: 0 <= i < |rows| ==> rows[i].uid == owner
    ensures |ValsOf(rows, uid)| == if uid == owner then |rows| else 0
    ensures uid == owner ==> forall i :: 0 <= i < |rows| ==> ValsOf(rows, uid)[i] == rows[i].metric
  {
    if rows != [] { ValsOfOne(rows[..|rows| - 1], owner, uid); }
  }

  lemma {:induction false} SelectedOfOne<M, R>(rows: seq<Row<M, R>>, owner: nat, uids: set<nat>)
    requires forall i :: 0 <= i < |rows| ==> rows[i].uid == owner
    ensures Selected(rows, uids) == if owner in uids then rows else []
  {
    if rows != [] { SelectedOfOne(rows[..|rows| - 1], owner, uids); }
  }

  lemma ValsOfGroup<M, R>(g: Group<M, R>, uid: nat)
    ensures ValsOf(RowsOfGroup(g), uid) == if uid == g.uid then Metrics(g) else []
  {
    ValsOfOne(RowsOfGroup(g), g.uid, uid);
  }

  lemma {:induction false} ValsOfNone<M, R>(groups: seq<Group<M, R>>, uid: nat)
    requires forall a :: 0 <= a < |groups| ==> groups[a].uid != uid
    ensures ValsOf(RowsOf(groups), uid) == []
  {
    if groups != [] {
      var last := |groups| - 1;
      ValsOfNone(groups[..last], uid);
      ValsConcat(RowsOf(groups[..last]), RowsOfGroup(groups[last]), uid);
      ValsOfGroup(groups[last], uid);
    }
  }

  /** For the rows of a round the dict holds, under each identifier, the metrics of its prompt. */
  lemma {:induction false} ValsOfRound<M, R>(groups: seq<Group<M, R>>, n: nat, a: nat)
    requires Generated(groups, n) && a < |groups|
    ensures ValsOf(RowsOf(groups), groups[a].uid) == Metrics(groups[a])
  {
    var last := |groups| - 1;
    ValsConcat(RowsOf(groups[..last]), RowsOfGroup(groups[last]), groups[a].uid);
    ValsOfGroup(groups[last], groups[a].uid);
    if a < last {
      ValsOfRound(groups[..last], n, a);
    } else {
      ValsOfNone(groups[..last], groups[a].uid);
    }
  }

  lemma SelectedOfGroup<M, R>(g: Group<M, R>, uids: set<nat>)
    ensures Selected(RowsOfGroup(g), uids) == if g.uid in uids then RowsOfGroup(g) else []
  {
    SelectedOfOne(RowsOfGroup(g), g.uid, uids);
  }

  /** Choosing the rows by identifier is choosing the prompts. */
  lemma {:induction false} SelectedOfRound<M, R>(groups: seq<Group<M, R>>, uids: set<nat>)
    requires forall a :: 0 <= a < |groups| ==> (groups[a].uid in uids <==> Informative(Metrics(groups[a])))
    ensures Selected(RowsOf(groups), uids) == RowsOf(KeptGroups(groups))
  {
    hide Informative, Metrics, RowsOfGroup;
    if groups != [] {
      var last := |groups| - 1;
      var g, before := groups[last], KeptGroups(groups[..last]);
      SelectedOfRound(groups[..last], uids);
      SelectedConcat(RowsOf(groups[..last]), RowsOfGroup(g), uids);
      SelectedOfGroup(g, uids);
      RowsConcat(before, [g]);
      RowsOfOne(g);
      assert RowsOf(before) + [] == RowsOf(before);
      assert KeptGroups(groups) == before + if Informative(Metrics(g)) then [g] else [];
      assert before + [] == before;
    }
  }

  function Uids<M, R>(groups: seq<Group<M, R>>): set<nat> { set a | 0 <= a < |groups| :: groups[a].uid }

  lemma {:induction false} UidCount<M, R>(groups: seq<Group<M, R>>, n: nat)
    requires Generated(groups, n)
    ensures |Uids(groups)| == |groups|
  {
    if groups != [] {
      var last := |groups| - 1;
      UidCount(groups[..last], n);
      assert Uids(groups) == Uids(groups[..last]) + {groups[last].uid};
    }
  }

  /** The dict from identifiers to metric values. */
  method CollectMetrics<M, R>(rows: seq<Row<M, R>>) returns (vals: map<nat, seq<M>>)
    ensures forall uid: nat :: uid in vals <==> ValsOf(rows, uid) != []
    ensures forall uid: nat :: uid in vals ==> vals[uid] == ValsOf(rows, uid)
  {
    vals := map[];
    for k := 0 to |rows|
      invariant forall uid: nat :: uid in vals <==> ValsOf(rows[..k], uid) != []
      invariant forall uid: nat :: uid in vals ==> vals[uid] == ValsOf(rows[..k], uid)
    {
      assert rows[..k + 1][..k] == rows[..k];
      var uid := rows[k].uid;
      vals := vals[uid := (if uid in vals then vals[uid] else []) + [rows[k].metric]];
    }
    assert rows[..|rows|] == rows;
  }

  method SelectRows<M, R>(rows: seq<Row<M, R>>, uids: set<nat>) returns (kept: seq<Row<M, R>>)
    ensures kept == Selected(rows, uids)
  {
    kept := [];
    for k := 0 to |rows|
      invariant kept == Selected(rows[..k], uids)
    {
      assert rows[..k + 1][..k] == rows[..k];
      if rows[k].uid in uids {
        kept := kept + [rows[k]];
      }
    }
    assert rows[..|rows|] == rows;
  }

  /** The identifiers worth keeping, and the rows that have them. */
  method FilterGroups<M(==), R>(rows: seq<Row<M, R>>) returns (kept: seq<Row<M, R>>, count: nat, uids: set<nat>)
    ensures forall uid: nat :: uid in uids <==> ValsOf(rows, uid) != [] && Informative(ValsOf(rows, uid))
    ensures forall uid: nat :: uid in uids <==> WorthKeeping(rows, uid)
    ensures kept == Selected(rows, uids) && count == |uids|
  {
    hide ValsOf, Selected, Informative, WorthKeeping;
    forall uid: nat
      ensures ValsOf(rows, uid) != [] && Informative(ValsOf(rows, uid)) <==> WorthKeeping(rows, uid)
    {
      InformativeRows(rows, uid);
    }
    var vals := CollectMetrics(rows);
    uids := set uid | uid in vals && Informative(vals[uid]);
    count := |uids|;
    kept := SelectRows(rows, uids);
  }

  /** On the rows of a round the filter keeps the prompts that are worth it, whole. */
  lemma FilterRound<M, R>(groups: seq<Group<M, R>>, n: nat, uids: set<nat>)
    requires Generated(groups, n) && n >= 1
    requires forall uid: nat :: uid in uids <==> ValsOf(RowsOf(groups), uid) != [] && Informative(ValsOf(RowsOf(groups), uid))
    ensures Selected(RowsOf(groups), uids) == RowsOf(KeptGroups(groups)) && |uids| == |KeptGroups(groups)|
  {
    hide Informative;
    forall a | 0 <= a < |groups|
      ensures groups[a].uid in uids <==> Informative(Metrics(groups[a]))
    {
      ValsOfRound(groups, n, a);
    }
    SelectedOfRound(groups, uids);
    KeptGenerated(groups, n);
    UidCount(KeptGroups(groups), n);
    forall uid: nat
      ensures uid in uids <==> uid in Uids(KeptGroups(groups))
    {
      UidKept(groups, n, uids, uid);
    }
    assert uids == Uids(KeptGroups(groups));
  }

  lemma UidKept<M, R>(groups: seq<Group<M, R>>, n: nat, uids: set<nat>, uid: nat)
    requires Generated(groups, n) && n >= 1
    requires forall u: nat :: u in uids ==> ValsOf(RowsOf(groups), u) != []
    requires forall a :: 0 <= a < |groups| ==> (groups[a].uid in uids <==> Informative(Metrics(groups[a])))
    ensures uid in uids <==> uid in Uids(KeptGroups(groups))
  {
    hide Informative, ValsOf, RowsOf, KeptGroups;
    if uid in uids {
      if forall a :: 0 <= a < |groups| ==> groups[a].uid != uid {
        ValsOfNone(groups, uid);
        assert false;
      }
      var a :| 0 <= a < |groups| && groups[a].uid == uid;
      KeptAll(groups, a);
      var b :| 0 <= b < |KeptGroups(groups)| && KeptGroups(groups)[b] == groups[a];
    }
    if uid in Uids(KeptGroups(groups)) {
      var b :| 0 <= b < |KeptGroups(groups)| && KeptGroups(groups)[b].uid == uid;
      var a := KeptFrom(groups, b);
    }
  }

  // ------------------------------------------------ the loop of fit

  /** The prompts worth keeping that rounds i to j - 1 generated. */
  function KeptIn<M(==), R>(rounds: seq<seq<Group<M, R>>>, i: nat, j: nat): seq<Group<M, R>>
    requires i <= j <= |rounds|
  {
    KeptGroups(Flatten(rounds[i..j]))
  }

  lemma KeptInNone<M, R>(rounds: seq<seq<Group<M, R>>>, i: nat)
    requires i <= |rounds|
    ensures KeptIn(rounds, i, i) == []
  {
  }

  lemma KeptInMore<M, R>(rounds: seq<seq<Group<M, R>>>, i: nat, j: nat)
    requires i <= j < |rounds|
    ensures KeptIn(rounds, i, j + 1) == KeptIn(rounds, i, j) + KeptGroups(rounds[j])
  {
    assert rounds[i..j + 1][..j - i] == rounds[i..j];
    KeptConcat(Flatten(rounds[i..j]), rounds[j]);
  }

  /** Rows cut after whole prompts. */
  lemma FirstRows<M, R>(groups: seq<Group<M, R>>, n: nat, m: nat)
    requires m <= |groups| && forall a :: 0 <= a < |groups| ==> |groups[a].members| == n
    ensures 0 <= n * m <= |RowsOf(groups)| && RowsOf(groups)[..n * m] == RowsOf(groups[..m])
  {
    assert groups == groups[..m] + groups[m..];
    RowsConcat(groups[..m], groups[m..]);
    RowCount(groups[..m], n);
    assert (RowsOf(groups[..m]) + RowsOf(groups[m..]))[..|RowsOf(groups[..m])|] == RowsOf(groups[..m]);
  }

  /** The rows trained on after rounds i to j - 1: the first trainBatchSize prompts worth keeping, with all
      their trajectories; one round less would not have been enough. */
  ghost predicate Complete<M, R>(rounds: seq<seq<Group<M, R>>>, i: nat, j: nat, trainBatchSize: nat, maxNumGenBatches: int,
                                 batch: seq<Row<M, R>>)
  {
    && i < j <= |rounds|
    && trainBatchSize <= |KeptIn(rounds, i, j)|
    && batch == RowsOf(KeptIn(rounds, i, j)[..trainBatchSize])
    && (j > i + 1 ==> |KeptIn(rounds, i, j - 1)| < trainBatchSize)
    && (maxNumGenBatches > 0 ==> j - i <= maxNumGenBatches)
  }

  function StartOf(ends: seq<nat>, s: nat): nat
    requires s <= |ends|
  {
    if s == 0 then 0 else ends[s - 1]
  }

  ghost predicate AllComplete<M, R>(rounds: seq<seq<Group<M, R>>>, trainBatchSize: nat, maxNumGenBatches: int,
                                        batches: seq<seq<Row<M, R>>>, ends: seq<nat>) {
    && |ends| == |batches|
    && forall s :: 0 <= s < |batches| ==> Complete(rounds, StartOf(ends, s), ends[s], trainBatchSize, maxNumGenBatches, batches[s])
  }

  lemma CompleteMore<M, R>(rounds: seq<seq<Group<M, R>>>, trainBatchSize: nat, maxNumGenBatches: int,
                           batches: seq<seq<Row<M, R>>>, ends: seq<nat>, batch: seq<Row<M, R>>, end: nat)
    requires AllComplete(rounds, trainBatchSize, maxNumGenBatches, batches, ends)
    requires Complete(rounds, StartOf(ends, |ends|), end, trainBatchSize, maxNumGenBatches, batch)
    ensures AllComplete(rounds, trainBatchSize, maxNumGenBatches, batches + [batch], ends + [end])
  {
    hide Complete;
    forall s | 0 <= s < |batches + [batch]|
      ensures Complete(rounds, StartOf(ends + [end], s), (ends + [end])[s], trainBatchSize, maxNumGenBatches, (batches + [batch])[s])
    {
      assert StartOf(ends + [end], s) == StartOf(ends, s);
    }
  }

  /** The loop over the generated rounds: the batches trained on, and after which round each was full.
      It fails exactly when maxNumGenBatches rounds in a row, after the last full batch, do not fill one.
      `held` records after each round how many rows are held and how many prompts are counted. */
  method Fit<M(==), R>(rounds: seq<seq<Group<M, R>>>, n: nat, trainBatchSize: nat, maxNumGenBatches: int)
    returns (batches: seq<seq<Row<M, R>>>, ends: seq<nat>, failed: bool, held: seq<(nat, nat)>)
    requires n >= 1 && forall r :: 0 <= r < |rounds| ==> Generated(rounds[r], n)
    ensures AllComplete(rounds, trainBatchSize, maxNumGenBatches, batches, ends)
    ensures StartOf(ends, |ends|) <= |rounds|
    ensures var start := StartOf(ends, |ends|);
            if failed then
              && 0 < maxNumGenBatches <= |rounds| - start
              && |KeptIn(rounds, start, start + maxNumGenBatches)| < trainBatchSize
            else
              && (start < |rounds| ==> |KeptIn(rounds, start, |rounds|)| < trainBatchSize)
              && (maxNumGenBatches > 0 && start < |rounds| ==> |rounds| - start < maxNumGenBatches)
    ensures |held| == if failed then StartOf(ends, |ends|) + maxNumGenBatches else |rounds|
    ensures forall r :: 0 <= r < |held| ==> held[r].0 == n * held[r].1
  {
    hide KeptIn, KeptGroups, RowsOf, Selected, ValsOf, Informative, AllComplete, WorthKeeping;
    batches, ends, held := [], [], [];
    NothingComplete<M, R>(rounds, trainBatchSize, maxNumGenBatches);
    var batch: Option<seq<Row<M, R>>>, numPromptInBatch, numGenBatches := None, 0, 0;
    HoldNone(rounds, 0, n);
    for r := 0 to |rounds|
      invariant AllComplete(rounds, trainBatchSize, maxNumGenBatches, batches, ends)
      invariant |ends| == |batches| && 0 <= numGenBatches <= r && StartOf(ends, |ends|) == r - numGenBatches
      invariant RowsHeld(rounds, r - numGenBatches, r, n, batch, numPromptInBatch)
      invariant numGenBatches > 0 ==> numPromptInBatch < trainBatchSize
      invariant maxNumGenBatches > 0 && numGenBatches > 0 ==> numGenBatches < maxNumGenBatches
      invariant |held| == r && forall k :: 0 <= k < r ==> held[k].0 == n * held[k].1
    {
      ghost var start := r - numGenBatches;
      numGenBatches := numGenBatches + 1;
      var newBatch := RowsOf(rounds[r]);
      var kept, count, uids := FilterGroups(newBatch);
      FilterRound(rounds[r], n, uids);
      HoldMore(rounds, start, r, n, batch, numPromptInBatch);
      numPromptInBatch := numPromptInBatch + count;
      batch := Some(if batch == None then kept else batch.value + kept);
      held := held + [(|batch.value|, numPromptInBatch)];
      if numPromptInBatch < trainBatchSize {
        if maxNumGenBatches <= 0 || numGenBatches < maxNumGenBatches {
          continue;
        } else {
          failed := true;
          return;
        }
      }
      CutBatch(rounds, start, r + 1, n, trainBatchSize, batch.value);
      batch := Some(batch.value[..n * trainBatchSize]);
      CompleteMore(rounds, trainBatchSize, maxNumGenBatches, batches, ends, batch.value, r + 1);
      batches, ends := batches + [batch.value], ends + [r + 1];
      batch, numPromptInBatch, numGenBatches := None, 0, 0;
      HoldNone(rounds, r + 1, n);
    }
    failed := false;
  }

  /** What the loop holds after rounds i to j - 1: always n rows for each prompt counted. */
  ghost predicate RowsHeld<M, R>(rounds: seq<seq<Group<M, R>>>, i: int, j: int, n: nat, batch: Option<seq<Row<M, R>>>,
                                 numPromptInBatch: int)
  {
    && 0 <= i <= j <= |rounds|
    && numPromptInBatch == |KeptIn(rounds, i, j)|
    && var rows := if batch == None then [] else batch.value;
       rows == RowsOf(KeptIn(rounds, i, j)) && |rows| == n * numPromptInBatch
  }

  lemma HoldNone<M, R>(rounds: seq<seq<Group<M, R>>>, i: nat, n: nat)
    requires i <= |rounds|
    ensures RowsHeld(rounds, i, i, n, None, 0)
  {
    KeptInNone(rounds, i);
  }

  lemma NothingComplete<M, R>(rounds: seq<seq<Group<M, R>>>, trainBatchSize: nat, maxNumGenBatches: int)
    ensures AllComplete<M, R>(rounds, trainBatchSize, maxNumGenBatches, [], [])
  {
  }

  lemma HoldMore<M, R>(rounds: seq<seq<Group<M, R>>>, i: nat, j: nat, n: nat, batch: Option<seq<Row<M, R>>>, num: int)
    requires j < |rounds| && Generated(rounds[j], n) && RowsHeld(rounds, i, j, n, batch, num)
    ensures var rows := RowsOf(KeptGroups(rounds[j]));
            RowsHeld(rounds, i, j + 1, n, Some(if batch == None then rows else batch.value + rows), num + |KeptGroups(rounds[j])|)
  {
    hide KeptIn, KeptGroups, RowsOf;
    KeptInMore(rounds, i, j);
    RowsConcat(KeptIn(rounds, i, j), KeptGroups(rounds[j]));
    KeptGenerated(rounds[j], n);
    RowCount(KeptGroups(rounds[j]), n);
    assert n * (num + |KeptGroups(rounds[j])|) == n * num + n * |KeptGroups(rounds[j])|;
    assert [] + RowsOf(KeptGroups(rounds[j])) == RowsOf(KeptGroups(rounds[j]));
  }

  lemma CutBatch<M, R>(rounds: seq<seq<Group<M, R>>>, i: nat, j: nat, n: nat, trainBatchSize: nat, batch: seq<Row<M, R>>)
    requires i <= j <= |rounds| && (forall r :: 0 <= r < |rounds| ==> Generated(rounds[r], n))
    requires trainBatchSize <= |KeptIn(rounds, i, j)| && batch == RowsOf(KeptIn(rounds, i, j))
    ensures 0 <= n * trainBatchSize <= |batch|
    ensures batch[..n * trainBatchSize] == RowsOf(KeptIn(rounds, i, j)[..trainBatchSize])
  {
    forall a | 0 <= a < |KeptIn(rounds, i, j)|
      ensures |KeptIn(rounds, i, j)[a].members| == n
    {
      var b := KeptFrom(Flatten(rounds[i..j]), a);
      PromptSizes(rounds[i..j], n, b);
    }
    FirstRows(KeptIn(rounds, i, j), n, trainBatchSize);
  }

  lemma {:induction false} PromptSizes<M, R>(rounds: seq<seq<Group<M, R>>>, n: nat, b: nat)
    requires (forall r :: 0 <= r < |rounds| ==> Generated(rounds[r], n)) && b < |Flatten(rounds)|
    ensures |Flatten(rounds)[b].members| == n
  {
    var last := |rounds| - 1;
    if b < |Flatten(rounds[..last])| { PromptSizes(rounds[..last], n, b); }
  }

  /** Two trajectories differ in the metric, or there is a single one. */
  ghost predicate MetricsDiffer<M, R>(g: Group<M, R>) {
    (exists i, j :: 0 <= i < |g.members| && 0 <= j < |g.members| && g.members[i].0 != g.members[j].0) || |g.members| == 1
  }

  lemma InformativeGroup<M, R>(g: Group<M, R>)
    ensures Informative(Metrics(g)) <==> MetricsDiffer(g)
  {
    var vals := Metrics(g);
    if Varies(vals) {
      var i :| 0 <= i < |vals| && vals[i] != vals[0];
      assert g.members[i].0 != g.members[0].0;
    } else {
      forall i, j | 0 <= i < |g.members| && 0 <= j < |g.members|
        ensures g.members[i].0 == g.members[j].0
      {
        assert vals[i] == vals[0] && vals[j] == vals[0];
      }
    }
  }

  lemma {:induction false} KeptAt<M, R>(groups: seq<Group<M, R>>) returns (at: seq<nat>)
    ensures |at| == |KeptGroups(groups)|
    ensures forall k :: 0 <= k < |at| ==> at[k] < |groups| && KeptGroups(groups)[k] == groups[at[k]]
    ensures forall k, l :: 0 <= k < l < |at| ==> at[k] < at[l]
    ensures forall a :: 0 <= a < |groups| ==> (a in at <==> Informative(Metrics(groups[a])))
  {
    if groups == [] {
      at := [];
    } else {
      hide Informative, Metrics;
      var last := |groups| - 1;
      at := KeptAt(groups[..last]);
      if Informative(Metrics(groups[last])) { at := at + [last]; }
    }
  }

  /** The prompts that stay are those whose metrics differ, in the order of the round. */
  lemma KeptMeaning<M, R>(groups: seq<Group<M, R>>) returns (at: seq<nat>)
    ensures |at| == |KeptGroups(groups)|
    ensures forall k :: 0 <= k < |at| ==> at[k] < |groups| && KeptGroups(groups)[k] == groups[at[k]]
    ensures forall k, l :: 0 <= k < l < |at| ==> at[k] < at[l]
    ensures forall a :: 0 <= a < |groups| ==> (a in at <==> MetricsDiffer(groups[a]))
  {
    hide MetricsDiffer, Informative, Metrics, KeptGroups;
    at := KeptAt(groups);
    forall a | 0 <= a < |groups|
      ensures a in at <==> MetricsDiffer(groups[a])
    {
      InformativeGroup(groups[a]);
    }
  }

  /** A batch that is trained on consists of exactly trainBatchSize complete prompts: n rows each, next to
      each other; each of its own; each generated in these rounds; and each with metrics that differ,
      or a single trajectory. */
  lemma BatchMeaning<M, R>(rounds: seq<seq<Group<M, R>>>, i: nat, j: nat, n: nat, trainBatchSize: nat, maxNumGenBatches: int,
                           batch: seq<Row<M, R>>)
    returns (prompts: seq<Group<M, R>>)
    requires Complete(rounds, i, j, trainBatchSize, maxNumGenBatches, batch) && Generated(Flatten(rounds[i..j]), n)
    ensures batch == RowsOf(prompts) && |prompts| == trainBatchSize && |batch| == n * trainBatchSize && Generated(prompts, n)
    ensures forall a :: 0 <= a < |prompts| ==> prompts[a] in Flatten(rounds[i..j]) && MetricsDiffer(prompts[a])
  {
    hide Informative, Metrics, RowsOf, MetricsDiffer;
    var kept := KeptIn(rounds, i, j);
    prompts := kept[..trainBatchSize];
    KeptGenerated(Flatten(rounds[i..j]), n);
    RowCount(prompts, n);
    forall a | 0 <= a < |prompts|
      ensures prompts[a] in Flatten(rounds[i..j]) && MetricsDiffer(prompts[a])
    {
      var b := KeptFrom(Flatten(rounds[i..j]), a);
      InformativeGroup(prompts[a]);
    }
  }
}
