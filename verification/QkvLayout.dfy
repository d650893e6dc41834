/** The layout of fused attention weights: interleaved per group of query heads
    (scripts/converter_hf_to_mcore.py), split by rows among tensor-parallel ranks, and taken apart again
    (scripts/legacy_model_merger.py). A matrix is its sequence of rows; a bias is its entries. */
module QkvLayout {
  import opened Arith
  import opened Seqs

  /** The rows that belong to one key/value head: its queries, its keys, its values. */
  datatype Group<T> = Group(q: seq<T>, k: seq<T>, v: seq<T>)

  predicate Uniform<T>(gs: seq<Group<T>>, queries: nat, d: nat) {
    forall g :: 0 <= g < |gs| ==> |gs[g].q| == queries && |gs[g].k| == d && |gs[g].v| == d
  }

  function Rows<T>(g: Group<T>): seq<T> { g.q + g.k + g.v }

  /** The fused matrix: group after group. */
  function Joined<T>(gs: seq<Group<T>>): seq<T> {
    if gs == [] then [] else Joined(gs[..|gs| - 1]) + Rows(gs[|gs| - 1])
  }

  lemma {:induction false} JoinedConcat<T>(a: seq<Group<T>>, b: seq<Group<T>>)
    ensures Joined(a + b) == Joined(a) + Joined(b)
  {
    if b == [] {
      assert a + b == a;
    } else {
      assert (a + b)[..|a + b| - 1] == a + b[..|b| - 1];
      JoinedConcat(a, b[..|b| - 1]);
    }
  }

  lemma {:induction false} JoinedLength<T>(gs: seq<Group<T>>, queries: nat, d: nat, w: nat)
    requires Uniform(gs, queries, d) && w == queries + d + d
    ensures |Joined(gs)| == w * |gs|
  {
    if gs != [] {
      JoinedLength(gs[..|gs| - 1], queries, d, w);
      assert w * |gs| == w * (|gs| - 1) + w;
    }
  }

  /** Rows cut at group boundaries are the groups between them. */
  lemma SliceOfJoined<T>(gs: seq<Group<T>>, queries: nat, d: nat, w: nat, i: nat, j: nat)
    requires Uniform(gs, queries, d) && w == queries + d + d && i <= j <= |gs|
    ensures 0 <= w * i <= w * j <= |Joined(gs)| && Joined(gs)[w * i..w * j] == Joined(gs[i..j])
  {
    var a, b, c := gs[..i], gs[i..j], gs[j..];
    assert gs[..j] == a + b;
    assert gs == gs[..j] + c;
    JoinedConcat(a + b, c);
    JoinedConcat(a, b);
    JoinedLength(a, queries, d, w);
    JoinedLength(gs[..j], queries, d, w);
    Scale(w, 0, i);
    Scale(w, i, j);
    SliceOfThree(Joined(a), Joined(b), Joined(c));
  }

  lemma SliceOfThree<T>(a: seq<T>, b: seq<T>, c: seq<T>)
    ensures (a + b + c)[|a|..|a + b|] == b
  {
  }

  // ------------------------------------------------ the conversion

  lemma BlockFits(w: nat, g: nat, n: nat)
    requires g < n
    ensures 0 <= w * g <= w * g + w == w * (g + 1) <= w * n
  {
    Scale(w, g + 1, n);
    Scale(w, 0, g);
  }

  /** Entry g of a view with n entries of w rows. */
  function Block<T>(rows: seq<T>, w: nat, g: nat, n: nat): (r: seq<T>)
    requires g < n && |rows| == w * n
    ensures |r| == w
  {
    BlockFits(w, g, n);
    rows[w * g..w * g + w]
  }

  function View<T>(rows: seq<T>, w: nat, n: nat): (r: seq<seq<T>>)
    requires |rows| == w * n
    ensures |r| == n && forall g :: 0 <= g < n ==> |r[g]| == w
  {
    seq(n, g requires 0 <= g < n => Block(rows, w, g, n))
  }

  lemma {:induction false} FlattenView<T>(rows: seq<T>, w: nat, n: nat, m: nat)
    requires |rows| == w * n && m <= n
    ensures 0 <= w * m <= |rows| && Flatten(View(rows, w, n)[..m]) == rows[..w * m]
    decreases m
  {
    Scale(w, 0, m);
    Scale(w, m, n);
    if m > 0 {
      FlattenView(rows, w, n, m - 1);
      BlockFits(w, m - 1, n);
      assert View(rows, w, n)[..m][..m - 1] == View(rows, w, n)[..m - 1];
      assert rows[..w * m] == rows[..w * (m - 1)] + rows[w * (m - 1)..w * m];
    }
  }

  lemma ViewIsAll<T>(rows: seq<T>, w: nat, n: nat)
    requires |rows| == w * n
    ensures Flatten(View(rows, w, n)) == rows
  {
    FlattenView(rows, w, n, n);
    assert View(rows, w, n)[..n] == View(rows, w, n);
    assert rows[..w * n] == rows;
  }

  /** The matrices seen by key/value head. */
  function GroupsOf<T>(q: seq<T>, k: seq<T>, v: seq<T>, queries: nat, d: nat, n: nat): (r: seq<Group<T>>)
    requires |q| == queries * n && |k| == |v| == d * n
    ensures |r| == n && Uniform(r, queries, d)
  {
    seq(n, g requires 0 <= g < n => Group(Block(q, queries, g, n), Block(k, d, g, n), Block(v, d, g, n)))
  }

  /** `torch.cat([q, k, v], dim=1)` of the three views, flattened. */
  function Interleave<T>(q: seq<T>, k: seq<T>, v: seq<T>, queries: nat, d: nat, n: nat): seq<T>
    requires |q| == queries * n && |k| == |v| == d * n
  {
    Joined(GroupsOf(q, k, v, queries, d, n))
  }

  lemma JoinedOne<T>(g: Group<T>)
    ensures Joined([g]) == Rows(g)
  {
    assert [g][..0] == [];
    assert [] + Rows(g) == Rows(g);
  }

  lemma JoinedAt<T>(gs: seq<Group<T>>, queries: nat, d: nat, w: nat, g: nat)
    requires Uniform(gs, queries, d) && w == queries + d + d && g < |gs|
    ensures 0 <= w * g <= w * g + w <= |Joined(gs)| && Joined(gs)[w * g..w * g + w] == Rows(gs[g])
  {
    hide Joined, Rows, Uniform;
    SliceOfJoined(gs, queries, d, w, g, g + 1);
    BlockFits(w, g, |gs|);
    assert gs[g..g + 1] == [gs[g]];
    JoinedOne(gs[g]);
  }

  /** Where every row of the fused matrix comes from: the block of a key/value head holds that head's
      queries, then its keys, then its values. */
  lemma FusedRow<T>(q: seq<T>, k: seq<T>, v: seq<T>, queries: nat, d: nat, n: nat, w: nat, g: nat, i: nat)
    requires |q| == queries * n && |k| == |v| == d * n && w == queries + d + d && g < n && i < w
    ensures 0 <= w * g && w * g + i < |Interleave(q, k, v, queries, d, n)|
    ensures 0 <= queries * g <= queries * g + queries <= |q| && 0 <= d * g <= d * g + d <= |k|
    ensures Interleave(q, k, v, queries, d, n)[w * g + i] ==
            if i < queries then q[queries * g + i]
            else if i < queries + d then k[d * g + (i - queries)]
            else v[d * g + (i - queries - d)]
  {
    var gs := GroupsOf(q, k, v, queries, d, n);
    BlockFits(queries, g, n);
    BlockFits(d, g, n);
    JoinedAt(gs, queries, d, w, g);
    assert Joined(gs)[w * g + i] == Joined(gs)[w * g..w * g + w][i];
  }

  // ------------------------------------------------ the merge

  function Qs<T>(gs: seq<Group<T>>): (r: seq<seq<T>>)
    ensures |r| == |gs|
  {
    seq(|gs|, g requires 0 <= g < |gs| => gs[g].q)
  }

  function Ks<T>(gs: seq<Group<T>>): (r: seq<seq<T>>)
    ensures |r| == |gs|
  {
    seq(|gs|, g requires 0 <= g < |gs| => gs[g].k)
  }

  function Vs<T>(gs: seq<Group<T>>): (r: seq<seq<T>>)
    ensures |r| == |gs|
  {
    seq(|gs|, g requires 0 <= g < |gs| => gs[g].v)
  }

  method Cat<T>(parts: seq<seq<T>>) returns (r: seq<T>)
    ensures r == Flatten(parts)
  {
    r := [];
    for i := 0 to |parts|
      invariant r == Flatten(parts[..i])
    {
      assert parts[..i + 1][..i] == parts[..i];
      r := r + parts[i];
    }
    assert parts[..|parts|] == parts;
  }

  /** The sizes that the merger computes from the number of rows of a shard. */
  lemma SplitSizes(rows: nat, perKv: nat, d: nat, w: nat, groups: nat)
    requires groups >= 1 && w == perKv * d + d + d && rows == w * groups
    ensures rows % (perKv + 2) == 0 && rows / (perKv + 2) == d * groups
    ensures d * groups * perKv / groups == perKv * d && d * groups / groups == d && rows / groups == w
  {
    assert w == (perKv + 2) * d;
    assert rows == (perKv + 2) * (d * groups);
    DivUnique(rows, perKv + 2, d * groups);
    assert d * groups * perKv == groups * (perKv * d);
    DivUnique(groups * (perKv * d), groups, perKv * d);
    DivUnique(d * groups, groups, d);
    DivUnique(rows, groups, w);
  }

  /** One group is split into its three parts. */
  lemma SplitGroup<T>(g: Group<T>)
    ensures var rows := Rows(g);
            && rows[..|g.q|] == g.q && rows[|g.q|..|g.q| + |g.k|] == g.k && rows[|g.q| + |g.k|..] == g.v
  {
  }

  lemma PartsOfNone<T>(gs: seq<Group<T>>)
    ensures Qs(gs[..0]) == [] && Ks(gs[..0]) == [] && Vs(gs[..0]) == []
  {
  }

  lemma PartsOfMore<T>(gs: seq<Group<T>>, c: nat)
    requires c < |gs|
    ensures Qs(gs[..c + 1]) == Qs(gs[..c]) + [gs[c].q]
    ensures Ks(gs[..c + 1]) == Ks(gs[..c]) + [gs[c].k]
    ensures Vs(gs[..c + 1]) == Vs(gs[..c]) + [gs[c].v]
  {
  }

  /** The inner loop: the groups of one shard, one chunk each. */
  method SplitShard<T>(rows: seq<T>, groups: nat, qSize: nat, kvSize: nat, ghost own: seq<Group<T>>)
    returns (qs: seq<seq<T>>, ks: seq<seq<T>>, vs: seq<seq<T>>)
    requires groups >= 1 && |own| == groups && Uniform(own, qSize, kvSize) && rows == Joined(own)
    ensures qs == Qs(own) && ks == Ks(own) && vs == Vs(own)
  {
    hide Qs, Ks, Vs, Joined, Rows;
    ghost var w := qSize + kvSize + kvSize;
    JoinedLength(own, qSize, kvSize, w);
    DivUnique(|rows|, groups, w);
    var chunkSize := |rows| / groups;
    qs, ks, vs := [], [], [];
    PartsOfNone(own);
    for c := 0 to groups
      invariant qs == Qs(own[..c]) && ks == Ks(own[..c]) && vs == Vs(own[..c])
    {
      JoinedAt(own, qSize, kvSize, w, c);
      var chunk := rows[chunkSize * c..chunkSize * c + chunkSize];
      SplitGroup(own[c]);
      PartsOfMore(own, c);
      qs, ks, vs := qs + [chunk[..qSize]], ks + [chunk[qSize..qSize + kvSize]], vs + [chunk[qSize + kvSize..]];
    }
    assert own[..groups] == own;
  }

  /** The groups are spread over the shards, `groups` to each. */
  ghost predicate ShardsOf<T>(tpData: seq<seq<T>>, layout: seq<Group<T>>, queries: nat, d: nat, groups: nat) {
    && Uniform(layout, queries, d) && |layout| == groups * |tpData|
    && forall t :: 0 <= t < |tpData| ==> tpData[t] == Joined(Block(layout, groups, t, |tpData|))
  }

  lemma OwnUniform<T>(layout: seq<Group<T>>, queries: nat, d: nat, groups: nat, t: nat, tpSize: nat)
    requires Uniform(layout, queries, d) && t < tpSize && |layout| == groups * tpSize
    ensures Uniform(Block(layout, groups, t, tpSize), queries, d)
  {
    BlockFits(groups, t, tpSize);
  }

  lemma ShardRows<T>(tpData: seq<seq<T>>, layout: seq<Group<T>>, queries: nat, d: nat, groups: nat, t: nat)
    requires ShardsOf(tpData, layout, queries, d, groups) && t < |tpData|
    ensures |tpData[t]| == (queries + d + d) * groups
  {
    OwnUniform(layout, queries, d, groups, t, |tpData|);
    JoinedLength(Block(layout, groups, t, |tpData|), queries, d, queries + d + d);
  }

  /** What the lists hold after the groups gs. */
  ghost predicate Collected<T>(qs: seq<seq<T>>, ks: seq<seq<T>>, vs: seq<seq<T>>, gs: seq<Group<T>>) {
    qs == Qs(gs) && ks == Ks(gs) && vs == Vs(gs)
  }

  lemma CollectMore<T>(qs: seq<seq<T>>, ks: seq<seq<T>>, vs: seq<seq<T>>, layout: seq<Group<T>>, groups: nat, t: nat, tpSize: nat)
    requires t < tpSize && |layout| == groups * tpSize
    requires 0 <= groups * t <= |layout| && Collected(qs, ks, vs, layout[..groups * t])
    ensures 0 <= groups * (t + 1) <= |layout|
    ensures var own := Block(layout, groups, t, tpSize);
            Collected(qs + Qs(own), ks + Ks(own), vs + Vs(own), layout[..groups * (t + 1)])
  {
    BlockFits(groups, t, tpSize);
    assert layout[..groups * (t + 1)] == layout[..groups * t] + Block(layout, groups, t, tpSize);
  }

  lemma OneGroupAtLeast(n: nat, tp: nat)
    requires n >= 1 && tp >= 1 && n % tp == 0
    ensures n / tp >= 1 && n / tp * tp == n
  {
  }

  /** The branch of `_merge_across_tp` for fused attention weights. If the shards hold the groups of
      `layout` in order, the same number each, the result is all queries, all keys and all values. */
  method MergeAcrossTp<T>(tpData: seq<seq<T>>, numAttentionHeads: nat, numKeyValueHeads: nat, tpSize: nat,
                          ghost layout: seq<Group<T>>, ghost d: nat)
    returns (q: seq<T>, k: seq<T>, v: seq<T>)
    requires numKeyValueHeads >= 1 && numAttentionHeads % numKeyValueHeads == 0
    requires tpSize >= 1 && numKeyValueHeads % tpSize == 0 && |tpData| == tpSize
    requires ShardsOf(tpData, layout, numAttentionHeads / numKeyValueHeads * d, d, numKeyValueHeads / tpSize)
    ensures q == Flatten(Qs(layout)) && k == Flatten(Ks(layout)) && v == Flatten(Vs(layout))
  {
    hide Qs, Ks, Vs, Joined, Collected, Uniform, Block;
    var numQPerKv := numAttentionHeads / numKeyValueHeads;
    var groups := numKeyValueHeads / tpSize;
    OneGroupAtLeast(numKeyValueHeads, tpSize);
    ghost var queries := numQPerKv * d;
    ShardRows(tpData, layout, queries, d, groups, 0);
    SplitSizes(|tpData[0]|, numQPerKv, d, queries + d + d, groups);
    var kvSizePerTp := |tpData[0]| / (numQPerKv + 2);
    var qSize, kvSize := kvSizePerTp * numQPerKv / groups, kvSizePerTp / groups;
    var qList: seq<seq<T>>, kList: seq<seq<T>>, vList: seq<seq<T>> := [], [], [];
    CollectNone(layout);
    for t := 0 to |tpData|
      invariant 0 <= groups * t <= |layout| && Collected(qList, kList, vList, layout[..groups * t])
    {
      ghost var own := Block(layout, groups, t, tpSize);
      OwnUniform(layout, queries, d, groups, t, tpSize);
      var qs, ks, vs := SplitShard(tpData[t], groups, qSize, kvSize, own);
      CollectMore(qList, kList, vList, layout, groups, t, tpSize);
      qList, kList, vList := qList + qs, kList + ks, vList + vs;
    }
    assert layout[..groups * tpSize] == layout;
    AllCollected(qList, kList, vList, layout);
    q := Cat(qList);
    k := Cat(kList);
    v := Cat(vList);
  }

  lemma CollectNone<T>(layout: seq<Group<T>>)
    ensures Collected([], [], [], layout[..0])
  {
  }

  lemma AllCollected<T>(qs: seq<seq<T>>, ks: seq<seq<T>>, vs: seq<seq<T>>, gs: seq<Group<T>>)
    requires Collected(qs, ks, vs, gs)
    ensures qs == Qs(gs) && ks == Ks(gs) && vs == Vs(gs)
  {
  }

  // ------------------------------------------------ there and back

  /** The rows of rank t of tpSize: its equal share, in order. */
  function Shard<T>(rows: seq<T>, share: nat, t: nat, tpSize: nat): seq<T>
    requires t < tpSize && |rows| == share * tpSize
  {
    Block(rows, share, t, tpSize)
  }

  lemma ShardRow<T>(rows: seq<T>, share: nat, t: nat, tpSize: nat, i: nat)
    requires t < tpSize && |rows| == share * tpSize && i < share
    ensures 0 <= share * t && share * t + i < |rows| && Shard(rows, share, t, tpSize)[i] == rows[share * t + i]
  {
    BlockFits(share, t, tpSize);
  }

  /** Converting, sharding over any tensor-parallel size that divides the number of key/value heads, and
      merging gives back the three matrices row for row. */
  method ConvertShardMerge<T>(q: seq<T>, k: seq<T>, v: seq<T>, numAttentionHeads: nat, numKeyValueHeads: nat, headDim: nat, tpSize: nat)
    returns (q': seq<T>, k': seq<T>, v': seq<T>)
    requires numKeyValueHeads >= 1 && numAttentionHeads % numKeyValueHeads == 0 && tpSize >= 1 && numKeyValueHeads % tpSize == 0
    requires |q| == numAttentionHeads * headDim && |k| == |v| == numKeyValueHeads * headDim
    ensures q' == q && k' == k && v' == v
  {
    hide Qs, Ks, Vs, Joined, Uniform, Block;
    var queries := numAttentionHeads / numKeyValueHeads * headDim;
    var groups := numKeyValueHeads / tpSize;
    HeadSizes(numAttentionHeads, numKeyValueHeads, headDim, tpSize);
    var fused := Interleave(q, k, v, queries, headDim, numKeyValueHeads);
    ghost var layout := GroupsOf(q, k, v, queries, headDim, numKeyValueHeads);
    var share := |fused| / tpSize;
    ghost var w := queries + headDim + headDim;
    FusedShare(layout, queries, headDim, w, groups, tpSize);
    var tpData: seq<seq<T>> := [];
    for t := 0 to tpSize
      invariant |tpData| == t
      invariant forall t' :: 0 <= t' < t ==> tpData[t'] == Joined(Block(layout, groups, t', tpSize))
    {
      ShardIsGroups(layout, queries, headDim, w, groups, t, tpSize);
      tpData := tpData + [Shard(fused, share, t, tpSize)];
    }
    q', k', v' := MergeAcrossTp(tpData, numAttentionHeads, numKeyValueHeads, tpSize, layout, headDim);
    PartsOfGroups(q, k, v, queries, headDim, numKeyValueHeads);
  }

  lemma HeadSizes(heads: nat, kvHeads: nat, d: nat, tpSize: nat)
    requires kvHeads >= 1 && heads % kvHeads == 0 && tpSize >= 1 && kvHeads % tpSize == 0
    ensures heads * d == heads / kvHeads * d * kvHeads && kvHeads == kvHeads / tpSize * tpSize
    ensures 0 <= heads / kvHeads * d
  {
    var r := heads / kvHeads;
    assert heads == kvHeads * r;
    assert kvHeads * r * d == r * d * kvHeads;
    Scale(d, 0, r);
  }

  lemma FusedShare<T>(layout: seq<Group<T>>, queries: nat, d: nat, w: nat, groups: nat, tpSize: nat)
    requires Uniform(layout, queries, d) && w == queries + d + d && tpSize >= 1 && |layout| == groups * tpSize
    ensures |Joined(layout)| / tpSize == w * groups && |Joined(layout)| == w * groups * tpSize && 0 <= w * groups
  {
    JoinedLength(layout, queries, d, w);
    Scale(w, 0, groups);
    assert w * (groups * tpSize) == w * groups * tpSize;
    DivUnique(|Joined(layout)|, tpSize, w * groups);
  }

  lemma ShardIsGroups<T>(layout: seq<Group<T>>, queries: nat, d: nat, w: nat, groups: nat, t: nat, tpSize: nat)
    requires Uniform(layout, queries, d) && w == queries + d + d && t < tpSize && |layout| == groups * tpSize
    requires |Joined(layout)| == w * groups * tpSize && 0 <= w * groups
    ensures Shard(Joined(layout), w * groups, t, tpSize) == Joined(Block(layout, groups, t, tpSize))
  {
    hide Joined, Uniform;
    BlockFits(groups, t, tpSize);
    ShareBounds(w, groups, t);
    SliceOfJoined(layout, queries, d, w, groups * t, groups * t + groups);
  }

  lemma ShareBounds(w: nat, groups: nat, t: nat)
    ensures w * (groups * t) == w * groups * t
    ensures w * (groups * t + groups) == w * groups * t + w * groups
  {
  }

  lemma PartsOfGroups<T>(q: seq<T>, k: seq<T>, v: seq<T>, queries: nat, d: nat, n: nat)
    requires |q| == queries * n && |k| == |v| == d * n
    ensures var gs := GroupsOf(q, k, v, queries, d, n);
            Flatten(Qs(gs)) == q && Flatten(Ks(gs)) == k && Flatten(Vs(gs)) == v
  {
    var gs := GroupsOf(q, k, v, queries, d, n);
    assert Qs(gs) == View(q, queries, n) && Ks(gs) == View(k, d, n) && Vs(gs) == View(v, d, n);
    ViewIsAll(q, queries, n);
    ViewIsAll(k, d, n);
    ViewIsAll(v, d, n);
  }
}
