/** What becomes of every parameter of every model when the state dicts are merged, and the loops that
    merge them (scripts/legacy_model_merger.py, `_merge_state_dicts`). */
module LayerMerge {
  import opened Options
  import opened Arith
  import opened LayerRenumber

  // ------------------------------------------------ names

  predicate OccursAt(s: string, part: string, i: nat) {
    i + |part| <= |s| && s[i..i + |part|] == part
  }

  /** `part` occurs in `pre + part + post` only after `pre`. */
  ghost predicate OccursOnce(pre: string, part: string, post: string) {
    forall i: nat :: OccursAt(pre + part + post, part, i) ==> i == |pre|
  }

  lemma OccursShift(a: string, t: string, part: string, i: nat)
    ensures OccursAt(a + t, part, |a| + i) <==> OccursAt(t, part, i)
  {
    if i + |part| <= |t| { assert (a + t)[|a| + i..|a| + i + |part|] == t[i..i + |part|]; }
  }

  lemma {:induction false} ReplaceNothing(s: string, part: string, other: string)
    requires |part| > 0 && forall i: nat :: !OccursAt(s, part, i)
    ensures Replace(s, part, other) == s
    decreases |s|
  {
    assert !OccursAt(s, part, 0);
    if |s| >= |part| {
      assert s == [s[0]] + s[1..];
      forall i: nat
        ensures !OccursAt(s[1..], part, i)
      {
        OccursShift([s[0]], s[1..], part, i);
      }
      ReplaceNothing(s[1..], part, other);
    }
  }

  lemma ReplaceLater(c: char, s: string, part: string, other: string)
    requires |part| > 0 && |s| >= |part| && !OccursAt([c] + s, part, 0)
    ensures Replace([c] + s, part, other) == [c] + Replace(s, part, other)
  {
    assert ([c] + s)[1..] == s;
  }

  /** `str.replace` goes from one occurrence of the part to the next. */
  lemma {:induction false} ReplaceNext(pre: string, part: string, rest: string, other: string)
    requires |part| > 0 && forall i: nat :: i < |pre| ==> !OccursAt(pre + part + rest, part, i)
    ensures Replace(pre + part + rest, part, other) == pre + other + Replace(rest, part, other)
    decreases |pre|
  {
    var s := pre + part + rest;
    if pre == "" {
      assert s == part + rest && s[..|part|] == part && s[|part|..] == rest;
      assert "" + other + Replace(rest, part, other) == other + Replace(rest, part, other);
    } else {
      hide Replace;
      var t := pre[1..] + part + rest;
      assert s == [pre[0]] + t;
      assert !OccursAt(s, part, 0);
      forall i: nat | i < |pre[1..]|
        ensures !OccursAt(t, part, i)
      {
        OccursShift([pre[0]], t, part, i);
      }
      ReplaceNext(pre[1..], part, rest, other);
      ReplaceLater(pre[0], t, part, other);
      assert [pre[0]] + (pre[1..] + other + Replace(rest, part, other)) == pre + other + Replace(rest, part, other);
    }
  }

  /** `str.replace` on a name in which the part occurs once. */
  lemma ReplaceOnce(pre: string, part: string, post: string, other: string)
    requires |part| > 0 && OccursOnce(pre, part, post)
    ensures Replace(pre + part + post, part, other) == pre + other + post
  {
    hide Replace;
    ReplaceNext(pre, part, post, other);
    forall i: nat
      ensures !OccursAt(post, part, i)
    {
      OccursShift(pre + part, post, part, i);
      assert !OccursAt(pre + part + post, part, |pre + part| + i);
    }
    ReplaceNothing(post, part, other);
  }

  /** The name is `pre`, the part, and `post`, and contains the part nowhere else. */
  ghost predicate SplitsAt(name: string, part: string, pre: string, post: string) {
    name == pre + part + post && OccursOnce(pre, part, post)
  }

  /** A fused weight can be recognised by its name. */
  ghost predicate WellNamed<V>(p: Parameter<V>) {
    match p.merged
    case One(_) => true
    case GateUp(_, _) => exists pre, post :: SplitsAt(p.name, "gate_up", pre, post)
    case Qkv(_, _, _) => exists pre, post :: SplitsAt(p.name, "qkv", pre, post)
  }

  /** What a parameter is to become: itself, or its parts under the names of the parts; nothing if it is
      skipped. */
  ghost predicate Becomes<V>(p: Parameter<V>, name: string, value: V) {
    && !p.skipped
    && match p.merged
       case One(t) => name == p.name && value == t
       case GateUp(gate, up) =>
         exists pre, post :: SplitsAt(p.name, "gate_up", pre, post)
                             && ((name == pre + "gate" + post && value == gate) || (name == pre + "up" + post && value == up))
       case Qkv(q, k, v) =>
         exists pre, post :: SplitsAt(p.name, "qkv", pre, post)
                             && ((name == pre + "q" + post && value == q) || (name == pre + "k" + post && value == k)
                                 || (name == pre + "v" + post && value == v))
  }

  lemma SplitUnique(name: string, part: string, pre: string, post: string, pre': string, post': string)
    requires SplitsAt(name, part, pre, post) && SplitsAt(name, part, pre', post')
    ensures pre == pre' && post == post'
  {
    assert name[|pre|..|pre| + |part|] == part && name[|pre'|..|pre'| + |part|] == part;
    assert OccursAt(name, part, |pre'|);
    assert pre == name[..|pre|] && pre' == name[..|pre'|];
    assert post == name[|pre| + |part|..] && post' == name[|pre'| + |part|..];
  }

  lemma QkvOutputs<V>(p: Parameter<V>, pre: string, post: string)
    requires !p.skipped && p.merged.Qkv? && SplitsAt(p.name, "qkv", pre, post)
    ensures Outputs(p) == [Entry(p.layer, pre + "q" + post, p.merged.q), Entry(p.layer, pre + "k" + post, p.merged.k),
                           Entry(p.layer, pre + "v" + post, p.merged.v)]
    ensures forall name, value :: Becomes(p, name, value) <==> Entry(p.layer, name, value) in Outputs(p)
    ensures DistinctNames(Outputs(p))
  {
    ReplaceOnce(pre, "qkv", post, "q");
    ReplaceOnce(pre, "qkv", post, "k");
    ReplaceOnce(pre, "qkv", post, "v");
    assert (pre + "q" + post)[|pre|] == 'q' && (pre + "k" + post)[|pre|] == 'k' && (pre + "v" + post)[|pre|] == 'v';
    forall name, value | Becomes(p, name, value)
      ensures Entry(p.layer, name, value) in Outputs(p)
    {
      var pre', post' :| SplitsAt(p.name, "qkv", pre', post')
                         && ((name == pre' + "q" + post' && value == p.merged.q) || (name == pre' + "k" + post' && value == p.merged.k)
                             || (name == pre' + "v" + post' && value == p.merged.v));
      SplitUnique(p.name, "qkv", pre, post, pre', post');
    }
  }

  lemma GateUpOutputs<V>(p: Parameter<V>, pre: string, post: string)
    requires !p.skipped && p.merged.GateUp? && SplitsAt(p.name, "gate_up", pre, post)
    ensures Outputs(p) == [Entry(p.layer, pre + "gate" + post, p.merged.gate), Entry(p.layer, pre + "up" + post, p.merged.up)]
    ensures forall name, value :: Becomes(p, name, value) <==> Entry(p.layer, name, value) in Outputs(p)
    ensures DistinctNames(Outputs(p))
  {
    ReplaceOnce(pre, "gate_up", post, "gate");
    ReplaceOnce(pre, "gate_up", post, "up");
    assert |pre + "gate" + post| != |pre + "up" + post|;
    forall name, value | Becomes(p, name, value)
      ensures Entry(p.layer, name, value) in Outputs(p)
    {
      var pre', post' :| SplitsAt(p.name, "gate_up", pre', post')
                         && (|| (name == pre' + "gate" + post' && value == p.merged.gate)
                             || (name == pre' + "up" + post' && value == p.merged.up));
      SplitUnique(p.name, "gate_up", pre, post, pre', post');
    }
  }

  /** The outputs of a parameter are what it is to become. */
  lemma OutputsAreMeant<V>(p: Parameter<V>)
    requires WellNamed(p)
    ensures forall name, value :: Becomes(p, name, value) <==> Entry(p.layer, name, value) in Outputs(p)
    ensures forall e :: e in Outputs(p) ==> e.layer == p.layer
    ensures DistinctNames(Outputs(p))
  {
    hide Replace;
    if !p.skipped {
      match p.merged {
        case One(_) =>
        case GateUp(_, _) =>
          var pre, post :| SplitsAt(p.name, "gate_up", pre, post);
          GateUpOutputs(p, pre, post);
        case Qkv(_, _, _) =>
          var pre, post :| SplitsAt(p.name, "qkv", pre, post);
          QkvOutputs(p, pre, post);
      }
    }
  }

  // ------------------------------------------------ one chunk

  /** The largest local layer number of a chunk's parameters, or 0. */
  function Largest<V>(parameters: seq<Parameter<V>>): (m: nat)
    ensures forall k :: 0 <= k < |parameters| && !parameters[k].skipped && parameters[k].layer.Some? ==> parameters[k].layer.value <= m
    ensures m == 0 || exists k :: 0 <= k < |parameters| && !parameters[k].skipped && parameters[k].layer == Some(m)
  {
    if parameters == [] then 0
    else
      var p, m := parameters[|parameters| - 1], Largest(parameters[..|parameters| - 1]);
      if !p.skipped && p.layer.Some? && p.layer.value > m then p.layer.value else m
  }

  lemma HandledSnoc<V>(chunk: Chunk<V>, e: Entry<V>)
    ensures LayersHandled(chunk + [e]) ==
            if e.layer.Some? && e.layer.value > LayersHandled(chunk) then e.layer.value else LayersHandled(chunk)
  {
    assert (chunk + [e])[..|chunk|] == chunk;
  }

  lemma HandledOutputs<V>(chunk: Chunk<V>, p: Parameter<V>)
    ensures LayersHandled(chunk + Outputs(p)) ==
            if !p.skipped && p.layer.Some? && p.layer.value > LayersHandled(chunk) then p.layer.value else LayersHandled(chunk)
  {
    hide LayersHandled, Replace;
    var out := Outputs(p);
    if p.skipped {
      assert chunk + out == chunk;
    } else {
      HandledSnoc(chunk, out[0]);
      if |out| == 1 {
        assert chunk + out == chunk + [out[0]];
      } else {
        HandledSnoc(chunk + [out[0]], out[1]);
        if |out| == 2 {
          assert chunk + out == chunk + [out[0]] + [out[1]];
        } else {
          HandledSnoc(chunk + [out[0]] + [out[1]], out[2]);
          assert chunk + out == chunk + [out[0]] + [out[1]] + [out[2]];
        }
      }
    }
  }

  lemma {:induction false} HandledIsLargest<V>(parameters: seq<Parameter<V>>)
    ensures LayersHandled(Expanded(parameters)) == Largest(parameters)
  {
    if parameters != [] {
      HandledIsLargest(parameters[..|parameters| - 1]);
      HandledOutputs(Expanded(parameters[..|parameters| - 1]), parameters[|parameters| - 1]);
    }
  }

  lemma {:induction false} ExpandedHas<V>(parameters: seq<Parameter<V>>, k: nat, e: Entry<V>)
    requires k < |parameters| && e in Outputs(parameters[k])
    ensures e in Expanded(parameters)
  {
    if k < |parameters| - 1 { ExpandedHas(parameters[..|parameters| - 1], k, e); }
  }

  lemma {:induction false} ExpandedFrom<V>(parameters: seq<Parameter<V>>, e: Entry<V>) returns (k: nat)
    requires e in Expanded(parameters)
    ensures k < |parameters| && e in Outputs(parameters[k])
  {
    if e in Outputs(parameters[|parameters| - 1]) {
      k := |parameters| - 1;
    } else {
      k := ExpandedFrom(parameters[..|parameters| - 1], e);
    }
  }

  /** The parameter or one of its parts is to be stored under this name. */
  ghost predicate Claims<V>(p: Parameter<V>, name: string) {
    match p.merged
    case One(t) => Becomes(p, name, t)
    case GateUp(gate, up) => Becomes(p, name, gate) || Becomes(p, name, up)
    case Qkv(q, k, v) => Becomes(p, name, q) || Becomes(p, name, k) || Becomes(p, name, v)
  }

  /** Two parameters are to be stored under a common name. */
  ghost predicate Clash<V>(p: Parameter<V>, q: Parameter<V>) { exists name :: Claims(p, name) && Claims(q, name) }

  lemma BecomesClaims<V>(p: Parameter<V>, name: string, value: V)
    requires Becomes(p, name, value)
    ensures Claims(p, name)
  {
  }

  ghost predicate ChunkClear<V>(parameters: seq<Parameter<V>>) {
    && (forall k :: 0 <= k < |parameters| ==> WellNamed(parameters[k]))
    && (forall j, k :: 0 <= j < k < |parameters| && parameters[j].layer == parameters[k].layer ==> !Clash(parameters[j], parameters[k]))
  }

  lemma DistinctConcat<V>(a: Chunk<V>, b: Chunk<V>)
    requires DistinctNames(a) && DistinctNames(b)
    requires forall d, e :: d in a && e in b ==> d.layer != e.layer || d.name != e.name
    ensures DistinctNames(a + b)
  {
    var c := a + b;
    forall i, j | 0 <= i < j < |c|
      ensures c[i].layer != c[j].layer || c[i].name != c[j].name
    {
      if i < |a| <= j { assert c[i] == a[i] && c[j] == b[j - |a|]; }
    }
  }

  lemma {:induction false} ExpandedDistinct<V>(parameters: seq<Parameter<V>>)
    requires ChunkClear(parameters)
    ensures DistinctNames(Expanded(parameters))
  {
    if parameters != [] {
      var front, last := parameters[..|parameters| - 1], parameters[|parameters| - 1];
      hide Clash, WellNamed, Outputs, DistinctNames, Becomes;
      ExpandedDistinct(front);
      OutputsAreMeant(last);
      forall d, e | d in Expanded(front) && e in Outputs(last)
        ensures d.layer != e.layer || d.name != e.name
      {
        var k := ExpandedFrom(front, d);
        OutputsAreMeant(front[k]);
        if d.name == e.name { CommonName(front[k], last, d, e); }
      }
      DistinctConcat(Expanded(front), Outputs(last));
    } else {
      assert Expanded(parameters) == [];
    }
  }

  lemma CommonName<V>(p: Parameter<V>, q: Parameter<V>, d: Entry<V>, e: Entry<V>)
    requires WellNamed(p) && WellNamed(q) && d in Outputs(p) && e in Outputs(q) && d.name == e.name
    ensures Clash(p, q)
  {
    hide Becomes, Outputs, WellNamed;
    OutputsAreMeant(p);
    OutputsAreMeant(q);
    assert d == Entry(p.layer, d.name, d.value) && e == Entry(q.layer, d.name, e.value);
    BecomesClaims(p, d.name, d.value);
    BecomesClaims(q, d.name, e.value);
  }

  // ------------------------------------------------ all models

  ghost predicate Grid<X>(models: seq<seq<X>>, vppSize: nat) { forall p :: 0 <= p < |models| ==> |models[p]| == vppSize }

  /** The numbers used up by the first p pipeline ranks of virtual rank v. */
  function RanksBefore<V>(models: seq<seq<seq<Parameter<V>>>>, v: nat, p: nat): nat
    requires p <= |models| && forall i :: 0 <= i < p ==> v < |models[i]|
  {
    if p == 0 then 0 else RanksBefore(models, v, p - 1) + Largest(models[p - 1][v]) + 1
  }

  /** The numbers used up by all pipeline ranks of the first v virtual ranks. */
  function VirtualRanksBefore<V>(models: seq<seq<seq<Parameter<V>>>>, v: nat): nat
    requires forall i :: 0 <= i < |models| ==> v <= |models[i]|
  {
    if v == 0 then 0 else VirtualRanksBefore(models, v - 1) + RanksBefore(models, v - 1, |models|)
  }

  /** Where the numbers of the layers of `models[p][v]` start. */
  function StartOf<V>(models: seq<seq<seq<Parameter<V>>>>, v: nat, p: nat): nat
    requires p <= |models| && forall i :: 0 <= i < |models| ==> v < |models[i]|
  {
    VirtualRanksBefore(models, v) + RanksBefore(models, v, p)
  }

  lemma {:induction false} VisitedLength<X>(models: seq<seq<X>>, vppSize: nat, done: nat, ranks: nat)
    requires Grid(models, vppSize) && ranks <= |models| && done + (if ranks > 0 then 1 else 0) <= vppSize
    ensures |Visited(models, done, ranks)| == done * |models| + ranks
    decreases done, ranks
  {
    if ranks > 0 {
      VisitedLength(models, vppSize, done, ranks - 1);
    } else if done > 0 {
      VisitedLength(models, vppSize, done - 1, |models|);
      assert done * |models| == (done - 1) * |models| + |models|;
    }
  }

  /** The place of `models[p][v]` in the order of the loops. */
  lemma {:induction false} VisitedAt<X>(models: seq<seq<X>>, vppSize: nat, done: nat, ranks: nat, v: nat, p: nat)
    requires Grid(models, vppSize) && ranks <= |models| && done + (if ranks > 0 then 1 else 0) <= vppSize
    requires p < |models| && (v < done || (v == done && p < ranks))
    ensures v * |models| + p < |Visited(models, done, ranks)|
    ensures Visited(models, done, ranks)[v * |models| + p] == models[p][v]
    decreases done, ranks
  {
    VisitedLength(models, vppSize, done, ranks);
    if ranks > 0 {
      VisitedLength(models, vppSize, done, ranks - 1);
      if v < done || p < ranks - 1 { VisitedAt(models, vppSize, done, ranks - 1, v, p); }
    } else {
      VisitedAt(models, vppSize, done - 1, |models|, v, p);
    }
  }

  /** Every place in that order is that of one model. */
  lemma {:induction false} PlaceOf<X>(models: seq<seq<X>>, vppSize: nat, done: nat, ranks: nat, i: nat) returns (v: nat, p: nat)
    requires Grid(models, vppSize) && ranks <= |models| && done + (if ranks > 0 then 1 else 0) <= vppSize
    requires i < |Visited(models, done, ranks)|
    ensures p < |models| && (v < done || (v == done && p < ranks)) && i == v * |models| + p
    decreases done, ranks
  {
    if ranks > 0 {
      VisitedLength(models, vppSize, done, ranks - 1);
      if i == |Visited(models, done, ranks - 1)| {
        v, p := done, ranks - 1;
      } else {
        v, p := PlaceOf(models, vppSize, done, ranks - 1, i);
      }
    } else {
      v, p := PlaceOf(models, vppSize, done - 1, |models|, i);
    }
  }

  ghost function ChunksOf<V>(models: seq<seq<seq<Parameter<V>>>>, vppSize: nat): seq<Chunk<V>>
    requires Grid(models, vppSize)
  {
    AllExpanded(Visited(models, vppSize, 0))
  }

  lemma {:induction false} CumIsStart<V>(models: seq<seq<seq<Parameter<V>>>>, vppSize: nat, v: nat, p: nat)
    requires Grid(models, vppSize) && p <= |models| && v < vppSize
    ensures v * |models| + p <= |ChunksOf(models, vppSize)|
    ensures LayersCum(ChunksOf(models, vppSize), v * |models| + p) == StartOf(models, v, p)
    decreases v, p
  {
    hide LayersHandled, Expanded, Largest;
    var chunks := ChunksOf(models, vppSize);
    if p > 0 {
      CumIsStart(models, vppSize, v, p - 1);
      VisitedAt(models, vppSize, vppSize, 0, v, p - 1);
      HandledIsLargest(models[p - 1][v]);
    } else if v > 0 {
      CumIsStart(models, vppSize, v - 1, |models|);
      assert v * |models| + 0 == (v - 1) * |models| + |models|;
    }
  }

  // ------------------------------------------------ what the dict holds

  function Shifted(layer: Option<nat>, start: nat): Option<nat> {
    match layer case None => None case Some(l) => Some(l + start)
  }

  ghost predicate Holds<V>(stateDict: map<Key, V>, layer: Option<nat>, name: string, value: V) {
    Key(layer, name) in stateDict && stateDict[Key(layer, name)] == value
  }

  /** The parameter, or every part of a fused one, is stored under its own name and the given layer. */
  ghost predicate Placed<V>(stateDict: map<Key, V>, p: Parameter<V>, layer: Option<nat>) {
    match p.merged
    case One(t) => Holds(stateDict, layer, p.name, t)
    case GateUp(gate, up) =>
      forall pre, post :: SplitsAt(p.name, "gate_up", pre, post) ==>
        Holds(stateDict, layer, pre + "gate" + post, gate) && Holds(stateDict, layer, pre + "up" + post, up)
    case Qkv(q, k, v) =>
      forall pre, post :: SplitsAt(p.name, "qkv", pre, post) ==>
        && Holds(stateDict, layer, pre + "q" + post, q) && Holds(stateDict, layer, pre + "k" + post, k)
        && Holds(stateDict, layer, pre + "v" + post, v)
  }

  ghost predicate AllClear<V>(models: seq<seq<seq<Parameter<V>>>>, vppSize: nat)
    requires Grid(models, vppSize)
  {
    forall p, v :: 0 <= p < |models| && 0 <= v < vppSize ==> ChunkClear(models[p][v])
  }

  /** No model that the loops visit later has a parameter outside the layers that clashes with this one. */
  ghost predicate LastClaim<V>(models: seq<seq<seq<Parameter<V>>>>, vppSize: nat, p: nat, v: nat, k: nat)
    requires Grid(models, vppSize) && p < |models| && v < vppSize && k < |models[p][v]|
  {
    forall p', v', k' :: 0 <= p' < |models| && 0 <= v' < vppSize && 0 <= k' < |models[p'][v']|
                         && (v' > v || (v' == v && p' > p)) && models[p'][v'][k'].layer.None? ==>
      !Clash(models[p][v][k], models[p'][v'][k'])
  }

  /** Every parameter that is not skipped is found under its own name and, if it belongs to a layer, the
      local number plus all numbers that the models before it use up; one outside the layers if no later
      model replaces it. And there is nothing else in the dict. */
  ghost predicate MergedAsMeant<V>(models: seq<seq<seq<Parameter<V>>>>, vppSize: nat, stateDict: map<Key, V>)
    requires Grid(models, vppSize)
  {
    && (forall p, v, k :: 0 <= p < |models| && 0 <= v < vppSize && 0 <= k < |models[p][v]| && !models[p][v][k].skipped
                          && (models[p][v][k].layer.Some? || LastClaim(models, vppSize, p, v, k)) ==>
          Placed(stateDict, models[p][v][k], Shifted(models[p][v][k].layer, StartOf(models, v, p))))
    && (forall key :: key in stateDict ==> HasSource(models, vppSize, key, stateDict[key]))
  }

  ghost predicate HasSource<V>(models: seq<seq<seq<Parameter<V>>>>, vppSize: nat, key: Key, value: V)
    requires Grid(models, vppSize)
  {
    exists p, v, k :: 0 <= p < |models| && 0 <= v < vppSize && 0 <= k < |models[p][v]|
                      && Becomes(models[p][v][k], key.name, value)
                      && key.layer == Shifted(models[p][v][k].layer, StartOf(models, v, p))
  }

  ghost function MergedDict<V>(models: seq<seq<seq<Parameter<V>>>>, vppSize: nat): map<Key, V>
    requires Grid(models, vppSize)
  {
    WithChunks(ChunksOf(models, vppSize), |ChunksOf(models, vppSize)|)
  }

  lemma ChunkAt<V>(models: seq<seq<seq<Parameter<V>>>>, vppSize: nat, p: nat, v: nat) returns (i: nat)
    requires Grid(models, vppSize) && p < |models| && v < vppSize
    ensures i == v * |models| + p < |ChunksOf(models, vppSize)|
    ensures ChunksOf(models, vppSize)[i] == Expanded(models[p][v]) && LayersCum(ChunksOf(models, vppSize), i) == StartOf(models, v, p)
  {
    hide LayersCum, StartOf, Visited, Expanded;
    i := v * |models| + p;
    VisitedAt(models, vppSize, vppSize, 0, v, p);
    CumIsStart(models, vppSize, v, p);
  }

  lemma LaterPlace(n: nat, v: nat, p: nat, v': nat, p': nat)
    requires p < n && p' < n && v * n + p < v' * n + p'
    ensures v' > v || (v' == v && p' > p)
  {
    if v' < v { Scale(n, v' + 1, v); }
  }

  /** One output of a parameter is found in the dict. */
  lemma OutputPlaced<V>(models: seq<seq<seq<Parameter<V>>>>, vppSize: nat, p: nat, v: nat, k: nat, e: Entry<V>)
    requires Grid(models, vppSize) && AllClear(models, vppSize) && p < |models| && v < vppSize && k < |models[p][v]|
    requires models[p][v][k].layer.Some? || LastClaim(models, vppSize, p, v, k)
    requires e in Outputs(models[p][v][k])
    ensures Holds(MergedDict(models, vppSize), Shifted(e.layer, StartOf(models, v, p)), e.name, e.value)
  {
    hide Expanded, Outputs, LayersCum, WithChunks, DistinctNames, ChunkClear, StartOf;
    var chunks := ChunksOf(models, vppSize);
    var i := ChunkAt(models, vppSize, p, v);
    ExpandedHas(models[p][v], k, e);
    ExpandedDistinct(models[p][v]);
    var l :| 0 <= l < |chunks[i]| && chunks[i][l] == e;
    forall j, m | i < j < |chunks| && 0 <= m < |chunks[j]|
      ensures GlobalKey(chunks[j][m], LayersCum(chunks, j)) != GlobalKey(e, LayersCum(chunks, i))
    {
      if e.layer.Some? {
        if chunks[j][m].layer.Some? { OrderPreserved(chunks, i, l, j, m); }
      } else {
        LaterOutput(models, vppSize, p, v, k, e, j, m);
      }
    }
    KeptToTheEnd(chunks, |chunks|, i, l);
  }

  /** An output outside the layers of a later model has another name. */
  lemma LaterOutput<V>(models: seq<seq<seq<Parameter<V>>>>, vppSize: nat, p: nat, v: nat, k: nat, e: Entry<V>, j: nat, m: nat)
    requires Grid(models, vppSize) && AllClear(models, vppSize) && p < |models| && v < vppSize && k < |models[p][v]|
    requires e in Outputs(models[p][v][k]) && e.layer.None?
    requires models[p][v][k].layer.Some? || LastClaim(models, vppSize, p, v, k)
    requires v * |models| + p < j < |ChunksOf(models, vppSize)| && m < |ChunksOf(models, vppSize)[j]|
    ensures ChunksOf(models, vppSize)[j][m].layer.Some? || ChunksOf(models, vppSize)[j][m].name != e.name
  {
    hide Expanded, Outputs, LayersCum, WellNamed, Clash, StartOf;
    var d := ChunksOf(models, vppSize)[j][m];
    var v', p' := PlaceOf(models, vppSize, vppSize, 0, j);
    var j' := ChunkAt(models, vppSize, p', v');
    LaterPlace(|models|, v, p, v', p');
    var k' := ExpandedFrom(models[p'][v'], d);
    assert ChunkClear(models[p][v]) && ChunkClear(models[p'][v']);
    OutputsAreMeant(models[p][v][k]);
    OutputsAreMeant(models[p'][v'][k']);
    if d.layer.None? && d.name == e.name { CommonName(models[p][v][k], models[p'][v'][k'], e, d); }
  }

  lemma ParameterPlaced<V>(models: seq<seq<seq<Parameter<V>>>>, vppSize: nat, p: nat, v: nat, k: nat)
    requires Grid(models, vppSize) && AllClear(models, vppSize) && p < |models| && v < vppSize && k < |models[p][v]|
    requires models[p][v][k].layer.Some? || LastClaim(models, vppSize, p, v, k)
    requires !models[p][v][k].skipped
    ensures Placed(MergedDict(models, vppSize), models[p][v][k], Shifted(models[p][v][k].layer, StartOf(models, v, p)))
  {
    hide AllClear, LastClaim, StartOf, MergedDict, OccursOnce;
    var par := models[p][v][k];
    forall e | e in Outputs(par)
      ensures Holds(MergedDict(models, vppSize), Shifted(e.layer, StartOf(models, v, p)), e.name, e.value)
    {
      OutputPlaced(models, vppSize, p, v, k, e);
    }
    match par.merged {
      case One(t) => assert Entry(par.layer, par.name, t) in Outputs(par);
      case GateUp(gate, up) =>
        forall pre, post | SplitsAt(par.name, "gate_up", pre, post)
          ensures Entry(par.layer, pre + "gate" + post, gate) in Outputs(par) && Entry(par.layer, pre + "up" + post, up) in Outputs(par)
        {
          GateUpOutputs(par, pre, post);
        }
      case Qkv(q, k, v) =>
        forall pre, post | SplitsAt(par.name, "qkv", pre, post)
          ensures Entry(par.layer, pre + "q" + post, q) in Outputs(par) && Entry(par.layer, pre + "k" + post, k) in Outputs(par)
          ensures Entry(par.layer, pre + "v" + post, v) in Outputs(par)
        {
          QkvOutputs(par, pre, post);
        }
    }
  }

  lemma KeyHasSource<V>(models: seq<seq<seq<Parameter<V>>>>, vppSize: nat, key: Key)
    requires Grid(models, vppSize) && AllClear(models, vppSize) && key in MergedDict(models, vppSize)
    ensures HasSource(models, vppSize, key, MergedDict(models, vppSize)[key])
  {
    hide Expanded, Outputs, LayersCum, WithChunks, WellNamed, Clash, Becomes, StartOf;
    var chunks := ChunksOf(models, vppSize);
    var i, l := KeySource(chunks, |chunks|, key);
    var v, p := PlaceOf(models, vppSize, vppSize, 0, i);
    var i' := ChunkAt(models, vppSize, p, v);
    var k := ExpandedFrom(models[p][v], chunks[i][l]);
    assert ChunkClear(models[p][v]);
    OutputsAreMeant(models[p][v][k]);
    assert chunks[i][l] == Entry(models[p][v][k].layer, key.name, chunks[i][l].value);
    assert Becomes(models[p][v][k], key.name, chunks[i][l].value);
    assert key.layer == Shifted(models[p][v][k].layer, StartOf(models, v, p));
  }

  lemma DictIsAsMeant<V>(models: seq<seq<seq<Parameter<V>>>>, vppSize: nat)
    requires Grid(models, vppSize) && AllClear(models, vppSize)
    ensures MergedAsMeant(models, vppSize, MergedDict(models, vppSize))
  {
    hide AllClear, MergedDict, Placed, HasSource, StartOf, LastClaim;
    forall p, v, k | 0 <= p < |models| && 0 <= v < vppSize && 0 <= k < |models[p][v]| && !models[p][v][k].skipped
                     && (models[p][v][k].layer.Some? || LastClaim(models, vppSize, p, v, k))
      ensures Placed(MergedDict(models, vppSize), models[p][v][k], Shifted(models[p][v][k].layer, StartOf(models, v, p)))
    {
      ParameterPlaced(models, vppSize, p, v, k);
    }
    forall key | key in MergedDict(models, vppSize)
      ensures HasSource(models, vppSize, key, MergedDict(models, vppSize)[key])
    {
      KeyHasSource(models, vppSize, key);
    }
  }

  // ------------------------------------------------ the loops

  lemma {:induction false} EntriesOfPart<V>(stateDict: map<Key, V>, chunk: Chunk<V>, more: Chunk<V>, layersCum: nat, n: nat)
    requires n <= |chunk|
    ensures WithEntries(stateDict, chunk + more, layersCum, n) == WithEntries(stateDict, chunk, layersCum, n)
  {
    if n > 0 { EntriesOfPart(stateDict, chunk, more, layersCum, n - 1); }
  }

  lemma OneMoreEntry<V>(stateDict: map<Key, V>, chunk: Chunk<V>, e: Entry<V>, layersCum: nat)
    ensures var before := WithEntries(stateDict, chunk, layersCum, |chunk|);
            WithEntries(stateDict, chunk + [e], layersCum, |chunk| + 1) == before[GlobalKey(e, layersCum) := e.value]
    ensures var before := LayersHandled(chunk);
            LayersHandled(chunk + [e]) == if e.layer.Some? && e.layer.value > before then e.layer.value else before
  {
    EntriesOfPart(stateDict, chunk, [e], layersCum, |chunk|);
    assert (chunk + [e])[..|chunk|] == chunk;
  }

  /** One output is written into the dict. */
  method Write<V>(before: map<Key, V>, e: Entry<V>, layersCum: nat, ghost stateDict: map<Key, V>, ghost chunk: Chunk<V>)
    returns (after: map<Key, V>, ghost written: Chunk<V>)
    requires before == WithEntries(stateDict, chunk, layersCum, |chunk|)
    ensures written == chunk + [e] && after == WithEntries(stateDict, written, layersCum, |written|)
    ensures var handled := LayersHandled(chunk);
            LayersHandled(written) == if e.layer.Some? && e.layer.value > handled then e.layer.value else handled
  {
    OneMoreEntry(stateDict, chunk, e, layersCum);
    written := chunk + [e];
    after := before[GlobalKey(e, layersCum) := e.value];
  }

  /** The body of the loop over the keys of one chunk. */
  method MergeParameter<V>(before: map<Key, V>, p: Parameter<V>, layersCum: nat, handled: nat,
                           ghost stateDict: map<Key, V>, ghost done: Chunk<V>)
    returns (after: map<Key, V>, layersHandled: nat)
    requires before == WithEntries(stateDict, done, layersCum, |done|) && handled == LayersHandled(done)
    ensures var chunk := done + Outputs(p);
            after == WithEntries(stateDict, chunk, layersCum, |chunk|) && layersHandled == LayersHandled(chunk)
  {
    hide WithEntries, LayersHandled, Replace;
    after, layersHandled := before, handled;
    if p.skipped {
      assert done + Outputs(p) == done;
      return;
    }
    if p.layer.Some? && p.layer.value > layersHandled {
      layersHandled := p.layer.value;
    }
    ghost var w := done;
    match p.merged {
      case One(t) =>
        after, w := Write(after, Entry(p.layer, p.name, t), layersCum, stateDict, w);
      case GateUp(gate, up) =>
        after, w := Write(after, Entry(p.layer, Replace(p.name, "gate_up", "gate"), gate), layersCum, stateDict, w);
        after, w := Write(after, Entry(p.layer, Replace(p.name, "gate_up", "up"), up), layersCum, stateDict, w);
      case Qkv(q, k, v) =>
        after, w := Write(after, Entry(p.layer, Replace(p.name, "qkv", "q"), q), layersCum, stateDict, w);
        after, w := Write(after, Entry(p.layer, Replace(p.name, "qkv", "k"), k), layersCum, stateDict, w);
        after, w := Write(after, Entry(p.layer, Replace(p.name, "qkv", "v"), v), layersCum, stateDict, w);
    }
    assert w == done + Outputs(p);
  }

  /** The loop over the keys of one chunk. */
  method MergeChunk<V>(stateDict: map<Key, V>, parameters: seq<Parameter<V>>, layersCum: nat)
    returns (merged: map<Key, V>, layersHandled: nat)
    ensures var chunk := Expanded(parameters);
            merged == WithEntries(stateDict, chunk, layersCum, |chunk|) && layersHandled == LayersHandled(chunk)
  {
    hide WithEntries, LayersHandled, Outputs;
    merged, layersHandled := stateDict, 0;
    NoEntries(stateDict, layersCum);
    for k := 0 to |parameters|
      invariant var chunk := Expanded(parameters[..k]);
                merged == WithEntries(stateDict, chunk, layersCum, |chunk|) && layersHandled == LayersHandled(chunk)
    {
      assert parameters[..k + 1][..k] == parameters[..k];
      merged, layersHandled := MergeParameter(merged, parameters[k], layersCum, layersHandled, stateDict, Expanded(parameters[..k]));
    }
    assert parameters[..|parameters|] == parameters;
  }

  lemma NoEntries<V>(stateDict: map<Key, V>, layersCum: nat)
    ensures WithEntries(stateDict, [], layersCum, 0) == stateDict && LayersHandled<V>([]) == 0
  {
  }

  /** `_merge_state_dicts`, on models indexed by pipeline rank and virtual rank. */
  method MergeStateDicts<V>(models: seq<seq<seq<Parameter<V>>>>, vppSize: nat) returns (stateDict: map<Key, V>)
    requires forall p :: 0 <= p < |models| ==> |models[p]| == vppSize
    ensures var chunks := AllExpanded(Visited(models, vppSize, 0)); stateDict == WithChunks(chunks, |chunks|)
    ensures AllClear(models, vppSize) ==> MergedAsMeant(models, vppSize, stateDict)
  {
    hide WithEntries, LayersHandled, GlobalKey, Expanded, WithChunks, LayersCum, AllExpanded;
    stateDict := map[];
    NoChunks<V>();
    var layersCum := 0;
    for vpp := 0 to vppSize
      invariant var chunks := AllExpanded(Visited(models, vpp, 0));
                stateDict == WithChunks(chunks, |chunks|) && layersCum == LayersCum(chunks, |chunks|)
    {
      for pp := 0 to |models|
        invariant var chunks := AllExpanded(Visited(models, vpp, pp));
                  stateDict == WithChunks(chunks, |chunks|) && layersCum == LayersCum(chunks, |chunks|)
      {
        var layersHandled;
        stateDict, layersHandled := MergeChunk(stateDict, models[pp][vpp], layersCum);
        ChunkDone(Visited(models, vpp, pp), models[pp][vpp]);
        layersCum := layersCum + layersHandled + 1;
      }
    }
    if AllClear(models, vppSize) {
      DictIsAsMeant(models, vppSize);
    }
  }

  lemma NoChunks<V>()
    ensures var none := AllExpanded<V>([]); none == [] && WithChunks(none, 0) == map[] && LayersCum(none, 0) == 0
  {
  }

  lemma ChunkDone<V>(before: seq<seq<Parameter<V>>>, parameters: seq<Parameter<V>>)
    ensures var b, a, chunk := AllExpanded(before), AllExpanded(before + [parameters]), Expanded(parameters);
            && WithChunks(a, |a|) == WithEntries(WithChunks(b, |b|), chunk, LayersCum(b, |b|), |chunk|)
            && LayersCum(a, |a|) == LayersCum(b, |b|) + LayersHandled(chunk) + 1
  {
    hide WithEntries, LayersHandled, Expanded;
    var b := AllExpanded(before);
    assert AllExpanded(before + [parameters]) == b + [Expanded(parameters)];
    VisitOne(b, Expanded(parameters), |b|);
  }

  lemma {:induction false} VisitOne<V>(before: seq<Chunk<V>>, chunk: Chunk<V>, n: nat)
    requires n <= |before|
    ensures LayersCum(before + [chunk], n) == LayersCum(before, n) && WithChunks(before + [chunk], n) == WithChunks(before, n)
  {
    if n > 0 { VisitOne(before, chunk, n - 1); }
  }
}
