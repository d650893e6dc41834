/** Giving the layers of pipeline chunks their global numbers (scripts/legacy_model_merger.py,
    `_merge_state_dicts`). */
module LayerRenumber {
  import opened Options

  /** What the tensor-parallel parts of one entry are merged to. */
  datatype Merged<V> = One(tensor: V) | GateUp(gate: V, up: V) | Qkv(q: V, k: V, v: V)

  /** One entry of a chunk's state dict: its local layer number if its converted name contains one, and
      the rest of that name. Extra states, and the output layer with tied embeddings, are skipped. */
  datatype Parameter<V> = Parameter(skipped: bool, layer: Option<nat>, name: string, merged: Merged<V>)

  /** An entry of the result, still with its local layer number. */
  datatype Entry<V> = Entry(layer: Option<nat>, name: string, value: V)

  /** `str.replace`. */
  function Replace(s: string, part: string, other: string): string
    requires |part| > 0
    decreases |s|
  {
    if |s| < |part| then s
    else if s[..|part|] == part then other + Replace(s[|part|..], part, other)
    else [s[0]] + Replace(s[1..], part, other)
  }

  /** The entries that one parameter becomes. */
  function Outputs<V>(p: Parameter<V>): Chunk<V> {
    if p.skipped then []
    else
      match p.merged
      case One(t) => [Entry(p.layer, p.name, t)]
      case GateUp(gate, up) =>
        [Entry(p.layer, Replace(p.name, "gate_up", "gate"), gate), Entry(p.layer, Replace(p.name, "gate_up", "up"), up)]
      case Qkv(q, k, v) =>
        [Entry(p.layer, Replace(p.name, "qkv", "q"), q), Entry(p.layer, Replace(p.name, "qkv", "k"), k),
         Entry(p.layer, Replace(p.name, "qkv", "v"), v)]
  }

  function Expanded<V>(parameters: seq<Parameter<V>>): Chunk<V> {
    if parameters == [] then []
    else Expanded(parameters[..|parameters| - 1]) + Outputs(parameters[|parameters| - 1])
  }

  function AllExpanded<V>(chunks: seq<seq<Parameter<V>>>): (r: seq<Chunk<V>>)
    ensures |r| == |chunks|
  {
    seq(|chunks|, i requires 0 <= i < |chunks| => Expanded(chunks[i]))
  }

  datatype Key = Key(layer: Option<nat>, name: string)

  type Chunk<V> = seq<Entry<V>>

  function GlobalKey<V>(e: Entry<V>, layersCum: nat): Key {
    Key(match e.layer case None => None case Some(l) => Some(l + layersCum), e.name)
  }

  /** `layers_handled` after a chunk: the largest local number, or 0. */
  function LayersHandled<V>(chunk: Chunk<V>): nat {
    if chunk == [] then 0
    else
      var e, before := chunk[|chunk| - 1], LayersHandled(chunk[..|chunk| - 1]);
      if e.layer.Some? && e.layer.value > before then e.layer.value else before
  }

  /** `layers_cum` before chunk i. */
  function LayersCum<V>(chunks: seq<Chunk<V>>, i: nat): nat
    requires i <= |chunks|
  {
    if i == 0 then 0 else LayersCum(chunks, i - 1) + LayersHandled(chunks[i - 1]) + 1
  }

  /** The first n entries of a chunk, written into a dict. */
  function WithEntries<V>(stateDict: map<Key, V>, chunk: Chunk<V>, layersCum: nat, n: nat): map<Key, V>
    requires n <= |chunk|
  {
    if n == 0 then stateDict
    else WithEntries(stateDict, chunk, layersCum, n - 1)[GlobalKey(chunk[n - 1], layersCum) := chunk[n - 1].value]
  }

  function WithChunks<V>(chunks: seq<Chunk<V>>, n: nat): map<Key, V>
    requires n <= |chunks|
  {
    if n == 0 then map[]
    else WithEntries(WithChunks(chunks, n - 1), chunks[n - 1], LayersCum(chunks, n - 1), |chunks[n - 1]|)
  }

  /** The chunks in the order in which the loops visit them: virtual rank by virtual rank, and for each
      the pipeline ranks; `done` full virtual ranks, and the first `ranks` pipeline ranks of the next. */
  ghost function Visited<X>(models: seq<seq<X>>, done: nat, ranks: nat): seq<X>
    requires ranks <= |models| && forall p :: 0 <= p < |models| ==> done + (if ranks > 0 then 1 else 0) <= |models[p]|
    decreases done, ranks
  {
    if ranks > 0 then Visited(models, done, ranks - 1) + [models[ranks - 1][done]]
    else if done > 0 then Visited(models, done - 1, |models|)
    else []
  }

  // ------------------------------------------------ nothing is overwritten

  lemma {:induction false} HandledIsLargest<V>(chunk: Chunk<V>, k: nat)
    requires k < |chunk| && chunk[k].layer.Some?
    ensures chunk[k].layer.value <= LayersHandled(chunk)
  {
    if k < |chunk| - 1 { HandledIsLargest(chunk[..|chunk| - 1], k); }
  }

  lemma {:induction false} CumGrows<V>(chunks: seq<Chunk<V>>, i: nat, j: nat)
    requires i < j <= |chunks|
    ensures LayersCum(chunks, i) + LayersHandled(chunks[i]) < LayersCum(chunks, j)
    decreases j
  {
    if i < j - 1 { CumGrows(chunks, i, j - 1); }
  }

  /** Layers of an earlier chunk get smaller numbers than those of a later one, whatever the chunks hold. */
  lemma OrderPreserved<V>(chunks: seq<Chunk<V>>, i: nat, k: nat, j: nat, l: nat)
    requires i < j < |chunks| && k < |chunks[i]| && l < |chunks[j]|
    requires chunks[i][k].layer.Some? && chunks[j][l].layer.Some?
    ensures chunks[i][k].layer.value + LayersCum(chunks, i) < chunks[j][l].layer.value + LayersCum(chunks, j)
  {
    HandledIsLargest(chunks[i], k);
    CumGrows(chunks, i, j);
  }

  /** The names of a chunk's outputs differ. */
  ghost predicate DistinctNames<V>(chunk: Chunk<V>) {
    forall a, b :: 0 <= a < b < |chunk| ==> chunk[a].layer != chunk[b].layer || chunk[a].name != chunk[b].name
  }

  lemma {:induction false} EntriesKept<V>(stateDict: map<Key, V>, chunk: Chunk<V>, layersCum: nat, n: nat, k: nat)
    requires k < n <= |chunk| && DistinctNames(chunk)
    ensures var key := GlobalKey(chunk[k], layersCum);
            var after := WithEntries(stateDict, chunk, layersCum, n);
            key in after && after[key] == chunk[k].value
  {
    if k < n - 1 { EntriesKept(stateDict, chunk, layersCum, n - 1, k); }
  }

  lemma {:induction false} OthersKept<V>(stateDict: map<Key, V>, chunk: Chunk<V>, layersCum: nat, n: nat, key: Key)
    requires n <= |chunk| && key in stateDict
    requires forall k :: 0 <= k < n ==> GlobalKey(chunk[k], layersCum) != key
    ensures var after := WithEntries(stateDict, chunk, layersCum, n); key in after && after[key] == stateDict[key]
  {
    if n > 0 { OthersKept(stateDict, chunk, layersCum, n - 1, key); }
  }

  /** An entry stays in the dict if no later chunk has an entry with the same key. */
  lemma {:induction false} KeptToTheEnd<V>(chunks: seq<Chunk<V>>, n: nat, i: nat, k: nat)
    requires i < n <= |chunks| && k < |chunks[i]| && DistinctNames(chunks[i])
    requires forall j, l :: i < j < |chunks| && 0 <= l < |chunks[j]| ==>
               GlobalKey(chunks[j][l], LayersCum(chunks, j)) != GlobalKey(chunks[i][k], LayersCum(chunks, i))
    ensures var key := GlobalKey(chunks[i][k], LayersCum(chunks, i));
            key in WithChunks(chunks, n) && WithChunks(chunks, n)[key] == chunks[i][k].value
    decreases n
  {
    var last, cum := chunks[n - 1], LayersCum(chunks, n - 1);
    if i == n - 1 {
      EntriesKept(WithChunks(chunks, n - 1), last, cum, |last|, k);
    } else {
      KeptToTheEnd(chunks, n - 1, i, k);
      OthersKept(WithChunks(chunks, n - 1), last, cum, |last|, GlobalKey(chunks[i][k], LayersCum(chunks, i)));
    }
  }

  /** No layer overwrites another: in the merged dict every layer entry of every chunk is found under its
      global number, with its own value. */
  lemma NoLayerOverwritten<V>(chunks: seq<Chunk<V>>, n: nat, i: nat, k: nat)
    requires i < n <= |chunks| && k < |chunks[i]| && chunks[i][k].layer.Some?
    requires forall c :: 0 <= c < |chunks| ==> DistinctNames(chunks[c])
    ensures var key := GlobalKey(chunks[i][k], LayersCum(chunks, i));
            key in WithChunks(chunks, n) && WithChunks(chunks, n)[key] == chunks[i][k].value
  {
    forall j, l | i < j < |chunks| && 0 <= l < |chunks[j]|
      ensures GlobalKey(chunks[j][l], LayersCum(chunks, j)) != GlobalKey(chunks[i][k], LayersCum(chunks, i))
    {
      if chunks[j][l].layer.Some? { OrderPreserved(chunks, i, k, j, l); }
    }
    KeptToTheEnd(chunks, n, i, k);
  }

  // ------------------------------------------------ when the numbers have no gap

  /** The chunk holds the local layers 0 to n - 1, and no others. */
  ghost predicate HoldsLayers<V>(chunk: Chunk<V>, n: nat) {
    && (forall k :: 0 <= k < |chunk| && chunk[k].layer.Some? ==> chunk[k].layer.value < n)
    && (forall l: nat :: l < n ==> HasLayer(chunk, l))
  }

  ghost predicate HasLayer<V>(chunk: Chunk<V>, l: nat) { exists k :: 0 <= k < |chunk| && chunk[k].layer == Some(l) }

  /** The layers before chunk i. */
  function LayersBefore(sizes: seq<nat>, i: nat): nat
    requires i <= |sizes|
  {
    if i == 0 then 0 else LayersBefore(sizes, i - 1) + sizes[i - 1]
  }

  /** Where the numbers of chunk i start: an empty chunk uses one up. */
  function FirstNumber(sizes: seq<nat>, i: nat): nat
    requires i <= |sizes|
  {
    if i == 0 then 0 else FirstNumber(sizes, i - 1) + if sizes[i - 1] == 0 then 1 else sizes[i - 1]
  }

  lemma {:induction false} HandledOf<V>(chunk: Chunk<V>, n: nat)
    requires HoldsLayers(chunk, n)
    ensures LayersHandled(chunk) + 1 == if n == 0 then 1 else n
  {
    HandledBelow(chunk, n);
    if n > 0 {
      assert HasLayer(chunk, n - 1);
      var k :| 0 <= k < |chunk| && chunk[k].layer == Some(n - 1);
      HandledIsLargest(chunk, k);
    }
  }

  lemma {:induction false} HandledBelow<V>(chunk: Chunk<V>, n: nat)
    requires forall k :: 0 <= k < |chunk| && chunk[k].layer.Some? ==> chunk[k].layer.value < n
    ensures LayersHandled(chunk) == 0 || LayersHandled(chunk) < n
  {
    if chunk != [] { HandledBelow(chunk[..|chunk| - 1], n); }
  }

  lemma {:induction false} CumIsFirstNumber<V>(chunks: seq<Chunk<V>>, sizes: seq<nat>, i: nat)
    requires |chunks| == |sizes| && i <= |chunks| && forall c :: 0 <= c < |chunks| ==> HoldsLayers(chunks[c], sizes[c])
    ensures LayersCum(chunks, i) == FirstNumber(sizes, i)
  {
    if i > 0 {
      CumIsFirstNumber(chunks, sizes, i - 1);
      HandledOf(chunks[i - 1], sizes[i - 1]);
    }
  }

  /** Some layer of the merged model has number g. */
  ghost predicate Used(sizes: seq<nat>, g: nat) { exists i :: 0 <= i < |sizes| && UsedBy(sizes, g, i) }

  ghost predicate UsedBy(sizes: seq<nat>, g: nat, i: nat)
    requires i < |sizes|
  {
    FirstNumber(sizes, i) <= g < FirstNumber(sizes, i) + sizes[i]
  }

  /** No empty chunk comes before a chunk with layers. */
  predicate EmptyChunksLast(sizes: seq<nat>) {
    forall i, j :: 0 <= i < j < |sizes| ==> sizes[i] == 0 ==> sizes[j] == 0
  }

  lemma {:induction false} FirstNumberBound(sizes: seq<nat>, i: nat)
    requires i <= |sizes|
    ensures FirstNumber(sizes, i) >= LayersBefore(sizes, i)
    ensures FirstNumber(sizes, i) == LayersBefore(sizes, i) <==> forall j :: 0 <= j < i ==> sizes[j] > 0
  {
    if i > 0 { FirstNumberBound(sizes, i - 1); }
  }

  lemma {:induction false} NothingAfter(sizes: seq<nat>, i: nat, n: nat)
    requires i <= n <= |sizes| && forall j :: i <= j < n ==> sizes[j] == 0
    ensures LayersBefore(sizes, n) == LayersBefore(sizes, i)
    decreases n
  {
    if i < n { NothingAfter(sizes, i, n - 1); }
  }

  lemma {:induction false} BeforeGrows(sizes: seq<nat>, i: nat, n: nat)
    requires i <= n <= |sizes|
    ensures LayersBefore(sizes, i) <= LayersBefore(sizes, n)
    decreases n
  {
    if i < n { BeforeGrows(sizes, i, n - 1); }
  }

  /** The chunk that holds layer g. */
  lemma {:induction false} ChunkOf(sizes: seq<nat>, g: nat, n: nat) returns (i: nat)
    requires n <= |sizes| && g < LayersBefore(sizes, n)
    ensures i < n && LayersBefore(sizes, i) <= g < LayersBefore(sizes, i) + sizes[i]
    decreases n
  {
    if LayersBefore(sizes, n - 1) <= g {
      i := n - 1;
    } else {
      i := ChunkOf(sizes, g, n - 1);
    }
  }

  /** The numbers used are exactly 0 to the number of layers minus one if and only if no empty chunk
      precedes a chunk with layers. */
  lemma NumbersWithoutGap(sizes: seq<nat>)
    ensures (forall g: nat :: Used(sizes, g) <==> g < LayersBefore(sizes, |sizes|)) <==> EmptyChunksLast(sizes)
  {
    if EmptyChunksLast(sizes) {
      forall g: nat
        ensures Used(sizes, g) <==> g < LayersBefore(sizes, |sizes|)
      {
        UsedIfContiguous(sizes, g);
      }
    } else {
      var g := GapOf(sizes);
      assert Used(sizes, g);
    }
  }

  lemma UsedIfContiguous(sizes: seq<nat>, g: nat)
    requires EmptyChunksLast(sizes)
    ensures Used(sizes, g) <==> g < LayersBefore(sizes, |sizes|)
  {
    if Used(sizes, g) {
      var i :| 0 <= i < |sizes| && UsedBy(sizes, g, i);
      FirstNumberBound(sizes, i);
      BeforeGrows(sizes, i + 1, |sizes|);
    }
    if g < LayersBefore(sizes, |sizes|) {
      var i := ChunkOf(sizes, g, |sizes|);
      FirstNumberBound(sizes, i);
      assert UsedBy(sizes, g, i);
    }
  }

  lemma {:induction false} LastNonEmpty(sizes: seq<nat>, n: nat, j: nat) returns (last: nat)
    requires j < n <= |sizes| && sizes[j] > 0
    ensures j <= last < n && sizes[last] > 0 && forall k :: last < k < n ==> sizes[k] == 0
    decreases n
  {
    if sizes[n - 1] > 0 {
      last := n - 1;
    } else {
      last := LastNonEmpty(sizes, n - 1, j);
    }
  }

  /** A number that is used although it is too large. */
  lemma GapOf(sizes: seq<nat>) returns (g: nat)
    requires !EmptyChunksLast(sizes)
    ensures Used(sizes, g) && g >= LayersBefore(sizes, |sizes|)
  {
    var i, j :| 0 <= i < j < |sizes| && sizes[i] == 0 && sizes[j] != 0;
    var last := LastNonEmpty(sizes, |sizes|, j);
    FirstNumberBound(sizes, last);
    NothingAfter(sizes, last + 1, |sizes|);
    g := FirstNumber(sizes, last) + sizes[last] - 1;
    assert UsedBy(sizes, g, last);
  }

  /** Some entry of the dict belongs to layer g. */
  ghost predicate HasGlobalLayer<V>(stateDict: map<Key, V>, g: nat) { exists key :: key in stateDict && key.layer == Some(g) }

  /** Where the value under a key comes from: one of the first n entries, or what was there before. */
  lemma {:induction false} EntrySource<V>(stateDict: map<Key, V>, chunk: Chunk<V>, layersCum: nat, n: nat, key: Key)
    returns (k: Option<nat>)
    requires n <= |chunk| && key in WithEntries(stateDict, chunk, layersCum, n)
    ensures var value := WithEntries(stateDict, chunk, layersCum, n)[key];
            match k
            case Some(k) => k < n && GlobalKey(chunk[k], layersCum) == key && chunk[k].value == value
            case None => key in stateDict && stateDict[key] == value
  {
    if n == 0 {
      k := None;
    } else if key == GlobalKey(chunk[n - 1], layersCum) {
      k := Some(n - 1);
    } else {
      k := EntrySource(stateDict, chunk, layersCum, n - 1, key);
    }
  }

  lemma {:induction false} KeySource<V>(chunks: seq<Chunk<V>>, n: nat, key: Key) returns (i: nat, k: nat)
    requires n <= |chunks| && key in WithChunks(chunks, n)
    ensures i < n && k < |chunks[i]| && GlobalKey(chunks[i][k], LayersCum(chunks, i)) == key
    ensures chunks[i][k].value == WithChunks(chunks, n)[key]
  {
    var last := EntrySource(WithChunks(chunks, n - 1), chunks[n - 1], LayersCum(chunks, n - 1), |chunks[n - 1]|, key);
    match last {
      case Some(l) => i, k := n - 1, l;
      case None => i, k := KeySource(chunks, n - 1, key);
    }
  }

  lemma MergedNumbers<V>(chunks: seq<Chunk<V>>, sizes: seq<nat>, g: nat)
    requires |chunks| == |sizes|
    requires forall c :: 0 <= c < |chunks| ==> HoldsLayers(chunks[c], sizes[c]) && DistinctNames(chunks[c])
    ensures HasGlobalLayer(WithChunks(chunks, |chunks|), g) <==> Used(sizes, g)
  {
    var merged := WithChunks(chunks, |chunks|);
    if HasGlobalLayer(merged, g) {
      var key :| key in merged && key.layer == Some(g);
      var i, k := KeySource(chunks, |chunks|, key);
      CumIsFirstNumber(chunks, sizes, i);
      assert UsedBy(sizes, g, i);
    }
    if Used(sizes, g) {
      var i :| 0 <= i < |sizes| && UsedBy(sizes, g, i);
      CumIsFirstNumber(chunks, sizes, i);
      assert HasLayer(chunks[i], g - FirstNumber(sizes, i));
      var k :| 0 <= k < |chunks[i]| && chunks[i][k].layer == Some(g - FirstNumber(sizes, i));
      NoLayerOverwritten(chunks, |chunks|, i, k);
    }
  }

  /** The layers of the dict are numbered 0 to n - 1. */
  ghost predicate NumberedBelow<V>(stateDict: map<Key, V>, n: nat) {
    forall g: nat :: HasGlobalLayer(stateDict, g) <==> g < n
  }

  lemma SameNumbers<V>(stateDict: map<Key, V>, sizes: seq<nat>, n: nat)
    requires forall g: nat :: HasGlobalLayer(stateDict, g) <==> Used(sizes, g)
    ensures NumberedBelow(stateDict, n) <==> forall g: nat :: Used(sizes, g) <==> g < n
  {
    hide HasGlobalLayer, Used;
    if NumberedBelow(stateDict, n) {
      forall g: nat
        ensures Used(sizes, g) <==> g < n
      {
        assert HasGlobalLayer(stateDict, g) <==> Used(sizes, g);
      }
    }
  }

  /** If every chunk holds consecutive local layers from 0, the layers of the merged dict are numbered 0
      to their total minus one if and only if no empty chunk precedes a chunk with layers. */
  lemma MergedLayersWithoutGap<V>(chunks: seq<Chunk<V>>, sizes: seq<nat>)
    requires |chunks| == |sizes|
    requires forall c :: 0 <= c < |chunks| ==> HoldsLayers(chunks[c], sizes[c]) && DistinctNames(chunks[c])
    ensures NumberedBelow(WithChunks(chunks, |chunks|), LayersBefore(sizes, |sizes|)) <==> EmptyChunksLast(sizes)
  {
    hide HasGlobalLayer, Used, HoldsLayers, DistinctNames, EmptyChunksLast;
    var merged := WithChunks(chunks, |chunks|);
    forall g: nat
      ensures HasGlobalLayer(merged, g) <==> Used(sizes, g)
    {
      MergedNumbers(chunks, sizes, g);
    }
    SameNumbers(merged, sizes, LayersBefore(sizes, |sizes|));
    NumbersWithoutGap(sizes);
  }

  /** Three chunks of one, no and one layer: the second layer gets number 2. */
  lemma EmptyChunkLeavesGap()
    ensures LayersBefore([1, 0, 1], 3) == 2 && !Used([1, 0, 1], 1) && Used([1, 0, 1], 2)
  {
    var sizes := [1, 0, 1];
    assert FirstNumber(sizes, 0) == 0 && FirstNumber(sizes, 1) == 1 && FirstNumber(sizes, 2) == 2;
    assert LayersBefore(sizes, 1) == 1 && LayersBefore(sizes, 2) == 1;
    assert UsedBy(sizes, 2, 2);
  }
}
