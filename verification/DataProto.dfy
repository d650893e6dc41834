/** Batches with tensor and non-tensor columns (verl/protocol.py): slicing, concatenation, padding to a
    divisor, chunking, and how they compose in a data-parallel call. */
module DataProtos {
  import opened Arith
  import opened Options

  type Columns<T> = map<string, seq<T>>

  /** `size` is `len(data)`: the batch size of the TensorDict if there is one, else the common length of
      the non-tensor columns, else 0. */
  datatype DataProto<T, U> = DataProto(size: nat, batch: Option<Columns<T>>, nonTensorBatch: Columns<U>) {
    ghost predicate Valid() {
      && (batch.Some? ==> Rectangular(batch.value, size))
      && Rectangular(nonTensorBatch, size)
      && (batch.None? && nonTensorBatch == map[] ==> size == 0)
    }
  }

  ghost predicate Rectangular<T>(columns: Columns<T>, n: nat) { forall key :: key in columns ==> |columns[key]| == n }

  // ------------------------------------------------ slices

  function SliceColumns<T>(columns: Columns<T>, n: nat, i: nat, j: nat): (r: Columns<T>)
    requires Rectangular(columns, n) && i <= j <= n
    ensures Rectangular(r, j - i) && r.Keys == columns.Keys
  {
    map key | key in columns :: columns[key][i..j]
  }

  /** `data[i:j]`. */
  function Slice<T, U>(d: DataProto<T, U>, i: nat, j: nat): (r: DataProto<T, U>)
    requires d.Valid() && i <= j <= d.size
    ensures r.Valid() && r.size == j - i && SameColumns(r, d)
  {
    var nonTensorBatch := SliceColumns(d.nonTensorBatch, d.size, i, j);
    assert nonTensorBatch == map[] ==> d.nonTensorBatch == map[] by {
      assert nonTensorBatch.Keys == d.nonTensorBatch.Keys;
      assert nonTensorBatch == map[] ==> nonTensorBatch.Keys == {};
    }
    DataProto(j - i, if d.batch.None? then None else Some(SliceColumns(d.batch.value, d.size, i, j)), nonTensorBatch)
  }

  predicate SameColumns<T, U>(a: DataProto<T, U>, b: DataProto<T, U>) {
    && (a.batch.Some? <==> b.batch.Some?)
    && (a.batch.Some? ==> a.batch.value.Keys == b.batch.value.Keys)
    && a.nonTensorBatch.Keys == b.nonTensorBatch.Keys
  }

  lemma SliceAll<T, U>(d: DataProto<T, U>)
    requires d.Valid()
    ensures Slice(d, 0, d.size) == d
  {
    hide Rectangular, SliceColumns, AppendColumns;
    SliceAllColumns(d.nonTensorBatch, d.size);
    if d.batch.Some? { SliceAllColumns(d.batch.value, d.size); }
  }

  lemma SliceAllColumns<T>(columns: Columns<T>, n: nat)
    requires Rectangular(columns, n)
    ensures SliceColumns(columns, n, 0, n) == columns
  {
    assert forall key :: key in columns ==> columns[key][0..n] == columns[key];
  }

  lemma SliceOfSlice<T, U>(d: DataProto<T, U>, i: nat, j: nat, k: nat, l: nat)
    requires d.Valid() && i <= j <= d.size && k <= l <= j - i
    ensures Slice(Slice(d, i, j), k, l) == Slice(d, i + k, i + l)
  {
    hide Rectangular, SliceColumns, AppendColumns;
    SliceOfSliceColumns(d.nonTensorBatch, d.size, i, j, k, l);
    if d.batch.Some? { SliceOfSliceColumns(d.batch.value, d.size, i, j, k, l); }
  }

  lemma SubOfSub<T>(s: seq<T>, i: nat, j: nat, k: nat, l: nat)
    requires i <= j <= |s| && k <= l <= j - i
    ensures s[i..j][k..l] == s[i + k..i + l]
  {
    var t := s[i..j];
    forall x | 0 <= x < l - k
      ensures t[k..l][x] == s[i + k..i + l][x]
    {
      assert t[k..l][x] == t[k + x] == s[i + (k + x)];
    }
    assert |t[k..l]| == |s[i + k..i + l]|;
  }

  lemma SubOfConcat<T>(a: seq<T>, b: seq<T>, i: nat, j: nat)
    requires i <= j <= |a| + |b|
    ensures j <= |a| ==> (a + b)[i..j] == a[i..j]
    ensures |a| <= i ==> (a + b)[i..j] == b[i - |a|..j - |a|]
  {
  }

  lemma SliceOfSliceColumns<T>(columns: Columns<T>, n: nat, i: nat, j: nat, k: nat, l: nat)
    requires Rectangular(columns, n) && i <= j <= n && k <= l <= j - i
    ensures SliceColumns(SliceColumns(columns, n, i, j), j - i, k, l) == SliceColumns(columns, n, i + k, i + l)
  {
    forall key | key in columns
      ensures columns[key][i..j][k..l] == columns[key][i + k..i + l]
    {
      SubOfSub(columns[key], i, j, k, l);
    }
  }

  // ------------------------------------------------ concatenation

  function AppendColumns<T>(a: Columns<T>, b: Columns<T>): (r: Columns<T>)
    requires a.Keys == b.Keys
  {
    map key | key in a :: a[key] + b[key]
  }

  function Append<T, U>(a: DataProto<T, U>, b: DataProto<T, U>): (r: DataProto<T, U>)
    requires a.Valid() && b.Valid() && SameColumns(a, b)
    ensures r.Valid() && r.size == a.size + b.size && SameColumns(r, a)
  {
    var nonTensorBatch := AppendColumns(a.nonTensorBatch, b.nonTensorBatch);
    assert nonTensorBatch.Keys == a.nonTensorBatch.Keys;
    assert nonTensorBatch == map[] ==> nonTensorBatch.Keys == {};
    DataProto(a.size + b.size, if a.batch.None? then None else Some(AppendColumns(a.batch.value, b.batch.value)), nonTensorBatch)
  }

  ghost predicate Concatenable<T, U>(ds: seq<DataProto<T, U>>) {
    && ds != []
    && forall i :: 0 <= i < |ds| ==> ds[i].Valid() && SameColumns(ds[i], ds[0])
  }

  /** `DataProto.concat`, on the rows. */
  function Concat<T, U>(ds: seq<DataProto<T, U>>): (r: DataProto<T, U>)
    requires Concatenable(ds)
    ensures r.Valid() && SameColumns(r, ds[0])
  {
    if |ds| == 1 then ds[0] else Append(Concat(ds[..|ds| - 1]), ds[|ds| - 1])
  }

  /** Two neighbouring slices joined are one slice. */
  lemma AppendSlices<T, U>(d: DataProto<T, U>, i: nat, j: nat, k: nat)
    requires d.Valid() && i <= j <= k <= d.size
    ensures Append(Slice(d, i, j), Slice(d, j, k)) == Slice(d, i, k)
  {
    hide Rectangular, SliceColumns, AppendColumns;
    AppendSliceColumns(d.nonTensorBatch, d.size, i, j, k);
    if d.batch.Some? { AppendSliceColumns(d.batch.value, d.size, i, j, k); }
  }

  lemma AppendSliceColumns<T>(columns: Columns<T>, n: nat, i: nat, j: nat, k: nat)
    requires Rectangular(columns, n) && i <= j <= k <= n
    ensures AppendColumns(SliceColumns(columns, n, i, j), SliceColumns(columns, n, j, k)) == SliceColumns(columns, n, i, k)
  {
    assert forall key :: key in columns ==> columns[key][i..j] + columns[key][j..k] == columns[key][i..k];
  }

  /** A slice that lies in one part of a concatenation. */
  lemma SliceOfLeft<T, U>(a: DataProto<T, U>, b: DataProto<T, U>, i: nat, j: nat)
    requires a.Valid() && b.Valid() && SameColumns(a, b) && i <= j <= a.size
    ensures Slice(Append(a, b), i, j) == Slice(a, i, j)
  {
    hide Rectangular, SliceColumns, AppendColumns;
    SliceOfLeftColumns(a.nonTensorBatch, a.size, b.nonTensorBatch, b.size, i, j);
    if a.batch.Some? { SliceOfLeftColumns(a.batch.value, a.size, b.batch.value, b.size, i, j); }
  }

  lemma SliceOfRight<T, U>(a: DataProto<T, U>, b: DataProto<T, U>, i: nat, j: nat)
    requires a.Valid() && b.Valid() && SameColumns(a, b) && a.size <= i <= j <= a.size + b.size
    ensures Slice(Append(a, b), i, j) == Slice(b, i - a.size, j - a.size)
  {
    hide Rectangular, SliceColumns, AppendColumns;
    SliceOfRightColumns(a.nonTensorBatch, a.size, b.nonTensorBatch, b.size, i, j);
    if a.batch.Some? { SliceOfRightColumns(a.batch.value, a.size, b.batch.value, b.size, i, j); }
  }

  lemma AppendRectangular<T>(a: Columns<T>, m: nat, b: Columns<T>, n: nat)
    requires Rectangular(a, m) && Rectangular(b, n) && a.Keys == b.Keys
    ensures Rectangular(AppendColumns(a, b), m + n)
  {
  }

  lemma SliceOfLeftColumns<T>(a: Columns<T>, m: nat, b: Columns<T>, n: nat, i: nat, j: nat)
    requires Rectangular(a, m) && Rectangular(b, n) && a.Keys == b.Keys && i <= j <= m
    ensures var c := AppendColumns(a, b);
            Rectangular(c, m + n) && SliceColumns(c, m + n, i, j) == SliceColumns(a, m, i, j)
  {
    AppendRectangular(a, m, b, n);
    forall key | key in a
      ensures (a[key] + b[key])[i..j] == a[key][i..j]
    {
      SubOfConcat(a[key], b[key], i, j);
    }
  }

  lemma SliceOfRightColumns<T>(a: Columns<T>, m: nat, b: Columns<T>, n: nat, i: nat, j: nat)
    requires Rectangular(a, m) && Rectangular(b, n) && a.Keys == b.Keys && m <= i <= j <= m + n
    ensures var c := AppendColumns(a, b);
            Rectangular(c, m + n) && SliceColumns(c, m + n, i, j) == SliceColumns(b, n, i - m, j - m)
  {
    AppendRectangular(a, m, b, n);
    forall key | key in a
      ensures (a[key] + b[key])[i..j] == b[key][i - m..j - m]
    {
      SubOfConcat(a[key], b[key], i, j);
    }
  }

  // ------------------------------------------------ cutting and gluing

  /** The slices between consecutive cuts. */
  ghost predicate Cuts(cuts: seq<nat>, size: nat) {
    |cuts| >= 1 && cuts[0] == 0 && (forall i :: 0 < i < |cuts| ==> cuts[i - 1] <= cuts[i] <= size)
  }

  ghost predicate Pieces<T, U>(ds: seq<DataProto<T, U>>, d: DataProto<T, U>, cuts: seq<nat>)
    requires d.Valid() && Cuts(cuts, d.size)
  {
    |ds| == |cuts| - 1 && forall i :: 0 <= i < |ds| ==> ds[i] == Slice(d, cuts[i], cuts[i + 1])
  }

  lemma NextPiece<T, U>(ds: seq<DataProto<T, U>>, d: DataProto<T, U>, cuts: seq<nat>, end: nat)
    requires d.Valid() && Cuts(cuts, d.size) && Pieces(ds, d, cuts) && cuts[|cuts| - 1] <= end <= d.size
    ensures Cuts(cuts + [end], d.size) && Pieces(ds + [Slice(d, cuts[|cuts| - 1], end)], d, cuts + [end])
  {
    hide Slice;
    var cuts' := cuts + [end];
    assert Cuts(cuts', d.size);
  }

  lemma PiecesConcatenable<T, U>(ds: seq<DataProto<T, U>>, d: DataProto<T, U>, cuts: seq<nat>)
    requires d.Valid() && Cuts(cuts, d.size) && Pieces(ds, d, cuts) && ds != []
    ensures Concatenable(ds)
  {
    hide Slice, DataProto.Valid;
    forall i | 0 <= i < |ds|
      ensures ds[i].Valid() && SameColumns(ds[i], ds[0])
    {
      assert ds[0] == Slice(d, cuts[0], cuts[1]) && ds[i] == Slice(d, cuts[i], cuts[i + 1]);
    }
  }

  lemma FrontPieces<T, U>(ds: seq<DataProto<T, U>>, d: DataProto<T, U>, cuts: seq<nat>)
    requires d.Valid() && Cuts(cuts, d.size) && Pieces(ds, d, cuts) && |ds| > 1
    ensures Cuts(cuts[..|cuts| - 1], d.size) && Pieces(ds[..|ds| - 1], d, cuts[..|cuts| - 1])
  {
    hide Slice, DataProto.Valid;
  }

  lemma {:induction false} GluePieces<T, U>(ds: seq<DataProto<T, U>>, d: DataProto<T, U>, cuts: seq<nat>)
    requires d.Valid() && Cuts(cuts, d.size) && Pieces(ds, d, cuts) && ds != []
    ensures cuts[|cuts| - 1] <= d.size && Concatenable(ds) && Concat(ds) == Slice(d, 0, cuts[|cuts| - 1])
  {
    hide Slice, Append, DataProto.Valid, SameColumns;
    var n := |ds| - 1;
    PiecesConcatenable(ds, d, cuts);
    assert ds[n] == Slice(d, cuts[n], cuts[n + 1]);
    if |ds| > 1 {
      FrontPieces(ds, d, cuts);
      GluePieces(ds[..n], d, cuts[..|cuts| - 1]);
      AppendSlices(d, 0, cuts[n], cuts[n + 1]);
    }
  }

  lemma ConcatOne<T, U>(d: DataProto<T, U>)
    requires d.Valid()
    ensures Concatenable([d]) && Concat([d]) == d
  {
  }

  lemma ConcatSnoc<T, U>(ds: seq<DataProto<T, U>>, d: DataProto<T, U>)
    requires Concatenable(ds) && d.Valid() && SameColumns(d, ds[0])
    ensures Concatenable(ds + [d]) && Concat(ds + [d]) == Append(Concat(ds), d)
  {
    assert (ds + [d])[..|ds|] == ds;
  }

  // ------------------------------------------------ padding

  /** Row r of `p` is row r modulo the size of `d`. */
  ghost predicate Wraps<T, U>(p: DataProto<T, U>, d: DataProto<T, U>)
    requires p.Valid() && d.Valid()
  {
    d.size > 0 && forall r: nat :: r < p.size ==> RowAgrees(p, d, r)
  }

  ghost predicate RowAgrees<T, U>(p: DataProto<T, U>, d: DataProto<T, U>, r: nat)
    requires p.Valid() && d.Valid() && d.size > 0 && r < p.size
  {
    Slice(p, r, r + 1) == Slice(d, r % d.size, r % d.size + 1)
  }

  lemma WrapsItself<T, U>(d: DataProto<T, U>)
    requires d.Valid() && d.size > 0
    ensures Wraps(d, d)
  {
    hide Slice;
    forall r: nat | r < d.size
      ensures RowAgrees(d, d, r)
    {
      ModSmall(r, d.size);
    }
  }

  lemma ModSmall(r: nat, n: nat)
    requires r < n
    ensures r % n == r
  {
  }

  predicate WholeBlocks(m: nat, n: nat) { n > 0 && m % n == 0 }

  lemma ModAfter(r: nat, m: nat, n: nat)
    requires WholeBlocks(m, n) && m <= r < m + n
    ensures r % n == r - m
  {
    DivUnique(m, n, m / n);
    DivUnique(r, n, m / n);
  }

  lemma RowOfMore<T, U>(p: DataProto<T, U>, d: DataProto<T, U>, take: nat, r: nat)
    requires p.Valid() && d.Valid() && SameColumns(p, d) && WholeBlocks(p.size, d.size)
    requires p.size <= r < p.size + take && take <= d.size
    ensures RowAgrees(Append(p, Slice(d, 0, take)), d, r)
  {
    hide Slice, Append;
    assert d.size > 0;
    SliceOfRight(p, Slice(d, 0, take), r, r + 1);
    SliceOfSlice(d, 0, take, r - p.size, r - p.size + 1);
    ModAfter(r, p.size, d.size);
  }

  lemma RowOfBefore<T, U>(p: DataProto<T, U>, d: DataProto<T, U>, more: DataProto<T, U>, r: nat)
    requires p.Valid() && d.Valid() && more.Valid() && SameColumns(p, more) && d.size > 0 && r < p.size
    requires RowAgrees(p, d, r)
    ensures RowAgrees(Append(p, more), d, r)
  {
    hide Slice, Append;
    SliceOfLeft(p, more, r, r + 1);
  }

  lemma WrapsOn<T, U>(p: DataProto<T, U>, d: DataProto<T, U>, take: nat)
    requires p.Valid() && d.Valid() && SameColumns(p, d) && Wraps(p, d) && WholeBlocks(p.size, d.size) && take <= d.size
    ensures Wraps(Append(p, Slice(d, 0, take)), d)
  {
    hide Slice, Append, RowAgrees, WholeBlocks;
    assert d.size > 0;
    var more := Slice(d, 0, take);
    forall r: nat | r < p.size + take
      ensures RowAgrees(Append(p, more), d, r)
    {
      if r < p.size {
        RowOfBefore(p, d, more, r);
      } else {
        RowOfMore(p, d, take, r);
      }
    }
  }

  /** What one iteration of the padding loop keeps. */
  lemma OneMorePiece<T, U>(protos: seq<DataProto<T, U>>, d: DataProto<T, U>, take: nat)
    requires d.Valid() && protos != [] && Concatenable(protos) && protos[0] == d && take <= d.size <= Concat(protos).size
    requires Wraps(Concat(protos), d) && Slice(Concat(protos), 0, d.size) == d && WholeBlocks(Concat(protos).size, d.size)
    ensures var more := protos + [Slice(d, 0, take)];
            && Concatenable(more) && more[0] == d && Concat(more).size == Concat(protos).size + take
            && Wraps(Concat(more), d) && Slice(Concat(more), 0, d.size) == d
            && (take == d.size ==> WholeBlocks(Concat(more).size, d.size))
  {
    hide Slice, Append, Wraps, WholeBlocks;
    var before, piece := Concat(protos), Slice(d, 0, take);
    WrapsOn(before, d, take);
    ConcatSnoc(protos, piece);
    SliceOfLeft(before, piece, 0, d.size);
    OneMoreBlock(before.size, d.size);
  }

  /** Afterwards the number of rows is divisible, fewer than sizeDivisor rows were added, and they
      repeat the data from its start. */
  method PadDataprotoToDivisor<T, U>(data: DataProto<T, U>, sizeDivisor: nat) returns (padded: DataProto<T, U>, padSize: nat)
    requires data.Valid() && sizeDivisor >= 1
    ensures padSize < sizeDivisor && (padSize == 0 <==> data.size % sizeDivisor == 0)
    ensures padded.Valid() && padded.size == data.size + padSize && padded.size % sizeDivisor == 0
    ensures Slice(padded, 0, data.size) == data
    ensures data.size > 0 ==> Wraps(padded, data)
  {
    hide Slice, Append, Wraps, WholeBlocks, Concat, Concatenable, SameColumns, Rectangular;
    SliceAll(data);
    if data.size % sizeDivisor != 0 {
      padSize := sizeDivisor - data.size % sizeDivisor;
      var protos, remaining := [data], padSize;
      WrapsItself(data);
      OneBlock(data.size);
      ConcatOne(data);
      while remaining > 0
        invariant 0 <= remaining <= padSize
        invariant protos != [] && Concatenable(protos) && protos[0] == data && Concat(protos).size == data.size + padSize - remaining
        invariant Wraps(Concat(protos), data) && Slice(Concat(protos), 0, data.size) == data
        invariant remaining > 0 ==> WholeBlocks(Concat(protos).size, data.size)
      {
        var takeSize := if remaining < data.size then remaining else data.size;
        var piece := Slice(data, 0, takeSize);
        OneMorePiece(protos, data, takeSize);
        protos, remaining := protos + [piece], remaining - takeSize;
      }
      padded := Concat(protos);
      NowDivisible(data.size, sizeDivisor);
    } else {
      padded, padSize := data, 0;
      if data.size > 0 { WrapsItself(data); }
    }
  }

  lemma OneBlock(n: nat)
    requires n > 0
    ensures WholeBlocks(n, n)
  {
    DivUnique(n, n, 1);
  }

  lemma OneMoreBlock(m: nat, n: nat)
    requires WholeBlocks(m, n)
    ensures WholeBlocks(m + n, n)
  {
    DivUnique(m, n, m / n);
    assert n * (m / n + 1) == n * (m / n) + n;
    DivUnique(m + n, n, m / n + 1);
  }

  lemma NowDivisible(n: nat, k: nat)
    requires k >= 1
    ensures (n + (k - n % k)) % k == 0
  {
    assert n == k * (n / k) + n % k;
    assert k * (n / k + 1) == k * (n / k) + k;
    DivUnique(n + (k - n % k), k, n / k + 1);
  }

  /** `data[:-pad_size]`. */
  function Unpad<T, U>(data: DataProto<T, U>, padSize: nat): DataProto<T, U>
    requires data.Valid()
  {
    if padSize == 0 then data else Slice(data, 0, if padSize <= data.size then data.size - padSize else 0)
  }

  // ------------------------------------------------ chunks

  function Times(i: nat, width: nat): nat { i * width }

  /** n / chunks, rounded up. */
  function CeilDiv(n: nat, chunks: nat): nat
    requires chunks >= 1
  {
    (n + chunks - 1) / chunks
  }

  /** Piece i of the tensors starts here: pieces of equal width, the last ones shorter or empty. */
  function TensorCut(n: nat, width: nat, i: nat): nat {
    if Times(i, width) <= n then Times(i, width) else n
  }

  /** Piece i of an array: the first `longer` pieces have one row more than `width`. */
  function ArrayCut(width: nat, longer: nat, i: nat): nat {
    Times(i, width) + if i <= longer then i else longer
  }

  /** `TensorDict.chunk` if there are tensors, `np.array_split` otherwise. */
  function CutAt(n: nat, chunks: nat, tensors: bool, i: nat): nat
    requires chunks >= 1
  {
    if tensors then TensorCut(n, CeilDiv(n, chunks), i) else ArrayCut(n / chunks, n % chunks, i)
  }

  lemma TimesStep(i: nat, width: nat)
    ensures Times(0, width) == 0 && Times(i + 1, width) == Times(i, width) + width
  {
  }

  lemma TimesGrows(i: nat, j: nat, width: nat)
    requires i <= j
    ensures Times(i, width) <= Times(j, width)
  {
    Scale(width, i, j);
  }

  lemma WholeAndRest(n: nat, chunks: nat)
    requires chunks >= 1
    ensures Times(chunks, n / chunks) + n % chunks == n && n % chunks < chunks
  {
  }

  lemma CeilCovers(n: nat, chunks: nat)
    requires chunks >= 1
    ensures n <= Times(chunks, CeilDiv(n, chunks))
    ensures n % chunks == 0 ==> CeilDiv(n, chunks) == n / chunks
  {
    WholeAndRest(n + chunks - 1, chunks);
    if n % chunks == 0 {
      WholeAndRest(n, chunks);
      DivUnique(n + chunks - 1, chunks, n / chunks);
    }
  }

  lemma CutsMeet(n: nat, chunks: nat, tensors: bool)
    requires chunks >= 1
    ensures CutAt(n, chunks, tensors, 0) == 0 && CutAt(n, chunks, tensors, chunks) == n
  {
    hide Times, CeilDiv;
    CeilCovers(n, chunks);
    WholeAndRest(n, chunks);
    TimesStep(0, CeilDiv(n, chunks));
    TimesStep(0, n / chunks);
  }

  lemma CutsGrow(n: nat, chunks: nat, tensors: bool, i: nat)
    requires chunks >= 1 && i < chunks
    ensures CutAt(n, chunks, tensors, i) <= CutAt(n, chunks, tensors, i + 1) <= n
  {
    hide Times, CeilDiv;
    WholeAndRest(n, chunks);
    TimesStep(i, CeilDiv(n, chunks));
    TimesStep(i, n / chunks);
    TimesGrows(i + 1, chunks, n / chunks);
  }

  lemma EqualCuts(n: nat, chunks: nat, tensors: bool, i: nat)
    requires chunks >= 1 && n % chunks == 0 && i < chunks
    ensures CutAt(n, chunks, tensors, i) + n / chunks == CutAt(n, chunks, tensors, i + 1)
  {
    hide Times, CeilDiv;
    CeilCovers(n, chunks);
    WholeAndRest(n, chunks);
    TimesStep(i, n / chunks);
    TimesGrows(i + 1, chunks, n / chunks);
  }

  /** The quotient rounded up is the least width of which `chunks` pieces suffice. */
  lemma CeilIsLeast(n: nat, chunks: nat)
    requires chunks >= 1
    ensures n <= CeilDiv(n, chunks) * chunks && (n > 0 ==> (CeilDiv(n, chunks) - 1) * chunks < n)
  {
    var c := CeilDiv(n, chunks);
    WholeAndRest(n + chunks - 1, chunks);
    assert (c - 1) * chunks == c * chunks - chunks;
  }

  /** Pieces of an array differ by at most one row, the longer ones first. */
  lemma ArrayPiece(n: nat, chunks: nat, i: nat)
    requires chunks >= 1 && i < chunks
    ensures CutAt(n, chunks, false, i + 1) - CutAt(n, chunks, false, i) == n / chunks + if i < n % chunks then 1 else 0
  {
    hide Times;
    TimesStep(i, n / chunks);
  }

  /** Pieces of tensors have the full width; one shorter piece can follow, and nothing after it. */
  lemma TensorPiece(n: nat, chunks: nat, i: nat)
    requires chunks >= 1 && i < chunks
    ensures var c, size := CeilDiv(n, chunks), CutAt(n, chunks, true, i + 1) - CutAt(n, chunks, true, i);
            size <= c && (size < c ==> CutAt(n, chunks, true, i + 1) == n)
  {
    hide Times, CeilDiv;
    TimesStep(i, CeilDiv(n, chunks));
  }

  /** The sizes that `TensorDict.chunk` and `np.array_split` make of n rows. */
  ghost predicate SizesAsMade(sizes: seq<nat>, n: nat, chunks: nat, tensors: bool) {
    && |sizes| == chunks >= 1
    && if tensors then
         exists c: nat :: n <= c * chunks && (n > 0 ==> (c - 1) * chunks < n) && FullThenEmpty(sizes, c)
       else
         forall i :: 0 <= i < chunks ==> sizes[i] == n / chunks + if i < n % chunks then 1 else 0
  }

  /** Full pieces first, then at most one that is shorter, then empty ones. */
  ghost predicate FullThenEmpty(sizes: seq<nat>, c: nat) {
    && (forall i :: 0 <= i < |sizes| ==> sizes[i] <= c)
    && (forall i, j :: 0 <= i < j < |sizes| && sizes[i] < c ==> sizes[j] == 0)
  }

  function SizesOf<T, U>(ds: seq<DataProto<T, U>>): (r: seq<nat>)
    ensures |r| == |ds| && forall i :: 0 <= i < |r| ==> r[i] == ds[i].size
  {
    seq(|ds|, i requires 0 <= i < |ds| => ds[i].size)
  }

  lemma {:induction false} CutsReachEnd(n: nat, chunks: nat, i: nat, j: nat)
    requires chunks >= 1 && i <= j <= chunks && CutAt(n, chunks, true, i) == n
    ensures CutAt(n, chunks, true, j) == n
    decreases j
  {
    hide CutAt;
    if i < j {
      CutsReachEnd(n, chunks, i, j - 1);
      CutsGrow(n, chunks, true, j - 1);
    }
  }

  lemma ChunkSizes(sizes: seq<nat>, n: nat, chunks: nat, tensors: bool)
    requires chunks >= 1 && |sizes| == chunks
    requires forall i :: 0 <= i < chunks ==> CutAt(n, chunks, tensors, i) + sizes[i] == CutAt(n, chunks, tensors, i + 1)
    ensures SizesAsMade(sizes, n, chunks, tensors)
  {
    hide CutAt;
    if tensors {
      var c := CeilDiv(n, chunks);
      CeilIsLeast(n, chunks);
      hide CeilDiv;
      forall i | 0 <= i < chunks
        ensures sizes[i] <= c && (sizes[i] < c ==> CutAt(n, chunks, true, i + 1) == n)
      {
        TensorPiece(n, chunks, i);
      }
      forall i, j | 0 <= i < j < chunks && sizes[i] < c
        ensures sizes[j] == 0
      {
        CutsReachEnd(n, chunks, i + 1, j);
        CutsReachEnd(n, chunks, i + 1, j + 1);
      }
      assert FullThenEmpty(sizes, c);
    } else {
      forall i | 0 <= i < chunks
        ensures sizes[i] == n / chunks + if i < n % chunks then 1 else 0
      {
        ArrayPiece(n, chunks, i);
      }
    }
  }

  /** None: the chunks would differ and padding is not enabled, or the tensors make fewer pieces than
      asked for. Otherwise the pieces follow each other; they are equal if the size is divisible. */
  method Chunk<T, U>(data: DataProto<T, U>, chunks: nat, paddingEnabled: bool)
    returns (r: Option<seq<DataProto<T, U>>>, ghost cuts: seq<nat>)
    requires data.Valid() && chunks >= 1
    ensures r.None? <==>
              data.size % chunks != 0 &&
              (!paddingEnabled || (data.batch.Some? && CutAt(data.size, chunks, true, chunks - 1) == data.size))
    ensures r.Some? ==> Cuts(cuts, data.size) && cuts[|cuts| - 1] == data.size && Pieces(r.value, data, cuts)
    ensures r.Some? ==> |r.value| == chunks
    ensures r.Some? ==> forall i :: 0 <= i <= chunks ==> cuts[i] == CutAt(data.size, chunks, data.batch.Some?, i)
    ensures r.Some? ==> SizesAsMade(SizesOf(r.value), data.size, chunks, data.batch.Some?)
    ensures r.Some? && data.size % chunks == 0 ==> forall i :: 0 <= i < chunks ==> r.value[i].size == data.size / chunks
  {
    hide Slice, Cuts, Pieces, CutAt, DataProto.Valid, SizesAsMade;
    var n, tensors := data.size, data.batch.Some?;
    cuts := [0];
    if n % chunks != 0 && (!paddingEnabled || (tensors && CutAt(n, chunks, true, chunks - 1) == n)) { return None, cuts; }
    var output, start := [], 0;
    NoPiece(data);
    CutsMeet(n, chunks, tensors);
    while |output| < chunks
      invariant 0 <= |output| <= chunks && start == CutAt(n, chunks, tensors, |output|) <= n
      invariant Cuts(cuts, n) && Pieces(output, data, cuts) && |cuts| == |output| + 1 && cuts[|output|] == start
      invariant forall i :: 0 <= i < |cuts| ==> cuts[i] == CutAt(n, chunks, tensors, i)
      invariant forall i :: 0 <= i < |output| ==> cuts[i] + output[i].size == cuts[i + 1]
    {
      CutsGrow(n, chunks, tensors, |output|);
      var end := CutAt(n, chunks, tensors, |output| + 1);
      NextPiece(output, data, cuts, end);
      output := output + [Slice(data, start, end)];
      start := end;
      cuts := cuts + [end];
    }
    ChunkSizes(SizesOf(output), n, chunks, tensors);
    if n % chunks == 0 {
      forall i | 0 <= i < chunks
        ensures output[i].size == n / chunks
      {
        EqualCuts(n, chunks, tensors, i);
      }
    }
    r := Some(output);
  }

  lemma NoPiece<T, U>(d: DataProto<T, U>)
    requires d.Valid()
    ensures Cuts([0], d.size) && Pieces([], d, [0])
  {
  }

  method Split<T, U>(data: DataProto<T, U>, splitSize: nat) returns (r: seq<DataProto<T, U>>, ghost cuts: seq<nat>)
    requires data.Valid() && splitSize >= 1
    ensures data.size == 0 ==> r == []
    ensures data.size > 0 ==> Cuts(cuts, data.size) && cuts[|cuts| - 1] == data.size && Pieces(r, data, cuts)
    ensures forall i :: 0 <= i < |r| ==> 0 < r[i].size <= splitSize && (i < |r| - 1 ==> r[i].size == splitSize)
  {
    hide Slice, Cuts, Pieces;
    r, cuts := [], [0];
    var start := 0;
    NoPiece(data);
    while start < data.size
      invariant 0 <= start <= data.size && (start == 0 ==> r == [])
      invariant Cuts(cuts, data.size) && Pieces(r, data, cuts) && |cuts| >= 1 && cuts[|cuts| - 1] == start
      invariant forall i :: 0 <= i < |r| ==> 0 < r[i].size <= splitSize
      invariant forall i :: 0 <= i < |r| && (i < |r| - 1 || start < data.size) ==> r[i].size == splitSize
    {
      var end := if start + splitSize <= data.size then start + splitSize else data.size;
      NextPiece(r, data, cuts, end);
      r := r + [Slice(data, start, end)];
      start := end;
      cuts := cuts + [end];
    }
  }

  /** Cutting and gluing are inverse. */
  lemma CutAndGlue<T, U>(ds: seq<DataProto<T, U>>, d: DataProto<T, U>, cuts: seq<nat>)
    requires d.Valid() && Cuts(cuts, d.size) && cuts[|cuts| - 1] == d.size && Pieces(ds, d, cuts) && ds != []
    ensures Concatenable(ds) && Concat(ds) == d
  {
    GluePieces(ds, d, cuts);
    SliceAll(d);
  }

  // ------------------------------------------------ a data-parallel call

  /** A computation that treats rows independently: it commutes with every slice. */
  ghost predicate RowWise<T(!new), U(!new), V(!new), W(!new)>(f: DataProto<T, U> -> DataProto<V, W>) {
    && (forall d: DataProto<T, U> :: d.Valid() ==> f(d).Valid() && f(d).size == d.size)
    && (forall d: DataProto<T, U>, i: nat, j: nat :: d.Valid() && i <= j <= d.size ==> Commutes(f, d, i, j))
  }

  ghost predicate Commutes<T(!new), U(!new), V(!new), W(!new)>(f: DataProto<T, U> -> DataProto<V, W>, d: DataProto<T, U>, i: nat, j: nat)
    requires d.Valid() && i <= j <= d.size
  {
    f(d).Valid() && f(d).size == d.size && f(Slice(d, i, j)) == Slice(f(d), i, j)
  }

  function MapSeq<T, V>(g: T -> V, s: seq<T>): (r: seq<V>)
    ensures |r| == |s| && forall i :: 0 <= i < |r| ==> r[i] == g(s[i])
  {
    seq(|s|, i requires 0 <= i < |s| => g(s[i]))
  }

  function MapColumns<T, V>(g: T -> V, columns: Columns<T>): (r: Columns<V>)
    ensures r.Keys == columns.Keys
  {
    map key | key in columns :: MapSeq(g, columns[key])
  }

  /** The plainest row-wise computation: every entry of every column is mapped. */
  function MapRows<T, U, V, W>(g: T -> V, h: U -> W, d: DataProto<T, U>): DataProto<V, W> {
    DataProto(d.size, if d.batch.None? then None else Some(MapColumns(g, d.batch.value)), MapColumns(h, d.nonTensorBatch))
  }

  lemma MapSliceColumns<T, V>(g: T -> V, columns: Columns<T>, n: nat, i: nat, j: nat)
    requires Rectangular(columns, n) && i <= j <= n
    ensures Rectangular(MapColumns(g, columns), n)
    ensures MapColumns(g, SliceColumns(columns, n, i, j)) == SliceColumns(MapColumns(g, columns), n, i, j)
  {
    assert forall key :: key in columns ==> MapSeq(g, columns[key][i..j]) == MapSeq(g, columns[key])[i..j];
  }

  lemma MapRowsCommutes<T(!new), U(!new), V(!new), W(!new)>(g: T -> V, h: U -> W, d: DataProto<T, U>, i: nat, j: nat)
    requires d.Valid() && i <= j <= d.size
    ensures Commutes((x: DataProto<T, U>) => MapRows(g, h, x), d, i, j)
  {
    MapSliceColumns(h, d.nonTensorBatch, d.size, i, j);
    if d.batch.Some? { MapSliceColumns(g, d.batch.value, d.size, i, j); }
    assert MapColumns(h, d.nonTensorBatch).Keys == d.nonTensorBatch.Keys;
    assert MapColumns(h, d.nonTensorBatch) == map[] ==> d.nonTensorBatch.Keys == {};
  }

  lemma MapRowsIsRowWise<T(!new), U(!new), V(!new), W(!new)>(g: T -> V, h: U -> W)
    ensures RowWise((x: DataProto<T, U>) => MapRows(g, h, x))
  {
    var f := (x: DataProto<T, U>) => MapRows(g, h, x);
    forall d: DataProto<T, U>, i: nat, j: nat | d.Valid() && i <= j <= d.size
      ensures Commutes(f, d, i, j)
    {
      MapRowsCommutes(g, h, d, i, j);
    }
    forall d: DataProto<T, U> | d.Valid()
      ensures f(d).Valid() && f(d).size == d.size
    {
      assert Commutes(f, d, 0, 0);
    }
  }

  /** The outputs of the workers are the pieces of what the direct call on all rows gives. */
  lemma OutputsArePieces<T(!new), U(!new), V(!new), W(!new)>(
      f: DataProto<T, U> -> DataProto<V, W>, d: DataProto<T, U>, chunks: seq<DataProto<T, U>>, outputs: seq<DataProto<V, W>>,
      cuts: seq<nat>)
    requires d.Valid() && RowWise(f) && Cuts(cuts, d.size) && Pieces(chunks, d, cuts)
    requires |outputs| == |chunks| && forall i :: 0 <= i < |chunks| ==> outputs[i] == f(chunks[i])
    ensures f(d).Valid() && f(d).size == d.size && Pieces(outputs, f(d), cuts)
  {
    hide Slice;
    forall i | 0 <= i < |outputs|
      ensures outputs[i] == Slice(f(d), cuts[i], cuts[i + 1])
    {
      assert Commutes(f, d, cuts[i], cuts[i + 1]);
    }
  }

  /** Padding, distributing over k workers, collecting and unpadding equals the direct call, whatever
      the number of rows and of workers, on tensor and non-tensor columns. */
  method Dispatch<T(!new), U(!new), V(!new), W(!new)>(data: DataProto<T, U>, k: nat, f: DataProto<T, U> -> DataProto<V, W>)
    returns (r: DataProto<V, W>)
    requires data.Valid() && data.size > 0 && k >= 1 && RowWise(f)
    ensures r == f(data)
  {
    hide Slice, Append, Wraps, Concat, Pieces, Cuts;
    var padded, padSize := PadDataprotoToDivisor(data, k);
    var chunks, cuts := Chunk(padded, k, false);
    var outputs: seq<DataProto<V, W>> := [];
    while |outputs| < k
      invariant |outputs| <= k && forall i :: 0 <= i < |outputs| ==> outputs[i] == f(chunks.value[i])
    {
      outputs := outputs + [f(chunks.value[|outputs|])];
    }
    OutputsArePieces(f, padded, chunks.value, outputs, cuts);
    CutAndGlue(outputs, f(padded), cuts);
    r := Unpad(Concat(outputs), padSize);
    assert Commutes(f, padded, 0, data.size);
    SliceAll(f(padded));
  }
}
