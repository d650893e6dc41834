/** When the reader returns what RFC 8259 says a strict text means. */
module JsonMeaning {
  import opened Options
  import opened JsonParser
  import opened JsonRoundTrip
  import opened JsonTexts

  // ------------------------------------------------ strings

  predicate Supported(x: Char) { x.Plain? || (x.Escape? && x.c != 'b' && x.c != 'f') }

  predicate AllSupported(xs: seq<Char>) { forall i :: 0 <= i < |xs| ==> Supported(xs[i]) }

  lemma {:induction false} DecodedLength(xs: seq<Char>, unit: string -> char)
    ensures |DecodedAll(xs)| >= |xs| == |Meanings(xs, unit)|
  {
    if xs != [] { DecodedLength(xs[1..], unit); }
  }

  /** The string loop yields the RFC's meaning of a string exactly when the string uses none of
      \b, \f and \uXXXX. */
  lemma {:induction false} StringMeaning(xs: seq<Char>, unit: string -> char)
    requires StrictChars(xs)
    ensures DecodedAll(xs) == Meanings(xs, unit) <==> AllSupported(xs)
  {
    if xs != [] {
      StringMeaning(xs[1..], unit);
      DecodedLength(xs[1..], unit);
      var x := xs[0];
      assert AllSupported(xs) <==> Supported(x) && AllSupported(xs[1..]) by {
        assert forall i :: 1 <= i < |xs| ==> xs[i] == xs[1..][i - 1];
      }
      if !x.Unicode? {
        assert DecodedAll(xs)[1..] == DecodedAll(xs[1..]) && Meanings(xs, unit)[1..] == Meanings(xs[1..], unit);
        assert DecodedAll(xs)[0] == Decoded(x)[0];
      }
    }
  }

  /** `convert_value` leaves the string alone, and it uses none of the three escapes. */
  predicate KeptString(py: Python, xs: seq<Char>) {
    py.convert(DecodedAll(xs)) == Str(DecodedAll(xs)) && AllSupported(xs)
  }

  lemma StringRead(py: Python, xs: seq<Char>, unit: string -> char)
    requires StrictChars(xs) && Reliable(py)
    ensures py.convert(DecodedAll(xs)) == Str(Meanings(xs, unit)) <==> KeptString(py, xs)
  {
    StringMeaning(xs, unit);
  }

  // ------------------------------------------------ dicts

  predicate DistinctKeys(es: seq<Entry>) { forall i, j :: 0 <= i < j < |es| ==> es[i].key != es[j].key }

  predicate HasKey(es: seq<Entry>, key: Value) { exists i :: 0 <= i < |es| && es[i].key == key }

  lemma {:induction false} SetItemSize(es: seq<Entry>, key: Value, value: Value)
    ensures HasKey(es, key) ==> |SetItem(es, key, value)| == |es|
    ensures !HasKey(es, key) ==> SetItem(es, key, value) == es + [Entry(key, value)]
  {
    if es != [] {
      SetItemSize(es[1..], key, value);
      assert HasKey(es, key) <==> es[0].key == key || HasKey(es[1..], key) by {
        assert forall i :: 1 <= i < |es| ==> es[i] == es[1..][i - 1];
      }
    }
  }

  /** Setting a known key replaces its value and leaves every other entry and the order alone. */
  lemma {:induction false} SetItemReplaces(es: seq<Entry>, key: Value, value: Value)
    requires DistinctKeys(es) && HasKey(es, key)
    ensures var r := SetItem(es, key, value);
            |r| == |es| && forall i :: 0 <= i < |es| ==> r[i] == if es[i].key == key then Entry(key, value) else es[i]
  {
    if es[0].key != key {
      var rest := es[1..];
      assert HasKey(rest, key) by {
        var i :| 0 <= i < |es| && es[i].key == key;
        assert rest[i - 1].key == key;
      }
      SetItemReplaces(rest, key, value);
      assert forall i :: 1 <= i < |es| ==> es[i] == rest[i - 1];
    }
  }

  /** Setting entries one after the other loses none of them exactly when all keys are new. */
  lemma {:induction false} SetAllSize(obj: seq<Entry>, es: seq<Entry>)
    requires DistinctKeys(obj)
    ensures |SetAll(obj, es)| <= |obj| + |es|
    ensures DistinctKeys(obj + es) ==> SetAll(obj, es) == obj + es
    ensures |SetAll(obj, es)| == |obj| + |es| ==> DistinctKeys(obj + es)
    decreases |es|
  {
    if es == [] {
      assert obj + es == obj;
    } else {
      SetFirst(obj, es[0]);
      SetAllSize(SetItem(obj, es[0].key, es[0].value), es[1..]);
      if HasKey(obj, es[0].key) {
        var i :| 0 <= i < |obj| && obj[i].key == es[0].key;
        assert (obj + es)[i].key == (obj + es)[|obj|].key;
      } else {
        assert obj + [es[0]] + es[1..] == obj + es;
      }
    }
  }

  lemma {:induction false} SetFirst(obj: seq<Entry>, e: Entry)
    requires DistinctKeys(obj)
    ensures HasKey(obj, e.key) ==> |SetItem(obj, e.key, e.value)| == |obj|
    ensures !HasKey(obj, e.key) ==> SetItem(obj, e.key, e.value) == obj + [e]
    ensures DistinctKeys(SetItem(obj, e.key, e.value))
  {
    SetItemSize(obj, e.key, e.value);
    if HasKey(obj, e.key) { SameKeys(obj, e.key, e.value); }
  }

  lemma {:induction false} SameKeys(obj: seq<Entry>, key: Value, value: Value)
    requires HasKey(obj, key)
    ensures var r := SetItem(obj, key, value);
            |r| == |obj| && forall i :: 0 <= i < |r| ==> r[i].key == obj[i].key
  {
    if obj[0].key != key {
      assert HasKey(obj[1..], key) by {
        var i :| 0 <= i < |obj| && obj[i].key == key;
        assert obj[1..][i - 1].key == key;
      }
      SameKeys(obj[1..], key, value);
      assert forall i :: 1 <= i < |obj| ==> obj[i] == obj[1..][i - 1];
    }
  }

  // ------------------------------------------------ values

  /** What a text must satisfy to be returned as what it means: strings and names are kept, floats are
      read exactly, and the names of an object are distinct. */
  predicate Kept(py: Python, d: Doc)
    requires Strict(d)
  {
    match d
    case StrDoc(t) => KeptString(py, t.chars)
    case FloatDoc(w, f, e) => py.float(w + (f + e)) == Some(Float(w + (f + e)))
    case ArrDoc(es) => KeptElems(py, es)
    case ObjDoc(ms) => KeptMembers(py, ms) && Distinct(Names(ms))
    case _ => true
  }

  predicate KeptElems(py: Python, es: Elems)
    requires StrictElems(es)
  {
    match es
    case NoElems(_) => true
    case Elem(_, value, _, more) => Kept(py, value) && (match more case None => true case Some(rest) => KeptElems(py, rest))
  }

  predicate KeptMembers(py: Python, ms: Members)
    requires StrictMembers(ms)
  {
    match ms
    case NoMembers(_) => true
    case Member(_, _, key, _, _, value, _, more) =>
      && KeptString(py, key) && Kept(py, value)
      && (match more case None => true case Some(rest) => KeptMembers(py, rest))
  }

  function Names(ms: Members): seq<string> {
    match ms
    case NoMembers(_) => []
    case Member(_, _, key, _, _, _, _, more) => [DecodedAll(key)] + (match more case None => [] case Some(rest) => Names(rest))
  }

  predicate Distinct(names: seq<string>) { forall i, j :: 0 <= i < j < |names| ==> names[i] != names[j] }

  lemma DistinctNamesAndKeys(es: seq<Entry>, names: seq<string>)
    requires |es| == |names| && forall i :: 0 <= i < |es| ==> es[i].key == Str(names[i])
    ensures DistinctKeys(es) <==> Distinct(names)
  {
  }

  /** The reader returns what the text means exactly when the text is kept. */
  lemma {:induction false} ReadIsStandard(py: Python, d: Doc, unit: string -> char)
    requires WellFormed(d) && Strict(d) && Reliable(py)
    ensures Read(py, d) == Standard(d, unit) <==> Kept(py, d)
    decreases d, 1
  {
    match d
    case StrDoc(t) => StringRead(py, t.chars, unit);
    case FloatDoc(w, f, e) => assert FloatRead(py, w + (f + e));
    case ArrDoc(es) => ElemsAreStandard(py, es, unit);
    case ObjDoc(ms) => ObjectIsStandard(py, ms, unit);
    case _ =>
  }

  lemma {:induction false} ElemsAreStandard(py: Python, es: Elems, unit: string -> char)
    requires WellFormedElems(es) && StrictElems(es) && Reliable(py)
    ensures ReadElems(py, es) == StandardElems(es, unit) <==> KeptElems(py, es)
    decreases es, 0
  {
    if es.Elem? {
      ReadIsStandard(py, es.value, unit);
      if es.more.Some? {
        ElemsAreStandard(py, es.more.value, unit);
        assert ReadElems(py, es)[1..] == ReadElems(py, es.more.value);
        assert StandardElems(es, unit)[1..] == StandardElems(es.more.value, unit);
      }
      assert ReadElems(py, es)[0] == Read(py, es.value);
    }
  }

  lemma {:induction false} EntriesAreStandard(py: Python, ms: Members, unit: string -> char)
    requires WellFormedMembers(ms) && StrictMembers(ms) && Reliable(py)
    ensures |ReadEntries(py, ms)| == |StandardEntries(ms, unit)| == |Names(ms)|
    ensures ReadEntries(py, ms) == StandardEntries(ms, unit) <==> KeptMembers(py, ms)
    ensures KeptMembers(py, ms) ==> forall i :: 0 <= i < |Names(ms)| ==> ReadEntries(py, ms)[i].key == Str(Names(ms)[i])
    decreases ms, 0
  {
    if ms.Member? {
      ReadIsStandard(py, ms.value, unit);
      StringRead(py, ms.key, unit);
      if ms.more.Some? {
        EntriesAreStandard(py, ms.more.value, unit);
        assert ReadEntries(py, ms)[1..] == ReadEntries(py, ms.more.value);
        assert StandardEntries(ms, unit)[1..] == StandardEntries(ms.more.value, unit);
        assert Names(ms)[1..] == Names(ms.more.value);
      }
      assert ReadEntries(py, ms)[0] == Entry(py.convert(DecodedAll(ms.key)), Read(py, ms.value));
      assert StandardEntries(ms, unit)[0] == Entry(Str(Meanings(ms.key, unit)), Standard(ms.value, unit));
    }
  }

  lemma {:induction false} ObjectIsStandard(py: Python, ms: Members, unit: string -> char)
    requires WellFormedMembers(ms) && StrictMembers(ms) && Reliable(py)
    ensures SetAll([], ReadEntries(py, ms)) == StandardEntries(ms, unit) <==> KeptMembers(py, ms) && Distinct(Names(ms))
    decreases ms, 1
  {
    hide ReadEntries, StandardEntries, SetAll, Reliable, KeptMembers, Names, StrictMembers;
    var es := ReadEntries(py, ms);
    EntriesAreStandard(py, ms, unit);
    SetAllSize([], es);
    assert [] + es == es;
    if KeptMembers(py, ms) { DistinctNamesAndKeys(es, Names(ms)); }
  }

  /** The numbers of a strict text are numbers for `float`. */
  lemma {:induction false} StrictReadable(py: Python, d: Doc)
    requires Strict(d) && Reliable(py)
    ensures Readable(py, d)
    decreases d, 0
  {
    match d
    case FloatDoc(w, f, e) => assert FloatRead(py, w + (f + e));
    case ArrDoc(es) => StrictReadableElems(py, es);
    case ObjDoc(ms) => StrictReadableMembers(py, ms);
    case _ =>
  }

  lemma {:induction false} StrictReadableElems(py: Python, es: Elems)
    requires StrictElems(es) && Reliable(py)
    ensures ReadableElems(py, es)
    decreases es, 0
  {
    if es.Elem? {
      StrictReadable(py, es.value);
      if es.more.Some? { StrictReadableElems(py, es.more.value); }
    }
  }

  lemma {:induction false} StrictReadableMembers(py: Python, ms: Members)
    requires StrictMembers(ms) && Reliable(py)
    ensures ReadableMembers(py, ms)
    decreases ms, 0
  {
    if ms.Member? {
      StrictReadable(py, ms.value);
      if ms.more.Some? { StrictReadableMembers(py, ms.more.value); }
    }
  }

  /** `extract_json` on the RFC text of an object: it returns what the text means if and only if the text
      is kept, whatever surrounds it, provided nothing before it contains "{" and nothing after it "}". */
  lemma ExtractJsonUndoesRender(py: Python, pre: string, d: Doc, post: string, unit: string -> char)
    requires d.ObjDoc? && WellFormed(d) && Strict(d) && Reliable(py) && '{' !in pre && '}' !in post
    ensures ExtractJson(py, pre + Render(d) + post) == Ok(Standard(d, unit), |Render(d)|) <==> Kept(py, d)
  {
    hide Reliable;
    StrictReadable(py, d);
    ExtractJsonReads(py, pre, d, post);
    ReadIsStandard(py, d, unit);
  }
}
