/** The reader accepts nothing but the well-formed texts, and fails on everything else: together with
    the round trip this says exactly which texts it reads, and as what. */
module JsonGrammar {
  import opened Options
  import opened JsonParser
  import opened JsonRoundTrip
  import opened JsonTexts

  // ------------------------------------------------ pieces of a text

  lemma Join(s: string, a: nat, b: nat, c: nat)
    requires a <= b <= c <= |s|
    ensures s[a..b] + s[b..c] == s[a..c]
  {
  }

  lemma SpacePiece(s: string, pos: nat)
    requires pos <= |s|
    ensures AllSpace(s[pos..SkipSpace(s, pos)]) && SkipSpace(s, SkipSpace(s, pos)) == SkipSpace(s, pos)
  {
    SkipSpaceMeaning(s, pos);
    var p := SkipSpace(s, pos);
    assert forall i :: 0 <= i < p - pos ==> s[pos..p][i] == s[pos + i];
  }

  // ------------------------------------------------ strings

  lemma {:induction false} StringBodyAccepts(s: string, pos: nat, quote: char, result: string) returns (xs: seq<Char>)
    requires pos <= |s| && Mark(quote) && StringBody(s, pos, quote, result).Ok?
    ensures var r := StringBody(s, pos, quote, result);
            ValidChars(xs, quote) && s[pos..r.pos] == RenderChars(xs, quote) && r.value == result + DecodedAll(xs)
    decreases |s| - pos
  {
    hide ValidChars, RenderChars, DecodedAll;
    var end := StringBody(s, pos, quote, result).pos;
    if s[pos] == '\\' {
      var c := s[pos + 1];
      var rest := StringBodyAccepts(s, pos + 2, quote, result + [Unescape(c)]);
      OneMoreChar(Escape(c), rest, quote, result);
      xs := [Escape(c)] + rest;
      assert s[pos..pos + 2] == ['\\', c];
      Join(s, pos, pos + 2, end);
    } else if s[pos] == quote {
      xs := [];
      NoChars(quote, result);
      assert s[pos..end] == [quote];
    } else {
      var c := s[pos];
      var rest := StringBodyAccepts(s, pos + 1, quote, result + [c]);
      OneMoreChar(Plain(c), rest, quote, result);
      xs := [Plain(c)] + rest;
      assert s[pos..pos + 1] == [c];
      Join(s, pos, pos + 1, end);
    }
  }

  lemma StringAccepts(py: Python, s: string, pos: nat) returns (xs: seq<Char>)
    requires pos < |s| && IsQuote(s[pos]) && ParseString(py, s, pos).Ok?
    ensures var r := ParseString(py, s, pos);
            ValidChars(xs, s[pos]) && s[pos..r.pos] == RenderString(xs, s[pos]) && r.value == py.convert(DecodedAll(xs))
  {
    xs := StringBodyAccepts(s, pos + 1, s[pos], "");
    var end := ParseString(py, s, pos).pos;
    assert s[pos..end] == [s[pos]] + s[pos + 1..end];
    assert "" + DecodedAll(xs) == DecodedAll(xs);
  }

  lemma {:induction false} TripleBodyAccepts(s: string, pos: nat, quote: char, result: string) returns (end: nat)
    requires pos <= |s| && Mark(quote) && TripleBody(s, pos, quote, result).Ok?
    ensures pos <= end && At(s, end, Thrice(quote)) && forall i :: pos <= i < end ==> !At(s, i, Thrice(quote))
    ensures TripleBody(s, pos, quote, result) == Ok(result + s[pos..end], end + 3)
    decreases |s| - pos
  {
    ThriceAt(s, pos, quote);
    if At(s, pos, Thrice(quote)) {
      end := pos;
      assert result + s[pos..end] == result;
    } else {
      end := TripleBodyAccepts(s, pos + 1, quote, result + [s[pos]]);
      assert result + [s[pos]] + s[pos + 1..end] == result + s[pos..end];
    }
  }

  lemma BodyClosesOnce(s: string, pos: nat, end: nat, quote: char)
    requires pos <= end && At(s, end, Thrice(quote)) && forall i :: pos <= i < end ==> !At(s, i, Thrice(quote))
    ensures ClosesOnce(s[pos..end], quote)
  {
    var body := s[pos..end];
    ThriceAt(s, end, quote);
    forall i | 0 <= i && i + 3 <= |body|
      ensures !(body[i] == body[i + 1] == body[i + 2] == quote)
    {
      ThriceAt(s, pos + i, quote);
    }
    if body != "" { ThriceAt(s, end - 1, quote); }
  }

  lemma TripleAccepts(py: Python, s: string, pos: nat) returns (body: string)
    requires pos <= |s| && AtTriple(s, pos) && ParseTriple(py, s, pos).Ok?
    ensures var r := ParseTriple(py, s, pos);
            && ClosesOnce(body, s[pos]) && r.value == py.convert(body)
            && s[pos..r.pos] == RenderText(Tripled(s[pos], body))
  {
    hide TripleBody, ClosesOnce;
    var quote := s[pos];
    ThriceAt(s, pos, quote);
    var end := TripleBodyAccepts(s, pos + 3, quote, "");
    body := s[pos + 3..end];
    BodyClosesOnce(s, pos + 3, end, quote);
    assert "" + body == body;
    TripleText(s, pos, end, quote);
  }

  lemma TripleText(s: string, pos: nat, end: nat, quote: char)
    requires pos + 3 <= end && At(s, pos, Thrice(quote)) && At(s, end, Thrice(quote))
    ensures s[pos..end + 3] == RenderText(Tripled(quote, s[pos + 3..end]))
  {
    Join(s, pos + 3, end, end + 3);
    Join(s, pos, pos + 3, end + 3);
  }

  // ------------------------------------------------ other scalars

  lemma {:induction false} KeywordAccepts(s: string, pos: nat, keyword: string)
    requires (forall i :: 0 <= i < |keyword| ==> 'a' <= keyword[i] <= 'z') && pos <= |s| && LowerAt(s, pos, keyword)
    ensures pos + |keyword| <= |s| && InAnyCase(s[pos..pos + |keyword|], keyword)
    decreases |keyword|
  {
    if keyword != "" {
      KeywordAccepts(s, pos + 1, keyword[1..]);
      var word := s[pos..pos + |keyword|];
      assert word[1..] == s[pos + 1..pos + 1 + |keyword[1..]|];
      assert forall i :: 1 <= i < |word| ==> word[i] == word[1..][i - 1] && keyword[i] == keyword[1..][i - 1];
    }
  }

  lemma {:induction false} NumberEndMeaning(s: string, pos: nat)
    requires pos <= |s|
    ensures forall i :: pos <= i < NumberEnd(s, pos) ==> IsNumberChar(s[i])
    decreases |s| - pos
  {
    if pos < |s| && IsNumberChar(s[pos]) { NumberEndMeaning(s, pos + 1); }
  }

  lemma NumberAccepts(py: Python, s: string, pos: nat) returns (d: Doc)
    requires pos < |s| && IsNumberChar(s[pos]) && s[pos] != 'e' && s[pos] != 'E' && ParseNumber(py, s, pos).Ok?
    ensures var r := ParseNumber(py, s, pos);
            WellFormed(d) && Readable(py, d) && s[pos..r.pos] == Render(d) && r.value == Read(py, d)
  {
    var text := s[pos..NumberEnd(s, pos)];
    NumberEndMeaning(s, pos);
    assert forall i :: 0 <= i < |text| ==> text[i] == s[pos + i];
    assert text + ("" + "") == text;
    if LooksFloat(text) {
      d := FloatDoc(text, "", "");
    } else {
      d := IntDoc(text);
      IntOfAccepts(text);
    }
  }

  lemma IntOfAccepts(text: string)
    requires IntOf(text).Some?
    ensures LooseInt(text) && IntegerOf(text) == Int(IntOf(text).value)
  {
    hide Natural;
  }

  lemma ScalarAccepts(py: Python, s: string, pos: nat) returns (d: Doc)
    requires pos < |s| && ParseScalar(py, s, pos).Ok?
    ensures var r := ParseScalar(py, s, pos);
            WellFormed(d) && Readable(py, d) && s[pos..r.pos] == Render(d) && r.value == Read(py, d)
  {
    if LowerAt(s, pos, "true") {
      KeywordAccepts(s, pos, "true");
      d := BoolDoc(true, s[pos..pos + 4]);
    } else if LowerAt(s, pos, "false") {
      KeywordAccepts(s, pos, "false");
      d := BoolDoc(false, s[pos..pos + 5]);
    } else if LowerAt(s, pos, "null") {
      KeywordAccepts(s, pos, "null");
      d := NullDoc(s[pos..pos + 4]);
    } else {
      d := NumberAccepts(py, s, pos);
    }
  }

  // ------------------------------------------------ structures

  /** What the text of a value from `start` to `end` shows, and what it is read as. */
  ghost predicate Shown(py: Python, s: string, start: nat, end: nat, space: string, d: Doc, value: Value) {
    && start <= end <= |s| && AllSpace(space) && WellFormed(d) && Readable(py, d)
    && s[start..end] == space + Render(d) && value == Read(py, d)
  }

  lemma SkippedFirst(py: Python, s: string, start: nat)
    requires start <= |s|
    ensures ParseValue(py, s, start) == ParseValue(py, s, SkipSpace(s, start))
  {
    SpacePiece(s, start);
  }

  /** A value that is read has a well-formed text. */
  lemma {:induction false} ValueAccepts(py: Python, s: string, start: nat) returns (space: string, d: Doc)
    requires start <= |s| && ParseValue(py, s, start).Ok?
    ensures var r := ParseValue(py, s, start); Shown(py, s, start, r.pos, space, d, r.value)
    decreases |s| - start, 1
  {
    hide Read, Readable, WellFormed;
    var pos := SkipSpace(s, start);
    SpacePiece(s, start);
    SkippedFirst(py, s, start);
    space := s[start..pos];
    d := BareValueAccepts(py, s, pos);
    Join(s, start, pos, ParseValue(py, s, start).pos);
  }

  lemma ObjectOk(py: Python, s: string, pos: nat)
    requires pos < |s| && SkipSpace(s, pos) == pos && s[pos] == '{' && ParseValue(py, s, pos).Ok?
    ensures var r := ObjectLoop(py, s, SkipSpace(s, pos + 1), []); r.Ok? && ParseValue(py, s, pos) == Ok(Obj(r.value), r.pos)
  {
    hide ObjectLoop;
  }

  lemma ArrayOk(py: Python, s: string, pos: nat)
    requires pos < |s| && SkipSpace(s, pos) == pos && s[pos] == '[' && ParseValue(py, s, pos).Ok?
    ensures var r := ArrayLoop(py, s, SkipSpace(s, pos + 1), []); r.Ok? && ParseValue(py, s, pos) == Ok(Arr(r.value), r.pos)
  {
    hide ArrayLoop;
  }

  lemma SomethingThere(py: Python, s: string, pos: nat)
    requires pos <= |s| && SkipSpace(s, pos) == pos && ParseValue(py, s, pos).Ok?
    ensures pos < |s|
  {
    hide ObjectLoop, ArrayLoop;
  }

  lemma {:induction false} BareValueAccepts(py: Python, s: string, pos: nat) returns (d: Doc)
    requires pos <= |s| && SkipSpace(s, pos) == pos && ParseValue(py, s, pos).Ok?
    ensures var r := ParseValue(py, s, pos);
            WellFormed(d) && Readable(py, d) && s[pos..r.pos] == Render(d) && r.value == Read(py, d)
    decreases |s| - pos, 0
  {
    hide ParseValue, ObjectLoop, ArrayLoop, SkipSpace, WellFormedMembers, WellFormedElems, ReadableMembers, ReadableElems,
      RenderMembers, RenderElems, ReadEntries, ReadElems;
    SomethingThere(py, s, pos);
    var end := ParseValue(py, s, pos).pos;
    if s[pos] == '{' {
      ObjectOk(py, s, pos);
      var ms := MembersAccept(py, s, pos + 1, []);
      d := ObjDoc(ms);
      assert s[pos..end] == ['{'] + s[pos + 1..end];
    } else if s[pos] == '[' {
      ArrayOk(py, s, pos);
      var es := ElemsAccept(py, s, pos + 1, []);
      d := ArrDoc(es);
      assert [] + ReadElems(py, es) == ReadElems(py, es);
      assert s[pos..end] == ['['] + s[pos + 1..end];
    } else {
      d := PlainValueAccepts(py, s, pos);
    }
  }

  lemma PlainValueAccepts(py: Python, s: string, pos: nat) returns (d: Doc)
    requires pos < |s| && SkipSpace(s, pos) == pos && s[pos] != '{' && s[pos] != '[' && ParseValue(py, s, pos).Ok?
    ensures var r := ParseValue(py, s, pos);
            WellFormed(d) && Readable(py, d) && s[pos..r.pos] == Render(d) && r.value == Read(py, d)
  {
    hide ParseValue, ParseTriple, ParseString, ParseScalar, Render, Read, WellFormed, Readable;
    if IsQuote(s[pos]) {
      StringValue(py, s, pos);
      d := QuotedAccepts(py, s, pos);
    } else {
      ScalarValue(py, s, pos);
      d := ScalarAccepts(py, s, pos);
    }
  }

  lemma QuotedAccepts(py: Python, s: string, pos: nat) returns (d: Doc)
    requires pos < |s| && IsQuote(s[pos])
    requires (if AtTriple(s, pos) then ParseTriple(py, s, pos) else ParseString(py, s, pos)).Ok?
    ensures var r := if AtTriple(s, pos) then ParseTriple(py, s, pos) else ParseString(py, s, pos);
            WellFormed(d) && Readable(py, d) && s[pos..r.pos] == Render(d) && r.value == Read(py, d)
  {
    if AtTriple(s, pos) {
      var body := TripleAccepts(py, s, pos);
      d := StrDoc(Tripled(s[pos], body));
    } else {
      var xs := StringAccepts(py, s, pos);
      d := StrDoc(Quoted(s[pos], xs));
    }
  }

  /** The rest of an array that is read: its elements with the whitespace before each. */
  lemma {:induction false} ElemsAccept(py: Python, s: string, pos: nat, lst: seq<Value>) returns (es: Elems)
    requires pos <= |s| && ArrayLoop(py, s, SkipSpace(s, pos), lst).Ok?
    ensures var r := ArrayLoop(py, s, SkipSpace(s, pos), lst);
            && WellFormedElems(es) && ReadableElems(py, es) && s[pos..r.pos] == RenderElems(es)
            && r.value == lst + ReadElems(py, es)
    decreases |s| - pos, 2
  {
    var p := SkipSpace(s, pos);
    var before, end := s[pos..p], ArrayLoop(py, s, p, lst).pos;
    SpacePiece(s, pos);
    if s[p] == ']' {
      es := NoElems(before);
      assert s[pos..end] == before + [']'];
      assert lst + ReadElems(py, es) == lst;
    } else {
      es := ElemAccepts(py, s, pos, lst);
    }
  }

  /** One turn of the array loop that does not fail. */
  lemma ArrayTurnParts(py: Python, s: string, p: nat, lst: seq<Value>) returns (value: Value, e: nat, q: nat)
    requires p < |s| && SkipSpace(s, p) == p && s[p] != ']' && ArrayLoop(py, s, p, lst).Ok?
    ensures ParseValue(py, s, p) == Ok(value, e) && p < e <= |s| && SkipSpace(s, e) == q < |s| && (s[q] == ',' || s[q] == ']')
    ensures ArrayLoop(py, s, p, lst) ==
            if s[q] == ',' then ArrayLoop(py, s, SkipSpace(s, q + 1), lst + [value]) else Ok(lst + [value], q + 1)
  {
    hide ParseValue;
    value, e := ParseValue(py, s, p).value, ParseValue(py, s, p).pos;
    q := SkipSpace(s, e);
  }

  lemma {:induction false} ElemAccepts(py: Python, s: string, pos: nat, lst: seq<Value>) returns (es: Elems)
    requires pos <= |s| && SkipSpace(s, pos) < |s| && s[SkipSpace(s, pos)] != ']' && ArrayLoop(py, s, SkipSpace(s, pos), lst).Ok?
    ensures var r := ArrayLoop(py, s, SkipSpace(s, pos), lst);
            && WellFormedElems(es) && ReadableElems(py, es) && s[pos..r.pos] == RenderElems(es)
            && r.value == lst + ReadElems(py, es)
    decreases |s| - pos, 1
  {
    hide ArrayLoop, ParseValue, SkipSpace, AllSpace, WellFormedElems, ReadableElems, RenderElems, ReadElems;
    var p := SkipSpace(s, pos);
    SpacePiece(s, pos);
    var value, e, q := ArrayTurnParts(py, s, p, lst);
    var d := BareValueAccepts(py, s, p);
    SpacePiece(s, e);
    var more: Option<Elems> := None;
    if s[q] == ',' {
      var rest := ElemsAccept(py, s, q + 1, lst + [value]);
      more := Some(rest);
    }
    var end := ArrayLoop(py, s, p, lst).pos;
    assert s[q..end] == [s[q]] + s[q + 1..end];
    FourPieces(s, pos, p, e, q, end);
    es := ElemOf(py, s[pos..p], d, s[e..q], more, lst, s[q..end]);
  }

  lemma ElemOf(py: Python, before: string, d: Doc, after: string, more: Option<Elems>, lst: seq<Value>, tail: string) returns (es: Elems)
    requires AllSpace(before) && AllSpace(after) && WellFormed(d) && Readable(py, d)
    requires more.Some? ==> WellFormedElems(more.value) && ReadableElems(py, more.value) && tail == [','] + RenderElems(more.value)
    requires more.None? ==> tail == [']'] + []
    ensures es == Elem(before, d, after, more) && WellFormedElems(es) && ReadableElems(py, es)
    ensures RenderElems(es) == before + (Render(d) + (after + tail))
    ensures lst + ReadElems(py, es) == lst + [Read(py, d)] + (if more.Some? then ReadElems(py, more.value) else [])
  {
    es := Elem(before, d, after, more);
  }

  lemma FourPieces(s: string, a: nat, b: nat, c: nat, d: nat, e: nat)
    requires a <= b <= c <= d <= e <= |s|
    ensures s[a..e] == s[a..b] + (s[b..c] + (s[c..d] + s[d..e]))
  {
    Join(s, c, d, e);
    Join(s, b, c, e);
    Join(s, a, b, e);
  }

  /** The rest of an object that is read. */
  lemma {:induction false} MembersAccept(py: Python, s: string, pos: nat, obj: seq<Entry>) returns (ms: Members)
    requires pos <= |s| && ObjectLoop(py, s, SkipSpace(s, pos), obj).Ok?
    ensures var r := ObjectLoop(py, s, SkipSpace(s, pos), obj);
            && WellFormedMembers(ms) && ReadableMembers(py, ms) && s[pos..r.pos] == RenderMembers(ms)
            && r.value == SetAll(obj, ReadEntries(py, ms))
    decreases |s| - pos, 2
  {
    var p := SkipSpace(s, pos);
    var before, end := s[pos..p], ObjectLoop(py, s, p, obj).pos;
    SpacePiece(s, pos);
    if s[p] == '}' {
      ms := NoMembers(before);
      assert s[pos..end] == before + ['}'];
    } else {
      ms := MemberAccepts(py, s, pos, obj);
    }
  }

  /** One turn of the object loop that does not fail: where its parts are. */
  lemma TurnParts(py: Python, s: string, p: nat, obj: seq<Entry>)
    returns (key: Value, k: nat, colon: nat, v: nat, value: Value, e: nat, q: nat)
    requires p < |s| && SkipSpace(s, p) == p && s[p] != '}' && ObjectLoop(py, s, p, obj).Ok?
    ensures IsQuote(s[p]) && ParseString(py, s, p) == Ok(key, k) && p < k <= |s| && SkipSpace(s, k) == colon < |s| && s[colon] == ':'
    ensures SkipSpace(s, colon + 1) == v && ParseValue(py, s, v) == Ok(value, e) && v < e <= |s| && SkipSpace(s, e) == q < |s|
    ensures s[q] == ',' || s[q] == '}'
    ensures ObjectLoop(py, s, p, obj) ==
            if s[q] == ',' then ObjectLoop(py, s, SkipSpace(s, q + 1), SetItem(obj, key, value)) else Ok(SetItem(obj, key, value), q + 1)
  {
    hide ParseValue, ParseString, SetItem;
    key, k := ParseKey(py, s, p).value, ParseKey(py, s, p).pos;
    colon := SkipSpace(s, k);
    v := SkipSpace(s, colon + 1);
    value, e := ParseValue(py, s, v).value, ParseValue(py, s, v).pos;
    q := SkipSpace(s, e);
  }

  lemma {:induction false} MemberAccepts(py: Python, s: string, pos: nat, obj: seq<Entry>) returns (ms: Members)
    requires pos <= |s| && SkipSpace(s, pos) < |s| && s[SkipSpace(s, pos)] != '}' && ObjectLoop(py, s, SkipSpace(s, pos), obj).Ok?
    ensures var r := ObjectLoop(py, s, SkipSpace(s, pos), obj);
            && WellFormedMembers(ms) && ReadableMembers(py, ms) && s[pos..r.pos] == RenderMembers(ms)
            && r.value == SetAll(obj, ReadEntries(py, ms))
    decreases |s| - pos, 1
  {
    hide ObjectLoop, ParseValue, ParseString, SetItem, SetAll, SkipSpace, AllSpace, WellFormedMembers, ReadableMembers, RenderMembers,
      ReadEntries, RenderString, DecodedAll, ValidChars;
    var p := SkipSpace(s, pos);
    SpacePiece(s, pos);
    var key, k, colon, v, value, e, q := TurnParts(py, s, p, obj);
    var xs := StringAccepts(py, s, p);
    SpacePiece(s, k);
    SpacePiece(s, colon + 1);
    var d := BareValueAccepts(py, s, v);
    SpacePiece(s, e);
    var more: Option<Members> := None;
    if s[q] == ',' {
      var rest := MembersAccept(py, s, q + 1, SetItem(obj, key, value));
      more := Some(rest);
    }
    var end := ObjectLoop(py, s, p, obj).pos;
    assert s[q..end] == [s[q]] + s[q + 1..end];
    MemberText(s, pos, p, k, colon, v, e, q, end);
    ms := MemberOf(py, s[pos..p], s[p], xs, s[k..colon], s[colon + 1..v], d, s[e..q], more, obj, s[q..end]);
  }

  lemma MemberOf(py: Python, before: string, quote: char, xs: seq<Char>, afterKey: string, beforeValue: string, d: Doc, after: string,
                 more: Option<Members>, obj: seq<Entry>, tail: string)
    returns (ms: Members)
    requires AllSpace(before) && Mark(quote) && ValidChars(xs, quote) && AllSpace(afterKey) && AllSpace(beforeValue) && AllSpace(after)
    requires WellFormed(d) && Readable(py, d)
    requires more.Some? ==> WellFormedMembers(more.value) && ReadableMembers(py, more.value) && tail == [','] + RenderMembers(more.value)
    requires more.None? ==> tail == ['}'] + []
    ensures ms == Member(before, quote, xs, afterKey, beforeValue, d, after, more) && WellFormedMembers(ms) && ReadableMembers(py, ms)
    ensures RenderMembers(ms) ==
            before + (RenderString(xs, quote) + (afterKey + ([':'] + (beforeValue + (Render(d) + (after + tail))))))
    ensures SetAll(obj, ReadEntries(py, ms)) ==
            var set1 := SetItem(obj, py.convert(DecodedAll(xs)), Read(py, d));
            if more.Some? then SetAll(set1, ReadEntries(py, more.value)) else set1
  {
    ms := Member(before, quote, xs, afterKey, beforeValue, d, after, more);
    hide SetItem, SetAll, Read, DecodedAll, RenderString;
    EntriesInOrder(py, ms, obj);
  }

  lemma MemberText(s: string, pos: nat, p: nat, k: nat, colon: nat, v: nat, e: nat, q: nat, end: nat)
    requires pos <= p <= k <= colon < v <= e <= q <= end <= |s| && s[colon] == ':'
    ensures s[pos..end] == s[pos..p] + (s[p..k] + (s[k..colon] + ([':'] + (s[colon + 1..v] + (s[v..e] + (s[e..q] + s[q..end]))))))
  {
    FourPieces(s, colon + 1, v, e, q, end);
    assert s[colon..end] == [':'] + s[colon + 1..end];
    FourPieces(s, pos, p, k, colon, end);
  }

  // ------------------------------------------------ extract_json

  /** The whole text is that of an object. */
  ghost predicate ObjectText(py: Python, d: Doc, t: string) { d.ObjDoc? && WellFormed(d) && Readable(py, d) && t == Render(d) }

  lemma OnlyObjects(py: Python, t: string, d: Doc)
    requires t != "" && t[0] == '{' && WellFormed(d) && t == Render(d)
    ensures d.ObjDoc?
  {
    if d.IntDoc? { IntChars(d.text); }
  }

  lemma AllOfIt(t: string, p: nat)
    requires t != "" && t[|t| - 1] == '}' && p <= |t| && SkipSpace(t, p) == |t|
    ensures p == |t|
  {
    SkipSpaceMeaning(t, p);
  }

  /** What `extract_json` accepts is the text of an object from the first "{" to the last "}". */
  lemma ExtractJsonAccepts(py: Python, s: string) returns (d: Doc)
    requires ExtractJson(py, s).Ok?
    ensures ObjectText(py, d, Braced(s)) && ExtractJson(py, s) == Ok(Read(py, d), |Render(d)|)
  {
    hide ParseValue, Read, Readable, WellFormed, Render;
    var t := Braced(s);
    d := TextAccepts(py, t);
  }

  lemma TextAccepts(py: Python, t: string) returns (d: Doc)
    requires t == "" || (t[0] == '{' && t[|t| - 1] == '}')
    requires ParseValue(py, t, 0).Ok? && SkipSpace(t, ParseValue(py, t, 0).pos) == |t|
    ensures ObjectText(py, d, t) && ParseValue(py, t, 0) == Ok(Read(py, d), |Render(d)|)
  {
    hide ObjectLoop, ArrayLoop, Read, Readable;
    AllOfIt(t, ParseValue(py, t, 0).pos);
    d := BareValueAccepts(py, t, 0);
    assert t[0..|t|] == t;
    OnlyObjects(py, t, d);
  }

  /** `extract_json` returns v if and only if what lies between the first "{" and the last "}" is a
      well-formed text of an object that is read as v. On every other input it raises. */
  lemma ExtractJsonExact(py: Python, s: string, v: Value)
    ensures (ExtractJson(py, s).Ok? && ExtractJson(py, s).value == v) <==> exists d :: ObjectText(py, d, Braced(s)) && v == Read(py, d)
  {
    hide ExtractJson, Braced, Read, Render, Readable, WellFormed;
    if ExtractJson(py, s).Ok? {
      var d := ExtractJsonAccepts(py, s);
    }
    if d :| ObjectText(py, d, Braced(s)) && v == Read(py, d) {
      TextIsRead(py, s, d);
    }
  }

  lemma TextIsRead(py: Python, s: string, d: Doc)
    requires ObjectText(py, d, Braced(s))
    ensures ExtractJson(py, s) == Ok(Read(py, d), |Render(d)|)
  {
    hide ParseValue, Read, At, SkipSpace, Render, WellFormed, Readable;
    ObjectEnds(d);
    WholeText(Braced(s));
    ValueTrip(py, Braced(s), 0, d);
  }
}
