/** The reader with its loops and its moving position, each method proved to compute the function of
    the same production in JsonParser. */
module JsonReader {
  import opened JsonGrammar
  import opened JsonParser
  import opened JsonRoundTrip
  import opened JsonTexts

  method SkipWhitespace(s: string, start: nat) returns (pos: nat)
    requires start <= |s|
    ensures pos == SkipSpace(s, start) && SkipSpace(s, pos) == pos
  {
    pos := start;
    while pos < |s| && IsSpace(s[pos])
      invariant start <= pos <= |s| && SkipSpace(s, pos) == SkipSpace(s, start)
    {
      pos := pos + 1;
    }
  }

  method ReadNumber(py: Python, s: string, start: nat) returns (r: Parse<Value>)
    requires start < |s| && IsNumberChar(s[start])
    ensures r == ParseNumber(py, s, start)
  {
    var pos := start;
    while pos < |s| && IsNumberChar(s[pos])
      invariant start <= pos <= |s| && NumberEnd(s, pos) == NumberEnd(s, start)
    {
      pos := pos + 1;
    }
    match Number(py, s[start..pos]) {
      case None => r := Error;
      case Some(v) => r := Ok(v, pos);
    }
  }

  method ReadString(py: Python, s: string, start: nat) returns (r: Parse<Value>)
    requires start < |s| && IsQuote(s[start])
    ensures r == ParseString(py, s, start)
  {
    var quote := s[start];
    var pos, result := start + 1, "";
    while pos < |s|
      invariant start < pos <= |s|
      invariant StringBody(s, pos, quote, result) == StringBody(s, start + 1, quote, "")
    {
      var c := s[pos];
      if c == '\\' {
        pos := pos + 1;
        if pos >= |s| { return Error; }
        result := result + [Unescape(s[pos])];
      } else if c == quote {
        return Ok(py.convert(result), pos + 1);
      } else {
        result := result + [c];
      }
      pos := pos + 1;
    }
    return Error;
  }

  method ReadTripleQuoted(py: Python, s: string, start: nat) returns (r: Parse<Value>)
    requires start <= |s| && AtTriple(s, start)
    ensures r == ParseTriple(py, s, start)
    ensures forall body :: ClosesOnce(body, s[start]) && At(s, start, RenderText(Tripled(s[start], body))) ==>
              r == Ok(py.convert(body), start + |body| + 6)
    ensures (forall i :: start + 3 <= i <= |s| ==> !At(s, i, Thrice(s[start]))) ==> r == Error
  {
    TripleMeaning(py, s, start);
    hide ParseTriple, ClosesOnce, At, Thrice, RenderText;
    var quote := s[start];
    var pos, result := start + 3, "";
    while pos < |s|
      invariant start < pos <= |s|
      invariant TripleBody(s, pos, quote, result) == TripleBody(s, start + 3, quote, "")
    {
      if AtTriple(s, pos) && s[pos] == quote {
        return Ok(py.convert(result), pos + 3);
      }
      result := result + [s[pos]];
      pos := pos + 1;
    }
    return Error;
  }

  lemma TripleMeaning(py: Python, s: string, start: nat)
    requires start <= |s| && AtTriple(s, start)
    ensures forall body :: ClosesOnce(body, s[start]) && At(s, start, RenderText(Tripled(s[start], body))) ==>
              ParseTriple(py, s, start) == Ok(py.convert(body), start + |body| + 6)
    ensures (forall i :: start + 3 <= i <= |s| ==> !At(s, i, Thrice(s[start]))) ==> ParseTriple(py, s, start) == Error
  {
    forall body | ClosesOnce(body, s[start]) && At(s, start, RenderText(Tripled(s[start], body)))
      ensures ParseTriple(py, s, start) == Ok(py.convert(body), start + |body| + 6)
    {
      TripleTrip(py, s, start, body, s[start]);
    }
    if forall i :: start + 3 <= i <= |s| ==> !At(s, i, Thrice(s[start])) {
      ThriceAt(s, start, s[start]);
      TripleOpen(py, s, start, s[start]);
    }
  }

  method ReadKey(py: Python, s: string, start: nat) returns (r: Parse<Value>)
    requires start <= |s| && SkipSpace(s, start) < |s|
    ensures r == ParseKey(py, s, start)
  {
    var pos := SkipWhitespace(s, start);
    if IsQuote(s[pos]) {
      r := ReadString(py, s, pos);
    } else {
      r := Error;
    }
  }

  method ReadObject(py: Python, s: string, start: nat) returns (r: Parse<Value>)
    requires start < |s| && s[start] == '{'
    ensures r == match ObjectLoop(py, s, SkipSpace(s, start + 1), [])
                 case Error => Error
                 case Ok(es, p) => Ok(Obj(es), p)
    decreases |s| - start, 0
  {
    hide ParseKey, ParseValue, SetItem, SkipSpace;
    var obj: seq<Entry> := [];
    var pos := SkipWhitespace(s, start + 1);
    ghost var first := pos;
    while pos < |s| && s[pos] != '}'
      invariant start < pos <= |s| && SkipSpace(s, pos) == pos
      invariant ObjectLoop(py, s, pos, obj) == ObjectLoop(py, s, first, [])
      decreases |s| - pos
    {
      pos := SkipWhitespace(s, pos);
      var key := ReadKey(py, s, pos);
      if key.Error? { return Error; }
      pos := SkipWhitespace(s, key.pos);
      if pos >= |s| || s[pos] != ':' { return Error; }
      pos := SkipWhitespace(s, pos + 1);
      var value := ReadValue(py, s, pos);
      if value.Error? { return Error; }
      obj := SetItem(obj, key.value, value.value);
      pos := SkipWhitespace(s, value.pos);
      if pos < |s| && s[pos] == ',' {
        pos := SkipWhitespace(s, pos + 1);
      } else if pos < |s| && s[pos] == '}' {
        break;
      } else if pos < |s| {
        return Error;
      }
    }
    if pos >= |s| { return Error; }
    return Ok(Obj(obj), pos + 1);
  }

  method ReadArray(py: Python, s: string, start: nat) returns (r: Parse<Value>)
    requires start < |s| && s[start] == '['
    ensures r == match ArrayLoop(py, s, SkipSpace(s, start + 1), [])
                 case Error => Error
                 case Ok(vs, p) => Ok(Arr(vs), p)
    decreases |s| - start, 0
  {
    hide ParseValue, SkipSpace;
    var lst: seq<Value> := [];
    var pos := SkipWhitespace(s, start + 1);
    ghost var first := pos;
    while pos < |s| && s[pos] != ']'
      invariant start < pos <= |s| && SkipSpace(s, pos) == pos
      invariant ArrayLoop(py, s, pos, lst) == ArrayLoop(py, s, first, [])
      decreases |s| - pos
    {
      var value := ReadValue(py, s, pos);
      if value.Error? { return Error; }
      lst := lst + [value.value];
      pos := SkipWhitespace(s, value.pos);
      if pos < |s| && s[pos] == ',' {
        pos := SkipWhitespace(s, pos + 1);
      } else if pos < |s| && s[pos] == ']' {
        break;
      } else if pos < |s| {
        return Error;
      }
    }
    if pos >= |s| { return Error; }
    return Ok(Arr(lst), pos + 1);
  }

  method ReadValue(py: Python, s: string, start: nat) returns (r: Parse<Value>)
    requires start <= |s|
    ensures r == ParseValue(py, s, start)
    decreases |s| - start, 1
  {
    hide ArrayLoop, ObjectLoop;
    var pos := SkipWhitespace(s, start);
    if pos >= |s| {
      r := Error;
    } else if s[pos] == '{' {
      r := ReadObject(py, s, pos);
    } else if s[pos] == '[' {
      r := ReadArray(py, s, pos);
    } else if AtTriple(s, pos) {
      r := ReadTripleQuoted(py, s, pos);
    } else if IsQuote(s[pos]) {
      r := ReadString(py, s, pos);
    } else if LowerAt(s, pos, "true") {
      r := Ok(Bool(true), pos + 4);
    } else if LowerAt(s, pos, "false") {
      r := Ok(Bool(false), pos + 5);
    } else if LowerAt(s, pos, "null") {
      r := Ok(Null, pos + 4);
    } else if IsNumberChar(s[pos]) && s[pos] != 'e' && s[pos] != 'E' {
      r := ReadNumber(py, s, pos);
    } else {
      r := Error;
    }
  }

  lemma JsonMeans(py: Python, s: string)
    ensures forall d :: ObjectText(py, d, Braced(s)) ==> ExtractJson(py, s) == Ok(Read(py, d), |Render(d)|)
    ensures ExtractJson(py, s).Ok? ==> exists d :: ObjectText(py, d, Braced(s)) && ExtractJson(py, s).value == Read(py, d)
  {
    hide Read, Render, ExtractJson, Braced, WellFormed, Readable;
    forall d | ObjectText(py, d, Braced(s))
      ensures ExtractJson(py, s) == Ok(Read(py, d), |Render(d)|)
    {
      TextIsRead(py, s, d);
    }
    if ExtractJson(py, s).Ok? {
      var d := ExtractJsonAccepts(py, s);
    }
  }

  method ReadJson(py: Python, s: string) returns (r: Parse<Value>)
    ensures r == ExtractJson(py, s)
    ensures forall d :: ObjectText(py, d, Braced(s)) ==> r == Ok(Read(py, d), |Render(d)|)
    ensures r.Ok? ==> exists d :: ObjectText(py, d, Braced(s)) && r.value == Read(py, d)
  {
    JsonMeans(py, s);
    hide ObjectText, Read, Render;
    var start, end := FirstIndex(s, '{'), AfterLast(s, '}');
    if start == |s| { return Error; }
    var t := if start < end then s[start..end] else "";
    var value := ReadValue(py, t, 0);
    if value.Error? { return Error; }
    var pos := SkipWhitespace(t, value.pos);
    if pos != |t| { return Error; }
    return value;
  }
}
