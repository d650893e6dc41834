/** The reader on every well-formed text: where it stops, and what it returns. */
module JsonRoundTrip {
  import opened Options
  import opened JsonParser
  import opened JsonTexts

  // ------------------------------------------------ positions

  predicate At(s: string, pos: nat, t: string) { pos + |t| <= |s| && s[pos..pos + |t|] == t }

  lemma AtSplit(s: string, pos: nat, a: string, b: string)
    requires At(s, pos, a + b)
    ensures At(s, pos, a) && At(s, pos + |a|, b)
  {
    assert a == (a + b)[..|a|];
    assert b == (a + b)[|a|..];
  }

  lemma AtChar(s: string, pos: nat, c: char, t: string)
    requires At(s, pos, [c] + t)
    ensures pos < |s| && s[pos] == c && At(s, pos + 1, t)
  {
    AtSplit(s, pos, [c], t);
    assert s[pos] == s[pos..pos + 1][0];
  }

  predicate NoSpaceAt(s: string, pos: nat) { pos < |s| ==> !IsSpace(s[pos]) }

  lemma {:induction false} SkipOver(s: string, pos: nat, space: string)
    requires At(s, pos, space) && AllSpace(space) && NoSpaceAt(s, pos + |space|)
    ensures SkipSpace(s, pos) == pos + |space|
    decreases |space|
  {
    if space != "" {
      assert space == [space[0]] + space[1..];
      AtChar(s, pos, space[0], space[1..]);
      SkipOver(s, pos + 1, space[1..]);
    }
  }

  // ------------------------------------------------ strings

  lemma OneMoreChar(x: Char, rest: seq<Char>, quote: char, result: string)
    requires ValidChar(x, quote) && ValidChars(rest, quote)
    ensures ValidChars([x] + rest, quote)
    ensures RenderChars([x] + rest, quote) == RenderChar(x) + RenderChars(rest, quote)
    ensures result + Decoded(x) + DecodedAll(rest) == result + DecodedAll([x] + rest)
  {
    assert ([x] + rest)[1..] == rest;
    assert DecodedAll([x] + rest) == Decoded(x) + DecodedAll(rest);
  }

  lemma {:induction false} BodyTrip(s: string, pos: nat, xs: seq<Char>, quote: char, result: string)
    requires Mark(quote) && ValidChars(xs, quote) && At(s, pos, RenderChars(xs, quote))
    ensures StringBody(s, pos, quote, result) == Ok(result + DecodedAll(xs), pos + |RenderChars(xs, quote)|)
    decreases |xs|
  {
    hide StringBody, At, DecodedAll;
    if xs == [] {
      BodyEnd(s, pos, quote, result);
      NoChars(quote, result);
    } else {
      var x, rest := xs[0], xs[1..];
      assert [x] + rest == xs;
      OneMoreChar(x, rest, quote, result);
      AtSplit(s, pos, RenderChar(x), RenderChars(rest, quote));
      BodyTrip(s, pos + |RenderChar(x)|, rest, quote, result + Decoded(x));
      CharTrip(s, pos, x, quote, result);
    }
  }

  lemma NoChars(quote: char, result: string)
    ensures ValidChars([], quote) && RenderChars([], quote) == [quote] && result + DecodedAll([]) == result
  {
  }

  lemma BodyEnd(s: string, pos: nat, quote: char, result: string)
    requires Mark(quote) && At(s, pos, [quote])
    ensures StringBody(s, pos, quote, result) == Ok(result, pos + 1)
  {
    AtChar(s, pos, quote, "");
  }

  lemma CharTrip(s: string, pos: nat, x: Char, quote: char, result: string)
    requires Mark(quote) && ValidChar(x, quote) && At(s, pos, RenderChar(x))
    ensures StringBody(s, pos, quote, result) == StringBody(s, pos + |RenderChar(x)|, quote, result + Decoded(x))
  {
    match x
    case Plain(c) => AtChar(s, pos, c, "");
    case Escape(c) =>
      AtChar(s, pos, '\\', [c]);
      AtChar(s, pos + 1, c, "");
    case Unicode(hex) => UnicodeTrip(s, pos, hex, quote, result);
  }

  lemma UnicodeTrip(s: string, pos: nat, hex: string, quote: char, result: string)
    requires ValidChar(Unicode(hex), quote) && At(s, pos, ['\\', 'u'] + hex)
    ensures StringBody(s, pos, quote, result) == StringBody(s, pos + 2 + |hex|, quote, result + (['u'] + hex))
  {
    assert ['\\', 'u'] + hex == ['\\'] + (['u'] + hex);
    AtChar(s, pos, '\\', ['u'] + hex);
    AtChar(s, pos + 1, 'u', hex);
    HexTrip(s, pos + 2, hex, quote, result + ['u']);
    assert result + ['u'] + hex == result + (['u'] + hex);
  }

  lemma {:induction false} HexTrip(s: string, pos: nat, hex: string, quote: char, result: string)
    requires At(s, pos, hex) && forall i :: 0 <= i < |hex| ==> hex[i] != quote && hex[i] != '\\'
    ensures StringBody(s, pos, quote, result) == StringBody(s, pos + |hex|, quote, result + hex)
    decreases |hex|
  {
    if hex == "" {
      assert result + hex == result;
    } else {
      assert hex == [hex[0]] + hex[1..];
      AtChar(s, pos, hex[0], hex[1..]);
      HexTrip(s, pos + 1, hex[1..], quote, result + [hex[0]]);
      assert result + [hex[0]] + hex[1..] == result + hex;
    }
  }

  /** A string between quotes of either kind yields what its characters say and ends at its quote. */
  lemma StringTrip(py: Python, s: string, pos: nat, xs: seq<Char>, quote: char)
    requires Mark(quote) && ValidChars(xs, quote) && At(s, pos, RenderString(xs, quote))
    ensures pos < |s| && s[pos] == quote
    ensures ParseString(py, s, pos) == Ok(py.convert(DecodedAll(xs)), pos + |RenderString(xs, quote)|)
  {
    AtChar(s, pos, quote, RenderChars(xs, quote));
    BodyTrip(s, pos + 1, xs, quote, "");
    assert "" + DecodedAll(xs) == DecodedAll(xs);
  }

  // ------------------------------------------------ three quotes

  lemma ThriceAt(s: string, pos: nat, quote: char)
    requires pos <= |s|
    ensures At(s, pos, Thrice(quote)) <==> pos + 3 <= |s| && s[pos] == s[pos + 1] == s[pos + 2] == quote
  {
    if pos + 3 <= |s| {
      assert s[pos..pos + 3] == [s[pos], s[pos + 1], s[pos + 2]];
    }
  }

  /** Up to the first place where the quote stands three times, everything is collected in order. */
  lemma {:induction false} TripleBodyTo(s: string, pos: nat, end: nat, quote: char, result: string)
    requires Mark(quote) && pos <= end <= |s| && At(s, end, Thrice(quote))
    requires forall i :: pos <= i < end ==> !At(s, i, Thrice(quote))
    ensures TripleBody(s, pos, quote, result) == Ok(result + s[pos..end], end + 3)
    decreases end - pos
  {
    ThriceAt(s, pos, quote);
    if pos == end {
      assert result + s[pos..end] == result;
    } else {
      TripleBodyTo(s, pos + 1, end, quote, result + [s[pos]]);
      assert s[pos..end] == [s[pos]] + s[pos + 1..end];
      assert result + [s[pos]] + s[pos + 1..end] == result + s[pos..end];
    }
  }

  /** Where the quote stands three times nowhere, the string is not terminated. */
  lemma {:induction false} TripleBodyOpen(s: string, pos: nat, quote: char, result: string)
    requires Mark(quote) && pos <= |s| && forall i :: pos <= i <= |s| ==> !At(s, i, Thrice(quote))
    ensures TripleBody(s, pos, quote, result) == Error
    decreases |s| - pos
  {
    ThriceAt(s, pos, quote);
    if pos < |s| { TripleBodyOpen(s, pos + 1, quote, result + [s[pos]]); }
  }

  /** The quotes that close the body are the first three in a row. */
  lemma ClosedHere(s: string, pos: nat, body: string, quote: char)
    requires ClosesOnce(body, quote) && At(s, pos, body + Thrice(quote))
    ensures At(s, pos + |body|, Thrice(quote)) && s[pos..pos + |body|] == body
    ensures forall i :: pos <= i < pos + |body| ==> !At(s, i, Thrice(quote))
  {
    AtSplit(s, pos, body, Thrice(quote));
    forall i | pos <= i < pos + |body|
      ensures !At(s, i, Thrice(quote))
    {
      ThriceAt(s, i, quote);
      assert forall k :: 0 <= k < |body| ==> body[k] == s[pos + k];
      if i + 3 > pos + |body| {
        assert body[|body| - 1] != quote;
      } else {
        assert !(body[i - pos] == body[i - pos + 1] == body[i - pos + 2] == quote);
      }
    }
  }

  lemma StringValue(py: Python, s: string, pos: nat)
    requires pos < |s| && SkipSpace(s, pos) == pos && IsQuote(s[pos])
    ensures ParseValue(py, s, pos) == if AtTriple(s, pos) then ParseTriple(py, s, pos) else ParseString(py, s, pos)
  {
  }

  lemma NotBlank(s: string, pos: nat)
    requires pos < |s| && Mark(s[pos])
    ensures SkipSpace(s, pos) == pos && IsQuote(s[pos])
  {
  }

  lemma TripleParts(s: string, pos: nat, body: string, quote: char)
    requires At(s, pos, RenderText(Tripled(quote, body)))
    ensures At(s, pos, Thrice(quote)) && At(s, pos + 3, body + Thrice(quote))
  {
    AtSplit(s, pos, Thrice(quote), body + Thrice(quote));
  }

  lemma TripleBodyOf(s: string, pos: nat, body: string, quote: char)
    requires Mark(quote) && ClosesOnce(body, quote) && At(s, pos, body + Thrice(quote))
    ensures TripleBody(s, pos, quote, "") == Ok(body, pos + |body| + 3)
  {
    ClosedHere(s, pos, body, quote);
    hide At, TripleBody, ClosesOnce, Thrice;
    TripleBodyTo(s, pos, pos + |body|, quote, "");
    assert "" + s[pos..pos + |body|] == s[pos..pos + |body|];
  }

  lemma TripleParsed(py: Python, s: string, pos: nat, body: string)
    requires pos < |s| && AtTriple(s, pos) && TripleBody(s, pos + 3, s[pos], "") == Ok(body, pos + 3 + |body| + 3)
    ensures ParseTriple(py, s, pos) == Ok(py.convert(body), pos + |body| + 6)
  {
    hide TripleBody;
  }

  /** Three quotes, a body that closes once, and three quotes again: the body itself is read, and the
      reader stops right after the last quote. */
  lemma TripleTrip(py: Python, s: string, pos: nat, body: string, quote: char)
    requires Mark(quote) && ClosesOnce(body, quote) && At(s, pos, RenderText(Tripled(quote, body)))
    ensures AtTriple(s, pos) && ParseTriple(py, s, pos) == Ok(py.convert(body), pos + |body| + 6)
    ensures ParseValue(py, s, pos) == Ok(py.convert(body), pos + |body| + 6)
  {
    hide ParseValue, ParseTriple, ClosesOnce, SkipSpace, RenderText, At;
    TripleParts(s, pos, body, quote);
    ThriceAt(s, pos, quote);
    NotBlank(s, pos);
    StringValue(py, s, pos);
    TripleBodyOf(s, pos + 3, body, quote);
    TripleParsed(py, s, pos, body);
  }

  /** Three quotes that are never repeated are an error, whatever follows them. */
  lemma TripleOpen(py: Python, s: string, pos: nat, quote: char)
    requires Mark(quote) && At(s, pos, Thrice(quote))
    requires forall i :: pos + 3 <= i <= |s| ==> !At(s, i, Thrice(quote))
    ensures AtTriple(s, pos) && ParseTriple(py, s, pos) == Error && ParseValue(py, s, pos) == Error
  {
    hide TripleBody, ParseValue, SkipSpace;
    ThriceAt(s, pos, quote);
    NotBlank(s, pos);
    StringValue(py, s, pos);
    TripleBodyOpen(s, pos + 3, quote, "");
  }

  // ------------------------------------------------ numbers

  lemma {:induction false} NumberEndAt(s: string, pos: nat, text: string)
    requires At(s, pos, text) && forall i :: 0 <= i < |text| ==> IsNumberChar(text[i])
    requires pos + |text| < |s| ==> !IsNumberChar(s[pos + |text|])
    ensures NumberEnd(s, pos) == pos + |text|
    decreases |text|
  {
    if text != "" {
      assert text == [text[0]] + text[1..];
      AtChar(s, pos, text[0], text[1..]);
      NumberEndAt(s, pos + 1, text[1..]);
    }
  }

  predicate StartsNumber(text: string) { text != "" && IsNumberChar(text[0]) && text[0] != 'e' && text[0] != 'E' }

  lemma IntChars(text: string)
    requires LooseInt(text)
    ensures StartsNumber(text) && forall i :: 0 <= i < |text| ==> IsSign(text[i]) || IsDigit(text[i])
    ensures IntOf(text).Some? && Int(IntOf(text).value) == IntegerOf(text)
  {
    hide Natural;
    if IsSign(text[0]) {
      assert forall i :: 1 <= i < |text| ==> text[i] == text[1..][i - 1];
    }
  }

  lemma IntTextIsLoose(text: string)
    requires IntText(text)
    ensures LooseInt(text) && (text[0] == '-' || IsDigit(text[0])) && forall i :: 0 <= i < |text| ==> IsNumberChar(text[i])
  {
    if text[0] == '-' {
      assert forall i :: 1 <= i < |text| ==> text[i] == text[1..][i - 1];
    } else {
      assert IsDigit(text[0]);
    }
  }

  lemma FractionChars(fraction: string)
    requires fraction != "" && fraction[0] == '.' && AllDigits(fraction[1..])
    ensures forall i :: 0 <= i < |fraction| ==> IsNumberChar(fraction[i])
  {
    assert forall i :: 1 <= i < |fraction| ==> fraction[i] == fraction[1..][i - 1];
  }

  lemma ExponentChars(exponent: string)
    requires exponent != "" && (exponent[0] == 'e' || exponent[0] == 'E') && Exponent(exponent[1..])
    ensures forall i :: 0 <= i < |exponent| ==> IsNumberChar(exponent[i])
  {
    var rest := exponent[1..];
    forall i | 1 <= i < |exponent|
      ensures IsNumberChar(exponent[i])
    {
      assert exponent[i] == rest[i - 1];
      if i > 1 { assert rest[i - 1] == rest[1..][i - 2]; }
    }
  }

  lemma FloatTextIsLoose(whole: string, fraction: string, exponent: string)
    requires FloatText(whole, fraction, exponent)
    ensures LooseFloat(whole + (fraction + exponent))
  {
    var text := whole + (fraction + exponent);
    IntTextIsLoose(whole);
    if fraction != "" {
      FractionChars(fraction);
      assert text[|whole|] == '.';
    }
    if exponent != "" {
      ExponentChars(exponent);
      if fraction == "" { assert text[|whole|] == exponent[0]; }
    }
    assert text[0] == whole[0];
  }

  lemma NumberTrip(py: Python, s: string, pos: nat, text: string)
    requires StartsNumber(text) && (forall i :: 0 <= i < |text| ==> IsNumberChar(text[i]))
    requires At(s, pos, text) && Follows(s, pos + |text|) && Number(py, text).Some?
    ensures ParseValue(py, s, pos) == Ok(Number(py, text).value, pos + |text|)
  {
    hide Number;
    assert s[pos] == s[pos..pos + |text|][0];
    NumberEndAt(s, pos, text);
    assert s[pos..pos + |text|] == text;
    NumberValue(py, s, pos);
  }

  lemma IntTrip(py: Python, s: string, pos: nat, text: string)
    requires LooseInt(text) && At(s, pos, text) && Follows(s, pos + |text|)
    ensures ParseValue(py, s, pos) == Ok(IntegerOf(text), pos + |text|)
  {
    hide ParseValue, IntegerOf, IntOf;
    IntChars(text);
    assert !LooksFloat(text);
    NumberTrip(py, s, pos, text);
  }

  lemma FloatTrip(py: Python, s: string, pos: nat, text: string)
    requires LooseFloat(text) && py.float(text).Some? && At(s, pos, text) && Follows(s, pos + |text|)
    ensures ParseValue(py, s, pos) == Ok(FloatOf(py, text), pos + |text|)
  {
    hide ParseValue;
    NumberTrip(py, s, pos, text);
  }

  /** A value that starts like a number is read as a number. */
  lemma NumberValue(py: Python, s: string, pos: nat)
    requires pos < |s| && IsNumberChar(s[pos]) && s[pos] != 'e' && s[pos] != 'E'
    ensures ParseValue(py, s, pos) == ParseNumber(py, s, pos)
  {
    assert LowerChar(s[pos]) == s[pos];
    assert ParseScalar(py, s, pos) == ParseNumber(py, s, pos);
  }

  function Digits(n: nat): string {
    if n < 10 then [n as char + '0'] else Digits(n / 10) + [(n % 10) as char + '0']
  }

  /** The canonical text of an integer. */
  function PrintInt(n: int): string { if n < 0 then ['-'] + Digits(-n) else Digits(n) }

  lemma {:induction false} DigitsTrip(n: nat)
    ensures AllDigits(Digits(n)) && Digits(n) != "" && Natural(Digits(n)) == n
  {
    if n >= 10 {
      DigitsTrip(n / 10);
      assert Digits(n)[..|Digits(n)| - 1] == Digits(n / 10);
    } else {
      assert Digits(n)[..0] == "";
    }
  }

  /** Every integer has a text, and it is read back as that integer. */
  lemma PrintIntTrip(n: int)
    ensures IntText(PrintInt(n)) && LooseInt(PrintInt(n)) && IntOf(PrintInt(n)) == Some(n) && IntegerOf(PrintInt(n)) == Int(n)
  {
    DigitsTrip(if n < 0 then -n else n);
    if n < 0 { assert PrintInt(n)[1..] == Digits(-n); }
    IntTextIsLoose(PrintInt(n));
  }

  // ------------------------------------------------ values

  /** What can follow a value inside a text. */
  predicate Follows(s: string, pos: nat) {
    pos < |s| ==> IsSpace(s[pos]) || s[pos] == ',' || s[pos] == ']' || s[pos] == '}'
  }

  lemma FollowsSpace(s: string, pos: nat, space: string, next: string)
    requires At(s, pos, space + next) && AllSpace(space)
    requires |next| > 0 && (next[0] == ',' || next[0] == ']' || next[0] == '}')
    ensures Follows(s, pos) && At(s, pos + |space|, next) && SkipSpace(s, pos) == pos + |space|
    ensures s[pos + |space|] == next[0]
  {
    AtSplit(s, pos, space, next);
    assert next == [next[0]] + next[1..];
    AtChar(s, pos + |space|, next[0], next[1..]);
    SkipOver(s, pos, space);
    if space != "" { assert s[pos] == s[pos..pos + |space|][0]; }
  }

  lemma StartsNoSpace(d: Doc)
    requires WellFormed(d)
    ensures |Render(d)| > 0 && !IsSpace(Render(d)[0]) && Render(d)[0] != ']'
  {
    if d.IntDoc? { IntChars(d.text); }
  }

  lemma {:induction false} WordAt(s: string, pos: nat, word: string, keyword: string)
    requires forall i :: 0 <= i < |keyword| ==> 'a' <= keyword[i] <= 'z'
    requires At(s, pos, word) && InAnyCase(word, keyword)
    ensures LowerAt(s, pos, keyword)
    decreases |word|
  {
    if word != "" {
      assert word == [word[0]] + word[1..];
      AtChar(s, pos, word[0], word[1..]);
      WordAt(s, pos + 1, word[1..], keyword[1..]);
    }
  }

  lemma ScalarValue(py: Python, s: string, pos: nat)
    requires pos < |s| && SkipSpace(s, pos) == pos && s[pos] != '{' && s[pos] != '[' && !IsQuote(s[pos])
    ensures ParseValue(py, s, pos) == ParseScalar(py, s, pos)
  {
  }

  /** A letter that begins a keyword, small or capital. */
  lemma LetterAt(s: string, pos: nat, word: string, keyword: string)
    requires |keyword| > 0 && (forall i :: 0 <= i < |keyword| ==> 'a' <= keyword[i] <= 'z')
    requires InAnyCase(word, keyword) && At(s, pos, word)
    ensures pos < |s| && (s[pos] == keyword[0] || s[pos] == keyword[0] - 'a' + 'A') && LowerChar(s[pos]) == keyword[0]
    ensures SkipSpace(s, pos) == pos && s[pos] != '{' && s[pos] != '[' && !IsQuote(s[pos])
  {
    assert s[pos] == s[pos..pos + |word|][0];
  }

  /** A keyword is recognised in any case. */
  lemma KeywordTrip(py: Python, s: string, pos: nat, d: Doc)
    requires (d.NullDoc? || d.BoolDoc?) && WellFormed(d)
    requires At(s, pos, Render(d))
    ensures ParseValue(py, s, pos) == Ok(Read(py, d), pos + |Render(d)|)
  {
    hide ParseValue, InAnyCase, At, SkipSpace;
    var keyword := if d.NullDoc? then "null" else Keyword(d.b);
    WordAt(s, pos, Render(d), keyword);
    LetterAt(s, pos, Render(d), keyword);
    ScalarValue(py, s, pos);
    KeywordLength(Render(d), keyword);
  }

  lemma KeywordLength(word: string, keyword: string)
    requires (forall i :: 0 <= i < |keyword| ==> 'a' <= keyword[i] <= 'z') && InAnyCase(word, keyword)
    ensures |word| == |keyword|
  {
  }

  /** A string between single quotes does not begin with three of them. */
  lemma NotTriple(s: string, pos: nat, xs: seq<Char>, quote: char)
    requires Mark(quote) && ValidChars(xs, quote)
    requires At(s, pos, RenderString(xs, quote)) && Follows(s, pos + |RenderString(xs, quote)|)
    ensures !AtTriple(s, pos)
  {
    AtChar(s, pos, quote, RenderChars(xs, quote));
    if xs != [] {
      AtSplit(s, pos + 1, RenderChar(xs[0]), RenderChars(xs[1..], quote));
      assert s[pos + 1] == s[pos + 1..pos + 1 + |RenderChar(xs[0])|][0] == RenderChar(xs[0])[0];
    }
  }

  lemma StrTrip(py: Python, s: string, pos: nat, t: Text)
    requires ValidText(t) && At(s, pos, RenderText(t)) && Follows(s, pos + |RenderText(t)|)
    ensures ParseValue(py, s, pos) == Ok(py.convert(Contents(t)), pos + |RenderText(t)|)
  {
    match t
    case Quoted(quote, xs) =>
      StringTrip(py, s, pos, xs, quote);
      NotTriple(s, pos, xs, quote);
    case Tripled(quote, body) => TripleTrip(py, s, pos, body, quote);
  }

  lemma ArrayValue(py: Python, s: string, pos: nat, items: seq<Value>, end: nat)
    requires pos < |s| && s[pos] == '[' && ArrayLoop(py, s, SkipSpace(s, pos + 1), []) == Ok(items, end)
    ensures ParseValue(py, s, pos) == Ok(Arr(items), end)
  {
  }

  lemma ObjectValue(py: Python, s: string, pos: nat, entries: seq<Entry>, end: nat)
    requires pos < |s| && s[pos] == '{' && ObjectLoop(py, s, SkipSpace(s, pos + 1), []) == Ok(entries, end)
    ensures ParseValue(py, s, pos) == Ok(Obj(entries), end)
  {
  }

  /** Wherever the text of a value stands, reading a value there yields it and stops right after it. */
  lemma {:induction false} ValueTrip(py: Python, s: string, pos: nat, d: Doc)
    requires WellFormed(d) && Readable(py, d) && At(s, pos, Render(d)) && Follows(s, pos + |Render(d)|)
    ensures ParseValue(py, s, pos) == Ok(Read(py, d), pos + |Render(d)|)
    decreases d, 1
  {
    hide ParseValue;
    match d
    case ArrDoc(_) => ArrTrip(py, s, pos, d);
    case ObjDoc(_) => ObjTrip(py, s, pos, d);
    case _ => ScalarTrip(py, s, pos, d);
  }

  lemma ScalarTrip(py: Python, s: string, pos: nat, d: Doc)
    requires !d.ArrDoc? && !d.ObjDoc?
    requires WellFormed(d) && Readable(py, d) && At(s, pos, Render(d)) && Follows(s, pos + |Render(d)|)
    ensures ParseValue(py, s, pos) == Ok(Read(py, d), pos + |Render(d)|)
  {
    hide ParseValue;
    match d
    case IntDoc(text) => IntTrip(py, s, pos, text);
    case FloatDoc(whole, fraction, exponent) => FloatTrip(py, s, pos, whole + (fraction + exponent));
    case StrDoc(t) => StrTrip(py, s, pos, t);
    case _ => KeywordTrip(py, s, pos, d);
  }

  lemma {:induction false} ArrTrip(py: Python, s: string, pos: nat, d: Doc)
    requires d.ArrDoc? && WellFormed(d) && Readable(py, d) && At(s, pos, Render(d))
    ensures ParseValue(py, s, pos) == Ok(Read(py, d), pos + |Render(d)|)
    decreases d, 0
  {
    hide ArrayLoop, ParseValue, At;
    AtChar(s, pos, '[', RenderElems(d.elems));
    assert [] + ReadElems(py, d.elems) == ReadElems(py, d.elems);
    ElemsTrip(py, s, pos + 1, d.elems, []);
    ArrayValue(py, s, pos, ReadElems(py, d.elems), pos + |Render(d)|);
  }

  lemma {:induction false} ObjTrip(py: Python, s: string, pos: nat, d: Doc)
    requires d.ObjDoc? && WellFormed(d) && Readable(py, d) && At(s, pos, Render(d))
    ensures ParseValue(py, s, pos) == Ok(Read(py, d), pos + |Render(d)|)
    decreases d, 0
  {
    hide ObjectLoop, ParseValue, At;
    AtChar(s, pos, '{', RenderMembers(d.members));
    MembersTrip(py, s, pos + 1, d.members, []);
    ObjectValue(py, s, pos, SetAll([], ReadEntries(py, d.members)), pos + |Render(d)|);
  }

  /** Where the parts of an element are: its value at p, the separator or bracket after it at q. */
  lemma ElemLayout(s: string, pos: nat, es: Elems) returns (p: nat, q: nat)
    requires es.Elem? && WellFormedElems(es) && At(s, pos, RenderElems(es))
    ensures SkipSpace(s, pos) == p && p < |s| && s[p] != ']' && At(s, p, Render(es.value))
    ensures Follows(s, p + |Render(es.value)|) && SkipSpace(s, p + |Render(es.value)|) == q
    ensures q < |s| && s[q] == (if es.more.None? then ']' else ',')
    ensures es.more.None? ==> q + 1 == pos + |RenderElems(es)|
    ensures es.more.Some? ==>
              At(s, q + 1, RenderElems(es.more.value)) && q + 1 + |RenderElems(es.more.value)| == pos + |RenderElems(es)|
  {
    hide At, AllSpace, SkipSpace, Follows, WellFormed, Render;
    StartsNoSpace(es.value);
    p := SkipTo(s, pos, es.before, Render(es.value) + (es.after + RenderMore(es.more)));
    var next := RenderMore(es.more);
    q := AfterValue(s, p, Render(es.value), es.after, next);
    AtChar(s, q, next[0], if es.more.None? then "" else RenderElems(es.more.value));
  }

  lemma AfterValue(s: string, p: nat, text: string, after: string, next: string) returns (q: nat)
    requires At(s, p, text + (after + next)) && AllSpace(after)
    requires |next| > 0 && (next[0] == ',' || next[0] == ']' || next[0] == '}')
    ensures At(s, p, text) && Follows(s, p + |text|) && SkipSpace(s, p + |text|) == q && At(s, q, next)
    ensures q == p + |text| + |after|
  {
    AtSplit(s, p, text, after + next);
    FollowsSpace(s, p + |text|, after, next);
    q := p + |text| + |after|;
  }

  /** One turn of the array loop, when the value is there. */
  lemma ArrayTurn(py: Python, s: string, p: nat, lst: seq<Value>, value: Value, end: nat, q: nat)
    requires p < |s| && s[p] != ']' && SkipSpace(s, p) == p && ParseValue(py, s, p) == Ok(value, end)
    requires end <= |s| && SkipSpace(s, end) == q < |s|
    ensures s[q] == ',' ==> ArrayLoop(py, s, p, lst) == ArrayLoop(py, s, SkipSpace(s, q + 1), lst + [value])
    ensures s[q] == ']' ==> ArrayLoop(py, s, p, lst) == Ok(lst + [value], q + 1)
  {
  }

  /** The first element of the text enters the list; the array loop goes on at q. */
  lemma {:induction false} ElemTrip(py: Python, s: string, pos: nat, es: Elems, lst: seq<Value>) returns (p: nat, q: nat)
    requires es.Elem? && WellFormedElems(es) && ReadableElems(py, es) && At(s, pos, RenderElems(es))
    ensures SkipSpace(s, pos) == p && q < |s|
    ensures es.more.None? ==>
              && q + 1 == pos + |RenderElems(es)|
              && ArrayLoop(py, s, p, lst) == Ok(lst + [Read(py, es.value)], q + 1)
    ensures es.more.Some? ==>
              && At(s, q + 1, RenderElems(es.more.value))
              && q + 1 + |RenderElems(es.more.value)| == pos + |RenderElems(es)|
              && ArrayLoop(py, s, p, lst) == ArrayLoop(py, s, SkipSpace(s, q + 1), lst + [Read(py, es.value)])
    decreases es, 2
  {
    hide ArrayLoop, ParseValue, At;
    p, q := ElemLayout(s, pos, es);
    ValueTrip(py, s, p, es.value);
    ArrayTurn(py, s, p, lst, Read(py, es.value), p + |Render(es.value)|, q);
  }

  lemma {:induction false} ElemsTrip(py: Python, s: string, pos: nat, es: Elems, lst: seq<Value>)
    requires WellFormedElems(es) && ReadableElems(py, es) && At(s, pos, RenderElems(es))
    ensures ArrayLoop(py, s, SkipSpace(s, pos), lst) == Ok(lst + ReadElems(py, es), pos + |RenderElems(es)|)
    decreases es, 3
  {
    hide ArrayLoop, ParseValue, At;
    if es.NoElems? {
      NoElemsTrip(py, s, pos, es, lst);
    } else {
      var p, q := ElemTrip(py, s, pos, es, lst);
      if es.more.None? {
        assert ReadElems(py, es) == [Read(py, es.value)];
      } else {
        assert lst + [Read(py, es.value)] + ReadElems(py, es.more.value) == lst + ReadElems(py, es);
        ElemsTrip(py, s, q + 1, es.more.value, lst + [Read(py, es.value)]);
      }
    }
  }

  lemma NoElemsTrip(py: Python, s: string, pos: nat, es: Elems, lst: seq<Value>)
    requires es.NoElems?
    requires WellFormedElems(es) && At(s, pos, RenderElems(es))
    ensures ArrayLoop(py, s, SkipSpace(s, pos), lst) == Ok(lst + ReadElems(py, es), pos + |RenderElems(es)|)
  {
    FollowsSpace(s, pos, es.inner, [']']);
    assert lst + ReadElems(py, es) == lst;
  }

  lemma SkipTo(s: string, pos: nat, space: string, next: string) returns (p: nat)
    requires At(s, pos, space + next) && AllSpace(space) && |next| > 0 && !IsSpace(next[0])
    ensures p == pos + |space| == SkipSpace(s, pos) && At(s, p, next) && p < |s| && s[p] == next[0]
  {
    AtSplit(s, pos, space, next);
    p := pos + |space|;
    assert s[p] == s[p..p + |next|][0];
    SkipOver(s, pos, space);
  }

  lemma MemberParts(ms: Members)
    requires ms.Member? && WellFormedMembers(ms)
    ensures AllSpace(ms.before) && Mark(ms.quote) && ValidChars(ms.key, ms.quote)
    ensures AllSpace(ms.afterKey) && AllSpace(ms.beforeValue)
    ensures |RenderString(ms.key, ms.quote)| > 0 && !IsSpace(RenderString(ms.key, ms.quote)[0])
    ensures WellFormed(ms.value) && AllSpace(ms.after)
    ensures RenderMembers(ms)
         == ms.before + (RenderString(ms.key, ms.quote) + (ms.afterKey + ([':'] + (ms.beforeValue
            + (Render(ms.value) + (ms.after + RenderOthers(ms.more)))))))
    ensures |RenderMembers(ms)|
         == |ms.before| + |RenderString(ms.key, ms.quote)| + |ms.afterKey| + 1 + |ms.beforeValue| + |Render(ms.value)| + |ms.after|
            + |RenderOthers(ms.more)|
  {
  }

  lemma OthersStart(more: Option<Members>)
    ensures RenderOthers(more) == match more case None => ['}'] + "" case Some(rest) => [','] + RenderMembers(rest)
    ensures |RenderOthers(more)| == match more case None => 1 case Some(rest) => 1 + |RenderMembers(rest)|
    ensures RenderOthers(more)[0] == if more.None? then '}' else ','
  {
  }

  lemma AfterName(s: string, p: nat, name: string, afterKey: string, rest: string) returns (colon: nat)
    requires At(s, p, name + (afterKey + rest)) && AllSpace(afterKey) && |rest| > 0 && !IsSpace(rest[0])
    ensures At(s, p, name) && colon == p + |name| + |afterKey| == SkipSpace(s, p + |name|) && At(s, colon, rest)
  {
    hide At, AllSpace, SkipSpace;
    AtSplit(s, p, name, afterKey + rest);
    colon := SkipTo(s, p + |name|, afterKey, rest);
  }

  /** Where the name, the colon and the value of a member are, and what follows the value. */
  lemma Layout(s: string, pos: nat, before: string, name: string, afterKey: string, beforeValue: string, text: string, after: string,
               next: string)
    returns (p: nat, colon: nat, v: nat, q: nat)
    requires AllSpace(before) && AllSpace(afterKey) && AllSpace(beforeValue) && AllSpace(after)
    requires |name| > 0 && !IsSpace(name[0]) && |text| > 0 && !IsSpace(text[0])
    requires |next| > 0 && (next[0] == ',' || next[0] == ']' || next[0] == '}')
    requires At(s, pos, before + (name + (afterKey + ([':'] + (beforeValue + (text + (after + next)))))))
    ensures SkipSpace(s, pos) == p && At(s, p, name)
    ensures p + |name| <= colon < |s| && SkipSpace(s, p + |name|) == colon && s[colon] == ':'
    ensures SkipSpace(s, colon + 1) == v && At(s, v, text) && Follows(s, v + |text|)
    ensures SkipSpace(s, v + |text|) == q && At(s, q, next)
    ensures q == pos + |before| + |name| + |afterKey| + 1 + |beforeValue| + |text| + |after|
  {
    hide At, AllSpace, SkipSpace;
    var tail := text + (after + next);
    var fromColon := [':'] + (beforeValue + tail);
    p := SkipTo(s, pos, before, name + (afterKey + fromColon));
    colon := AfterName(s, p, name, afterKey, fromColon);
    AtChar(s, colon, ':', beforeValue + tail);
    v := SkipTo(s, colon + 1, beforeValue, tail);
    q := AfterValue(s, v, text, after, next);
  }

  lemma MemberLayout(s: string, pos: nat, ms: Members) returns (p: nat, colon: nat, v: nat, q: nat)
    requires ms.Member? && WellFormedMembers(ms) && At(s, pos, RenderMembers(ms))
    ensures Mark(ms.quote) && ValidChars(ms.key, ms.quote) && WellFormed(ms.value)
    ensures SkipSpace(s, pos) == p && At(s, p, RenderString(ms.key, ms.quote))
    ensures p + |RenderString(ms.key, ms.quote)| <= colon < |s|
    ensures SkipSpace(s, p + |RenderString(ms.key, ms.quote)|) == colon && s[colon] == ':'
    ensures SkipSpace(s, colon + 1) == v && At(s, v, Render(ms.value)) && Follows(s, v + |Render(ms.value)|)
    ensures SkipSpace(s, v + |Render(ms.value)|) == q
    ensures q < |s| && s[q] == (if ms.more.None? then '}' else ',')
    ensures ms.more.None? ==> q + 1 == pos + |RenderMembers(ms)|
    ensures ms.more.Some? ==>
              && At(s, q + 1, RenderMembers(ms.more.value))
              && q + 1 + |RenderMembers(ms.more.value)| == pos + |RenderMembers(ms)|
  {
    hide WellFormedMembers, WellFormed, RenderMembers, RenderOthers, Render, RenderString;
    hide AllSpace, SkipSpace, At, ValidChars, Mark, Follows;
    MemberParts(ms);
    StartsNoSpace(ms.value);
    OthersStart(ms.more);
    var next := RenderOthers(ms.more);
    p, colon, v, q := Layout(s, pos, ms.before, RenderString(ms.key, ms.quote), ms.afterKey,
                             ms.beforeValue, Render(ms.value), ms.after, next);
    AtChar(s, q, next[0], if ms.more.None? then "" else RenderMembers(ms.more.value));
  }

  /** One turn of the object loop, when the key, the colon and the value are there. */
  lemma ObjectTurn(py: Python, s: string, p: nat, obj: seq<Entry>, key: Value, k: nat, colon: nat, value: Value, end: nat, q: nat)
    requires p < |s| && Mark(s[p]) && ParseString(py, s, p) == Ok(key, k)
    requires k <= |s| && SkipSpace(s, k) == colon < |s| && s[colon] == ':'
    requires ParseValue(py, s, SkipSpace(s, colon + 1)) == Ok(value, end)
    requires end <= |s| && SkipSpace(s, end) == q < |s|
    ensures s[q] == ',' ==> ObjectLoop(py, s, p, obj) == ObjectLoop(py, s, SkipSpace(s, q + 1), SetItem(obj, key, value))
    ensures s[q] == '}' ==> ObjectLoop(py, s, p, obj) == Ok(SetItem(obj, key, value), q + 1)
  {
    hide ParseValue, ParseString, SetItem;
  }

  function FirstEntry(py: Python, ms: Members): Entry
    requires ms.Member? && WellFormed(ms.value)
  {
    Entry(py.convert(DecodedAll(ms.key)), Read(py, ms.value))
  }

  function WithFirst(py: Python, ms: Members, obj: seq<Entry>): seq<Entry>
    requires ms.Member? && WellFormed(ms.value)
  {
    SetItem(obj, FirstEntry(py, ms).key, FirstEntry(py, ms).value)
  }

  /** The first member of the text enters the dict; the object loop goes on at q. */
  lemma {:induction false} MemberTrip(py: Python, s: string, pos: nat, ms: Members, obj: seq<Entry>) returns (p: nat, q: nat)
    requires ms.Member? && WellFormedMembers(ms) && ReadableMembers(py, ms) && At(s, pos, RenderMembers(ms))
    ensures SkipSpace(s, pos) == p && q < |s|
    ensures ms.more.None? ==>
              && q + 1 == pos + |RenderMembers(ms)|
              && ObjectLoop(py, s, p, obj) == Ok(WithFirst(py, ms, obj), q + 1)
    ensures ms.more.Some? ==>
              && At(s, q + 1, RenderMembers(ms.more.value))
              && q + 1 + |RenderMembers(ms.more.value)| == pos + |RenderMembers(ms)|
              && ObjectLoop(py, s, p, obj) == ObjectLoop(py, s, SkipSpace(s, q + 1), WithFirst(py, ms, obj))
    decreases ms, 2
  {
    hide ObjectLoop, ParseValue, ParseString, SetItem, Read, RenderMembers, WellFormedMembers, WellFormed, SkipSpace, At;
    var colon, v;
    p, colon, v, q := MemberLayout(s, pos, ms);
    StringTrip(py, s, p, ms.key, ms.quote);
    ValueTrip(py, s, v, ms.value);
    var entry := FirstEntry(py, ms);
    ObjectTurn(py, s, p, obj, entry.key, p + |RenderString(ms.key, ms.quote)|, colon, entry.value, v + |Render(ms.value)|, q);
  }

  lemma {:induction false} MembersTrip(py: Python, s: string, pos: nat, ms: Members, obj: seq<Entry>)
    requires WellFormedMembers(ms) && ReadableMembers(py, ms) && At(s, pos, RenderMembers(ms))
    ensures ObjectLoop(py, s, SkipSpace(s, pos), obj) == Ok(SetAll(obj, ReadEntries(py, ms)), pos + |RenderMembers(ms)|)
    decreases ms, 3
  {
    hide ObjectLoop, ParseValue, SetAll, ReadEntries, At, RenderMembers, WellFormedMembers, SkipSpace;
    EntriesInOrder(py, ms, obj);
    if ms.NoMembers? {
      NoMembersTrip(py, s, pos, ms, obj);
    } else {
      var p, q := MemberTrip(py, s, pos, ms, obj);
      if ms.more.Some? {
        MoreWellFormed(ms);
        MembersTrip(py, s, q + 1, ms.more.value, WithFirst(py, ms, obj));
      }
    }
  }

  lemma MoreWellFormed(ms: Members)
    requires ms.Member? && ms.more.Some? && WellFormedMembers(ms)
    ensures WellFormed(ms.value) && WellFormedMembers(ms.more.value)
  {
  }

  lemma EntriesInOrder(py: Python, ms: Members, obj: seq<Entry>)
    requires WellFormedMembers(ms)
    ensures ms.NoMembers? ==> SetAll(obj, ReadEntries(py, ms)) == obj
    ensures ms.Member? ==>
              SetAll(obj, ReadEntries(py, ms))
                == match ms.more
                   case None => WithFirst(py, ms, obj)
                   case Some(rest) => SetAll(WithFirst(py, ms, obj), ReadEntries(py, rest))
  {
    if ms.Member? && ms.more.Some? {
      assert ReadEntries(py, ms)[1..] == ReadEntries(py, ms.more.value);
    }
  }

  lemma NoMembersTrip(py: Python, s: string, pos: nat, ms: Members, obj: seq<Entry>)
    requires ms.NoMembers? && WellFormedMembers(ms) && At(s, pos, RenderMembers(ms))
    ensures ObjectLoop(py, s, SkipSpace(s, pos), obj) == Ok(obj, pos + |RenderMembers(ms)|)
  {
    FollowsSpace(s, pos, ms.inner, ['}']);
  }

  // ------------------------------------------------ extract_json

  lemma {:induction false} RenderEnds(ms: Members)
    ensures RenderMembers(ms) != "" && RenderMembers(ms)[|RenderMembers(ms)| - 1] == '}'
  {
    if ms.Member? {
      var last := RenderOthers(ms.more);
      if ms.more.Some? { RenderEnds(ms.more.value); }
      assert last != "" && last[|last| - 1] == '}';
      var rest := ms.afterKey + ([':'] + (ms.beforeValue + (Render(ms.value) + (ms.after + last))));
      EndOf(ms.before, RenderString(ms.key, ms.quote) + rest);
      EndOf(RenderString(ms.key, ms.quote), rest);
    }
  }

  lemma EndOf(a: string, b: string)
    requires b != ""
    ensures (a + b)[|a + b| - 1] == b[|b| - 1]
  {
  }

  lemma ObjectEnds(d: Doc)
    requires d.ObjDoc?
    ensures Render(d) != "" && Render(d)[0] == '{' && Render(d)[|Render(d)| - 1] == '}'
  {
    RenderEnds(d.members);
  }

  /** Every JSON text of an object is read as its members say, whatever surrounds it, provided nothing
      before it contains "{" and nothing after it "}". */
  lemma ExtractJsonReads(py: Python, pre: string, d: Doc, post: string)
    requires d.ObjDoc? && WellFormed(d) && Readable(py, d)
    requires '{' !in pre && '}' !in post
    ensures ExtractJson(py, pre + Render(d) + post) == Ok(Read(py, d), |Render(d)|)
  {
    hide ParseValue, Read, At, SkipSpace, Render, FirstIndex, Braced;
    var t := Render(d);
    ObjectEnds(d);
    BracedText(pre, t, post);
    WholeText(t);
    ValueTrip(py, t, 0, d);
  }

  lemma BracedText(pre: string, t: string, post: string)
    requires t != "" && t[0] == '{' && t[|t| - 1] == '}' && '{' !in pre && '}' !in post
    ensures var s := pre + t + post; FirstIndex(s, '{') < |s| && Braced(s) == t
  {
    var s := pre + t + post;
    var start, end := FirstIndex(s, '{'), AfterLast(s, '}');
    assert s[|pre|] == '{' && s[|pre| + |t| - 1] == '}';
    assert forall i :: 0 <= i < |pre| ==> s[i] == pre[i];
    assert forall i :: |pre| + |t| <= i < |s| ==> s[i] == post[i - |pre| - |t|];
    assert start == |pre| && end == |pre| + |t|;
    assert s[start..end] == t;
  }

  lemma WholeText(t: string)
    ensures At(t, 0, t) && Follows(t, |t|) && SkipSpace(t, |t|) == |t|
  {
  }
}
