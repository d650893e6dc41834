/** The hand-written JSON reader `extract_json` (recipe/collabllm/utils.py). */
module JsonParser {
  import opened Options

  /** What the reader returns. A dict keeps its insertion order. */
  datatype Value = Null | Bool(b: bool) | Int(n: int) | Float(text: string) | Str(s: string)
                 | Arr(items: seq<Value>) | Obj(entries: seq<Entry>)
  datatype Entry = Entry(key: Value, value: Value)

  /** A parse either raises ValueError or yields a result and the position after it. */
  datatype Parse<+T> = Error | Ok(value: T, pos: nat)

  /** Python's own conversions of text, which the reader calls: `convert_value` on the contents of a
      string, and `float`, which may raise. */
  datatype Python = Python(convert: string -> Value, float: string -> Option<Value>)

  predicate IsSpace(c: char) { c == ' ' || c == '\t' || c == '\n' || c == '\r' }

  predicate IsDigit(c: char) { '0' <= c <= '9' }

  predicate IsNumberChar(c: char) { c == '-' || c == '+' || IsDigit(c) || c == '.' || c == 'e' || c == 'E' }

  function LowerChar(c: char): char { if 'A' <= c <= 'Z' then c - 'A' + 'a' else c }

  /** Whether s[pos : pos + |word|].lower() == word. */
  predicate LowerAt(s: string, pos: nat, word: string)
    ensures LowerAt(s, pos, word) ==> pos + |word| <= |s| || word == ""
    decreases |word|
  {
    word == "" || (pos < |s| && LowerChar(s[pos]) == word[0] && LowerAt(s, pos + 1, word[1..]))
  }

  // ------------------------------------------------ scalars

  function SkipSpace(s: string, pos: nat): (p: nat)
    requires pos <= |s|
    ensures pos <= p <= |s|
    ensures p < |s| ==> !IsSpace(s[p])
    decreases |s| - pos
  {
    if pos < |s| && IsSpace(s[pos]) then SkipSpace(s, pos + 1) else pos
  }

  /** It skips the whole run of whitespace at pos and nothing more; so skipping twice changes nothing. */
  lemma {:induction false} SkipSpaceMeaning(s: string, pos: nat)
    requires pos <= |s|
    ensures var p := SkipSpace(s, pos);
            && (p < |s| ==> !IsSpace(s[p]))
            && (forall i :: pos <= i < p ==> IsSpace(s[i]))
            && SkipSpace(s, p) == p
    decreases |s| - pos
  {
    if pos < |s| && IsSpace(s[pos]) { SkipSpaceMeaning(s, pos + 1); }
  }

  /** `int` on text made of digits and signs: at most one sign, at the front, and a digit. */
  function IntOf(text: string): Option<int> {
    if text != "" && text[0] == '-' then
      if text[1..] != "" && AllDigits(text[1..]) then Some(0 - Natural(text[1..])) else None
    else
      var digits := if text != "" && text[0] == '+' then text[1..] else text;
      if digits != "" && AllDigits(digits) then Some(Natural(digits)) else None
  }

  predicate AllDigits(text: string) { forall i :: 0 <= i < |text| ==> IsDigit(text[i]) }

  function Natural(digits: string): nat
    requires AllDigits(digits)
  {
    if digits == "" then 0
    else Natural(digits[..|digits| - 1]) * 10 + (digits[|digits| - 1] as int - '0' as int)
  }

  function NumberEnd(s: string, pos: nat): (p: nat)
    requires pos <= |s|
    ensures pos <= p <= |s|
    decreases |s| - pos
  {
    if pos < |s| && IsNumberChar(s[pos]) then NumberEnd(s, pos + 1) else pos
  }

  predicate LooksFloat(text: string) { exists i :: 0 <= i < |text| && (text[i] == '.' || text[i] == 'e' || text[i] == 'E') }

  function Number(py: Python, text: string): Option<Value> {
    if LooksFloat(text) then py.float(text)
    else match IntOf(text) case None => None case Some(n) => Some(Int(n))
  }

  function ParseNumber(py: Python, s: string, pos: nat): (r: Parse<Value>)
    requires pos < |s| && IsNumberChar(s[pos])
    ensures r.Ok? ==> pos < r.pos <= |s|
  {
    var end := NumberEnd(s, pos);
    match Number(py, s[pos..end]) case None => Error case Some(v) => Ok(v, end)
  }

  function Unescape(c: char): char { if c == 'n' then '\n' else if c == 't' then '\t' else if c == 'r' then '\r' else c }

  /** The loop of `parse_string`, from inside the quotes. */
  function StringBody(s: string, pos: nat, quote: char, result: string): (r: Parse<string>)
    requires pos <= |s|
    ensures r.Ok? ==> pos < r.pos <= |s|
    decreases |s| - pos
  {
    if pos >= |s| then Error
    else if s[pos] == '\\' then
      if pos + 1 >= |s| then Error else StringBody(s, pos + 2, quote, result + [Unescape(s[pos + 1])])
    else if s[pos] == quote then Ok(result, pos + 1)
    else StringBody(s, pos + 1, quote, result + [s[pos]])
  }

  predicate IsQuote(c: char) { c == '"' || c == '\'' }

  function ParseString(py: Python, s: string, pos: nat): (r: Parse<Value>)
    requires pos < |s| && IsQuote(s[pos])
    ensures r.Ok? ==> pos < r.pos <= |s|
  {
    match StringBody(s, pos + 1, s[pos], "") case Error => Error case Ok(text, p) => Ok(py.convert(text), p)
  }

  predicate AtTriple(s: string, pos: nat)
    requires pos <= |s|
  {
    pos + 3 <= |s| && IsQuote(s[pos]) && s[pos] == s[pos + 1] == s[pos + 2]
  }

  function TripleBody(s: string, pos: nat, quote: char, result: string): (r: Parse<string>)
    requires pos <= |s| && IsQuote(quote)
    ensures r.Ok? ==> pos + 3 <= r.pos <= |s| && r.value == result + s[pos..r.pos - 3]
    ensures r.Ok? ==> s[r.pos - 3] == s[r.pos - 2] == s[r.pos - 1] == quote
    decreases |s| - pos
  {
    if pos >= |s| then Error
    else if AtTriple(s, pos) && s[pos] == quote then Ok(result, pos + 3)
    else TripleBody(s, pos + 1, quote, result + [s[pos]])
  }

  function ParseTriple(py: Python, s: string, pos: nat): (r: Parse<Value>)
    requires pos <= |s| && AtTriple(s, pos)
    ensures r.Ok? ==> pos < r.pos <= |s|
  {
    match TripleBody(s, pos + 3, s[pos], "") case Error => Error case Ok(text, p) => Ok(py.convert(text), p)
  }

  /** The last branches of `parse_value`. */
  function ParseScalar(py: Python, s: string, pos: nat): (r: Parse<Value>)
    requires pos < |s|
    ensures r.Ok? ==> pos < r.pos <= |s|
  {
    if LowerAt(s, pos, "true") then Ok(Bool(true), pos + 4)
    else if LowerAt(s, pos, "false") then Ok(Bool(false), pos + 5)
    else if LowerAt(s, pos, "null") then Ok(Null, pos + 4)
    else if IsNumberChar(s[pos]) && s[pos] != 'e' && s[pos] != 'E' then ParseNumber(py, s, pos)
    else Error
  }

  // ------------------------------------------------ structures

  /** `obj[key] = value`: a known key keeps its place, a new one goes last. */
  function SetItem(entries: seq<Entry>, key: Value, value: Value): seq<Entry> {
    if entries == [] then [Entry(key, value)]
    else if entries[0].key == key then [Entry(key, value)] + entries[1..]
    else [entries[0]] + SetItem(entries[1..], key, value)
  }

  /** Called where a character is known to follow; that is why the unguarded index is safe. */
  function ParseKey(py: Python, s: string, pos: nat): (r: Parse<Value>)
    requires pos <= |s| && SkipSpace(s, pos) < |s|
    ensures r.Ok? ==> pos < r.pos <= |s|
  {
    var p := SkipSpace(s, pos);
    if IsQuote(s[p]) then ParseString(py, s, p) else Error
  }

  function ParseValue(py: Python, s: string, start: nat): (r: Parse<Value>)
    requires start <= |s|
    ensures r.Ok? ==> start < r.pos <= |s|
    decreases |s| - start, 1
  {
    var pos := SkipSpace(s, start);
    if pos >= |s| then Error
    else if s[pos] == '{' then
      match ObjectLoop(py, s, SkipSpace(s, pos + 1), []) case Error => Error case Ok(es, p) => Ok(Obj(es), p)
    else if s[pos] == '[' then
      match ArrayLoop(py, s, SkipSpace(s, pos + 1), []) case Error => Error case Ok(vs, p) => Ok(Arr(vs), p)
    else if AtTriple(s, pos) then ParseTriple(py, s, pos)
    else if IsQuote(s[pos]) then ParseString(py, s, pos)
    else ParseScalar(py, s, pos)
  }

  /** The loop of `parse_object`, entered with the whitespace skipped. */
  function ObjectLoop(py: Python, s: string, pos: nat, obj: seq<Entry>): (r: Parse<seq<Entry>>)
    requires pos <= |s| && SkipSpace(s, pos) == pos
    ensures r.Ok? ==> pos < r.pos <= |s|
    decreases |s| - pos, 2
  {
    if pos >= |s| then Error
    else if s[pos] == '}' then Ok(obj, pos + 1)
    else
      match ParseKey(py, s, pos)
      case Error => Error
      case Ok(key, p0) =>
        var p := SkipSpace(s, p0);
        if p >= |s| || s[p] != ':' then Error
        else
          match ParseValue(py, s, SkipSpace(s, p + 1))
          case Error => Error
          case Ok(value, q0) =>
            var q := SkipSpace(s, q0);
            var obj1 := SetItem(obj, key, value);
            if q < |s| && s[q] == ',' then ObjectLoop(py, s, SkipSpace(s, q + 1), obj1)
            else if q < |s| && s[q] == '}' then Ok(obj1, q + 1)
            else Error
  }

  /** The loop of `parse_array`, entered with the whitespace skipped. */
  function ArrayLoop(py: Python, s: string, pos: nat, lst: seq<Value>): (r: Parse<seq<Value>>)
    requires pos <= |s| && SkipSpace(s, pos) == pos
    ensures r.Ok? ==> pos < r.pos <= |s|
    decreases |s| - pos, 2
  {
    if pos >= |s| then Error
    else if s[pos] == ']' then Ok(lst, pos + 1)
    else
      match ParseValue(py, s, pos)
      case Error => Error
      case Ok(value, q0) =>
        var q := SkipSpace(s, q0);
        if q < |s| && s[q] == ',' then ArrayLoop(py, s, SkipSpace(s, q + 1), lst + [value])
        else if q < |s| && s[q] == ']' then Ok(lst + [value], q + 1)
        else Error
  }

  // ------------------------------------------------ extract_json

  function FirstIndex(s: string, c: char): (i: nat)
    ensures i <= |s|
    ensures forall j :: 0 <= j < i ==> s[j] != c
    ensures i < |s| ==> s[i] == c
  {
    if s == "" || s[0] == c then 0 else 1 + FirstIndex(s[1..], c)
  }

  /** One more than the last index of c, or 0. */
  function AfterLast(s: string, c: char): (i: nat)
    ensures i <= |s|
    ensures forall j :: i <= j < |s| ==> s[j] != c
    ensures i > 0 ==> s[i - 1] == c
  {
    if s == "" then 0 else if s[|s| - 1] == c then |s| else AfterLast(s[..|s| - 1], c)
  }

  /** The text handed to the parser. It is empty or starts with "{" and ends with "}", so the
      `strip` that follows changes nothing. */
  function Braced(s: string): (t: string)
    ensures t == "" || (t[0] == '{' && t[|t| - 1] == '}')
  {
    var start, end := FirstIndex(s, '{'), AfterLast(s, '}');
    if start < end then s[start..end] else ""
  }

  function ExtractJson(py: Python, s: string): Parse<Value> {
    if FirstIndex(s, '{') == |s| then Error      // s.index raises
    else
      var t := Braced(s);
      match ParseValue(py, t, 0)
      case Error => Error
      case Ok(v, p) => if SkipSpace(t, p) != |t| then Error else Ok(v, p)
  }
}
