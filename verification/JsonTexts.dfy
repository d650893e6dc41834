/** The texts that the reader accepts, with their layout, and what it makes of them. They include
    everything that sections 2 to 7 of RFC 8259 let one write, and go beyond it in the way the texts of
    a model do: either quote, triple quotes, keywords in any case, a comma after the last element. The
    texts of the RFC are the strict ones; for them this says what they mean by the RFC. */
module JsonTexts {
  import opened Options
  import opened JsonParser

  // ------------------------------------------------ texts

  /** A character of a string: as itself, escaped by a backslash, or as \uXXXX. */
  datatype Char = Plain(c: char) | Escape(c: char) | Unicode(hex: string)

  /** A string between quotes, or between three quotes with no escapes at all. */
  datatype Text = Quoted(quote: char, chars: seq<Char>) | Tripled(quote: char, body: string)

  datatype Doc =
    | NullDoc(word: string)
    | BoolDoc(b: bool, word: string)
    | IntDoc(text: string)
    | FloatDoc(whole: string, fraction: string, exponent: string)
    | StrDoc(str: Text)
    | ArrDoc(elems: Elems)
    | ObjDoc(members: Members)

  // The elements of an array with the whitespace around them; an empty array may hold whitespace, and
  // so may the place after a comma behind the last element.
  datatype Elems = NoElems(inner: string) | Elem(before: string, value: Doc, after: string, more: Option<Elems>)

  datatype Members =
    | NoMembers(inner: string)
    | Member(before: string, quote: char, key: seq<Char>, afterKey: string, beforeValue: string, value: Doc, after: string,
             more: Option<Members>)

  /** Insignificant whitespace of the RFC. */
  predicate Blank(c: char) { c == ' ' || c == '\t' || c == '\n' || c == '\r' }

  predicate AllSpace(t: string) { forall i :: 0 <= i < |t| ==> Blank(t[i]) }

  function RenderChar(x: Char): string {
    match x
    case Plain(c) => [c]
    case Escape(c) => ['\\', c]
    case Unicode(hex) => ['\\', 'u'] + hex
  }

  /** The characters of a string and the quote that ends it. */
  function RenderChars(xs: seq<Char>, quote: char): string {
    if xs == [] then [quote] else RenderChar(xs[0]) + RenderChars(xs[1..], quote)
  }

  function RenderString(xs: seq<Char>, quote: char): string { [quote] + RenderChars(xs, quote) }

  function Thrice(quote: char): string { [quote, quote, quote] }

  function RenderText(t: Text): string {
    match t
    case Quoted(quote, xs) => RenderString(xs, quote)
    case Tripled(quote, body) => Thrice(quote) + (body + Thrice(quote))
  }

  function Render(d: Doc): string {
    match d
    case NullDoc(word) => word
    case BoolDoc(_, word) => word
    case IntDoc(text) => text
    case FloatDoc(whole, fraction, exponent) => whole + (fraction + exponent)
    case StrDoc(t) => RenderText(t)
    case ArrDoc(es) => ['['] + RenderElems(es)
    case ObjDoc(ms) => ['{'] + RenderMembers(ms)
  }

  /** The elements of an array and the bracket that ends it. */
  function RenderElems(es: Elems): string {
    match es
    case NoElems(inner) => inner + [']']
    case Elem(before, value, after, more) => before + (Render(value) + (after + RenderMore(more)))
  }

  function RenderMore(more: Option<Elems>): string {
    match more case None => [']'] case Some(rest) => [','] + RenderElems(rest)
  }

  /** The members of an object and the brace that ends it. */
  function RenderMembers(ms: Members): string {
    match ms
    case NoMembers(inner) => inner + ['}']
    case Member(before, quote, key, afterKey, beforeValue, value, after, more) =>
      before + (RenderString(key, quote) + (afterKey + ([':'] + (beforeValue + (Render(value) + (after + RenderOthers(more)))))))
  }

  function RenderOthers(more: Option<Members>): string {
    match more case None => ['}'] case Some(rest) => [','] + RenderMembers(rest)
  }

  // ------------------------------------------------ which texts are well formed

  predicate ValidChar(x: Char, quote: char) {
    match x
    case Plain(c) => c != quote && c != '\\'
    case Escape(_) => true
    case Unicode(hex) => forall i :: 0 <= i < |hex| ==> hex[i] != quote && hex[i] != '\\'
  }

  predicate ValidChars(xs: seq<Char>, quote: char) { forall i :: 0 <= i < |xs| ==> ValidChar(xs[i], quote) }

  /** The quote does not occur three times in a row in the body, and not at its end. */
  predicate ClosesOnce(body: string, quote: char) {
    && (forall i :: 0 <= i && i + 3 <= |body| ==> !(body[i] == body[i + 1] == body[i + 2] == quote))
    && (body != "" ==> body[|body| - 1] != quote)
  }

  predicate Mark(quote: char) { quote == '"' || quote == '\'' }

  predicate ValidText(t: Text) {
    match t
    case Quoted(quote, xs) => Mark(quote) && ValidChars(xs, quote)
    case Tripled(quote, body) => Mark(quote) && ClosesOnce(body, quote)
  }

  /** The keyword, each of its letters small or capital. */
  predicate InAnyCase(word: string, keyword: string)
    requires forall i :: 0 <= i < |keyword| ==> 'a' <= keyword[i] <= 'z'
  {
    |word| == |keyword| && forall i :: 0 <= i < |word| ==> word[i] == keyword[i] || word[i] == keyword[i] - 'a' + 'A'
  }

  function Keyword(b: bool): (r: string)
    ensures forall i :: 0 <= i < |r| ==> 'a' <= r[i] <= 'z'
  {
    if b then "true" else "false"
  }

  predicate IsSign(c: char) { c == '-' || c == '+' }

  /** An integer: at most one sign, and digits. */
  predicate LooseInt(text: string) {
    text != "" &&
    var digits := if IsSign(text[0]) then text[1..] else text;
    digits != "" && AllDigits(digits)
  }

  /** What is handed to `float`: number characters with a point or an exponent among them. */
  predicate LooseFloat(text: string) {
    && text != "" && text[0] != 'e' && text[0] != 'E' && LooksFloat(text)
    && forall i :: 0 <= i < |text| ==> IsNumberChar(text[i])
  }

  predicate WellFormed(d: Doc) {
    match d
    case NullDoc(word) => InAnyCase(word, "null")
    case BoolDoc(b, word) => InAnyCase(word, Keyword(b))
    case IntDoc(text) => LooseInt(text)
    case FloatDoc(whole, fraction, exponent) => LooseFloat(whole + (fraction + exponent))
    case StrDoc(t) => ValidText(t)
    case ArrDoc(es) => WellFormedElems(es)
    case ObjDoc(ms) => WellFormedMembers(ms)
  }

  predicate WellFormedElems(es: Elems) {
    match es
    case NoElems(inner) => AllSpace(inner)
    case Elem(before, value, after, more) =>
      && AllSpace(before) && WellFormed(value) && AllSpace(after)
      && (match more case None => true case Some(rest) => WellFormedElems(rest))
  }

  predicate WellFormedMembers(ms: Members) {
    match ms
    case NoMembers(inner) => AllSpace(inner)
    case Member(before, quote, key, afterKey, beforeValue, value, after, more) =>
      && AllSpace(before) && Mark(quote) && ValidChars(key, quote) && AllSpace(afterKey) && AllSpace(beforeValue)
      && WellFormed(value) && AllSpace(after)
      && (match more case None => true case Some(rest) => WellFormedMembers(rest))
  }

  /** Every number with a point or an exponent is one for `float`. */
  predicate Readable(py: Python, d: Doc) {
    match d
    case FloatDoc(whole, fraction, exponent) => py.float(whole + (fraction + exponent)).Some?
    case ArrDoc(es) => ReadableElems(py, es)
    case ObjDoc(ms) => ReadableMembers(py, ms)
    case _ => true
  }

  predicate ReadableElems(py: Python, es: Elems) {
    match es
    case NoElems(_) => true
    case Elem(_, value, _, more) => Readable(py, value) && (match more case None => true case Some(rest) => ReadableElems(py, rest))
  }

  predicate ReadableMembers(py: Python, ms: Members) {
    match ms
    case NoMembers(_) => true
    case Member(_, _, _, _, _, value, _, more) =>
      Readable(py, value) && (match more case None => true case Some(rest) => ReadableMembers(py, rest))
  }

  // ------------------------------------------------ which texts are those of the RFC

  /** The escapes that stand for themselves in the parser's table or by its default. */
  predicate KnownEscape(c: char) { c == '"' || c == '\\' || c == '/' || c == 'n' || c == 't' || c == 'r' }

  predicate StrictChar(x: Char) {
    match x
    case Plain(_) => true
    case Escape(c) => KnownEscape(c) || c == 'b' || c == 'f'
    case Unicode(hex) => |hex| == 4
  }

  predicate StrictChars(xs: seq<Char>) { forall i :: 0 <= i < |xs| ==> StrictChar(xs[i]) }

  /** An integer of the RFC: an optional minus and digits. (Leading zeros would do no harm.) */
  predicate IntText(text: string) {
    text != "" && AllDigits(if text[0] == '-' then text[1..] else text) && (text[0] == '-' ==> |text| > 1)
  }

  /** A fraction, an exponent, or both after an integer. */
  predicate FloatText(whole: string, fraction: string, exponent: string) {
    && IntText(whole) && fraction + exponent != ""
    && (fraction != "" ==> fraction[0] == '.' && fraction[1..] != "" && AllDigits(fraction[1..]))
    && (exponent != "" ==> (exponent[0] == 'e' || exponent[0] == 'E') && Exponent(exponent[1..]))
  }

  predicate Exponent(text: string) {
    text != "" &&
    var digits := if text[0] == '+' || text[0] == '-' then text[1..] else text;
    digits != "" && AllDigits(digits)
  }

  /** A well-formed text that the RFC allows. */
  predicate Strict(d: Doc) {
    match d
    case NullDoc(word) => word == "null"
    case BoolDoc(b, word) => word == Keyword(b)
    case IntDoc(text) => IntText(text)
    case FloatDoc(whole, fraction, exponent) => FloatText(whole, fraction, exponent)
    case StrDoc(t) => t.Quoted? && t.quote == '"' && StrictChars(t.chars)
    case ArrDoc(es) => StrictElems(es)
    case ObjDoc(ms) => StrictMembers(ms)
  }

  predicate StrictElems(es: Elems) {
    match es
    case NoElems(_) => true
    case Elem(_, value, _, more) => Strict(value) && (match more case None => true case Some(rest) => rest.Elem? && StrictElems(rest))
  }

  predicate StrictMembers(ms: Members) {
    match ms
    case NoMembers(_) => true
    case Member(_, quote, key, _, _, value, _, more) =>
      && quote == '"' && StrictChars(key) && Strict(value)
      && (match more case None => true case Some(rest) => rest.Member? && StrictMembers(rest))
  }

  // ------------------------------------------------ what a text means by the RFC

  /** The character that the RFC gives to x; `unit` decodes four hexadecimal digits. */
  function Meaning(x: Char, unit: string -> char): char {
    match x
    case Plain(c) => c
    case Escape(c) =>
      if c == 'b' then '\U{8}' else if c == 'f' then '\U{c}'
      else if c == 'n' then '\U{a}' else if c == 'r' then '\U{d}' else if c == 't' then '\U{9}'
      else c
    case Unicode(hex) => unit(hex)
  }

  function Meanings(xs: seq<Char>, unit: string -> char): string {
    if xs == [] then "" else [Meaning(xs[0], unit)] + Meanings(xs[1..], unit)
  }

  /** The value of a text; a non-integral number is represented by its text. */
  function Standard(d: Doc, unit: string -> char): Value
    requires WellFormed(d) && Strict(d)
  {
    match d
    case NullDoc(_) => Null
    case BoolDoc(b, _) => Bool(b)
    case IntDoc(text) => IntegerOf(text)
    case FloatDoc(whole, fraction, exponent) => Float(whole + (fraction + exponent))
    case StrDoc(t) => Str(Meanings(t.chars, unit))
    case ArrDoc(es) => Arr(StandardElems(es, unit))
    case ObjDoc(ms) => Obj(StandardEntries(ms, unit))
  }

  function IntegerOf(text: string): Value
    requires LooseInt(text)
  {
    Int(if text[0] == '-' then 0 - Natural(text[1..]) else if text[0] == '+' then Natural(text[1..]) else Natural(text))
  }

  function StandardElems(es: Elems, unit: string -> char): seq<Value>
    requires WellFormedElems(es) && StrictElems(es)
  {
    match es
    case NoElems(_) => []
    case Elem(_, value, _, more) =>
      [Standard(value, unit)] + (match more case None => [] case Some(rest) => StandardElems(rest, unit))
  }

  function StandardEntries(ms: Members, unit: string -> char): seq<Entry>
    requires WellFormedMembers(ms) && StrictMembers(ms)
  {
    match ms
    case NoMembers(_) => []
    case Member(_, _, key, _, _, value, _, more) =>
      [Entry(Str(Meanings(key, unit)), Standard(value, unit))]
      + (match more case None => [] case Some(rest) => StandardEntries(rest, unit))
  }

  // ------------------------------------------------ what the reader makes of a text

  /** What the parser's string loop makes of x. */
  function Decoded(x: Char): string {
    match x
    case Plain(c) => [c]
    case Escape(c) => [Unescape(c)]
    case Unicode(hex) => ['u'] + hex
  }

  function DecodedAll(xs: seq<Char>): string {
    if xs == [] then "" else Decoded(xs[0]) + DecodedAll(xs[1..])
  }

  /** What is assumed of Python's conversions: `float` accepts every number of the RFC and yields a
      float, and `convert_value` either leaves a text alone or makes something else than a string of it. */
  ghost predicate Reliable(py: Python) {
    && (forall w, f, e :: FloatText(w, f, e) ==> FloatRead(py, w + (f + e)))
    && (forall t :: py.convert(t) == Str(t) || !py.convert(t).Str?)
  }

  predicate FloatRead(py: Python, text: string) { py.float(text).Some? && py.float(text).value.Float? }

  /** Strings go through the string loop and `convert_value`, names too; a later member with the same
      converted name replaces the value of an earlier one. */
  function Read(py: Python, d: Doc): Value
    requires WellFormed(d)
  {
    match d
    case NullDoc(_) => Null
    case BoolDoc(b, _) => Bool(b)
    case IntDoc(text) => IntegerOf(text)
    case FloatDoc(whole, fraction, exponent) => FloatOf(py, whole + (fraction + exponent))
    case StrDoc(t) => py.convert(Contents(t))
    case ArrDoc(es) => Arr(ReadElems(py, es))
    case ObjDoc(ms) => Obj(SetAll([], ReadEntries(py, ms)))
  }

  /** What stands between the quotes. Three quotes keep everything as it is, backslashes too. */
  function Contents(t: Text): string {
    match t
    case Quoted(_, xs) => DecodedAll(xs)
    case Tripled(_, body) => body
  }

  function FloatOf(py: Python, text: string): Value {
    match py.float(text) case Some(v) => v case None => Null
  }

  function ReadElems(py: Python, es: Elems): seq<Value>
    requires WellFormedElems(es)
  {
    match es
    case NoElems(_) => []
    case Elem(_, value, _, more) => [Read(py, value)] + (match more case None => [] case Some(rest) => ReadElems(py, rest))
  }

  function ReadEntries(py: Python, ms: Members): seq<Entry>
    requires WellFormedMembers(ms)
  {
    match ms
    case NoMembers(_) => []
    case Member(_, _, key, _, _, value, _, more) =>
      [Entry(py.convert(DecodedAll(key)), Read(py, value))] + (match more case None => [] case Some(rest) => ReadEntries(py, rest))
  }

  /** `obj[key] = value` for all the entries, in order. */
  function SetAll(obj: seq<Entry>, entries: seq<Entry>): seq<Entry>
    decreases |entries|
  {
    if entries == [] then obj else SetAll(SetItem(obj, entries[0].key, entries[0].value), entries[1..])
  }
}
