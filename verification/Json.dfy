/**
 The JSON printer and parser of src/json.rs, as functions on text.  The parser
 is a function from the text that is left to a value and the text after it.
 Double-precision numbers are the parameter `Doubles`.
 */
module Json {
  import opened Wrappers
  import opened Numerals

  datatype Json<F> =
    | Null
    | Bool(b: bool)
    | Number(n: F)
    | Str(s: string)
    | Array(items: seq<Json<F>>)
    | Object(entries: seq<(string, Json<F>)>)

  /**
   What the printer and the parser use of `f64`: `==` (which takes the two
   zeros for one and NaN for unequal to itself), casts from and to `i64`,
   `is_finite`, `to_string` and `parse`.
   */
  datatype Doubles<!F> = Doubles(
    same: (F, F) -> bool,
    ofI64: i64 -> F,
    toI64: F -> i64,
    finite: F -> bool,
    show: F -> string,
    read: string -> Option<F>
  )

  /** Text of digits and points after an optional minus sign. */
  predicate IsNumeral(s: string) {
    var i := NumberStart(s);
    i < |s| && IsDigit(s[i]) && forall j :: i <= j < |s| ==> IsDigit(s[j]) || s[j] == '.'
  }

  predicate Integral<F>(D: Doubles<F>, x: F) {
    D.same(x, D.ofI64(D.toI64(x))) && D.finite(x)
  }

  /**
   Facts of IEEE 754 and of the standard library.  Reading an integer's text
   rounds as the cast does; other finite numbers print in a form that reads
   back; the cast is exact below 2^53, and there and back changes no double
   that was an integer; only zeros are equal without being the same.
   */
  ghost predicate Lawful<F(!new)>(D: Doubles<F>) {
    && (forall i: i64 :: D.finite(D.ofI64(i)) && D.read(Decimal(i)) == Some(D.ofI64(i)))
    && (forall i: i64 :: -0x20_0000_0000_0000 < i < 0x20_0000_0000_0000 ==> D.toI64(D.ofI64(i)) == i)
    && (forall i: i64 :: D.ofI64(D.toI64(D.ofI64(i))) == D.ofI64(i))
    && (forall x: F, i: i64 :: D.same(x, D.ofI64(i)) ==> x == D.ofI64(i) || i == 0)
    && (forall x: F :: D.finite(x) && !D.same(x, D.ofI64(D.toI64(x))) ==>
      IsNumeral(D.show(x)) && D.read(D.show(x)) == Some(x))
    && (forall x: F :: !D.finite(x) ==> D.show(x) in {"NaN", "inf", "-inf"})
    && D.read("-") == None
  }

  // ----- printing, json.rs:46-99 -----

  /** `{:04x}` of a code below 256. */
  function Hex4(n: nat): string {
    (if n < 16 then "000" else "00") + Hex(n)
  }

  function Escape(c: char): string {
    if c == '"' then "\\\""
    else if c == '\\' then "\\\\"
    else if c == '\n' then "\\n"
    else if c == '\t' then "\\t"
    else if c == '\r' then "\\r"
    else if c as int < 0x20 then "\\u" + Hex4(c as nat)
    else [c]
  }

  function EscapeAll(s: string): string {
    if s == [] then [] else Escape(s[0]) + EscapeAll(s[1..])
  }

  function StringText(s: string): string {
    "\"" + EscapeAll(s) + "\""
  }

  function NumberText<F>(D: Doubles<F>, x: F): string {
    if Integral(D, x) then Decimal(D.toI64(x)) else D.show(x)
  }

  function Text<F>(D: Doubles<F>, v: Json<F>): string
    decreases v
  {
    match v
    case Null => "null"
    case Bool(b) => if b then "true" else "false"
    case Number(n) => NumberText(D, n)
    case Str(s) => StringText(s)
    case Array(items) => "[" + ItemsText(D, items) + "]"
    case Object(entries) => "{" + EntriesText(D, entries) + "}"
  }

  function ItemsText<F>(D: Doubles<F>, items: seq<Json<F>>): string
    decreases items
  {
    if items == [] then ""
    else if |items| == 1 then Text(D, items[0])
    else Text(D, items[0]) + "," + ItemsText(D, items[1..])
  }

  function EntryText<F>(D: Doubles<F>, e: (string, Json<F>)): string
    decreases e
  {
    StringText(e.0) + ":" + Text(D, e.1)
  }

  function EntriesText<F>(D: Doubles<F>, entries: seq<(string, Json<F>)>): string
    decreases entries
  {
    if entries == [] then ""
    else if |entries| == 1 then EntryText(D, entries[0])
    else EntryText(D, entries[0]) + "," + EntriesText(D, entries[1..])
  }

  // ----- parsing, json.rs:15-20, 148-293 -----

  datatype JsonError =
    | UnexpectedEnd
    | UnexpectedChar(c: char)
    | UnterminatedString
    | UnterminatedEscape
    | BadNumber(text: string)
    | BadLiteral
    | NoDelimiter

  datatype Reply<+T> = Got(value: T, rest: string) | Fail(error: JsonError)

  /** `char::is_whitespace`: the Unicode White_Space property. */
  predicate IsWhitespace(c: char) {
    var n := c as int;
    || 0x09 <= n <= 0x0d || n == 0x20 || n == 0x85 || n == 0xa0 || n == 0x1680
    || 0x2000 <= n <= 0x200a || n == 0x2028 || n == 0x2029 || n == 0x202f || n == 0x205f || n == 0x3000
  }

  /** The characters with the Unicode property White_Space. */
  const WHITE: set<char> := {
    ' ', '\t', '\n', '\r', '\U{b}', '\U{c}', '\U{85}', '\U{a0}', '\U{1680}',
    '\U{2000}', '\U{2001}', '\U{2002}', '\U{2003}', '\U{2004}', '\U{2005}', '\U{2006}', '\U{2007}', '\U{2008}',
    '\U{2009}', '\U{200a}', '\U{2028}', '\U{2029}', '\U{202f}', '\U{205f}', '\U{3000}'
  }

  lemma {:induction false} WhiteIff(c: char)
    ensures c in WHITE <==> IsWhitespace(c)
  {
  }

  function SkipWs(t: string): (r: string)
    ensures |r| <= |t|
    ensures r != [] ==> !IsWhitespace(r[0])
  {
    if t != [] && IsWhitespace(t[0]) then SkipWs(t[1..]) else t
  }

  /** Skip white space and take the given character. */
  function Expect(t: string, c: char): (r: Reply<()>)
    ensures r.Got? ==> |r.rest| < |t|
  {
    var u := SkipWs(t);
    if u == [] then Fail(UnexpectedEnd)
    else if u[0] == c then Got((), u[1..])
    else Fail(UnexpectedChar(u[0]))
  }

  /** What a backslash and the next character stand for; an unknown pair stands for itself. */
  function Unescape(c: char): string {
    match c
    case 'n' => "\n"
    case 't' => "\t"
    case '\\' => "\\"
    case '"' => "\""
    case '/' => "/"
    case _ => ['\\', c]
  }

  /** The characters up to the closing quote, after `acc`. */
  function ParseChars(t: string, acc: string): (r: Reply<string>)
    ensures r.Got? ==> |r.rest| < |t|
    decreases |t|
  {
    if t == [] then Fail(UnterminatedString)
    else if t[0] == '"' then Got(acc, t[1..])
    else if t[0] != '\\' then ParseChars(t[1..], acc + [t[0]])
    else if |t| == 1 then Fail(UnterminatedEscape)
    else ParseChars(t[2..], acc + Unescape(t[1]))
  }

  function ParseString(t: string): (r: Reply<string>)
    ensures r.Got? ==> |r.rest| < |t|
  {
    match Expect(t, '"')
    case Fail(e) => Fail(e)
    case Got(_, u) => ParseChars(u, [])
  }

  predicate IsNumberChar(c: char) {
    IsDigit(c) || c == '.' || c == 'e' || c == 'E' || c == '+' || c == '-'
  }

  /** Past the number's second character a sign is taken only after an exponent letter. */
  predicate Takes(t: string, i: nat)
    requires i < |t|
  {
    IsNumberChar(t[i]) && ((t[i] == '+' || t[i] == '-') && i > 1 ==> t[i - 1] == 'e' || t[i - 1] == 'E')
  }

  function NumberEnd(t: string, i: nat): (k: nat)
    requires i <= |t|
    ensures i <= k <= |t|
    decreases |t| - i
  {
    if i < |t| && Takes(t, i) then NumberEnd(t, i + 1) else i
  }

  function NumberStart(t: string): nat {
    if t != [] && t[0] == '-' then 1 else 0
  }

  function ParseNumber<F>(D: Doubles<F>, t: string): Reply<Json<F>> {
    var k := NumberEnd(t, NumberStart(t));
    match D.read(t[..k])
    case None => Fail(BadNumber(t[..k]))
    case Some(x) => Got(Number(x), t[k..])
  }

  function ParseBool<F>(t: string): Reply<Json<F>> {
    if "true" <= t then Got(Bool(true), t[4..])
    else if "false" <= t then Got(Bool(false), t[5..])
    else Fail(BadLiteral)
  }

  function ParseNull<F>(t: string): Reply<Json<F>> {
    if "null" <= t then Got(Null, t[4..]) else Fail(BadLiteral)
  }

  function ParseValue<F>(D: Doubles<F>, t: string): (r: Reply<Json<F>>)
    ensures r.Got? ==> |r.rest| < |t|
    decreases |t|, 2
  {
    var u := SkipWs(t);
    if u == [] then Fail(UnexpectedEnd)
    else if u[0] == '"' then
      match ParseString(u) { case Fail(e) => Fail(e) case Got(s, rest) => Got(Str(s), rest) }
    else if u[0] == '{' then ParseObject(D, u)
    else if u[0] == '[' then ParseArray(D, u)
    else if u[0] == 't' || u[0] == 'f' then ParseBool(u)
    else if u[0] == 'n' then ParseNull(u)
    else if u[0] == '-' || IsDigit(u[0]) then ParseNumber(D, u)
    else Fail(UnexpectedChar(u[0]))
  }

  /** After an element: a comma, with more to come, or the closing bracket. */
  function Delimiter(t: string, close: char): (r: Reply<bool>)
    ensures r.Got? ==> |r.rest| < |t|
  {
    var u := SkipWs(t);
    if u != [] && u[0] == ',' then Got(true, u[1..])
    else if u != [] && u[0] == close then Got(false, u[1..])
    else Fail(NoDelimiter)
  }

  function ParseArray<F>(D: Doubles<F>, t: string): (r: Reply<Json<F>>)
    ensures r.Got? ==> |r.rest| < |t|
    decreases |t|, 1
  {
    match Expect(t, '[')
    case Fail(e) => Fail(e)
    case Got(_, t1) =>
      var u := SkipWs(t1);
      if u != [] && u[0] == ']' then Got(Array([]), u[1..]) else ParseItems(D, u, [])
  }

  /** The elements from here to the closing bracket, after `acc`. */
  function ParseItems<F>(D: Doubles<F>, t: string, acc: seq<Json<F>>): (r: Reply<Json<F>>)
    ensures r.Got? ==> |r.rest| < |t|
    decreases |t|, 3
  {
    match ParseValue(D, t)
    case Fail(e) => Fail(e)
    case Got(v, t1) =>
      match Delimiter(t1, ']')
      case Fail(e) => Fail(e)
      case Got(more, u) => if more then ParseItems(D, u, acc + [v]) else Got(Array(acc + [v]), u)
  }

  function ParseObject<F>(D: Doubles<F>, t: string): (r: Reply<Json<F>>)
    ensures r.Got? ==> |r.rest| < |t|
    decreases |t|, 1
  {
    match Expect(t, '{')
    case Fail(e) => Fail(e)
    case Got(_, t1) =>
      var u := SkipWs(t1);
      if u != [] && u[0] == '}' then Got(Object([]), u[1..]) else ParseEntries(D, u, [])
  }

  /** A key, a colon and a value. */
  function ParseEntry<F>(D: Doubles<F>, t: string): (r: Reply<(string, Json<F>)>)
    ensures r.Got? ==> |r.rest| < |t|
    decreases |t|, 3
  {
    match ParseString(SkipWs(t))
    case Fail(e) => Fail(e)
    case Got(key, t1) =>
      match Expect(SkipWs(t1), ':')
      case Fail(e) => Fail(e)
      case Got(_, t2) =>
        match ParseValue(D, t2)
        case Fail(e) => Fail(e)
        case Got(v, t3) => Got((key, v), t3)
  }

  /** The entries from here to the closing brace, after `acc`. */
  function ParseEntries<F>(D: Doubles<F>, t: string, acc: seq<(string, Json<F>)>): (r: Reply<Json<F>>)
    ensures r.Got? ==> |r.rest| < |t|
    decreases |t|, 4
  {
    match ParseEntry(D, t)
    case Fail(e) => Fail(e)
    case Got(entry, t1) =>
      match Delimiter(t1, '}')
      case Fail(e) => Fail(e)
      case Got(more, u) => if more then ParseEntries(D, u, acc + [entry]) else Got(Object(acc + [entry]), u)
  }

  /** `Json::parse`: text after the value is ignored. */
  function Parse<F>(D: Doubles<F>, t: string): Option<Json<F>> {
    match ParseValue(D, SkipWs(t))
    case Fail(_) => None
    case Got(v, _) => Some(v)
  }
}
