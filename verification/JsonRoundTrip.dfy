/** Parsing printed text gives the value back, exactly when its strings and numbers allow it. */
module JsonRoundTrip {
  import opened Wrappers
  import opened Numerals
  import opened Json

  // ----- what survives -----

  /** The characters printed as an escape that the parser does not decode. */
  predicate Lossy(c: char) {
    (c as int) < 0x20 && c != '\n' && c != '\t'
  }

  predicate Clean(s: string) {
    forall i :: 0 <= i < |s| ==> !Lossy(s[i])
  }

  /** The string read back: lossy characters stay escaped. */
  function Mangled(s: string): (r: string)
    ensures |r| >= |s|
  {
    if s == [] then [] else Back(s[0]) + Mangled(s[1..])
  }

  function Back(c: char): (r: string)
    ensures |r| >= 1
  {
    if Lossy(c) then Escape(c) else [c]
  }

  /** What is read where x was printed: a number that prints as an integer comes back as that integer's double. */
  function Stored<F>(D: Doubles<F>, x: F): F {
    if Integral(D, x) then D.ofI64(D.toI64(x)) else x
  }

  function ReadBack<F>(D: Doubles<F>, v: Json<F>): (r: Json<F>)
    decreases v
  {
    match v
    case Number(x) => Number(Stored(D, x))
    case Str(s) => Str(Mangled(s))
    case Array(items) => Array(ItemsBack(D, items))
    case Object(entries) => Object(EntriesBack(D, entries))
    case _ => v
  }

  function ItemsBack<F>(D: Doubles<F>, items: seq<Json<F>>): seq<Json<F>>
    decreases items
  {
    if items == [] then [] else [ReadBack(D, items[0])] + ItemsBack(D, items[1..])
  }

  function EntriesBack<F>(D: Doubles<F>, entries: seq<(string, Json<F>)>): seq<(string, Json<F>)>
    decreases entries
  {
    if entries == [] then [] else [EntryBack(D, entries[0])] + EntriesBack(D, entries[1..])
  }

  function EntryBack<F>(D: Doubles<F>, e: (string, Json<F>)): (string, Json<F>)
    decreases e
  {
    (Mangled(e.0), ReadBack(D, e.1))
  }

  predicate AllFinite<F>(D: Doubles<F>, v: Json<F>)
    decreases v
  {
    match v
    case Number(n) => D.finite(n)
    case Array(items) => forall i :: 0 <= i < |items| ==> AllFinite(D, items[i])
    case Object(entries) => forall i :: 0 <= i < |entries| ==> AllFinite(D, entries[i].1)
    case _ => true
  }

  /** Every string and every key is free of lossy characters, and no number is a negative zero. */
  ghost predicate AllClean<F>(D: Doubles<F>, v: Json<F>)
    decreases v
  {
    match v
    case Number(x) => Stored(D, x) == x
    case Str(s) => Clean(s)
    case Array(items) => forall i :: 0 <= i < |items| ==> AllClean(D, items[i])
    case Object(entries) => forall i :: 0 <= i < |entries| ==> Clean(entries[i].0) && AllClean(D, entries[i].1)
    case _ => true
  }

  /** Only a number can run on into what follows it. */
  predicate Delimits<F>(v: Json<F>, rest: string) {
    v.Number? && rest != [] ==> !IsNumberChar(rest[0])
  }

  // ----- strings -----

  lemma {:induction false} Group(a: string, b: string, c: string)
    ensures a + b + c == a + (b + c)
  {
  }

  lemma {:induction false} GroupMore(a: string, b: string, c: string, d: string)
    ensures a + "," + b + c + d == a + ("," + (b + c + d))
  {
  }

  lemma {:induction false} PlainChars(p: string, t: string, acc: string)
    requires forall i :: 0 <= i < |p| ==> p[i] != '"' && p[i] != '\\'
    ensures ParseChars(p + t, acc) == ParseChars(t, acc + p)
    decreases |p|
  {
    if p == [] {
      assert p + t == t && acc + p == acc;
    } else {
      PlainChars(p[1..], t, acc + [p[0]]);
      assert (p + t)[1..] == p[1..] + t;
      assert acc + [p[0]] + p[1..] == acc + p;
    }
  }

  /** A backslash pair is consumed at once. */
  lemma {:induction false} PairParses(c: char, t: string, acc: string)
    ensures ParseChars("\\" + [c] + t, acc) == ParseChars(t, acc + Unescape(c))
  {
    var u := "\\" + [c] + t;
    assert u[0] == '\\' && u[1] == c && u[2..] == t;
  }

  lemma {:induction false} Hex4IsPlain(n: nat)
    requires n < 0x20
    ensures |Hex4(n)| == 4
    ensures forall i :: 0 <= i < 4 ==> Hex4(n)[i] != '"' && Hex4(n)[i] != '\\' && Hex4(n)[i] >= '0'
  {
    DigitsStep(n, 16);
    DigitsStep(n / 16, 16);
  }

  lemma {:induction false} EscapeParses(c: char, t: string, acc: string)
    ensures ParseChars(Escape(c) + t, acc) == ParseChars(t, acc + Back(c))
  {
    hide ParseChars, Hex4;
    if Lossy(c) && c != '\r' {
      var code := Hex4(c as nat);
      Hex4IsPlain(c as nat);
      PairParses('u', code + t, acc);
      PlainChars(code, t, acc + "\\u");
      assert Escape(c) + t == "\\" + ['u'] + (code + t);
      assert acc + "\\u" + code == acc + Escape(c);
    } else if c == '"' || c == '\\' || c == '\n' || c == '\t' || c == '\r' {
      var d := Escape(c)[1];
      PairParses(d, t, acc);
      assert Escape(c) == "\\" + [d];
    } else {
      PlainChars([c], t, acc);
    }
  }

  lemma {:induction false} EscapedParses(s: string, rest: string, acc: string)
    ensures ParseChars(EscapeAll(s) + "\"" + rest, acc) == Got(acc + Mangled(s), rest)
    decreases |s|
  {
    hide *;
    if s == [] {
      ClosingQuote(rest, acc);
    } else {
      var c, t := s[0], EscapeAll(s[1..]) + "\"" + rest;
      FirstChar(s);
      EscapeParses(c, t, acc);
      EscapedParses(s[1..], rest, acc + Back(c));
      Regroup(Escape(c), EscapeAll(s[1..]), "\"", rest);
      assert acc + Back(c) + Mangled(s[1..]) == acc + (Back(c) + Mangled(s[1..]));
    }
  }

  lemma {:induction false} ClosingQuote(rest: string, acc: string)
    ensures ParseChars(EscapeAll([]) + "\"" + rest, acc) == Got(acc + Mangled([]), rest)
  {
    var t := "\"" + rest;
    assert EscapeAll([]) + "\"" + rest == t && t[0] == '"' && t[1..] == rest;
    assert acc + Mangled([]) == acc;
  }

  lemma {:induction false} FirstChar(s: string)
    requires s != []
    ensures EscapeAll(s) == Escape(s[0]) + EscapeAll(s[1..]) && Mangled(s) == Back(s[0]) + Mangled(s[1..])
  {
  }

  lemma {:induction false} Regroup(a: string, b: string, c: string, d: string)
    ensures a + b + c + d == a + (b + c + d)
  {
  }

  lemma {:induction false} StringParses(s: string, rest: string)
    ensures ParseString(StringText(s) + rest) == Got(Mangled(s), rest)
  {
    hide ParseChars, EscapeAll;
    var u := EscapeAll(s) + "\"" + rest;
    EscapedParses(s, rest, []);
    assert StringText(s) + rest == "\"" + u;
    ExpectAt('"', u);
    assert [] + Mangled(s) == Mangled(s);
  }

  lemma {:induction false} ExpectAt(c: char, t: string)
    requires !IsWhitespace(c)
    ensures SkipWs([c] + t) == [c] + t && Expect([c] + t, c) == Got((), t)
  {
    assert ([c] + t)[1..] == t;
  }

  lemma {:induction false} DelimiterAt(t: string, close: char)
    requires close != ',' && !IsWhitespace(close)
    ensures Delimiter("," + t, close) == Got(true, t) && Delimiter([close] + t, close) == Got(false, t)
  {
    ExpectAt(',', t);
    ExpectAt(close, t);
    assert ("," + t)[1..] == t && ([close] + t)[1..] == t;
  }

  /** Commas and closing brackets delimit and are recognised as such. */
  lemma {:induction false} Delimited<F>(v: Json<F>, t: string)
    ensures Delimits(v, "," + t) && Delimits(v, "]" + t) && Delimits(v, "}" + t)
    ensures Delimiter("," + t, ']') == Got(true, t) && Delimiter("]" + t, ']') == Got(false, t)
    ensures Delimiter("," + t, '}') == Got(true, t) && Delimiter("}" + t, '}') == Got(false, t)
  {
    DelimiterAt(t, ']');
    DelimiterAt(t, '}');
  }

  /** Reading back changes exactly the strings that hold a lossy character, and removes all of those. */
  lemma {:induction false} MangledIff(s: string)
    ensures Clean(Mangled(s))
    ensures Mangled(s) == s <==> Clean(s)
    ensures !Clean(s) ==> |Mangled(s)| > |s|
    decreases |s|
  {
    if s != [] {
      var c, t := s[0], s[1..];
      MangledIff(t);
      EscapeIsClean(c);
      var back := Back(c);
      assert s == [c] + t;
      assert Clean(s) <==> !Lossy(c) && Clean(t);
      assert Clean(back + Mangled(t));
    }
  }

  lemma {:induction false} EscapeIsClean(c: char)
    ensures Clean(Escape(c))
    ensures Lossy(c) ==> |Escape(c)| > 1
  {
    if Lossy(c) && c != '\r' {
      Hex4IsPlain(c as nat);
    }
  }

  // ----- numbers -----

  lemma {:induction false} ScansTo(t: string, i: nat, k: nat)
    requires i <= k <= |t|
    requires forall j :: i <= j < k ==> Takes(t, j)
    requires k < |t| ==> !Takes(t, k)
    ensures NumberEnd(t, i) == k
    decreases k - i
  {
    if i < k {
      ScansTo(t, i + 1, k);
    }
  }

  lemma {:induction false} NumeralParses<F(!new)>(D: Doubles<F>, s: string, rest: string)
    requires IsNumeral(s)
    requires rest != [] ==> !IsNumberChar(rest[0])
    ensures ParseNumber(D, s + rest)
      == match D.read(s) case None => Fail(BadNumber(s)) case Some(x) => Got(Number(x), rest)
  {
    var t := s + rest;
    var i := NumberStart(t);
    assert i <= |s|;
    forall j | i <= j < |s| ensures Takes(t, j) {
      assert t[j] == s[j];
    }
    ScansTo(t, i, |s|);
    assert t[..|s|] == s && t[|s|..] == rest;
  }

  lemma {:induction false} DecimalIsNumeral(i: int)
    ensures IsNumeral(Decimal(i))
  {
    DigitsRead(if i < 0 then -i else i, 10);
  }

  lemma {:induction false} NumberIsNumeral<F(!new)>(D: Doubles<F>, x: F)
    requires Lawful(D) && D.finite(x)
    ensures IsNumeral(NumberText(D, x)) && D.read(NumberText(D, x)) == Some(Stored(D, x))
  {
    hide Decimal, IsNumeral;
    if Integral(D, x) {
      DecimalIsNumeral(D.toI64(x));
    }
  }

  // ----- values -----

  /** The first character of printed text decides the parser's branch. */
  lemma {:induction false} TextStarts<F(!new)>(D: Doubles<F>, v: Json<F>)
    requires Lawful(D) && AllFinite(D, v)
    ensures Text(D, v) != [] && !IsWhitespace(Text(D, v)[0])
    ensures Text(D, v)[0] != ']' && Text(D, v)[0] != '}'
  {
    if v.Number? {
      NumberIsNumeral(D, v.n);
    }
  }

  lemma {:induction false} NumberParses<F(!new)>(D: Doubles<F>, x: F, rest: string)
    requires Lawful(D) && D.finite(x)
    requires rest != [] ==> !IsNumberChar(rest[0])
    ensures ParseValue(D, NumberText(D, x) + rest) == Got(Number(Stored(D, x)), rest)
  {
    hide NumberText, ParseNumber, Lawful;
    var s := NumberText(D, x);
    NumberIsNumeral(D, x);
    NumeralParses(D, s, rest);
    var t := s + rest;
    assert t[0] == s[0] && (s[0] == '-' || IsDigit(s[0]));
    assert SkipWs(t) == t;
  }

  lemma {:induction false} LiteralParses<F(!new)>(D: Doubles<F>, v: Json<F>, rest: string)
    requires v.Null? || v.Bool?
    ensures ParseValue(D, Text(D, v) + rest) == Got(v, rest)
  {
    var s := Text(D, v);
    var t := s + rest;
    assert SkipWs(t) == t;
    assert t[..|s|] == s && t[|s|..] == rest;
    assert s <= t;
    if v == Bool(false) { assert t[0] == 'f'; assert !("true" <= t); }
  }

  /** The parser takes exactly the printed text and returns what reading back makes of the value. */
  lemma {:induction false} TextParses<F(!new)>(D: Doubles<F>, v: Json<F>, rest: string)
    requires Lawful(D) && AllFinite(D, v) && Delimits(v, rest)
    ensures ParseValue(D, Text(D, v) + rest) == Got(ReadBack(D, v), rest)
    decreases v, 1
  {
    hide Lawful, ParseArray, ParseObject, ParseNumber, ParseString, StringText, NumberText, ItemsText, EntriesText;
    match v {
      case Null => LiteralParses(D, v, rest);
      case Bool(_) => LiteralParses(D, v, rest);
      case Number(x) => NumberParses(D, x, rest);
      case Str(s) =>
        StringParses(s, rest);
        StringOpens(s, rest);
      case Array(items) =>
        ArrayParses(D, items, rest);
        var u := ItemsText(D, items) + "]" + rest;
        assert Text(D, v) + rest == "[" + u;
        ExpectAt('[', u);
      case Object(entries) =>
        ObjectParses(D, entries, rest);
        var u := EntriesText(D, entries) + "}" + rest;
        assert Text(D, v) + rest == "{" + u;
        ExpectAt('{', u);
    }
  }

  lemma {:induction false} StringOpens(s: string, rest: string)
    ensures SkipWs(StringText(s) + rest) == StringText(s) + rest && (StringText(s) + rest)[0] == '"'
  {
  }

  lemma {:induction false} ArrayParses<F(!new)>(D: Doubles<F>, items: seq<Json<F>>, rest: string)
    requires Lawful(D) && forall i :: 0 <= i < |items| ==> AllFinite(D, items[i])
    ensures ParseArray(D, "[" + (ItemsText(D, items) + "]" + rest)) == Got(Array(ItemsBack(D, items)), rest)
    decreases items, 2
  {
    hide Lawful, ParseItems, Text;
    var u := ItemsText(D, items) + "]" + rest;
    ExpectAt('[', u);
    if items == [] {
      assert u == "]" + rest;
      ExpectAt(']', rest);
    } else {
      TextStarts(D, items[0]);
      assert u[0] == Text(D, items[0])[0];
      assert SkipWs(u) == u;
      ItemsParse(D, items, rest, []);
      assert [] + ItemsBack(D, items) == ItemsBack(D, items);
    }
  }

  lemma {:induction false} ItemsParse<F(!new)>(D: Doubles<F>, items: seq<Json<F>>, rest: string, acc: seq<Json<F>>)
    requires Lawful(D) && items != [] && FiniteItems(D, items)
    ensures ParseItems(D, ItemsText(D, items) + "]" + rest, acc) == Got(Array(acc + ItemsBack(D, items)), rest)
    decreases items, 1
  {
    hide *;
    FiniteItemsTail(D, items);
    var x, xs, u := items[0], items[1..], ItemsText(D, items[1..]) + "]" + rest;
    ItemsCons(D, items);
    Delimited(x, if xs == [] then rest else u);
    if xs == [] {
      TextParses(D, x, "]" + rest);
      ItemsStep(D, Text(D, x) + ("]" + rest), acc, ReadBack(D, x), "]" + rest, false, rest);
      Group(Text(D, x), "]", rest);
    } else {
      TextParses(D, x, "," + u);
      ItemsStep(D, Text(D, x) + ("," + u), acc, ReadBack(D, x), "," + u, true, u);
      GroupMore(Text(D, x), ItemsText(D, xs), "]", rest);
      ItemsParse(D, xs, rest, acc + [ReadBack(D, x)]);
    }
    assert acc + [ReadBack(D, x)] + ItemsBack(D, xs) == acc + ([ReadBack(D, x)] + ItemsBack(D, xs));
  }

  predicate FiniteItems<F>(D: Doubles<F>, items: seq<Json<F>>) {
    forall i :: 0 <= i < |items| ==> AllFinite(D, items[i])
  }

  lemma {:induction false} FiniteItemsTail<F>(D: Doubles<F>, items: seq<Json<F>>)
    requires FiniteItems(D, items) && items != []
    ensures FiniteItems(D, items[1..]) && AllFinite(D, items[0])
  {
    hide AllFinite;
  }

  lemma {:induction false} ItemsCons<F>(D: Doubles<F>, items: seq<Json<F>>)
    requires items != []
    ensures ItemsText(D, items)
      == if |items| == 1 then Text(D, items[0]) else Text(D, items[0]) + "," + ItemsText(D, items[1..])
    ensures ItemsBack(D, items) == [ReadBack(D, items[0])] + ItemsBack(D, items[1..])
    ensures |items| == 1 ==> ItemsBack(D, items) == [ReadBack(D, items[0])]
  {
    hide Text, ReadBack;
  }

  /** One element and what follows it. */
  lemma {:induction false} ItemsStep<F>(D: Doubles<F>, t: string, acc: seq<Json<F>>, x: Json<F>, t1: string,
          more: bool, u: string)
    requires ParseValue(D, t) == Got(x, t1) && Delimiter(t1, ']') == Got(more, u)
    ensures ParseItems(D, t, acc) == if more then ParseItems(D, u, acc + [x]) else Got(Array(acc + [x]), u)
  {
    hide ParseValue, Delimiter;
  }

  lemma {:induction false} ObjectParses<F(!new)>(D: Doubles<F>, entries: seq<(string, Json<F>)>, rest: string)
    requires Lawful(D) && forall i :: 0 <= i < |entries| ==> AllFinite(D, entries[i].1)
    ensures ParseObject(D, "{" + (EntriesText(D, entries) + "}" + rest)) == Got(Object(EntriesBack(D, entries)), rest)
    decreases entries, 2
  {
    hide Lawful, ParseEntries, Text;
    var u := EntriesText(D, entries) + "}" + rest;
    ExpectAt('{', u);
    if entries == [] {
      assert u == "}" + rest;
      ExpectAt('}', rest);
    } else {
      EntriesOpen(D, entries, rest);
      EntriesParse(D, entries, rest, []);
      assert [] + EntriesBack(D, entries) == EntriesBack(D, entries);
    }
  }

  /** A printed entry list starts with a key's quote. */
  lemma {:induction false} EntriesOpen<F>(D: Doubles<F>, entries: seq<(string, Json<F>)>, rest: string)
    requires entries != []
    ensures var u := EntriesText(D, entries) + "}" + rest; SkipWs(u) == u && u[0] == '"'
  {
    hide EntriesText, EntryText;
    var u := EntriesText(D, entries) + "}" + rest;
    FirstEntry(D, entries);
    assert u[0] == EntriesText(D, entries)[0];
  }

  lemma {:induction false} FirstEntry<F>(D: Doubles<F>, entries: seq<(string, Json<F>)>)
    requires entries != []
    ensures EntriesText(D, entries) != [] && EntriesText(D, entries)[0] == '"'
  {
    hide Text, EscapeAll;
    assert EntryText(D, entries[0])[0] == '"';
  }

  lemma {:induction false} EntryParses<F(!new)>(D: Doubles<F>, e: (string, Json<F>), rest: string)
    requires Lawful(D) && AllFinite(D, e.1) && Delimits(e.1, rest)
    ensures ParseEntry(D, EntryText(D, e) + rest) == Got(EntryBack(D, e), rest)
    decreases e, 2
  {
    hide Lawful, ParseValue, Text, StringText, ParseString;
    var u := Text(D, e.1) + rest;
    StringParses(e.0, ":" + u);
    StringOpens(e.0, ":" + u);
    assert EntryText(D, e) + rest == StringText(e.0) + (":" + u);
    ExpectAt(':', u);
    TextParses(D, e.1, rest);
  }

  lemma {:induction false} EntriesParse<F(!new)>(D: Doubles<F>, entries: seq<(string, Json<F>)>, rest: string,
          acc: seq<(string, Json<F>)>)
    requires Lawful(D) && entries != [] && FiniteEntries(D, entries)
    ensures ParseEntries(D, EntriesText(D, entries) + "}" + rest, acc)
      == Got(Object(acc + EntriesBack(D, entries)), rest)
    decreases entries, 1
  {
    hide *;
    FiniteTail(D, entries);
    var x, xs, u := entries[0], entries[1..], EntriesText(D, entries[1..]) + "}" + rest;
    EntriesCons(D, entries);
    Delimited(x.1, if xs == [] then rest else u);
    if xs == [] {
      EntryParses(D, x, "}" + rest);
      EntriesStep(D, EntryText(D, x) + ("}" + rest), acc, EntryBack(D, x), "}" + rest, false, rest);
      Group(EntryText(D, x), "}", rest);
    } else {
      EntryParses(D, x, "," + u);
      EntriesStep(D, EntryText(D, x) + ("," + u), acc, EntryBack(D, x), "," + u, true, u);
      GroupMore(EntryText(D, x), EntriesText(D, xs), "}", rest);
      EntriesParse(D, xs, rest, acc + [EntryBack(D, x)]);
    }
    assert acc + [EntryBack(D, x)] + EntriesBack(D, xs) == acc + ([EntryBack(D, x)] + EntriesBack(D, xs));
  }

  predicate FiniteEntries<F>(D: Doubles<F>, entries: seq<(string, Json<F>)>) {
    forall i :: 0 <= i < |entries| ==> AllFinite(D, entries[i].1)
  }

  lemma {:induction false} FiniteTail<F>(D: Doubles<F>, entries: seq<(string, Json<F>)>)
    requires FiniteEntries(D, entries) && entries != []
    ensures FiniteEntries(D, entries[1..]) && AllFinite(D, entries[0].1)
  {
    hide AllFinite;
  }

  lemma {:induction false} EntriesCons<F>(D: Doubles<F>, entries: seq<(string, Json<F>)>)
    requires entries != []
    ensures EntriesText(D, entries)
      == if |entries| == 1 then EntryText(D, entries[0])
         else EntryText(D, entries[0]) + "," + EntriesText(D, entries[1..])
    ensures EntriesBack(D, entries) == [EntryBack(D, entries[0])] + EntriesBack(D, entries[1..])
    ensures |entries| == 1 ==> EntriesBack(D, entries) == [EntryBack(D, entries[0])]
  {
    hide EntryText, EntryBack;
  }

  /** One element and what follows it. */
  lemma {:induction false} EntriesStep<F>(D: Doubles<F>, t: string, acc: seq<(string, Json<F>)>, x: (string, Json<F>),
          t1: string, more: bool, u: string)
    requires ParseEntry(D, t) == Got(x, t1) && Delimiter(t1, '}') == Got(more, u)
    ensures ParseEntries(D, t, acc) == if more then ParseEntries(D, u, acc + [x]) else Got(Object(acc + [x]), u)
  {
    hide ParseEntry, Delimiter;
  }

  // ----- what reading back keeps -----

  lemma {:induction false} ReadBackIff<F>(D: Doubles<F>, v: Json<F>)
    ensures ReadBack(D, v) == v <==> AllClean(D, v)
    decreases v, 1
  {
    match v {
      case Str(s) => MangledIff(s);
      case Array(items) => ItemsBackIff(D, items);
      case Object(entries) => EntriesBackIff(D, entries);
      case _ =>
    }
  }

  lemma {:induction false} ItemsBackIff<F>(D: Doubles<F>, items: seq<Json<F>>)
    ensures ItemsBack(D, items) == items <==> forall i :: 0 <= i < |items| ==> AllClean(D, items[i])
    decreases items, 0
  {
    hide ReadBack, AllClean;
    if items != [] {
      var v, vs := items[0], items[1..];
      ReadBackIff(D, v);
      ItemsBackIff(D, vs);
      assert items == [v] + vs;
      assert ItemsBack(D, items)[0] == ReadBack(D, v) && ItemsBack(D, items)[1..] == ItemsBack(D, vs);
      assert forall i :: 0 < i < |items| ==> items[i] == vs[i - 1];
    }
  }

  lemma {:induction false} EntriesBackIff<F>(D: Doubles<F>, entries: seq<(string, Json<F>)>)
    ensures EntriesBack(D, entries) == entries <==> forall i :: 0 <= i < |entries| ==>
      Clean(entries[i].0) && AllClean(D, entries[i].1)
    decreases entries, 0
  {
    hide ReadBack, AllClean, Mangled, Clean, EntryBack;
    if entries != [] {
      var e, es := entries[0], entries[1..];
      EntryBackIff(D, e);
      EntriesBackIff(D, es);
      assert entries == [e] + es;
      assert EntriesBack(D, entries)[0] == EntryBack(D, e) && EntriesBack(D, entries)[1..] == EntriesBack(D, es);
      assert forall i :: 0 < i < |entries| ==> entries[i] == es[i - 1];
    }
  }

  lemma {:induction false} EntryBackIff<F>(D: Doubles<F>, e: (string, Json<F>))
    ensures EntryBack(D, e) == e <==> Clean(e.0) && AllClean(D, e.1)
    decreases e, 0
  {
    MangledIff(e.0);
    ReadBackIff(D, e.1);
  }

  // ----- what is rejected -----

  /** Text holding NaN or an infinity is not accepted. */
  lemma {:induction false} NonFiniteFails<F(!new)>(D: Doubles<F>, v: Json<F>, rest: string)
    requires Lawful(D) && !AllFinite(D, v) && Delimits(v, rest)
    ensures ParseValue(D, Text(D, v) + rest).Fail?
    decreases v, 1
  {
    hide ParseArray, ParseObject, ItemsText, EntriesText;
    match v {
      case Number(x) => BadNumberFails(D, x, rest);
      case Array(items) =>
        var i :| 0 <= i < |items| && !AllFinite(D, items[i]);
        var u := ItemsText(D, items) + "]" + rest;
        BadArrayFails(D, items, i, rest);
        assert Text(D, v) + rest == "[" + u;
        ExpectAt('[', u);
      case Object(entries) =>
        var i :| 0 <= i < |entries| && !AllFinite(D, entries[i].1);
        var u := EntriesText(D, entries) + "}" + rest;
        BadObjectFails(D, entries, i, rest);
        assert Text(D, v) + rest == "{" + u;
        ExpectAt('{', u);
    }
  }

  lemma {:induction false} BadNumberFails<F(!new)>(D: Doubles<F>, x: F, rest: string)
    requires Lawful(D) && !D.finite(x)
    ensures NumberText(D, x) != [] && NumberText(D, x)[0] != ']' && !IsWhitespace(NumberText(D, x)[0])
    ensures ParseValue(D, NumberText(D, x) + rest).Fail?
  {
    var s := NumberText(D, x);
    var t := s + rest;
    assert s in {"NaN", "inf", "-inf"};
    assert SkipWs(t) == t;
    if s == "-inf" {
      assert t[0] == '-' && t[1] == 'i';
      ScansTo(t, 1, 1);
      assert t[..1] == "-";
    }
  }

  lemma {:induction false} BadStarts<F(!new)>(D: Doubles<F>, v: Json<F>)
    requires Lawful(D)
    ensures Text(D, v) != [] && !IsWhitespace(Text(D, v)[0]) && Text(D, v)[0] != ']'
  {
    if v.Number? && !D.finite(v.n) {
      BadNumberFails(D, v.n, []);
    } else if v.Number? {
      NumberIsNumeral(D, v.n);
    }
  }

  lemma {:induction false} BadArrayFails<F(!new)>(D: Doubles<F>, items: seq<Json<F>>, i: nat, rest: string)
    requires Lawful(D) && i < |items| && !AllFinite(D, items[i])
    ensures ParseArray(D, "[" + (ItemsText(D, items) + "]" + rest)).Fail?
    decreases items, 2
  {
    hide Lawful, ParseItems, Text;
    var u := ItemsText(D, items) + "]" + rest;
    ExpectAt('[', u);
    BadStarts(D, items[0]);
    assert u[0] == Text(D, items[0])[0];
    assert SkipWs(u) == u;
    BadItemsFail(D, items, i, rest, []);
  }

  lemma {:induction false} BadItemsFail<F(!new)>(D: Doubles<F>, items: seq<Json<F>>, i: nat, rest: string,
          acc: seq<Json<F>>)
    requires Lawful(D) && i < |items| && !AllFinite(D, items[i])
    ensures ParseItems(D, ItemsText(D, items) + "]" + rest, acc).Fail?
    decreases items, 1
  {
    hide Lawful, ParseValue, Text, ReadBack, AllFinite, Delimiter;
    var v, vs := items[0], items[1..];
    var u := if vs == [] then "]" + rest else "," + (ItemsText(D, vs) + "]" + rest);
    assert ItemsText(D, items) + "]" + rest == Text(D, v) + u;
    if !AllFinite(D, v) {
      NonFiniteFails(D, v, u);
    } else {
      TextParses(D, v, u);
      DelimiterAt(u[1..], ']');
      assert u == "," + u[1..];
      BadItemsFail(D, vs, i - 1, rest, acc + [ReadBack(D, v)]);
    }
  }

  lemma {:induction false} BadObjectFails<F(!new)>(D: Doubles<F>, entries: seq<(string, Json<F>)>, i: nat, rest: string)
    requires Lawful(D) && i < |entries| && !AllFinite(D, entries[i].1)
    ensures ParseObject(D, "{" + (EntriesText(D, entries) + "}" + rest)).Fail?
    decreases entries, 2
  {
    hide Lawful, ParseEntries, Text;
    var u := EntriesText(D, entries) + "}" + rest;
    ExpectAt('{', u);
    EntriesOpen(D, entries, rest);
    BadEntriesFail(D, entries, i, rest, []);
  }

  lemma {:induction false} BadEntriesFail<F(!new)>(D: Doubles<F>, entries: seq<(string, Json<F>)>, i: nat,
          rest: string, acc: seq<(string, Json<F>)>)
    requires Lawful(D) && i < |entries| && !AllFinite(D, entries[i].1)
    ensures ParseEntries(D, EntriesText(D, entries) + "}" + rest, acc).Fail?
    decreases entries, 1
  {
    hide Lawful, ParseEntry, EntryText, EntryBack, AllFinite, Delimiter;
    var e, es := entries[0], entries[1..];
    var u := if es == [] then "}" + rest else "," + (EntriesText(D, es) + "}" + rest);
    assert EntriesText(D, entries) + "}" + rest == EntryText(D, e) + u;
    if !AllFinite(D, e.1) {
      BadEntryFails(D, e, u);
    } else {
      EntryParses(D, e, u);
      DelimiterAt(u[1..], '}');
      assert u == "," + u[1..];
      BadEntriesFail(D, es, i - 1, rest, acc + [EntryBack(D, e)]);
    }
  }

  lemma {:induction false} BadEntryFails<F(!new)>(D: Doubles<F>, e: (string, Json<F>), rest: string)
    requires Lawful(D) && !AllFinite(D, e.1) && Delimits(e.1, rest)
    ensures ParseEntry(D, EntryText(D, e) + rest).Fail?
    decreases e, 2
  {
    hide Lawful, ParseValue, Text, StringText, ParseString;
    var u := Text(D, e.1) + rest;
    StringParses(e.0, ":" + u);
    StringOpens(e.0, ":" + u);
    assert EntryText(D, e) + rest == StringText(e.0) + (":" + u);
    ExpectAt(':', u);
    NonFiniteFails(D, e.1, rest);
  }

  // ----- the round trip -----

  /** Parsing printed text, whatever delimited text follows it. */
  lemma {:induction false} ParsePrinted<F(!new)>(D: Doubles<F>, v: Json<F>, rest: string)
    requires Lawful(D) && Delimits(v, rest)
    ensures Parse(D, Text(D, v) + rest) == if AllFinite(D, v) then Some(ReadBack(D, v)) else None
  {
    hide ParseValue, Text, ReadBack, AllFinite, Lawful;
    var t := Text(D, v) + rest;
    BadStarts(D, v);
    assert t[0] == Text(D, v)[0];
    assert SkipWs(t) == t;
    if AllFinite(D, v) {
      TextParses(D, v, rest);
    } else {
      NonFiniteFails(D, v, rest);
    }
  }

  /**
   The value comes back exactly when its numbers are finite and none is a
   negative zero, and its strings and keys hold no lossy character.
   */
  lemma {:induction false} RoundTripIff<F(!new)>(D: Doubles<F>, v: Json<F>)
    requires Lawful(D)
    ensures Parse(D, Text(D, v)) == Some(v) <==> AllFinite(D, v) && AllClean(D, v)
  {
    assert Delimits(v, []);
    hide *;
    ParsePrinted(D, v, []);
    assert Text(D, v) + [] == Text(D, v);
    ReadBackIff(D, v);
  }

  /** The shortest string that is lost: a carriage return is read back as a backslash and an r. */
  lemma {:induction false} CarriageReturnIsLost<F(!new)>(D: Doubles<F>)
    requires Lawful(D)
    ensures Parse(D, Text(D, Str("\r"))) == Some(Str("\\r")) && Parse(D, Text(D, Str("\r"))) != Some(Str("\r"))
  {
    hide Parse, Text, Lawful;
    var v: Json<F> := Str("\r");
    assert Delimits(v, []);
    ParsePrinted(D, v, []);
    assert Text(D, v) + [] == Text(D, v);
    assert Mangled("\r") == "\\r";
  }

  /** Integers, the negative zero and the three values that are not finite: the laws can be met. */
  datatype Num = Whole(i: int) | NegZero | NaN | Inf | NegInf

  function Nums(): Doubles<Num> {
    Doubles((x: Num, y: Num) => SameNum(x, y),
            (i: i64) => Whole(i),
            (x: Num) => NumToI64(x),
            (x: Num) => Finite(x),
            (x: Num) => NumText(x),
            (s: string) => ReadNum(s))
  }

  predicate Finite(x: Num) {
    x.Whole? || x.NegZero?
  }

  predicate IsZero(x: Num) {
    x == Whole(0) || x == NegZero
  }

  /** `==` on doubles. */
  predicate SameNum(x: Num, y: Num) {
    !x.NaN? && (x == y || (IsZero(x) && IsZero(y)))
  }

  /** The saturating cast. */
  function NumToI64(x: Num): i64 {
    match x
    case Whole(i) => if i < I64_MIN then I64_MIN else if i > I64_MAX then I64_MAX else i
    case NegZero => 0
    case NaN => 0
    case Inf => I64_MAX
    case NegInf => I64_MIN
  }

  function NumText(x: Num): string {
    match x
    case Whole(i) => Decimal(i)
    case NegZero => "-0"
    case NaN => "NaN"
    case Inf => "inf"
    case NegInf => "-inf"
  }

  function ReadNum(s: string): Option<Num> {
    if s == "NaN" then Some(NaN) else if s == "inf" then Some(Inf) else if s == "-inf" then Some(NegInf) else
    match ReadDecimal(s)
    case Some(i) => Some(Whole(i))
    case None => None
  }

  lemma {:induction false} NumsAreLawful()
    ensures Lawful(Nums())
  {
    hide Decimal, ReadDecimal, IsNumeral, ReadNum, NumText, NumToI64, SameNum, Finite;
    forall i: int ensures ReadNum(Decimal(i)) == Some(Whole(i)) && IsNumeral(Decimal(i)) {
      WholeReads(i);
    }
    forall i: i64 ensures NumToI64(Whole(i)) == i && Finite(Whole(i)) {
      WholeCasts(i);
    }
    forall x: Num, i: i64 ensures SameNum(x, Whole(i)) ==> x == Whole(i) || i == 0 {
      SameWhole(x, i);
    }
    forall x: Num
      ensures Finite(x) && !SameNum(x, Whole(NumToI64(x))) ==> IsNumeral(NumText(x)) && ReadNum(NumText(x)) == Some(x)
      ensures !Finite(x) ==> NumText(x) in {"NaN", "inf", "-inf"} {
      NumIsLawful(x);
    }
    MinusAlone();
  }

  lemma {:induction false} NumIsLawful(x: Num)
    ensures Finite(x) && !SameNum(x, Whole(NumToI64(x))) ==> IsNumeral(NumText(x)) && ReadNum(NumText(x)) == Some(x)
    ensures !Finite(x) ==> NumText(x) in {"NaN", "inf", "-inf"}
  {
    hide Decimal, ReadDecimal, IsNumeral, ReadNum;
    if x.Whole? { WholeReads(x.i); }
  }

  lemma {:induction false} WholeCasts(i: i64)
    ensures NumToI64(Whole(i)) == i && Finite(Whole(i))
  {
  }

  lemma {:induction false} SameWhole(x: Num, i: i64)
    ensures SameNum(x, Whole(i)) ==> x == Whole(i) || i == 0
  {
  }

  lemma {:induction false} WholeReads(i: int)
    ensures ReadNum(Decimal(i)) == Some(Whole(i)) && IsNumeral(Decimal(i))
  {
    hide Decimal, ReadDecimal;
    DecimalRoundTrip(i);
    DecimalIsNumeral(i);
    var s := Decimal(i);
    assert !IsNumeral("NaN") && !IsNumeral("inf") && !IsNumeral("-inf");
  }

  lemma {:induction false} MinusAlone()
    ensures ReadNum("-") == None
  {
  }

  /** A finite number that does not come back is a zero other than that of the integer 0. */
  lemma {:induction false} OnlyZeroIsLost<F(!new)>(D: Doubles<F>, x: F)
    requires Lawful(D) && Stored(D, x) != x
    ensures D.same(x, D.ofI64(0)) && x != D.ofI64(0) && Stored(D, x) == D.ofI64(0)
  {
  }

  /** The negative zero prints as `0` and comes back as the other one. */
  lemma {:induction false} NegativeZeroIsLost()
    ensures var D, v := Nums(), Number(NegZero);
      Text(D, v) == "0" && Parse(D, Text(D, v)) == Some(Number(Whole(0))) && Parse(D, Text(D, v)) != Some(v)
  {
    hide Parse, Lawful;
    var D, v := Nums(), Number(NegZero);
    NumsAreLawful();
    assert Delimits(v, []);
    ParsePrinted(D, v, []);
    assert Text(D, v) + [] == Text(D, v);
    assert Decimal(0) == "0";
  }
}
