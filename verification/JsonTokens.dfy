/** Single tokens of src/json.rs that the printer does not make, or makes and the parser does not read back. */
module JsonTokens {
  import opened Wrappers
  import opened Numerals
  import opened Json
  import opened JsonRoundTrip
  import opened JsonSpacing

  // ----- escapes, json.rs:199-207 -----

  /** The five escapes that are decoded; any other pair stands for itself. */
  lemma {:induction false} EscapesRead(c: char, rest: string)
    ensures var meant := if c == 'n' then [10 as char]
                         else if c == 't' then [9 as char]
                         else if c == '"' || c == '\\' || c == '/' then [c]
                         else ['\\', c];
      ParseString("\"" + (['\\', c] + ("\"" + rest))) == Got(meant, rest)
  {
    hide ParseChars, IsWhitespace;
    var u := ['\\', c] + ("\"" + rest);
    assert !IsWhitespace('"') by { NotSpaces(); }
    ExpectAt('"', u);
    assert "\\" + [c] + ("\"" + rest) == u;
    PairParses(c, "\"" + rest, []);
    Closes(rest, Unescape(c));
    assert [] + Unescape(c) == Unescape(c);
  }

  lemma {:induction false} Closes(rest: string, acc: string)
    ensures ParseChars("\"" + rest, acc) == Got(acc, rest)
  {
    assert ("\"" + rest)[1..] == rest;
  }

  // ----- control characters, json.rs:73-75 -----

  lemma {:induction false} LeadingZero(s: string, base: nat)
    requires ReadDigits(s, base).Some? && (base == 10 || base == 16)
    ensures ReadDigits("0" + s, base) == ReadDigits(s, base)
    decreases |s|
  {
    var t := "0" + s;
    if s == [] {
      assert t[..0] == [] && t[0] == '0';
      assert ReadDigits([], base) == Some(0);
    } else {
      var n := |s| - 1;
      assert t[..|t| - 1] == "0" + s[..n] && t[|t| - 1] == s[n];
      LeadingZero(s[..n], base);
    }
  }

  /** Every other control character prints as a backslash, u and its code in four hexadecimal digits. */
  lemma {:induction false} ControlIsHex(c: char)
    requires c as int < 0x20 && c != '\n' && c != '\t' && c != '\r'
    ensures |Escape(c)| == 6 && Escape(c)[..2] == "\\u" && ReadDigits(Escape(c)[2..], 16) == Some(c as nat)
  {
    hide ReadDigits, Digits;
    var n := c as nat;
    Hex4IsPlain(n);
    DigitsRead(n, 16);
    assert Escape(c) == "\\u" + Hex4(n);
    assert Escape(c)[2..] == Hex4(n);
    LeadingZero(Hex(n), 16);
    LeadingZero("0" + Hex(n), 16);
    assert "0" + ("0" + Hex(n)) == "00" + Hex(n);
    if n < 16 {
      LeadingZero("00" + Hex(n), 16);
      assert "0" + ("00" + Hex(n)) == "000" + Hex(n);
    }
  }

  // ----- numbers, json.rs:216-233 -----

  predicate AllDigits(s: string) {
    s != [] && forall i :: 0 <= i < |s| ==> '0' <= s[i] <= '9'
  }

  predicate Sign(s: string) {
    s == "" || s == "+" || s == "-"
  }

  /** A number as JSON writes it: an integer part, then perhaps a fraction and an exponent. */
  ghost predicate IsJsonNumber(s: string) {
    exists minus, whole, fraction, exponent ::
      && s == minus + whole + fraction + exponent
      && (minus == "" || minus == "-") && AllDigits(whole) && IsFraction(fraction) && IsExponent(exponent)
  }

  ghost predicate IsFraction(s: string) {
    s == "" || (s[0] == '.' && AllDigits(s[1..]))
  }

  ghost predicate IsExponent(s: string) {
    s == "" || ((s[0] == 'e' || s[0] == 'E') && exists k :: 1 <= k < |s| && Sign(s[1..k]) && AllDigits(s[k..]))
  }

  /** The scanner takes every such number whole, before a comma, a closing bracket, white space or the end. */
  lemma {:induction false} NumbersScan<F>(D: Doubles<F>, s: string, rest: string)
    requires IsJsonNumber(s)
    requires rest == "" || rest[0] == ',' || rest[0] == ']' || rest[0] == '}' || rest[0] in WHITE
    ensures ParseNumber(D, s + rest)
      == match D.read(s) case None => Fail(BadNumber(s)) case Some(x) => Got(Number(x), rest)
  {
    hide IsFraction, IsExponent, NumberEnd, Takes, AllDigits;
    var minus, whole, fraction, exponent :|
      && s == minus + whole + fraction + exponent
      && (minus == "" || minus == "-") && AllDigits(whole) && IsFraction(fraction) && IsExponent(exponent);
    var t, i, j, k := s + rest, |minus|, |minus + whole|, |minus + whole + fraction|;
    assert t == minus + whole + fraction + exponent + rest;
    assert t[i..j] == whole && t[j..k] == fraction && t[k..|s|] == exponent;
    StartAt(t, minus, whole);
    WholeTakes(t, i, whole);
    FractionTakes(t, j, fraction);
    ExponentTakes(t, k, exponent);
    if rest != [] {
      assert t[|s|] == rest[0];
      StopsAt(t, |s|);
    }
    ScansTo(t, i, |s|);
    assert t[..|s|] == s && t[|s|..] == rest;
  }

  lemma {:induction false} StartAt(t: string, minus: string, whole: string)
    requires (minus == "" || minus == "-") && AllDigits(whole) && minus + whole <= t
    ensures NumberStart(t) == |minus|
  {
    assert t[0] == (minus + whole)[0];
  }

  lemma {:induction false} StopsAt(t: string, k: nat)
    requires k < |t| && (t[k] == ',' || t[k] == ']' || t[k] == '}' || t[k] in WHITE)
    ensures !Takes(t, k)
  {
    WhiteIff(t[k]);
  }

  lemma {:induction false} WholeTakes(t: string, at: nat, w: string)
    requires AllDigits(w) && at + |w| <= |t| && t[at..at + |w|] == w
    ensures forall j :: at <= j < at + |w| ==> Takes(t, j)
  {
    forall j | at <= j < at + |w| ensures Takes(t, j) {
      assert t[j] == w[j - at];
    }
  }

  lemma {:induction false} FractionTakes(t: string, at: nat, f: string)
    requires IsFraction(f)
    ensures at + |f| <= |t| && t[at..at + |f|] == f ==> forall j :: at <= j < at + |f| ==> Takes(t, j)
  {
    if at + |f| <= |t| && t[at..at + |f|] == f {
      forall j | at <= j < at + |f| ensures Takes(t, j) {
        assert t[j] == f[j - at];
        if j > at { assert f[j - at] == f[1..][j - at - 1]; }
      }
    }
  }

  lemma {:induction false} ExponentTakes(t: string, at: nat, e: string)
    requires IsExponent(e)
    ensures at + |e| <= |t| && t[at..at + |e|] == e ==> forall j :: at <= j < at + |e| ==> Takes(t, j)
  {
    if e != "" && at + |e| <= |t| && t[at..at + |e|] == e {
      var k :| 1 <= k < |e| && Sign(e[1..k]) && AllDigits(e[k..]);
      forall j | at <= j < at + |e| ensures Takes(t, j) {
        assert t[j] == e[j - at] && t[at] == e[0];
        if j - at >= k {
          assert e[j - at] == e[k..][j - at - k];
        } else if j > at {
          assert e[1..k][j - at - 1] == e[j - at];
          assert j == at + 1;
        }
      }
    }
  }

  // ----- what no value starts with -----

  lemma {:induction false} NoValueStarts<F>(D: Doubles<F>, c: char, t: string)
    requires c !in WHITE && c != '"' && c != '{' && c != '[' && c != 't' && c != 'f' && c != 'n' && c != '-'
    requires !('0' <= c <= '9')
    ensures ParseValue(D, [c] + t) == Fail(UnexpectedChar(c)) && ParseValue(D, "") == Fail(UnexpectedEnd)
  {
    SkipStays([c] + t);
    assert SkipWs("") == "";
  }

  // ----- hexadecimal numbers of the build state -----

  /** A plus sign and capital letters are taken; no digits at all are not. */
  lemma {:induction false} HexForms(n: u64)
    ensures FromHex("+" + Hex(n)) == Some(n)
    ensures FromHex("") == None && FromHex("+") == None && FromHex("FF") == Some(255)
  {
    hide Digits, ReadDigits, DigitValue;
    DigitsRead(n, 16);
    assert ("+" + Hex(n))[1..] == Hex(n);
    CapitalF();
  }

  lemma {:induction false} CapitalF()
    ensures ReadDigits("FF", 16) == Some(255) && ReadDigits("+", 16) == None
  {
    assert "FF"[..1] == "F" && "F"[..0] == "" && "+"[..0] == "";
    assert ReadDigits("", 16) == Some(0);
    assert ReadDigits("F", 16) == Some(15);
  }

  // ----- printed text -----

  /** No raw control character. */
  predicate Printable(t: string) {
    forall i :: 0 <= i < |t| ==> t[i] as int >= 0x20
  }

  lemma {:induction false} EscapePrints(c: char)
    ensures Printable(Escape(c))
  {
    if c as int < 0x20 && c != '\n' && c != '\t' && c != '\r' { Hex4IsPlain(c as nat); }
  }

  lemma {:induction false} EscapesPrint(s: string)
    ensures Printable(EscapeAll(s)) && Printable(StringText(s))
    decreases |s|
  {
    hide Escape;
    if s != [] {
      EscapePrints(s[0]);
      EscapesPrint(s[1..]);
    }
  }

  lemma {:induction false} NumberPrints<F(!new)>(D: Doubles<F>, x: F)
    requires Lawful(D)
    ensures Printable(NumberText(D, x))
  {
    hide Decimal;
    if D.finite(x) {
      NumberIsNumeral(D, x);
      var t := NumberText(D, x);
      assert NumberStart(t) == 1 ==> t[0] == '-';
    }
  }

  /** Whatever a value holds, its text is free of control characters. */
  lemma {:induction false} TextPrints<F(!new)>(D: Doubles<F>, v: Json<F>)
    requires Lawful(D)
    ensures Printable(Text(D, v))
    decreases v, 1
  {
    hide Lawful, StringText, NumberText, ItemsText, EntriesText;
    match v {
      case Null =>
      case Bool(_) =>
      case Number(x) => NumberPrints(D, x);
      case Str(s) => EscapesPrint(s);
      case Array(items) => ItemsPrint(D, items);
      case Object(entries) => EntriesPrint(D, entries);
    }
  }

  lemma {:induction false} ItemsPrint<F(!new)>(D: Doubles<F>, items: seq<Json<F>>)
    requires Lawful(D)
    ensures Printable(ItemsText(D, items))
    decreases items, 0
  {
    hide Lawful, Text;
    if items != [] {
      TextPrints(D, items[0]);
      ItemsPrint(D, items[1..]);
    }
  }

  lemma {:induction false} EntriesPrint<F(!new)>(D: Doubles<F>, entries: seq<(string, Json<F>)>)
    requires Lawful(D)
    ensures Printable(EntriesText(D, entries))
    decreases entries, 0
  {
    hide Lawful, EntryText;
    if entries != [] {
      EntryPrints(D, entries[0]);
      EntriesPrint(D, entries[1..]);
    }
  }

  lemma {:induction false} EntryPrints<F(!new)>(D: Doubles<F>, e: (string, Json<F>))
    requires Lawful(D)
    ensures Printable(EntryText(D, e))
    decreases e, 0
  {
    hide Lawful, Text, StringText;
    EscapesPrint(e.0);
    TextPrints(D, e.1);
  }
}
