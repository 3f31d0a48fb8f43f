/**
 White space between the tokens of a JSON text (src/json.rs:164-168): the
 parser takes any amount of it in any gap.
 */
module JsonSpacing {
  import opened Wrappers
  import opened Numerals
  import opened Json
  import opened JsonRoundTrip

  /** What stands in each gap: gap k of the array or object reached by the path `at`. */
  type Gaps = (seq<nat>, nat) -> string

  ghost predicate Blank(gap: Gaps) {
    forall at, k, i :: 0 <= i < |gap(at, k)| ==> gap(at, k)[i] in WHITE
  }

  // ----- spaced text -----

  /** The tokens of v with the gaps between them, and then `rest`. */
  function Put<F>(D: Doubles<F>, v: Json<F>, gap: Gaps, at: seq<nat>, rest: string): string
    decreases v, 1
  {
    match v
    case Array(items) =>
      "[" + (if items == [] then gap(at, 0) + ("]" + rest) else PutItems(D, items, gap, at, 0, rest))
    case Object(entries) =>
      "{" + (if entries == [] then gap(at, 0) + ("}" + rest) else PutEntries(D, entries, gap, at, 0, rest))
    case _ => Text(D, v) + rest
  }

  /** The elements from number k on, each with a gap before and after it. */
  function PutItems<F>(D: Doubles<F>, items: seq<Json<F>>, gap: Gaps, at: seq<nat>, k: nat, rest: string): string
    requires items != []
    decreases items, 0
  {
    var more := if |items| == 1 then "]" + rest else "," + PutItems(D, items[1..], gap, at, k + 1, rest);
    gap(at, 2 * k) + Put(D, items[0], gap, at + [k], gap(at, 2 * k + 1) + more)
  }

  function PutEntries<F>(D: Doubles<F>, entries: seq<(string, Json<F>)>, gap: Gaps, at: seq<nat>, k: nat,
          rest: string): string
    requires entries != []
    decreases entries, 0
  {
    var more := if |entries| == 1 then "}" + rest else "," + PutEntries(D, entries[1..], gap, at, k + 1, rest);
    PutEntry(D, entries[0], gap, at, k, more)
  }

  /** A key, a colon and a value, with a gap before and after each. */
  function PutEntry<F>(D: Doubles<F>, e: (string, Json<F>), gap: Gaps, at: seq<nat>, k: nat, more: string): string
    decreases e, 0
  {
    gap(at, 4 * k) + (StringText(e.0) + (gap(at, 4 * k + 1) + (":" + (gap(at, 4 * k + 2)
      + Put(D, e.1, gap, at + [k], gap(at, 4 * k + 3) + more)))))
  }

  // ----- gaps are skipped -----

  predicate AllWhite(g: string) {
    forall i :: 0 <= i < |g| ==> g[i] in WHITE
  }

  lemma {:induction false} SkipGap(g: string, t: string)
    requires AllWhite(g)
    ensures SkipWs(g + t) == SkipWs(t)
    decreases |g|
  {
    hide IsWhitespace;
    if g == [] {
      assert g + t == t;
    } else {
      WhiteIff(g[0]);
      SkipGap(g[1..], t);
      assert (g + t)[0] == g[0] && (g + t)[1..] == g[1..] + t;
    }
  }

  lemma {:induction false} SkipStays(t: string)
    requires t != [] && t[0] !in WHITE
    ensures SkipWs(t) == t
  {
    WhiteIff(t[0]);
  }

  lemma {:induction false} ValueAfterGap<F>(D: Doubles<F>, g: string, t: string)
    requires AllWhite(g)
    ensures ParseValue(D, g + t) == ParseValue(D, t)
  {
    hide ParseString, ParseObject, ParseArray, ParseBool, ParseNull, ParseNumber, SkipWs;
    SkipGap(g, t);
  }

  lemma {:induction false} DelimiterAfterGap(g: string, t: string, close: char)
    requires AllWhite(g)
    ensures Delimiter(g + t, close) == Delimiter(t, close)
  {
    hide SkipWs;
    SkipGap(g, t);
  }

  /** What follows a value never continues a number. */
  lemma {:induction false} GapDelimits<F>(v: Json<F>, g: string, t: string)
    requires AllWhite(g) && t != [] && (t[0] == ',' || t[0] == ']' || t[0] == '}')
    ensures Delimits(v, g + t)
  {
    if g != [] {
      WhiteIff(g[0]);
      assert (g + t)[0] == g[0];
    }
  }

  /** The delimiter after a value and a gap. */
  lemma {:induction false} NextDelimiter(g: string, t: string, close: char)
    requires AllWhite(g) && (close == ']' || close == '}')
    ensures Delimiter(g + ("," + t), close) == Got(true, t)
    ensures Delimiter(g + ([close] + t), close) == Got(false, t)
  {
    hide Delimiter, IsWhitespace;
    assert !IsWhitespace(']') && !IsWhitespace('}') by { WhiteIff(']'); WhiteIff('}'); }
    DelimiterAfterGap(g, "," + t, close);
    DelimiterAfterGap(g, [close] + t, close);
    DelimiterAt(t, close);
  }

  // ----- spaced text is read as the plain text is -----

  lemma {:induction false} BlankAt(gap: Gaps, at: seq<nat>, k: nat)
    requires Blank(gap)
    ensures AllWhite(gap(at, k))
  {
  }

  lemma {:induction false} PutStarts<F(!new)>(D: Doubles<F>, v: Json<F>, gap: Gaps, at: seq<nat>, rest: string)
    requires Lawful(D) && AllFinite(D, v)
    ensures var t := Put(D, v, gap, at, rest); t != [] && t[0] !in WHITE && t[0] != ']' && t[0] != '}'
  {
    hide Lawful, IsWhitespace;
    WhiteIff('[');
    WhiteIff('{');
    assert !IsWhitespace('[') && !IsWhitespace('{') by { NotSpaces(); }
    if !v.Array? && !v.Object? {
      TextStarts(D, v);
      WhiteIff(Text(D, v)[0]);
    }
  }

  lemma {:induction false} NotSpaces()
    ensures !IsWhitespace('[') && !IsWhitespace('{') && !IsWhitespace('"') && !IsWhitespace(':')
    ensures !IsWhitespace(']') && !IsWhitespace('}')
  {
  }

  /**
   Whatever white space stands in the gaps, before the value and between its
   tokens, the parser takes exactly the spaced text and returns what it
   returns for the printed text.
   */
  lemma {:induction false} SpacedParses<F(!new)>(D: Doubles<F>, v: Json<F>, gap: Gaps, before: string, rest: string)
    requires Lawful(D) && AllFinite(D, v) && Delimits(v, rest) && Blank(gap) && AllWhite(before)
    ensures ParseValue(D, before + Put(D, v, gap, [], rest)) == Got(ReadBack(D, v), rest)
    ensures ParseValue(D, Text(D, v) + rest) == Got(ReadBack(D, v), rest)
    ensures Parse(D, before + Put(D, v, gap, [], rest)) == Parse(D, Text(D, v) + rest) == Some(ReadBack(D, v))
  {
    hide Lawful, ParseValue, Put, Text, AllFinite, ReadBack, SkipWs;
    var t := Put(D, v, gap, [], rest);
    PutParses(D, v, gap, [], rest);
    ValueAfterGap(D, before, t);
    SkipGap(before, t);
    PutStarts(D, v, gap, [], rest);
    SkipStays(t);
    TextParses(D, v, rest);
    ParsePrinted(D, v, rest);
  }

  lemma {:induction false} PutParses<F(!new)>(D: Doubles<F>, v: Json<F>, gap: Gaps, at: seq<nat>, rest: string)
    requires Lawful(D) && AllFinite(D, v) && Delimits(v, rest) && Blank(gap)
    ensures ParseValue(D, Put(D, v, gap, at, rest)) == Got(ReadBack(D, v), rest)
    decreases v, 1
  {
    hide Lawful, ParseArray, ParseObject, ParseNumber, ParseString, StringText, NumberText, PutItems, PutEntries,
      IsWhitespace, Blank;
    NotSpaces();
    match v {
      case Array(items) =>
        ArrayPut(D, items, gap, at, rest);
        var u := if items == [] then gap(at, 0) + ("]" + rest) else PutItems(D, items, gap, at, 0, rest);
        ExpectAt('[', u);
      case Object(entries) =>
        ObjectPut(D, entries, gap, at, rest);
        var u := if entries == [] then gap(at, 0) + ("}" + rest) else PutEntries(D, entries, gap, at, 0, rest);
        ExpectAt('{', u);
      case _ => TextParses(D, v, rest);
    }
  }

  lemma {:induction false} ArrayPut<F(!new)>(D: Doubles<F>, items: seq<Json<F>>, gap: Gaps, at: seq<nat>, rest: string)
    requires Lawful(D) && FiniteItems(D, items) && Blank(gap)
    ensures var u := if items == [] then gap(at, 0) + ("]" + rest) else PutItems(D, items, gap, at, 0, rest);
      ParseArray(D, "[" + u) == Got(Array(ItemsBack(D, items)), rest)
    decreases items, 2
  {
    hide Lawful, ParseItems, Put, IsWhitespace, PutItems, SkipWs, Blank, AllWhite;
    NotSpaces();
    BlankAt(gap, at, 0);
    var u := if items == [] then gap(at, 0) + ("]" + rest) else PutItems(D, items, gap, at, 0, rest);
    ExpectAt('[', u);
    if items == [] {
      SkipGap(gap(at, 0), "]" + rest);
      ExpectAt(']', rest);
    } else {
      ItemsOpen(D, items, gap, at, rest);
      ItemsPut(D, items, gap, at, 0, SkipWs(u), rest, []);
      assert [] + ItemsBack(D, items) == ItemsBack(D, items);
    }
  }

  /** The first element stands after a gap and is no closing bracket. */
  lemma {:induction false} ItemsOpen<F(!new)>(D: Doubles<F>, items: seq<Json<F>>, gap: Gaps, at: seq<nat>, rest: string)
    requires Lawful(D) && items != [] && FiniteItems(D, items) && Blank(gap)
    ensures var u := SkipWs(PutItems(D, items, gap, at, 0, rest)); u != [] && u[0] != ']'
    ensures SkipWs(PutItems(D, items, gap, at, 0, rest)) == SkipWs(SkipWs(PutItems(D, items, gap, at, 0, rest)))
  {
    hide Lawful, Put, IsWhitespace, SkipWs, Blank, AllWhite;
    FiniteItemsTail(D, items);
    BlankAt(gap, at, 0);
    var more := if |items| == 1 then "]" + rest else "," + PutItems(D, items[1..], gap, at, 1, rest);
    var t := Put(D, items[0], gap, at + [0], gap(at, 1) + more);
    PutStarts(D, items[0], gap, at + [0], gap(at, 1) + more);
    SkipGap(gap(at, 0), t);
    SkipStays(t);
  }

  lemma {:induction false} ItemsPut<F(!new)>(D: Doubles<F>, items: seq<Json<F>>, gap: Gaps, at: seq<nat>, k: nat,
          t: string, rest: string, acc: seq<Json<F>>)
    requires Lawful(D) && items != [] && FiniteItems(D, items) && Blank(gap)
    requires SkipWs(t) == SkipWs(PutItems(D, items, gap, at, k, rest))
    ensures ParseItems(D, t, acc) == Got(Array(acc + ItemsBack(D, items)), rest)
    decreases items, 1
  {
    hide *;
    FiniteItemsTail(D, items);
    BlankAt(gap, at, 2 * k);
    BlankAt(gap, at, 2 * k + 1);
    var x, xs, g := items[0], items[1..], gap(at, 2 * k + 1);
    var tail := if xs == [] then rest else PutItems(D, xs, gap, at, k + 1, rest);
    var more := if xs == [] then "]" + rest else "," + tail;
    PutItemsStep(D, items, gap, at, k, rest);
    ItemsCons(D, items);
    GapDelimits(x, g, more);
    PutParses(D, x, gap, at + [k], g + more);
    ValueAfterGap(D, gap(at, 2 * k), Put(D, x, gap, at + [k], g + more));
    SameSkip(D, t, PutItems(D, items, gap, at, k, rest));
    NextDelimiter(g, tail, ']');
    ItemsStep(D, t, acc, ReadBack(D, x), g + more, xs != [], tail);
    if xs != [] {
      ItemsPut(D, xs, gap, at, k + 1, tail, rest, acc + [ReadBack(D, x)]);
    }
    assert acc + [ReadBack(D, x)] + ItemsBack(D, xs) == acc + ([ReadBack(D, x)] + ItemsBack(D, xs));
  }

  /** A value is read from where white space ends. */
  lemma {:induction false} SameSkip<F>(D: Doubles<F>, t: string, u: string)
    requires SkipWs(t) == SkipWs(u)
    ensures ParseValue(D, t) == ParseValue(D, u)
  {
    hide ParseString, ParseObject, ParseArray, ParseBool, ParseNull, ParseNumber, SkipWs;
  }

  lemma {:induction false} PutItemsStep<F>(D: Doubles<F>, items: seq<Json<F>>, gap: Gaps, at: seq<nat>, k: nat,
          rest: string)
    requires items != []
    ensures var more := if items[1..] == [] then "]" + rest else "," + PutItems(D, items[1..], gap, at, k + 1, rest);
      PutItems(D, items, gap, at, k, rest)
        == gap(at, 2 * k) + Put(D, items[0], gap, at + [k], gap(at, 2 * k + 1) + more)
  {
    hide Put;
    assert items[1..] == [] <==> |items| == 1;
  }

  lemma {:induction false} ObjectPut<F(!new)>(D: Doubles<F>, entries: seq<(string, Json<F>)>, gap: Gaps, at: seq<nat>,
          rest: string)
    requires Lawful(D) && FiniteEntries(D, entries) && Blank(gap)
    ensures var u := if entries == [] then gap(at, 0) + ("}" + rest) else PutEntries(D, entries, gap, at, 0, rest);
      ParseObject(D, "{" + u) == Got(Object(EntriesBack(D, entries)), rest)
    decreases entries, 2
  {
    hide Lawful, ParseEntries, IsWhitespace, PutEntries, SkipWs, Blank, AllWhite;
    NotSpaces();
    BlankAt(gap, at, 0);
    var u := if entries == [] then gap(at, 0) + ("}" + rest) else PutEntries(D, entries, gap, at, 0, rest);
    ExpectAt('{', u);
    if entries == [] {
      SkipGap(gap(at, 0), "}" + rest);
      ExpectAt('}', rest);
    } else {
      EntriesOpen2(D, entries, gap, at, rest);
      EntriesPut(D, entries, gap, at, 0, SkipWs(u), rest, []);
      assert [] + EntriesBack(D, entries) == EntriesBack(D, entries);
    }
  }

  lemma {:induction false} EntriesOpen2<F>(D: Doubles<F>, entries: seq<(string, Json<F>)>, gap: Gaps, at: seq<nat>,
          rest: string)
    requires entries != [] && Blank(gap)
    ensures var u := SkipWs(PutEntries(D, entries, gap, at, 0, rest)); u != [] && u[0] != '}' && SkipWs(u) == u
  {
    hide Put, IsWhitespace, SkipWs, Blank, AllWhite;
    BlankAt(gap, at, 0);
    var more := if |entries| == 1 then "}" + rest else "," + PutEntries(D, entries[1..], gap, at, 1, rest);
    var t := StringText(entries[0].0) + (gap(at, 1) + (":" + (gap(at, 2)
      + Put(D, entries[0].1, gap, at + [0], gap(at, 3) + more))));
    assert t[0] == '"';
    assert t[0] !in WHITE by { NotSpaces(); WhiteIff('"'); }
    SkipGap(gap(at, 0), t);
    SkipStays(t);
  }

  lemma {:induction false} EntriesPut<F(!new)>(D: Doubles<F>, entries: seq<(string, Json<F>)>, gap: Gaps, at: seq<nat>,
          k: nat, t: string, rest: string, acc: seq<(string, Json<F>)>)
    requires Lawful(D) && entries != [] && FiniteEntries(D, entries) && Blank(gap)
    requires SkipWs(t) == SkipWs(PutEntries(D, entries, gap, at, k, rest))
    ensures ParseEntries(D, t, acc) == Got(Object(acc + EntriesBack(D, entries)), rest)
    decreases entries, 1
  {
    hide *;
    FiniteTail(D, entries);
    BlankAt(gap, at, 4 * k + 3);
    var x, xs, g := entries[0], entries[1..], gap(at, 4 * k + 3);
    var tail := if xs == [] then rest else PutEntries(D, xs, gap, at, k + 1, rest);
    var more := if xs == [] then "}" + rest else "," + tail;
    PutEntriesStep(D, entries, gap, at, k, rest);
    EntriesCons(D, entries);
    EntryPut(D, x, gap, at, k, t, more);
    NextDelimiter(g, tail, '}');
    EntriesStep(D, t, acc, EntryBack(D, x), g + more, xs != [], tail);
    if xs != [] {
      EntriesPut(D, xs, gap, at, k + 1, tail, rest, acc + [EntryBack(D, x)]);
    }
    assert acc + [EntryBack(D, x)] + EntriesBack(D, xs) == acc + ([EntryBack(D, x)] + EntriesBack(D, xs));
  }

  lemma {:induction false} PutEntriesStep<F>(D: Doubles<F>, entries: seq<(string, Json<F>)>, gap: Gaps, at: seq<nat>,
          k: nat, rest: string)
    requires entries != []
    ensures var more := if entries[1..] == [] then "}" + rest
                        else "," + PutEntries(D, entries[1..], gap, at, k + 1, rest);
      PutEntries(D, entries, gap, at, k, rest) == PutEntry(D, entries[0], gap, at, k, more)
  {
    hide PutEntry;
    assert entries[1..] == [] <==> |entries| == 1;
  }

  lemma {:induction false} EntryPut<F(!new)>(D: Doubles<F>, e: (string, Json<F>), gap: Gaps, at: seq<nat>, k: nat,
          t: string, more: string)
    requires Lawful(D) && AllFinite(D, e.1) && Blank(gap) && SkipWs(t) == SkipWs(PutEntry(D, e, gap, at, k, more))
    requires more != [] && (more[0] == ',' || more[0] == '}')
    ensures ParseEntry(D, t) == Got(EntryBack(D, e), gap(at, 4 * k + 3) + more)
    decreases e, 2
  {
    hide Lawful, ParseValue, Put, StringText, ParseString, SkipWs, IsWhitespace, Blank, AllWhite, AllFinite, ReadBack,
      Mangled, Expect;
    BlankAt(gap, at, 4 * k);
    BlankAt(gap, at, 4 * k + 1);
    BlankAt(gap, at, 4 * k + 2);
    BlankAt(gap, at, 4 * k + 3);
    var last := gap(at, 4 * k + 3) + more;
    var u := gap(at, 4 * k + 2) + Put(D, e.1, gap, at + [k], last);
    var colon := gap(at, 4 * k + 1) + (":" + u);
    SkipGap(gap(at, 4 * k), StringText(e.0) + colon);
    StringOpens(e.0, colon);
    StringParses(e.0, colon);
    SkipGap(gap(at, 4 * k + 1), ":" + u);
    assert !IsWhitespace(':') by { NotSpaces(); }
    ExpectAt(':', u);
    GapDelimits(e.1, gap(at, 4 * k + 3), more);
    PutParses(D, e.1, gap, at + [k], last);
    ValueAfterGap(D, gap(at, 4 * k + 2), Put(D, e.1, gap, at + [k], last));
  }

  // ----- without gaps -----

  function NoGaps(): Gaps {
    (_, _) => ""
  }

  lemma {:induction false} NoGapAt(at: seq<nat>, k: nat, t: string)
    ensures NoGaps()(at, k) + t == t
  {
  }

  /** With nothing in the gaps it is the printed text. */
  lemma {:induction false} PutIsText<F>(D: Doubles<F>, v: Json<F>, at: seq<nat>, rest: string)
    ensures Put(D, v, NoGaps(), at, rest) == Text(D, v) + rest
    decreases v, 1
  {
    hide *;
    match v {
      case Array(items) =>
        ArrayTexts(D, items, at, rest);
        if items != [] { PutItemsIsText(D, items, at, 0, rest); }
        Bracketed("[", ItemsText(D, items), "]", rest);
      case Object(entries) =>
        ObjectTexts(D, entries, at, rest);
        if entries != [] { PutEntriesIsText(D, entries, at, 0, rest); }
        Bracketed("{", EntriesText(D, entries), "}", rest);
      case _ => OtherText(D, v, at, rest);
    }
  }

  lemma {:induction false} Bracketed(a: string, b: string, c: string, d: string)
    ensures a + (b + c + d) == a + b + c + d
  {
  }

  lemma {:induction false} OtherText<F>(D: Doubles<F>, v: Json<F>, at: seq<nat>, rest: string)
    requires !v.Array? && !v.Object?
    ensures Put(D, v, NoGaps(), at, rest) == Text(D, v) + rest
  {
    hide Text, NoGaps;
  }

  lemma {:induction false} ArrayTexts<F>(D: Doubles<F>, items: seq<Json<F>>, at: seq<nat>, rest: string)
    ensures Text(D, Array(items)) == "[" + ItemsText(D, items) + "]"
    ensures Put(D, Array(items), NoGaps(), at, rest)
      == "[" + (if items == [] then ItemsText(D, items) + "]" + rest else PutItems(D, items, NoGaps(), at, 0, rest))
  {
    hide PutItems, NoGaps;
    NoGapAt(at, 0, "]" + rest);
    if items == [] { assert ItemsText(D, items) + "]" + rest == "]" + rest; }
  }

  lemma {:induction false} ObjectTexts<F>(D: Doubles<F>, entries: seq<(string, Json<F>)>, at: seq<nat>, rest: string)
    ensures Text(D, Object(entries)) == "{" + EntriesText(D, entries) + "}"
    ensures Put(D, Object(entries), NoGaps(), at, rest)
      == "{" + (if entries == [] then EntriesText(D, entries) + "}" + rest
                else PutEntries(D, entries, NoGaps(), at, 0, rest))
  {
    hide PutEntries, NoGaps;
    NoGapAt(at, 0, "}" + rest);
    if entries == [] { assert EntriesText(D, entries) + "}" + rest == "}" + rest; }
  }

  lemma {:induction false} PutItemsIsText<F>(D: Doubles<F>, items: seq<Json<F>>, at: seq<nat>, k: nat, rest: string)
    requires items != []
    ensures PutItems(D, items, NoGaps(), at, k, rest) == ItemsText(D, items) + "]" + rest
    decreases items, 0
  {
    hide *;
    var x, xs := items[0], items[1..];
    var more := if xs == [] then "]" + rest else "," + PutItems(D, xs, NoGaps(), at, k + 1, rest);
    PutItemsStep(D, items, NoGaps(), at, k, rest);
    ItemsCons(D, items);
    NoGapAt(at, 2 * k + 1, more);
    PutIsText(D, x, at + [k], more);
    NoGapAt(at, 2 * k, Text(D, x) + more);
    if xs == [] {
      Group(Text(D, x), "]", rest);
    } else {
      PutItemsIsText(D, xs, at, k + 1, rest);
      GroupMore(Text(D, x), ItemsText(D, xs), "]", rest);
    }
  }

  lemma {:induction false} PutEntriesIsText<F>(D: Doubles<F>, entries: seq<(string, Json<F>)>, at: seq<nat>, k: nat,
          rest: string)
    requires entries != []
    ensures PutEntries(D, entries, NoGaps(), at, k, rest) == EntriesText(D, entries) + "}" + rest
    decreases entries, 0
  {
    hide *;
    var x, xs := entries[0], entries[1..];
    var more := if xs == [] then "}" + rest else "," + PutEntries(D, xs, NoGaps(), at, k + 1, rest);
    PutEntriesStep(D, entries, NoGaps(), at, k, rest);
    EntriesCons(D, entries);
    PutEntryIsText(D, x, at, k, more);
    if xs == [] {
      Group(EntryText(D, x), "}", rest);
    } else {
      PutEntriesIsText(D, xs, at, k + 1, rest);
      GroupMore(EntryText(D, x), EntriesText(D, xs), "}", rest);
    }
  }

  lemma {:induction false} PutEntryIsText<F>(D: Doubles<F>, e: (string, Json<F>), at: seq<nat>, k: nat, more: string)
    ensures PutEntry(D, e, NoGaps(), at, k, more) == EntryText(D, e) + more
    decreases e, 0
  {
    hide Put, Text, StringText, NoGaps;
    var u := Put(D, e.1, NoGaps(), at + [k], more);
    NoGapAt(at, 4 * k + 3, more);
    PutIsText(D, e.1, at + [k], more);
    NoGapAt(at, 4 * k + 2, u);
    NoGapAt(at, 4 * k + 1, ":" + u);
    NoGapAt(at, 4 * k, StringText(e.0) + (":" + u));
  }
}
