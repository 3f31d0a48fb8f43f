/** The printer and the parser as src/json.rs runs them: a growing buffer, and a cursor over the characters. */
module JsonParsing {
  import opened Wrappers
  import opened Numerals
  import opened Json

  // ----- printing into a buffer -----

  method WriteString(s: string, buffer: string) returns (out: string)
    ensures out == buffer + StringText(s)
  {
    hide Escape;
    out := buffer + "\"";
    for i := 0 to |s|
      invariant out + EscapeAll(s[i..]) == buffer + "\"" + EscapeAll(s)
    {
      assert s[i..][1..] == s[i + 1..];
      out := out + Escape(s[i]);
    }
    assert out == buffer + "\"" + EscapeAll(s) by { assert EscapeAll(s[|s|..]) == []; }
    out := out + "\"";
  }

  method WriteTo<F>(D: Doubles<F>, v: Json<F>, buffer: string) returns (out: string)
    ensures out == buffer + Text(D, v)
    decreases v
  {
    match v {
      case Null => out := buffer + "null";
      case Bool(b) => out := buffer + if b then "true" else "false";
      case Number(n) => out := buffer + if Integral(D, n) then Decimal(D.toI64(n)) else D.show(n);
      case Str(s) => out := WriteString(s, buffer);
      case Array(items) => out := WriteArray(D, items, buffer);
      case Object(entries) => out := WriteObject(D, entries, buffer);
    }
  }

  /** What is still to print once `i` elements are done. */
  ghost function ItemsFrom<F>(D: Doubles<F>, items: seq<Json<F>>, i: nat): string
    requires i <= |items|
  {
    if i == 0 then ItemsText(D, items) else if i == |items| then "" else "," + ItemsText(D, items[i..])
  }

  method WriteArray<F>(D: Doubles<F>, items: seq<Json<F>>, buffer: string) returns (out: string)
    ensures out == buffer + ("[" + ItemsText(D, items) + "]")
    decreases items
  {
    hide Text;
    out := buffer + "[";
    assert items[0..] == items;
    for i := 0 to |items|
      invariant out + ItemsFrom(D, items, i) == buffer + "[" + ItemsText(D, items)
    {
      ghost var vs := items[i..];
      assert vs[0] == items[i] && vs[1..] == items[i + 1..];
      if i > 0 { out := out + ","; }
      out := WriteTo(D, items[i], out);
    }
    assert out == buffer + "[" + ItemsText(D, items);
    out := out + "]";
  }

  ghost function EntriesFrom<F>(D: Doubles<F>, entries: seq<(string, Json<F>)>, i: nat): string
    requires i <= |entries|
  {
    if i == 0 then EntriesText(D, entries) else if i == |entries| then "" else "," + EntriesText(D, entries[i..])
  }

  method WriteEntry<F>(D: Doubles<F>, e: (string, Json<F>), buffer: string) returns (out: string)
    ensures out == buffer + EntryText(D, e)
    decreases e
  {
    out := WriteString(e.0, buffer);
    out := out + ":";
    out := WriteTo(D, e.1, out);
  }

  method WriteObject<F>(D: Doubles<F>, entries: seq<(string, Json<F>)>, buffer: string) returns (out: string)
    ensures out == buffer + ("{" + EntriesText(D, entries) + "}")
    decreases entries
  {
    hide EntryText;
    out := buffer + "{";
    assert entries[0..] == entries;
    for i := 0 to |entries|
      invariant out + EntriesFrom(D, entries, i) == buffer + "{" + EntriesText(D, entries)
    {
      ghost var es := entries[i..];
      assert es[0] == entries[i] && es[1..] == entries[i + 1..];
      if i > 0 { out := out + ","; }
      out := WriteEntry(D, entries[i], out);
    }
    assert out == buffer + "{" + EntriesText(D, entries);
    out := out + "}";
  }

  // ----- parsing with a cursor -----

  datatype Result<+T> = Ok(value: T) | Err(error: JsonError)

  /** What the string scanner does with the character at `pos`. */
  lemma {:induction false} OneChar(chars: string, pos: nat, acc: string)
    requires pos < |chars|
    ensures var r, c := ParseChars(chars[pos..], acc), chars[pos];
      && (c == '"' ==> r == Got(acc, chars[pos + 1..]))
      && (c == '\\' && pos + 1 == |chars| ==> r == Fail(UnterminatedEscape))
      && (c == '\\' && pos + 1 < |chars| ==> r == ParseChars(chars[pos + 2..], acc + Unescape(chars[pos + 1])))
      && (c != '"' && c != '\\' ==> r == ParseChars(chars[pos + 1..], acc + [c]))
  {
    hide Unescape;
    var t := chars[pos..];
    assert t[0] == chars[pos] && t[1..] == chars[pos + 1..];
    if pos + 1 < |chars| {
      assert t[1] == chars[pos + 1] && t[2..] == chars[pos + 2..];
    }
  }

  lemma {:induction false} NoChars(acc: string)
    ensures ParseChars([], acc) == Fail(UnterminatedString)
  {
  }

  class JsonParser<F> {
    const D: Doubles<F>
    const chars: string
    var pos: nat

    ghost predicate Valid()
      reads this
    {
      pos <= |chars|
    }

    /** The text that is left. */
    ghost function Rest(): string
      requires Valid()
      reads this
    {
      chars[pos..]
    }

    /**
       The method's result and the text left are what the function on text says; an error leaves the
       cursor anywhere.
     */
    ghost predicate Agrees<T>(r: Result<T>, spec: Reply<T>)
      requires Valid()
      reads this
    {
      match spec
      case Got(v, rest) => r == Ok(v) && Rest() == rest
      case Fail(e) => r == Err(e)
    }

    constructor (D: Doubles<F>, input: string)
      ensures this.D == D && chars == input && Valid() && Rest() == input
    {
      this.D := D;
      chars := input;
      pos := 0;
    }

    method SkipWhitespace()
      requires Valid()
      modifies this`pos
      ensures Valid() && pos >= old(pos)
      ensures forall i :: old(pos) <= i < pos ==> chars[i] in WHITE
      ensures pos < |chars| ==> chars[pos] !in WHITE
      ensures Rest() == SkipWs(old(Rest()))
    {
      hide IsWhitespace;
      while pos < |chars| && IsWhitespace(chars[pos])
        invariant old(pos) <= pos <= |chars|
        invariant forall i :: old(pos) <= i < pos ==> chars[i] in WHITE
        invariant SkipWs(Rest()) == SkipWs(old(Rest()))
      {
        assert Rest()[1..] == chars[pos + 1..];
        WhiteIff(chars[pos]);
        pos := pos + 1;
      }
      if pos < |chars| { WhiteIff(chars[pos]); }
    }

    method ExpectChar(c: char) returns (r: Result<()>)
      requires Valid()
      modifies this`pos
      ensures Valid() && pos >= old(pos)
      ensures Agrees(r, Expect(old(Rest()), c))
    {
      SkipWhitespace();
      if pos == |chars| { return Err(UnexpectedEnd); }
      var got := chars[pos];
      assert Rest()[0] == got && Rest()[1..] == chars[pos + 1..];
      pos := pos + 1;
      r := if got == c then Ok(()) else Err(UnexpectedChar(got));
    }

    method ReadString() returns (r: Result<string>)
      requires Valid()
      modifies this`pos
      ensures Valid() && pos >= old(pos)
      ensures Agrees(r, ParseString(old(Rest())))
    {
      hide ParseChars, Expect;
      var open := ExpectChar('"');
      if open.Err? { return Err(open.error); }
      r := ReadChars();
    }

    /** The loop up to the closing quote. */
    method ReadChars() returns (r: Result<string>)
      requires Valid()
      modifies this`pos
      ensures Valid() && pos >= old(pos)
      ensures Agrees(r, ParseChars(old(Rest()), ""))
    {
      hide ParseChars, Unescape;
      var s := "";
      ghost var want := ParseChars(Rest(), "");
      while pos < |chars|
        invariant old(pos) <= pos <= |chars|
        invariant ParseChars(chars[pos..], s) == want
      {
        var c := chars[pos];
        OneChar(chars, pos, s);
        pos := pos + 1;
        if c == '"' { return Ok(s); }
        if c == '\\' {
          if pos == |chars| { return Err(UnterminatedEscape); }
          s := s + Unescape(chars[pos]);
          pos := pos + 1;
        } else {
          s := s + [c];
        }
      }
      assert chars[pos..] == [];
      NoChars(s);
      r := Err(UnterminatedString);
    }

    /** Move past the longest text that the number scanner takes. */
    method ScanNumber()
      requires Valid()
      modifies this`pos
      ensures Valid()
      ensures pos == old(pos) + NumberEnd(old(Rest()), NumberStart(old(Rest())))
    {
      var start := pos;
      ghost var t := Rest();
      if pos < |chars| && chars[pos] == '-' { pos := pos + 1; }
      while pos < |chars| && IsNumberChar(chars[pos])
        invariant start <= pos <= |chars|
        invariant NumberEnd(t, pos - start) == NumberEnd(t, NumberStart(t))
      {
        assert t[pos - start] == chars[pos];
        if (chars[pos] == '+' || chars[pos] == '-') && pos > start + 1 {
          var prev := chars[pos - 1];
          assert t[pos - start - 1] == prev;
          if prev != 'e' && prev != 'E' { break; }
        }
        pos := pos + 1;
      }
      assert pos < |chars| ==> t[pos - start] == chars[pos];
    }

    method ReadNumber() returns (r: Result<Json<F>>)
      requires Valid()
      modifies this`pos
      ensures Valid() && pos >= old(pos)
      ensures Agrees(r, ParseNumber(D, old(Rest())))
    {
      hide NumberEnd, NumberStart;
      var start := pos;
      ghost var t := Rest();
      ScanNumber();
      var text := chars[start..pos];
      assert text == t[..pos - start] && t[pos - start..] == Rest();
      var x := D.read(text);
      r := if x.Some? then Ok(Number(x.value)) else Err(BadNumber(text));
    }

    method ReadBool() returns (r: Result<Json<F>>)
      requires Valid()
      modifies this`pos
      ensures Valid() && pos >= old(pos)
      ensures Agrees(r, ParseBool(old(Rest())))
    {
      ghost var t := Rest();
      if "true" <= chars[pos..] {
        assert t[4..] == chars[pos + 4..];
        pos := pos + 4;
        r := Ok(Bool(true));
      } else if "false" <= chars[pos..] {
        assert t[5..] == chars[pos + 5..];
        pos := pos + 5;
        r := Ok(Bool(false));
      } else {
        r := Err(BadLiteral);
      }
    }

    method ReadNull() returns (r: Result<Json<F>>)
      requires Valid()
      modifies this`pos
      ensures Valid() && pos >= old(pos)
      ensures Agrees(r, ParseNull(old(Rest())))
    {
      ghost var t := Rest();
      if "null" <= chars[pos..] {
        assert t[4..] == chars[pos + 4..];
        pos := pos + 4;
        r := Ok(Null);
      } else {
        r := Err(BadLiteral);
      }
    }

    method ReadValue() returns (r: Result<Json<F>>)
      requires Valid()
      modifies this`pos
      ensures Valid() && pos >= old(pos)
      ensures Agrees(r, ParseValue(D, old(Rest())))
      decreases |chars| - pos, 2
    {
      hide ParseArray, ParseObject, ParseString, ParseBool, ParseNull, ParseNumber;
      SkipWhitespace();
      if pos == |chars| { return Err(UnexpectedEnd); }
      var c := chars[pos];
      assert Rest()[0] == c;
      if c == '"' {
        var s := ReadString();
        r := if s.Ok? then Ok(Str(s.value)) else Err(s.error);
      } else if c == '{' {
        r := ReadObject();
      } else if c == '[' {
        r := ReadArray();
      } else if c == 't' || c == 'f' {
        r := ReadBool();
      } else if c == 'n' {
        r := ReadNull();
      } else if c == '-' || IsDigit(c) {
        r := ReadNumber();
      } else {
        r := Err(UnexpectedChar(c));
      }
    }

    method TakeDelimiter(close: char) returns (r: Result<bool>)
      requires Valid()
      modifies this`pos
      ensures Valid() && pos >= old(pos)
      ensures Agrees(r, Delimiter(old(Rest()), close))
    {
      SkipWhitespace();
      if pos == |chars| { return Err(NoDelimiter); }
      var c := chars[pos];
      assert Rest()[0] == c && Rest()[1..] == chars[pos + 1..];
      if c != ',' && c != close { return Err(NoDelimiter); }
      pos := pos + 1;
      r := Ok(c == ',');
    }

    method ReadArray() returns (r: Result<Json<F>>)
      requires Valid()
      modifies this`pos
      ensures Valid() && pos >= old(pos)
      ensures Agrees(r, ParseArray(D, old(Rest())))
      decreases |chars| - pos, 1
    {
      hide ParseValue, SkipWs, Expect, Delimiter;
      var open := ExpectChar('[');
      if open.Err? { return Err(open.error); }
      ghost var before := old(pos);
      assert pos > before;
      SkipWhitespace();
      if pos < |chars| && chars[pos] == ']' {
        assert Rest()[0] == ']' && Rest()[1..] == chars[pos + 1..];
        pos := pos + 1;
        return Ok(Array([]));
      }
      assert Rest() != [] ==> Rest()[0] == chars[pos];
      var items: seq<Json<F>> := [];
      ghost var t := Rest();
      while true
        invariant before < pos <= |chars|
        invariant ParseItems(D, Rest(), items) == ParseItems(D, t, [])
        decreases |chars| - pos
      {
        ghost var at := pos;
        var v := ReadValue();
        if v.Err? { return Err(v.error); }
        assert pos > at;
        items := items + [v.value];
        var more := TakeDelimiter(']');
        if more.Err? { return Err(more.error); }
        if !more.value { return Ok(Array(items)); }
      }
    }

    method ReadEntry() returns (r: Result<(string, Json<F>)>)
      requires Valid()
      modifies this`pos
      ensures Valid() && pos >= old(pos)
      ensures Agrees(r, ParseEntry(D, old(Rest())))
      decreases |chars| - pos, 3
    {
      hide ParseValue, SkipWs, Expect, ParseString;
      SkipWhitespace();
      var key := ReadString();
      if key.Err? { return Err(key.error); }
      SkipWhitespace();
      var colon := ExpectChar(':');
      if colon.Err? { return Err(colon.error); }
      var v := ReadValue();
      r := if v.Ok? then Ok((key.value, v.value)) else Err(v.error);
    }

    method ReadObject() returns (r: Result<Json<F>>)
      requires Valid()
      modifies this`pos
      ensures Valid() && pos >= old(pos)
      ensures Agrees(r, ParseObject(D, old(Rest())))
      decreases |chars| - pos, 1
    {
      hide ParseEntry, SkipWs, Expect, Delimiter;
      var open := ExpectChar('{');
      if open.Err? { return Err(open.error); }
      ghost var before := old(pos);
      assert pos > before;
      SkipWhitespace();
      if pos < |chars| && chars[pos] == '}' {
        assert Rest()[0] == '}' && Rest()[1..] == chars[pos + 1..];
        pos := pos + 1;
        return Ok(Object([]));
      }
      assert Rest() != [] ==> Rest()[0] == chars[pos];
      var entries: seq<(string, Json<F>)> := [];
      ghost var t := Rest();
      while true
        invariant before < pos <= |chars|
        invariant ParseEntries(D, Rest(), entries) == ParseEntries(D, t, [])
        decreases |chars| - pos
      {
        ghost var at := pos;
        var e := ReadEntry();
        if e.Err? { return Err(e.error); }
        assert pos > at;
        entries := entries + [e.value];
        var more := TakeDelimiter('}');
        if more.Err? { return Err(more.error); }
        if !more.value { return Ok(Object(entries)); }
      }
    }
  }

  /** `Json::parse`. */
  method ParseText<F>(D: Doubles<F>, input: string) returns (v: Option<Json<F>>)
    ensures v == Parse(D, input)
  {
    hide ParseValue;
    var p := new JsonParser(D, input);
    p.SkipWhitespace();
    var r := p.ReadValue();
    v := if r.Ok? then Some(r.value) else None;
  }

  /** `Json::serialize`. */
  method Serialize<F>(D: Doubles<F>, v: Json<F>) returns (out: string)
    ensures out == Text(D, v)
  {
    out := WriteTo(D, v, "");
  }
}
