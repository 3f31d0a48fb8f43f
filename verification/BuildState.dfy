/**
 The build-state file of src/build.rs:50-121: file stamps and the last build
 hash, saved as JSON and loaded again.  Reading and writing the file itself is
 a parameter: `Load` takes the file's text, if there is any.
 */
module BuildStates {
  import opened Wrappers
  import opened Numerals
  import opened Json
  import opened JsonRoundTrip
  import opened JsonParsing

  datatype FileStamp = FileStamp(mtime: u64, size: u64, hash: u64)

  datatype BuildState = BuildState(stamps: map<string, FileStamp>, lastHash: u64)

  /** The `as i64` and `as u64` casts. */
  function AsI64(n: u64): (i: i64)
    ensures AsU64(i) == n
  {
    if n <= I64_MAX then n else n - U64_SIZE
  }

  function AsU64(i: i64): u64 {
    if i < 0 then i + U64_SIZE else i
  }

  // ----- saving -----

  function StampJson<F>(D: Doubles<F>, s: FileStamp): Json<F> {
    Object([("mtime", Number(D.ofI64(AsI64(s.mtime)))),
            ("size", Number(D.ofI64(AsI64(s.size)))),
            ("hash", Str(Hex(s.hash)))])
  }

  function Pairs<F>(D: Doubles<F>, names: seq<string>, stamps: seq<FileStamp>): (es: seq<(string, Json<F>)>)
    requires |names| == |stamps|
    ensures |es| == |names| && forall i :: 0 <= i < |es| ==> es[i] == (names[i], StampJson(D, stamps[i]))
  {
    seq(|names|, i requires 0 <= i < |names| => (names[i], StampJson(D, stamps[i])))
  }

  function StampsOf(m: map<string, FileStamp>, keys: seq<string>): (r: seq<FileStamp>)
    requires forall k :: k in keys ==> k in m
    ensures |r| == |keys| && forall i :: 0 <= i < |r| ==> r[i] == m[keys[i]]
  {
    seq(|keys|, i requires 0 <= i < |keys| => m[keys[i]])
  }

  predicate Lists(keys: seq<string>, m: map<string, FileStamp>) {
    (forall k :: k in keys ==> k in m) && (forall k :: k in m ==> k in keys)
  }

  function StateJson<F>(D: Doubles<F>, st: BuildState, keys: seq<string>): Json<F>
    requires Lists(keys, st.stamps)
  {
    Object([("last_build_hash", Str(Hex(st.lastHash))), ("stamps", Object(Pairs(D, keys, StampsOf(st.stamps, keys))))])
  }

  /** Strict order of strings by code points. */
  predicate Before(a: string, b: string) {
    b != [] && (a == [] || a[0] < b[0] || (a[0] == b[0] && Before(a[1..], b[1..])))
  }

  /** At the first place where they differ a has the smaller code point, or a ends there. */
  ghost predicate Smaller(a: string, b: string) {
    exists k: nat :: k <= |a| && k < |b| && a[..k] == b[..k] && (k == |a| || a[k] < b[k])
  }

  lemma {:induction false} BeforeIsSmaller(a: string, b: string)
    ensures Before(a, b) <==> Smaller(a, b)
    decreases |a|
  {
    if a != [] && b != [] && a[0] == b[0] {
      BeforeIsSmaller(a[1..], b[1..]);
      if Smaller(a[1..], b[1..]) {
        var k: nat :| k <= |a[1..]| && k < |b[1..]| && a[1..][..k] == b[1..][..k] &&
                      (k == |a[1..]| || a[1..][k] < b[1..][k]);
        assert a[..k + 1] == [a[0]] + a[1..][..k] && b[..k + 1] == [b[0]] + b[1..][..k];
        assert k + 1 <= |a| && k + 1 < |b|;
      }
      if Smaller(a, b) {
        var k: nat :| k <= |a| && k < |b| && a[..k] == b[..k] && (k == |a| || a[k] < b[k]);
        assert k > 0;
        assert a[1..][..k - 1] == a[..k][1..] && b[1..][..k - 1] == b[..k][1..];
        assert Smaller(a[1..], b[1..]);
      }
    } else if Before(a, b) {
      assert a[..0] == b[..0];
    } else {
      PrefixHeads(a, b);
    }
  }

  lemma {:induction false} PrefixHeads(a: string, b: string)
    ensures forall k :: 0 < k <= |a| && k <= |b| && a[..k] == b[..k] ==> a[0] == b[0]
  {
    forall k | 0 < k <= |a| && k <= |b| && a[..k] == b[..k] ensures a[0] == b[0] {
      assert a[..k][0] == b[..k][0];
    }
  }

  predicate Sorted(keys: seq<string>) {
    forall i, j :: 0 <= i < j < |keys| ==> Before(keys[i], keys[j])
  }

  lemma {:induction false} NotBeforeItself(a: string)
    ensures !Before(a, a)
    decreases |a|
  {
    if a != [] { NotBeforeItself(a[1..]); }
  }

  lemma {:induction false} BeforeOrders(a: string, b: string)
    ensures a == b || Before(a, b) || Before(b, a)
    ensures !(Before(a, b) && Before(b, a))
    decreases |a| + |b|
  {
    if a != [] && b != [] {
      BeforeOrders(a[1..], b[1..]);
      assert a == [a[0]] + a[1..] && b == [b[0]] + b[1..];
    }
  }

  lemma {:induction false} BeforeTrans(a: string, b: string, c: string)
    requires Before(a, b) && Before(b, c)
    ensures Before(a, c)
    decreases |a|
  {
    if a != [] && a[0] == b[0] == c[0] {
      BeforeTrans(a[1..], b[1..], c[1..]);
    }
  }

  /** Put a new key in its place. */
  method InsertKey(keys: seq<string>, k: string) returns (r: seq<string>)
    requires Sorted(keys) && k !in keys
    ensures Sorted(r) && multiset(r) == multiset(keys) + multiset{k}
  {
    hide Before;
    var i := 0;
    while i < |keys| && Before(keys[i], k)
      invariant i <= |keys|
      invariant forall j :: 0 <= j < i ==> Before(keys[j], k)
    {
      i := i + 1;
    }
    r := keys[..i] + [k] + keys[i..];
    forall j | i <= j < |keys| ensures Before(k, keys[j]) {
      BeforeOrders(keys[i], k);
      if i < j { BeforeTrans(k, keys[i], keys[j]); }
    }
    assert keys[..i] + keys[i..] == keys;
  }

  method SortedKeys(m: map<string, FileStamp>) returns (keys: seq<string>)
    ensures forall i, j :: 0 <= i < j < |keys| ==> Smaller(keys[i], keys[j])
    ensures Sorted(keys) && Lists(keys, m)
  {
    hide Before;
    var todo := m.Keys;
    keys := [];
    while todo != {}
      invariant todo <= m.Keys && Sorted(keys)
      invariant forall k :: k in keys <==> k in m && k !in todo
      decreases |todo|
    {
      var k :| k in todo;
      ghost var before := keys;
      keys := InsertKey(keys, k);
      assert forall x :: x in keys <==> x in multiset(keys);
      assert forall x :: x in before <==> x in multiset(before);
      todo := todo - {k};
    }
    forall i, j | 0 <= i < j < |keys| ensures Smaller(keys[i], keys[j]) {
      BeforeIsSmaller(keys[i], keys[j]);
    }
  }

  /** The text that is written: the keys go in ascending order. */
  method Save<F>(D: Doubles<F>, st: BuildState) returns (text: string, keys: seq<string>)
    ensures forall i, j :: 0 <= i < j < |keys| ==> Smaller(keys[i], keys[j])
    ensures Sorted(keys) && Lists(keys, st.stamps)
    ensures text == Text(D, StateJson(D, st, keys))
  {
    keys := SortedKeys(st.stamps);
    var entries: seq<(string, Json<F>)> := [];
    for i := 0 to |keys|
      invariant |entries| == i && forall j :: 0 <= j < i ==> entries[j] == (keys[j], StampJson(D, st.stamps[keys[j]]))
    {
      entries := entries + [(keys[i], StampJson(D, st.stamps[keys[i]]))];
    }
    assert entries == Pairs(D, keys, StampsOf(st.stamps, keys));
    text := Serialize(D, Object([("last_build_hash", Str(Hex(st.lastHash))), ("stamps", Object(entries))]));
  }

  lemma {:induction false} SameHead(a: seq<string>, b: seq<string>)
    requires Sorted(a) && Sorted(b) && a != [] && b != []
    requires a[0] in b && b[0] in a
    ensures a[0] == b[0]
  {
    hide Before;
    BeforeOrders(a[0], b[0]);
    var i :| 0 <= i < |b| && b[i] == a[0];
    var j :| 0 <= j < |a| && a[j] == b[0];
  }

  /** The listing in ascending order is unique, so the saved text depends on the state alone. */
  lemma {:induction false} SortedIsUnique(a: seq<string>, b: seq<string>)
    requires Sorted(a) && Sorted(b) && forall k :: k in a <==> k in b
    ensures a == b
    decreases |a|
  {
    hide Before;
    assert b != [] ==> b[0] in b;
    if a != [] {
      assert a[0] in a && a[0] in b;
      SameHead(a, b);
      forall k ensures k in a[1..] <==> k in b[1..] {
        TailKeys(a, k);
        TailKeys(b, k);
      }
      SortedIsUnique(a[1..], b[1..]);
      assert a == [a[0]] + a[1..] && b == [b[0]] + b[1..];
    }
  }

  lemma {:induction false} TailKeys(a: seq<string>, k: string)
    requires Sorted(a) && a != []
    ensures k in a[1..] <==> k in a && k != a[0]
  {
    hide Before;
    NotBeforeItself(a[0]);
  }

  // ----- loading -----

  /** `Json::get`: the first entry with the key. */
  function Find<F>(entries: seq<(string, Json<F>)>, key: string): Option<Json<F>> {
    if entries == [] then None
    else if entries[0].0 == key then Some(entries[0].1)
    else Find(entries[1..], key)
  }

  function Get<F>(v: Json<F>, key: string): Option<Json<F>> {
    if v.Object? then Find(v.entries, key) else None
  }

  function GetU64<F>(D: Doubles<F>, v: Json<F>, key: string): u64 {
    match Get(v, key)
    case Some(Number(n)) => AsU64(D.toI64(n))
    case _ => 0
  }

  function GetHash<F>(v: Json<F>, key: string): u64 {
    match Get(v, key)
    case Some(Str(s)) => (match FromHex(s) case Some(n) => n case None => 0)
    case _ => 0
  }

  function LoadStamp<F>(D: Doubles<F>, v: Json<F>): FileStamp {
    FileStamp(GetU64(D, v, "mtime"), GetU64(D, v, "size"), GetHash(v, "hash"))
  }

  /** Entries in order; a later entry replaces an earlier one with the same key. */
  function LoadStamps<F>(D: Doubles<F>, entries: seq<(string, Json<F>)>): map<string, FileStamp> {
    if entries == [] then map[] else
    var last := entries[|entries| - 1];
    LoadStamps(D, entries[..|entries| - 1])[last.0 := LoadStamp(D, last.1)]
  }

  function LoadJson<F>(D: Doubles<F>, v: Json<F>): BuildState {
    var stamps := match Get(v, "stamps") case Some(Object(entries)) => LoadStamps(D, entries) case _ => map[];
    BuildState(stamps, GetHash(v, "last_build_hash"))
  }

  /** No file, or text that does not parse, gives the empty state. */
  function LoadText<F>(D: Doubles<F>, content: Option<string>): BuildState {
    if content.None? then BuildState(map[], 0) else
    match Parse(D, content.value)
    case None => BuildState(map[], 0)
    case Some(v) => LoadJson(D, v)
  }

  method Load<F>(D: Doubles<F>, content: Option<string>) returns (st: BuildState)
    ensures st == LoadText(D, content)
  {
    if content.None? { return BuildState(map[], 0); }
    var json := ParseText(D, content.value);
    if json.None? { return BuildState(map[], 0); }
    var stamps: map<string, FileStamp> := map[];
    var obj := Get(json.value, "stamps");
    if obj.Some? && obj.value.Object? {
      var entries := obj.value.entries;
      for i := 0 to |entries|
        invariant stamps == LoadStamps(D, entries[..i])
      {
        assert entries[..i + 1][..i] == entries[..i];
        stamps := stamps[entries[i].0 := LoadStamp(D, entries[i].1)];
      }
      assert entries[..|entries|] == entries;
    }
    st := BuildState(stamps, GetHash(json.value, "last_build_hash"));
  }

  // ----- the round trip -----

  /** A count comes back if its cast to a double and back is exact. */
  ghost predicate Survives<F>(D: Doubles<F>, n: u64) {
    AsU64(D.toI64(D.ofI64(AsI64(n)))) == n
  }

  lemma {:induction false} SmallSurvives<F(!new)>(D: Doubles<F>, n: u64)
    requires Lawful(D) && n < 0x20_0000_0000_0000
    ensures Survives(D, n)
  {
    assert D.toI64(D.ofI64(n)) == n;
  }

  function Loaded<F>(D: Doubles<F>, s: FileStamp): FileStamp {
    FileStamp(AsU64(D.toI64(D.ofI64(AsI64(s.mtime)))), AsU64(D.toI64(D.ofI64(AsI64(s.size)))), s.hash)
  }

  lemma {:induction false} StampLoads<F(!new)>(D: Doubles<F>, s: FileStamp)
    requires Lawful(D)
    ensures LoadStamp(D, StampJson(D, s)) == Loaded(D, s)
  {
    hide Hex, FromHex;
    var es := StampJson(D, s).entries;
    HexRoundTrip(s.hash);
    FindAt(es, 0, "mtime");
    FindAt(es, 1, "size");
    assert "size"[0] != "hash"[0];
    FindAt(es, 2, "hash");
  }

  lemma {:induction false} FindAt<F>(es: seq<(string, Json<F>)>, i: nat, key: string)
    requires i < |es| && es[i].0 == key && forall j :: 0 <= j < i ==> es[j].0 != key
    ensures Find(es, key) == Some(es[i].1)
    decreases i
  {
    if i > 0 { FindAt(es[1..], i - 1, key); }
  }

  lemma {:induction false} DigitsAreClean(n: nat)
    ensures Clean(Hex(n))
  {
    if n >= 16 { DigitsAreClean(n / 16); }
  }

  lemma {:induction false} StampIsPlain<F(!new)>(D: Doubles<F>, s: FileStamp)
    requires Lawful(D)
    ensures AllClean(D, StampJson(D, s)) && AllFinite(D, StampJson(D, s))
    ensures ReadBack(D, StampJson(D, s)) == StampJson(D, s)
  {
    hide Hex;
    DigitsAreClean(s.hash);
    assert Clean("mtime") && Clean("size") && Clean("hash");
    ReadBackIff(D, StampJson(D, s));
  }

  lemma {:induction false} EntriesBackAt<F>(D: Doubles<F>, es: seq<(string, Json<F>)>, i: nat)
    requires i < |es|
    ensures |EntriesBack(D, es)| == |es| && EntriesBack(D, es)[i] == EntryBack(D, es[i])
    decreases |es|
  {
    hide EntryBack;
    if |es| > 1 {
      EntriesBackAt(D, es[1..], if i == 0 then 0 else i - 1);
    }
  }

  function AllMangled(keys: seq<string>): (r: seq<string>)
    ensures |r| == |keys| && forall i :: 0 <= i < |r| ==> r[i] == Mangled(keys[i])
  {
    seq(|keys|, i requires 0 <= i < |keys| => Mangled(keys[i]))
  }

  lemma {:induction false} PairsBack<F(!new)>(D: Doubles<F>, keys: seq<string>, stamps: seq<FileStamp>)
    requires Lawful(D) && |keys| == |stamps|
    ensures EntriesBack(D, Pairs(D, keys, stamps)) == Pairs(D, AllMangled(keys), stamps)
  {
    hide StampJson, Mangled, ReadBack, Lawful;
    var es := Pairs(D, keys, stamps);
    assert keys == [] ==> EntriesBack(D, es) == [];
    forall i | 0 <= i < |keys|
      ensures |EntriesBack(D, es)| == |es| && EntriesBack(D, es)[i] == (Mangled(keys[i]), StampJson(D, stamps[i])) {
      EntriesBackAt(D, es, i);
      StampIsPlain(D, stamps[i]);
    }
  }

  /** The loaded map: its keys are the names, and a name that always carries the same stamp maps to it. */
  lemma {:induction false} PairsLoad<F(!new)>(D: Doubles<F>, names: seq<string>, stamps: seq<FileStamp>, i: nat)
    requires Lawful(D) && |names| == |stamps|
    ensures LoadStamps(D, Pairs(D, names, stamps)).Keys == set n | n in names
    ensures i < |names| && (forall j :: 0 <= j < |names| && names[j] == names[i] ==> stamps[j] == stamps[i])
      ==> LoadStamps(D, Pairs(D, names, stamps))[names[i]] == Loaded(D, stamps[i])
    decreases |names|
  {
    hide LoadStamp, StampJson, Loaded, Lawful;
    if names != [] {
      var n, es := |names| - 1, Pairs(D, names, stamps);
      var front := names[..n];
      assert es[..n] == Pairs(D, front, stamps[..n]);
      assert names == front + [names[n]];
      StampLoads(D, stamps[n]);
      PairsLoad(D, front, stamps[..n], i);
      assert (set x | x in names) == (set x | x in front) + {names[n]};
    }
  }

  /** The whole document read back: only the paths can change. */
  lemma {:induction false} StateReads<F(!new)>(D: Doubles<F>, st: BuildState, keys: seq<string>)
    requires Lawful(D) && Lists(keys, st.stamps)
    ensures LoadText(D, Some(Text(D, StateJson(D, st, keys))))
      == BuildState(LoadStamps(D, Pairs(D, AllMangled(keys), StampsOf(st.stamps, keys))), st.lastHash)
  {
    hide Text, Parse, Lawful, LoadStamps, EntriesBack, StampJson, Hex, FromHex, AllMangled, StampsOf;
    var stamps := StampsOf(st.stamps, keys);
    var es, v := Pairs(D, keys, stamps), StateJson(D, st, keys);
    var back := Pairs(D, AllMangled(keys), stamps);
    PairsBack(D, keys, stamps);
    StateIsFinite(D, st, keys);
    StateBack(D, st, keys);
    assert Delimits(v, []);
    ParsePrinted(D, v, []);
    assert Text(D, v) + [] == Text(D, v);
    HexRoundTrip(st.lastHash);
    var w: Json<F> := Object([("last_build_hash", Str(Hex(st.lastHash))), ("stamps", Object(back))]);
    FindAt(w.entries, 1, "stamps");
    FindAt(w.entries, 0, "last_build_hash");
  }

  lemma {:induction false} StateIsFinite<F(!new)>(D: Doubles<F>, st: BuildState, keys: seq<string>)
    requires Lawful(D) && Lists(keys, st.stamps)
    ensures AllFinite(D, StateJson(D, st, keys))
  {
    hide Lawful, StampJson, Hex, StampsOf;
    var stamps := StampsOf(st.stamps, keys);
    forall i | 0 <= i < |keys| ensures AllFinite(D, Pairs(D, keys, stamps)[i].1) {
      StampIsPlain(D, stamps[i]);
    }
  }

  lemma {:induction false} StateBack<F(!new)>(D: Doubles<F>, st: BuildState, keys: seq<string>)
    requires Lists(keys, st.stamps)
    ensures ReadBack(D, StateJson(D, st, keys))
      == Object([("last_build_hash", Str(Hex(st.lastHash))),
                 ("stamps", Object(EntriesBack(D, Pairs(D, keys, StampsOf(st.stamps, keys)))))])
  {
    hide StampJson, Hex, StampsOf, Mangled, Pairs;
    var v := StateJson(D, st, keys);
    var es := v.entries;
    DigitsAreClean(st.lastHash);
    MangledIff(Hex(st.lastHash));
    assert Clean("last_build_hash") && Clean("stamps");
    MangledIff("last_build_hash");
    MangledIff("stamps");
    EntriesBackAt(D, es, 0);
    EntriesBackAt(D, es, 1);
  }

  /**
   Loading what was saved gives the same state exactly when every path is free
   of lossy characters and every time and size survives its cast to a double.
   Hashes always come back.
   */
  lemma {:induction false} SaveLoadIff<F(!new)>(D: Doubles<F>, st: BuildState, keys: seq<string>)
    requires Lawful(D) && Lists(keys, st.stamps)
    ensures LoadText(D, Some(Text(D, StateJson(D, st, keys)))) == st
      <==> forall k :: k in st.stamps ==> Clean(k) && Survives(D, st.stamps[k].mtime) && Survives(D, st.stamps[k].size)
  {
    hide LoadText, Text, StateJson, LoadStamps, Clean, Mangled, Survives;
    var stamps, names := StampsOf(st.stamps, keys), AllMangled(keys);
    var m := LoadStamps(D, Pairs(D, names, stamps));
    StateReads(D, st, keys);
    if forall k :: k in st.stamps ==> Clean(k) {
      CleanLoads(D, st.stamps, keys);
      StampsSurvive(D, st.stamps, m);
    } else {
      var k :| k in st.stamps && !Clean(k);
      UncleanIsLost(D, st.stamps, keys, k);
    }
  }

  lemma {:induction false} CleanLoads<F(!new)>(D: Doubles<F>, stamps: map<string, FileStamp>, keys: seq<string>)
    requires Lawful(D) && Lists(keys, stamps) && forall k :: k in stamps ==> Clean(k)
    ensures var m := LoadStamps(D, Pairs(D, AllMangled(keys), StampsOf(stamps, keys)));
      m.Keys == stamps.Keys && forall k :: k in stamps ==> m[k] == Loaded(D, stamps[k])
  {
    hide Lawful, LoadStamps, Clean, Mangled, Loaded;
    var ss, names := StampsOf(stamps, keys), AllMangled(keys);
    forall i | 0 <= i < |keys| ensures names[i] == keys[i] {
      assert keys[i] in keys;
      MangledIff(keys[i]);
    }
    assert names == keys;
    PairsLoad(D, keys, ss, 0);
    forall k | k in stamps ensures LoadStamps(D, Pairs(D, names, ss))[k] == Loaded(D, stamps[k]) {
      var i :| 0 <= i < |keys| && keys[i] == k;
      PairsLoad(D, keys, ss, i);
    }
  }

  /** Every loaded path is clean, so one that is not can never come back. */
  lemma {:induction false} UncleanIsLost<F(!new)>(D: Doubles<F>, stamps: map<string, FileStamp>, keys: seq<string>,
          k: string)
    requires Lawful(D) && Lists(keys, stamps) && !Clean(k)
    ensures k !in LoadStamps(D, Pairs(D, AllMangled(keys), StampsOf(stamps, keys)))
  {
    hide Lawful, LoadStamps, Clean, Mangled, Loaded;
    var ss, names := StampsOf(stamps, keys), AllMangled(keys);
    PairsLoad(D, names, ss, 0);
    forall i | 0 <= i < |names| ensures names[i] != k {
      MangledIff(keys[i]);
    }
  }

  lemma {:induction false} StampsSurvive<F(!new)>(D: Doubles<F>, saved: map<string, FileStamp>,
          loaded: map<string, FileStamp>)
    requires Lawful(D) && loaded.Keys == saved.Keys && forall k :: k in saved ==> loaded[k] == Loaded(D, saved[k])
    ensures loaded == saved <==> forall k :: k in saved ==> Survives(D, saved[k].mtime) && Survives(D, saved[k].size)
  {
    hide Lawful;
    assert forall k :: k in saved ==>
      (Loaded(D, saved[k]) == saved[k] <==> Survives(D, saved[k].mtime) && Survives(D, saved[k].size));
    assert loaded == saved <==> forall k :: k in saved ==> loaded[k] == saved[k];
  }

  /** A state that does not come back, whatever the stamp: its one path holds a carriage return. */
  lemma {:induction false} CarriageReturnPath<F(!new)>(D: Doubles<F>, s: FileStamp, hash: u64)
    requires Lawful(D)
    ensures var st := BuildState(map["a\r" := s], hash);
      Lists(["a\r"], st.stamps) && LoadText(D, Some(Text(D, StateJson(D, st, ["a\r"])))) != st
  {
    hide Lawful, LoadText, Text, StateJson;
    var st, keys := BuildState(map["a\r" := s], hash), ["a\r"];
    assert Lossy("a\r"[1]);
    assert !Clean(keys[0]) && keys[0] in st.stamps;
    SaveLoadIff(D, st, keys);
  }

  /** Fields that are missing or of the wrong kind load as zero, and so does a hash that is no number. */
  lemma {:induction false} MissingIsZero<F>(D: Doubles<F>, v: Json<F>, key: string)
    ensures (v.Object? ==> forall i :: 0 <= i < |v.entries| ==> v.entries[i].0 != key) ==>
      GetU64(D, v, key) == 0 && GetHash(v, key) == 0
    ensures forall w: Json<F> :: !w.Number? ==> GetU64(D, Object([(key, w)]), key) == 0
    ensures forall w: Json<F> :: !w.Str? ==> GetHash(Object([(key, w)]), key) == 0
    ensures forall s :: FromHex(s) == None ==> GetHash<F>(Object([(key, Str(s))]), key) == 0
  {
    hide FromHex;
    if v.Object? && forall i :: 0 <= i < |v.entries| ==> v.entries[i].0 != key { FindNone(v.entries, key); }
  }

  lemma {:induction false} FindNone<F>(es: seq<(string, Json<F>)>, key: string)
    requires forall i :: 0 <= i < |es| ==> es[i].0 != key
    ensures Find(es, key) == None
    decreases |es|
  {
    if es != [] { FindNone(es[1..], key); }
  }
}
