/**
 The definition modules a compilation needs (src/driver.rs:762-863): loading
 them transitively, then putting each after the ones it imports.
 */
module Definitions {
  import opened Wrappers

  /** `FROM m IMPORT ...` names one module; `IMPORT a, b` names each of them. */
  datatype Import = Import(fromModule: Option<string>, names: seq<string>)

  datatype DefModule = DefModule(name: string, imports: seq<Import>)

  /** The clause makes the file depend on module m; the items after FROM m IMPORT are no modules. */
  predicate Mentions(imp: Import, m: string) {
    imp.fromModule == Some(m) || (imp.fromModule == None && m in imp.names)
  }

  predicate Among(imports: seq<Import>, m: string) {
    exists i :: 0 <= i < |imports| && Mentions(imports[i], m)
  }

  predicate Imports(d: DefModule, m: string) {
    Among(d.imports, m)
  }

  // ----- loading, driver.rs:790-831 -----

  /** What looking for and parsing a definition file gives. */
  datatype Found = Definition(def: DefModule) | OtherUnit | Broken

  datatype Loaded = Loaded(parsed: map<string, DefModule>) | ParseFailed(name: string)

  /** The installed modules and the definition files that can be found. */
  datatype World = World(builtin: set<string>, files: map<string, Found>)

  /** What the main module imports, and what its own definition imports. */
  predicate Root(imports: seq<Import>, own: Option<DefModule>, m: string) {
    Among(imports, m) || (own.Some? && Among(own.value.imports, m))
  }

  /** `names` holds the roots and, with every module read from a file, all that it imports. */
  ghost predicate Closed(w: World, own: Option<DefModule>, imports: seq<Import>, names: set<string>) {
    && (forall r :: Root(imports, own, r) ==> r in names)
    && (forall n, m :: n in names && Reads(w, own, n) && Imports(w.files[n].def, m) ==> m in names)
  }

  predicate Reads(w: World, own: Option<DefModule>, n: string) {
    n in w.files && w.files[n].Definition? && n !in w.builtin && !OwnName(own, n)
  }

  predicate OwnName(own: Option<DefModule>, n: string) {
    own.Some? && own.value.name == n
  }

  /** The module's own file and every other needed one are there, read from where they were found. */
  ghost predicate Sound(w: World, own: Option<DefModule>, parsed: map<string, DefModule>) {
    && (own.Some? ==> own.value.name in parsed && parsed[own.value.name] == own.value)
    && (forall n :: n in parsed && !OwnName(own, n) ==>
      n !in w.builtin && n in w.files && w.files[n] == Definition(parsed[n]))
  }

  /** Nothing is left to load for this name. */
  predicate Settled(w: World, parsed: map<string, DefModule>, n: string) {
    n in parsed || n in w.builtin || n !in w.files || w.files[n].OtherUnit?
  }

  /** Clause by clause: the module after FROM, or else every module listed, is settled. */
  predicate ClausesSettled(w: World, parsed: map<string, DefModule>, imports: seq<Import>) {
    forall i :: 0 <= i < |imports| ==>
      && (imports[i].fromModule.Some? ==> Settled(w, parsed, imports[i].fromModule.value))
      && (imports[i].fromModule.None? ==> forall k :: 0 <= k < |imports[i].names| ==>
            Settled(w, parsed, imports[i].names[k]))
  }

  lemma {:induction false} SettledByClause(w: World, parsed: map<string, DefModule>, imports: seq<Import>)
    requires forall m :: Among(imports, m) ==> Settled(w, parsed, m)
    ensures ClausesSettled(w, parsed, imports)
  {
    hide Settled;
    forall i, m | 0 <= i < |imports| && Mentions(imports[i], m) ensures Settled(w, parsed, m) {
      assert Among(imports, m);
    }
    forall i | 0 <= i < |imports| && imports[i].fromModule.Some?
      ensures Settled(w, parsed, imports[i].fromModule.value) {
      assert Mentions(imports[i], imports[i].fromModule.value);
    }
    forall i, k | 0 <= i < |imports| && imports[i].fromModule.None? && 0 <= k < |imports[i].names|
      ensures Settled(w, parsed, imports[i].names[k]) {
      assert Mentions(imports[i], imports[i].names[k]);
    }
  }

  /** The modules that clauses mention and that are not parsed yet, appended to the queue; nothing else is. */
  method QueueImports(imports: seq<Import>, queue: seq<string>, parsed: map<string, DefModule>) returns (q: seq<string>)
    ensures forall m :: m in queue ==> m in q
    ensures forall m :: m in q && m !in queue ==>
      exists i :: 0 <= i < |imports| &&
                  (imports[i].fromModule == Some(m) || (imports[i].fromModule == None && m in imports[i].names))
    ensures forall i :: 0 <= i < |imports| && imports[i].fromModule.Some? ==>
      imports[i].fromModule.value in q || imports[i].fromModule.value in parsed
    ensures forall i, k :: 0 <= i < |imports| && imports[i].fromModule.None? && 0 <= k < |imports[i].names| ==>
      imports[i].names[k] in q || imports[i].names[k] in parsed
  {
    hide *;
    q := queue;
    QueueStarts(imports, queue, parsed);
    for i := 0 to |imports|
      invariant Queued(imports, i, 0, queue, parsed, q)
    {
      if imports[i].fromModule.Some? {
        QueueFrom(imports, i, queue, parsed, q);
        if imports[i].fromModule.value !in parsed {
          q := q + [imports[i].fromModule.value];
        }
      } else {
        for j := 0 to |imports[i].names|
          invariant Queued(imports, i, j, queue, parsed, q)
        {
          QueueListed(imports, i, j, queue, parsed, q);
          if imports[i].names[j] !in parsed {
            q := q + [imports[i].names[j]];
          }
        }
        QueueTurns(imports, i, queue, parsed, q);
      }
    }
    QueueEnds(imports, queue, parsed, q);
  }

  /** The first i clauses, and j names of the next, have been seen to. */
  ghost predicate Queued(imports: seq<Import>, i: nat, j: nat, queue: seq<string>, parsed: map<string, DefModule>,
          q: seq<string>) {
    && (forall m :: m in queue ==> m in q)
    && (forall m :: m in q ==> m in queue || Among(imports, m))
    && (forall k, m :: 0 <= k < i && k < |imports| && Mentions(imports[k], m) ==> m in q || m in parsed)
    && (i < |imports| ==> forall k :: 0 <= k < j && k < |imports[i].names| ==>
          imports[i].names[k] in q || imports[i].names[k] in parsed)
  }

  lemma {:induction false} QueueStarts(imports: seq<Import>, queue: seq<string>, parsed: map<string, DefModule>)
    ensures Queued(imports, 0, 0, queue, parsed, queue)
  {
  }

  lemma {:induction false} Snoc(q: seq<string>, m: string)
    ensures forall x :: x in q + [m] <==> x in q || x == m
  {
  }

  lemma {:induction false} QueueFrom(imports: seq<Import>, i: nat, queue: seq<string>, parsed: map<string, DefModule>,
          q: seq<string>)
    requires Queued(imports, i, 0, queue, parsed, q) && i < |imports| && imports[i].fromModule.Some?
    ensures Queued(imports, i + 1, 0, queue, parsed, q + [imports[i].fromModule.value])
    ensures imports[i].fromModule.value in parsed ==> Queued(imports, i + 1, 0, queue, parsed, q)
  {
    var m := imports[i].fromModule.value;
    assert Mentions(imports[i], m);
    assert Among(imports, m);
    Snoc(q, m);
  }

  lemma {:induction false} QueueListed(imports: seq<Import>, i: nat, j: nat, queue: seq<string>,
          parsed: map<string, DefModule>, q: seq<string>)
    requires Queued(imports, i, j, queue, parsed, q) && i < |imports| && imports[i].fromModule.None?
    requires j < |imports[i].names|
    ensures Queued(imports, i, j + 1, queue, parsed, q + [imports[i].names[j]])
    ensures imports[i].names[j] in parsed ==> Queued(imports, i, j + 1, queue, parsed, q)
  {
    hide Mentions;
    var m := imports[i].names[j];
    assert Among(imports, m) by { ListedAt(imports, i, j); }
    Snoc(q, m);
  }

  lemma {:induction false} ListedAt(imports: seq<Import>, i: nat, j: nat)
    requires i < |imports| && imports[i].fromModule.None? && j < |imports[i].names|
    ensures Among(imports, imports[i].names[j])
  {
    assert Mentions(imports[i], imports[i].names[j]);
  }

  lemma {:induction false} QueueTurns(imports: seq<Import>, i: nat, queue: seq<string>, parsed: map<string, DefModule>,
          q: seq<string>)
    requires i < |imports| && imports[i].fromModule.None?
    requires Queued(imports, i, |imports[i].names|, queue, parsed, q)
    ensures Queued(imports, i + 1, 0, queue, parsed, q)
  {
  }

  lemma {:induction false} QueueEnds(imports: seq<Import>, queue: seq<string>, parsed: map<string, DefModule>,
          q: seq<string>)
    requires Queued(imports, |imports|, 0, queue, parsed, q)
    ensures forall m :: m in queue ==> m in q
    ensures forall m :: m in q && m !in queue ==>
      exists i :: 0 <= i < |imports| &&
                  (imports[i].fromModule == Some(m) || (imports[i].fromModule == None && m in imports[i].names))
    ensures forall i :: 0 <= i < |imports| && imports[i].fromModule.Some? ==>
      imports[i].fromModule.value in q || imports[i].fromModule.value in parsed
    ensures forall i, k :: 0 <= i < |imports| && imports[i].fromModule.None? && 0 <= k < |imports[i].names| ==>
      imports[i].names[k] in q || imports[i].names[k] in parsed
  {
    forall i | 0 <= i < |imports| && imports[i].fromModule.Some?
      ensures imports[i].fromModule.value in q || imports[i].fromModule.value in parsed {
      assert Mentions(imports[i], imports[i].fromModule.value);
    }
    forall i, k | 0 <= i < |imports| && imports[i].fromModule.None? && 0 <= k < |imports[i].names|
      ensures imports[i].names[k] in q || imports[i].names[k] in parsed {
      assert Mentions(imports[i], imports[i].names[k]);
    }
  }

  /** In terms of what the clauses mention. */
  lemma {:induction false} QueuedAll(imports: seq<Import>, queue: seq<string>, parsed: map<string, DefModule>,
          q: seq<string>)
    requires forall m :: m in q && m !in queue ==>
      exists i :: 0 <= i < |imports| &&
                  (imports[i].fromModule == Some(m) || (imports[i].fromModule == None && m in imports[i].names))
    requires forall i :: 0 <= i < |imports| && imports[i].fromModule.Some? ==>
      imports[i].fromModule.value in q || imports[i].fromModule.value in parsed
    requires forall i, k :: 0 <= i < |imports| && imports[i].fromModule.None? && 0 <= k < |imports[i].names| ==>
      imports[i].names[k] in q || imports[i].names[k] in parsed
    ensures forall m :: m in q ==> m in queue || Among(imports, m)
    ensures forall m :: Among(imports, m) ==> m in q || m in parsed
  {
    forall m | m in q && m !in queue ensures Among(imports, m) {
      var i :| 0 <= i < |imports| &&
        (imports[i].fromModule == Some(m) || (imports[i].fromModule == None && m in imports[i].names));
      assert Mentions(imports[i], m);
    }
    forall m | Among(imports, m) ensures m in q || m in parsed {
      var i :| 0 <= i < |imports| && Mentions(imports[i], m);
    }
  }

  /**
   Load everything that is needed and nothing else: the names settled include
   what the main module and every definition read import, clause by clause,
   and every closed set of names holds what was read.  A file that does not
   parse is reported only if it is needed.
   */
  method LoadDefinitions(w: World, own: Option<DefModule>, imports: seq<Import>) returns (r: Loaded)
    ensures r.Loaded? ==> Sound(w, own, r.parsed)
    ensures r.Loaded? ==> ClausesSettled(w, r.parsed, imports)
    ensures r.Loaded? ==> forall n :: n in r.parsed ==> ClausesSettled(w, r.parsed, r.parsed[n].imports)
    ensures r.Loaded? ==> forall names, n :: Closed(w, own, imports, names) && n in r.parsed ==>
      n in names || OwnName(own, n)
    ensures r.ParseFailed? ==> r.name in w.files && w.files[r.name].Broken? && r.name !in w.builtin
    ensures r.ParseFailed? ==> forall names :: Closed(w, own, imports, names) ==> r.name in names
  {
    hide *;
    var parsed: map<string, DefModule> := map[];
    var queue := QueueImports(imports, [], map[]);
    QueuedAll(imports, [], map[], queue);
    ghost var first := queue;
    if own.Some? {
      queue := QueueImports(own.value.imports, queue, map[]);
      QueuedAll(own.value.imports, first, map[], queue);
      parsed := parsed[own.value.name := own.value];
    }
    LoadingStarts(w, own, imports, parsed, first, queue);
    while queue != []
      invariant Loading(w, own, imports, parsed, queue)
      decreases Unread(w, parsed), |queue|
    {
      var name := queue[|queue| - 1];
      ghost var before := queue;
      queue := queue[..|queue| - 1];
      assert before == queue + [name];
      LoadingPops(w, own, imports, parsed, queue, name);
      if name in w.builtin || name in parsed || name !in w.files { continue; }
      var found := w.files[name];
      if found.Broken? { return ParseFailed(name); }
      if found.OtherUnit? { continue; }
      ghost var rest := queue;
      queue := QueueImports(found.def.imports, queue, parsed);
      QueuedAll(found.def.imports, rest, parsed, queue);
      LoadingAdds(w, own, imports, parsed, rest, name, found.def, queue);
      InsertShrinks(w, parsed, name, found.def);
      parsed := parsed[name := found.def];
    }
    LoadingEnds(w, own, imports, parsed);
    return Loaded(parsed);
  }

  /** What every turn of the loading loop keeps. */
  ghost predicate Loading(w: World, own: Option<DefModule>, imports: seq<Import>, parsed: map<string, DefModule>,
          queue: seq<string>) {
    && Sound(w, own, parsed)
    && (forall n :: Root(imports, own, n) ==> n in queue || Settled(w, parsed, n))
    && (forall n, m :: n in parsed && Imports(parsed[n], m) ==> m in queue || Settled(w, parsed, m))
    && (forall names, n :: Closed(w, own, imports, names) && n in queue ==> n in names)
    && (forall names, n :: Closed(w, own, imports, names) && n in parsed ==> n in names || OwnName(own, n))
  }

  lemma {:induction false} LoadingStarts(w: World, own: Option<DefModule>, imports: seq<Import>,
          parsed: map<string, DefModule>, first: seq<string>, queue: seq<string>)
    requires parsed == if own.Some? then map[own.value.name := own.value] else map[]
    requires forall m :: m in first <==> Among(imports, m)
    requires own.None? ==> queue == first
    requires own.Some? ==> forall m :: m in queue <==> m in first || Among(own.value.imports, m)
    ensures Loading(w, own, imports, parsed, queue)
  {
    hide Among;
  }

  /** A popped name is needed; unless it is a definition still to read, it is settled or broken. */
  lemma {:induction false} LoadingPops(w: World, own: Option<DefModule>, imports: seq<Import>,
          parsed: map<string, DefModule>, queue: seq<string>, name: string)
    requires Loading(w, own, imports, parsed, queue + [name])
    ensures forall names :: Closed(w, own, imports, names) ==> name in names
    ensures Settled(w, parsed, name) ==> Loading(w, own, imports, parsed, queue)
    ensures Settled(w, parsed, name) <==>
      name in w.builtin || name in parsed || name !in w.files || w.files[name].OtherUnit?
  {
    hide Among, Closed;
    assert name in queue + [name];
    assert forall n :: n in queue + [name] <==> n in queue || n == name;
  }

  lemma {:induction false} LoadingAdds(w: World, own: Option<DefModule>, imports: seq<Import>,
          parsed: map<string, DefModule>, queue: seq<string>, name: string, d: DefModule, q: seq<string>)
    requires Loading(w, own, imports, parsed, queue + [name])
    requires name !in parsed && name !in w.builtin && name in w.files && w.files[name] == Definition(d)
    requires forall m :: m in queue ==> m in q
    requires forall m :: m in q ==> m in queue || Among(d.imports, m)
    requires forall m :: Among(d.imports, m) ==> m in q || m in parsed
    ensures Loading(w, own, imports, parsed[name := d], q)
  {
    hide Among;
    var more := parsed[name := d];
    assert name in queue + [name];
    assert forall n :: n in queue + [name] <==> n in queue || n == name;
    assert forall n :: Settled(w, parsed, n) ==> Settled(w, more, n);
    assert !OwnName(own, name);
    assert Reads(w, own, name);
  }

  lemma {:induction false} LoadingEnds(w: World, own: Option<DefModule>, imports: seq<Import>,
          parsed: map<string, DefModule>)
    requires Loading(w, own, imports, parsed, [])
    ensures Sound(w, own, parsed) && ClausesSettled(w, parsed, imports)
    ensures forall n :: n in parsed ==> ClausesSettled(w, parsed, parsed[n].imports)
    ensures forall names, n :: Closed(w, own, imports, names) && n in parsed ==> n in names || OwnName(own, n)
  {
    hide Among, Closed, Settled, ClausesSettled;
    forall m | Among(imports, m) ensures Settled(w, parsed, m) {
      assert Root(imports, own, m);
    }
    SettledByClause(w, parsed, imports);
    forall n | n in parsed ensures ClausesSettled(w, parsed, parsed[n].imports) {
      forall m | Among(parsed[n].imports, m) ensures Settled(w, parsed, m) {
        assert Imports(parsed[n], m);
      }
      SettledByClause(w, parsed, parsed[n].imports);
    }
  }

  function Unread(w: World, parsed: map<string, DefModule>): nat {
    |w.files.Keys - parsed.Keys|
  }

  /** A new entry brings the map closer to holding every file. */
  lemma {:induction false} InsertShrinks(w: World, parsed: map<string, DefModule>, name: string, d: DefModule)
    requires name !in parsed && name in w.files
    ensures Unread(w, parsed[name := d]) < Unread(w, parsed)
  {
    assert w.files.Keys - parsed[name := d].Keys == (w.files.Keys - parsed.Keys) - {name};
  }

  // ----- ordering, driver.rs:833-863 -----

  predicate Edge(parsed: map<string, DefModule>, a: string, b: string) {
    a in parsed && Imports(parsed[a], b)
  }

  predicate IsPath(parsed: map<string, DefModule>, p: seq<string>) {
    p != [] && forall i :: 0 <= i < |p| - 1 ==> Edge(parsed, p[i], p[i + 1])
  }

  /** `b` is `a` or imported by it, directly or not. */
  ghost predicate Reaches(parsed: map<string, DefModule>, a: string, b: string) {
    exists p :: IsPath(parsed, p) && p[0] == a && p[|p| - 1] == b
  }

  lemma {:induction false} ReachesSelf(parsed: map<string, DefModule>, a: string)
    ensures Reaches(parsed, a, a)
  {
    assert IsPath(parsed, [a]);
  }

  lemma {:induction false} ReachesStep(parsed: map<string, DefModule>, a: string, b: string, c: string)
    requires Reaches(parsed, a, b) && Edge(parsed, b, c)
    ensures Reaches(parsed, a, c)
  {
    var p :| IsPath(parsed, p) && p[0] == a && p[|p| - 1] == b;
    var q := p + [c];
    forall i | 0 <= i < |q| - 1 ensures Edge(parsed, q[i], q[i + 1]) {
      assert q[i] == p[i] && (i + 1 < |p| ==> q[i + 1] == p[i + 1]);
    }
    assert IsPath(parsed, q);
  }

  ghost predicate Acyclic(parsed: map<string, DefModule>) {
    forall a, b :: Edge(parsed, a, b) ==> !Reaches(parsed, b, a)
  }

  /** Each name comes after all it imports, except those that import it back. */
  ghost predicate Ordered(parsed: map<string, DefModule>, s: seq<string>) {
    forall i, m :: 0 <= i < |s| && Edge(parsed, s[i], m) ==> m in s[..i] || Reaches(parsed, m, s[i])
  }

  /** m stands before place i, or imports the name there back. */
  ghost predicate Precedes(parsed: map<string, DefModule>, s: seq<string>, i: nat, m: string)
    requires i < |s|
  {
    m in s[..i] || Reaches(parsed, m, s[i])
  }

  /** Clause by clause: the module after FROM, or else every module listed, precedes the importer. */
  ghost predicate ClausesPrecede(parsed: map<string, DefModule>, s: seq<string>) {
    forall i, c :: 0 <= i < |s| && s[i] in parsed && 0 <= c < |parsed[s[i]].imports| ==>
      var imp := parsed[s[i]].imports[c];
      && (imp.fromModule.Some? ==> Precedes(parsed, s, i, imp.fromModule.value))
      && (imp.fromModule.None? ==> forall k :: 0 <= k < |imp.names| ==> Precedes(parsed, s, i, imp.names[k]))
  }

  lemma {:induction false} OrderedByClause(parsed: map<string, DefModule>, s: seq<string>)
    requires Ordered(parsed, s)
    ensures ClausesPrecede(parsed, s)
  {
    hide Reaches;
    forall i, c, m | 0 <= i < |s| && s[i] in parsed && 0 <= c < |parsed[s[i]].imports| &&
      Mentions(parsed[s[i]].imports[c], m)
      ensures Precedes(parsed, s, i, m) {
      assert Among(parsed[s[i]].imports, m);
      assert Edge(parsed, s[i], m);
    }
    forall i, c | 0 <= i < |s| && s[i] in parsed && 0 <= c < |parsed[s[i]].imports|
      ensures var imp := parsed[s[i]].imports[c];
        && (imp.fromModule.Some? ==> Precedes(parsed, s, i, imp.fromModule.value))
        && (imp.fromModule.None? ==> forall k :: 0 <= k < |imp.names| ==> Precedes(parsed, s, i, imp.names[k])) {
      var imp := parsed[s[i]].imports[c];
      if imp.fromModule.Some? {
        assert Mentions(imp, imp.fromModule.value);
      } else {
        forall k | 0 <= k < |imp.names| ensures Precedes(parsed, s, i, imp.names[k]) {
          assert Mentions(imp, imp.names[k]);
        }
      }
    }
  }

  predicate Distinct(s: seq<string>) {
    forall i, j :: 0 <= i < j < |s| ==> s[i] != s[j]
  }

  function ClauseNames(imp: Import): set<string> {
    (set m | m in imp.names :: m) + (if imp.fromModule.Some? then {imp.fromModule.value} else {})
  }

  function AllNames(imports: seq<Import>): set<string> {
    set i, m | 0 <= i < |imports| && m in ClauseNames(imports[i]) :: m
  }

  /** Every name the visits can meet. */
  function Universe(parsed: map<string, DefModule>): set<string> {
    parsed.Keys + set n, m | n in parsed && m in AllNames(parsed[n].imports) :: m
  }

  lemma {:induction false} EdgeInUniverse(parsed: map<string, DefModule>, a: string, b: string)
    requires Edge(parsed, a, b)
    ensures b in Universe(parsed)
  {
    var imports := parsed[a].imports;
    var i :| 0 <= i < |imports| && Mentions(imports[i], b);
    assert b in ClauseNames(imports[i]);
    assert b in AllNames(imports);
  }

  lemma {:induction false} Shrinks(all: set<string>, visited: set<string>, name: string)
    requires name in all && name !in visited
    ensures |all - (visited + {name})| < |all - visited|
  {
    assert all - (visited + {name}) == (all - visited) - {name};
  }

  lemma {:induction false} StillSmaller(all: set<string>, a: set<string>, b: set<string>)
    requires a <= b
    ensures |all - b| <= |all - a|
  {
    assert (all - a) == (all - b) + ((all - a) * b);
  }

  class DefSorter {
    const parsed: map<string, DefModule>
    var visited: set<string>
    var sorted: seq<string>

    constructor (parsed: map<string, DefModule>)
      ensures this.parsed == parsed && visited == {} && sorted == [] && Valid()
    {
      this.parsed := parsed;
      visited := {};
      sorted := [];
    }

    ghost predicate Valid()
      reads this
    {
      Distinct(sorted) && (forall n :: n in sorted ==> n in visited) && Ordered(parsed, sorted)
    }

    /** Names whose visit has begun and not ended. */
    ghost predicate Pending(n: string)
      reads this
    {
      n in visited && n !in sorted
    }

    /** Everything pending leads to the name now visited. */
    ghost predicate PendingReach(name: string)
      reads this
    {
      forall n :: Pending(n) ==> Reaches(parsed, n, name)
    }

    /** Depth-first: the name is pushed after its imports.  What was pending before stays so, and nothing else. */
    method Visit(name: string)
      requires Valid() && PendingReach(name) && name in Universe(parsed)
      modifies this
      ensures Valid() && name in visited && old(visited) <= visited
      ensures ClausesPrecede(parsed, sorted)
      ensures old(sorted) <= sorted
      ensures forall n :: Pending(n) <==> old(Pending(n))
      decreases |Universe(parsed) - visited|, 1
    {
      hide Universe, Ordered, Distinct, Reaches, Imports, ClausesPrecede;
      if name in visited {
        OrderedByClause(parsed, sorted);
        return;
      }
      ghost var before := visited;
      visited := visited + {name};
      Shrinks(Universe(parsed), before, name);
      assert forall n :: Pending(n) <==> old(Pending(n)) || n == name;
      if name in parsed {
        VisitImports(name);
      }
      assert forall n :: Pending(n) <==> old(Pending(n)) || n == name;
      assert Pending(name);
      ghost var s := sorted;
      Push(name);
      assert forall n :: n in sorted <==> n in s || n == name;
      OrderedByClause(parsed, sorted);
    }

    /** The loop over import clauses: the module after FROM, or every module listed. */
    method VisitImports(name: string)
      requires name in parsed && Valid()
      requires forall n :: Pending(n) ==> Reaches(parsed, n, name) || n == name
      modifies this
      ensures Valid() && old(visited) <= visited
      ensures old(sorted) <= sorted
      ensures forall n :: Pending(n) <==> old(Pending(n))
      ensures forall m :: Edge(parsed, name, m) ==> m in visited
      decreases |Universe(parsed) - visited|, 2
    {
      hide Universe, Ordered, Distinct, Reaches;
      var imports := parsed[name].imports;
      for i := 0 to |imports|
        invariant Valid() && old(visited) <= visited && old(sorted) <= sorted
        invariant forall n :: Pending(n) <==> old(Pending(n))
        invariant forall k, m :: 0 <= k < i && Mentions(imports[k], m) ==> m in visited
      {
        if imports[i].fromModule.Some? {
          var m := imports[i].fromModule.value;
          ImportsClause(name, i, m);
          PendingSteps(name, m);
          StillSmaller(Universe(parsed), old(visited), visited);
          Visit(m);
        } else {
          for j := 0 to |imports[i].names|
            invariant Valid() && old(visited) <= visited && old(sorted) <= sorted
            invariant forall n :: Pending(n) <==> old(Pending(n))
            invariant forall k, m :: 0 <= k < i && Mentions(imports[k], m) ==> m in visited
            invariant forall k :: 0 <= k < j ==> imports[i].names[k] in visited
          {
            var m := imports[i].names[j];
            ImportsClause(name, i, m);
            PendingSteps(name, m);
            StillSmaller(Universe(parsed), old(visited), visited);
            Visit(m);
          }
        }
      }
    }

    lemma {:induction false} ImportsClause(name: string, i: nat, m: string)
      requires name in parsed && i < |parsed[name].imports| && Mentions(parsed[name].imports[i], m)
      ensures Edge(parsed, name, m) && m in Universe(parsed)
    {
      hide Universe;
      assert Among(parsed[name].imports, m);
      EdgeInUniverse(parsed, name, m);
    }

    lemma {:induction false} PendingSteps(name: string, m: string)
      requires Edge(parsed, name, m)
      requires forall n :: Pending(n) ==> Reaches(parsed, n, name) || n == name
      ensures PendingReach(m)
    {
      hide Edge;
      forall n | Pending(n) ensures Reaches(parsed, n, m) {
        ReachesSelf(parsed, name);
        ReachesStep(parsed, n, name, m);
      }
    }

    method Push(name: string)
      requires Valid() && name in visited && name !in sorted
      requires forall m :: Edge(parsed, name, m) ==> m in visited
      requires forall n :: Pending(n) ==> Reaches(parsed, n, name) || n == name
      modifies this`sorted
      ensures Valid() && sorted == old(sorted) + [name]
    {
      hide Edge, Reaches;
      ghost var s := sorted;
      sorted := sorted + [name];
      forall i, m | 0 <= i < |sorted| && Edge(parsed, sorted[i], m)
        ensures m in sorted[..i] || Reaches(parsed, m, sorted[i]) {
        if i < |s| {
          assert sorted[i] == s[i] && sorted[..i] == s[..i];
        } else {
          assert sorted[..i] == s;
          ReachesSelf(parsed, name);
        }
      }
    }
  }

  /** The definitions in registration order, each with the name it was loaded under. */
  method SortDefinitions(parsed: map<string, DefModule>, names: seq<string>) returns (out: seq<(string, DefModule)>)
    requires forall n :: n in names <==> n in parsed
    ensures forall i, j :: 0 <= i < j < |out| ==> out[i].0 != out[j].0
    ensures forall n :: n in parsed <==> exists i :: 0 <= i < |out| && out[i].0 == n
    ensures forall i :: 0 <= i < |out| ==> out[i].0 in parsed && out[i].1 == parsed[out[i].0]
    ensures forall i, c :: 0 <= i < |out| && 0 <= c < |out[i].1.imports| ==>
      var imp := out[i].1.imports[c];
      && (imp.fromModule.Some? ==> ComesEarlier(parsed, out, i, imp.fromModule.value))
      && (imp.fromModule.None? ==> forall k :: 0 <= k < |imp.names| ==> ComesEarlier(parsed, out, i, imp.names[k]))
    ensures Acyclic(parsed) ==>
      forall i, m :: 0 <= i < |out| && Imports(out[i].1, m) && m in parsed ==> exists j :: 0 <= j < i && out[j].0 == m
  {
    hide Universe, Reaches, Imports;
    var sorter := new DefSorter(parsed);
    for k := 0 to |names|
      invariant sorter.parsed == parsed && sorter.Valid()
      invariant forall n :: !sorter.Pending(n)
      invariant forall j :: 0 <= j < k ==> names[j] in sorter.visited
    {
      InUniverse(parsed, names[k]);
      sorter.Visit(names[k]);
    }
    var sorted := sorter.sorted;
    assert forall n :: n in parsed ==> n in names && n in sorter.visited && !sorter.Pending(n);
    out := TakeDefinitions(parsed, sorted);
    ghost var kept := Kept(parsed, sorted);
    KeptMembers(parsed, sorted);
    assert forall i :: 0 <= i < |out| ==> out[i].0 == kept[i];
    forall i, m | 0 <= i < |out| && Imports(out[i].1, m) && m in parsed
      ensures Edge(parsed, out[i].0, m) && ((exists j :: 0 <= j < i && out[j].0 == m) || Reaches(parsed, m, out[i].0)) {
      KeptOrdered(parsed, sorted, i, m);
    }
    EarlierByClause(parsed, out);
  }

  /** A module that has a definition comes before place i, or imports the one there back. */
  ghost predicate ComesEarlier(parsed: map<string, DefModule>, out: seq<(string, DefModule)>, i: nat, m: string)
    requires i < |out|
  {
    m in parsed ==> (exists j :: 0 <= j < i && out[j].0 == m) || Reaches(parsed, m, out[i].0)
  }

  lemma {:induction false} EarlierByClause(parsed: map<string, DefModule>, out: seq<(string, DefModule)>)
    requires forall i, m :: 0 <= i < |out| && Imports(out[i].1, m) && m in parsed ==>
      (exists j :: 0 <= j < i && out[j].0 == m) || Reaches(parsed, m, out[i].0)
    ensures forall i, c :: 0 <= i < |out| && 0 <= c < |out[i].1.imports| ==>
      var imp := out[i].1.imports[c];
      && (imp.fromModule.Some? ==> ComesEarlier(parsed, out, i, imp.fromModule.value))
      && (imp.fromModule.None? ==> forall k :: 0 <= k < |imp.names| ==> ComesEarlier(parsed, out, i, imp.names[k]))
  {
    hide Reaches;
    forall i, c, m | 0 <= i < |out| && 0 <= c < |out[i].1.imports| && Mentions(out[i].1.imports[c], m)
      ensures ComesEarlier(parsed, out, i, m) {
      assert Imports(out[i].1, m);
    }
    forall i, c | 0 <= i < |out| && 0 <= c < |out[i].1.imports|
      ensures var imp := out[i].1.imports[c];
        && (imp.fromModule.Some? ==> ComesEarlier(parsed, out, i, imp.fromModule.value))
        && (imp.fromModule.None? ==> forall k :: 0 <= k < |imp.names| ==> ComesEarlier(parsed, out, i, imp.names[k])) {
      var imp := out[i].1.imports[c];
      if imp.fromModule.Some? {
        assert Mentions(imp, imp.fromModule.value);
      } else {
        forall k | 0 <= k < |imp.names| ensures ComesEarlier(parsed, out, i, imp.names[k]) {
          assert Mentions(imp, imp.names[k]);
        }
      }
    }
  }

  lemma {:induction false} InUniverse(parsed: map<string, DefModule>, n: string)
    requires n in parsed
    ensures n in Universe(parsed)
  {
  }

  /** The names that have a definition, in order. */
  function Kept(parsed: map<string, DefModule>, s: seq<string>): seq<string> {
    if s == [] then [] else
    var front, last := Kept(parsed, s[..|s| - 1]), s[|s| - 1];
    if last in parsed then front + [last] else front
  }

  lemma {:induction false} KeptMembers(parsed: map<string, DefModule>, s: seq<string>)
    ensures forall n :: n in Kept(parsed, s) <==> n in s && n in parsed
    ensures Distinct(s) ==> Distinct(Kept(parsed, s))
    decreases |s|
  {
    if s != [] {
      var front := s[..|s| - 1];
      KeptMembers(parsed, front);
      assert s == front + [s[|s| - 1]];
    }
  }

  lemma {:induction false} KeptOrdered(parsed: map<string, DefModule>, s: seq<string>, i: nat, m: string)
    requires Ordered(parsed, s) && i < |Kept(parsed, s)| && Edge(parsed, Kept(parsed, s)[i], m) && m in parsed
    ensures m in Kept(parsed, s)[..i] || Reaches(parsed, m, Kept(parsed, s)[i])
    decreases |s|
  {
    hide Reaches, Edge;
    var n := |s| - 1;
    var front := s[..n];
    KeptMembers(parsed, front);
    forall j, x | 0 <= j < n && Edge(parsed, front[j], x) ensures x in front[..j] || Reaches(parsed, x, front[j]) {
      assert front[j] == s[j] && front[..j] == s[..j];
    }
    var kept := Kept(parsed, front);
    if i < |kept| {
      KeptOrdered(parsed, front, i, m);
      assert Kept(parsed, s)[..i] == kept[..i] && Kept(parsed, s)[i] == kept[i];
    } else {
      assert Kept(parsed, s)[..i] == kept && Kept(parsed, s)[i] == s[n];
    }
  }

  /** The `filter_map` that removes each sorted name from the map; names without a definition are dropped. */
  method TakeDefinitions(parsed: map<string, DefModule>, sorted: seq<string>) returns (out: seq<(string, DefModule)>)
    requires Distinct(sorted)
    ensures |out| == |Kept(parsed, sorted)|
    ensures forall i :: 0 <= i < |out| ==> out[i].0 in parsed && out[i] == (Kept(parsed, sorted)[i], parsed[out[i].0])
  {
    out := [];
    var left := parsed;
    for k := 0 to |sorted|
      invariant forall n :: n in left <==> n in parsed && n !in sorted[..k]
      invariant forall n :: n in left ==> left[n] == parsed[n]
      invariant |out| == |Kept(parsed, sorted[..k])|
      invariant forall i :: 0 <= i < |out| ==>
        out[i].0 in parsed && out[i] == (Kept(parsed, sorted[..k])[i], parsed[out[i].0])
    {
      var name := sorted[k];
      var front := sorted[..k];
      assert sorted[..k + 1] == front + [name];
      assert sorted[..k + 1][..k] == front;
      assert name !in front;
      if name in left {
        out := out + [(name, left[name])];
        left := left - {name};
      }
    }
    assert sorted[..|sorted|] == sorted;
  }
}
