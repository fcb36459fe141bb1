/**
 * What the parser extracts, told by the places in the tree: a symbol or a reference occurs as often as there are
 * nodes that stand for it (codeintel/infrastructure/parser.py).
 */
module TreeOccurrences {
  import opened Common
  import opened CodeModel
  import opened Firsts
  import opened Chunker

  // ---------------------------------------------------------------- places in a tree

  /** A place: the nodes from a child of the root down to the node itself. */
  type Place = seq<Node>

  /** The places of a node and everything under it, below the place `above`. */
  function PlacesAt(n: Node, above: Place): seq<Place>
    decreases n, 1
  {
    [above + [n]] + PlacesIn(n.children, above + [n])
  }

  function PlacesIn(nodes: seq<Node>, above: Place): seq<Place>
    decreases nodes, 0
  {
    if nodes == [] then [] else PlacesIn(nodes[..|nodes| - 1], above) + PlacesAt(nodes[|nodes| - 1], above)
  }

  function Places(root: Node): seq<Place> { PlacesIn(root.children, []) }

  /** How many of the places satisfy a condition. */
  function Times(places: seq<Place>, p: Place -> bool): nat {
    if places == [] then 0 else Times(places[..|places| - 1], p) + if p(places[|places| - 1]) then 1 else 0
  }

  lemma {:induction false} TimesConcat(a: seq<Place>, b: seq<Place>, p: Place -> bool)
    ensures Times(a + b, p) == Times(a, p) + Times(b, p)
    decreases |b|
  {
    if b == [] {
      assert a + b == a;
    } else {
      assert (a + b)[..|a + b| - 1] == a + b[..|b| - 1];
      TimesConcat(a, b[..|b| - 1], p);
    }
  }

  lemma {:induction false} TimesNone(places: seq<Place>, p: Place -> bool)
    requires forall c :: c in places ==> !p(c)
    ensures Times(places, p) == 0
    decreases |places|
  {
    if places != [] { TimesNone(places[..|places| - 1], p); }
  }

  lemma TimesOne(c: Place, p: Place -> bool)
    ensures Times([c], p) == if p(c) then 1 else 0
  {
    assert [c][..0] == [];
    assert Times([c], p) == Times([], p) + if p(c) then 1 else 0;
  }

  // ---------------------------------------------------------------- what a place stands for

  predicate IsImport(g: Grammar, n: Node) { n.nodeType in g.importNodes }

  predicate IsNamed(g: Grammar, n: Node) { n.nodeType in g.definitions && n.name.Some? }

  /** At most two hundred nodes above it, and no import among them. */
  predicate Reached(g: Grammar, c: Place) {
    && 0 < |c| <= 201
    && forall i :: 0 <= i < |c| - 1 ==> !IsImport(g, c[i])
  }

  /** The names of the named definitions along a place. */
  function Names(g: Grammar, c: Place): seq<string> {
    if c == [] then []
    else
      var n := c[|c| - 1];
      Names(g, c[..|c| - 1]) + if IsNamed(g, n) then [n.name.value] else []
  }

  function Dotted(names: seq<string>): string {
    if names == [] then ""
    else if |names| == 1 then names[0]
    else Dotted(names[..|names| - 1]) + "." + names[|names| - 1]
  }

  /** The scope at a place: the definitions around it, or the module. */
  function Around(g: Grammar, c: Place): string {
    if Dotted(Names(g, c)) == "" then "<module>" else Dotted(Names(g, c))
  }

  /** The part of a place up to its innermost named definition. */
  function Innermost(g: Grammar, c: Place): (e: Place)
    ensures |e| <= |c| && (e != [] ==> IsNamed(g, e[|e| - 1]))
  {
    if c == [] || IsNamed(g, c[|c| - 1]) then c else Innermost(g, c[..|c| - 1])
  }

  /** A function inside a container is a method. */
  function KindAt(g: Grammar, c: Place): SymbolKind
    requires c != [] && c[|c| - 1].nodeType in g.definitions
    decreases |c|
  {
    var n, e := c[|c| - 1], Innermost(g, c[..|c| - 1]);
    var kind := if n.nodeType == "type_spec" && n.refined.Some? then n.refined.value else g.definitions[n.nodeType];
    if kind == FunctionKind && e != [] && KindAt(g, e) in g.containers then MethodKind else kind
  }

  /** `t` is what follows the last dot of `q`, or all of it when there is none. */
  predicate EndsIn(q: string, t: string) {
    '.' !in t && (q == t || (|q| > |t| && q[|q| - |t|..] == t && q[|q| - |t| - 1] == '.'))
  }

  const TYPES: set<SymbolKind> := {ClassKind, StructKind, InterfaceKind, EnumKind, TraitKind}

  /** A call node that names the target, inside the scope. */
  predicate CallAt(g: Grammar, c: Place, r: Reference) {
    && Reached(g, c)
    && var n := c[|c| - 1];
    && n.nodeType in g.callNodes && n.nodeType !in g.importNodes && n.nodeType !in g.definitions
    && n.callee == Some(r.targetName) && n.startLine == r.line && r.fromQualifiedName == Around(g, c[..|c| - 1])
  }

  /** A named type with the target among its bases, other than a base called like itself. */
  predicate BaseAt(g: Grammar, c: Place, r: Reference) {
    && Reached(g, c)
    && var n := c[|c| - 1];
    && n.nodeType !in g.importNodes && IsNamed(g, n) && KindAt(g, c) in TYPES
    && r.targetName in n.bases && n.startLine == r.line
    && r.fromQualifiedName == Dotted(Names(g, c)) && !EndsIn(r.fromQualifiedName, r.targetName)
  }

  /** An import of the target, which always counts for the module. */
  predicate ImportAt(g: Grammar, c: Place, r: Reference) {
    && Reached(g, c)
    && var n := c[|c| - 1];
    && n.nodeType in g.importNodes && r.targetName in n.targets && n.startLine == r.line
    && r.fromQualifiedName == "<module>"
  }

  /** The place stands for this reference. */
  predicate RefersAt(g: Grammar, c: Place, r: Reference) {
    match r.kind
    case Calls => CallAt(g, c, r)
    case Inherits => BaseAt(g, c, r)
    case Imports => ImportAt(g, c, r)
    case Defines => false
  }

  function Refers(g: Grammar, r: Reference): Place -> bool { (c: Place) => RefersAt(g, c, r) }

  /** The place stands for this symbol: a named definition under its dotted name, or an import under its first line. */
  predicate SymbolAt(g: Grammar, c: Place, s: Symbol) {
    && Reached(g, c)
    && var n := c[|c| - 1];
    && s.startLine == n.startLine && s.endLine == n.endLine && s.startByte == n.startByte && s.endByte == n.endByte
    && if n.nodeType in g.importNodes then
         && s.kind == ImportKind && IsExcerpt(n.text, 400, s.qualifiedName)
         && if n.text == "" then s.name == "import"
            else exists i :: 0 <= i <= |n.text| && IsFirstLine(n.text, i) && IsExcerpt(n.text[..i], 200, s.name)
       else
         && IsNamed(g, n) && s.kind == KindAt(g, c) && n.name == Some(s.name) && s.qualifiedName == Dotted(Names(g, c))
  }

  predicate IsExcerpt(text: string, limit: nat, r: string) { r <= text && |r| == Min(limit, |text|) }

  predicate IsFirstLine(text: string, i: nat)
    requires i <= |text|
  {
    '\n' !in text[..i] && (i < |text| ==> text[i] == '\n')
  }

  function Declares(g: Grammar, s: Symbol): Place -> bool { (c: Place) => SymbolAt(g, c, s) }

  // ---------------------------------------------------------------- the walk's scope

  /** The scope stack the walk has built up at a place. */
  function ScopeAt(g: Grammar, c: Place): seq<ScopeEntry> {
    if c == [] then []
    else
      var n := c[|c| - 1];
      ScopeAt(g, c[..|c| - 1]) + if IsNamed(g, n) then [ScopeEntry(KindAt(g, c), n.name.value)] else []
  }

  lemma {:induction false} JoinIsDotted(g: Grammar, c: Place)
    ensures |ScopeAt(g, c)| == |Names(g, c)| && Join(ScopeAt(g, c)) == Dotted(Names(g, c))
    decreases |c|
  {
    if c != [] {
      JoinIsDotted(g, c[..|c| - 1]);
      var above, n := c[..|c| - 1], c[|c| - 1];
      assert c == above + [n];
      ScopeBelow(g, above, n);
      if IsNamed(g, n) {
        JoinSnoc(ScopeAt(g, above), ScopeEntry(KindAt(g, c), n.name.value));
        DottedSnoc(Names(g, above), n.name.value);
      }
    }
  }

  lemma JoinSnoc(scope: seq<ScopeEntry>, e: ScopeEntry)
    ensures Join(scope + [e]) == if scope == [] then e.name else Join(scope) + "." + e.name
  {
    assert (scope + [e])[..|scope|] == scope;
  }

  lemma DottedSnoc(names: seq<string>, name: string)
    ensures Dotted(names + [name]) == if names == [] then name else Dotted(names) + "." + name
  {
    assert (names + [name])[..|names|] == names;
  }

  lemma {:induction false} LastScope(g: Grammar, c: Place)
    ensures var scope, e := ScopeAt(g, c), Innermost(g, c);
            && (scope == [] <==> e == [])
            && (e != [] ==> scope[|scope| - 1].kind == KindAt(g, e))
    decreases |c|
  {
    if c != [] && !IsNamed(g, c[|c| - 1]) { LastScope(g, c[..|c| - 1]); }
  }

  /** The kind the walk gives a definition is that of its place. */
  lemma KindAtPlace(g: Grammar, above: Place, n: Node)
    requires g.IsDefinition(n)
    ensures DefinitionKind(g, n, ScopeAt(g, above)) == KindAt(g, above + [n])
  {
    assert (above + [n])[..|above|] == above;
    LastScope(g, above);
  }

  lemma ScopeBelow(g: Grammar, above: Place, n: Node)
    ensures var c := above + [n];
            if IsNamed(g, n) then
              && ScopeAt(g, c) == ScopeAt(g, above) + [ScopeEntry(KindAt(g, c), n.name.value)]
              && Names(g, c) == Names(g, above) + [n.name.value]
            else ScopeAt(g, c) == ScopeAt(g, above) && Names(g, c) == Names(g, above)
  {
    assert (above + [n])[..|above|] == above;
  }

  // ---------------------------------------------------------------- one node's own contribution

  lemma {:induction false} LastComponentIsEnd(q: string)
    ensures EndsIn(q, LastComponent(q))
    decreases |q|
  {
    if '.' in q && q[|q| - 1] != '.' {
      var init, last := q[..|q| - 1], q[|q| - 1];
      assert q == init + [last] && '.' in init;
      LastComponentIsEnd(init);
      EndsBelow(init, last, LastComponent(init));
    }
  }

  lemma EndsBelow(q: string, c: char, t: string)
    requires '.' in q && c != '.' && EndsIn(q, t)
    ensures EndsIn(q + [c], t + [c])
  {
    var q', t' := q + [c], t + [c];
    assert q'[|q'| - |t'|..] == q[|q| - |t|..] + [c];
    assert q'[|q'| - |t'| - 1] == q[|q| - |t| - 1];
  }

  lemma EndIsUnique(q: string, a: string, b: string)
    requires EndsIn(q, a) && EndsIn(q, b)
    ensures a == b
  {
    ShorterEnd(q, a, b);
    ShorterEnd(q, b, a);
  }

  lemma ShorterEnd(q: string, a: string, b: string)
    requires EndsIn(q, a) && EndsIn(q, b)
    ensures |a| >= |b|
  {
    assert forall k :: 0 <= k < |b| ==> b[k] == q[|q| - |b| + k];
  }

  lemma LastComponentEnds(q: string, t: string)
    ensures LastComponent(q) == t <==> EndsIn(q, t)
  {
    LastComponentIsEnd(q);
    if EndsIn(q, t) { EndIsUnique(q, t, LastComponent(q)); }
  }

  lemma NotAgain(names: seq<string>)
    requires names != [] && DistinctOn(names, Itself())
    ensures names[|names| - 1] !in names[..|names| - 1] && DistinctOn(names[..|names| - 1], Itself())
  {
    var init := names[..|names| - 1];
    forall i | 0 <= i < |init|
      ensures init[i] != names[|names| - 1]
    {
      assert Itself()(names[i]) != Itself()(names[|names| - 1]);
    }
  }

  /** Distinct names yield each reference at most once. */
  lemma {:induction false} ReferencesOnce(kind: EdgeKind, from: string, names: seq<string>, line: nat, r: Reference)
    requires DistinctOn(names, Itself())
    ensures multiset(ReferencesTo(kind, from, names, line))[r] ==
            if r.kind == kind && r.fromQualifiedName == from && r.line == line && r.targetName in names then 1 else 0
    decreases |names|
  {
    if names != [] {
      var init, last := names[..|names| - 1], names[|names| - 1];
      assert names == init + [last];
      assert ReferencesTo(kind, from, names, line) ==
             ReferencesTo(kind, from, init, line) + [Reference(kind, from, last, line)];
      ReferencesOnce(kind, from, init, line, r);
      NotAgain(names);
    }
  }

  lemma DistinctNames(names: seq<string>)
    ensures DistinctOn(Distinct(names, Itself()), Itself())
    ensures forall t :: t in Distinct(names, Itself()) <==> t in names
  {
    DistinctLaws(names, Itself());
    forall t | t in names
      ensures t in Distinct(names, Itself())
    {
      assert Itself()(t) in KeysOf(names, Itself());
    }
  }

  lemma {:induction false} DropNameLaws(names: seq<string>, own: string)
    requires DistinctOn(names, Itself())
    ensures DistinctOn(DropName(names, own), Itself())
    ensures forall t :: t in DropName(names, own) <==> t in names && t != own
    decreases |names|
  {
    if names != [] {
      var init, last := names[..|names| - 1], names[|names| - 1];
      assert names == init + [last];
      NotAgain(names);
      DropNameLaws(init, own);
      var before := DropName(init, own);
      assert forall i :: 0 <= i < |before| ==> before[i] in before;
    }
  }

  /** What a node adds by itself matches what its place stands for. */
  predicate Agrees(g: Grammar, o: Out, places: seq<Place>, s: Symbol, r: Reference) {
    && multiset(o.symbols)[s] == Times(places, Declares(g, s))
    && multiset(o.references)[r] == Times(places, Refers(g, r))
  }

  lemma AgreesAppend(g: Grammar, a: Out, x: seq<Place>, b: Out, y: seq<Place>, s: Symbol, r: Reference)
    requires Agrees(g, a, x, s, r) && Agrees(g, b, y, s, r)
    ensures Agrees(g, Append(a, b), x + y, s, r)
  {
    TimesConcat(x, y, Declares(g, s));
    TimesConcat(x, y, Refers(g, r));
  }

  lemma AgreesOne(g: Grammar, o: Out, c: Place, s: Symbol, r: Reference)
    requires multiset(o.symbols)[s] == (if SymbolAt(g, c, s) then 1 else 0)
    requires multiset(o.references)[r] == (if RefersAt(g, c, r) then 1 else 0)
    ensures Agrees(g, o, [c], s, r)
  {
    TimesOne(c, Declares(g, s));
    TimesOne(c, Refers(g, r));
  }

  lemma {:induction false} FirstLineIs(text: string)
    ensures var l := FirstLine(text); l <= text && IsFirstLine(text, |l|)
    ensures forall i :: 0 <= i <= |text| && IsFirstLine(text, i) ==> i == |FirstLine(text)|
    decreases |text|
  {
    if text != "" && text[0] != '\n' {
      FirstLineIs(text[1..]);
      assert text == [text[0]] + text[1..];
      forall i | 0 <= i <= |text| && IsFirstLine(text, i)
        ensures i == |FirstLine(text)|
      {
        if i > 0 {
          assert text[1..][..i - 1] == text[..i][1..];
          assert IsFirstLine(text[1..], i - 1);
        }
      }
    }
  }

  lemma ExcerptIsTake(text: string, limit: nat, r: string)
    ensures IsExcerpt(text, limit, r) <==> r == Take(text, limit)
  {
  }

  /** Places that pass through an import, or lie too deep, stand for nothing. */
  predicate Open(g: Grammar, above: Place) {
    |above| <= MAX_DEPTH && forall i :: 0 <= i < |above| ==> !IsImport(g, above[i])
  }

  lemma ImportAgrees(g: Grammar, above: Place, n: Node, s: Symbol, r: Reference)
    requires Open(g, above) && n.nodeType in g.importNodes
    ensures Agrees(g, ImportOut(n), [above + [n]], s, r)
  {
    var c := above + [n];
    assert c[..|c| - 1] == above;
    FirstLineIs(n.text);
    ExcerptIsTake(n.text, 400, s.qualifiedName);
    ExcerptIsTake(FirstLine(n.text), 200, s.name);
    DistinctNames(n.targets);
    ReferencesOnce(Imports, MODULE_SCOPE, Distinct(n.targets, Itself()), n.startLine, r);
    AgreesOne(g, ImportOut(n), c, s, r);
  }

  lemma CallAgrees(g: Grammar, above: Place, n: Node, s: Symbol, r: Reference)
    requires Open(g, above) && n.nodeType !in g.importNodes && !g.IsDefinition(n)
    ensures Agrees(g, if n.nodeType in g.callNodes then CallOut(n, ScopeAt(g, above)) else NOTHING, [above + [n]], s, r)
  {
    var c := above + [n];
    assert c[..|c| - 1] == above;
    JoinIsDotted(g, above);
    AgreesOne(g, if n.nodeType in g.callNodes then CallOut(n, ScopeAt(g, above)) else NOTHING, c, s, r);
  }

  lemma UnnamedAgrees(g: Grammar, above: Place, n: Node, s: Symbol, r: Reference)
    requires n.nodeType !in g.importNodes && g.IsDefinition(n) && n.name.None?
    ensures Agrees(g, NOTHING, [above + [n]], s, r)
  {
    AgreesOne(g, NOTHING, above + [n], s, r);
  }

  lemma DefinitionAgrees(g: Grammar, above: Place, n: Node, top: bool, s: Symbol, r: Reference)
    requires Open(g, above) && n.nodeType !in g.importNodes && g.IsDefinition(n) && n.name.Some?
    ensures Agrees(g, DefinitionOut(g, n, ScopeAt(g, above), top), [above + [n]], s, r)
  {
    var c, o := above + [n], DefinitionOut(g, n, ScopeAt(g, above), top);
    assert c[..|c| - 1] == above;
    NamedAt(g, above, n);
    DefinitionDeclares(g, above, n, top, s);
    DefinitionRefers(g, above, n, top, r);
    AgreesOne(g, o, c, s, r);
  }

  /** The name and the kind the walk gives a named definition. */
  lemma NamedAt(g: Grammar, above: Place, n: Node)
    requires g.IsDefinition(n) && n.name.Some?
    ensures var c, scope := above + [n], ScopeAt(g, above); var kind := DefinitionKind(g, n, scope);
            kind == KindAt(g, c) && Join(scope + [ScopeEntry(kind, n.name.value)]) == Dotted(Names(g, c))
  {
    KindAtPlace(g, above, n);
    ScopeBelow(g, above, n);
    JoinIsDotted(g, above + [n]);
  }

  lemma DefinitionDeclares(g: Grammar, above: Place, n: Node, top: bool, s: Symbol)
    requires Open(g, above) && n.nodeType !in g.importNodes && g.IsDefinition(n) && n.name.Some?
    ensures multiset(DefinitionOut(g, n, ScopeAt(g, above), top).symbols)[s] ==
            if SymbolAt(g, above + [n], s) then 1 else 0
  {
    NamedAt(g, above, n);
  }

  lemma DefinitionRefers(g: Grammar, above: Place, n: Node, top: bool, r: Reference)
    requires Open(g, above) && n.nodeType !in g.importNodes && g.IsDefinition(n) && n.name.Some?
    ensures multiset(DefinitionOut(g, n, ScopeAt(g, above), top).references)[r] ==
            if RefersAt(g, above + [n], r) then 1 else 0
  {
    NamedAt(g, above, n);
    if KindAt(g, above + [n]) in TYPES { BasesRefer(g, above, n, Dotted(Names(g, above + [n])), r); }
  }

  lemma BasesRefer(g: Grammar, above: Place, n: Node, qualified: string, r: Reference)
    requires Open(g, above) && n.nodeType !in g.importNodes && g.IsDefinition(n) && n.name.Some?
    requires qualified == Dotted(Names(g, above + [n])) && KindAt(g, above + [n]) in TYPES
    ensures multiset(ReferencesTo(Inherits, qualified, Bases(n, LastComponent(qualified)), n.startLine))[r] ==
            if RefersAt(g, above + [n], r) then 1 else 0
  {
    DistinctNames(n.bases);
    DropNameLaws(Distinct(n.bases, Itself()), LastComponent(qualified));
    ReferencesOnce(Inherits, qualified, Bases(n, LastComponent(qualified)), n.startLine, r);
    LastComponentEnds(qualified, r.targetName);
  }

  // ---------------------------------------------------------------- the whole walk

  /** All places under one lie beyond it. */
  lemma {:induction false} PlacesBeyond(nodes: seq<Node>, above: Place)
    ensures forall c :: c in PlacesIn(nodes, above) ==> |above| < |c| && above <= c
    decreases nodes, 0
  {
    if nodes != [] {
      PlacesBeyond(nodes[..|nodes| - 1], above);
      PlacesBeyondAt(nodes[|nodes| - 1], above);
    }
  }

  lemma {:induction false} PlacesBeyondAt(n: Node, above: Place)
    ensures forall c :: c in PlacesAt(n, above) ==> |above| < |c| && above <= c
    decreases n, 1
  {
    PlacesBeyond(n.children, above + [n]);
  }

  /** Nothing is emitted under an import or past the depth cut, and no place there stands for anything. */
  lemma ClosedAgrees(g: Grammar, nodes: seq<Node>, above: Place, s: Symbol, r: Reference)
    requires above != [] && (|above| > MAX_DEPTH || IsImport(g, above[|above| - 1]))
    ensures Agrees(g, NOTHING, PlacesIn(nodes, above), s, r)
  {
    var places := PlacesIn(nodes, above);
    PlacesBeyond(nodes, above);
    forall c | c in places
      ensures !Reached(g, c)
    {
      assert c[|above| - 1] == above[|above| - 1];
    }
    TimesNone(places, Declares(g, s));
    TimesNone(places, Refers(g, r));
  }

  lemma {:induction false} ChildAgrees(g: Grammar, n: Node, above: Place, top: bool, s: Symbol, r: Reference)
    requires Open(g, above)
    ensures Agrees(g, WalkChild(g, n, ScopeAt(g, above), |above|, top), PlacesAt(n, above), s, r)
    decreases n, 2
  {
    if n.nodeType in g.importNodes {
      ImportChild(g, n, above, top, s, r);
    } else if IsNamed(g, n) {
      UnderAgrees(g, n, above + [n], false, s, r);
      NamedChild(g, n, above, top, s, r);
    } else {
      UnderAgrees(g, n, above + [n], top, s, r);
      OtherChild(g, n, above, top, s, r);
    }
  }

  lemma ImportChild(g: Grammar, n: Node, above: Place, top: bool, s: Symbol, r: Reference)
    requires Open(g, above) && n.nodeType in g.importNodes
    ensures Agrees(g, WalkChild(g, n, ScopeAt(g, above), |above|, top), PlacesAt(n, above), s, r)
  {
    var c := above + [n];
    ImportAgrees(g, above, n, s, r);
    ClosedAgrees(g, n.children, c, s, r);
    AgreesAppend(g, ImportOut(n), [c], NOTHING, PlacesIn(n.children, c), s, r);
    AppendNothing(ImportOut(n));
  }

  lemma NamedChild(g: Grammar, n: Node, above: Place, top: bool, s: Symbol, r: Reference)
    requires Open(g, above) && n.nodeType !in g.importNodes && IsNamed(g, n)
    requires var c := above + [n]; Agrees(g, Walk(g, n, ScopeAt(g, c), |c|, false), PlacesIn(n.children, c), s, r)
    ensures Agrees(g, WalkChild(g, n, ScopeAt(g, above), |above|, top), PlacesAt(n, above), s, r)
  {
    var c := above + [n];
    ScopeBelow(g, above, n);
    KindAtPlace(g, above, n);
    DefinitionAgrees(g, above, n, top, s, r);
    AgreesAppend(g, DefinitionOut(g, n, ScopeAt(g, above), top), [c], Walk(g, n, ScopeAt(g, c), |c|, false),
                 PlacesIn(n.children, c), s, r);
  }

  lemma OtherChild(g: Grammar, n: Node, above: Place, top: bool, s: Symbol, r: Reference)
    requires Open(g, above) && n.nodeType !in g.importNodes && !IsNamed(g, n)
    requires var c := above + [n]; Agrees(g, Walk(g, n, ScopeAt(g, c), |c|, top), PlacesIn(n.children, c), s, r)
    ensures Agrees(g, WalkChild(g, n, ScopeAt(g, above), |above|, top), PlacesAt(n, above), s, r)
  {
    var c, scope := above + [n], ScopeAt(g, above);
    ScopeBelow(g, above, n);
    OtherAgrees(g, above, n, s, r);
    AgreesAppend(g, OtherOut(g, n, scope), [c], Walk(g, n, scope, |c|, top), PlacesIn(n.children, c), s, r);
    NothingAppend(Walk(g, n, scope, |c|, top));
  }

  /** What a node that is neither an import nor a named definition emits by itself. */
  function OtherOut(g: Grammar, n: Node, scope: seq<ScopeEntry>): Out {
    if !g.IsDefinition(n) && n.nodeType in g.callNodes then CallOut(n, scope) else NOTHING
  }

  lemma OtherAgrees(g: Grammar, above: Place, n: Node, s: Symbol, r: Reference)
    requires Open(g, above) && n.nodeType !in g.importNodes && !IsNamed(g, n)
    ensures Agrees(g, OtherOut(g, n, ScopeAt(g, above)), [above + [n]], s, r)
  {
    if g.IsDefinition(n) { UnnamedAgrees(g, above, n, s, r); } else { CallAgrees(g, above, n, s, r); }
  }

  lemma AppendNothing(o: Out)
    ensures Append(o, NOTHING) == o
  {
  }

  lemma NothingAppend(o: Out)
    ensures Append(NOTHING, o) == o
  {
  }

  lemma {:induction false} UnderAgrees(g: Grammar, n: Node, c: Place, top: bool, s: Symbol, r: Reference)
    requires c != [] && c[|c| - 1] == n && Open(g, c[..|c| - 1]) && !IsImport(g, n)
    ensures Agrees(g, Walk(g, n, ScopeAt(g, c), |c|, top), PlacesIn(n.children, c), s, r)
    decreases n, 1
  {
    if |c| > MAX_DEPTH {
      ClosedAgrees(g, n.children, c, s, r);
    } else {
      AllAgree(g, n.children, c, top, s, r);
    }
  }

  lemma {:induction false} AllAgree(g: Grammar, nodes: seq<Node>, above: Place, top: bool, s: Symbol, r: Reference)
    requires Open(g, above)
    ensures Agrees(g, WalkAll(g, nodes, ScopeAt(g, above), |above|, top), PlacesIn(nodes, above), s, r)
    decreases nodes, 0
  {
    if nodes != [] {
      var init, last := nodes[..|nodes| - 1], nodes[|nodes| - 1];
      AllAgree(g, init, above, top, s, r);
      ChildAgrees(g, last, above, top, s, r);
      AgreesAppend(g, WalkAll(g, init, ScopeAt(g, above), |above|, top), PlacesIn(init, above),
                   WalkChild(g, last, ScopeAt(g, above), |above|, top), PlacesAt(last, above), s, r);
    }
  }

  /**
   * A reference occurs in what the parser extracts exactly as often as there are places in the tree that stand for
   * it: call nodes, types with that base, and imports with that target, reached within the depth cut and under no
   * import, each in the scope its enclosing definitions spell.
   */
  lemma ReferencesAreCounted(g: Grammar, root: Node, sourceLength: nat, r: Reference)
    ensures multiset(Extract(g, root, sourceLength).references)[r] == Times(Places(root), Refers(g, r))
  {
    AllAgree(g, root.children, [], true, Symbol(ImportKind, "", "", 0, 0, 0, 0), r);
  }

  /** And a symbol as often as there are named definitions, or imports, that declare it. */
  lemma SymbolsAreCounted(g: Grammar, root: Node, sourceLength: nat, s: Symbol)
    ensures multiset(Extract(g, root, sourceLength).symbols)[s] == Times(Places(root), Declares(g, s))
  {
    AllAgree(g, root.children, [], true, s, Reference(Calls, "", "", 0));
  }
}
