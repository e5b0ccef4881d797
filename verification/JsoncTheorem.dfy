/** What updateOpenCodeConfig does to the document as its reader sees it: the same
    comments, the same members in the same order, and a plugin array that keeps
    every other entry and holds exactly one relay-flow entry, the pinned one. */
module JsoncTheorem {
  import opened Base
  import opened JsoncLexer
  import opened JsoncSplice
  import opened JsoncParser
  import opened JsoncDocument
  import opened JsoncRows
  import opened JsoncEditor
  import opened JsoncPlan
  import opened JsoncPin
  import opened JsoncCases
  import opened JsoncInsert
  import opened JsoncUpdate

  /* ---- a document as read ---- */

  // The members of the root object and every comment, in the order of the text.
  datatype View = View(members: seq<(string, Json)>, comments: seq<Lexeme>)

  ghost function Read(codec: Codec, data: string): Result<View, UpdateError> {
    match Lex(codec, data, 0)
    case Err(e) => Err(Lexing(e))
    case Ok(ls) =>
      match RootOf(TokensOf(ls, 0))
      case Err(e) => Err(e)
      case Ok(root) => Ok(View(AbsMembers(root.members, SymbolsOf(ls)), CommentsOf(ls)))
  }

  const PINNED_LEAF := Leaf('s', QUOTED, PINNED)

  predicate RelayLeaf(j: Json) { j.Leaf? && IsRelay(j.value) }

  function KeepOthers(js: seq<Json>): seq<Json> {
    if js == [] then [] else (if RelayLeaf(js[0]) then [] else [js[0]]) + KeepOthers(js[1..])
  }

  function PinLeaves(js: seq<Json>): seq<Json> {
    if js == [] then [PINNED_LEAF]
    else if RelayLeaf(js[0]) then [PINNED_LEAF] + KeepOthers(js[1..])
    else [js[0]] + PinLeaves(js[1..])
  }

  // The position of the first member named "plugin".
  function Where(ms: seq<(string, Json)>): (r: nat)
    ensures r <= |ms|
    ensures forall q :: 0 <= q < r ==> ms[q].0 != "plugin"
    ensures r < |ms| ==> ms[r].0 == "plugin"
  {
    if ms == [] || ms[0].0 == "plugin" then 0 else 1 + Where(ms[1..])
  }

  predicate StringArray(j: Json) {
    j.Arr? && forall d :: 0 <= d < |j.elements| ==> j.elements[d].Leaf? && j.elements[d].kind == 's'
  }

  predicate NoLater(ms: seq<(string, Json)>, k: nat) { forall q :: k < q < |ms| ==> ms[q].0 != "plugin" }

  // At most one plugin property, holding an array of strings.
  predicate Acceptable(ms: seq<(string, Json)>) {
    var k := Where(ms);
    k < |ms| ==> StringArray(ms[k].1) && NoLater(ms, k)
  }

  function Pinned(ms: seq<(string, Json)>): seq<(string, Json)>
    requires Acceptable(ms)
  {
    var k := Where(ms);
    if k < |ms| then ms[k := ("plugin", Arr(PinLeaves(ms[k].1.elements)))]
    else ms + [("plugin", Arr([PINNED_LEAF]))]
  }

  /* ---- what pinning means ---- */

  function Count(js: seq<Json>): nat {
    if js == [] then 0 else (if RelayLeaf(js[0]) then 1 else 0) + Count(js[1..])
  }

  lemma PinnedIsRelay()
    ensures RelayLeaf(PINNED_LEAF)
  {
    PinIsRelay();
  }

  lemma {:induction false} OthersNoRelay(js: seq<Json>)
    ensures Count(KeepOthers(js)) == 0 && KeepOthers(KeepOthers(js)) == KeepOthers(js)
    ensures forall d :: 0 <= d < |KeepOthers(js)| ==> !RelayLeaf(KeepOthers(js)[d])
  {
    hide RelayLeaf;
    if js == [] {
    } else {
      var tail := KeepOthers(js[1..]);
      OthersNoRelay(js[1..]);
      if !RelayLeaf(js[0]) {
        assert ([js[0]] + tail)[1..] == tail;
      } else {
        assert [] + tail == tail;
      }
    }
  }

  // The other entries stay as they were, in order; one relay-flow entry remains and
  // it is the pinned one; pinning again changes nothing.
  lemma {:induction false} PinSpec(js: seq<Json>)
    ensures KeepOthers(PinLeaves(js)) == KeepOthers(js)
    ensures Count(PinLeaves(js)) == 1
    ensures forall d :: 0 <= d < |PinLeaves(js)| && RelayLeaf(PinLeaves(js)[d]) ==> PinLeaves(js)[d] == PINNED_LEAF
    ensures PinLeaves(PinLeaves(js)) == PinLeaves(js)
  {
    PinnedIsRelay();
    hide RelayLeaf, PINNED_LEAF;
    if js == [] {
      assert [PINNED_LEAF][1..] == [];
    } else if RelayLeaf(js[0]) {
      var rest := KeepOthers(js[1..]);
      OthersNoRelay(js[1..]);
      assert ([PINNED_LEAF] + rest)[1..] == rest && [] + rest == rest;
    } else {
      var rest := PinLeaves(js[1..]);
      PinSpec(js[1..]);
      assert ([js[0]] + rest)[1..] == rest;
    }
  }

  lemma {:induction false} LeavesLength(es: seq<Symbol>)
    ensures |Leaves(es)| == |es| && forall d :: 0 <= d < |es| ==> Leaves(es)[d] == LeafOf(es[d])
  {
    if es == [] {
    } else {
      LeavesLength(es[1..]);
    }
  }

  lemma LeavesCons(s: Symbol, es: seq<Symbol>)
    ensures Leaves([s] + es) == [LeafOf(s)] + Leaves(es)
  {
    assert ([s] + es)[1..] == es;
  }

  lemma {:induction false} OthersLeaves(es: seq<Symbol>)
    ensures Leaves(Others(es)) == KeepOthers(Leaves(es))
  {
    hide IsRelay;
    if es == [] {
    } else {
      var s, tail := es[0], es[1..];
      OthersLeaves(tail);
      assert es == [s] + tail && ([LeafOf(s)] + Leaves(tail))[1..] == Leaves(tail);
      LeavesCons(s, Others(tail));
      assert [] + Others(tail) == Others(tail) && [] + KeepOthers(Leaves(tail)) == KeepOthers(Leaves(tail));
    }
  }

  lemma {:induction false} PinOfLeaves(es: seq<Symbol>)
    ensures Leaves(Pin(es)) == PinLeaves(Leaves(es))
  {
    hide IsRelay, QUOTED, PINNED;
    if es == [] {
      assert [PIN][1..] == [];
    } else {
      var s, tail := es[0], es[1..];
      assert es == [s] + tail && ([LeafOf(s)] + Leaves(tail))[1..] == Leaves(tail);
      if Relay(s) {
        OthersLeaves(tail);
        LeavesCons(PIN, Others(tail));
      } else {
        PinOfLeaves(tail);
        LeavesCons(s, Pin(tail));
      }
    }
  }

  lemma {:induction false} PinStrings(es: seq<Symbol>)
    requires Strings(es)
    ensures Strings(Pin(es)) && Strings(Others(es))
  {
    hide Relay, QUOTED, PINNED;
    if es == [] {
    } else {
      PinStrings(es[1..]);
    }
  }

  /* ---- the edited document reads as the substituted one ---- */

  lemma SubstDoc(codec: Codec, ls: seq<Lexeme>, es: seq<TextEdit>, ks: seq<nat>, f: map<nat, seq<Lexeme>>) returns (us: seq<Lexeme>)
    requires WellFormed(codec, ls) && Realizes(codec, ls, es, ks, f) && Decodes(codec)
    ensures Disjoint(SortDown(es), |Flatten(ls)|)
    ensures Lex(codec, SpliceAll(Flatten(ls), SortDown(es)), 0) == Ok(us)
    ensures SymbolsOf(us) == SymbolSubst(SymbolsOf(ls), 0, f) && CommentsOf(us) == CommentsOf(ls)
  {
    hide WellFormed, Edits, Suits, Flatten, SymbolsOf, CommentsOf, Decodes, SortDown, Disjoint, SpliceAll, Lex, SymbolSubst, Subst;
    us := Subst(ls, 0, f);
    SpliceIsSubst(ls, ks, SortDown(es), f);
    SubstWellFormed(codec, None, ls, 0, f);
    LexIff(codec, Flatten(us), us);
    SubstSymbols(ls, 0, f);
    SubstComments(ls, 0, f);
  }

  lemma RootParsed(ts: seq<Token>, ms: seq<Member>)
    requires |ts| >= 2 && ts[0].kind == '{' && MembersFrom(ts, 1) == Ok((ms, |ts| - 1))
    ensures RootOf(ts) == Ok(ObjectNode(0, ms, |ts| - 1))
  {
    hide MembersFrom, ElementsFrom;
    assert ValueFrom(ts, 0) == Ok((ObjectNode(0, ms, |ts| - 1), |ts|));
    ParsedRoot(ts, ObjectNode(0, ms, |ts| - 1));
  }

  // The exchanged array parses to its new entries.
  lemma ArrayParses(a: Doc, b: Doc, x: nat, c: nat, v: Node, es: seq<Symbol>, t: bool, ps: seq<Symbol>, t': bool) returns (w: Node, d: int)
    requires PluginArray(a, x, c, v, es, t) && b.Valid() && Strings(ps)
    requires b.syms == Exchanged(a.syms, x, c, Row(ps, t'))
    ensures d == |Row(ps, t')| - (c - x - 1) && |b.syms| == |a.syms| + d && x < |b.ts|
    ensures ValueFrom(b.ts, x) == Ok((w, c + 1 + d)) && Abs(w, b.syms) == Arr(Leaves(ps))
    ensures Moved(a, b, 0, x + 1, 0) && Moved(a, b, c, |a.syms|, d)
  {
    hide Row, Leaves, Strings, StringNodes, Anchored, ElementsFrom, MembersFrom, AbsElements;
    var row := Row(ps, t');
    var c' := x + 1 + |row|;
    d := |row| - (c - x - 1);
    assert b.syms[x + 1..c'] == row && b.syms[c'] == a.syms[c] && b.syms[x] == a.syms[x];
    RowParses(b, x + 1, ps, t');
    w := ArrayNode(x, StringNodes(x + 1, |ps|), c');
  }

  // The members of the document with the array of member k exchanged.
  lemma ExchangeReads(a: Doc, b: Doc, root: Node, k: nat, x: nat, c: nat, es: seq<Symbol>, t: bool, ps: seq<Symbol>, t': bool)
    returns (root': Node)
    requires a.Valid() && Rooted(a.ts, root) && k < |root.members| && root.members[k].name == "plugin"
    requires root.members[k].value.startToken == x && root.members[k].value.endToken == c && c + 1 < |a.ts| && 1 <= x
    requires PluginArray(a, x, c, root.members[k].value, es, t) && b.Valid() && Strings(ps)
    requires b.syms == Exchanged(a.syms, x, c, Row(ps, t'))
    ensures RootOf(b.ts) == Ok(root') && |AbsMembers(root.members, a.syms)| == |root.members|
    ensures AbsMembers(root'.members, b.syms) == AbsMembers(root.members, a.syms)[k := ("plugin", Arr(Leaves(ps)))]
  {
    hide Row, Leaves, Strings, PluginArray, Moved, MembersFrom, ElementsFrom, ValueFrom, Abs, AbsMembers, RootAnchored, Exchanged, Spells;
    var w, d := ArrayParses(a, b, x, c, root.members[k].value, es, t, ps, t');
    DocLengths(a, b);
    ParsedRoot(a.ts, root);
    var e := |a.ts| - 1;
    MovedPart(a, b, 0, x + 1, 0, 1, x);
    MovedPart(a, b, c, |a.syms|, d, c + 1, e + 1);
    MovedAt(a, b, 0, x + 1, 0, 0);
    MembersAfterStart(a.ts, 1, e, root.members, k);
    var ns := ReplaceMember(a, b, 1, e, root.members, k, w, d);
    RootParsed(b.ts, ns);
    root' := ObjectNode(0, ns, |b.ts| - 1);
  }

  lemma DocLengths(a: Doc, b: Doc)
    requires a.Valid() && b.Valid()
    ensures |a.ts| == |a.syms| && |b.ts| == |b.syms|
  {
  }

  // The members of the document with the property added.
  lemma AppendReads(a: Doc, b: Doc, root: Node) returns (root': Node)
    requires a.Valid() && b.Valid() && Rooted(a.ts, root) && |a.syms| == |a.ts| >= 2
    requires var c := |a.syms| - 1;
             b.syms == Inserted(a.syms, c, (if NeedsComma(a.ts, root.members, c) then [COMMA] else [])
                                           + PropertyRow(Symbol('s', "\"plugin\"", "plugin"), PIN))
    ensures RootOf(b.ts) == Ok(root')
    ensures AbsMembers(root'.members, b.syms) == AbsMembers(root.members, a.syms) + [("plugin", Arr([LeafOf(PIN)]))]
  {
    hide MembersFrom, ElementsFrom, ValueFrom, Abs, AbsMembers, RootAnchored, Spells, PropertyRow, PIN, LeafOf;
    var c := |a.syms| - 1;
    var key := Symbol('s', "\"plugin\"", "plugin");
    var comma := NeedsComma(a.ts, root.members, c);
    PinIsRelay();
    ParsedRoot(a.ts, root);
    SpellsAt(a, c);
    SpellsAt(a, 0);
    InsertedParts(a.syms, b.syms, c, comma, key, PIN);
    assert Extended(a, b, 1, c, comma, key, PIN);
    DocLengths(a, b);
    SpellsAt(b, 0);
    var ns := AppendMember(a, b, 1, c, root.members, key, PIN);
    RootParsed(b.ts, ns);
    root' := ObjectNode(0, ns, |b.ts| - 1);
  }

  lemma InsertedParts(s: seq<Symbol>, u: seq<Symbol>, c: nat, comma: bool, key: Symbol, entry: Symbol)
    requires 0 < c < |s| && u == Inserted(s, c, (if comma then [COMMA] else []) + PropertyRow(key, entry))
    ensures var at := if comma then c + 1 else c;
            && |u| == at + 5 + |s| - c && u[at..at + 5] == PropertyRow(key, entry) && (comma ==> u[c] == COMMA)
            && u[at + 5] == s[c] && forall k :: 0 <= k < c ==> u[k] == s[k]
  {
    assert |PropertyRow(key, entry)| == 5;
    hide PropertyRow;
    var row, at := PropertyRow(key, entry), if comma then c + 1 else c;
    assert u == s[..c] + (if comma then [COMMA] else []) + row + s[c..];
  }

  /* ---- which documents are accepted ---- */

  lemma MembersNamed(ms: seq<Member>, syms: seq<Symbol>)
    ensures |AbsMembers(ms, syms)| == |ms| && forall q :: 0 <= q < |ms| ==> AbsMembers(ms, syms)[q].0 == ms[q].name
  {
    AbsMembersLength(ms, syms);
    forall q | 0 <= q < |ms|
      ensures AbsMembers(ms, syms)[q].0 == ms[q].name
    {
      AbsMembersAt(ms, syms, q);
    }
  }

  // The search by index agrees with the reader's view of the members.
  lemma WhereFound(ms: seq<Member>, syms: seq<Symbol>)
    ensures var js, w := AbsMembers(ms, syms), Where(AbsMembers(ms, syms));
            && |js| == |ms|
            && (PluginIndex(ms, 0, None) == Ok(None) <==> w == |js|)
            && (PluginIndex(ms, 0, None) == Ok(Some(w)) <==> w < |js| && NoLater(js, w))
            && (PluginIndex(ms, 0, None).Ok? && w < |js| ==> PluginIndex(ms, 0, None) == Ok(Some(w)) && ms[w].name == "plugin")
  {
    MembersNamed(ms, syms);
    PluginIndexSpec(ms);
    hide AbsMembers, Where, PluginIndex;
    var r := PluginIndex(ms, 0, None);
    if r.Ok? && r.value.Some? { assert r == Ok(Some(r.value.value)); }
  }

  lemma {:induction false} StringsParsed(ts: seq<Token>, v: Node, i: nat)
    requires Anchored(ts, v) && i <= |v.elements|
    ensures RelayIndices(ts, v, i).Ok? <==> forall d :: i <= d < |v.elements| ==> v.elements[d].kind == 's'
    decreases |v.elements| - i
  {
    hide IsRelay, Anchored;
    if i < |v.elements| { StringsParsed(ts, v, i + 1); }
  }

  // An entry that reads as a string was parsed from one string token.
  lemma ScalarKind(a: Doc, i: nat)
    requires a.Valid() && i <= |a.ts| && ValueFrom(a.ts, i).Ok?
    ensures var v := ValueFrom(a.ts, i).value.0;
            (Abs(v, a.syms).Leaf? && Abs(v, a.syms).kind == 's' <==> v.kind == 's') && (Abs(v, a.syms).Arr? <==> v.kind == '[')
  {
    hide MembersFrom, ElementsFrom, AbsMembers, AbsElements;
  }

  lemma {:induction false} ElementKinds(a: Doc, i: nat, c: nat, es: seq<Node>)
    requires a.Valid() && i <= |a.ts| && ElementsFrom(a.ts, i) == Ok((es, c))
    ensures |AbsElements(es, a.syms)| == |es|
    ensures StringArray(Arr(AbsElements(es, a.syms))) <==> forall d :: 0 <= d < |es| ==> es[d].kind == 's'
    decreases |es|
  {
    hide ElementsFrom, MembersFrom, ValueFrom, Abs, Spells;
    if es == [] {
    } else {
      var tail := es[1..];
      var j := FirstElement(a.ts, i, c, es);
      ScalarKind(a, i);
      if tail != [] {
        ElementKinds(a, j + 1, c, tail);
      }
      AbsElementsCons(es[0], tail, a.syms);
      assert es == [es[0]] + tail;
      var js := AbsElements(tail, a.syms);
      assert ([Abs(es[0], a.syms)] + js)[1..] == js;
      StringArrayCons(Abs(es[0], a.syms), js);
      ScalarsCons(es[0], tail);
    }
  }

  lemma StringArrayCons(j: Json, js: seq<Json>)
    ensures StringArray(Arr([j] + js)) <==> j.Leaf? && j.kind == 's' && StringArray(Arr(js))
  {
    if StringArray(Arr([j] + js)) {
      assert ([j] + js)[0] == j;
      forall d | 0 <= d < |js|
        ensures js[d].Leaf? && js[d].kind == 's'
      {
        assert ([j] + js)[d + 1] == js[d];
      }
    }
  }

  lemma ScalarsCons(e: Node, es: seq<Node>)
    ensures (forall d :: 0 <= d < |[e] + es| ==> ([e] + es)[d].kind == 's') <==> e.kind == 's' && forall d :: 0 <= d < |es| ==> es[d].kind == 's'
  {
    if forall d :: 0 <= d < |[e] + es| ==> ([e] + es)[d].kind == 's' {
      assert ([e] + es)[0] == e;
      forall d | 0 <= d < |es|
        ensures es[d].kind == 's'
      {
        assert ([e] + es)[d + 1] == es[d];
      }
    }
  }

  // Member k can be pinned exactly when it reads as an array of strings.
  lemma PinnableReads(ls: seq<Lexeme>, root: Node, k: nat)
    requires Rooted(TokensOf(ls, 0), root) && k < |root.members| && root.members[k].name == "plugin"
    ensures |AbsMembers(root.members, SymbolsOf(ls))| == |root.members|
    ensures AbsMembers(root.members, SymbolsOf(ls))[k].0 == "plugin"
    ensures Pinnable(TokensOf(ls, 0), root, k) <==> StringArray(AbsMembers(root.members, SymbolsOf(ls))[k].1)
  {
    hide TokensOf, SymbolsOf, MembersFrom, ElementsFrom, ValueFrom, RelayIndices, AbsMembers, AbsElements, Spells, StringArray;
    var a, ts, v := DocOf(ls), TokensOf(ls, 0), root.members[k].value;
    DocValid(ls);
    AbsMembersAt(root.members, a.syms, k);
    ParsedRoot(ts, root);
    MembersAfterStart(ts, 1, |ts| - 1, root.members, k);
    ScalarKind(a, v.startToken);
    if v.kind == '[' {
      ArrayAnchored(ts, v.startToken);
      ElementKinds(a, v.startToken + 1, v.closeToken, v.elements);
      StringsParsed(ts, v, 0);
    } else {
      NotArray(Abs(v, a.syms));
    }
  }

  lemma NotArray(j: Json)
    requires !j.Arr?
    ensures !StringArray(j)
  {
  }

  lemma PlanOk(ts: seq<Token>, root: Node, k: nat)
    requires RootAnchored(ts, root)
    ensures PluginIndex(root.members, 0, None) == Ok(None) ==> Plan(ts, root).Ok?
    ensures PluginIndex(root.members, 0, None) == Ok(Some(k)) ==> (Plan(ts, root).Ok? <==> Pinnable(ts, root, k))
    ensures PluginIndex(root.members, 0, None).Err? ==> Plan(ts, root).Err?
  {
    PluginIndexSpec(root.members);
    hide AddPropertyEdits, PluginIndex, Anchored, RelayIndices, AddElementEdit, DropEdits, QUOTED;
    if k < |root.members| && root.members[k].value.kind == '[' { RootArray(ts, root, k); }
  }

  lemma PlanAccepts(ls: seq<Lexeme>, root: Node)
    requires Rooted(TokensOf(ls, 0), root)
    ensures Plan(TokensOf(ls, 0), root).Ok? <==> Acceptable(AbsMembers(root.members, SymbolsOf(ls)))
  {
    hide TokensOf, SymbolsOf, AbsMembers, ValueFrom, RootAnchored, StringArray, Where, PluginIndex, Plan, Pinnable, NoLater;
    WhereFound(root.members, SymbolsOf(ls));
    var w := Where(AbsMembers(root.members, SymbolsOf(ls)));
    PlanOk(TokensOf(ls, 0), root, w);
    if PluginIndex(root.members, 0, None) == Ok(Some(w)) {
      PinnableReads(ls, root, w);
    }
  }

  lemma RootArray(ts: seq<Token>, root: Node, k: nat)
    requires RootAnchored(ts, root) && k < |root.members| && root.members[k].value.kind == '['
    ensures Anchored(ts, root.members[k].value)
  {
  }

  // A document is edited exactly when it reads as one object with at most one
  // plugin property, and that one an array of strings.
  lemma UpdateAccepts(codec: Codec, data: string)
    ensures Update(codec, data).Ok? <==> Read(codec, data).Ok? && Acceptable(Read(codec, data).value.members)
  {
    hide Lex, TokensOf, SymbolsOf, AbsMembers, Plan, SpliceAll, SortDown, Acceptable, Rooted;
    var r := Lex(codec, data, 0);
    if r.Ok? && RootOf(TokensOf(r.value, 0)).Ok? {
      PlanAccepts(r.value, RootOf(TokensOf(r.value, 0)).value);
    }
  }

  /* ---- what the edit does ---- */

  // The plan in the reader's terms.
  ghost predicate Becomes(codec: Codec, ls: seq<Lexeme>, root: Node, us: seq<Lexeme>) {
    && Acceptable(AbsMembers(root.members, SymbolsOf(ls)))
    && CommentsOf(us) == CommentsOf(ls) && RootOf(TokensOf(us, 0)).Ok?
    && AbsMembers(RootOf(TokensOf(us, 0)).value.members, SymbolsOf(us)) == Pinned(AbsMembers(root.members, SymbolsOf(ls)))
  }

  // An array of strings as the reader sees it.
  lemma ArrayReads(a: Doc, x: nat, c: nat, v: Node, es: seq<Symbol>, t: bool)
    requires PluginArray(a, x, c, v, es, t)
    ensures Abs(v, a.syms) == Arr(Leaves(es))
  {
    hide Leaves, Anchored, ElementsFrom, AbsElements;
    if es == [] {
      assert v.elements == [];
      EmptyLeaves(a.syms);
    } else {
      RowLength(es, t);
      assert a.syms[x + 1..c] == Row(es, t);
      RowParses(a, x + 1, es, t);
    }
  }

  lemma EmptyLeaves(syms: seq<Symbol>)
    ensures AbsElements([], syms) == Leaves([])
  {
  }

  lemma BecomesPinned(codec: Codec, ls: seq<Lexeme>, root: Node, k: nat, es: seq<TextEdit>) returns (us: seq<Lexeme>)
    requires WellFormed(codec, ls) && Rooted(TokensOf(ls, 0), root) && Decodes(codec)
    requires PluginIndex(root.members, 0, None) == Ok(Some(k)) && Pinnable(TokensOf(ls, 0), root, k)
    requires RootAnchored(TokensOf(ls, 0), root) && PinEdits(TokensOf(ls, 0), root.members[k].value) == Ok(es)
    ensures Disjoint(SortDown(es), |Flatten(ls)|) && Lex(codec, SpliceAll(Flatten(ls), SortDown(es)), 0) == Ok(us)
    ensures Becomes(codec, ls, root, us)
  {
    hide WellFormed, TokensOf, SymbolsOf, CommentsOf, Realizes, SymbolSubst, PluginArray, RelayIndices, PinEdits, Row, Pin;
    hide Lex, Flatten, SortDown, SpliceAll, Disjoint, Spells, Exchanged, AbsMembers, Leaves, Where, PluginIndex, Strings, RootOf;
    hide Rooted, RootAnchored, Anchored, Decodes, StringArray, KeepOthers, PinLeaves, PINNED_LEAF, QUOTED, NoLater, Abs;
    var v := root.members[k].value;
    DocValid(ls);
    var x, c, row, t := PluginRow(ls, root, k);
    var ks, f, t' := PinEditsRealize(codec, ls, x, c, v, row, t);
    us := SubstDoc(codec, ls, es, ks, f);
    DocValid(us);
    ArrayStrings(DocOf(ls), x, c, v, row, t);
    var root' := ExchangeReads(DocOf(ls), DocOf(us), root, k, x, c, row, t, Pin(row), t');
    PlanAccepts(ls, root);
    WhereFound(root.members, SymbolsOf(ls));
    AbsMembersAt(root.members, SymbolsOf(ls), k);
    ArrayReads(DocOf(ls), x, c, v, row, t);
    PinOfLeaves(row);
    PlanOk(TokensOf(ls, 0), root, k);
  }

  lemma ArrayStrings(a: Doc, x: nat, c: nat, v: Node, es: seq<Symbol>, t: bool)
    requires PluginArray(a, x, c, v, es, t)
    ensures Strings(Pin(es))
  {
    PinStrings(es);
  }

  lemma BecomesAppended(codec: Codec, ls: seq<Lexeme>, root: Node, es: seq<TextEdit>) returns (us: seq<Lexeme>)
    requires WellFormed(codec, ls) && Rooted(TokensOf(ls, 0), root) && Decodes(codec)
    requires PluginIndex(root.members, 0, None) == Ok(None)
    requires RootAnchored(TokensOf(ls, 0), root) && es == AddPropertyEdits(TokensOf(ls, 0), root)
    ensures Disjoint(SortDown(es), |Flatten(ls)|) && Lex(codec, SpliceAll(Flatten(ls), SortDown(es)), 0) == Ok(us)
    ensures Becomes(codec, ls, root, us)
  {
    hide WellFormed, TokensOf, SymbolsOf, CommentsOf, Realizes, SymbolSubst, AddPropertyEdits, RootAnchored, PropertyRow;
    hide Lex, Flatten, SortDown, SpliceAll, Disjoint, Spells, Inserted, AbsMembers, Where, PluginIndex, RootOf, ValueFrom;
    hide Decodes, StringArray, PINNED_LEAF, QUOTED, PIN, NoLater;
    DocValid(ls);
    var edits, ks, f := PropertyCase(codec, ls, root);
    us := SubstDoc(codec, ls, es, ks, f);
    DocValid(us);
    var root' := AppendReads(DocOf(ls), DocOf(us), root);
    WhereFound(root.members, SymbolsOf(ls));
    PinnedLeafIs();
  }

  lemma PinnedLeafIs()
    ensures PINNED_LEAF == LeafOf(PIN)
  {
    hide QUOTED, PINNED;
  }

  lemma UpdateBecomes(codec: Codec, data: string, out: string) returns (ls: seq<Lexeme>, root: Node, us: seq<Lexeme>)
    requires Decodes(codec) && Update(codec, data) == Ok(out)
    ensures Lex(codec, data, 0) == Ok(ls) && RootOf(TokensOf(ls, 0)) == Ok(root)
    ensures Lex(codec, out, 0) == Ok(us) && Becomes(codec, ls, root, us)
  {
    hide WellFormed, TokensOf, Lex, Flatten, SortDown, SpliceAll, Disjoint, Plan, Becomes, Decodes, PinEdits, AddPropertyEdits;
    hide PluginIndex, Pinnable, ValueFrom, RootOf, RootAnchored;
    ls := Lex(codec, data, 0).value;
    var ts := TokensOf(ls, 0);
    root := RootOf(ts).value;
    LexSound(codec, data, 0, ls);
    PlanParts(ts, root);
    var found := PluginIndex(root.members, 0, None).value;
    var es := Plan(ts, root).value;
    if found.None? {
      us := BecomesAppended(codec, ls, root, es);
    } else {
      var k := found.value;
      assert PluginIndex(root.members, 0, None) == Ok(Some(k));
      us := BecomesPinned(codec, ls, root, k, es);
    }
  }

  // The main theorem: the edited document keeps every comment and every member in
  // place, but for the plugin array, which is pinned.
  lemma UpdateMeaning(codec: Codec, data: string, out: string)
    requires Decodes(codec) && Update(codec, data) == Ok(out)
    ensures Read(codec, data).Ok? && Acceptable(Read(codec, data).value.members)
    ensures Read(codec, out) == Ok(View(Pinned(Read(codec, data).value.members), Read(codec, data).value.comments))
  {
    hide Lex, TokensOf, SymbolsOf, CommentsOf, AbsMembers, Acceptable, Pinned, RootOf, Update, Decodes;
    var ls, root, us := UpdateBecomes(codec, data, out);
  }

  /* ---- a second application ---- */

  lemma {:induction false} OthersKeep(es: seq<Symbol>)
    ensures |Others(es)| <= |es|
    ensures |Others(es)| == |es| ==> forall d :: 0 <= d < |es| ==> !Relay(es[d])
  {
    hide Relay;
    if es == [] {
    } else {
      OthersKeep(es[1..]);
    }
  }

  // A row that pinning leaves alone holds one relay-flow entry, the pinned one.
  lemma {:induction false} SettledRow(es: seq<Symbol>) returns (p: nat)
    requires Pin(es) == es
    ensures p < |es| && es[p] == PIN && forall d :: 0 <= d < |es| ==> (Relay(es[d]) <==> d == p)
  {
    PinIsRelay();
    hide Relay, PIN;
    if Relay(es[0]) {
      p := 0;
      OthersKeep(es[1..]);
    } else {
      assert Pin(es)[1..] == Pin(es[1..]);
      p := SettledRow(es[1..]);
      p := p + 1;
    }
  }

  lemma SameLeaves(es: seq<Symbol>, fs: seq<Symbol>)
    requires Leaves(es) == Leaves(fs)
    ensures es == fs
  {
    LeavesLength(es);
    LeavesLength(fs);
    forall d | 0 <= d < |es|
      ensures es[d] == fs[d]
    {
      assert LeafOf(es[d]) == LeafOf(fs[d]);
    }
  }

  lemma OneListed(rs: seq<nat>, es: seq<Symbol>, p: nat)
    requires Lists(rs, es) && p < |es| && forall d :: 0 <= d < |es| ==> (Relay(es[d]) <==> d == p)
    ensures rs == [p]
  {
    hide Relay;
    assert p in rs;
    forall k | 0 <= k < |rs|
      ensures rs[k] == p
    {
      assert rs[k] in rs;
    }
    assert rs[0] == p && rs[|rs| - 1] == p;
    assert |rs| == 1;
  }

  // Replacing a token by its own text.
  lemma SpliceSame(data: string, e: TextEdit)
    requires InRange(e, |data|) && data[e.start..e.end] == e.text
    ensures SortDown([e]) == [e] && Disjoint([e], |data|) && SpliceAll(data, [e]) == data
  {
    SortDownSpec([e]);
    assert [e][1..] == [];
    assert SpliceOne(data, e) == data;
  }

  lemma SettledEdits(codec: Codec, ls: seq<Lexeme>, x: nat, c: nat, v: Node, es: seq<Symbol>, t: bool)
    requires WellFormed(codec, ls) && PluginArray(DocOf(ls), x, c, v, es, t) && Anchored(TokensOf(ls, 0), v)
    requires RelayIndices(TokensOf(ls, 0), v, 0).Ok? && Pin(es) == es
    ensures PinEdits(TokensOf(ls, 0), v).Ok?
    ensures var edits := SortDown(PinEdits(TokensOf(ls, 0), v).value);
            Disjoint(edits, |Flatten(ls)|) && SpliceAll(Flatten(ls), edits) == Flatten(ls)
  {
    hide WellFormed, PluginArray, Anchored, TokensOf, SymbolsOf, RelayIndices, Lists, Flatten, LexOk, LexemeAt, Open, TokenCount;
    hide SortDown, SpliceAll, Disjoint, Pin, Relay, QUOTED, PINNED, DropEdits, AddElementEdit;
    var ts, rs := TokensOf(ls, 0), RelayIndices(TokensOf(ls, 0), v, 0).value;
    RelayList(DocOf(ls), x, c, v, es, t, rs);
    var p := SettledRow(es);
    OneListed(rs, es, p);
    ArrayEntry(DocOf(ls), x, c, v, es, t, p);
    DocValid(ls);
    ValidLength(DocOf(ls), x, c, v, es, t);
    var q := x + 1 + 2 * p;
    TokenFacts(codec, ls, q);
    assert DropEdits(ts, v, rs[1..]) == [] by { NoDrops(ts, v, rs[1..]); }
    var e := TextEdit(ts[q].start, ts[q].end, QUOTED);
    assert [e] + [] == [e];
    assert PinEdits(ts, v) == Ok([e]);
    SpliceSame(Flatten(ls), e);
  }

  // A document whose plugin array is already pinned comes back byte for byte.
  lemma SettledDocument(codec: Codec, data: string)
    requires Read(codec, data).Ok? && Acceptable(Read(codec, data).value.members)
    requires Pinned(Read(codec, data).value.members) == Read(codec, data).value.members
    ensures Update(codec, data) == Ok(data)
  {
    hide WellFormed, TokensOf, SymbolsOf, CommentsOf, AbsMembers, PluginArray, RelayIndices, PinEdits, PluginIndex, Rooted, Where, NoLater;
    hide Lex, Flatten, SortDown, SpliceAll, Disjoint, Plan, Pin, Leaves, PinLeaves, StringArray, Anchored, Abs, RootAnchored, Acceptable;
    UpdateAccepts(codec, data);
    var ls := Lex(codec, data, 0).value;
    var ts := TokensOf(ls, 0);
    var root := RootOf(ts).value;
    RootedIs(ts, root);
    LexSound(codec, data, 0, ls);
    PlanParts(ts, root);
    WhereFound(root.members, SymbolsOf(ls));
    var k := Where(AbsMembers(root.members, SymbolsOf(ls)));
    var x, c, es, t := PluginRow(ls, root, k);
    AbsMembersAt(root.members, SymbolsOf(ls), k);
    ArrayReads(DocOf(ls), x, c, root.members[k].value, es, t);
    PinOfLeaves(es);
    SameLeaves(Pin(es), es);
    SettledEdits(codec, ls, x, c, root.members[k].value, es, t);
  }

  lemma RootedIs(ts: seq<Token>, root: Node)
    requires Rooted(ts, root)
    ensures RootAnchored(ts, root)
  {
  }

  lemma {:induction false} WhereSame(ms: seq<(string, Json)>, k: nat)
    requires k < |ms| && ms[k].0 == "plugin" && forall q :: 0 <= q < k ==> ms[q].0 != "plugin"
    ensures Where(ms) == k
  {
  }

  lemma PinLeavesStrings(js: seq<Json>)
    requires StringArray(Arr(js))
    ensures StringArray(Arr(PinLeaves(js))) && StringArray(Arr(KeepOthers(js)))
    decreases |js|
  {
    hide RelayLeaf, QUOTED, PINNED;
    if js != [] {
      StringArrayCons(js[0], js[1..]);
      assert js == [js[0]] + js[1..];
      PinLeavesStrings(js[1..]);
    }
  }

  // Pinning the members is idempotent.
  lemma PinnedTwice(ms: seq<(string, Json)>)
    requires Acceptable(ms)
    ensures Acceptable(Pinned(ms)) && Pinned(Pinned(ms)) == Pinned(ms)
  {
    hide Where, PinLeaves, KeepOthers, QUOTED, PINNED;
    var k, ps := Where(ms), Pinned(ms);
    WhereSame(ps, k);
    if k < |ms| {
      PinLeavesStrings(ms[k].1.elements);
      PinSpec(ms[k].1.elements);
    } else {
      PinnedAlone();
    }
  }

  lemma PinnedAlone()
    ensures PinLeaves([PINNED_LEAF]) == [PINNED_LEAF]
  {
    PinSpec([]);
  }

  // The second main theorem: applying the edit again changes no byte.
  lemma UpdateIdempotent(codec: Codec, data: string, out: string)
    requires Decodes(codec) && Update(codec, data) == Ok(out)
    ensures Update(codec, out) == Ok(out)
  {
    hide Read, Update, Acceptable, Pinned, Decodes;
    UpdateMeaning(codec, data, out);
    PinnedTwice(Read(codec, data).value.members);
    SettledDocument(codec, out);
  }
}
