/** updateOpenCodeConfig as a whole: its specification `Update` and the method that
    runs the tokenizer, the parser, the search and the splices. */
module JsoncUpdate {
  import opened Base
  import opened JsoncLexer
  import opened JsoncSplice
  import opened JsoncParser
  import opened JsoncDocument
  import opened JsoncRows
  import opened JsoncEditor
  import opened JsoncPlan
  import opened JsoncPin
  import opened JsoncCases
  import opened JsoncInsert

  /* ---- the plugin array of a parsed document ---- */

  lemma {:induction false} CommasAlike(ls: seq<Lexeme>)
    ensures Commas(SymbolsOf(ls))
  {
    if ls == [] {
    } else {
      CommasAlike(ls[1..]);
    }
  }

  ghost predicate Rooted(ts: seq<Token>, root: Node) {
    ValueFrom(ts, 0) == Ok((root, |ts|)) && root.kind == '{' && RootAnchored(ts, root)
  }

  // Member k of the root is an array of strings: its row of tokens.
  lemma PluginRow(ls: seq<Lexeme>, root: Node, k: nat) returns (x: nat, c: nat, es: seq<Symbol>, t: bool)
    requires Rooted(TokensOf(ls, 0), root) && k < |root.members|
    requires root.members[k].value.kind == '['
    requires Anchored(TokensOf(ls, 0), root.members[k].value) && RelayIndices(TokensOf(ls, 0), root.members[k].value, 0).Ok?
    ensures PluginArray(DocOf(ls), x, c, root.members[k].value, es, t)
    ensures 3 <= x && c + 1 < |TokensOf(ls, 0)|
    ensures root.members[k].value.startToken == x && root.members[k].value.endToken == c
  {
    hide MembersFrom, ElementsFrom, ValueFrom, TokensOf, SymbolsOf, RelayIndices, Spells, Row, StringNodes;
    var a, ts, v := DocOf(ls), TokensOf(ls, 0), root.members[k].value;
    DocValid(ls);
    CommasAlike(ls);
    ParsedRoot(ts, root);
    MembersAfterStart(ts, 1, |ts| - 1, root.members, k);
    x, c := v.startToken, v.closeToken;
    ArrayAnchored(ts, x);
    RelayIndicesRange(ts, v, 0);
    es, t := ParsedRow(a, x + 1, c, v.elements);
    SpellsAt(a, x);
    SpellsAt(a, c);
  }

  lemma PinEditsRealize(codec: Codec, ls: seq<Lexeme>, x: nat, c: nat, v: Node, es: seq<Symbol>, t: bool)
    returns (ks: seq<nat>, f: map<nat, seq<Lexeme>>, t': bool)
    requires WellFormed(codec, ls) && PluginArray(DocOf(ls), x, c, v, es, t) && Anchored(TokensOf(ls, 0), v)
    requires PinEdits(TokensOf(ls, 0), v).Ok?
    ensures Realizes(codec, ls, PinEdits(TokensOf(ls, 0), v).value, ks, f)
    ensures x < c <= |SymbolsOf(ls)|
    ensures SymbolSubst(SymbolsOf(ls), 0, f) == Exchanged(SymbolsOf(ls), x, c, Row(Pin(es), t'))
  {
    var rs := RelayIndices(TokensOf(ls, 0), v, 0);
    assert rs.Ok?;
    hide WellFormed, PluginArray, TokensOf, SymbolsOf, Realizes, SymbolSubst, Pin, Row, Anchored, RelayIndices, PinEdits;
    ArrayShape(DocOf(ls), x, c, v, es, t);
    var edits: seq<TextEdit>;
    if rs == Ok([]) {
      edits, ks, f := AddCase(codec, ls, x, c, v, es, t);
      t' := false;
    } else {
      edits, ks, f := PinCase(codec, ls, x, c, v, es, t);
      t' := t;
    }
  }

  // Member k is the plugin property and holds an array of strings.
  ghost predicate Pinnable(ts: seq<Token>, root: Node, k: nat) {
    && k < |root.members| && root.members[k].value.kind == '[' && root.members[k].name == "plugin"
    && Anchored(ts, root.members[k].value) && RelayIndices(ts, root.members[k].value, 0).Ok?
  }

  lemma PlanParts(ts: seq<Token>, root: Node)
    requires RootAnchored(ts, root) && Plan(ts, root).Ok?
    ensures PluginIndex(root.members, 0, None).Ok?
    ensures PluginIndex(root.members, 0, None) == Ok(None) ==> Plan(ts, root) == Ok(AddPropertyEdits(ts, root))
    ensures forall k: nat :: PluginIndex(root.members, 0, None) == Ok(Some(k)) ==>
              (Pinnable(ts, root, k) && Plan(ts, root) == PinEdits(ts, root.members[k].value))
  {
    hide AddPropertyEdits, AddElementEdit, DropEdits, RelayIndices, Anchored;
    PluginIndexSpec(root.members);
  }

  // Every plan is a substitution.
  lemma PlanRealizes(codec: Codec, ls: seq<Lexeme>, root: Node) returns (ks: seq<nat>, f: map<nat, seq<Lexeme>>)
    requires WellFormed(codec, ls) && Rooted(TokensOf(ls, 0), root) && Plan(TokensOf(ls, 0), root).Ok?
    ensures Realizes(codec, ls, Plan(TokensOf(ls, 0), root).value, ks, f)
  {
    hide WellFormed, TokensOf, SymbolsOf, Realizes, SymbolSubst, RootAnchored, Plan, ValueFrom, PluginArray, RelayIndices, PinEdits;
    var ts := TokensOf(ls, 0);
    PlanParts(ts, root);
    var found := PluginIndex(root.members, 0, None).value;
    if found.None? {
      var edits: seq<TextEdit>;
      edits, ks, f := PropertyCase(codec, ls, root);
    } else {
      var k := found.value;
      assert PluginIndex(root.members, 0, None) == Ok(Some(k));
      var x, c, es, t := PluginRow(ls, root, k);
      var t': bool;
      ks, f, t' := PinEditsRealize(codec, ls, x, c, root.members[k].value, es, t);
    }
  }

  lemma PlanDisjoint(codec: Codec, ls: seq<Lexeme>, root: Node)
    requires WellFormed(codec, ls) && Rooted(TokensOf(ls, 0), root) && Plan(TokensOf(ls, 0), root).Ok?
    ensures Disjoint(SortDown(Plan(TokensOf(ls, 0), root).value), |Flatten(ls)|)
  {
    hide WellFormed, TokensOf, RootAnchored, Plan, Edits, Suits, Flatten, CommentsOf, SortDown, Disjoint;
    var ks, f := PlanRealizes(codec, ls, root);
    SpliceIsSubst(ls, ks, SortDown(Plan(TokensOf(ls, 0), root).value), f);
  }

  /* ---- the specification ---- */

  // The parsed root of a tokenized document.
  function RootOf(ts: seq<Token>): (r: Result<Node, UpdateError>)
    ensures r.Ok? ==> Rooted(ts, r.value)
  {
    match ValueFrom(ts, 0)
    case Err(e) => Err(Parsing(e))
    case Ok((root, n)) =>
      if n != |ts| || root.kind != '{' then Err(RootNotObject)
      else
        ParsedRoot(ts, root);
        Ok(root)
  }

  function Update(codec: Codec, data: string): Result<string, UpdateError> {
    match Lex(codec, data, 0)
    case Err(e) => Err(Lexing(e))
    case Ok(ls) =>
      match RootOf(TokensOf(ls, 0))
      case Err(e) => Err(e)
      case Ok(root) =>
        match Plan(TokensOf(ls, 0), root)
        case Err(e) => Err(e)
        case Ok(es) =>
          LexSound(codec, data, 0, ls);
          PlanDisjoint(codec, ls, root);
          Ok(SpliceAll(data, SortDown(es)))
  }

  /* ---- the program ---- */

  // commaBefore.
  method FindComma(ts: seq<Token>, after: nat, before: nat) returns (r: int)
    requires before <= |ts|
    ensures r == CommaBefore(ts, after, before) && r < |ts|
  {
    var i := after + 1;
    while i < before
      invariant CommaFrom(ts, i, before) == CommaBefore(ts, after, before)
    {
      if ts[i].kind == ',' {
        return i;
      }
      i := i + 1;
    }
    return -1;
  }

  // addArrayElementEdit.
  method ElementEdit(ts: seq<Token>, v: Node) returns (e: TextEdit)
    requires Anchored(ts, v)
    ensures e == AddElementEdit(ts, v)
  {
    hide QUOTED, CommaBefore;
    if |v.elements| == 0 {
      return TextEdit(ts[v.closeToken].start, ts[v.closeToken].start, QUOTED);
    }
    var last := v.elements[|v.elements| - 1];
    var comma := FindComma(ts, last.endToken, v.closeToken);
    if comma >= 0 {
      return TextEdit(ts[comma].end, ts[comma].end, " " + QUOTED);
    }
    return TextEdit(ts[last.endToken].end, ts[last.endToken].end, ", " + QUOTED);
  }

  // The edits of addPluginProperty.
  method PropertyPlan(ts: seq<Token>, root: Node) returns (edits: seq<TextEdit>)
    requires RootAnchored(ts, root)
    ensures edits == AddPropertyEdits(ts, root)
  {
    hide PROPERTY, CommaBefore, Anchored;
    var closeAt := ts[root.closeToken].start;
    edits := [TextEdit(closeAt, closeAt, PROPERTY)];
    if |root.members| > 0 {
      var last := root.members[|root.members| - 1].value.endToken;
      var comma := FindComma(ts, last, root.closeToken);
      if comma < 0 {
        edits := edits + [TextEdit(ts[last].end, ts[last].end, ",")];
      }
    }
  }

  // The search for the plugin property.
  method FindPlugin(ms: seq<Member>) returns (r: Result<Option<nat>, UpdateError>)
    ensures r == PluginIndex(ms, 0, None)
  {
    var found: Option<nat> := None;
    var i := 0;
    while i < |ms|
      invariant 0 <= i <= |ms|
      invariant PluginIndex(ms, i, found) == PluginIndex(ms, 0, None)
    {
      if ms[i].name == "plugin" {
        if found.Some? {
          return Err(DuplicatePlugin);
        }
        found := Some(i);
      }
      i := i + 1;
    }
    return Ok(found);
  }

  ghost function Collected(first: int, duplicates: seq<nat>): seq<nat> {
    if first < 0 then [] else [first] + duplicates
  }

  ghost function Onto(rs: seq<nat>, r: Result<seq<nat>, UpdateError>): Result<seq<nat>, UpdateError> {
    match r
    case Err(e) => Err(e)
    case Ok(rest) => Ok(rs + rest)
  }

  lemma OntoNothing(r: Result<seq<nat>, UpdateError>)
    ensures Onto([], r) == r
  {
    if r.Ok? { assert [] + r.value == r.value; }
  }

  lemma OntoNone(rs: seq<nat>)
    ensures Onto(rs, Ok([])) == Ok(rs)
  {
    assert rs + [] == rs;
  }

  lemma OntoStep(ts: seq<Token>, v: Node, rs: seq<nat>, i: nat)
    requires Anchored(ts, v) && i < |v.elements| && v.elements[i].kind == 's'
    ensures v.elements[i].startToken < |ts|
    ensures Onto(rs, RelayIndices(ts, v, i))
         == Onto(if IsRelay(ts[v.elements[i].startToken].value) then rs + [i] else rs, RelayIndices(ts, v, i + 1))
  {
    hide IsRelay;
    var r := RelayIndices(ts, v, i + 1);
    if r.Ok? { assert rs + ([i] + r.value) == rs + [i] + r.value; }
  }

  lemma CollectedStep(first: int, duplicates: seq<nat>, i: nat)
    requires first < 0 ==> duplicates == []
    ensures Collected(first, duplicates) + [i] == if first < 0 then Collected(i, []) else Collected(first, duplicates + [i])
  {
  }

  // The search for relay-flow entries: the first and the later ones.
  method FindRelays(ts: seq<Token>, v: Node) returns (r: Result<(int, seq<nat>), UpdateError>)
    requires Anchored(ts, v)
    ensures r.Err? ==> RelayIndices(ts, v, 0) == Err(r.error)
    ensures r.Ok? ==> RelayIndices(ts, v, 0) == Ok(Collected(r.value.0, r.value.1)) && (r.value.0 < 0 ==> r.value.1 == [])
  {
    hide IsRelay, Onto, Collected, RelayIndices;
    var first: int := -1;
    var duplicates: seq<nat> := [];
    var i := 0;
    assert Collected(-1, []) == [] by { CollectedNothing(); }
    OntoNothing(RelayIndices(ts, v, 0));
    while i < |v.elements|
      invariant 0 <= i <= |v.elements|
      invariant first < 0 ==> duplicates == []
      invariant Onto(Collected(first, duplicates), RelayIndices(ts, v, i)) == RelayIndices(ts, v, 0)
    {
      var tok := ts[v.elements[i].startToken];
      if v.elements[i].kind != 's' {
        OntoFails(ts, v, Collected(first, duplicates), i);
        return Err(ElementNotString(i));
      }
      OntoStep(ts, v, Collected(first, duplicates), i);
      if IsRelay(tok.value) {
        CollectedStep(first, duplicates, i);
        if first < 0 {
          first := i;
        } else {
          duplicates := duplicates + [i];
        }
      }
      i := i + 1;
    }
    RelaysDone(ts, v);
    OntoNone(Collected(first, duplicates));
    return Ok((first, duplicates));
  }

  lemma CollectedNothing()
    ensures Collected(-1, []) == []
  {
  }

  lemma OntoFails(ts: seq<Token>, v: Node, rs: seq<nat>, i: nat)
    requires Anchored(ts, v) && i < |v.elements| && v.elements[i].kind != 's'
    ensures Onto(rs, RelayIndices(ts, v, i)) == Err(ElementNotString(i))
  {
  }

  lemma RelaysDone(ts: seq<Token>, v: Node)
    requires Anchored(ts, v)
    ensures RelayIndices(ts, v, |v.elements|) == Ok([])
  {
  }

  // The edits for an array.
  method ArrayPlan(ts: seq<Token>, v: Node) returns (r: Result<seq<TextEdit>, UpdateError>)
    requires Anchored(ts, v)
    ensures r == PinEdits(ts, v)
  {
    hide Anchored, RelayIndices, QUOTED, DropEdits, AddElementEdit;
    var found := FindRelays(ts, v);
    if found.Err? {
      return Err(found.error);
    }
    var (first, duplicates) := found.value;
    RelayIndicesRange(ts, v, 0);
    if first < 0 {
      var e := ElementEdit(ts, v);
      return Ok([e]);
    }
    var rs: seq<nat> := [first] + duplicates;
    assert rs[0] == first && rs[1..] == duplicates;
    assert forall d :: 0 <= d < |duplicates| ==> duplicates[d] == rs[d + 1];
    assert first < |v.elements|;
    FirstInside(ts, v);
    var tok := ts[v.elements[first].startToken];
    var drops := Drops(ts, v, duplicates);
    return Ok([TextEdit(tok.start, tok.end, QUOTED)] + drops);
  }

  method Drops(ts: seq<Token>, v: Node, duplicates: seq<nat>) returns (edits: seq<TextEdit>)
    requires Anchored(ts, v) && forall k :: 0 <= k < |duplicates| ==> 0 < duplicates[k] < |v.elements|
    ensures edits == DropEdits(ts, v, duplicates)
  {
    hide Anchored, CommaBefore, DropEdits;
    edits := [];
    var d := 0;
    assert duplicates[0..] == duplicates;
    while d < |duplicates|
      invariant 0 <= d <= |duplicates|
      invariant edits + DropEdits(ts, v, duplicates[d..]) == DropEdits(ts, v, duplicates)
    {
      var element := v.elements[duplicates[d]];
      EntryInside(ts, v, duplicates[d]);
      var comma := FindComma(ts, v.elements[duplicates[d] - 1].endToken, element.startToken);
      DropsStep(ts, v, duplicates, d);
      edits := edits + [TextEdit(ts[comma].start, ts[comma].end, ""),
                        TextEdit(ts[element.startToken].start, ts[element.endToken].end, "")];
      d := d + 1;
    }
    assert DropEdits(ts, v, duplicates[d..]) == [] by { NoDrops(ts, v, duplicates[d..]); }
  }

  lemma NoDrops(ts: seq<Token>, v: Node, ds: seq<nat>)
    requires Anchored(ts, v) && ds == []
    ensures DropEdits(ts, v, ds) == []
  {
  }

  lemma DropsStep(ts: seq<Token>, v: Node, ds: seq<nat>, d: nat)
    requires Anchored(ts, v) && d < |ds| && forall k :: 0 <= k < |ds| ==> 0 < ds[k] < |v.elements|
    ensures v.elements[ds[d]].startToken < |ts| && v.elements[ds[d]].endToken < |ts|
    ensures var comma, element := CommaBefore(ts, v.elements[ds[d] - 1].endToken, v.elements[ds[d]].startToken), v.elements[ds[d]];
            && 0 <= comma < |ts|
            && DropEdits(ts, v, ds[d..])
               == [TextEdit(ts[comma].start, ts[comma].end, ""),
                   TextEdit(ts[element.startToken].start, ts[element.endToken].end, "")] + DropEdits(ts, v, ds[d + 1..])
  {
    EntryInside(ts, v, ds[d]);
    hide Anchored, CommaBefore;
    assert ds[d..][1..] == ds[d + 1..];
  }

  lemma FirstInside(ts: seq<Token>, v: Node)
    requires Anchored(ts, v)
    ensures forall d :: 0 <= d < |v.elements| ==> v.elements[d].startToken < |ts|
  {
  }

  lemma EntryInside(ts: seq<Token>, v: Node, d: nat)
    requires Anchored(ts, v) && 0 < d < |v.elements|
    ensures v.elements[d].startToken < |ts| && v.elements[d].endToken < |ts|
    ensures 0 <= CommaBefore(ts, v.elements[d - 1].endToken, v.elements[d].startToken) < |ts|
  {
    assert Spaced(ts, v.elements, d - 1);
  }

  method PlanEdits(ts: seq<Token>, root: Node) returns (r: Result<seq<TextEdit>, UpdateError>)
    requires RootAnchored(ts, root)
    ensures r == Plan(ts, root)
  {
    hide PinEdits, AddPropertyEdits, Anchored;
    var found := FindPlugin(root.members);
    if found.Err? {
      return Err(found.error);
    }
    PluginIndexSpec(root.members);
    if found.value.None? {
      var edits := PropertyPlan(ts, root);
      return Ok(edits);
    }
    var v := root.members[found.value.value].value;
    if v.kind != '[' {
      return Err(PluginNotArray);
    }
    r := ArrayPlan(ts, v);
  }

  // updateOpenCodeConfig.
  method UpdateOpenCodeConfig(codec: Codec, data: string) returns (r: Result<string, UpdateError>)
    ensures r == Update(codec, data)
  {
    hide Plan, ValueFrom, Lex, SpliceAll, SortDown, TokensOf, Disjoint, Rooted;
    var scanned := Tokenize(codec, data);
    if scanned.Err? {
      return Err(Lexing(scanned.error));
    }
    var tokens := scanned.value;
    var p := new Parser(tokens);
    var root := p.ParseValue();
    if root.Err? {
      return Err(Parsing(root.error));
    }
    if p.index != |tokens| || root.value.kind != '{' {
      return Err(RootNotObject);
    }
    ghost var ls := Lex(codec, data, 0).value;
    LexSound(codec, data, 0, ls);
    assert RootAnchored(tokens, root.value) by { ParsedRoot(tokens, root.value); }
    var plan := PlanEdits(tokens, root.value);
    if plan.Err? {
      return Err(plan.error);
    }
    PlanSorted(codec, ls, root.value);
    var edits := new TextEdit[|plan.value|](i requires 0 <= i < |plan.value| => plan.value[i]);
    assert edits[..] == plan.value;
    var out := ApplyTextEdits(data, edits);
    return Ok(out);
  }

  lemma PlanSorted(codec: Codec, ls: seq<Lexeme>, root: Node)
    requires WellFormed(codec, ls) && ValueFrom(TokensOf(ls, 0), 0) == Ok((root, |TokensOf(ls, 0)|)) && root.kind == '{'
    requires RootAnchored(TokensOf(ls, 0), root) && Plan(TokensOf(ls, 0), root).Ok?
    ensures Disjoint(SortDown(Plan(TokensOf(ls, 0), root).value), |Flatten(ls)|)
  {
    PlanDisjoint(codec, ls, root);
  }
}
