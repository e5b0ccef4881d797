/** The recursive-descent parser of internal/harness/opencode/repo_setup.go.

    `ValueFrom` is its specification on token indices; `Parser` is the source's
    object, which advances `index`. `Relocate` is the fact editing rests on: what a
    value parses to depends on its own tokens only, wherever they stand. */
module JsoncParser {
  import opened Base
  import opened JsoncLexer

  datatype Node = Node(kind: char, startToken: nat, endToken: nat,
                       members: seq<Member>, elements: seq<Node>, closeToken: nat)
  datatype Member = Member(name: string, value: Node)

  datatype ParseError =
    | ExpectedValue
    | UnexpectedToken(kind: char, at: nat)
    | UnterminatedObject
    | KeyNotString(at: nat)
    | MissingColon(key: string)
    | MissingMemberComma(key: string)
    | UnterminatedArray
    | MissingElementComma

  function Scalar(kind: char, at: nat): Node { Node(kind, at, at, [], [], 0) }

  function ObjectNode(start: nat, members: seq<Member>, close: nat): Node {
    Node('{', start, close, members, [], close)
  }

  function ArrayNode(start: nat, elements: seq<Node>, close: nat): Node {
    Node('[', start, close, [], elements, close)
  }

  // A value that starts at token i, and the index after it.
  function ValueFrom(ts: seq<Token>, i: nat): (r: Result<(Node, nat), ParseError>)
    requires i <= |ts|
    ensures r.Ok? ==> i < r.value.1 <= |ts|
    decreases |ts| - i, 1
  {
    if i == |ts| then Err(ExpectedValue)
    else
      var kind := ts[i].kind;
      if kind == 's' || kind == 'v' then Ok((Scalar(kind, i), i + 1))
      else if kind == '{' then
        match MembersFrom(ts, i + 1)
        case Err(e) => Err(e)
        case Ok((ms, close)) => Ok((ObjectNode(i, ms, close), close + 1))
      else if kind == '[' then
        match ElementsFrom(ts, i + 1)
        case Err(e) => Err(e)
        case Ok((es, close)) => Ok((ArrayNode(i, es, close), close + 1))
      else Err(UnexpectedToken(kind, ts[i].start))
  }

  // The members from token i to the closing brace, and the index of that brace.
  function MembersFrom(ts: seq<Token>, i: nat): (r: Result<(seq<Member>, nat), ParseError>)
    requires i <= |ts|
    ensures r.Ok? ==> i <= r.value.1 < |ts| && ts[r.value.1].kind == '}'
    decreases |ts| - i, 0
  {
    if i == |ts| then Err(UnterminatedObject)
    else if ts[i].kind == '}' then Ok(([], i))
    else if ts[i].kind != 's' then Err(KeyNotString(ts[i].start))
    else if i + 1 == |ts| || ts[i + 1].kind != ':' then Err(MissingColon(ts[i].value))
    else
      match ValueFrom(ts, i + 2)
      case Err(e) => Err(e)
      case Ok((v, j)) =>
        var m := Member(ts[i].value, v);
        if j < |ts| && ts[j].kind == ',' then PrependMember(m, MembersFrom(ts, j + 1))
        else if j == |ts| || ts[j].kind != '}' then Err(MissingMemberComma(m.name))
        else Ok(([m], j))
  }

  function ElementsFrom(ts: seq<Token>, i: nat): (r: Result<(seq<Node>, nat), ParseError>)
    requires i <= |ts|
    ensures r.Ok? ==> i <= r.value.1 < |ts| && ts[r.value.1].kind == ']'
    decreases |ts| - i, 2
  {
    if i == |ts| then Err(UnterminatedArray)
    else if ts[i].kind == ']' then Ok(([], i))
    else
      match ValueFrom(ts, i)
      case Err(e) => Err(e)
      case Ok((v, j)) =>
        if j < |ts| && ts[j].kind == ',' then PrependElement(v, ElementsFrom(ts, j + 1))
        else if j == |ts| || ts[j].kind != ']' then Err(MissingElementComma)
        else Ok(([v], j))
  }

  function PrependMember(m: Member, r: Result<(seq<Member>, nat), ParseError>): Result<(seq<Member>, nat), ParseError> {
    match r
    case Err(e) => Err(e)
    case Ok((ms, close)) => Ok(([m] + ms, close))
  }

  function PrependElement(v: Node, r: Result<(seq<Node>, nat), ParseError>): Result<(seq<Node>, nat), ParseError> {
    match r
    case Err(e) => Err(e)
    case Ok((es, close)) => Ok(([v] + es, close))
  }

  // What the loops have left to do once `ms` (or `es`) is collected.
  ghost function AfterMembers(ms: seq<Member>, r: Result<(seq<Member>, nat), ParseError>): Result<(seq<Member>, nat), ParseError> {
    match r
    case Err(e) => Err(e)
    case Ok((rest, close)) => Ok((ms + rest, close))
  }

  ghost function AfterElements(es: seq<Node>, r: Result<(seq<Node>, nat), ParseError>): Result<(seq<Node>, nat), ParseError> {
    match r
    case Err(e) => Err(e)
    case Ok((rest, close)) => Ok((es + rest, close))
  }

  lemma AfterNothing(ms: Result<(seq<Member>, nat), ParseError>, es: Result<(seq<Node>, nat), ParseError>)
    ensures AfterMembers([], ms) == ms && AfterElements([], es) == es
  {
    if ms.Ok? { assert [] + ms.value.0 == ms.value.0; }
    if es.Ok? { assert [] + es.value.0 == es.value.0; }
  }

  lemma AfterMembersStep(ms: seq<Member>, m: Member, r: Result<(seq<Member>, nat), ParseError>)
    ensures AfterMembers(ms, PrependMember(m, r)) == AfterMembers(ms + [m], r)
  {
    if r.Ok? { assert ms + ([m] + r.value.0) == ms + [m] + r.value.0; }
  }

  lemma AfterElementsStep(es: seq<Node>, v: Node, r: Result<(seq<Node>, nat), ParseError>)
    ensures AfterElements(es, PrependElement(v, r)) == AfterElements(es + [v], r)
  {
    if r.Ok? { assert es + ([v] + r.value.0) == es + [v] + r.value.0; }
  }

  // One unfolding of each loop, forwards and backwards.

  ghost predicate MemberAt(ts: seq<Token>, i: nat, v: Node, j: nat) {
    i + 2 <= |ts| && ts[i].kind == 's' && ts[i + 1].kind == ':' && ValueFrom(ts, i + 2) == Ok((v, j)) && j < |ts|
  }

  ghost function MemberAfter(ts: seq<Token>, i: nat, v: Node, j: nat): Result<(seq<Member>, nat), ParseError>
    requires i < |ts| && j < |ts|
  {
    if ts[j].kind == ',' then PrependMember(Member(ts[i].value, v), MembersFrom(ts, j + 1))
    else Ok(([Member(ts[i].value, v)], j))
  }

  lemma MembersUnfold(ts: seq<Token>, i: nat) returns (v: Node, j: nat)
    requires i < |ts| && MembersFrom(ts, i).Ok? && ts[i].kind != '}'
    ensures MemberAt(ts, i, v, j) && i + 2 < j && (ts[j].kind == ',' || ts[j].kind == '}')
    ensures MembersFrom(ts, i) == MemberAfter(ts, i, v, j)
  {
    v := ValueFrom(ts, i + 2).value.0;
    j := ValueFrom(ts, i + 2).value.1;
    hide ValueFrom, ElementsFrom;
  }

  lemma MembersFold(ts: seq<Token>, i: nat, v: Node, j: nat)
    requires MemberAt(ts, i, v, j) && (ts[j].kind == ',' || ts[j].kind == '}')
    ensures MembersFrom(ts, i) == MemberAfter(ts, i, v, j)
  {
    hide ValueFrom, ElementsFrom;
  }

  ghost function ElementAfter(ts: seq<Token>, v: Node, j: nat): Result<(seq<Node>, nat), ParseError>
    requires j < |ts|
  {
    if ts[j].kind == ',' then PrependElement(v, ElementsFrom(ts, j + 1)) else Ok(([v], j))
  }

  lemma ElementsUnfold(ts: seq<Token>, i: nat) returns (v: Node, j: nat)
    requires i < |ts| && ElementsFrom(ts, i).Ok? && ts[i].kind != ']'
    ensures ValueFrom(ts, i) == Ok((v, j)) && i < j < |ts| && (ts[j].kind == ',' || ts[j].kind == ']')
    ensures ElementsFrom(ts, i) == ElementAfter(ts, v, j)
  {
    v := ValueFrom(ts, i).value.0;
    j := ValueFrom(ts, i).value.1;
    hide ValueFrom, MembersFrom;
  }

  lemma ElementsFold(ts: seq<Token>, i: nat, v: Node, j: nat)
    requires i < |ts| && ts[i].kind != ']' && ValueFrom(ts, i) == Ok((v, j)) && j < |ts|
    requires ts[j].kind == ',' || ts[j].kind == ']'
    ensures ElementsFrom(ts, i) == ElementAfter(ts, v, j)
  {
    hide ValueFrom, MembersFrom;
  }

  // jsoncParser: the cursor is a field.
  class Parser {
    const tokens: seq<Token>
    var index: nat

    constructor (tokens: seq<Token>)
      ensures this.tokens == tokens && index == 0
    {
      this.tokens := tokens;
      index := 0;
    }

    ghost predicate Follows(r: Result<Node, ParseError>, spec: Result<(Node, nat), ParseError>)
      reads this
    {
      match spec
      case Err(e) => r == Err(e)
      case Ok((v, j)) => r == Ok(v) && index == j
    }

    method ParseValue() returns (r: Result<Node, ParseError>)
      requires index <= |tokens|
      modifies this
      ensures old(index) <= index <= |tokens| && Follows(r, ValueFrom(tokens, old(index)))
      decreases |tokens| - index, 1
    {
      if index >= |tokens| {
        return Err(ExpectedValue);
      }
      var start, tok := index, tokens[index];
      if tok.kind == 's' || tok.kind == 'v' {
        index := index + 1;
        return Ok(Scalar(tok.kind, start));
      } else if tok.kind == '{' {
        r := ParseObject();
      } else if tok.kind == '[' {
        r := ParseArray();
      } else {
        return Err(UnexpectedToken(tok.kind, tok.start));
      }
    }

    method ParseObject() returns (r: Result<Node, ParseError>)
      requires index < |tokens| && tokens[index].kind == '{'
      modifies this
      ensures old(index) <= index <= |tokens| && Follows(r, ValueFrom(tokens, old(index)))
      decreases |tokens| - index, 0
    {
      var start := index;
      ghost var spec := MembersFrom(tokens, start + 1);
      index := index + 1;
      var members: seq<Member> := [];
      AfterNothing(spec, Ok(([], 0)));
      while true
        invariant start < index <= |tokens|
        invariant spec == AfterMembers(members, MembersFrom(tokens, index))
        decreases |tokens| - index
      {
        if index >= |tokens| {
          return Err(UnterminatedObject);
        }
        if tokens[index].kind == '}' {
          var close := index;
          index := index + 1;
          assert members + [] == members;
          return Ok(ObjectNode(start, members, close));
        }
        var key := tokens[index];
        if key.kind != 's' {
          return Err(KeyNotString(key.start));
        }
        index := index + 1;
        if index >= |tokens| || tokens[index].kind != ':' {
          return Err(MissingColon(key.value));
        }
        index := index + 1;
        var value := ParseValue();
        if value.Err? {
          return Err(value.error);
        }
        var m := Member(key.value, value.value);
        ghost var before := members;
        members := members + [m];
        if index < |tokens| && tokens[index].kind == ',' {
          index := index + 1;
          AfterMembersStep(before, m, MembersFrom(tokens, index));
          continue;
        }
        if index >= |tokens| || tokens[index].kind != '}' {
          return Err(MissingMemberComma(key.value));
        }
        var close := index;
        index := index + 1;
        return Ok(ObjectNode(start, members, close));
      }
    }

    method ParseArray() returns (r: Result<Node, ParseError>)
      requires index < |tokens| && tokens[index].kind == '['
      modifies this
      ensures old(index) <= index <= |tokens| && Follows(r, ValueFrom(tokens, old(index)))
      decreases |tokens| - index, 0
    {
      var start := index;
      ghost var spec := ElementsFrom(tokens, start + 1);
      index := index + 1;
      var elements: seq<Node> := [];
      AfterNothing(Ok(([], 0)), spec);
      while true
        invariant start < index <= |tokens|
        invariant spec == AfterElements(elements, ElementsFrom(tokens, index))
        decreases |tokens| - index
      {
        if index >= |tokens| {
          return Err(UnterminatedArray);
        }
        if tokens[index].kind == ']' {
          var close := index;
          index := index + 1;
          assert elements + [] == elements;
          return Ok(ArrayNode(start, elements, close));
        }
        var element := ParseValue();
        if element.Err? {
          return Err(element.error);
        }
        ghost var before := elements;
        elements := elements + [element.value];
        if index < |tokens| && tokens[index].kind == ',' {
          index := index + 1;
          AfterElementsStep(before, element.value, ElementsFrom(tokens, index));
          continue;
        }
        if index >= |tokens| || tokens[index].kind != ']' {
          return Err(MissingElementComma);
        }
        var close := index;
        index := index + 1;
        return Ok(ArrayNode(start, elements, close));
      }
    }
  }

  /* ---- values without positions ---- */

  // A parsed value with its literals as written; `value` is the decoded string.
  datatype Json =
    | Leaf(kind: char, text: string, value: string)
    | Obj(members: seq<(string, Json)>)
    | Arr(elements: seq<Json>)

  // A token as the parser and a reader of the document see it.
  datatype Symbol = Symbol(kind: char, text: string, value: string)

  ghost predicate Spells(ts: seq<Token>, syms: seq<Symbol>) {
    |ts| == |syms| && forall k :: 0 <= k < |ts| ==> ts[k].kind == syms[k].kind && ts[k].value == syms[k].value
  }

  // A tokenized document with its symbols.
  datatype Doc = Doc(ts: seq<Token>, syms: seq<Symbol>) {
    ghost predicate Valid() { Spells(ts, syms) }
  }

  ghost function Abs(v: Node, syms: seq<Symbol>): Json
    decreases v, 0
  {
    if v.kind == '{' then Obj(AbsMembers(v.members, syms))
    else if v.kind == '[' then Arr(AbsElements(v.elements, syms))
    else if v.startToken < |syms| then
      Leaf(syms[v.startToken].kind, syms[v.startToken].text, syms[v.startToken].value)
    else Arr([])
  }

  ghost function AbsMembers(ms: seq<Member>, syms: seq<Symbol>): seq<(string, Json)>
    decreases ms, 1
  {
    if ms == [] then [] else [(ms[0].name, Abs(ms[0].value, syms))] + AbsMembers(ms[1..], syms)
  }

  ghost function AbsElements(es: seq<Node>, syms: seq<Symbol>): seq<Json>
    decreases es, 1
  {
    if es == [] then [] else [Abs(es[0], syms)] + AbsElements(es[1..], syms)
  }

  // Tokens i to j of one document stand d places further on in another.
  ghost predicate Moved(a: Doc, b: Doc, i: nat, j: nat, d: int) {
    && i <= j <= |a.syms|
    && 0 <= i + d && j + d <= |b.syms|
    && forall k :: i <= k < j ==> b.syms[k + d] == a.syms[k]
  }

  lemma MovedAt(a: Doc, b: Doc, i: nat, j: nat, d: int, k: nat)
    requires a.Valid() && b.Valid() && Moved(a, b, i, j, d) && i <= k < j
    ensures 0 <= k + d < |b.ts| == |b.syms| && |a.ts| == |a.syms| && b.syms[k + d] == a.syms[k]
    ensures b.ts[k + d].kind == a.ts[k].kind && b.ts[k + d].value == a.ts[k].value
  {
  }

  lemma MovedPart(a: Doc, b: Doc, i: nat, j: nat, d: int, i': nat, j': nat)
    requires Moved(a, b, i, j, d) && i <= i' <= j' <= j
    ensures Moved(a, b, i', j', d)
  {
  }

  // A value parses to the same tree wherever its tokens stand.
  lemma {:induction false} RelocateValue(a: Doc, b: Doc, i: nat, j: nat, v: Node, d: int) returns (w: Node)
    requires a.Valid() && b.Valid() && i <= |a.ts| && ValueFrom(a.ts, i) == Ok((v, j)) && Moved(a, b, i, j, d)
    ensures 0 <= i + d <= |b.ts| && ValueFrom(b.ts, i + d) == Ok((w, j + d))
    ensures Abs(w, b.syms) == Abs(v, a.syms)
    decreases |a.ts| - i, 1
  {
    hide MembersFrom, ElementsFrom, AbsMembers, AbsElements, Moved, Spells;
    var kind := a.ts[i].kind;
    MovedAt(a, b, i, j, d, i);
    w := Scalar(kind, i + d);
    if kind == '{' {
      MovedPart(a, b, i, j, d, i + 1, j);
      var ms := RelocateMembers(a, b, i + 1, j - 1, v.members, d);
      w := ObjectNode(i + d, ms, j - 1 + d);
    } else if kind == '[' {
      MovedPart(a, b, i, j, d, i + 1, j);
      var es := RelocateElements(a, b, i + 1, j - 1, v.elements, d);
      w := ArrayNode(i + d, es, j - 1 + d);
    }
  }

  lemma AbsMembersCons(m: Member, ms: seq<Member>, syms: seq<Symbol>)
    ensures AbsMembers([m] + ms, syms) == [(m.name, Abs(m.value, syms))] + AbsMembers(ms, syms)
  {
    assert ([m] + ms)[1..] == ms;
  }

  lemma AbsElementsCons(v: Node, es: seq<Node>, syms: seq<Symbol>)
    ensures AbsElements([v] + es, syms) == [Abs(v, syms)] + AbsElements(es, syms)
  {
    assert ([v] + es)[1..] == es;
  }

  lemma {:induction false} RelocateMembers(a: Doc, b: Doc, i: nat, c: nat, ms: seq<Member>, d: int) returns (ns: seq<Member>)
    requires a.Valid() && b.Valid() && i <= |a.ts| && MembersFrom(a.ts, i) == Ok((ms, c)) && Moved(a, b, i, c + 1, d)
    ensures 0 <= i + d <= |b.ts| && MembersFrom(b.ts, i + d) == Ok((ns, c + d))
    ensures AbsMembers(ns, b.syms) == AbsMembers(ms, a.syms)
    decreases |a.ts| - i, 0
  {
    MovedAt(a, b, i, c + 1, d, i);
    if a.ts[i].kind == '}' {
      ns := [];
      assert MembersFrom(a.ts, i) == Ok(([], i)) && MembersFrom(b.ts, i + d) == Ok(([], i + d));
      AbsNil(a.syms, b.syms);
      assert MembersFrom(b.ts, i + d) == Ok((ns, c + d));
    } else {
      var v, j := MembersUnfold(a.ts, i);
      ns := RelocateMember(a, b, i, c, ms, v, j, d);
      assert MembersFrom(b.ts, i + d) == Ok((ns, c + d));
    }
  }

  lemma {:induction false} RelocateMember(a: Doc, b: Doc, i: nat, c: nat, ms: seq<Member>, v: Node, j: nat, d: int)
    returns (ns: seq<Member>)
    requires a.Valid() && b.Valid() && MemberAt(a.ts, i, v, j) && i + 2 < j <= c
    requires a.ts[j].kind == ',' || a.ts[j].kind == '}'
    requires MemberAfter(a.ts, i, v, j) == Ok((ms, c)) && Moved(a, b, i, c + 1, d)
    ensures 0 <= i + d <= |b.ts| && MembersFrom(b.ts, i + d) == Ok((ns, c + d))
    ensures AbsMembers(ns, b.syms) == AbsMembers(ms, a.syms)
    decreases |a.ts| - i - 1, 0
  {
    hide MembersFrom, ElementsFrom, ValueFrom, Abs, AbsMembers, AbsElements, Moved, Spells;
    MovedAt(a, b, i, c + 1, d, i);
    MovedAt(a, b, i, c + 1, d, i + 1);
    MovedAt(a, b, i, c + 1, d, j);
    MovedPart(a, b, i, c + 1, d, i + 2, j);
    var w := RelocateValue(a, b, i + 2, j, v, d);
    MembersFold(b.ts, i + d, w, j + d);
    var m, n := Member(a.ts[i].value, v), Member(a.ts[i].value, w);
    ns := [];
    if a.ts[j].kind == ',' {
      MovedPart(a, b, i, c + 1, d, j + 1, c + 1);
      var rest := MembersFrom(a.ts, j + 1).value.0;
      ns := RelocateMembers(a, b, j + 1, c, rest, d);
      AbsMembersCons(m, rest, a.syms);
      AbsMembersCons(n, ns, b.syms);
      assert j + d + 1 == j + 1 + d && ms == [m] + rest;
    } else {
      AbsMembersCons(m, [], a.syms);
      AbsMembersCons(n, [], b.syms);
      assert ms == [m] + [] && [n] == [n] + ns;
      AbsNil(a.syms, b.syms);
    }
    ns := [n] + ns;
  }

  lemma {:induction false} RelocateElements(a: Doc, b: Doc, i: nat, c: nat, es: seq<Node>, d: int) returns (ns: seq<Node>)
    requires a.Valid() && b.Valid() && i <= |a.ts| && ElementsFrom(a.ts, i) == Ok((es, c)) && Moved(a, b, i, c + 1, d)
    ensures 0 <= i + d <= |b.ts| && ElementsFrom(b.ts, i + d) == Ok((ns, c + d))
    ensures AbsElements(ns, b.syms) == AbsElements(es, a.syms)
    decreases |a.ts| - i, 3
  {
    MovedAt(a, b, i, c + 1, d, i);
    if a.ts[i].kind == ']' {
      ns := [];
      assert ElementsFrom(a.ts, i) == Ok(([], i)) && ElementsFrom(b.ts, i + d) == Ok(([], i + d));
      AbsNil(a.syms, b.syms);
      assert ElementsFrom(b.ts, i + d) == Ok((ns, c + d));
    } else {
      var v, j := ElementsUnfold(a.ts, i);
      ns := RelocateElement(a, b, i, c, es, v, j, d);
      assert ElementsFrom(b.ts, i + d) == Ok((ns, c + d));
    }
  }

  lemma {:induction false} RelocateElement(a: Doc, b: Doc, i: nat, c: nat, es: seq<Node>, v: Node, j: nat, d: int)
    returns (ns: seq<Node>)
    requires a.Valid() && b.Valid() && i < |a.ts| && a.ts[i].kind != ']' && ValueFrom(a.ts, i) == Ok((v, j)) && i < j <= c < |a.ts|
    requires a.ts[j].kind == ',' || a.ts[j].kind == ']'
    requires ElementAfter(a.ts, v, j) == Ok((es, c)) && Moved(a, b, i, c + 1, d)
    ensures 0 <= i + d <= |b.ts| && ElementsFrom(b.ts, i + d) == Ok((ns, c + d))
    ensures AbsElements(ns, b.syms) == AbsElements(es, a.syms)
    decreases |a.ts| - i, 2
  {
    hide MembersFrom, ElementsFrom, ValueFrom, Abs, AbsMembers, AbsElements, Moved, Spells;
    MovedAt(a, b, i, c + 1, d, i);
    MovedAt(a, b, i, c + 1, d, j);
    MovedPart(a, b, i, c + 1, d, i, j);
    var w := RelocateValue(a, b, i, j, v, d);
    ElementsFold(b.ts, i + d, w, j + d);
    ns := [];
    if a.ts[j].kind == ',' {
      MovedPart(a, b, i, c + 1, d, j + 1, c + 1);
      var rest := ElementsFrom(a.ts, j + 1).value.0;
      ns := RelocateElements(a, b, j + 1, c, rest, d);
      AbsElementsCons(v, rest, a.syms);
      AbsElementsCons(w, ns, b.syms);
      assert j + d + 1 == j + 1 + d && es == [v] + rest;
    } else {
      AbsElementsCons(v, [], a.syms);
      AbsElementsCons(w, [], b.syms);
      assert es == [v] + [] && [w] == [w] + ns;
      AbsNil(a.syms, b.syms);
    }
    ns := [w] + ns;
  }

  lemma AbsNil(s: seq<Symbol>, t: seq<Symbol>)
    ensures AbsMembers([], s) == AbsMembers([], t) && AbsElements([], s) == AbsElements([], t)
  {
  }
}
