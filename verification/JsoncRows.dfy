/** Token-level surgery on a parsed object: what parsing gives after the tokens of
    one member value are exchanged, after a member is appended, and for an array of
    strings written as a row of tokens. */
module JsoncRows {
  import opened Base
  import opened JsoncLexer
  import opened JsoncParser

  /* ---- where parsed nodes stand ---- */

  lemma NodeSpan(ts: seq<Token>, i: nat)
    requires i <= |ts| && ValueFrom(ts, i).Ok?
    ensures ValueFrom(ts, i).value.0.startToken == i && ValueFrom(ts, i).value.0.endToken + 1 == ValueFrom(ts, i).value.1
  {
    hide MembersFrom, ElementsFrom;
  }

  /* ---- exchanging one member's value ---- */

  // The first member of a non-empty list, and the list after it.
  lemma FirstMember(ts: seq<Token>, i: nat, c: nat, ms: seq<Member>) returns (v: Node, j: nat)
    requires i <= |ts| && MembersFrom(ts, i) == Ok((ms, c)) && ms != []
    ensures MemberAt(ts, i, v, j) && i + 2 < j <= c && (ts[j].kind == ',' || ts[j].kind == '}')
    ensures v.startToken == i + 2 && v.endToken + 1 == j && ms[0] == Member(ts[i].value, v)
    ensures ts[j].kind == ',' ==> MembersFrom(ts, j + 1) == Ok((ms[1..], c)) && j < c
    ensures ts[j].kind != ',' ==> ms[1..] == [] && c == j
  {
    NotClosed(ts, i, ms, c);
    v, j := MembersUnfold(ts, i);
    hide MembersFrom, ElementsFrom;
    MemberAfterParts(ts, i, v, j, ms, c);
    NodeSpan(ts, i + 2);
  }

  // A list read from its first member's tokens.
  lemma ConsMember(ts: seq<Token>, i: nat, v: Node, j: nat, rest: seq<Member>, c: nat)
    requires MemberAt(ts, i, v, j) && (ts[j].kind == ',' || ts[j].kind == '}')
    requires if ts[j].kind == ',' then MembersFrom(ts, j + 1) == Ok((rest, c)) else rest == [] && c == j
    ensures MembersFrom(ts, i) == Ok(([Member(ts[i].value, v)] + rest, c))
  {
    hide ValueFrom, MembersFrom;
    MembersFold(ts, i, v, j);
    MemberAfterFrom(ts, i, v, j, rest, c);
  }

  // Documents a and b agree but for member k of the list from token i, whose
  // value is w in b and ends d tokens later there.
  ghost predicate Differ(a: Doc, b: Doc, i: nat, c: nat, m: Member, w: Node, d: int) {
    var x, y := m.value.startToken, m.value.endToken + 1;
    && i <= x && Moved(a, b, i, x, 0)
    && 0 <= y + d && y <= c + 1 && Moved(a, b, y, c + 1, d)
    && x <= |b.ts| && ValueFrom(b.ts, x) == Ok((w, y + d))
  }

  ghost predicate Replaced(a: Doc, b: Doc, ms: seq<Member>, ns: seq<Member>, k: nat, w: Node) {
    && k < |ms| == |ns| == |AbsMembers(ms, a.syms)|
    && ns[k] == Member(ms[k].name, w)
    && (forall q :: 0 <= q < |ms| ==> ns[q].name == ms[q].name)
    && AbsMembers(ns, b.syms) == AbsMembers(ms, a.syms)[k := (ms[k].name, Abs(w, b.syms))]
  }

  lemma ReplaceHere(a: Doc, b: Doc, i: nat, c: nat, ms: seq<Member>, w: Node, d: int) returns (ns: seq<Member>)
    requires a.Valid() && b.Valid() && i <= |a.ts| && MembersFrom(a.ts, i) == Ok((ms, c)) && ms != []
    requires Differ(a, b, i, c, ms[0], w, d)
    ensures i <= |b.ts| && MembersFrom(b.ts, i) == Ok((ns, c + d)) && Replaced(a, b, ms, ns, 0, w)
  {
    hide MembersFrom, ElementsFrom, ValueFrom, Abs, AbsMembers, AbsElements, Moved, Spells;
    var v, j := FirstMember(a.ts, i, c, ms);
    var tail := ms[1..];
    MovedAt(a, b, i, i + 2, 0, i);
    MovedAt(a, b, i, i + 2, 0, i + 1);
    MovedAt(a, b, j, c + 1, d, j);
    var rest := [];
    if a.ts[j].kind == ',' {
      MovedPart(a, b, j, c + 1, d, j + 1, c + 1);
      rest := RelocateMembers(a, b, j + 1, c, tail, d);
      assert j + 1 + d == j + d + 1;
    } else {
      AbsNil(a.syms, b.syms);
    }
    ConsMember(b.ts, i, w, j + d, rest, c + d);
    ns := [Member(ms[0].name, w)] + rest;
    assert ms == [ms[0]] + tail;
    AbsMembersCons(ms[0], tail, a.syms);
    AbsMembersCons(ns[0], rest, b.syms);
    AbsMembersLength(ms, a.syms);
    AbsMembersNames(rest, b.syms, tail, a.syms);
  }

  lemma ReplaceLater(a: Doc, b: Doc, v: Node, v': Node, name: string, tail: seq<Member>, rest: seq<Member>, k: nat, w: Node)
    requires Replaced(a, b, tail, rest, k, w) && Abs(v', b.syms) == Abs(v, a.syms)
    ensures Replaced(a, b, [Member(name, v)] + tail, [Member(name, v')] + rest, k + 1, w)
  {
    hide Abs, AbsMembers;
    var m, n := Member(name, v), Member(name, v');
    AbsMembersCons(m, tail, a.syms);
    AbsMembersCons(n, rest, b.syms);
  }

  lemma {:induction false} ReplaceMember(a: Doc, b: Doc, i: nat, c: nat, ms: seq<Member>, k: nat, w: Node, d: int)
    returns (ns: seq<Member>)
    requires a.Valid() && b.Valid() && i <= |a.ts| && MembersFrom(a.ts, i) == Ok((ms, c)) && k < |ms|
    requires Differ(a, b, i, c, ms[k], w, d)
    ensures i <= |b.ts| && MembersFrom(b.ts, i) == Ok((ns, c + d)) && Replaced(a, b, ms, ns, k, w)
    decreases |ms|
  {
    hide MembersFrom, ElementsFrom, ValueFrom, Abs, AbsMembers, AbsElements, Moved, Spells, Replaced;
    if k == 0 {
      ns := ReplaceHere(a, b, i, c, ms, w, d);
    } else {
      var v, j := FirstMember(a.ts, i, c, ms);
      var x, tail := ms[k].value.startToken, ms[1..];
      assert ms[k] == tail[k - 1];
      MembersAfterStart(a.ts, j + 1, c, tail, k - 1);
      MovedAt(a, b, i, x, 0, i);
      MovedAt(a, b, i, x, 0, i + 1);
      MovedAt(a, b, i, x, 0, j);
      MovedPart(a, b, i, x, 0, i + 2, j);
      MovedPart(a, b, i, x, 0, j + 1, x);
      var v' := RelocateValue(a, b, i + 2, j, v, 0);
      var rest := ReplaceMember(a, b, j + 1, c, tail, k - 1, w, d);
      ConsMember(b.ts, i, v', j, rest, c + d);
      ReplaceLater(a, b, v, v', ms[0].name, tail, rest, k - 1, w);
      assert ms == [Member(ms[0].name, v)] + tail;
      ns := [Member(ms[0].name, v')] + rest;
    }
  }

  lemma NotClosed(ts: seq<Token>, i: nat, ms: seq<Member>, c: nat)
    requires i <= |ts| && MembersFrom(ts, i) == Ok((ms, c)) && ms != []
    ensures i < |ts| && ts[i].kind != '}'
  {
  }

  lemma MemberAfterParts(ts: seq<Token>, i: nat, v: Node, j: nat, ms: seq<Member>, c: nat)
    requires i < |ts| && j < |ts| && MemberAfter(ts, i, v, j) == Ok((ms, c))
    ensures ms != [] && ms[0] == Member(ts[i].value, v)
    ensures ts[j].kind == ',' ==> MembersFrom(ts, j + 1) == Ok((ms[1..], c)) && j < c
    ensures ts[j].kind != ',' ==> ms[1..] == [] && c == j
  {
    hide ValueFrom;
    if ts[j].kind == ',' {
      var r := MembersFrom(ts, j + 1);
      assert ([Member(ts[i].value, v)] + r.value.0)[1..] == r.value.0;
    }
  }

  lemma MemberAfterFrom(ts: seq<Token>, i: nat, v: Node, j: nat, rest: seq<Member>, c: nat)
    requires i < |ts| && j < |ts|
    requires if ts[j].kind == ',' then MembersFrom(ts, j + 1) == Ok((rest, c)) else rest == [] && c == j
    ensures MemberAfter(ts, i, v, j) == Ok(([Member(ts[i].value, v)] + rest, c))
  {
    hide ValueFrom, MembersFrom;
    assert [Member(ts[i].value, v)] + [] == [Member(ts[i].value, v)];
  }

  lemma {:induction false} AbsMembersLength(ms: seq<Member>, syms: seq<Symbol>)
    ensures |AbsMembers(ms, syms)| == |ms|
  {
    if ms == [] {
    } else {
      AbsMembersLength(ms[1..], syms);
    }
  }

  lemma {:induction false} AbsMembersAt(ms: seq<Member>, syms: seq<Symbol>, k: nat)
    requires k < |ms|
    ensures |AbsMembers(ms, syms)| == |ms| && AbsMembers(ms, syms)[k] == (ms[k].name, Abs(ms[k].value, syms))
  {
    AbsMembersLength(ms, syms);
    if k > 0 { AbsMembersAt(ms[1..], syms, k - 1); }
  }

  lemma AbsMembersNames(ns: seq<Member>, t: seq<Symbol>, ms: seq<Member>, s: seq<Symbol>)
    requires AbsMembers(ns, t) == AbsMembers(ms, s)
    ensures |ns| == |ms| && forall q :: 0 <= q < |ms| ==> ns[q].name == ms[q].name
  {
    AbsMembersLength(ns, t);
    AbsMembersLength(ms, s);
    forall q | 0 <= q < |ms|
      ensures ns[q].name == ms[q].name
    {
      AbsMembersAt(ns, t, q);
      AbsMembersAt(ms, s, q);
    }
  }

  // A member's value lies between the start of the list and its brace.
  lemma {:induction false} MembersAfterStart(ts: seq<Token>, i: nat, c: nat, ms: seq<Member>, k: nat)
    requires i <= |ts| && MembersFrom(ts, i) == Ok((ms, c)) && k < |ms|
    ensures i + 2 <= ms[k].value.startToken <= ms[k].value.endToken < c
    ensures ValueFrom(ts, ms[k].value.startToken) == Ok((ms[k].value, ms[k].value.endToken + 1))
    decreases |ms|
  {
    hide MembersFrom, ElementsFrom, ValueFrom;
    var v, j := FirstMember(ts, i, c, ms);
    if k > 0 {
      MembersAfterStart(ts, j + 1, c, ms[1..], k - 1);
    }
  }

  /* ---- appending a member ---- */

  const COMMA := Symbol(',', ",", "")

  // The tokens of `key: [entry]`.
  function PropertyRow(key: Symbol, entry: Symbol): seq<Symbol> {
    [key, Symbol(':', ":", ""), Symbol('[', "[", ""), entry, Symbol(']', "]", "")]
  }

  function PropertyNode(at: nat): Node { ArrayNode(at + 2, [Scalar('s', at + 3)], at + 4) }

  function LeafOf(s: Symbol): Json { Leaf(s.kind, s.text, s.value) }

  lemma OneElement(ts: seq<Token>, i: nat)
    requires i + 1 < |ts| && ts[i].kind == 's' && ts[i + 1].kind == ']'
    ensures ElementsFrom(ts, i) == Ok(([Scalar('s', i)], i + 1))
  {
    hide MembersFrom;
  }

  lemma PropertyAt(b: Doc, p: nat, key: Symbol, entry: Symbol)
    requires b.Valid() && p + 5 < |b.syms| && b.syms[p..p + 5] == PropertyRow(key, entry)
    ensures b.syms[p] == key && b.syms[p + 1].kind == ':' && b.syms[p + 2].kind == '[' && b.syms[p + 3] == entry
    ensures b.syms[p + 4].kind == ']'
    ensures forall q :: p <= q <= p + 5 ==> b.ts[q].kind == b.syms[q].kind && b.ts[q].value == b.syms[q].value
  {
    var row := b.syms[p..p + 5];
    assert row[0] == b.syms[p] && row[1] == b.syms[p + 1] && row[2] == b.syms[p + 2];
    assert row[3] == b.syms[p + 3] && row[4] == b.syms[p + 4];
  }

  lemma PropertyParses(b: Doc, p: nat, key: Symbol, entry: Symbol)
    requires b.Valid() && p + 5 < |b.syms| && b.syms[p..p + 5] == PropertyRow(key, entry)
    requires key.kind == 's' && entry.kind == 's' && b.syms[p + 5].kind == '}'
    ensures MembersFrom(b.ts, p) == Ok(([Member(key.value, PropertyNode(p))], p + 5))
    ensures Abs(PropertyNode(p), b.syms) == Arr([LeafOf(entry)])
  {
    PropertyAt(b, p, key, entry);
    OneElement(b.ts, p + 3);
    assert ValueFrom(b.ts, p + 2) == Ok((PropertyNode(p), p + 5));
    hide ValueFrom, ElementsFrom, MembersFrom;
    ConsMember(b.ts, p, PropertyNode(p), p + 5, [], p + 5);
    var only := Scalar('s', p + 3);
    AbsElementsCons(only, [], b.syms);
    assert [only] + [] == [only] && [Abs(only, b.syms)] + [] == [Abs(only, b.syms)];
  }

  // Whether the list lacks a comma after its last member.
  predicate NeedsComma(ts: seq<Token>, ms: seq<Member>, c: nat)
    requires 0 < c < |ts|
  {
    ms != [] && ts[c - 1].kind != ','
  }

  ghost predicate Appended(a: Doc, b: Doc, ms: seq<Member>, ns: seq<Member>, name: string, at: nat, json: Json) {
    && |ns| == |ms| + 1
    && ns[|ms|] == Member(name, PropertyNode(at))
    && (forall q :: 0 <= q < |ms| ==> ns[q].name == ms[q].name)
    && AbsMembers(ns, b.syms) == AbsMembers(ms, a.syms) + [(name, json)]
  }

  // Document b is document a with `key: [entry]` in front of the brace at c.
  ghost predicate Extended(a: Doc, b: Doc, i: nat, c: nat, comma: bool, key: Symbol, entry: Symbol) {
    var at := if comma then c + 1 else c;
    && Moved(a, b, i, c, 0) && at + 5 < |b.syms|
    && (comma ==> b.syms[c] == COMMA)
    && b.syms[at..at + 5] == PropertyRow(key, entry) && b.syms[at + 5].kind == '}'
    && key.kind == 's' && entry.kind == 's'
  }

  lemma {:induction false} ValueEnd(ts: seq<Token>, i: nat)
    requires i <= |ts| && ValueFrom(ts, i).Ok?
    ensures ts[ValueFrom(ts, i).value.1 - 1].kind != ','
  {
  }

  lemma AppendFirst(a: Doc, b: Doc, name: string, at: nat, json: Json)
    requires Abs(PropertyNode(at), b.syms) == json
    ensures Appended(a, b, [], [Member(name, PropertyNode(at))], name, at, json)
  {
    hide Abs;
    var last := Member(name, PropertyNode(at));
    AbsMembersCons(last, [], b.syms);
    assert [last] + [] == [last] && [(name, json)] + [] == [] + [(name, json)];
  }

  lemma AppendLater(a: Doc, b: Doc, m: Member, n: Member, tail: seq<Member>, rest: seq<Member>, name: string, at: nat, json: Json)
    requires m.name == n.name && Abs(n.value, b.syms) == Abs(m.value, a.syms) && Appended(a, b, tail, rest, name, at, json)
    ensures Appended(a, b, [m] + tail, [n] + rest, name, at, json)
  {
    hide Abs, AbsMembers;
    AbsMembersCons(m, tail, a.syms);
    AbsMembersCons(n, rest, b.syms);
    assert ([n] + rest)[|[m] + tail|] == rest[|tail|];
  }

  lemma EmptyMembers(ts: seq<Token>, i: nat, c: nat)
    requires i <= |ts| && MembersFrom(ts, i) == Ok(([], c))
    ensures c == i
  {
  }

  lemma SpellsAt(b: Doc, k: nat)
    requires b.Valid() && k < |b.syms|
    ensures |b.ts| == |b.syms| && b.ts[k].kind == b.syms[k].kind && b.ts[k].value == b.syms[k].value
  {
  }

  // The last member of a list without a closing comma.
  lemma AppendToLast(a: Doc, b: Doc, i: nat, c: nat, v: Node, key: Symbol, entry: Symbol) returns (ns: seq<Member>)
    requires a.Valid() && b.Valid() && MemberAt(a.ts, i, v, c) && i + 2 < c && a.ts[c].kind == '}'
    requires Extended(a, b, i, c, true, key, entry)
    requires MembersFrom(b.ts, c + 1) == Ok(([Member(key.value, PropertyNode(c + 1))], c + 6))
    requires Abs(PropertyNode(c + 1), b.syms) == Arr([LeafOf(entry)])
    ensures i <= |b.ts| && MembersFrom(b.ts, i) == Ok((ns, c + 6))
    ensures Appended(a, b, [Member(a.ts[i].value, v)], ns, key.value, c + 1, Arr([LeafOf(entry)]))
  {
    hide MembersFrom, ElementsFrom, Abs, AbsMembers, AbsElements, Moved, Appended, PropertyRow, ValueFrom, Spells;
    MovedAt(a, b, i, c, 0, i);
    MovedAt(a, b, i, c, 0, i + 1);
    MovedPart(a, b, i, c, 0, i + 2, c);
    SpellsAt(b, c);
    var v' := RelocateValue(a, b, i + 2, c, v, 0);
    var last := Member(key.value, PropertyNode(c + 1));
    var m, n := Member(a.ts[i].value, v), Member(a.ts[i].value, v');
    ConsMember(b.ts, i, v', c, [last], c + 6);
    AppendFirst(a, b, key.value, c + 1, Arr([LeafOf(entry)]));
    AppendLater(a, b, m, n, [], [last], key.value, c + 1, Arr([LeafOf(entry)]));
    assert [m] + [] == [m];
    ns := [n] + [last];
  }

  lemma {:induction false} AppendMember(a: Doc, b: Doc, i: nat, c: nat, ms: seq<Member>, key: Symbol, entry: Symbol)
    returns (ns: seq<Member>)
    requires a.Valid() && b.Valid() && 0 < i <= |a.ts| && MembersFrom(a.ts, i) == Ok((ms, c))
    requires Extended(a, b, i, c, NeedsComma(a.ts, ms, c), key, entry)
    ensures var at := if NeedsComma(a.ts, ms, c) then c + 1 else c;
            && i <= |b.ts| && MembersFrom(b.ts, i) == Ok((ns, at + 5))
            && Appended(a, b, ms, ns, key.value, at, Arr([LeafOf(entry)]))
    decreases |ms|
  {
    hide MembersFrom, ElementsFrom, ValueFrom, Abs, AbsMembers, AbsElements, Moved, Appended, PropertyRow, Spells;
    var at := if NeedsComma(a.ts, ms, c) then c + 1 else c;
    var json := Arr([LeafOf(entry)]);
    PropertyParses(b, at, key, entry);
    if ms == [] {
      EmptyMembers(a.ts, i, c);
      AppendFirst(a, b, key.value, at, json);
      ns := [Member(key.value, PropertyNode(at))];
    } else {
      var v, j := FirstMember(a.ts, i, c, ms);
      ValueEnd(a.ts, i + 2);
      var m, tail := ms[0], ms[1..];
      assert ms == [m] + tail;
      if a.ts[j].kind == ',' {
        MovedAt(a, b, i, c, 0, i);
        MovedAt(a, b, i, c, 0, i + 1);
        MovedAt(a, b, i, c, 0, j);
        MovedPart(a, b, i, c, 0, i + 2, j);
        MovedPart(a, b, i, c, 0, j + 1, c);
        TailComma(a.ts, j, ms, c);
        var v' := RelocateValue(a, b, i + 2, j, v, 0);
        var rest := AppendMember(a, b, j + 1, c, tail, key, entry);
        ConsMember(b.ts, i, v', j, rest, at + 5);
        AppendLater(a, b, m, Member(m.name, v'), tail, rest, key.value, at, json);
        ns := [Member(m.name, v')] + rest;
      } else {
        ns := AppendToLast(a, b, i, c, v, key, entry);
        assert ms == [m];
      }
    }
  }

  // Dropping a member and the comma after it does not change what the end lacks.
  lemma TailComma(ts: seq<Token>, j: nat, ms: seq<Member>, c: nat)
    requires j < c < |ts| && ts[j].kind == ',' && ms != [] && MembersFrom(ts, j + 1) == Ok((ms[1..], c))
    ensures NeedsComma(ts, ms, c) <==> NeedsComma(ts, ms[1..], c)
  {
    if ms[1..] == [] { assert c == j + 1; }
  }

  /* ---- arrays of strings ---- */

  // The tokens between the brackets: entries, the commas between them and, when
  // t, one more after the last.
  function Row(es: seq<Symbol>, t: bool): seq<Symbol> {
    if es == [] then [] else [es[0]] + RowTail(es[1..], t)
  }

  function RowTail(es: seq<Symbol>, t: bool): seq<Symbol> {
    if es == [] then (if t then [COMMA] else []) else [COMMA] + ([es[0]] + RowTail(es[1..], t))
  }

  // The nodes of n entries, the first at token `at`.
  function StringNodes(at: nat, n: nat): seq<Node>
    decreases n
  {
    if n == 0 then [] else [Scalar('s', at)] + StringNodes(at + 2, n - 1)
  }

  function Leaves(es: seq<Symbol>): seq<Json> {
    if es == [] then [] else [LeafOf(es[0])] + Leaves(es[1..])
  }

  predicate Strings(es: seq<Symbol>) { forall k :: 0 <= k < |es| ==> es[k].kind == 's' }

  predicate Commas(syms: seq<Symbol>) { forall k :: 0 <= k < |syms| ==> (syms[k].kind == ',' ==> syms[k] == COMMA) }

  lemma ScalarValue(ts: seq<Token>, i: nat)
    requires i <= |ts| && ValueFrom(ts, i).Ok? && ValueFrom(ts, i).value.0.kind == 's'
    ensures i < |ts| && ts[i].kind == 's' && ValueFrom(ts, i) == Ok((Scalar('s', i), i + 1))
  {
    hide MembersFrom, ElementsFrom;
  }

  // The first entry of a non-empty list, and the list after it.
  lemma FirstElement(ts: seq<Token>, i: nat, c: nat, es: seq<Node>) returns (j: nat)
    requires i <= |ts| && ElementsFrom(ts, i) == Ok((es, c)) && es != []
    ensures i < j <= c && ts[i].kind != ']' && ValueFrom(ts, i) == Ok((es[0], j)) && (ts[j].kind == ',' || ts[j].kind == ']')
    ensures ts[j].kind == ',' ==> ElementsFrom(ts, j + 1) == Ok((es[1..], c)) && j < c
    ensures ts[j].kind != ',' ==> es[1..] == [] && c == j
  {
    var v: Node;
    v, j := ElementsUnfold(ts, i);
    hide ValueFrom;
    if ts[j].kind == ',' {
      var r := ElementsFrom(ts, j + 1);
      assert ([v] + r.value.0)[1..] == r.value.0;
    }
  }

  lemma ConsElement(ts: seq<Token>, i: nat, v: Node, j: nat, rest: seq<Node>, c: nat)
    requires i < |ts| && ts[i].kind != ']' && ValueFrom(ts, i) == Ok((v, j)) && j < |ts|
    requires ts[j].kind == ',' || ts[j].kind == ']'
    requires if ts[j].kind == ',' then ElementsFrom(ts, j + 1) == Ok((rest, c)) else rest == [] && c == j
    ensures ElementsFrom(ts, i) == Ok(([v] + rest, c))
  {
    ElementsFold(ts, i, v, j);
    hide ValueFrom, ElementsFrom;
    assert [v] + [] == [v];
  }

  lemma EmptyElements(ts: seq<Token>, i: nat, c: nat)
    requires i <= |ts| && ElementsFrom(ts, i) == Ok(([], c))
    ensures c == i
  {
  }

  lemma RowCons(s: Symbol, es: seq<Symbol>, t: bool)
    ensures Row([s] + es, t) == [s] + RowTail(es, t)
    ensures es != [] ==> RowTail(es, t) == [COMMA] + Row(es, t)
  {
    assert ([s] + es)[1..] == es;
  }

  lemma StringNodesCons(at: nat, n: nat)
    ensures StringNodes(at, n + 1) == [Scalar('s', at)] + StringNodes(at + 2, n)
  {
  }

  // A parsed list of strings was written as a row.
  lemma {:induction false} ParsedRow(a: Doc, i: nat, c: nat, ns: seq<Node>) returns (es: seq<Symbol>, t: bool)
    requires a.Valid() && Commas(a.syms) && i <= |a.ts| && ElementsFrom(a.ts, i) == Ok((ns, c))
    requires forall k :: 0 <= k < |ns| ==> ns[k].kind == 's'
    ensures |es| == |ns| && Strings(es) && ns == StringNodes(i, |es|) && c < |a.syms|
    ensures a.syms[i..c] == Row(es, t) && (es == [] ==> c == i)
    decreases |ns|
  {
    hide ElementsFrom, MembersFrom, ValueFrom;
    if ns == [] {
      EmptyElements(a.ts, i, c);
      es, t := [], false;
    } else {
      var j := FirstElement(a.ts, i, c, ns);
      ScalarValue(a.ts, i);
      es, t := [], false;
      if a.ts[j].kind == ',' {
        es, t := ParsedRow(a, j + 1, c, ns[1..]);
        t := t || es == [];
      }
      hide Row, RowTail, StringNodes;
      RowOfSlice(a, i, c, es, t);
      StringNodesCons(i, |es|);
      assert ns == [ns[0]] + ns[1..];
      es := [a.syms[i]] + es;
    }
  }

  lemma RowOfSlice(a: Doc, i: nat, c: nat, es: seq<Symbol>, t: bool)
    requires a.Valid() && Commas(a.syms) && i < c < |a.syms|
    requires if a.ts[i + 1].kind == ',' then i + 1 < c && (es == [] ==> c == i + 2 && t) && (es != [] ==> a.syms[i + 2..c] == Row(es, t))
             else es == [] && c == i + 1 && !t
    ensures a.syms[i..c] == Row([a.syms[i]] + es, t)
  {
    RowCons(a.syms[i], es, t);
    hide Row;
    if a.ts[i + 1].kind == ',' {
      assert a.syms[i + 1] == COMMA;
      assert a.syms[i..c] == [a.syms[i]] + ([COMMA] + a.syms[i + 2..c]);
    } else {
      assert a.syms[i..c] == [a.syms[i]];
    }
  }

  // A row in front of a closing bracket parses to its strings.
  lemma {:induction false} RowParses(b: Doc, i: nat, es: seq<Symbol>, t: bool)
    requires b.Valid() && Strings(es) && i + |Row(es, t)| < |b.syms|
    requires b.syms[i..i + |Row(es, t)|] == Row(es, t) && b.syms[i + |Row(es, t)|].kind == ']'
    ensures ElementsFrom(b.ts, i) == Ok((StringNodes(i, |es|), i + |Row(es, t)|))
    ensures AbsElements(StringNodes(i, |es|), b.syms) == Leaves(es)
    decreases |es|
  {
    if es == [] {
      assert ElementsFrom(b.ts, i) == Ok(([], i));
    } else {
      var c, tail := i + |Row(es, t)|, es[1..];
      assert es == [es[0]] + tail;
      RowCons(es[0], tail, t);
      assert b.syms[i..c][0] == b.syms[i];
      assert ValueFrom(b.ts, i) == Ok((Scalar('s', i), i + 1));
      hide ElementsFrom, MembersFrom, ValueFrom;
      var rest := StringNodes(i + 2, |tail|);
      if tail == [] {
        if t {
          assert b.syms[i..c][1] == b.syms[i + 1];
          NoElements(b.ts, i + 2);
        }
      } else {
        assert b.syms[i..c][1] == b.syms[i + 1];
        assert b.syms[i + 2..c] == b.syms[i..c][2..] == Row(tail, t);
        RowParses(b, i + 2, tail, t);
      }
      assert rest == [] || b.ts[i + 1].kind == ',';
      AbsNil(b.syms, b.syms);
      ConsElement(b.ts, i, Scalar('s', i), i + 1, rest, c);
      AbsElementsCons(Scalar('s', i), rest, b.syms);
      StringNodesCons(i, |tail|);
    }
  }

  lemma NoElements(ts: seq<Token>, i: nat)
    requires i < |ts| && ts[i].kind == ']'
    ensures ElementsFrom(ts, i) == Ok(([], i))
  {
  }
}
