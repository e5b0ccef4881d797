/** updateOpenCodeConfig of internal/harness/opencode/repo_setup.go: pin the
    relay-flow plugin in the `plugin` array of a JSONC object by splicing its text.

    `Update` is the specification of `UpdateOpenCodeConfig`. JsoncTheorem proves
    what it does to the parsed document. */
module JsoncEditor {
  import opened Base
  import opened JsoncLexer
  import opened JsoncSplice
  import opened JsoncParser
  import opened JsoncDocument
  import opened JsoncRows

  const PLUGIN := "relay-flow-plugin"
  const PINNED := "relay-flow-plugin@0.3.14-alpha"
  const QUOTED := "\"relay-flow-plugin@0.3.14-alpha\""
  const PROPERTY := "\n  \"plugin\": [" + QUOTED + "]\n"

  predicate IsRelay(v: string) { v == PLUGIN || PLUGIN + "@" <= v }

  datatype UpdateError =
    | Lexing(lex: LexError)
    | Parsing(parse: ParseError)
    | RootNotObject
    | DuplicatePlugin
    | PluginNotArray
    | ElementNotString(index: nat)

  /* ---- which edits ---- */

  // The index of the one member named "plugin" among members i and up, given the
  // one found before.
  function PluginIndex(ms: seq<Member>, i: nat, found: Option<nat>): Result<Option<nat>, UpdateError>
    requires i <= |ms|
    decreases |ms| - i
  {
    if i == |ms| then Ok(found)
    else if ms[i].name == "plugin" then
      if found.Some? then Err(DuplicatePlugin) else PluginIndex(ms, i + 1, Some(i))
    else PluginIndex(ms, i + 1, found)
  }

  lemma {:induction false} PluginIndexFrom(ms: seq<Member>, i: nat, found: Option<nat>)
    requires i <= |ms|
    ensures var r := PluginIndex(ms, i, found);
            && (r == Ok(found) <==> forall q :: i <= q < |ms| ==> ms[q].name != "plugin")
            && (r.Ok? && r != Ok(found) ==>
                  found.None? && r.value.Some? && i <= r.value.value < |ms| && ms[r.value.value].name == "plugin"
                  && forall q :: i <= q < |ms| && q != r.value.value ==> ms[q].name != "plugin")
            && (r.Err? ==> r.error == DuplicatePlugin)
    ensures forall k :: (i <= k < |ms| && ms[k].name == "plugin" && found.None?
                     && forall q :: i <= q < |ms| && q != k ==> ms[q].name != "plugin") ==> PluginIndex(ms, i, found) == Ok(Some(k))
    decreases |ms| - i
  {
    if i < |ms| {
      PluginIndexFrom(ms, i + 1, if ms[i].name == "plugin" then Some(i) else found);
    }
  }

  // The plugin property is absent, present once, or rejected.
  lemma PluginIndexSpec(ms: seq<Member>)
    ensures PluginIndex(ms, 0, None) == Ok(None) <==> forall q :: 0 <= q < |ms| ==> ms[q].name != "plugin"
    ensures forall k: nat :: PluginIndex(ms, 0, None) == Ok(Some(k))
              <==> k < |ms| && ms[k].name == "plugin" && forall q :: 0 <= q < |ms| && q != k ==> ms[q].name != "plugin"
  {
    PluginIndexFrom(ms, 0, None);
  }

  // Entry d is followed by a comma and then by entry d + 1.
  ghost predicate Spaced(ts: seq<Token>, es: seq<Node>, d: nat)
    requires d + 1 < |es|
  {
    es[d].endToken + 1 < es[d + 1].startToken <= |ts| && ts[es[d].endToken + 1].kind == ','
  }

  // Nodes of a parsed array stand inside the tokens, with a comma after each but
  // the last.
  ghost predicate Anchored(ts: seq<Token>, v: Node) {
    && v.closeToken < |ts|
    && (forall d :: 0 <= d < |v.elements| ==> v.elements[d].startToken < |ts| && v.elements[d].endToken < |ts|)
    && (forall d :: 0 <= d < |v.elements| - 1 ==> Spaced(ts, v.elements, d))
  }

  ghost predicate RootAnchored(ts: seq<Token>, root: Node) {
    && root.closeToken < |ts|
    && forall k :: 0 <= k < |root.members| ==>
         root.members[k].value.endToken < |ts| && (root.members[k].value.kind == '[' ==> Anchored(ts, root.members[k].value))
  }

  // The relay-flow entries among elements i and up.
  function RelayIndices(ts: seq<Token>, v: Node, i: nat): Result<seq<nat>, UpdateError>
    requires Anchored(ts, v) && i <= |v.elements|
    decreases |v.elements| - i
  {
    if i == |v.elements| then Ok([])
    else if v.elements[i].kind != 's' then Err(ElementNotString(i))
    else
      match RelayIndices(ts, v, i + 1)
      case Err(e) => Err(e)
      case Ok(rest) => Ok(if IsRelay(ts[v.elements[i].startToken].value) then [i] + rest else rest)
  }

  function CommaFrom(ts: seq<Token>, i: nat, before: nat): (r: int)
    requires before <= |ts|
    ensures r == -1 || (i <= r < before && ts[r].kind == ',')
    ensures forall k :: i <= k < (if r < 0 then before else r) ==> ts[k].kind != ','
    decreases before - i
  {
    if i >= before then -1 else if ts[i].kind == ',' then i else CommaFrom(ts, i + 1, before)
  }

  // commaBefore: the first comma strictly between two tokens, or -1.
  function CommaBefore(ts: seq<Token>, after: nat, before: nat): int
    requires before <= |ts|
  {
    CommaFrom(ts, after + 1, before)
  }

  function AddElementEdit(ts: seq<Token>, v: Node): TextEdit
    requires Anchored(ts, v)
  {
    if v.elements == [] then TextEdit(ts[v.closeToken].start, ts[v.closeToken].start, QUOTED)
    else
      var last := v.elements[|v.elements| - 1];
      var comma := CommaBefore(ts, last.endToken, v.closeToken);
      if comma >= 0 then TextEdit(ts[comma].end, ts[comma].end, " " + QUOTED)
      else TextEdit(ts[last.endToken].end, ts[last.endToken].end, ", " + QUOTED)
  }

  function DropEdits(ts: seq<Token>, v: Node, ds: seq<nat>): seq<TextEdit>
    requires Anchored(ts, v) && forall k :: 0 <= k < |ds| ==> 0 < ds[k] < |v.elements|
  {
    if ds == [] then []
    else
      var e := v.elements[ds[0]];
      assert Spaced(ts, v.elements, ds[0] - 1);
      var comma := CommaBefore(ts, v.elements[ds[0] - 1].endToken, e.startToken);
      [TextEdit(ts[comma].start, ts[comma].end, ""), TextEdit(ts[e.startToken].start, ts[e.endToken].end, "")]
      + DropEdits(ts, v, ds[1..])
  }

  function AddPropertyEdits(ts: seq<Token>, root: Node): seq<TextEdit>
    requires RootAnchored(ts, root)
  {
    var closeAt := ts[root.closeToken].start;
    var property := TextEdit(closeAt, closeAt, PROPERTY);
    if root.members == [] then [property]
    else
      var last := root.members[|root.members| - 1].value.endToken;
      if CommaBefore(ts, last, root.closeToken) < 0 then [property, TextEdit(ts[last].end, ts[last].end, ",")]
      else [property]
  }

  function PinEdits(ts: seq<Token>, v: Node): Result<seq<TextEdit>, UpdateError>
    requires Anchored(ts, v)
  {
    match RelayIndices(ts, v, 0)
    case Err(e) => Err(e)
    case Ok(rs) =>
      RelayIndicesRange(ts, v, 0);
      if rs == [] then Ok([AddElementEdit(ts, v)])
      else
        var tok := ts[v.elements[rs[0]].startToken];
        Ok([TextEdit(tok.start, tok.end, QUOTED)] + DropEdits(ts, v, rs[1..]))
  }

  lemma {:induction false} RelayIndicesRange(ts: seq<Token>, v: Node, i: nat)
    requires Anchored(ts, v) && i <= |v.elements| && RelayIndices(ts, v, i).Ok?
    ensures var rs := RelayIndices(ts, v, i).value;
            && (forall k :: 0 <= k < |rs| ==> i <= rs[k] < |v.elements|)
            && (forall j, k :: 0 <= j < k < |rs| ==> rs[j] < rs[k])
            && (forall d :: i <= d < |v.elements| ==>
                  v.elements[d].kind == 's' && (d in rs <==> IsRelay(ts[v.elements[d].startToken].value)))
    decreases |v.elements| - i
  {
    if i < |v.elements| {
      RelayIndicesRange(ts, v, i + 1);
      hide IsRelay;
      var rest := RelayIndices(ts, v, i + 1).value;
      var rs := RelayIndices(ts, v, i).value;
      assert rs == if IsRelay(ts[v.elements[i].startToken].value) then [i] + rest else rest;
    }
  }

  function Plan(ts: seq<Token>, root: Node): Result<seq<TextEdit>, UpdateError>
    requires RootAnchored(ts, root)
  {
    PluginIndexSpec(root.members);
    match PluginIndex(root.members, 0, None)
    case Err(e) => Err(e)
    case Ok(None) => Ok(AddPropertyEdits(ts, root))
    case Ok(Some(k)) =>
      var v := root.members[k].value;
      if v.kind != '[' then Err(PluginNotArray) else PinEdits(ts, v)
  }

  /* ---- parsed nodes are anchored ---- */

  lemma {:induction false} ElementsAnchored(ts: seq<Token>, i: nat, c: nat, es: seq<Node>)
    requires i <= |ts| && ElementsFrom(ts, i) == Ok((es, c))
    ensures c < |ts| && (es != [] ==> es[0].startToken == i)
    ensures forall d :: 0 <= d < |es| ==> i <= es[d].startToken <= es[d].endToken < c
    ensures forall d :: 0 <= d < |es| - 1 ==> Spaced(ts, es, d)
    ensures es != [] ==> c == es[|es| - 1].endToken + 1 || (c == es[|es| - 1].endToken + 2 && ts[c - 1].kind == ',')
    decreases |es|
  {
    hide ElementsFrom, MembersFrom, ValueFrom;
    if es == [] {
    } else {
      var j := FirstElement(ts, i, c, es);
      NodeSpan(ts, i);
      if ts[j].kind == ',' {
        var tail := es[1..];
        ElementsAnchored(ts, j + 1, c, tail);
        if tail == [] { EmptyElements(ts, j + 1, c); }
        forall d | 0 <= d < |es| - 1
          ensures Spaced(ts, es, d)
        {
          if d > 0 {
            assert Spaced(ts, tail, d - 1) && es[d] == tail[d - 1] && es[d + 1] == tail[d];
          } else {
            assert es[1] == tail[0];
          }
        }
      }
    }
  }

  lemma ArrayAnchored(ts: seq<Token>, i: nat)
    requires i <= |ts| && ValueFrom(ts, i).Ok? && ValueFrom(ts, i).value.0.kind == '['
    ensures var v, j := ValueFrom(ts, i).value.0, ValueFrom(ts, i).value.1;
            && Anchored(ts, v) && v.closeToken + 1 == j && v.startToken == i && v == ArrayNode(i, v.elements, v.closeToken)
            && ElementsFrom(ts, i + 1) == Ok((v.elements, v.closeToken))
            && ts[i].kind == '[' && ts[v.closeToken].kind == ']'
  {
    hide MembersFrom, ElementsFrom;
    var v := ValueFrom(ts, i).value.0;
    ElementsAnchored(ts, i + 1, v.closeToken, v.elements);
  }

  // What the parse of a whole document says about its root object.
  lemma ParsedRoot(ts: seq<Token>, root: Node)
    requires ValueFrom(ts, 0) == Ok((root, |ts|)) && root.kind == '{'
    ensures |ts| >= 2 && root.closeToken == |ts| - 1 && root == ObjectNode(0, root.members, |ts| - 1)
    ensures MembersFrom(ts, 1) == Ok((root.members, |ts| - 1))
    ensures RootAnchored(ts, root) && ts[0].kind == '{' && ts[|ts| - 1].kind == '}'
  {
    hide MembersFrom, ElementsFrom;
    var c := |ts| - 1;
    forall k | 0 <= k < |root.members|
      ensures root.members[k].value.endToken < |ts|
      ensures root.members[k].value.kind == '[' ==> Anchored(ts, root.members[k].value)
    {
      MembersAfterStart(ts, 1, c, root.members, k);
      if root.members[k].value.kind == '[' {
        ArrayAnchored(ts, root.members[k].value.startToken);
      }
    }
  }
}
