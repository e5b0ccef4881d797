/** The JSONC tokenizer of internal/harness/opencode/repo_setup.go.

    A document is read as a sequence of lexemes: the tokens the source keeps, and
    the white space and comments it skips. Keeping the skipped ones makes an edit
    of the text an edit of that sequence, and `LexIff` says exactly which lexeme
    sequences a text can be cut back into. */
module JsoncLexer {
  import opened Base

  // Go's json.Unmarshal into a string and json.Valid, both left uninterpreted.
  datatype Codec = Codec(decode: string -> Option<string>, valid: string -> bool)

  datatype Fault = UnexpectedSlash | UnterminatedComment | UnterminatedString | InvalidString | InvalidValue

  datatype LexError = LexError(fault: Fault, at: nat)

  datatype Token = Token(kind: char, start: nat, end: nat, value: string)

  datatype Lexeme =
    | Space(c: char)
    | Line(text: string)
    | Block(text: string)
    | Punct(c: char)
    | Str(text: string, value: string)
    | Val(text: string)
  {
    function Text(): string {
      match this
      case Space(c) => [c]
      case Punct(c) => [c]
      case _ => text
    }

    predicate IsToken() { Punct? || Str? || Val? }

    predicate IsComment() { Line? || Block? }

    function Kind(): char
      requires IsToken()
    {
      match this
      case Punct(c) => c
      case Str(_, _) => 's'
      case Val(_) => 'v'
    }

    function Value(): string { if Str? then value else "" }
  }

  predicate IsSpace(c: char) { c == ' ' || c == '\t' || c == '\r' || c == '\n' }

  predicate IsPunct(c: char) { c == '{' || c == '}' || c == '[' || c == ']' || c == ':' || c == ',' }

  predicate IsDelimiter(c: char) { IsSpace(c) || IsPunct(c) || c == '/' }

  // Scanners: where the construct that begins before i ends.

  function LineEnd(s: string, i: nat): (r: nat)
    requires i <= |s|
    ensures i <= r <= |s|
    ensures forall k :: i <= k < r ==> s[k] != '\n'
    ensures r < |s| ==> s[r] == '\n'
    decreases |s| - i
  {
    if i == |s| || s[i] == '\n' then i else LineEnd(s, i + 1)
  }

  function RunEnd(s: string, i: nat): (r: nat)
    requires i <= |s|
    ensures i <= r <= |s|
    ensures forall k :: i <= k < r ==> !IsDelimiter(s[k])
    ensures r < |s| ==> IsDelimiter(s[r])
    decreases |s| - i
  {
    if i == |s| || IsDelimiter(s[i]) then i else RunEnd(s, i + 1)
  }

  predicate ClosesAt(s: string, k: nat) { k + 1 < |s| && s[k] == '*' && s[k + 1] == '/' }

  // One past the first "*/" at or after i, or None.
  function BlockEnd(s: string, i: nat): (r: Option<nat>)
    ensures r.Some? ==> i + 2 <= r.value <= |s| && ClosesAt(s, r.value - 2)
                        && forall k :: i <= k < r.value - 2 ==> !ClosesAt(s, k)
    ensures r.None? ==> forall k :: i <= k ==> !ClosesAt(s, k)
    decreases |s| - i
  {
    if i + 1 >= |s| then None
    else if ClosesAt(s, i) then Some(i + 2)
    else BlockEnd(s, i + 1)
  }

  // The index after the scan of a string body, and whether a closing quote ended
  // it. A trailing backslash steps one past the end of the text.
  function StringEnd(s: string, i: nat): (r: (nat, bool))
    requires i <= |s| + 1
    ensures i <= r.0 <= |s| + 1
    ensures r.1 ==> i < r.0 <= |s| && s[r.0 - 1] == '"'
    ensures !r.1 ==> |s| <= r.0
    decreases |s| + 1 - i
  {
    if i >= |s| then (i, false)
    else if s[i] == '\\' then StringEnd(s, i + 2)
    else if s[i] == '"' then (i + 1, true)
    else StringEnd(s, i + 1)
  }

  function NextComment(s: string): Result<Lexeme, Fault>
    requires s != ""
  {
    if |s| == 1 then Err(UnexpectedSlash)
    else if s[1] == '/' then Ok(Line(s[..LineEnd(s, 2)]))
    else if s[1] == '*' then
      match BlockEnd(s, 2)
      case None => Err(UnterminatedComment)
      case Some(e) => Ok(Block(s[..e]))
    else Err(UnexpectedSlash)
  }

  function NextString(codec: Codec, s: string): Result<Lexeme, Fault>
    requires s != ""
  {
    var e := StringEnd(s, 1).0;
    if e > |s| || s[e - 1] != '"' then Err(UnterminatedString)
    else match codec.decode(s[..e])
      case None => Err(InvalidString)
      case Some(value) => Ok(Str(s[..e], value))
  }

  function NextRun(codec: Codec, s: string): Result<Lexeme, Fault> {
    var e := RunEnd(s, 0);
    if codec.valid(s[..e]) then Ok(Val(s[..e])) else Err(InvalidValue)
  }

  // The first lexeme of a non-empty text.
  function Next(codec: Codec, s: string): Result<Lexeme, Fault>
    requires s != ""
  {
    var c := s[0];
    if IsSpace(c) then Ok(Space(c))
    else if c == '/' then NextComment(s)
    else if IsPunct(c) then Ok(Punct(c))
    else if c == '"' then NextString(codec, s)
    else NextRun(codec, s)
  }

  // The whole text, the first byte of which is byte `at` of the document.
  function Lex(codec: Codec, s: string, at: nat): Result<seq<Lexeme>, LexError>
    decreases |s|
  {
    if s == "" then Ok([])
    else match Next(codec, s)
      case Err(f) => Err(LexError(f, at))
      case Ok(l) =>
        NextSound(codec, s);
        var n := |l.Text()|;
        match Lex(codec, s[n..], at + n)
        case Err(e) => Err(e)
        case Ok(ls) => Ok([l] + ls)
  }

  function Flatten(ls: seq<Lexeme>): string {
    if ls == [] then "" else ls[0].Text() + Flatten(ls[1..])
  }

  // A string lexeme whose scan ran into the end of the text.
  predicate Open(l: Lexeme) { l.Str? && |l.text| >= 1 && !StringEnd(l.text, 1).1 }

  ghost predicate LexOk(codec: Codec, l: Lexeme) {
    match l
    case Space(c) => IsSpace(c)
    case Punct(c) => IsPunct(c)
    case Line(t) => |t| >= 2 && t[0] == '/' && t[1] == '/' && forall k :: 0 <= k < |t| ==> t[k] != '\n'
    case Block(t) => |t| >= 4 && t[0] == '/' && t[1] == '*' && BlockEnd(t, 2) == Some(|t|)
    case Str(t, v) => |t| >= 1 && t[0] == '"' && t[|t| - 1] == '"' && StringEnd(t, 1).0 == |t| && codec.decode(t) == Some(v)
    case Val(t) => t != "" && t[0] != '"' && codec.valid(t) && forall k :: 0 <= k < |t| ==> !IsDelimiter(t[k])
  }

  // What may stand directly after a lexeme.
  predicate Follow(l: Lexeme, rest: string) {
    rest == "" ||
    match l
    case Line(_) => rest[0] == '\n'
    case Val(_) => IsDelimiter(rest[0])
    case Str(_, _) => !Open(l)
    case _ => true
  }

  ghost predicate WellFormed(codec: Codec, ls: seq<Lexeme>) {
    ls == [] || (LexOk(codec, ls[0]) && Follow(ls[0], Flatten(ls[1..])) && WellFormed(codec, ls[1..]))
  }

  // Scans that stop inside t stop at the same place when more text follows t.

  lemma BlockEndLocal(t: string, rest: string, i: nat)
    requires BlockEnd(t, i) == Some(|t|)
    ensures BlockEnd(t + rest, i) == Some(|t|)
  {
    var s := t + rest;
    assert ClosesAt(s, |t| - 2);
    forall k | i <= k < |t| - 2
      ensures !ClosesAt(s, k)
    {
      assert !ClosesAt(t, k);
    }
  }

  lemma {:induction false} StringEndLocal(t: string, rest: string, i: nat)
    requires i <= |t| && StringEnd(t, i) == (|t|, true)
    ensures StringEnd(t + rest, i) == (|t|, true)
    decreases |t| - i
  {
    var s := t + rest;
    if t[i] == '\\' {
      StringEndLocal(t, rest, i + 2);
    } else if t[i] != '"' {
      StringEndLocal(t, rest, i + 1);
    }
  }

  // The part of the text that a scan passed over determines its result.
  lemma {:induction false} StringEndPrefix(s: string, i: nat)
    requires i <= |s| && StringEnd(s, i).0 <= |s|
    ensures StringEnd(s[..StringEnd(s, i).0], i) == StringEnd(s, i)
    decreases |s| - i
  {
    var e := StringEnd(s, i).0;
    var t := s[..e];
    if i < |s| {
      if s[i] == '\\' {
        if i + 2 <= |s| {
          StringEndPrefix(s, i + 2);
        }
      } else if s[i] != '"' {
        StringEndPrefix(s, i + 1);
      }
    }
  }

  lemma BlockEndPrefix(s: string, i: nat)
    requires BlockEnd(s, i).Some?
    ensures BlockEnd(s[..BlockEnd(s, i).value], i) == BlockEnd(s, i)
  {
    var e := BlockEnd(s, i).value;
    var t := s[..e];
    assert ClosesAt(t, e - 2);
    forall k | i <= k < e - 2
      ensures !ClosesAt(t, k)
    {
      assert !ClosesAt(s, k);
    }
  }

  ghost predicate Heads(codec: Codec, l: Lexeme, s: string) {
    var n := |l.Text()|;
    LexOk(codec, l) && 1 <= n <= |s| && s[..n] == l.Text() && Follow(l, s[n..])
  }

  lemma CommentSound(codec: Codec, s: string)
    requires s != "" && s[0] == '/' && NextComment(s).Ok?
    ensures Heads(codec, NextComment(s).value, s)
  {
    if s[1] == '*' {
      BlockEndPrefix(s, 2);
    }
  }

  lemma StringSound(codec: Codec, s: string)
    requires s != "" && s[0] == '"' && NextString(codec, s).Ok?
    ensures Heads(codec, NextString(codec, s).value, s)
  {
    StringEndPrefix(s, 1);
  }

  lemma RunSound(codec: Codec, s: string)
    requires s != "" && s[0] != '"' && !IsDelimiter(s[0]) && NextRun(codec, s).Ok?
    ensures Heads(codec, NextRun(codec, s).value, s)
  {
  }

  lemma NextSound(codec: Codec, s: string)
    requires s != ""
    ensures Next(codec, s).Ok? ==> Heads(codec, Next(codec, s).value, s)
  {
    if Next(codec, s).Ok? {
      var c := s[0];
      if IsSpace(c) || IsPunct(c) {
      } else {
        hide NextComment, NextString, NextRun, Heads;
        if c == '/' {
          CommentSound(codec, s);
        } else if c == '"' {
          StringSound(codec, s);
        } else {
          RunSound(codec, s);
        }
      }
    }
  }

  lemma NextComplete(codec: Codec, l: Lexeme, rest: string)
    requires LexOk(codec, l) && Follow(l, rest)
    ensures l.Text() != "" && Next(codec, l.Text() + rest) == Ok(l)
  {
    var t := l.Text();
    var s := t + rest;
    assert s[..|t|] == t;
    match l
    case Block(_) => BlockEndLocal(t, rest, 2);
    case Str(_, _) =>
      if rest != "" {
        StringEndLocal(t, rest, 1);
      } else {
        assert s == t;
      }
    case Line(_) =>
      assert rest != "" ==> s[|t|] == rest[0];
      assert forall k :: 0 <= k < |t| ==> s[k] == t[k];
    case Val(_) =>
      assert !IsDelimiter(t[0]) && s[0] == t[0];
      assert rest != "" ==> s[|t|] == rest[0];
      assert forall k :: 0 <= k < |t| ==> s[k] == t[k];
    case _ =>
  }

  lemma LexStep(codec: Codec, s: string, at: nat, l: Lexeme)
    requires s != "" && Next(codec, s) == Ok(l)
    ensures 1 <= |l.Text()| <= |s|
    ensures Lex(codec, s, at) == match Lex(codec, s[|l.Text()|..], at + |l.Text()|)
                                 case Err(e) => Err(e)
                                 case Ok(ls) => Ok([l] + ls)
  {
    NextSound(codec, s);
    hide Next, LexOk, Follow;
  }

  lemma FlattenCons(codec: Codec, l: Lexeme, ls: seq<Lexeme>)
    ensures Flatten([l] + ls) == l.Text() + Flatten(ls)
    ensures WellFormed(codec, [l] + ls) <==> LexOk(codec, l) && Follow(l, Flatten(ls)) && WellFormed(codec, ls)
  {
    hide LexOk, Follow;
    assert ([l] + ls)[1..] == ls;
  }

  lemma LexUncons(codec: Codec, s: string, at: nat, ls: seq<Lexeme>) returns (l: Lexeme, tail: seq<Lexeme>)
    requires Lex(codec, s, at) == Ok(ls) && s != ""
    ensures ls == [l] + tail && LexOk(codec, l) && 1 <= |l.Text()| <= |s|
    ensures s == l.Text() + s[|l.Text()|..] && Follow(l, s[|l.Text()|..])
    ensures Lex(codec, s[|l.Text()|..], at + |l.Text()|) == Ok(tail)
  {
    l := Next(codec, s).value;
    NextSound(codec, s);
    hide Next, LexOk, Follow;
    tail := Lex(codec, s[|l.Text()|..], at + |l.Text()|).value;
  }

  // Cutting and joining are inverse: a text lexes to exactly those lexeme
  // sequences that spell it and respect what may follow what.
  lemma {:induction false} LexSound(codec: Codec, s: string, at: nat, ls: seq<Lexeme>)
    requires Lex(codec, s, at) == Ok(ls)
    ensures WellFormed(codec, ls) && Flatten(ls) == s
    decreases |s|
  {
    hide Next, LexOk, Follow;
    if s == "" {
    } else {
      var l, tail := LexUncons(codec, s, at, ls);
      LexSound(codec, s[|l.Text()|..], at + |l.Text()|, tail);
      FlattenCons(codec, l, tail);
    }
  }

  lemma LexNothing(codec: Codec, at: nat)
    ensures Lex(codec, "", at) == Ok([])
  {
  }

  lemma {:induction false} LexComplete(codec: Codec, ls: seq<Lexeme>, at: nat)
    requires WellFormed(codec, ls)
    ensures Lex(codec, Flatten(ls), at) == Ok(ls)
    decreases |ls|
  {
    hide Next, LexOk, Follow, Lex;
    if ls == [] {
      LexNothing(codec, at);
    } else {
      LexCompleteStep(codec, ls[0], ls[1..], at, Flatten(ls[1..]));
      LexComplete(codec, ls[1..], at + |ls[0].Text()|);
      assert ls == [ls[0]] + ls[1..];
    }
  }

  lemma LexCompleteStep(codec: Codec, l: Lexeme, tail: seq<Lexeme>, at: nat, rest: string)
    requires LexOk(codec, l) && Follow(l, rest)
    ensures Lex(codec, rest, at + |l.Text()|) == Ok(tail) ==> Lex(codec, l.Text() + rest, at) == Ok([l] + tail)
  {
    hide Next, LexOk, Follow, Lex;
    NextComplete(codec, l, rest);
    LexStep(codec, l.Text() + rest, at, l);
    assert (l.Text() + rest)[|l.Text()|..] == rest;
  }

  // A text is read as a sequence of lexemes exactly if they spell it, each is a lexeme
  // and each may follow the one before it.
  lemma LexIff(codec: Codec, s: string, ls: seq<Lexeme>)
    ensures Lex(codec, s, 0) == Ok(ls) <==> WellFormed(codec, ls) && Flatten(ls) == s
  {
    hide Next, LexOk, Follow;
    if Lex(codec, s, 0) == Ok(ls) {
      LexSound(codec, s, 0, ls);
    }
    if WellFormed(codec, ls) {
      LexComplete(codec, ls, 0);
    }
  }

  // The tokens of a lexeme sequence whose first byte is byte `at`.
  function Emit(l: Lexeme, at: nat): seq<Token> {
    if l.IsToken() then [Token(l.Kind(), at, at + |l.Text()|, l.Value())] else []
  }

  function TokensOf(ls: seq<Lexeme>, at: nat): seq<Token> {
    if ls == [] then [] else Emit(ls[0], at) + TokensOf(ls[1..], at + |ls[0].Text()|)
  }

  function Tokens(codec: Codec, data: string): Result<seq<Token>, LexError> {
    match Lex(codec, data, 0)
    case Err(e) => Err(e)
    case Ok(ls) => Ok(TokensOf(ls, 0))
  }

  // What is left to produce once `tokens` stand for data[..i].
  ghost function Remaining(codec: Codec, data: string, i: nat, tokens: seq<Token>): Result<seq<Token>, LexError>
    requires i <= |data|
  {
    match Lex(codec, data[i..], i)
    case Err(e) => Err(e)
    case Ok(ls) => Ok(tokens + TokensOf(ls, i))
  }

  lemma TokensOfCons(l: Lexeme, ls: seq<Lexeme>, at: nat)
    ensures TokensOf([l] + ls, at) == Emit(l, at) + TokensOf(ls, at + |l.Text()|)
  {
    assert ([l] + ls)[1..] == ls;
  }

  lemma RemainingStep(codec: Codec, data: string, i: nat, tokens: seq<Token>, l: Lexeme)
    requires i < |data| && Next(codec, data[i..]) == Ok(l)
    ensures 1 <= |l.Text()| && i + |l.Text()| <= |data|
    ensures Remaining(codec, data, i, tokens)
         == Remaining(codec, data, i + |l.Text()|, tokens + Emit(l, i))
  {
    hide Lex, Next, TokensOf, Emit;
    var s, n := data[i..], |l.Text()|;
    LexStep(codec, s, i, l);
    assert s[n..] == data[i + n..];
    var rest := Lex(codec, s[n..], i + n);
    if rest.Ok? {
      TokensOfCons(l, rest.value, i);
      assert tokens + (Emit(l, i) + TokensOf(rest.value, i + n)) == tokens + Emit(l, i) + TokensOf(rest.value, i + n);
    }
  }

  lemma RemainingFails(codec: Codec, data: string, i: nat, tokens: seq<Token>, f: Fault)
    requires i < |data| && Next(codec, data[i..]) == Err(f)
    ensures Remaining(codec, data, i, tokens) == Err(LexError(f, i))
  {
    hide Next;
  }

  lemma RemainingInit(codec: Codec, data: string)
    ensures Remaining(codec, data, 0, []) == Tokens(codec, data)
  {
    hide Lex, TokensOf;
    assert data[0..] == data;
    var r := Lex(codec, data, 0);
    assert r.Ok? ==> [] + TokensOf(r.value, 0) == TokensOf(r.value, 0);
  }

  lemma RemainingDone(codec: Codec, data: string, tokens: seq<Token>)
    ensures Remaining(codec, data, |data|, tokens) == Ok(tokens)
  {
    assert data[|data|..] == "";
    assert Lex(codec, "", |data|) == Ok([]);
    assert tokens + TokensOf([], |data|) == tokens;
  }

  method ScanComment(data: string, i: nat) returns (r: Result<Lexeme, Fault>)
    requires i < |data|
    ensures r == NextComment(data[i..])
  {
    ghost var s := data[i..];
    if i + 1 >= |data| {
      return Err(UnexpectedSlash);
    }
    var k := i + 2;
    if data[i + 1] == '/' {
      while k < |data| && data[k] != '\n'
        invariant i + 2 <= k <= |data|
        invariant LineEnd(s, k - i) == LineEnd(s, 2)
      {
        k := k + 1;
      }
      assert data[i..k] == s[..k - i];
      return Ok(Line(data[i..k]));
    } else if data[i + 1] == '*' {
      while k + 1 < |data| && !(data[k] == '*' && data[k + 1] == '/')
        invariant i + 2 <= k <= |data|
        invariant BlockEnd(s, k - i) == BlockEnd(s, 2)
      {
        assert !ClosesAt(s, k - i);
        k := k + 1;
      }
      if k + 1 >= |data| {
        return Err(UnterminatedComment);
      }
      assert ClosesAt(s, k - i);
      k := k + 2;
      assert data[i..k] == s[..k - i];
      return Ok(Block(data[i..k]));
    } else {
      return Err(UnexpectedSlash);
    }
  }

  method ScanString(codec: Codec, data: string, i: nat) returns (r: Result<Lexeme, Fault>)
    requires i < |data|
    ensures r == NextString(codec, data[i..])
  {
    ghost var s := data[i..];
    var k := i + 1;
    var open := true;
    while open && k < |data|
      invariant i + 1 <= k <= |data| + 1
      invariant open ==> StringEnd(s, k - i) == StringEnd(s, 1)
      invariant !open ==> StringEnd(s, 1) == (k - i, true)
      decreases |data| + 1 - k, open
    {
      if data[k] == '\\' {
        k := k + 2;
      } else if data[k] == '"' {
        k := k + 1;
        open := false;
      } else {
        k := k + 1;
      }
    }
    if k > |data| || data[k - 1] != '"' {
      return Err(UnterminatedString);
    }
    assert data[i..k] == s[..k - i];
    match codec.decode(data[i..k]) {
      case None => return Err(InvalidString);
      case Some(value) => return Ok(Str(data[i..k], value));
    }
  }

  method ScanRun(codec: Codec, data: string, i: nat) returns (r: Result<Lexeme, Fault>)
    requires i < |data|
    ensures r == NextRun(codec, data[i..])
  {
    ghost var s := data[i..];
    var k := i;
    while k < |data| && !IsDelimiter(data[k])
      invariant i <= k <= |data|
      invariant RunEnd(s, k - i) == RunEnd(s, 0)
    {
      k := k + 1;
    }
    assert data[i..k] == s[..k - i];
    return if codec.valid(data[i..k]) then Ok(Val(data[i..k])) else Err(InvalidValue);
  }

  // The body of the tokenizer's loop: one lexeme from byte i on.
  method Scan(codec: Codec, data: string, i: nat) returns (r: Result<Lexeme, Fault>)
    requires i < |data|
    ensures r == Next(codec, data[i..])
  {
    hide NextComment, NextString, NextRun;
    var c := data[i];
    if IsSpace(c) {
      r := Ok(Space(c));
    } else if c == '/' {
      r := ScanComment(data, i);
    } else if IsPunct(c) {
      r := Ok(Punct(c));
    } else if c == '"' {
      r := ScanString(codec, data, i);
    } else {
      r := ScanRun(codec, data, i);
    }
  }

  // tokenizeJSONC: one pass over the bytes with a cursor.
  method Tokenize(codec: Codec, data: string) returns (r: Result<seq<Token>, LexError>)
    ensures r == Tokens(codec, data)
  {
    hide Next, Lex, Remaining, Tokens, TokensOf;
    var tokens: seq<Token> := [];
    var i := 0;
    RemainingInit(codec, data);
    while i < |data|
      invariant 0 <= i <= |data|
      invariant Remaining(codec, data, i, tokens) == Tokens(codec, data)
    {
      var scanned := Scan(codec, data, i);
      match scanned {
        case Err(f) =>
          RemainingFails(codec, data, i, tokens, f);
          return Err(LexError(f, i));
        case Ok(l) =>
          RemainingStep(codec, data, i, tokens, l);
          tokens := tokens + Emit(l, i);
          i := i + |l.Text()|;
      }
    }
    RemainingDone(codec, data, tokens);
    return Ok(tokens);
  }
}
