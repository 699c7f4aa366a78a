/** The lexer (compiler.cpp:32-97 and 456-630): a cursor over the source text
    with line and column counters that yields one token per call. */
module Lexing {
  import opened Wrappers

  datatype TokenKind =
    | NumberTok | StringTok | IdentTok
    | LetKw | PrintKw | IfKw | ElseKw | WhileKw | ForKw | FunctionKw | ReturnKw
    | Plus | Minus | Multiply | Divide | Assign | Power
    | Equal | NotEqual | LessThan | GreaterThan | LessEqual | GreaterEqual
    | Semicolon | LParen | RParen | LBrace | RBrace | LBracket | RBracket | Comma | Dot | Colon
    | EofTok | InvalidTok

  datatype Token = Token(kind: TokenKind, text: string, line: int, column: int)

  /** Position in the source and the line and column counters. */
  datatype Cursor = Cursor(pos: nat, line: int, column: int)

  // Character classes of the C locale, as `std::isspace`, `std::isdigit`,
  // `std::isalpha` and `std::isalnum` report them.

  predicate IsSpace(ch: char) {
    ch == ' ' || ch == '\t' || ch == '\n' || ch == '\r' || ch == '\U{000B}' || ch == '\U{000C}'
  }

  predicate IsDigit(ch: char) { '0' <= ch <= '9' }

  predicate IsAlpha(ch: char) { 'a' <= ch <= 'z' || 'A' <= ch <= 'Z' }

  predicate IsAlnum(ch: char) { IsAlpha(ch) || IsDigit(ch) }

  /** Characters of a number literal: digits and dots, in any arrangement. */
  predicate IsNumberChar(ch: char) { IsDigit(ch) || ch == '.' }

  predicate IsIdentChar(ch: char) { IsAlnum(ch) || ch == '_' }

  /** The keyword table of the lexer. */
  function KeywordKind(s: string): Option<TokenKind> {
    if s == "let" then Some(LetKw)
    else if s == "print" then Some(PrintKw)
    else if s == "if" then Some(IfKw)
    else if s == "else" then Some(ElseKw)
    else if s == "while" then Some(WhileKw)
    else if s == "for" then Some(ForKw)
    else if s == "function" then Some(FunctionKw)
    else if s == "return" then Some(ReturnKw)
    else None
  }

  const Keywords: set<string> := {"let", "print", "if", "else", "while", "for", "function", "return"}

  /** The five two-character operators, tried before any one-character token. */
  function TwoCharKind(first: char, second: char): Option<TokenKind> {
    if first == '=' && second == '=' then Some(Equal)
    else if first == '!' && second == '=' then Some(NotEqual)
    else if first == '<' && second == '=' then Some(LessEqual)
    else if first == '>' && second == '=' then Some(GreaterEqual)
    else if first == '*' && second == '*' then Some(Power)
    else None
  }

  /** One-character tokens; every other character is INVALID. */
  function SingleCharKind(ch: char): TokenKind {
    match ch
    case '+' => Plus
    case '-' => Minus
    case '*' => Multiply
    case '/' => Divide
    case '=' => Assign
    case '<' => LessThan
    case '>' => GreaterThan
    case ';' => Semicolon
    case '(' => LParen
    case ')' => RParen
    case '{' => LBrace
    case '}' => RBrace
    case '[' => LBracket
    case ']' => RBracket
    case ',' => Comma
    case '.' => Dot
    case ':' => Colon
    case _ => InvalidTok
  }

  /** `current_char` and `peek_char`: a NUL character past the end. */
  function CharAt(src: string, i: nat): char {
    if i < |src| then src[i] else '\0'
  }

  /** `advance`: move one character forward unless at the end; passing a
      newline increments the line and resets the column to 1. */
  function Stepped(src: string, c: Cursor): (r: Cursor)
    ensures r.pos == if c.pos < |src| then c.pos + 1 else c.pos
  {
    if c.pos < |src| then
      if src[c.pos] == '\n' then Cursor(c.pos + 1, c.line + 1, 1)
      else Cursor(c.pos + 1, c.line, c.column + 1)
    else c
  }

  /** `skip_whitespace`: the cursor after the maximal run of white space. */
  function SkippedSpace(src: string, c: Cursor): (r: Cursor)
    requires c.pos <= |src|
    ensures c.pos <= r.pos <= |src|
    decreases |src| - c.pos
  {
    if IsSpace(CharAt(src, c.pos)) then SkippedSpace(src, Stepped(src, c)) else c
  }

  /** `skip_comment`: one `//` comment, up to but not including the newline. */
  function SkippedComment(src: string, c: Cursor): (r: Cursor)
    requires c.pos <= |src|
    ensures c.pos <= r.pos <= |src|
  {
    if CharAt(src, c.pos) == '/' && CharAt(src, c.pos + 1) == '/' then ToLineEnd(src, c) else c
  }

  /** The loop of `skip_comment`: stop at a newline or a NUL character. */
  function ToLineEnd(src: string, c: Cursor): (r: Cursor)
    requires c.pos <= |src|
    ensures c.pos <= r.pos <= |src|
    decreases |src| - c.pos
  {
    var ch := CharAt(src, c.pos);
    if ch != '\n' && ch != '\0' then ToLineEnd(src, Stepped(src, c)) else c
  }

  /** `read_number`: the maximal run of digits and dots, with the cursor after it. */
  function NumberRun(src: string, c: Cursor): (r: (string, Cursor))
    requires c.pos <= |src|
    ensures c.pos <= r.1.pos <= |src|
    decreases |src| - c.pos
  {
    var ch := CharAt(src, c.pos);
    if IsNumberChar(ch) then
      var rest := NumberRun(src, Stepped(src, c));
      ([ch] + rest.0, rest.1)
    else ("", c)
  }

  /** `read_identifier`: the maximal run of letters, digits and underscores. */
  function IdentifierRun(src: string, c: Cursor): (r: (string, Cursor))
    requires c.pos <= |src|
    ensures c.pos <= r.1.pos <= |src|
    decreases |src| - c.pos
  {
    var ch := CharAt(src, c.pos);
    if IsIdentChar(ch) then
      var rest := IdentifierRun(src, Stepped(src, c));
      ([ch] + rest.0, rest.1)
    else ("", c)
  }

  /** The character an escape sequence `\e` stands for in a string literal. */
  function Unescape(e: char): char {
    match e
    case 'n' => '\n'
    case 't' => '\t'
    case '"' => '"'
    case '\\' => '\\'
    case _ => e
  }

  /** The loop of `read_string`: decode characters up to a closing quote or a
      NUL character (which is also what `current_char` reports past the end). */
  function StringBody(src: string, c: Cursor): (r: (string, Cursor))
    requires c.pos <= |src|
    ensures c.pos <= r.1.pos <= |src|
    decreases |src| - c.pos
  {
    var ch := CharAt(src, c.pos);
    if ch == '"' || ch == '\0' then ("", c)
    else if ch == '\\' then
      var escaped := Stepped(src, c);
      var rest := StringBody(src, Stepped(src, escaped));
      ([Unescape(CharAt(src, escaped.pos))] + rest.0, rest.1)
    else
      var rest := StringBody(src, Stepped(src, c));
      ([ch] + rest.0, rest.1)
  }

  /** `read_string`: skip the opening quote, decode the body and consume the
      closing quote when there is one. */
  function StringToken(src: string, c: Cursor): (r: (string, Cursor))
    requires c.pos <= |src|
    ensures c.pos <= r.1.pos <= |src|
    ensures c.pos < |src| ==> c.pos < r.1.pos
  {
    var body := StringBody(src, Stepped(src, c));
    (body.0, if CharAt(src, body.1.pos) == '"' then Stepped(src, body.1) else body.1)
  }

  /** Where `next_token` starts classifying: after white space, at most one
      comment, and white space again. */
  function TokenStart(src: string, c: Cursor): (r: Cursor)
    requires c.pos <= |src|
    ensures c.pos <= r.pos <= |src|
  {
    SkippedSpace(src, SkippedComment(src, SkippedSpace(src, c)))
  }

  /** `next_token`: the next token and the cursor after it. Every token but
      EOF consumes at least one character; EOF is returned exactly when the
      input is exhausted after skipping. */
  function Lex(src: string, c: Cursor): (r: (Token, Cursor))
    requires c.pos <= |src|
    ensures c.pos <= r.1.pos <= |src|
    ensures r.0.kind != EofTok ==> c.pos < r.1.pos
    ensures r.0.kind == EofTok <==> TokenStart(src, c).pos == |src|
    ensures r.0.kind == EofTok ==> r.1 == TokenStart(src, c)
  {
    var s := TokenStart(src, c);
    if s.pos >= |src| then (Token(EofTok, "", s.line, s.column), s)
    else
      var ch := src[s.pos];
      if ch == '"' then
        var str := StringToken(src, s);
        (Token(StringTok, str.0, str.1.line, str.1.column), str.1)
      else if IsDigit(ch) then
        var num := NumberRun(src, s);
        (Token(NumberTok, num.0, num.1.line, num.1.column), num.1)
      else if IsAlpha(ch) || ch == '_' then
        var id := IdentifierRun(src, s);
        var kind := if KeywordKind(id.0).Some? then KeywordKind(id.0).value else IdentTok;
        (Token(kind, id.0, id.1.line, id.1.column), id.1)
      else if TwoCharKind(ch, CharAt(src, s.pos + 1)).Some? then
        var e := Stepped(src, Stepped(src, s));
        (Token(TwoCharKind(ch, CharAt(src, s.pos + 1)).value, [ch, CharAt(src, s.pos + 1)], e.line, e.column - 1), e)
      else
        var e := Stepped(src, s);
        (Token(SingleCharKind(ch), [ch], e.line, e.column - 1), e)
  }

  /** The tokens `next_token` yields from a cursor on, up to and including the
      first EOF token. */
  function Tokens(src: string, c: Cursor): (ts: seq<Token>)
    requires c.pos <= |src|
    ensures |ts| > 0 && ts[|ts| - 1].kind == EofTok
    decreases |src| - c.pos
  {
    var (t, c') := Lex(src, c);
    if t.kind == EofTok then [t] else [t] + Tokens(src, c')
  }

  class Lexer {
    const source: string
    var position: nat
    var line: int
    var column: int

    ghost predicate Valid()
      reads this
    {
      position <= |source|
    }

    ghost function At(): Cursor
      reads this
    {
      Cursor(position, line, column)
    }

    constructor (src: string)
      ensures Valid() && source == src && At() == Cursor(0, 1, 1)
    {
      source := src;
      position, line, column := 0, 1, 1;
    }

    function CurrentChar(): char
      reads this
    {
      CharAt(source, position)
    }

    function PeekChar(): char
      reads this
    {
      CharAt(source, position + 1)
    }

    method Advance()
      requires Valid()
      modifies this
      ensures Valid() && At() == Stepped(source, old(At()))
      ensures position <= |source|
      ensures old(position) < |source| && old(source[position]) == '\n' ==> line == old(line) + 1 && column == 1
      ensures old(position) < |source| && old(source[position]) != '\n' ==> line == old(line) && column == old(column) + 1
      ensures old(position) == |source| ==> At() == old(At())
    {
      if position < |source| {
        if source[position] == '\n' {
          line := line + 1;
          column := 1;
        } else {
          column := column + 1;
        }
        position := position + 1;
      }
    }

    method SkipWhitespace()
      requires Valid()
      modifies this
      ensures Valid() && At() == SkippedSpace(source, old(At()))
    {
      while IsSpace(CurrentChar())
        invariant Valid()
        invariant SkippedSpace(source, At()) == SkippedSpace(source, old(At()))
        decreases |source| - position
      {
        Advance();
      }
    }

    method SkipComment()
      requires Valid()
      modifies this
      ensures Valid() && At() == SkippedComment(source, old(At()))
    {
      if CurrentChar() == '/' && PeekChar() == '/' {
        while CurrentChar() != '\n' && CurrentChar() != '\0'
          invariant Valid()
          invariant ToLineEnd(source, At()) == ToLineEnd(source, old(At()))
          decreases |source| - position
        {
          Advance();
        }
      }
    }

    method ReadNumber() returns (s: string)
      requires Valid()
      modifies this
      ensures Valid() && (s, At()) == NumberRun(source, old(At()))
    {
      s := "";
      while IsNumberChar(CurrentChar())
        invariant Valid()
        invariant s + NumberRun(source, At()).0 == NumberRun(source, old(At())).0
        invariant NumberRun(source, At()).1 == NumberRun(source, old(At())).1
        decreases |source| - position
      {
        s := s + [CurrentChar()];
        Advance();
      }
      assert NumberRun(source, At()) == ("", At());
      assert s + "" == s;
    }

    method ReadIdentifier() returns (s: string)
      requires Valid()
      modifies this
      ensures Valid() && (s, At()) == IdentifierRun(source, old(At()))
    {
      s := "";
      while IsIdentChar(CurrentChar())
        invariant Valid()
        invariant s + IdentifierRun(source, At()).0 == IdentifierRun(source, old(At())).0
        invariant IdentifierRun(source, At()).1 == IdentifierRun(source, old(At())).1
        decreases |source| - position
      {
        s := s + [CurrentChar()];
        Advance();
      }
      assert IdentifierRun(source, At()) == ("", At());
      assert s + "" == s;
    }

    method ReadString() returns (s: string)
      requires Valid()
      modifies this
      ensures Valid() && (s, At()) == StringToken(source, old(At()))
    {
      s := "";
      Advance();
      ghost var start := At();
      while CurrentChar() != '"' && CurrentChar() != '\0'
        invariant Valid() && start.pos <= |source|
        invariant s + StringBody(source, At()).0 == StringBody(source, start).0
        invariant StringBody(source, At()).1 == StringBody(source, start).1
        decreases |source| - position
      {
        ghost var before := At();
        var d: char;
        if CurrentChar() == '\\' {
          Advance();
          d := Unescape(CurrentChar());
        } else {
          d := CurrentChar();
        }
        Advance();
        ghost var rest := StringBody(source, At());
        assert StringBody(source, before) == ([d] + rest.0, rest.1);
        s := s + [d];
        assert s + rest.0 == StringBody(source, start).0;
      }
      assert StringBody(source, At()) == ("", At());
      assert s + "" == s;
      if CurrentChar() == '"' {
        Advance();
      }
    }

    method NextToken() returns (t: Token)
      requires Valid()
      modifies this
      ensures Valid() && (t, At()) == Lex(source, old(At()))
    {
      SkipWhitespace();
      SkipComment();
      SkipWhitespace();
      assert At() == TokenStart(source, old(At()));
      if position >= |source| {
        return Token(EofTok, "", line, column);
      }
      var ch := CurrentChar();
      if ch == '"' {
        var s := ReadString();
        return Token(StringTok, s, line, column);
      }
      if IsDigit(ch) {
        var s := ReadNumber();
        return Token(NumberTok, s, line, column);
      }
      if IsAlpha(ch) || ch == '_' {
        var id := ReadIdentifier();
        var kind := if KeywordKind(id).Some? then KeywordKind(id).value else IdentTok;
        return Token(kind, id, line, column);
      }
      var next := PeekChar();
      var two := TwoCharKind(ch, next);
      if two.Some? {
        Advance();
        Advance();
        return Token(two.value, [ch, next], line, column - 1);
      }
      Advance();
      return Token(SingleCharKind(ch), [ch], line, column - 1);
    }
  }
}
