/** Properties of the lexer's reference functions. */
module LexerProperties {
  import opened Wrappers
  import opened Lexing

  /** At the end of the input `next_token` answers EOF with empty text and
      leaves position, line and column as they are, on every further call. */
  lemma EofIsStable(src: string, c: Cursor)
    requires c.pos == |src|
    ensures Lex(src, c) == (Token(EofTok, "", c.line, c.column), c)
    ensures Tokens(src, c) == [Token(EofTok, "", c.line, c.column)]
  {
  }

  /** Once `next_token` has answered EOF, the cursor is at the end of the input,
      so every later call answers the same EOF token. */
  lemma AfterEofOnlyEof(src: string, c: Cursor)
    requires c.pos <= |src|
    requires Lex(src, c).0.kind == EofTok
    ensures var c' := Lex(src, c).1;
      c'.pos == |src| && Lex(src, c') == (Token(EofTok, "", c'.line, c'.column), c')
  {
    EofIsStable(src, Lex(src, c).1);
  }

  /** The token stream holds exactly one EOF token, at its end. */
  lemma {:induction false} SingleEof(src: string, c: Cursor)
    requires c.pos <= |src|
    ensures var ts := Tokens(src, c);
      forall i :: 0 <= i < |ts| ==> (ts[i].kind == EofTok <==> i == |ts| - 1)
    decreases |src| - c.pos
  {
    var (t, c') := Lex(src, c);
    if t.kind != EofTok {
      SingleEof(src, c');
      var ts := Tokens(src, c);
      assert ts == [t] + Tokens(src, c');
      forall i | 0 <= i < |ts| ensures ts[i].kind == EofTok <==> i == |ts| - 1 {
        if i > 0 { assert ts[i] == Tokens(src, c')[i - 1]; }
      }
    }
  }

  /** `skip_whitespace` stops at the first character that is not white space
      and skips nothing else. */
  lemma {:induction false} WhitespaceRun(src: string, c: Cursor)
    requires c.pos <= |src|
    ensures var r := SkippedSpace(src, c);
      (forall i :: c.pos <= i < r.pos ==> IsSpace(src[i])) && !IsSpace(CharAt(src, r.pos))
    decreases |src| - c.pos
  {
    if IsSpace(CharAt(src, c.pos)) {
      WhitespaceRun(src, Stepped(src, c));
    }
  }

  /** `read_number` reads the maximal run of digits and dots; the token text is
      exactly the characters passed, none of them a newline. */
  lemma {:induction false} NumberRunIsMaximal(src: string, c: Cursor)
    requires c.pos <= |src|
    ensures var r := NumberRun(src, c);
      && r.0 == src[c.pos..r.1.pos]
      && (forall i :: c.pos <= i < r.1.pos ==> IsNumberChar(src[i]))
      && !IsNumberChar(CharAt(src, r.1.pos))
      && r.1.line == c.line && r.1.column == c.column + |r.0|
    decreases |src| - c.pos
  {
    if IsNumberChar(CharAt(src, c.pos)) {
      var r := NumberRun(src, c);
      NumberRunIsMaximal(src, Stepped(src, c));
      assert src[c.pos..r.1.pos] == [src[c.pos]] + src[c.pos + 1..r.1.pos];
    }
  }

  /** `read_identifier` reads the maximal run of letters, digits and underscores. */
  lemma {:induction false} IdentifierRunIsMaximal(src: string, c: Cursor)
    requires c.pos <= |src|
    ensures var r := IdentifierRun(src, c);
      && r.0 == src[c.pos..r.1.pos]
      && (forall i :: c.pos <= i < r.1.pos ==> IsIdentChar(src[i]))
      && !IsIdentChar(CharAt(src, r.1.pos))
      && r.1.line == c.line && r.1.column == c.column + |r.0|
    decreases |src| - c.pos
  {
    if IsIdentChar(CharAt(src, c.pos)) {
      var r := IdentifierRun(src, c);
      IdentifierRunIsMaximal(src, Stepped(src, c));
      assert src[c.pos..r.1.pos] == [src[c.pos]] + src[c.pos + 1..r.1.pos];
    }
  }

  lemma KeywordTable(s: string)
    ensures KeywordKind(s).Some? <==> s in Keywords
  {
  }

  /** A run of letters, digits and underscores that starts with a letter or an
      underscore is one token: a keyword token exactly when its text is in the
      keyword table, an identifier with the same text otherwise. */
  lemma IdentifierOrKeyword(src: string, c: Cursor)
    requires c.pos <= |src|
    requires var s := TokenStart(src, c);
      s.pos < |src| && (IsAlpha(src[s.pos]) || src[s.pos] == '_')
    ensures var s := TokenStart(src, c);
      var (t, c') := Lex(src, c);
      && t.text == src[s.pos..c'.pos] && |t.text| > 0
      && (forall i :: s.pos <= i < c'.pos ==> IsIdentChar(src[i]))
      && !IsIdentChar(CharAt(src, c'.pos))
      && (t.kind == IdentTok <==> t.text !in Keywords)
      && (t.text in Keywords ==> Some(t.kind) == KeywordKind(t.text))
  {
    var s := TokenStart(src, c);
    IdentifierRunIsMaximal(src, s);
    KeywordTable(IdentifierRun(src, s).0);
  }

  /** A digit starts a number literal: the maximal run of digits and dots. */
  lemma NumberToken(src: string, c: Cursor)
    requires c.pos <= |src|
    requires var s := TokenStart(src, c);
      s.pos < |src| && IsDigit(src[s.pos])
    ensures var s := TokenStart(src, c);
      var (t, c') := Lex(src, c);
      && t.kind == NumberTok
      && t.text == src[s.pos..c'.pos] && |t.text| > 0
      && (forall i :: s.pos <= i < c'.pos ==> IsNumberChar(src[i]))
      && !IsNumberChar(CharAt(src, c'.pos))
  {
    NumberRunIsMaximal(src, TokenStart(src, c));
  }

  /** `== != <= >= **` are recognised before any one-character token. */
  lemma TwoCharacterOperator(src: string, c: Cursor)
    requires c.pos <= |src|
    requires var s := TokenStart(src, c);
      s.pos + 1 < |src| && src[s.pos..s.pos + 2] in {"==", "!=", "<=", ">=", "**"}
    ensures var s := TokenStart(src, c);
      var (t, c') := Lex(src, c);
      && t.text == src[s.pos..s.pos + 2]
      && c'.pos == s.pos + 2
      && t.kind == (if t.text == "==" then Equal else if t.text == "!=" then NotEqual
                    else if t.text == "<=" then LessEqual else if t.text == ">=" then GreaterEqual
                    else Power)
  {
    var s := TokenStart(src, c);
    var pair := src[s.pos..s.pos + 2];
    assert pair[0] == src[s.pos] && pair[1] == src[s.pos + 1];
  }

  /** A character that starts no token kind gives exactly one INVALID token
      holding that character. */
  lemma InvalidCharacter(src: string, c: Cursor)
    requires c.pos <= |src|
    requires var s := TokenStart(src, c);
      && s.pos < |src|
      && src[s.pos] !in "\"+-*/=<>;(){}[],.:"
      && !IsIdentChar(src[s.pos])
      && !(src[s.pos] == '!' && CharAt(src, s.pos + 1) == '=')
    ensures var s := TokenStart(src, c);
      var (t, c') := Lex(src, c);
      t.kind == InvalidTok && t.text == [src[s.pos]] && c'.pos == s.pos + 1
  {
  }

  /** Only one comment is skipped per call: when a comment line is followed
      (after white space) by a second comment, `next_token` skips the first and
      answers the second one's leading `/` as a DIVIDE token. */
  lemma SecondCommentIsNotSkipped(src: string, c: Cursor)
    requires c.pos <= |src|
    requires var a := SkippedSpace(src, c);
      CharAt(src, a.pos) == '/' && CharAt(src, a.pos + 1) == '/'
    requires var b := SkippedSpace(src, ToLineEnd(src, SkippedSpace(src, c)));
      CharAt(src, b.pos) == '/' && CharAt(src, b.pos + 1) == '/'
    ensures var b := SkippedSpace(src, ToLineEnd(src, SkippedSpace(src, c)));
      Lex(src, c) == (Token(Divide, "/", b.line, b.column), Stepped(src, b))
  {
    var b := SkippedSpace(src, ToLineEnd(src, SkippedSpace(src, c)));
    assert TokenStart(src, c) == b;
    assert b.pos < |src| && src[b.pos] == '/';
  }

  /** The escape sequences a string literal needs for each character: the four
      that the lexer decodes, and `\` before a NUL character, which is passed
      through like any other escaped character. */
  function EscapeChar(ch: char): string {
    match ch
    case '\n' => "\\n"
    case '\t' => "\\t"
    case '"' => "\\\""
    case '\\' => "\\\\"
    case '\0' => ['\\', '\0']
    case _ => [ch]
  }

  function Escape(s: string): string {
    if s == "" then "" else EscapeChar(s[0]) + Escape(s[1..])
  }

  /** The escaped form of a character is either the character itself, when
      it needs no escape, or a backslash and a character that unescapes to it. */
  lemma EscapeCharShape(ch: char)
    ensures var e := EscapeChar(ch);
      (|e| == 1 && e[0] == ch && ch != '"' && ch != '\\' && ch != '\0')
      || (|e| == 2 && e[0] == '\\' && Unescape(e[1]) == ch)
  {
  }

  /** One plain character of a string body. */
  lemma PlainStep(src: string, c: Cursor)
    requires c.pos < |src| && src[c.pos] != '"' && src[c.pos] != '\\' && src[c.pos] != '\0'
    ensures var rest := StringBody(src, Stepped(src, c));
      StringBody(src, c) == ([src[c.pos]] + rest.0, rest.1)
  {
  }

  /** One escape sequence of a string body. */
  lemma EscapedStep(src: string, c: Cursor)
    requires c.pos + 1 < |src| && src[c.pos] == '\\'
    ensures var rest := StringBody(src, Stepped(src, Stepped(src, c)));
      StringBody(src, c) == ([Unescape(src[c.pos + 1])] + rest.0, rest.1)
  {
  }

  /** The body of a string literal decodes its escapes: reading the escaped
      form of any text up to a closing quote gives back that text. */
  lemma {:induction false} StringBodyDecodes(src: string, c: Cursor, s: string)
    requires c.pos <= |src|
    requires Escape(s) + "\"" <= src[c.pos..]
    ensures StringBody(src, c).0 == s
    ensures StringBody(src, c).1.pos == c.pos + |Escape(s)|
    decreases |s|
  {
    if s == "" {
      assert src[c.pos..][0] == '"';
    } else {
      var e := EscapeChar(s[0]);
      EscapeCharShape(s[0]);
      var tail := Escape(s[1..]) + "\"";
      assert Escape(s) + "\"" == e + tail;
      assert tail <= src[c.pos + |e|..] by {
        assert src[c.pos..][|e|..] == src[c.pos + |e|..];
      }
      assert src[c.pos] == e[0] by { assert src[c.pos..][0] == e[0]; }
      if |e| == 1 {
        PlainStep(src, c);
        StringBodyDecodes(src, Stepped(src, c), s[1..]);
      } else {
        assert src[c.pos + 1] == e[1] by { assert src[c.pos..][1] == e[1]; }
        EscapedStep(src, c);
        StringBodyDecodes(src, Stepped(src, Stepped(src, c)), s[1..]);
      }
      assert [s[0]] + s[1..] == s;
    }
  }

  /** Round trip of string literals: a quote, the escaped text and a closing
      quote read back as the text, and the closing quote is consumed. */
  lemma StringLiteralRoundTrip(src: string, c: Cursor, s: string)
    requires c.pos < |src| && src[c.pos] == '"'
    requires Escape(s) + "\"" <= src[c.pos + 1..]
    ensures StringToken(src, c).0 == s
    ensures StringToken(src, c).1.pos == c.pos + |Escape(s)| + 2
  {
    StringBodyDecodes(src, Stepped(src, c), s);
    assert src[c.pos + 1..][|Escape(s)|] == '"';
  }

  /** How `read_string` decodes a body that no closing quote ends: an escape
      stands for the character `Unescape` gives its second character, a
      backslash at the very end stands for the NUL character `current_char`
      reports past the end, and every other character for itself. */
  function Decoded(s: string): string
    decreases |s|
  {
    if s == "" then ""
    else if s[0] == '\\' then
      if |s| == 1 then [Unescape('\0')] else [Unescape(s[1])] + Decoded(s[2..])
    else [s[0]] + Decoded(s[1..])
  }

  /** Decoding undoes escaping, for every text. */
  lemma {:induction false} DecodedEscape(s: string)
    ensures Decoded(Escape(s)) == s
    decreases |s|
  {
    if s != "" {
      var e := EscapeChar(s[0]);
      var t := Escape(s[1..]);
      EscapeCharShape(s[0]);
      assert Escape(s) == e + t;
      DecodedEscape(s[1..]);
      if |e| == 1 {
        assert (e + t)[1..] == t;
      } else {
        assert (e + t)[2..] == t;
      }
      assert [s[0]] + s[1..] == s;
    }
  }

  /** Text without a backslash decodes to itself. */
  lemma {:induction false} DecodedPlain(s: string)
    requires forall i :: 0 <= i < |s| ==> s[i] != '\\'
    ensures Decoded(s) == s
    decreases |s|
  {
    if s != "" {
      DecodedPlain(s[1..]);
      assert [s[0]] + s[1..] == s;
    }
  }

  /** A string body that no quote and no NUL character end is read up to the
      end of the input, and its text is the decoding of everything after the
      start. */
  lemma {:induction false} UnterminatedString(src: string, c: Cursor)
    requires c.pos <= |src|
    requires forall i :: c.pos <= i < |src| ==> src[i] != '"' && src[i] != '\0'
    ensures StringBody(src, c).0 == Decoded(src[c.pos..])
    ensures StringBody(src, c).1.pos == |src|
    decreases |src| - c.pos
  {
    if c.pos < |src| {
      var rest := src[c.pos..];
      if src[c.pos] == '\\' {
        var after := Stepped(src, Stepped(src, c));
        if c.pos + 1 < |src| {
          UnterminatedString(src, after);
          assert rest[2..] == src[c.pos + 2..];
        } else {
          assert after.pos == |src|;
        }
      } else {
        UnterminatedString(src, Stepped(src, c));
        assert rest[1..] == src[c.pos + 1..];
      }
    }
  }

  /** So a string literal left open runs to the end of the input: its token
      text is the decoding of everything after the opening quote. */
  lemma UnterminatedStringToken(src: string, c: Cursor)
    requires c.pos < |src| && src[c.pos] == '"'
    requires forall i :: c.pos < i < |src| ==> src[i] != '"' && src[i] != '\0'
    ensures StringToken(src, c).0 == Decoded(src[c.pos + 1..])
    ensures StringToken(src, c).1.pos == |src|
  {
    UnterminatedString(src, Stepped(src, c));
  }

  /** `skip_comment` passes only characters that are neither a newline nor
      NUL, stops at the first newline, NUL or the end, and stays on its line. */
  lemma {:induction false} CommentRun(src: string, c: Cursor)
    requires c.pos <= |src|
    ensures var r := ToLineEnd(src, c);
      && (forall i :: c.pos <= i < r.pos ==> src[i] != '\n' && src[i] != '\0')
      && (CharAt(src, r.pos) == '\n' || CharAt(src, r.pos) == '\0')
      && r.line == c.line && r.column == c.column + (r.pos - c.pos)
    decreases |src| - c.pos
  {
    var ch := CharAt(src, c.pos);
    if ch != '\n' && ch != '\0' {
      CommentRun(src, Stepped(src, c));
    }
  }
}
