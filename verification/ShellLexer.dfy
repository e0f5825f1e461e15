/** How a line of text reads as tokens, without a cursor: the tokens' texts with blanks between them. The
    tokens of a line are exactly those that it can be read as, and a line is accepted exactly if it can be
    read as a sentence of the grammar. */
module ShellLexer {
  import opened Shell
  import opened ShellParser
  import opened ShellGrammar

  const BLANKS := " \t\r\n" + [11 as char]
  const SYMBOLS := "<|>&;()"

  predicate Blank(g: string) {
    forall i | 0 <= i < |g| :: g[i] in BLANKS
  }

  /** A token that gettoken can return, and its text. */
  predicate Stands(t: Token, w: string) {
    match t
    case Word(v) => v == w && w != "" && forall i | 0 <= i < |w| :: w[i] !in BLANKS && w[i] !in SYMBOLS && w[i] != '\0'
    case Sym(c) => w == [c] && c in SYMBOLS
    case Append => w == ">>"
  }

  /** Tokens that need no blank between them. */
  predicate MayTouch(a: Token, b: Token) {
    !(a.Word? && b.Word?) && !(a == Sym('>') && (b == Sym('>') || b == Append))
  }

  /** The first gap, the first token, the next gap and so on to the last gap. */
  function Spread(gaps: seq<string>, ts: seq<Token>): string
    requires |gaps| == |ts| + 1
  {
    if ts == [] then gaps[0] else gaps[0] + Text(ts[0]) + Spread(gaps[1..], ts[1..])
  }

  ghost predicate Reads(s: string, ts: seq<Token>, gaps: seq<string>) {
    && |gaps| == |ts| + 1
    && (forall i | 0 <= i < |gaps| :: Blank(gaps[i]))
    && (forall i | 0 <= i < |ts| :: Stands(ts[i], Text(ts[i])))
    && (forall i | 0 < i < |ts| :: gaps[i] == "" ==> MayTouch(ts[i - 1], ts[i]))
    && s == Spread(gaps, ts)
  }

  lemma Kinds(c: char)
    ensures IsSpace(c) <==> c in BLANKS
    ensures IsSymbol(c) <==> c in SYMBOLS
  {
  }

  lemma StandsGood(t: Token)
    ensures Stands(t, Text(t)) <==> GoodToken(t)
  {
    match t
    case Word(w) =>
      forall i | 0 <= i < |w|
        ensures IsPlain(w[i]) <==> w[i] !in BLANKS && w[i] !in SYMBOLS && w[i] != '\0'
      {
        Kinds(w[i]);
      }
    case Sym(c) => Kinds(c);
    case Append =>
  }

  // ----- a line reads as its tokens

  /** The token at the front of a line that does not begin with a blank. */
  lemma FirstToken(s: string) returns (t: Token, rest: string)
    requires NoNul(s) && s != "" && !IsSpace(s[0])
    ensures GoodToken(t) && s == Text(t) + rest && NoNul(rest) && Lex(s) == [t] + Lex(rest)
    ensures t.Word? ==> rest == "" || !IsPlain(rest[0])
    ensures t == Sym('>') ==> rest == "" || rest[0] != '>'
  {
    var n;
    if s[0] == '>' && |s| > 1 && s[1] == '>' {
      t, n := Append, 2;
    } else if IsSymbol(s[0]) {
      t, n := Sym(s[0]), 1;
    } else {
      n := WordLen(s);
      t := Word(s[..n]);
    }
    rest := s[n..];
    assert s == s[..n] + rest;
    assert s[..n] == Text(t);
  }

  lemma {:induction false} LexReads(s: string) returns (gaps: seq<string>)
    requires NoNul(s)
    ensures Reads(s, Lex(s), gaps)
    decreases |s|
  {
    hide Lex, Reads;
    if s == "" {
      gaps := [""];
      NothingReads();
    } else if IsSpace(s[0]) {
      var more := LexReads(s[1..]);
      gaps := BlankFirst(s, Lex(s[1..]), more);
      LexBlank(s);
    } else {
      var t, rest := FirstToken(s);
      StandsGood(t);
      TextLong(t);
      var more := LexReads(rest);
      gaps := [""] + more;
      TokenFirst(t, rest, Lex(rest), more);
    }
  }

  lemma LexBlank(s: string)
    requires NoNul(s) && s != "" && IsSpace(s[0])
    ensures Lex(s) == Lex(s[1..])
  {
  }

  lemma TextLong(t: Token)
    requires GoodToken(t)
    ensures |Text(t)| > 0
  {
  }

  lemma NothingReads()
    ensures Reads("", Lex(""), [""])
  {
  }

  lemma BlankFirst(s: string, ts: seq<Token>, more: seq<string>) returns (gaps: seq<string>)
    requires s != "" && IsSpace(s[0]) && Reads(s[1..], ts, more)
    ensures Reads(s, ts, gaps)
  {
    Kinds(s[0]);
    gaps := more[0 := [s[0]] + more[0]];
    assert gaps[1..] == more[1..];
    assert s == [s[0]] + s[1..];
  }

  lemma TokenFirst(t: Token, rest: string, ts: seq<Token>, more: seq<string>)
    requires Stands(t, Text(t)) && Reads(rest, ts, more)
    requires t.Word? ==> rest == "" || !IsPlain(rest[0])
    requires t == Sym('>') ==> rest == "" || rest[0] != '>'
    ensures Reads(Text(t) + rest, [t] + ts, [""] + more)
  {
    var all, gaps := [t] + ts, [""] + more;
    assert all[1..] == ts && gaps[1..] == more;
    if ts != [] && more[0] == "" {
      Touching(t, rest, ts, more);
    }
  }

  lemma Touching(t: Token, rest: string, ts: seq<Token>, more: seq<string>)
    requires ts != [] && more != [] && more[0] == "" && Reads(rest, ts, more)
    requires t.Word? ==> rest == "" || !IsPlain(rest[0])
    requires t == Sym('>') ==> rest == "" || rest[0] != '>'
    ensures MayTouch(t, ts[0])
  {
    StandsGood(ts[0]);
    assert rest[0] == Text(ts[0])[0];
  }

  // ----- what a line reads as are its tokens

  lemma {:induction false} ReadsLex(s: string, ts: seq<Token>, gaps: seq<string>)
    requires Reads(s, ts, gaps)
    ensures NoNul(s) && Lex(s) == ts
    decreases |s|
  {
    hide Lex;
    if gaps[0] != "" {
      var more := DropBlank(s, ts, gaps);
      ReadsLex(s[1..], ts, more);
      LexBlank(s);
    } else if ts == [] {
      EmptyLex();
    } else {
      var rest := Spread(gaps[1..], ts[1..]);
      DropToken(s, ts, gaps, rest);
      ReadsLex(rest, ts[1..], gaps[1..]);
      LexToken(ts[0], rest);
      assert ts == [ts[0]] + ts[1..];
    }
  }

  lemma EmptyLex()
    ensures Lex("") == []
  {
  }

  lemma DropBlank(s: string, ts: seq<Token>, gaps: seq<string>) returns (more: seq<string>)
    requires Reads(s, ts, gaps) && gaps[0] != ""
    ensures s != "" && IsSpace(s[0]) && s[0] != '\0' && Reads(s[1..], ts, more)
  {
    Kinds(gaps[0][0]);
    assert s[0] == gaps[0][0];
    more := gaps[0 := gaps[0][1..]];
    assert more[1..] == gaps[1..];
    assert Spread(more, ts) == s[1..];
  }

  /** The rest after a first token reads as the other tokens, and does not run into the first. */
  lemma DropToken(s: string, ts: seq<Token>, gaps: seq<string>, rest: string)
    requires Reads(s, ts, gaps) && gaps[0] == "" && ts != [] && rest == Spread(gaps[1..], ts[1..])
    ensures GoodToken(ts[0]) && |Text(ts[0])| > 0 && s == Text(ts[0]) + rest && Reads(rest, ts[1..], gaps[1..])
    ensures ts[0].Word? ==> rest == "" || !IsPlain(rest[0])
    ensures ts[0] == Sym('>') ==> rest == "" || rest[0] != '>'
  {
    StandsGood(ts[0]);
    RestReads(s, ts, gaps, rest);
    if rest != "" {
      if gaps[1] != "" {
        Kinds(rest[0]);
        assert rest[0] == gaps[1][0];
      } else if |ts| > 1 {
        StandsGood(ts[1]);
        assert ts[1..][0] == ts[1];
        assert rest[0] == Text(ts[1])[0];
      }
    }
  }

  lemma RestReads(s: string, ts: seq<Token>, gaps: seq<string>, rest: string)
    requires Reads(s, ts, gaps) && gaps[0] == "" && ts != [] && rest == Spread(gaps[1..], ts[1..])
    ensures s == Text(ts[0]) + rest && Reads(rest, ts[1..], gaps[1..])
  {
    var us, more := ts[1..], gaps[1..];
    forall i | 0 < i < |us|
      ensures more[i] == "" ==> MayTouch(us[i - 1], us[i])
    {
      assert us[i - 1] == ts[i] && us[i] == ts[i + 1] && more[i] == gaps[i + 1];
    }
  }

  lemma LexToken(t: Token, rest: string)
    requires GoodToken(t) && NoNul(rest)
    requires t.Word? ==> rest == "" || !IsPlain(rest[0])
    requires t == Sym('>') ==> rest == "" || rest[0] != '>'
    ensures NoNul(Text(t) + rest) && Lex(Text(t) + rest) == [t] + Lex(rest)
  {
    var s, n := Text(t) + rest, |Text(t)|;
    assert s[n..] == rest && s[..n] == Text(t);
    match t
    case Word(w) =>
      assert WordLen(s) == n by {
        WordLenIs(s, 0, n);
        assert s[0..] == s;
      }
      assert s[0] == w[0];
    case Sym(c) =>
      assert s[0] == c;
    case Append =>
      assert s[0] == '>' && s[1] == '>';
  }

  /** THE TOKENS OF A LINE. A line has the tokens ts exactly if it is their texts with blanks (space, tab,
      carriage return, newline, vertical tab) before, between and after them, where only two words, or > and
      > or >>, need one. */
  lemma TokensExact(s: string, ts: seq<Token>)
    ensures NoNul(s) && Lex(s) == ts <==> exists gaps :: Reads(s, ts, gaps)
  {
    hide Lex, Reads;
    if NoNul(s) && Lex(s) == ts {
      var gaps := LexReads(s);
    }
    if gaps :| Reads(s, ts, gaps) {
      ReadsLex(s, ts, gaps);
    }
  }

  /** WHICH LINES ARE COMMANDS. Parsing the text s gives c exactly if s reads as tokens that the grammar
      derives from c. */
  lemma AcceptedLines(s: string, c: Cmd)
    ensures NoNul(s) && ParseCmd(Lex(s)) == Ok(c, []) <==> exists ts, gaps :: Reads(s, ts, gaps) && IsLine(c, ts)
  {
    hide Lex, Reads, ParseCmd, IsLine;
    if NoNul(s) && ParseCmd(Lex(s)) == Ok(c, []) {
      var gaps := LexReads(s);
      Grammar(Lex(s), c);
    }
    if ts, gaps :| Reads(s, ts, gaps) && IsLine(c, ts) {
      ReadsLex(s, ts, gaps);
      Grammar(ts, c);
    }
  }
}
