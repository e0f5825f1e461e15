/** The tokens of a command line, and the parser of sh.c, which works on the line with a cursor. */
module ShellParser {
  import opened Shell

  predicate IsSpace(c: char) {
    c == ' ' || c == '\t' || c == '\r' || c == '\n' || c == 11 as char
  }

  predicate IsSymbol(c: char) {
    c == '<' || c == '|' || c == '>' || c == '&' || c == ';' || c == '(' || c == ')'
  }

  predicate IsPlain(c: char) {
    !IsSpace(c) && !IsSymbol(c) && c != '\0'
  }

  /** A C string: no NUL inside. */
  predicate NoNul(s: string) {
    forall i | 0 <= i < |s| :: s[i] != '\0'
  }

  /** The length of the word at the front. */
  function WordLen(s: string): (n: nat)
    ensures n <= |s| && (forall i | 0 <= i < n :: IsPlain(s[i])) && (n < |s| ==> !IsPlain(s[n]))
  {
    if s == "" || !IsPlain(s[0]) then 0 else 1 + WordLen(s[1..])
  }

  function Lex(s: string): (ts: seq<Token>)
    requires NoNul(s)
    decreases |s|
  {
    if s == "" then []
    else if IsSpace(s[0]) then Lex(s[1..])
    else if s[0] == '>' && |s| > 1 && s[1] == '>' then [Append] + Lex(s[2..])
    else if IsSymbol(s[0]) then [Sym(s[0])] + Lex(s[1..])
    else [Word(s[..WordLen(s)])] + Lex(s[WordLen(s)..])
  }

  // ----- printing tokens

  predicate GoodWord(w: string) {
    w != "" && forall i | 0 <= i < |w| :: IsPlain(w[i])
  }

  predicate GoodToken(t: Token) {
    match t
    case Word(w) => GoodWord(w)
    case Sym(c) => IsSymbol(c)
    case Append => true
  }

  function Text(t: Token): string {
    match t
    case Word(w) => w
    case Sym(c) => [c]
    case Append => ">>"
  }

  function Render(ts: seq<Token>): string {
    if ts == [] then "" else Text(ts[0]) + " " + Render(ts[1..])
  }

  lemma {:induction false} RenderNoNul(ts: seq<Token>)
    requires forall i | 0 <= i < |ts| :: GoodToken(ts[i])
    ensures NoNul(Render(ts))
  {
    if ts != [] { RenderNoNul(ts[1..]); }
  }

  lemma WordThenSpace(w: string, rest: string)
    requires GoodWord(w)
    ensures WordLen(w + " " + rest) == |w|
  {
    var s := w + " " + rest;
    assert s[|w|] == ' ' && forall i | 0 <= i < |w| :: s[i] == w[i];
  }

  lemma {:induction false} LexRender(ts: seq<Token>)
    requires forall i | 0 <= i < |ts| :: GoodToken(ts[i])
    ensures NoNul(Render(ts)) && Lex(Render(ts)) == ts
  {
    RenderNoNul(ts);
    if ts != [] {
      RenderNoNul(ts[1..]);
      LexRender(ts[1..]);
      LexOne(ts[0], Render(ts[1..]));
    }
  }

  lemma LexSpace(rest: string)
    requires NoNul(rest)
    ensures NoNul(" " + rest) && Lex(" " + rest) == Lex(rest)
  {
    assert (" " + rest)[1..] == rest;
  }

  lemma LexOne(t: Token, rest: string)
    requires GoodToken(t) && NoNul(rest)
    ensures NoNul(Text(t) + " " + rest) && Lex(Text(t) + " " + rest) == [t] + Lex(rest)
  {
    var s := Text(t) + " " + rest;
    LexSpace(rest);
    assert s[|Text(t)|..] == " " + rest;
    match t
    case Word(w) =>
      WordThenSpace(w, rest);
      assert s[..|w|] == w && s[0] == w[0];
    case Sym(c) =>
      assert s[0] == c && s[1] == ' ';
    case Append =>
      assert s[0] == '>' && s[1] == '>';
  }

  // ----- the cursor

  /** What gettoken returns for a token. */
  function Code(t: Token): char {
    match t
    case Word(_) => 'a'
    case Sym(c) => c
    case Append => '+'
  }

  /** What peek looks for. */
  predicate Seen(ts: seq<Token>, toks: string) {
    ts != [] && (match ts[0] case Word(_) => false case Sym(c) => c in toks case Append => '>' in toks)
  }

  /** The tokens of s from position p on. */
  function From(s: string, p: nat): seq<Token>
    requires NoNul(s)
  {
    if p <= |s| then Lex(s[p..]) else []
  }

  lemma FromSpace(s: string, p: nat)
    requires NoNul(s) && p < |s| && IsSpace(s[p])
    ensures From(s, p) == From(s, p + 1)
  {
    assert s[p..][1..] == s[p + 1..];
  }

  lemma FromEnd(s: string, p: nat)
    requires NoNul(s) && p >= |s|
    ensures From(s, p) == []
  {
  }

  /** The token at a position that is not a space. */
  lemma FromToken(s: string, p: nat)
    requires NoNul(s) && p < |s| && !IsSpace(s[p])
    ensures s[p] == '>' && p + 1 < |s| && s[p + 1] == '>' ==> From(s, p) == [Append] + From(s, p + 2)
    ensures IsSymbol(s[p]) && !(s[p] == '>' && p + 1 < |s| && s[p + 1] == '>') ==>
              From(s, p) == [Sym(s[p])] + From(s, p + 1)
    ensures !IsSymbol(s[p]) ==>
              0 < WordLen(s[p..]) && From(s, p) == [Word(s[p..p + WordLen(s[p..])])] + From(s, p + WordLen(s[p..]))
  {
    hide Lex, WordLen, From;
    if !IsSymbol(s[p]) {
      FromWord(s, p);
    } else if s[p] == '>' && p + 1 < |s| && s[p + 1] == '>' {
      FromAppend(s, p);
    } else {
      FromSymbol(s, p);
    }
  }

  lemma FromAppend(s: string, p: nat)
    requires NoNul(s) && p + 1 < |s| && s[p] == '>' && s[p + 1] == '>'
    ensures From(s, p) == [Append] + From(s, p + 2)
  {
    var t := s[p..];
    assert t[0] == s[p] && t[1] == s[p + 1] && t[2..] == s[p + 2..];
  }

  lemma FromSymbol(s: string, p: nat)
    requires NoNul(s) && p < |s| && IsSymbol(s[p]) && !(s[p] == '>' && p + 1 < |s| && s[p + 1] == '>')
    ensures From(s, p) == [Sym(s[p])] + From(s, p + 1)
  {
    var t := s[p..];
    assert t[0] == s[p] && t[1..] == s[p + 1..];
    if p + 1 < |s| { assert t[1] == s[p + 1]; }
  }

  lemma FromWord(s: string, p: nat)
    requires NoNul(s) && p < |s| && !IsSpace(s[p]) && !IsSymbol(s[p])
    ensures var n := WordLen(s[p..]); 0 < n && From(s, p) == [Word(s[p..p + n])] + From(s, p + n)
  {
    var t := s[p..];
    assert t[0] == s[p];
    assert t[WordLen(t)..] == s[p + WordLen(t)..] && t[..WordLen(t)] == s[p..p + WordLen(t)];
  }

  lemma WordLenIs(s: string, p: nat, e: nat)
    requires p <= e <= |s| && (forall i | p <= i < e :: IsPlain(s[i])) && (e < |s| ==> !IsPlain(s[e]))
    ensures WordLen(s[p..]) == e - p
  {
    var t := s[p..];
    assert forall i | 0 <= i < |t| :: t[i] == s[p + i];
  }

  // ----- trees that point into the line

  /** A word of the line: plain characters up to one that is not. */
  datatype Span = Span(q: nat, eq: nat)

  predicate IsWord(s: string, w: Span) {
    w.q <= w.eq <= |s| && (forall i | w.q <= i < w.eq :: IsPlain(s[i])) && (w.eq < |s| ==> !IsPlain(s[w.eq]))
  }

  function TextOf(s: string, w: Span): string {
    if w.q <= w.eq <= |s| then s[w.q..w.eq] else ""
  }

  /** The commands as the parser builds them: every word is a pair of positions. */
  datatype Tree =
    | ExecAt(args: seq<Span>)
    | RedirAt(cmd: Tree, file: Span, mode: Mode)
    | PipeAt(left: Tree, right: Tree)
    | ListAt(left: Tree, right: Tree)
    | BackAt(cmd: Tree)

  datatype FileAt = FileAt(file: Span, mode: Mode)

  function Texts(s: string, args: seq<Span>): (r: seq<string>)
    ensures |r| == |args| && forall k | 0 <= k < |args| :: r[k] == TextOf(s, args[k])
  {
    seq(|args|, k requires 0 <= k < |args| => TextOf(s, args[k]))
  }

  function Named(s: string, fs: seq<FileAt>): (r: seq<File>)
    ensures |r| == |fs| && forall k | 0 <= k < |fs| :: r[k] == File(TextOf(s, fs[k].file), fs[k].mode)
  {
    seq(|fs|, k requires 0 <= k < |fs| => File(TextOf(s, fs[k].file), fs[k].mode))
  }

  /** The command with the words that the positions stand for. */
  function Spelled(s: string, t: Tree): Cmd {
    match t
    case ExecAt(args) => Exec(Texts(s, args))
    case RedirAt(c, file, mode) => Redir(Spelled(s, c), TextOf(s, file), mode)
    case PipeAt(l, r) => Pipe(Spelled(s, l), Spelled(s, r))
    case ListAt(l, r) => List(Spelled(s, l), Spelled(s, r))
    case BackAt(c) => Back(Spelled(s, c))
  }

  predicate AllWords(s: string, args: seq<Span>) {
    forall k | 0 <= k < |args| :: IsWord(s, args[k])
  }

  predicate FileWords(s: string, fs: seq<FileAt>) {
    forall k | 0 <= k < |fs| :: IsWord(s, fs[k].file)
  }

  predicate TreeWords(s: string, t: Tree) {
    match t
    case ExecAt(args) => AllWords(s, args)
    case RedirAt(c, file, mode) => TreeWords(s, c) && IsWord(s, file)
    case PipeAt(l, r) => TreeWords(s, l) && TreeWords(s, r)
    case ListAt(l, r) => TreeWords(s, l) && TreeWords(s, r)
    case BackAt(c) => TreeWords(s, c)
  }

  datatype Outcome = Done(cmd: Tree) | Panicked(msg: string)

  class Parser {
    const s: string
    var ps: nat

    ghost predicate Valid()
      reads this
    {
      NoNul(s) && ps <= |s|
    }

    constructor (s: string)
      requires NoNul(s)
      ensures Valid() && this.s == s && ps == 0
    {
      this.s := s;
      ps := 0;
    }

    method SkipSpaces()
      requires Valid()
      modifies this
      ensures Valid() && ps >= old(ps) && From(s, ps) == From(s, old(ps)) && (ps < |s| ==> !IsSpace(s[ps]))
    {
      hide Lex, From;
      while ps < |s| && IsSpace(s[ps])
        invariant Valid() && ps >= old(ps) && From(s, ps) == From(s, old(ps))
      {
        FromSpace(s, ps);
        ps := ps + 1;
      }
    }

    /** gettoken: the code of the next token, its position and its end; the cursor moves past it. */
    method Gettoken() returns (tok: char, q: nat, eq: nat)
      requires Valid()
      modifies this
      ensures Valid() && old(ps) <= ps && q <= eq <= |s|
      ensures From(s, old(ps)) == [] ==> tok == '\0' && From(s, ps) == []
      ensures From(s, old(ps)) != [] ==>
                var ts := From(s, old(ps));
                && tok == Code(ts[0]) && From(s, ps) == ts[1..] && ps > old(ps) && GoodToken(ts[0])
                && (ts[0].Word? ==> IsWord(s, Span(q, eq)) && TextOf(s, Span(q, eq)) == ts[0].w)
    {
      hide Lex, From, WordLen;
      SkipSpaces();
      q := ps;
      if ps == |s| {
        FromEnd(s, ps);
        return '\0', ps, ps;
      }
      FromToken(s, ps);
      tok := s[ps];
      if IsSymbol(tok) {
        ps := ps + 1;
        if tok == '>' && ps < |s| && s[ps] == '>' {
          tok := '+';
          ps := ps + 1;
        }
      } else {
        tok := 'a';
        while ps < |s| && !IsSpace(s[ps]) && !IsSymbol(s[ps])
          invariant q <= ps <= |s| && forall i | q <= i < ps :: IsPlain(s[i])
        {
          ps := ps + 1;
        }
        WordLenIs(s, q, ps);
      }
      eq := ps;
      SkipSpaces();
    }

    /** peek: is the next token one of these symbols? */
    method Peek(toks: string) returns (b: bool)
      requires Valid() && forall i | 0 <= i < |toks| :: IsSymbol(toks[i])
      modifies this
      ensures Valid() && ps >= old(ps) && From(s, ps) == From(s, old(ps)) && b == Seen(From(s, ps), toks)
      ensures From(s, ps) == [] <==> ps == |s|
    {
      hide Lex, From, WordLen;
      SkipSpaces();
      if ps == |s| {
        FromEnd(s, ps);
        return false;
      }
      FromToken(s, ps);
      b := s[ps] in toks;
    }

    /** parseredirs, on the redirections fs found so far. */
    method ParseRedirs(fs: seq<FileAt>) returns (ok: bool, out: seq<FileAt>)
      requires Valid() && FileWords(s, fs)
      modifies this
      ensures Valid() && ps >= old(ps) && FileWords(s, out)
      ensures var spec := Redirs(From(s, old(ps)), Named(s, fs));
              if ok then spec == Files(Named(s, out), From(s, ps)) else spec.NoFile?
    {
      hide Lex, From, IsWord, TextOf;
      out := fs;
      var more := Peek("<>");
      while more
        invariant Valid() && ps >= old(ps) && more == Seen(From(s, ps), "<>")
        invariant Redirs(From(s, ps), Named(s, out)) == Redirs(From(s, old(ps)), Named(s, fs)) && FileWords(s, out)
        decreases |s| - ps
      {
        ghost var ts := From(s, ps);
        var tok, q, eq := Gettoken();
        var kind;
        kind, q, eq := Gettoken();
        if kind != 'a' {
          RedirFails(ts, Named(s, out));
          return false, out;
        }
        RedirStep(ts, Named(s, out));
        var mode := if tok == '<' then In else if tok == '>' then Out else App;
        assert Named(s, out + [FileAt(Span(q, eq), mode)]) == Named(s, out) + [File(TextOf(s, Span(q, eq)), mode)];
        out := out + [FileAt(Span(q, eq), mode)];
        more := Peek("<>");
      }
      RedirEnd(From(s, ps), Named(s, out));
      return true, out;
    }

    /** parseblock and parseexec. */
    method ParseExecs() returns (r: Outcome)
      requires Valid()
      modifies this
      ensures Valid() && ps >= old(ps) && Agrees(s, r, ParseExec(From(s, old(ps))), From(s, ps))
      decreases |s| - ps, 0
    {
      hide Lex, From, Redirs, ParseLine, ParseArgs, Wrap;
      var block := Peek("(");
      if block {
        var tok, q, eq := Gettoken();
        r := ParseLines();
        if r.Panicked? {
          return;
        }
        var close := Peek(")");
        if !close {
          return Panicked("syntax - missing )");
        }
        tok, q, eq := Gettoken();
        assert Named(s, []) == [];
        var ok, fs := ParseRedirs([]);
        if !ok {
          return Panicked("missing file for redirection");
        }
        var c := WrapAll(s, r.cmd, fs);
        return Done(c);
      }
      assert Named(s, []) == [];
      var ok, fs := ParseRedirs([]);
      if !ok {
        return Panicked("missing file for redirection");
      }
      r := ParseWords(fs);
    }

    /** The argument loop of parseexec: argv is filled in place and never overrun. */
    method ParseWords(first: seq<FileAt>) returns (r: Outcome)
      requires Valid() && FileWords(s, first)
      modifies this
      ensures Valid() && ps >= old(ps) && Agrees(s, r, ParseArgs(From(s, old(ps)), [], Named(s, first)), From(s, ps))
    {
      hide Lex, From, Redirs, Wrap, IsWord, TextOf;
      var argv := new Span[MAXARGS](_ => Span(0, 0));
      var argc := 0;
      var fs := first;
      assert Texts(s, argv[..0]) == [];
      var stop := Peek("|)&;");
      while !stop
        invariant Valid() && ps >= old(ps) && fresh(argv) && argv.Length == MAXARGS && argc < MAXARGS
        invariant stop == Seen(From(s, ps), "|)&;")
        invariant AllWords(s, argv[..argc]) && FileWords(s, fs)
        invariant ParseArgs(From(s, ps), Texts(s, argv[..argc]), Named(s, fs))
                    == ParseArgs(From(s, old(ps)), [], Named(s, first))
        decreases |s| - ps
      {
        ghost var ts, args, files := From(s, ps), Texts(s, argv[..argc]), Named(s, fs);
        var tok, q, eq := Gettoken();
        if tok == '\0' {
          break;
        }
        if tok != 'a' {
          ArgPanics(ts, args, files);
          return Panicked("syntax");
        }
        argv[argc] := Span(q, eq);
        argc := argc + 1;
        assert Texts(s, argv[..argc]) == args + [ts[0].w];
        if argc >= MAXARGS {
          ArgPanics(ts, args, files);
          return Panicked("too many args");
        }
        var ok, more := ParseRedirs(fs);
        ArgMore(ts, args, files);
        if !ok {
          return Panicked("missing file for redirection");
        }
        fs := more;
        stop := Peek("|)&;");
      }
      EndsSeen(From(s, ps));
      ArgsEnd(From(s, ps), Texts(s, argv[..argc]), Named(s, fs));
      var c := WrapAll(s, ExecAt(argv[..argc]), fs);
      return Done(c);
    }

    method ParsePipes() returns (r: Outcome)
      requires Valid()
      modifies this
      ensures Valid() && ps >= old(ps) && Agrees(s, r, ParsePipe(From(s, old(ps))), From(s, ps))
      decreases |s| - ps, 1
    {
      hide Lex, From, ParseExec;
      r := ParseExecs();
      if r.Panicked? {
        return;
      }
      var bar := Peek("|");
      if bar {
        var tok, q, eq := Gettoken();
        var d := ParsePipes();
        return if d.Panicked? then d else Done(PipeAt(r.cmd, d.cmd));
      }
    }

    method ParseLines() returns (r: Outcome)
      requires Valid()
      modifies this
      ensures Valid() && ps >= old(ps) && Agrees(s, r, ParseLine(From(s, old(ps))), From(s, ps))
      decreases |s| - ps, 2
    {
      hide Lex, From, ParsePipe;
      r := ParsePipes();
      if r.Panicked? {
        return;
      }
      ghost var c, rest := Spelled(s, r.cmd), From(s, ps);
      var more := Peek("&");
      while more
        invariant Valid() && ps >= old(ps) && r.Done? && more == Seen(From(s, ps), "&")
        invariant TreeWords(s, r.cmd) && Backs(Spelled(s, r.cmd), From(s, ps)) == Backs(c, rest)
        decreases |s| - ps
      {
        var tok, q, eq := Gettoken();
        r := Done(BackAt(r.cmd));
        more := Peek("&");
      }
      var semi := Peek(";");
      if semi {
        var tok, q, eq := Gettoken();
        var d := ParseLines();
        return if d.Panicked? then d else Done(ListAt(r.cmd, d.cmd));
      }
    }

    /** parsecmd: the result is that of the token parser on the whole line, and its words have become
        C strings in the line's buffer. */
    method ParseAll(buf: array<char>) returns (r: Outcome)
      requires Valid() && ps == 0 && buf[..] == s + ['\0']
      modifies this, buf
      ensures Valid() && Agrees(s, r, ParseCmd(Lex(s)), [])
      ensures r.Done? ==> ParseCmd(Lex(s)).Ok? && Stored(buf[..], r.cmd) == ParseCmd(Lex(s)).cmd
    {
      hide Lex, ParseLine, Spelled, TreeWords, Stored;
      assert s[0..] == s;
      r := ParseLines();
      if r.Panicked? {
        return;
      }
      var b := Peek("");
      if ps != |s| {
        return Panicked("syntax");
      }
      CopyKept(buf[..], s);
      Nulterminate(buf, s, r.cmd);
      StoredIs(buf[..], s, r.cmd);
    }
  }

  /** The same panic, or a tree whose words make the same command. */
  ghost predicate Agrees(s: string, r: Outcome, spec: Parse, rest: seq<Token>) {
    match spec
    case Panic(m) => r == Panicked(m)
    case Ok(c, ts) => r.Done? && TreeWords(s, r.cmd) && Spelled(s, r.cmd) == c && rest == ts
  }

  /** Redirections put around a command one after the other. */
  method WrapAll(s: string, c: Tree, fs: seq<FileAt>) returns (r: Tree)
    requires TreeWords(s, c) && FileWords(s, fs)
    ensures TreeWords(s, r) && Spelled(s, r) == Wrap(Spelled(s, c), Named(s, fs))
  {
    r := c;
    ghost var files := Named(s, fs);
    for i := 0 to |fs|
      invariant TreeWords(s, r) && Spelled(s, r) == Wrap(Spelled(s, c), files[..i])
    {
      assert files[..i + 1][..i] == files[..i];
      r := RedirAt(r, fs[i].file, fs[i].mode);
    }
    assert files[..|fs|] == files;
  }

  lemma RedirFails(ts: seq<Token>, fs: seq<File>)
    requires Seen(ts, "<>") && (|ts| < 2 || !ts[1].Word?)
    ensures Redirs(ts, fs).NoFile?
  {
  }

  lemma EndsSeen(ts: seq<Token>)
    ensures Ends(ts) <==> ts == [] || Seen(ts, "|)&;")
  {
  }

  lemma ArgPanics(ts: seq<Token>, args: seq<string>, fs: seq<File>)
    requires ts != [] && !Seen(ts, "|)&;")
    ensures !ts[0].Word? ==> ParseArgs(ts, args, fs) == Panic("syntax")
    ensures ts[0].Word? && |args| + 1 >= MAXARGS ==> ParseArgs(ts, args, fs) == Panic("too many args")
  {
    EndsSeen(ts);
  }

  lemma ArgMore(ts: seq<Token>, args: seq<string>, fs: seq<File>)
    requires ts != [] && ts[0].Word? && |args| + 1 < MAXARGS
    ensures var more := Redirs(ts[1..], fs);
            ParseArgs(ts, args, fs) ==
                if more.NoFile? then Panic("missing file for redirection")
                else ParseArgs(more.rest, args + [ts[0].w], more.fs)
  {
  }

  lemma RedirStep(ts: seq<Token>, fs: seq<File>)
    requires |ts| >= 2 && Seen(ts, "<>") && ts[1].Word?
    ensures Redirs(ts, fs) == Redirs(ts[2..], fs + [File(ts[1].w, ModeOf(ts[0]))])
  {
  }

  lemma RedirEnd(ts: seq<Token>, fs: seq<File>)
    requires !Seen(ts, "<>")
    ensures Redirs(ts, fs) == Files(fs, ts)
  {
  }

  // ----- the round trip on text

  predicate GoodCmd(c: Cmd) {
    match c
    case Exec(args) => |args| < MAXARGS && forall i | 0 <= i < |args| :: GoodWord(args[i])
    case Redir(d, file, _) => GoodCmd(d) && GoodWord(file)
    case Pipe(d, e) => GoodCmd(d) && GoodCmd(e)
    case List(d, e) => GoodCmd(d) && GoodCmd(e)
    case Back(d) => GoodCmd(d)
  }

  lemma {:induction false} WordToksGood(args: seq<string>)
    requires forall i | 0 <= i < |args| :: GoodWord(args[i])
    ensures forall i | 0 <= i < |WordToks(args)| :: GoodToken(WordToks(args)[i])
  {
    if args != [] { WordToksGood(args[1..]); }
  }

  lemma {:induction false} ToksGood(c: Cmd, l: Level)
    requires GoodCmd(c)
    ensures Fits(c) && forall i | 0 <= i < |Toks(c, l)| :: GoodToken(Toks(c, l)[i])
    decreases c, Rank(c, l)
  {
    hide GoodToken;
    SymbolsGood();
    match l
    case LineL => if c.List? { ToksGood(c.left, BackL); ToksGood(c.right, LineL); } else { ToksGood(c, BackL); }
    case BackL => if c.Back? { ToksGood(c.cmd, BackL); } else { ToksGood(c, PipeL); }
    case PipeL => if c.Pipe? { ToksGood(c.left, ExecL); ToksGood(c.right, PipeL); } else { ToksGood(c, ExecL); }
    case ExecL =>
      if c.Exec? { WordToksGood(c.args); }
      else if c.Redir? { ToksGood(c.cmd, ExecL); FileGood(c.file); }
      else { ToksGood(c, LineL); }
  }

  lemma SymbolsGood()
    ensures GoodToken(Sym(';')) && GoodToken(Sym('&')) && GoodToken(Sym('|'))
    ensures GoodToken(Sym('(')) && GoodToken(Sym(')'))
    ensures GoodToken(Sym('<')) && GoodToken(Sym('>')) && GoodToken(Append)
  {
  }

  lemma FileGood(w: string)
    requires GoodWord(w)
    ensures GoodToken(Word(w))
  {
  }

  /** The text of a command. */
  function Print(c: Cmd): string {
    Render(Toks(c, LineL))
  }

  /** Every command with good words and at most nine arguments per exec, printed, parses back to
      itself. */
  lemma PrintParse(c: Cmd)
    requires GoodCmd(c)
    ensures NoNul(Print(c)) && ParseCmd(Lex(Print(c))) == Ok(c, [])
  {
    hide Lex, ParseCmd, Render, Toks;
    ToksGood(c, LineL);
    LexRender(Toks(c, LineL));
    RoundTrip(c);
  }

  // ----- nulterminate

  /** The C string at position p. */
  function CString(buf: seq<char>, p: nat): string
    decreases |buf| - p
  {
    if p >= |buf| || buf[p] == '\0' then "" else [buf[p]] + CString(buf, p + 1)
  }

  function CStrings(buf: seq<char>, args: seq<Span>): (r: seq<string>)
    ensures |r| == |args| && forall k | 0 <= k < |args| :: r[k] == CString(buf, args[k].q)
  {
    seq(|args|, k requires 0 <= k < |args| => CString(buf, args[k].q))
  }

  /** The command that runcmd finds: every word is the C string at its start. */
  function Stored(buf: seq<char>, t: Tree): Cmd {
    match t
    case ExecAt(args) => Exec(CStrings(buf, args))
    case RedirAt(c, file, mode) => Redir(Stored(buf, c), CString(buf, file.q), mode)
    case PipeAt(l, r) => Pipe(Stored(buf, l), Stored(buf, r))
    case ListAt(l, r) => List(Stored(buf, l), Stored(buf, r))
    case BackAt(c) => Back(Stored(buf, c))
  }

  /** The plain characters of the line are still there. */
  ghost predicate Kept(buf: seq<char>, s: string) {
    |buf| == |s| + 1 && forall i | 0 <= i < |s| && IsPlain(s[i]) :: buf[i] == s[i]
  }

  predicate ArgsEnded(buf: seq<char>, args: seq<Span>) {
    forall k | 0 <= k < |args| :: args[k].eq < |buf| && buf[args[k].eq] == '\0'
  }

  /** A NUL stands at the end of every word of t. */
  predicate Ended(buf: seq<char>, t: Tree) {
    match t
    case ExecAt(args) => ArgsEnded(buf, args)
    case RedirAt(c, file, mode) => Ended(buf, c) && file.eq < |buf| && buf[file.eq] == '\0'
    case PipeAt(l, r) => Ended(buf, l) && Ended(buf, r)
    case ListAt(l, r) => Ended(buf, l) && Ended(buf, r)
    case BackAt(c) => Ended(buf, c)
  }

  /** Nothing but further NULs. */
  ghost predicate OnlyNuls(a: seq<char>, b: seq<char>) {
    |a| == |b| && forall i | 0 <= i < |a| :: b[i] == a[i] || b[i] == '\0'
  }

  lemma {:induction false} EndedStays(a: seq<char>, b: seq<char>, t: Tree)
    requires Ended(a, t) && OnlyNuls(a, b)
    ensures Ended(b, t)
  {
    match t
    case ExecAt(args) =>
    case RedirAt(c, file, mode) => EndedStays(a, b, c);
    case PipeAt(l, r) => EndedStays(a, b, l); EndedStays(a, b, r);
    case ListAt(l, r) => EndedStays(a, b, l); EndedStays(a, b, r);
    case BackAt(c) => EndedStays(a, b, c);
  }

  /** nulterminate: a NUL goes behind every word of the tree, where no word has a character. */
  method Nulterminate(buf: array<char>, s: string, t: Tree)
    requires Kept(buf[..], s) && TreeWords(s, t)
    modifies buf
    ensures Kept(buf[..], s) && Ended(buf[..], t) && OnlyNuls(old(buf[..]), buf[..])
    decreases t
  {
    match t
    case ExecAt(args) => EndArgs(buf, s, args);
    case RedirAt(c, file, mode) =>
      Nulterminate(buf, s, c);
      ghost var was := buf[..];
      EndWord(buf, s, file);
      EndedStays(was, buf[..], c);
    case PipeAt(l, r) =>
      Nulterminate(buf, s, l);
      ghost var was := buf[..];
      Nulterminate(buf, s, r);
      EndedStays(was, buf[..], l);
    case ListAt(l, r) =>
      Nulterminate(buf, s, l);
      ghost var was := buf[..];
      Nulterminate(buf, s, r);
      EndedStays(was, buf[..], l);
    case BackAt(c) => Nulterminate(buf, s, c);
  }

  method EndWord(buf: array<char>, s: string, w: Span)
    requires Kept(buf[..], s) && IsWord(s, w)
    modifies buf
    ensures Kept(buf[..], s) && buf.Length == |s| + 1 && buf[w.eq] == '\0' && OnlyNuls(old(buf[..]), buf[..])
  {
    assert |buf[..]| == buf.Length;
    ghost var was := buf[..];
    buf[w.eq] := '\0';
    assert buf[..] == was[w.eq := '\0'];
  }

  /** The loop over argv. */
  method EndArgs(buf: array<char>, s: string, args: seq<Span>)
    requires Kept(buf[..], s) && AllWords(s, args)
    modifies buf
    ensures Kept(buf[..], s) && ArgsEnded(buf[..], args) && OnlyNuls(old(buf[..]), buf[..])
  {
    for i := 0 to |args|
      invariant Kept(buf[..], s) && ArgsEnded(buf[..], args[..i]) && OnlyNuls(old(buf[..]), buf[..])
    {
      EndWord(buf, s, args[i]);
    }
    assert args[..|args|] == args;
  }

  lemma CopyKept(buf: seq<char>, s: string)
    requires buf == s + ['\0']
    ensures Kept(buf, s)
  {
  }

  lemma {:induction false} CStringIs(buf: seq<char>, s: string, w: Span)
    requires Kept(buf, s) && IsWord(s, w) && buf[w.eq] == '\0'
    ensures CString(buf, w.q) == TextOf(s, w)
    decreases w.eq - w.q
  {
    if w.q < w.eq {
      CStringIs(buf, s, Span(w.q + 1, w.eq));
      assert s[w.q..w.eq] == [s[w.q]] + s[w.q + 1..w.eq];
    }
  }

  /** So what stands in the buffer is what the parser read. */
  lemma {:induction false} StoredIs(buf: seq<char>, s: string, t: Tree)
    requires Kept(buf, s) && TreeWords(s, t) && Ended(buf, t)
    ensures Stored(buf, t) == Spelled(s, t)
  {
    match t
    case ExecAt(args) =>
      forall k | 0 <= k < |args| ensures CStrings(buf, args)[k] == Texts(s, args)[k] { CStringIs(buf, s, args[k]); }
    case RedirAt(c, file, mode) => StoredIs(buf, s, c); CStringIs(buf, s, file);
    case PipeAt(l, r) => StoredIs(buf, s, l); StoredIs(buf, s, r);
    case ListAt(l, r) => StoredIs(buf, s, l); StoredIs(buf, s, r);
    case BackAt(c) => StoredIs(buf, s, c);
  }
}
