/** The grammar of the shell's commands, without a parser: which token sequences are which command.
    The parser accepts exactly these, and with exactly these trees. */
module ShellGrammar {
  import opened Shell

  // ----- the grammar

  /** The token of a redirection. */
  predicate IsMode(t: Token, m: Mode) {
    match m
    case In => t == Sym('<')
    case Out => t == Sym('>')
    case App => t == Append
  }

  /** Words and redirections in any order: the words make args, the redirections files. */
  predicate Simple(ts: seq<Token>, args: seq<string>, files: seq<File>)
    decreases |ts|
  {
    if ts == [] then args == [] && files == []
    else if ts[0].Word? then args != [] && args[0] == ts[0].w && Simple(ts[1..], args[1..], files)
    else
      && |ts| >= 2 && ts[1].Word? && files != [] && IsMode(ts[0], files[0].mode) && files[0].file == ts[1].w
      && Simple(ts[2..], args, files[1..])
  }

  /** A command of at most nine words, or a line in parentheses and redirections. */
  ghost predicate IsExec(c: Cmd, ts: seq<Token>)
    decreases |ts|, 0
  {
    || (exists args, files :: Simple(ts, args, files) && |args| < MAXARGS && c == Wrap(Exec(args), files))
    || (exists k, d, files | 0 < k < |ts| ::
          && ts[0] == Sym('(') && ts[k] == Sym(')') && IsLine(d, ts[1..k])
          && Simple(ts[k + 1..], [], files) && c == Wrap(d, files))
  }

  ghost predicate IsPipe(c: Cmd, ts: seq<Token>)
    decreases |ts|, 1
  {
    || IsExec(c, ts)
    || (c.Pipe? && exists k | 0 <= k < |ts| ::
          ts[k] == Sym('|') && IsExec(c.left, ts[..k]) && IsPipe(c.right, ts[k + 1..]))
  }

  ghost predicate IsBack(c: Cmd, ts: seq<Token>)
    decreases |ts|, 2
  {
    || IsPipe(c, ts)
    || (c.Back? && ts != [] && ts[|ts| - 1] == Sym('&') && IsBack(c.cmd, ts[..|ts| - 1]))
  }

  ghost predicate IsLine(c: Cmd, ts: seq<Token>)
    decreases |ts|, 3
  {
    || IsBack(c, ts)
    || (c.List? && exists k | 0 <= k < |ts| ::
          ts[k] == Sym(';') && IsBack(c.left, ts[..k]) && IsLine(c.right, ts[k + 1..]))
  }

  // ----- what parses is in the grammar

  lemma WordFirst(ts: seq<Token>, args: seq<string>, files: seq<File>)
    requires ts != [] && ts[0].Word?
    ensures Simple(ts, args, files) <==> args != [] && args[0] == ts[0].w && Simple(ts[1..], args[1..], files)
  {
  }

  lemma RedirFirst(ts: seq<Token>, args: seq<string>, files: seq<File>)
    requires ts != [] && !ts[0].Word?
    ensures Simple(ts, args, files) <==>
              && |ts| >= 2 && ts[1].Word? && files != [] && IsMode(ts[0], files[0].mode) && files[0].file == ts[1].w
              && Simple(ts[2..], args, files[1..])
  {
  }

  lemma NothingFirst(args: seq<string>, files: seq<File>)
    ensures Simple([], args, files) <==> args == [] && files == []
  {
  }

  lemma {:induction false} SimpleJoin(a: seq<Token>, b: seq<Token>, x: seq<string>, y: seq<string>, f: seq<File>,
                                      g: seq<File>)
    requires Simple(a, x, f) && Simple(b, y, g)
    ensures Simple(a + b, x + y, f + g)
    decreases |a|
  {
    hide Simple, IsMode;
    if a == [] {
      NothingFirst(x, f);
      assert a + b == b && x + y == y && f + g == g;
    } else if a[0].Word? {
      WordFirst(a, x, f);
      SimpleJoin(a[1..], b, x[1..], y, f, g);
      assert (a + b)[1..] == a[1..] + b && (x + y)[1..] == x[1..] + y;
      WordFirst(a + b, x + y, f + g);
    } else {
      RedirFirst(a, x, f);
      SimpleJoin(a[2..], b, x, y, f[1..], g);
      assert (a + b)[2..] == a[2..] + b && (f + g)[1..] == f[1..] + g;
      RedirFirst(a + b, x + y, f + g);
    }
  }

  lemma RedirCons(t: Token, w: string, ts: seq<Token>, files: seq<File>)
    requires IsRedir(t) && Simple(ts, [], files)
    ensures Simple([t, Word(w)] + ts, [], [File(w, ModeOf(t))] + files)
  {
    hide Simple;
    var all, fs := [t, Word(w)] + ts, [File(w, ModeOf(t))] + files;
    assert all[2..] == ts && fs[1..] == files;
    RedirFirst(all, [], fs);
  }

  lemma RedirsStep(ts: seq<Token>, fs: seq<File>)
    requires Redirs(ts, fs).Files?
    ensures ts == [] || !IsRedir(ts[0]) ==> Redirs(ts, fs) == Files(fs, ts)
    ensures ts != [] && IsRedir(ts[0]) ==>
              && |ts| >= 2 && ts[1].Word?
              && Redirs(ts, fs) == Redirs(ts[2..], fs + [File(ts[1].w, ModeOf(ts[0]))])
  {
  }

  /** How far Redirs reads. */
  lemma {:induction false} RedirsSound(ts: seq<Token>, fs: seq<File>) returns (a: seq<Token>, more: seq<File>)
    requires Redirs(ts, fs).Files?
    ensures var r := Redirs(ts, fs);
            ts == a + r.rest && r.fs == fs + more && Simple(a, [], more) && (r.rest == [] || !IsRedir(r.rest[0]))
    decreases |ts|
  {
    hide Simple, ModeOf, Redirs;
    RedirsStep(ts, fs);
    if ts == [] || !IsRedir(ts[0]) {
      a, more := [], [];
      NothingFirst([], []);
    } else {
      var f := File(ts[1].w, ModeOf(ts[0]));
      var b, rest := RedirsSound(ts[2..], fs + [f]);
      a, more := [ts[0], ts[1]] + b, [f] + rest;
      assert ts == [ts[0], ts[1]] + ts[2..];
      RedirCons(ts[0], ts[1].w, b, rest);
      assert fs + [f] + rest == fs + ([f] + rest);
    }
  }

  lemma ArgsStep(ts: seq<Token>, args: seq<string>, fs: seq<File>)
    requires ParseArgs(ts, args, fs).Ok?
    ensures Ends(ts) ==> ParseArgs(ts, args, fs) == Ok(Wrap(Exec(args), fs), ts)
    ensures !Ends(ts) ==>
              && ts[0].Word? && |args| + 1 < MAXARGS && Redirs(ts[1..], fs).Files?
              && var m := Redirs(ts[1..], fs); ParseArgs(ts, args, fs) == ParseArgs(m.rest, args + [ts[0].w], m.fs)
  {
  }

  lemma WordCons(w: string, b: seq<Token>, c: seq<Token>, x: seq<string>, f: seq<File>, g: seq<File>)
    requires Simple(b, [], f) && Simple(c, x, g)
    ensures Simple([Word(w)] + b + c, [w] + x, f + g)
  {
    hide Simple;
    var none: seq<string> := [];
    SimpleJoin(b, c, none, x, f, g);
    assert none + x == x;
    var all, args := [Word(w)] + b + c, [w] + x;
    assert all[1..] == b + c && args[1..] == x;
    WordFirst(all, args, f + g);
  }

  /** How far ParseArgs reads. */
  lemma {:induction false} ArgsSound(ts: seq<Token>, args: seq<string>, fs: seq<File>)
    returns (a: seq<Token>, words: seq<string>, files: seq<File>)
    requires ParseArgs(ts, args, fs).Ok? && |args| < MAXARGS
    ensures var r := ParseArgs(ts, args, fs);
            && ts == a + r.rest && Simple(a, words, files) && |args| + |words| < MAXARGS
            && r.cmd == Wrap(Exec(args + words), fs + files) && Ends(r.rest)
    decreases |ts|
  {
    hide Redirs, Wrap, Simple, ParseArgs;
    ArgsStep(ts, args, fs);
    if Ends(ts) {
      a, words, files := [], [], [];
      NothingFirst([], []);
      assert args + words == args && fs + files == fs;
    } else {
      var w, m := ts[0].w, Redirs(ts[1..], fs);
      var b, f := RedirsSound(ts[1..], fs);
      var c, x, g := ArgsSound(m.rest, args + [w], m.fs);
      a, words, files := [ts[0]] + b + c, [w] + x, f + g;
      WordCons(w, b, c, x, f, g);
      assert ts == [ts[0]] + ts[1..];
      assert args + [w] + x == args + words && fs + f + g == fs + files;
    }
  }

  lemma {:induction false} ExecSound(ts: seq<Token>) returns (a: seq<Token>)
    requires ParseExec(ts).Ok?
    ensures ts == a + ParseExec(ts).rest && IsExec(ParseExec(ts).cmd, a)
    decreases |ts|, 0
  {
    hide Redirs, ParseArgs, Wrap, ParseLine, IsLine, Simple, IsExec;
    if Starts(ts, '(') {
      var r := ParseLine(ts[1..]);
      var b := LineSound(ts[1..]);
      var d, files := RedirsSound(r.rest[1..], []);
      a := [Sym('(')] + b + [Sym(')')] + d;
      assert ts == [ts[0]] + ts[1..] && r.rest == [Sym(')')] + r.rest[1..];
      assert [] + files == files;
      BlockIs(r.cmd, b, d, files);
    } else {
      a := SimpleSound(ts);
    }
  }

  lemma BlockIs(c: Cmd, b: seq<Token>, d: seq<Token>, files: seq<File>)
    requires IsLine(c, b) && Simple(d, [], files)
    ensures IsExec(Wrap(c, files), [Sym('(')] + b + [Sym(')')] + d)
  {
    hide Wrap, IsLine, Simple;
    var a, k := [Sym('(')] + b + [Sym(')')] + d, |b| + 1;
    assert a[1..k] == b && a[k + 1..] == d && a[0] == Sym('(') && a[k] == Sym(')');
  }

  lemma SimpleSound(ts: seq<Token>) returns (a: seq<Token>)
    requires !Starts(ts, '(') && ParseExec(ts).Ok?
    ensures ts == a + ParseExec(ts).rest && IsExec(ParseExec(ts).cmd, a)
  {
    hide Redirs, ParseArgs, Wrap, IsLine, Simple;
    var m := Redirs(ts, []);
    var b, f := RedirsSound(ts, []);
    var c, words, g := ArgsSound(m.rest, [], m.fs);
    a := b + c;
    SimpleJoin(b, c, [], words, f, g);
    assert [] + words == words && [] + f + g == f + g;
  }

  lemma {:induction false} PipeSound(ts: seq<Token>) returns (a: seq<Token>)
    requires ParsePipe(ts).Ok?
    ensures ts == a + ParsePipe(ts).rest && IsPipe(ParsePipe(ts).cmd, a)
    decreases |ts|, 1
  {
    hide ParseExec, IsExec;
    var r := ParseExec(ts);
    a := ExecSound(ts);
    if Starts(r.rest, '|') {
      var b := PipeSound(r.rest[1..]);
      var k, all := |a|, a + [Sym('|')] + b;
      assert r.rest == [Sym('|')] + r.rest[1..];
      assert all[..k] == a && all[k + 1..] == b && all[k] == Sym('|');
      a := all;
    }
  }

  lemma BacksIs(c: Cmd, ts: seq<Token>)
    ensures Starts(ts, '&') ==> Backs(c, ts) == Backs(Back(c), ts[1..])
    ensures !Starts(ts, '&') ==> Backs(c, ts) == (c, ts)
  {
  }

  lemma Assoc(a: seq<Token>, t: Token, b: seq<Token>)
    ensures a + [t] + b == a + ([t] + b)
  {
  }

  lemma BackGrows(c: Cmd, a: seq<Token>)
    requires IsBack(c, a)
    ensures IsBack(Back(c), a + [Sym('&')])
  {
    hide IsPipe;
    var b := a + [Sym('&')];
    assert b[..|b| - 1] == a;
  }

  lemma {:induction false} BacksSound(c: Cmd, a: seq<Token>, ts: seq<Token>) returns (b: seq<Token>)
    requires IsBack(c, a)
    ensures ts == b + Backs(c, ts).1 && IsBack(Backs(c, ts).0, a + b) && !Starts(Backs(c, ts).1, '&')
    decreases |ts|
  {
    hide IsBack, Backs;
    BacksIs(c, ts);
    if Starts(ts, '&') {
      var a' := a + [Sym('&')];
      BackGrows(c, a);
      var d := BacksSound(Back(c), a', ts[1..]);
      b := [Sym('&')] + d;
      Assoc(a, Sym('&'), d);
      assert ts == [Sym('&')] + ts[1..];
      assert b + Backs(c, ts).1 == [Sym('&')] + (d + Backs(c, ts).1);
    } else {
      b := [];
      assert a + b == a;
    }
  }

  lemma {:induction false} LineSound(ts: seq<Token>) returns (a: seq<Token>)
    requires ParseLine(ts).Ok?
    ensures ts == a + ParseLine(ts).rest && IsLine(ParseLine(ts).cmd, a)
    decreases |ts|, 2
  {
    hide ParsePipe, IsPipe, Backs;
    var r := ParsePipe(ts);
    var b := PipeSound(ts);
    var (d, rest) := Backs(r.cmd, r.rest);
    var e := BacksSound(r.cmd, b, r.rest);
    a := b + e;
    if Starts(rest, ';') {
      var f := LineSound(rest[1..]);
      var k, all := |a|, a + [Sym(';')] + f;
      assert rest == [Sym(';')] + rest[1..];
      assert all[..k] == a && all[k + 1..] == f && all[k] == Sym(';');
      a := all;
    }
  }

  // ----- what is in the grammar parses

  /** Where a pipeline of several commands has its first bar. */
  lemma PipeCut(c: Cmd, ts: seq<Token>) returns (k: nat)
    requires IsPipe(c, ts) && !IsExec(c, ts)
    ensures c.Pipe? && k < |ts| && ts[k] == Sym('|') && IsExec(c.left, ts[..k]) && IsPipe(c.right, ts[k + 1..])
  {
    hide IsExec;
    k :| 0 <= k < |ts| && ts[k] == Sym('|') && IsExec(c.left, ts[..k]) && IsPipe(c.right, ts[k + 1..]);
  }

  /** Where a list has its first semicolon. */
  lemma LineCut(c: Cmd, ts: seq<Token>) returns (k: nat)
    requires IsLine(c, ts) && !IsBack(c, ts)
    ensures c.List? && k < |ts| && ts[k] == Sym(';') && IsBack(c.left, ts[..k]) && IsLine(c.right, ts[k + 1..])
  {
    hide IsBack;
    k :| 0 <= k < |ts| && ts[k] == Sym(';') && IsBack(c.left, ts[..k]) && IsLine(c.right, ts[k + 1..]);
  }

  lemma Pieces(ts: seq<Token>, k: nat)
    requires k < |ts|
    ensures ts == ts[..k] + [ts[k]] + ts[k + 1..]
    ensures 0 < k ==> ts == [ts[0]] + ts[1..k] + [ts[k]] + ts[k + 1..]
  {
  }

  lemma {:induction false} SimpleFiles(ts: seq<Token>, files: seq<File>)
    requires Simple(ts, [], files)
    ensures ts == FileToks(files)
    decreases |ts|
  {
    hide Simple;
    if ts == [] {
      NothingFirst([], files);
    } else {
      if ts[0].Word? { WordFirst(ts, [], files); } else { RedirFirst(ts, [], files); }
      SimpleFiles(ts[2..], files[1..]);
      assert ts == [ts[0], ts[1]] + ts[2..];
    }
  }

  /** The words and redirections of a simple command, read by Redirs and ParseArgs. */
  lemma {:induction false} SimpleParses(a: seq<Token>, words: seq<string>, files: seq<File>, rest: seq<Token>,
                                        args: seq<string>, fs: seq<File>)
    requires Simple(a, words, files) && Ends(rest) && |args| + |words| < MAXARGS
    ensures var r := Redirs(a + rest, fs);
            r.Files? && ParseArgs(r.rest, args, r.fs) == Ok(Wrap(Exec(args + words), fs + files), rest)
    decreases |a|
  {
    hide Wrap, Simple, Redirs, ParseArgs;
    var ts := a + rest;
    if a == [] {
      NothingFirst(words, files);
      assert ts == rest && args + words == args && fs + files == fs;
      EndsParses(rest, args, fs);
    } else if a[0].Word? {
      WordFirst(a, words, files);
      SimpleParses(a[1..], words[1..], files, rest, args + [words[0]], fs);
      assert ts[1..] == a[1..] + rest && ts[0] == a[0];
      assert args + [words[0]] + words[1..] == args + words;
      WordParses(ts, args, fs);
    } else {
      RedirFirst(a, words, files);
      SimpleParses(a[2..], words, files[1..], rest, args, fs + [files[0]]);
      assert ts[2..] == a[2..] + rest && ts[0] == a[0] && ts[1] == a[1];
      assert fs + [files[0]] + files[1..] == fs + files;
      OneRedir(ts, fs);
    }
  }

  lemma EndsParses(rest: seq<Token>, args: seq<string>, fs: seq<File>)
    requires Ends(rest)
    ensures Redirs(rest, fs) == Files(fs, rest) && ParseArgs(rest, args, fs) == Ok(Wrap(Exec(args), fs), rest)
  {
  }

  lemma WordParses(ts: seq<Token>, args: seq<string>, fs: seq<File>)
    requires ts != [] && ts[0].Word? && |args| + 1 < MAXARGS && Redirs(ts[1..], fs).Files?
    ensures Redirs(ts, fs) == Files(fs, ts)
    ensures var r := Redirs(ts[1..], fs); ParseArgs(ts, args, fs) == ParseArgs(r.rest, args + [ts[0].w], r.fs)
  {
  }

  lemma {:induction false} ExecComplete(c: Cmd, ts: seq<Token>, rest: seq<Token>)
    requires IsExec(c, ts) && Ends(rest)
    ensures ParseExec(ts + rest) == Ok(c, rest)
    decreases |ts|, 0
  {
    hide Wrap, ParseLine, ParseExec, FileToks, Simple, IsLine;
    if args, files :| Simple(ts, args, files) && |args| < MAXARGS && c == Wrap(Exec(args), files) {
      SimpleComplete(ts, args, files, rest);
    } else {
      var k, d, files :| 0 < k < |ts| && ts[0] == Sym('(') && ts[k] == Sym(')') && IsLine(d, ts[1..k])
        && Simple(ts[k + 1..], [], files) && c == Wrap(d, files);
      hide IsExec;
      SimpleFiles(ts[k + 1..], files);
      LineComplete(d, ts[1..k], [Sym(')')] + FileToks(files) + rest);
      BlockComplete(d, ts, k, files, rest);
    }
  }

  lemma BlockComplete(d: Cmd, ts: seq<Token>, k: nat, files: seq<File>, rest: seq<Token>)
    requires 0 < k < |ts| && ts[0] == Sym('(') && ts[k] == Sym(')') && ts[k + 1..] == FileToks(files) && Ends(rest)
    requires var after := [Sym(')')] + FileToks(files) + rest; ParseLine(ts[1..k] + after) == Ok(d, after)
    ensures ParseExec(ts + rest) == Ok(Wrap(d, files), rest)
  {
    hide Wrap, ParseLine, ParseExec, FileToks;
    BlockTrip(d, ts[1..k], files, rest);
    Pieces(ts, k);
  }

  lemma NoParen(ts: seq<Token>, args: seq<string>, files: seq<File>, rest: seq<Token>)
    requires Simple(ts, args, files) && Ends(rest)
    ensures !Starts(ts + rest, '(')
  {
    hide Simple;
    if ts != [] && !ts[0].Word? { RedirFirst(ts, args, files); }
  }

  lemma SimpleComplete(ts: seq<Token>, args: seq<string>, files: seq<File>, rest: seq<Token>)
    requires Simple(ts, args, files) && |args| < MAXARGS && Ends(rest)
    ensures ParseExec(ts + rest) == Ok(Wrap(Exec(args), files), rest)
  {
    hide Redirs, ParseArgs, Wrap, Simple, ParseExec;
    SimpleParses(ts, args, files, rest, [], []);
    assert [] + args == args && [] + files == files;
    NoParen(ts, args, files, rest);
    SimpleExec(ts + rest);
  }

  lemma {:induction false} PipeComplete(c: Cmd, ts: seq<Token>, rest: seq<Token>)
    requires IsPipe(c, ts) && AfterPipe(rest)
    ensures ParsePipe(ts + rest) == Ok(c, rest)
    decreases |ts|, 1
  {
    hide ParseExec, ParsePipe, IsExec, IsPipe;
    if IsExec(c, ts) {
      ExecComplete(c, ts, rest);
      PipeLast(c, ts + rest, rest);
    } else {
      var k := PipeCut(c, ts);
      var a, b := ts[..k], ts[k + 1..];
      ExecComplete(c.left, a, [Sym('|')] + b + rest);
      PipeComplete(c.right, b, rest);
      PipeStep(c.left, c.right, a, b, rest);
      Pieces(ts, k);
    }
  }

  lemma {:induction false} BackComplete(c: Cmd, ts: seq<Token>, rest: seq<Token>)
    requires IsBack(c, ts) && AfterPipe(rest)
    ensures ParseBack(ts + rest) == ParseBackMore(c, rest)
    decreases |ts|, 2
  {
    hide ParsePipe, ParseBack, IsPipe, Backs;
    if IsPipe(c, ts) {
      PipeComplete(c, ts, rest);
      BackFirst(c, ts + rest, rest);
    } else {
      var a := ts[..|ts| - 1];
      BackComplete(c.cmd, a, [Sym('&')] + rest);
      BackStep(c.cmd, a, rest);
      assert ts == a + [Sym('&')];
    }
  }

  lemma {:induction false} LineComplete(c: Cmd, ts: seq<Token>, rest: seq<Token>)
    requires IsLine(c, ts) && (rest == [] || Starts(rest, ')'))
    ensures ParseLine(ts + rest) == Ok(c, rest)
    decreases |ts|, 3
  {
    hide ParseLine, ParseBack, IsBack, IsLine;
    if IsBack(c, ts) {
      BackComplete(c, ts, rest);
      LineLast(c, ts + rest, rest);
    } else {
      var k := LineCut(c, ts);
      var a, b := ts[..k], ts[k + 1..];
      BackComplete(c.left, a, [Sym(';')] + b + rest);
      LineComplete(c.right, b, rest);
      LineStep(c.left, c.right, a, b, rest);
      Pieces(ts, k);
    }
  }

  /** THE PARSER ACCEPTS THE GRAMMAR. A line parses to c exactly if c derives it; every other line makes
      the parser panic. */
  lemma Grammar(ts: seq<Token>, c: Cmd)
    ensures ParseCmd(ts) == Ok(c, []) <==> IsLine(c, ts)
  {
    hide ParseLine, IsLine;
    if ParseCmd(ts) == Ok(c, []) {
      var a := LineSound(ts);
      assert a + [] == a;
    }
    if IsLine(c, ts) {
      LineComplete(c, ts, []);
      assert ts + [] == ts;
    }
  }

  /** No line is two commands. */
  lemma Unambiguous(ts: seq<Token>, c: Cmd, d: Cmd)
    requires IsLine(c, ts) && IsLine(d, ts)
    ensures c == d
  {
    hide ParseCmd, IsLine;
    Grammar(ts, c);
    Grammar(ts, d);
  }

  // ----- nothing is lost and nothing is made up

  function WordSet(args: seq<string>): multiset<Token> {
    if args == [] then multiset{} else multiset{Word(args[0])} + WordSet(args[1..])
  }

  /** The tokens that a command stands for, apart from parentheses. */
  function TokensOf(c: Cmd): multiset<Token> {
    match c
    case Exec(args) => WordSet(args)
    case Redir(d, file, m) =>
      TokensOf(d) + multiset{match m case In => Sym('<') case Out => Sym('>') case App => Append, Word(file)}
    case Pipe(l, r) => TokensOf(l) + TokensOf(r) + multiset{Sym('|')}
    case List(l, r) => TokensOf(l) + TokensOf(r) + multiset{Sym(';')}
    case Back(d) => TokensOf(d) + multiset{Sym('&')}
  }

  /** n pairs of parentheses. */
  function Parens(n: nat): multiset<Token> {
    multiset{}[Sym('(') := n][Sym(')') := n]
  }

  lemma ParensSum(m: nat, n: nat)
    ensures Parens(m) + Parens(n) == Parens(m + n)
    ensures Parens(n) + multiset{Sym('('), Sym(')')} == Parens(n + 1)
  {
  }

  function Pair(f: File): multiset<Token> {
    multiset{match f.mode case In => Sym('<') case Out => Sym('>') case App => Append, Word(f.file)}
  }

  function FileSet(files: seq<File>): multiset<Token> {
    if files == [] then multiset{} else FileSet(files[..|files| - 1]) + Pair(files[|files| - 1])
  }

  lemma WordSetFirst(args: seq<string>)
    requires args != []
    ensures WordSet(args) == multiset{Word(args[0])} + WordSet(args[1..])
  {
  }

  lemma {:induction false} FileSetFirst(files: seq<File>)
    requires files != []
    ensures FileSet(files) == Pair(files[0]) + FileSet(files[1..])
    decreases |files|
  {
    hide Pair;
    var n := |files| - 1;
    if n > 0 {
      hide FileSet;
      var init := files[..n];
      FileSetFirst(init);
      assert init[1..] == files[1..][..n - 1] && init[0] == files[0];
      FileSetLast(files);
      FileSetLast(files[1..]);
      Regroup(Pair(files[0]), FileSet(init[1..]), Pair(files[n]));
    } else {
      assert files[1..] == [] && files[..0] == [];
    }
  }

  lemma FileSetLast(files: seq<File>)
    requires files != []
    ensures FileSet(files) == FileSet(files[..|files| - 1]) + Pair(files[|files| - 1])
  {
  }

  lemma Split(ts: seq<Token>, k: nat)
    requires k <= |ts|
    ensures multiset(ts) == multiset(ts[..k]) + multiset(ts[k..])
  {
    assert ts == ts[..k] + ts[k..];
  }

  lemma SplitAt(ts: seq<Token>, k: nat)
    requires k < |ts|
    ensures multiset(ts) == multiset(ts[..k]) + multiset{ts[k]} + multiset(ts[k + 1..])
  {
    Pieces(ts, k);
  }

  lemma Regroup(a: multiset<Token>, b: multiset<Token>, c: multiset<Token>)
    ensures a + (b + c) == a + b + c == b + (a + c) == a + c + b
  {
  }

  lemma PairIs(t: Token, u: Token, f: File)
    requires IsMode(t, f.mode) && u == Word(f.file)
    ensures multiset([t, u]) == Pair(f)
  {
  }

  lemma NoWords()
    ensures WordSet([]) == multiset{} && FileSet([]) == multiset{}
  {
  }

  lemma WordCensus(ts: seq<Token>, args: seq<string>, files: seq<File>)
    requires ts != [] && args != [] && ts[0] == Word(args[0])
    requires multiset(ts[1..]) == WordSet(args[1..]) + FileSet(files)
    ensures multiset(ts) == WordSet(args) + FileSet(files)
  {
    hide WordSet, FileSet;
    WordSetFirst(args);
    Split(ts, 1);
    assert ts[..1] == [ts[0]];
    Regroup(multiset{ts[0]}, WordSet(args[1..]), FileSet(files));
  }

  lemma FileCensus(ts: seq<Token>, args: seq<string>, files: seq<File>)
    requires |ts| >= 2 && files != [] && IsMode(ts[0], files[0].mode) && ts[1] == Word(files[0].file)
    requires multiset(ts[2..]) == WordSet(args) + FileSet(files[1..])
    ensures multiset(ts) == WordSet(args) + FileSet(files)
  {
    hide WordSet, FileSet, Pair;
    FileSetFirst(files);
    Split(ts, 2);
    assert ts[..2] == [ts[0], ts[1]];
    PairIs(ts[0], ts[1], files[0]);
    Regroup(Pair(files[0]), WordSet(args), FileSet(files[1..]));
  }

  lemma {:induction false} SimpleCensus(ts: seq<Token>, args: seq<string>, files: seq<File>)
    requires Simple(ts, args, files)
    ensures multiset(ts) == WordSet(args) + FileSet(files)
    decreases |ts|
  {
    hide Simple, WordSet, FileSet;
    if ts == [] {
      NothingFirst(args, files);
      NoWords();
    } else if ts[0].Word? {
      WordFirst(ts, args, files);
      SimpleCensus(ts[1..], args[1..], files);
      WordCensus(ts, args, files);
    } else {
      RedirFirst(ts, args, files);
      SimpleCensus(ts[2..], args, files[1..]);
      FileCensus(ts, args, files);
    }
  }

  lemma {:induction false} WrapCensus(c: Cmd, files: seq<File>)
    ensures TokensOf(Wrap(c, files)) == TokensOf(c) + FileSet(files)
    decreases |files|
  {
    hide TokensOf, Pair;
    if files == [] {
      assert Wrap(c, files) == c;
    } else {
      var n := |files| - 1;
      WrapCensus(c, files[..n]);
      FileSetLast(files);
      hide FileSet;
      RedirTokens(Wrap(c, files[..n]), files[n]);
      Regroup(TokensOf(c), FileSet(files[..n]), Pair(files[n]));
    }
  }

  lemma NodeTokens(l: Cmd, r: Cmd)
    ensures TokensOf(Pipe(l, r)) == TokensOf(l) + TokensOf(r) + multiset{Sym('|')}
    ensures TokensOf(List(l, r)) == TokensOf(l) + TokensOf(r) + multiset{Sym(';')}
    ensures TokensOf(Back(l)) == TokensOf(l) + multiset{Sym('&')}
  {
  }

  lemma RedirTokens(c: Cmd, f: File)
    ensures TokensOf(Redir(c, f.file, f.mode)) == TokensOf(c) + Pair(f)
  {
  }

  lemma {:induction false} ExecCensus(c: Cmd, ts: seq<Token>) returns (n: nat)
    requires IsExec(c, ts)
    ensures multiset(ts) == TokensOf(c) + Parens(n)
    decreases |ts|, 0
  {
    hide Wrap, Simple, IsLine, TokensOf, Parens;
    if args, files :| Simple(ts, args, files) && |args| < MAXARGS && c == Wrap(Exec(args), files) {
      n := SimpleCounts(ts, args, files);
    } else {
      var k, d, files :| 0 < k < |ts| && ts[0] == Sym('(') && ts[k] == Sym(')') && IsLine(d, ts[1..k])
        && Simple(ts[k + 1..], [], files) && c == Wrap(d, files);
      hide IsExec;
      var m := LineCensus(d, ts[1..k]);
      BlockCounts(d, ts, k, files, m);
      n := m + 1;
    }
  }

  lemma SimpleCounts(ts: seq<Token>, args: seq<string>, files: seq<File>) returns (n: nat)
    requires Simple(ts, args, files)
    ensures multiset(ts) == TokensOf(Wrap(Exec(args), files)) + Parens(n)
  {
    hide Simple, Wrap, WordSet, FileSet;
    SimpleCensus(ts, args, files);
    WrapCensus(Exec(args), files);
    n := 0;
  }

  lemma BlockCounts(d: Cmd, ts: seq<Token>, k: nat, files: seq<File>, m: nat)
    requires 0 < k < |ts| && ts[0] == Sym('(') && ts[k] == Sym(')') && Simple(ts[k + 1..], [], files)
    requires multiset(ts[1..k]) == TokensOf(d) + Parens(m)
    ensures multiset(ts) == TokensOf(Wrap(d, files)) + Parens(m + 1)
  {
    hide Simple, Wrap, WordSet, FileSet, TokensOf, Parens;
    SimpleCensus(ts[k + 1..], [], files);
    NoWords();
    WrapCensus(d, files);
    ParensSum(0, m);
    SplitAt(ts, k);
    Split(ts[..k], 1);
    assert ts[..k][..1] == [Sym('(')] && ts[..k][1..] == ts[1..k];
    Gathered(TokensOf(d), Parens(m), FileSet(files));
  }

  lemma Gathered(a: multiset<Token>, b: multiset<Token>, c: multiset<Token>)
    ensures multiset{Sym('(')} + (a + b) + multiset{Sym(')')} + c == a + c + (b + multiset{Sym('('), Sym(')')})
  {
  }

  lemma Joined(ts: seq<Token>, k: nat, a: multiset<Token>, b: multiset<Token>, x: nat, y: nat)
    requires k < |ts| && multiset(ts[..k]) == a + Parens(x) && multiset(ts[k + 1..]) == b + Parens(y)
    ensures multiset(ts) == a + b + multiset{ts[k]} + Parens(x + y)
  {
    hide Parens;
    SplitAt(ts, k);
    ParensSum(x, y);
  }

  lemma {:induction false} PipeCensus(c: Cmd, ts: seq<Token>) returns (n: nat)
    requires IsPipe(c, ts)
    ensures multiset(ts) == TokensOf(c) + Parens(n)
    decreases |ts|, 1
  {
    hide IsExec, IsPipe, Parens, TokensOf;
    if IsExec(c, ts) {
      n := ExecCensus(c, ts);
    } else {
      var k := PipeCut(c, ts);
      var x := ExecCensus(c.left, ts[..k]);
      var y := PipeCensus(c.right, ts[k + 1..]);
      n := x + y;
      Joined(ts, k, TokensOf(c.left), TokensOf(c.right), x, y);
      NodeTokens(c.left, c.right);
    }
  }

  lemma {:induction false} BackCensus(c: Cmd, ts: seq<Token>) returns (n: nat)
    requires IsBack(c, ts)
    ensures multiset(ts) == TokensOf(c) + Parens(n)
    decreases |ts|, 2
  {
    hide IsPipe, Parens, TokensOf;
    if IsPipe(c, ts) {
      n := PipeCensus(c, ts);
    } else {
      n := BackCensus(c.cmd, ts[..|ts| - 1]);
      NodeTokens(c.cmd, c.cmd);
      assert ts == ts[..|ts| - 1] + [Sym('&')];
    }
  }

  /** Every word, pipe, list, background mark and redirection of an accepted line is in its command and
      every one in the command is in the line; what else the line has are pairs of parentheses. */
  lemma {:induction false} LineCensus(c: Cmd, ts: seq<Token>) returns (n: nat)
    requires IsLine(c, ts)
    ensures multiset(ts) == TokensOf(c) + Parens(n)
    decreases |ts|, 3
  {
    hide IsBack, IsLine, Parens, TokensOf;
    if IsBack(c, ts) {
      n := BackCensus(c, ts);
    } else {
      var k := LineCut(c, ts);
      var x := BackCensus(c.left, ts[..k]);
      var y := LineCensus(c.right, ts[k + 1..]);
      n := x + y;
      Joined(ts, k, TokensOf(c.left), TokensOf(c.right), x, y);
      NodeTokens(c.left, c.right);
    }
  }

  /** So parsing loses no token and makes none up, for every line that it accepts. */
  lemma AllUsed(ts: seq<Token>) returns (n: nat)
    requires ParseCmd(ts).Ok?
    ensures multiset(ts) == TokensOf(ParseCmd(ts).cmd) + Parens(n)
  {
    hide ParseLine, IsLine, TokensOf, Parens;
    Grammar(ts, ParseCmd(ts).cmd);
    n := LineCensus(ParseCmd(ts).cmd, ts);
  }
}
