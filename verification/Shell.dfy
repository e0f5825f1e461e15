/** The command language of the shell: its trees, how they are printed, and a parser on tokens that
    sh.c's parser refines. */
module Shell {

  const MAXARGS: nat := 10

  datatype Token = Word(w: string) | Sym(c: char) | Append

  /** The redirections: input, output with truncation, and output at the end. */
  datatype Mode = In | Out | App

  datatype Cmd =
    | Exec(args: seq<string>)
    | Redir(cmd: Cmd, file: string, mode: Mode)
    | Pipe(left: Cmd, right: Cmd)
    | List(left: Cmd, right: Cmd)
    | Back(cmd: Cmd)

  datatype Parse = Ok(cmd: Cmd, rest: seq<Token>) | Panic(msg: string)

  predicate Starts(ts: seq<Token>, c: char) {
    ts != [] && ts[0] == Sym(c)
  }

  // ----- the parser

  datatype File = File(file: string, mode: Mode)

  /** The command with redirections around it, the first one innermost. */
  function Wrap(c: Cmd, fs: seq<File>): Cmd {
    if fs == [] then c else Redir(Wrap(c, fs[..|fs| - 1]), fs[|fs| - 1].file, fs[|fs| - 1].mode)
  }

  predicate IsRedir(t: Token) {
    t == Sym('<') || t == Sym('>') || t == Append
  }

  function ModeOf(t: Token): Mode {
    if t == Sym('<') then In else if t == Sym('>') then Out else App
  }

  datatype Files = Files(fs: seq<File>, rest: seq<Token>) | NoFile

  /** parseredirs: the redirections at the front, after those in fs. */
  function Redirs(ts: seq<Token>, fs: seq<File>): (r: Files)
    ensures r.Files? ==> |r.rest| <= |ts|
    decreases |ts|
  {
    if ts == [] || !IsRedir(ts[0]) then Files(fs, ts)
    else if |ts| < 2 || !ts[1].Word? then NoFile
    else Redirs(ts[2..], fs + [File(ts[1].w, ModeOf(ts[0]))])
  }

  /** A token at which the argument loop of parseexec stops. */
  predicate Ends(ts: seq<Token>) {
    ts == [] || Starts(ts, '|') || Starts(ts, ')') || Starts(ts, '&') || Starts(ts, ';')
  }

  function ParseArgs(ts: seq<Token>, args: seq<string>, fs: seq<File>): (r: Parse)
    ensures r.Ok? ==> |r.rest| <= |ts|
    decreases |ts|
  {
    if Ends(ts) then Ok(Wrap(Exec(args), fs), ts)
    else if !ts[0].Word? then Panic("syntax")
    else if |args| + 1 >= MAXARGS then Panic("too many args")
    else
      match Redirs(ts[1..], fs)
      case NoFile => Panic("missing file for redirection")
      case Files(fs', rest) => ParseArgs(rest, args + [ts[0].w], fs')
  }

  function ParseExec(ts: seq<Token>): (r: Parse)
    ensures r.Ok? ==> |r.rest| <= |ts|
    decreases |ts|, 0
  {
    if Starts(ts, '(') then
      match ParseLine(ts[1..])
      case Panic(m) => Panic(m)
      case Ok(c, rest) =>
        if !Starts(rest, ')') then Panic("syntax - missing )")
        else
          match Redirs(rest[1..], [])
          case NoFile => Panic("missing file for redirection")
          case Files(fs, rest') => Ok(Wrap(c, fs), rest')
    else
      match Redirs(ts, [])
      case NoFile => Panic("missing file for redirection")
      case Files(fs, rest) => ParseArgs(rest, [], fs)
  }

  function ParsePipe(ts: seq<Token>): (r: Parse)
    ensures r.Ok? ==> |r.rest| <= |ts|
    decreases |ts|, 1
  {
    match ParseExec(ts)
    case Panic(m) => Panic(m)
    case Ok(c, rest) =>
      if !Starts(rest, '|') then Ok(c, rest)
      else
        match ParsePipe(rest[1..])
        case Panic(m) => Panic(m)
        case Ok(d, rest') => Ok(Pipe(c, d), rest')
  }

  /** The loop over & in parseline. */
  function Backs(c: Cmd, ts: seq<Token>): (r: (Cmd, seq<Token>))
    ensures |r.1| <= |ts|
    decreases |ts|
  {
    if Starts(ts, '&') then Backs(Back(c), ts[1..]) else (c, ts)
  }

  function ParseLine(ts: seq<Token>): (r: Parse)
    ensures r.Ok? ==> |r.rest| <= |ts|
    decreases |ts|, 2
  {
    match ParsePipe(ts)
    case Panic(m) => Panic(m)
    case Ok(c, rest) =>
      var (d, rest') := Backs(c, rest);
      if !Starts(rest', ';') then Ok(d, rest')
      else
        match ParseLine(rest'[1..])
        case Panic(m) => Panic(m)
        case Ok(e, rest'') => Ok(List(d, e), rest'')
  }

  /** parsecmd: the whole line must be used up. */
  function ParseCmd(ts: seq<Token>): Parse {
    match ParseLine(ts)
    case Panic(m) => Panic(m)
    case Ok(c, rest) => if rest == [] then Ok(c, []) else Panic("syntax")
  }

  // ----- the printer

  datatype Level = LineL | BackL | PipeL | ExecL

  /** The order in which the levels of a command refer to each other. */
  function Rank(c: Cmd, l: Level): nat {
    match c
    case List(_, _) => (match l case LineL => 0 case ExecL => 1 case PipeL => 2 case BackL => 3)
    case Back(_) => (match l case BackL => 0 case LineL => 1 case ExecL => 2 case PipeL => 3)
    case Pipe(_, _) => (match l case PipeL => 0 case BackL => 1 case LineL => 2 case ExecL => 3)
    case _ => (match l case ExecL => 0 case PipeL => 1 case BackL => 2 case LineL => 3)
  }

  function WordToks(args: seq<string>): seq<Token> {
    if args == [] then [] else [Word(args[0])] + WordToks(args[1..])
  }

  function RedirTok(m: Mode): Token {
    match m case In => Sym('<') case Out => Sym('>') case App => Append
  }

  /** The tokens of a command where the grammar wants level l; parentheses where it needs them. */
  function Toks(c: Cmd, l: Level): seq<Token>
    decreases c, Rank(c, l)
  {
    match l
    case LineL => if c.List? then Toks(c.left, BackL) + [Sym(';')] + Toks(c.right, LineL) else Toks(c, BackL)
    case BackL => if c.Back? then Toks(c.cmd, BackL) + [Sym('&')] else Toks(c, PipeL)
    case PipeL => if c.Pipe? then Toks(c.left, ExecL) + [Sym('|')] + Toks(c.right, PipeL) else Toks(c, ExecL)
    case ExecL =>
      match c
      case Exec(args) => WordToks(args)
      case Redir(d, file, mode) => Toks(d, ExecL) + [RedirTok(mode), Word(file)]
      case _ => [Sym('(')] + Toks(c, LineL) + [Sym(')')]
  }

  /** Every exec has room for its arguments. */
  predicate Fits(c: Cmd) {
    match c
    case Exec(args) => |args| < MAXARGS
    case Redir(d, _, _) => Fits(d)
    case Pipe(d, e) => Fits(d) && Fits(e)
    case List(d, e) => Fits(d) && Fits(e)
    case Back(d) => Fits(d)
  }

  // ----- redirections and arguments

  function FileToks(fs: seq<File>): seq<Token> {
    if fs == [] then [] else [RedirTok(fs[0].mode), Word(fs[0].file)] + FileToks(fs[1..])
  }

  lemma {:induction false} FileToksLast(fs: seq<File>, f: File)
    ensures FileToks(fs + [f]) == FileToks(fs) + [RedirTok(f.mode), Word(f.file)]
  {
    if fs == [] {
      assert FileToks([f]) == [RedirTok(f.mode), Word(f.file)] + FileToks([f][1..]);
    } else {
      assert (fs + [f])[1..] == fs[1..] + [f];
      FileToksLast(fs[1..], f);
      var head := [RedirTok(fs[0].mode), Word(fs[0].file)];
      assert head + (FileToks(fs[1..]) + [RedirTok(f.mode), Word(f.file)])
          == (head + FileToks(fs[1..])) + [RedirTok(f.mode), Word(f.file)];
    }
  }

  lemma OneRedir(ts: seq<Token>, done: seq<File>)
    requires |ts| >= 2 && IsRedir(ts[0]) && ts[1].Word?
    ensures Redirs(ts, done) == Redirs(ts[2..], done + [File(ts[1].w, ModeOf(ts[0]))])
  {
  }

  lemma {:induction false} RedirsTrip(done: seq<File>, fs: seq<File>, rest: seq<Token>)
    requires rest == [] || !IsRedir(rest[0])
    ensures Redirs(FileToks(fs) + rest, done) == Files(done + fs, rest)
    decreases |fs|
  {
    if fs == [] {
      assert FileToks(fs) + rest == rest && done + fs == done;
    } else {
      hide Redirs;
      var ts := FileToks(fs) + rest;
      assert ts[0] == RedirTok(fs[0].mode) && ts[1] == Word(fs[0].file) && ts[2..] == FileToks(fs[1..]) + rest;
      assert (done + [fs[0]]) + fs[1..] == done + fs;
      OneRedir(ts, done);
      RedirsTrip(done + [fs[0]], fs[1..], rest);
    }
  }

  lemma ArgStep(w: string, more: seq<Token>, done: seq<string>, fs: seq<File>)
    requires Redirs(more, fs).Files? && |done| + 1 < MAXARGS
    ensures ParseArgs([Word(w)] + more, done, fs) == ParseArgs(Redirs(more, fs).rest, done + [w], Redirs(more, fs).fs)
  {
    var ts := [Word(w)] + more;
    assert ts[1..] == more && ts[0] == Word(w);
  }

  lemma {:induction false} ArgsTrip(done: seq<string>, args: seq<string>, fs: seq<File>, rest: seq<Token>)
    requires Ends(rest) && |done| + |args| < MAXARGS && args != []
    ensures ParseArgs(WordToks(args) + FileToks(fs) + rest, done, []) == Ok(Wrap(Exec(done + args), fs), rest)
    decreases |args|
  {
    hide ParseArgs, Redirs, FileToks, Wrap;
    var more := WordToks(args[1..]) + FileToks(fs) + rest;
    assert WordToks(args) + FileToks(fs) + rest == [Word(args[0])] + more;
    if |args| == 1 {
      assert more == FileToks(fs) + rest;
      RedirsTrip([], fs, rest);
      ArgStep(args[0], more, done, []);
      assert [] + fs == fs && done + args == done + [args[0]];
      ArgsEnd(rest, done + args, fs);
    } else {
      assert more[0] == Word(args[1]);
      NoRedirs(more, []);
      ArgStep(args[0], more, done, []);
      ArgsTrip(done + [args[0]], args[1..], fs, rest);
      assert (done + [args[0]]) + args[1..] == done + args;
    }
  }

  lemma ArgsEnd(rest: seq<Token>, args: seq<string>, fs: seq<File>)
    requires Ends(rest)
    ensures ParseArgs(rest, args, fs) == Ok(Wrap(Exec(args), fs), rest)
  {
  }

  lemma NoRedirs(ts: seq<Token>, fs: seq<File>)
    requires ts != [] && !IsRedir(ts[0])
    ensures Redirs(ts, fs) == Files(fs, ts)
  {
  }

  /** A command without its outer redirections, and those. */
  function Base(c: Cmd): Cmd {
    if c.Redir? then Base(c.cmd) else c
  }

  function FilesOf(c: Cmd): seq<File> {
    if c.Redir? then FilesOf(c.cmd) + [File(c.file, c.mode)] else []
  }

  lemma Assoc(a: seq<Token>, b: seq<Token>, c: seq<Token>)
    ensures (a + b) + c == a + (b + c)
  {
  }

  lemma NoFiles()
    ensures FileToks([]) == []
  {
  }

  lemma {:induction false} Unwrap(c: Cmd)
    ensures Wrap(Base(c), FilesOf(c)) == c && Toks(c, ExecL) == Toks(Base(c), ExecL) + FileToks(FilesOf(c))
    ensures !Base(c).Redir? && (Fits(c) ==> Fits(Base(c)))
  {
    hide FileToks;
    if c.Redir? {
      Unwrap(c.cmd);
      var fs, f := FilesOf(c.cmd), File(c.file, c.mode);
      assert (fs + [f])[..|fs|] == fs;
      FileToksLast(fs, f);
      Assoc(Toks(Base(c), ExecL), FileToks(fs), [RedirTok(f.mode), Word(f.file)]);
    } else {
      NoFiles();
    }
  }

  lemma SimpleExec(ts: seq<Token>)
    requires !Starts(ts, '(') && Redirs(ts, []).Files?
    ensures ParseExec(ts) == ParseArgs(Redirs(ts, []).rest, [], Redirs(ts, []).fs)
  {
    hide Redirs, ParseArgs, ParseLine;
  }

  /** A simple command with its redirections. */
  lemma ExecBaseTrip(args: seq<string>, fs: seq<File>, rest: seq<Token>)
    requires Ends(rest) && |args| < MAXARGS
    ensures ParseExec(WordToks(args) + FileToks(fs) + rest) == Ok(Wrap(Exec(args), fs), rest)
  {
    hide ParseExec, ParseArgs, Redirs, Wrap;
    var ts := WordToks(args) + FileToks(fs) + rest;
    if args == [] {
      assert ts == FileToks(fs) + rest;
      RedirsTrip([], fs, rest);
      assert [] + fs == fs;
      NotBlock(fs, rest);
      SimpleExec(ts);
      ArgsEnd(rest, [], fs);
    } else {
      assert ts[0] == Word(args[0]);
      NoRedirs(ts, []);
      SimpleExec(ts);
      ArgsTrip([], args, fs, rest);
      assert [] + args == args;
    }
  }

  lemma NotBlock(fs: seq<File>, rest: seq<Token>)
    requires Ends(rest)
    ensures !Starts(FileToks(fs) + rest, '(')
  {
    if fs == [] {
      assert FileToks(fs) + rest == rest;
    } else {
      assert (FileToks(fs) + rest)[0] == RedirTok(fs[0].mode);
    }
  }

  // ----- the round trip on tokens

  /** parseline up to the semicolon. */
  function ParseBack(ts: seq<Token>): Parse {
    match ParsePipe(ts)
    case Panic(m) => Panic(m)
    case Ok(c, rest) => var (d, rest') := Backs(c, rest); Ok(d, rest')
  }

  /** A parenthesised command with its redirections. */
  lemma BlockTrip(c: Cmd, inner: seq<Token>, fs: seq<File>, rest: seq<Token>)
    requires Ends(rest)
    requires ParseLine(inner + ([Sym(')')] + FileToks(fs) + rest)) == Ok(c, [Sym(')')] + FileToks(fs) + rest)
    ensures ParseExec(([Sym('(')] + inner + [Sym(')')]) + FileToks(fs) + rest) == Ok(Wrap(c, fs), rest)
  {
    hide ParseLine, Redirs, Wrap, FileToks;
    var ts, tail := ([Sym('(')] + inner + [Sym(')')]) + FileToks(fs) + rest, [Sym(')')] + FileToks(fs) + rest;
    assert ts[1..] == inner + tail && ts[0] == Sym('(');
    assert tail[1..] == FileToks(fs) + rest && tail[0] == Sym(')');
    RedirsTrip([], fs, rest);
    assert [] + fs == fs;
  }

  lemma PipeStep(l: Cmd, r: Cmd, a: seq<Token>, b: seq<Token>, rest: seq<Token>)
    requires ParseExec(a + ([Sym('|')] + b + rest)) == Ok(l, [Sym('|')] + b + rest)
    requires ParsePipe(b + rest) == Ok(r, rest)
    ensures ParsePipe((a + [Sym('|')] + b) + rest) == Ok(Pipe(l, r), rest)
  {
    hide ParseExec;
    var mid := [Sym('|')] + b + rest;
    assert (a + [Sym('|')] + b) + rest == a + mid;
    assert mid[1..] == b + rest && mid[0] == Sym('|');
  }

  lemma PipeLast(c: Cmd, ts: seq<Token>, rest: seq<Token>)
    requires ParseExec(ts) == Ok(c, rest) && !Starts(rest, '|')
    ensures ParsePipe(ts) == Ok(c, rest)
  {
    hide ParseExec;
  }

  lemma BackStep(c: Cmd, a: seq<Token>, rest: seq<Token>)
    requires ParseBack(a + ([Sym('&')] + rest)) == ParseBackMore(c, [Sym('&')] + rest)
    ensures ParseBack((a + [Sym('&')]) + rest) == ParseBackMore(Back(c), rest)
  {
    hide ParsePipe, ParseBack;
    assert (a + [Sym('&')]) + rest == a + ([Sym('&')] + rest);
    assert ([Sym('&')] + rest)[1..] == rest;
  }

  /** What the loop over & makes of c. */
  function ParseBackMore(c: Cmd, rest: seq<Token>): Parse {
    var (d, rest') := Backs(c, rest); Ok(d, rest')
  }

  lemma BackFirst(c: Cmd, ts: seq<Token>, rest: seq<Token>)
    requires ParsePipe(ts) == Ok(c, rest)
    ensures ParseBack(ts) == ParseBackMore(c, rest)
  {
    hide ParsePipe;
  }

  lemma LineLast(c: Cmd, ts: seq<Token>, rest: seq<Token>)
    requires ParseBack(ts) == Ok(c, rest) && !Starts(rest, ';')
    ensures ParseLine(ts) == Ok(c, rest)
  {
    hide ParsePipe, Backs;
  }

  lemma LineStep(l: Cmd, r: Cmd, a: seq<Token>, b: seq<Token>, rest: seq<Token>)
    requires ParseBack(a + ([Sym(';')] + b + rest)) == Ok(l, [Sym(';')] + b + rest)
    requires ParseLine(b + rest) == Ok(r, rest)
    ensures ParseLine((a + [Sym(';')] + b) + rest) == Ok(List(l, r), rest)
  {
    hide ParsePipe, Backs;
    var mid := [Sym(';')] + b + rest;
    assert (a + [Sym(';')] + b) + rest == a + mid;
    assert mid[1..] == b + rest && mid[0] == Sym(';');
  }

  /** What may follow a pipeline, or one followed by &. */
  predicate AfterPipe(rest: seq<Token>) {
    rest == [] || Starts(rest, ')') || Starts(rest, ';') || Starts(rest, '&')
  }

  lemma {:induction false} LineTrip(c: Cmd, rest: seq<Token>)
    requires Fits(c) && (rest == [] || Starts(rest, ')'))
    ensures ParseLine(Toks(c, LineL) + rest) == Ok(c, rest)
    decreases c, Rank(c, LineL)
  {
    hide ParseLine, ParsePipe, ParseExec, ParseBack;
    if c.List? {
      var a, b := Toks(c.left, BackL), Toks(c.right, LineL);
      BackTrip(c.left, [Sym(';')] + b + rest);
      LineTrip(c.right, rest);
      LineStep(c.left, c.right, a, b, rest);
    } else {
      BackTrip(c, rest);
      LineLast(c, Toks(c, BackL) + rest, rest);
    }
  }

  lemma {:induction false} BackTrip(c: Cmd, rest: seq<Token>)
    requires Fits(c) && AfterPipe(rest)
    ensures ParseBack(Toks(c, BackL) + rest) == ParseBackMore(c, rest)
    decreases c, Rank(c, BackL)
  {
    hide ParseLine, ParsePipe, ParseExec, ParseBack, ParseBackMore;
    if c.Back? {
      BackTrip(c.cmd, [Sym('&')] + rest);
      BackStep(c.cmd, Toks(c.cmd, BackL), rest);
    } else {
      PipeTrip(c, rest);
      BackFirst(c, Toks(c, PipeL) + rest, rest);
    }
  }

  lemma {:induction false} PipeTrip(c: Cmd, rest: seq<Token>)
    requires Fits(c) && AfterPipe(rest)
    ensures ParsePipe(Toks(c, PipeL) + rest) == Ok(c, rest)
    decreases c, Rank(c, PipeL)
  {
    hide ParseLine, ParsePipe, ParseExec;
    if c.Pipe? {
      var a, b := Toks(c.left, ExecL), Toks(c.right, PipeL);
      ExecTrip(c.left, [Sym('|')] + b + rest);
      PipeTrip(c.right, rest);
      PipeStep(c.left, c.right, a, b, rest);
    } else {
      ExecTrip(c, rest);
      PipeLast(c, Toks(c, ExecL) + rest, rest);
    }
  }

  lemma {:induction false} ExecTrip(c: Cmd, rest: seq<Token>)
    requires Fits(c) && Ends(rest)
    ensures ParseExec(Toks(c, ExecL) + rest) == Ok(c, rest)
    decreases c, Rank(c, ExecL)
  {
    hide ParseLine, ParsePipe, ParseExec, FileToks, Wrap;
    Unwrap(c);
    var d, fs := Base(c), FilesOf(c);
    if d.Exec? {
      ExecBaseTrip(d.args, fs, rest);
    } else {
      BaseSmaller(c);
      LineTrip(d, [Sym(')')] + FileToks(fs) + rest);
      BlockTrip(d, Toks(d, LineL), fs, rest);
    }
  }

  lemma BaseSmaller(c: Cmd)
    ensures Base(c) == c || (Base(c) < c)
  {
  }

  /** Printing a command and parsing the tokens gives the command back. */
  lemma RoundTrip(c: Cmd)
    requires Fits(c)
    ensures ParseCmd(Toks(c, LineL)) == Ok(c, [])
  {
    hide ParseLine;
    LineTrip(c, []);
    assert Toks(c, LineL) + [] == Toks(c, LineL);
  }

  // ----- what the parser returns

  lemma {:induction false} WrapFits(c: Cmd, fs: seq<File>)
    requires Fits(c)
    ensures Fits(Wrap(c, fs))
  {
    if fs != [] { WrapFits(c, fs[..|fs| - 1]); }
  }

  lemma {:induction false} ArgsFit(ts: seq<Token>, args: seq<string>, fs: seq<File>)
    requires |args| < MAXARGS
    ensures ParseArgs(ts, args, fs).Ok? ==> Fits(ParseArgs(ts, args, fs).cmd)
    decreases |ts|
  {
    hide Redirs, Wrap;
    if Ends(ts) { WrapFits(Exec(args), fs); }
    else if ts[0].Word? && |args| + 1 < MAXARGS && Redirs(ts[1..], fs).Files? {
      ArgsFit(Redirs(ts[1..], fs).rest, args + [ts[0].w], Redirs(ts[1..], fs).fs);
    }
  }

  lemma {:induction false} BacksFit(c: Cmd, ts: seq<Token>)
    requires Fits(c)
    ensures Fits(Backs(c, ts).0)
    decreases |ts|
  {
    if Starts(ts, '&') { BacksFit(Back(c), ts[1..]); }
  }

  lemma {:induction false} ExecFits(ts: seq<Token>)
    ensures ParseExec(ts).Ok? ==> Fits(ParseExec(ts).cmd)
    decreases |ts|, 0
  {
    hide Redirs, Wrap, ParseLine, ParseArgs;
    if Starts(ts, '(') {
      LineFits(ts[1..]);
      if ParseExec(ts).Ok? { WrapFits(ParseLine(ts[1..]).cmd, Redirs(ParseLine(ts[1..]).rest[1..], []).fs); }
    } else if Redirs(ts, []).Files? {
      ArgsFit(Redirs(ts, []).rest, [], Redirs(ts, []).fs);
    }
  }

  lemma {:induction false} PipeFits(ts: seq<Token>)
    ensures ParsePipe(ts).Ok? ==> Fits(ParsePipe(ts).cmd)
    decreases |ts|, 1
  {
    hide ParseExec;
    ExecFits(ts);
    if ParseExec(ts).Ok? && Starts(ParseExec(ts).rest, '|') { PipeFits(ParseExec(ts).rest[1..]); }
  }

  lemma {:induction false} LineFits(ts: seq<Token>)
    ensures ParseLine(ts).Ok? ==> Fits(ParseLine(ts).cmd)
    decreases |ts|, 2
  {
    hide ParsePipe, Backs;
    PipeFits(ts);
    if ParsePipe(ts).Ok? {
      BacksFit(ParsePipe(ts).cmd, ParsePipe(ts).rest);
      var rest := Backs(ParsePipe(ts).cmd, ParsePipe(ts).rest).1;
      if Starts(rest, ';') { LineFits(rest[1..]); }
    }
  }

  /** Whatever parses, parses to a command that printing and parsing reproduces. */
  lemma ParsedTrip(ts: seq<Token>)
    ensures ParseCmd(ts).Ok? ==> ParseCmd(Toks(ParseCmd(ts).cmd, LineL)) == ParseCmd(ts)
  {
    hide ParseLine, Toks;
    LineFits(ts);
    if ParseCmd(ts).Ok? { RoundTrip(ParseCmd(ts).cmd); }
  }
}
