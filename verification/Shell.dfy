/**
  user/sh.c: the shell's tokenizer and recursive-descent parser. The input holds no NUL; a position is
  an index into it, and a command refers to its words by position, as the shell's pointers do.
 */
module Shell {

  const MAXARGS: nat := 10

  predicate IsSpace(c: char) {
    c == ' ' || c == '\t' || c == '\r' || c == '\n' || c == '\U{0B}'
  }

  predicate IsSymbol(c: char) {
    c == '<' || c == '|' || c == '>' || c == '&' || c == ';' || c == '(' || c == ')'
  }

  predicate IsWordChar(c: char) {
    !IsSpace(c) && !IsSymbol(c)
  }

  datatype Span = Span(q: nat, eq: nat)
  datatype RedirOp = In | Out | Append
  datatype Cmd =
    | Exec(argv: seq<Span>)
    | Redir(cmd: Cmd, file: Span, op: RedirOp)
    | Pipe(left: Cmd, right: Cmd)
    | List(left: Cmd, right: Cmd)
    | Back(cmd: Cmd)

  /** Result of a parse function: a command and the position after it, or a panic. */
  datatype Parsed = Ok(cmd: Cmd, p: nat) | Syntax

  // ---------------------------------------------------------------- tokens

  /** The first position from p on that is not blank. */
  function Skip(s: string, p: nat): (r: nat)
    requires p <= |s|
    ensures p <= r <= |s| && (r < |s| ==> !IsSpace(s[r]))
    decreases |s| - p
  {
    if p < |s| && IsSpace(s[p]) then Skip(s, p + 1) else p
  }

  /** The first position from p on that does not belong to a word. */
  function WordEnd(s: string, p: nat): (r: nat)
    requires p <= |s|
    ensures p <= r <= |s| && (r < |s| ==> !IsWordChar(s[r])) && forall k :: p <= k < r ==> IsWordChar(s[k])
    decreases |s| - p
  {
    if p < |s| && IsWordChar(s[p]) then WordEnd(s, p + 1) else p
  }

  datatype Kind = End | Symbol(c: char) | Twice | Word
  datatype Token = Token(kind: Kind, q: nat, eq: nat, next: nat)

  /** gettoken: skip blanks, then take a symbol or a word, then skip blanks again. */
  function GetToken(s: string, p: nat): (t: Token)
    requires p <= |s|
    ensures p <= t.q <= t.eq <= t.next <= |s| && (t.kind.End? <==> Skip(s, p) == |s|)
    ensures !t.kind.End? ==> t.q < t.eq
    decreases |s| - p
  {
    if p < |s| && IsSpace(s[p]) then GetToken(s, p + 1) else TokenAt(s, p)
  }

  function TokenAt(s: string, q: nat): Token
    requires q <= |s| && (q < |s| ==> !IsSpace(s[q]))
  {
    if q == |s| then Token(End, q, q, q)
    else if s[q] == '>' && q + 1 < |s| && s[q + 1] == '>' then Token(Twice, q, q + 2, Skip(s, q + 2))
    else if IsSymbol(s[q]) then Token(Symbol(s[q]), q, q + 1, Skip(s, q + 1))
    else Token(Word, q, WordEnd(s, q), Skip(s, WordEnd(s, q)))
  }

  lemma {:induction false} TokenWord(s: string, p: nat)
    requires p <= |s| && GetToken(s, p).kind.Word?
    ensures IsWord(s, Span(GetToken(s, p).q, GetToken(s, p).eq))
    decreases |s| - p
  {
    if p < |s| && IsSpace(s[p]) { TokenWord(s, p + 1); }
  }

  /** A span that is a whole word of s. */
  predicate IsWord(s: string, w: Span) {
    w.q < w.eq <= |s| && (forall k :: w.q <= k < w.eq ==> IsWordChar(s[k])) && (w.eq < |s| ==> !IsWordChar(s[w.eq]))
  }

  /** peek: the next character that is not blank is one of toks. */
  predicate Peek(s: string, p: nat, toks: set<char>)
    requires p <= |s|
  {
    Skip(s, p) < |s| && s[Skip(s, p)] in toks
  }

  // ---------------------------------------------------------------- parsing

  datatype Redirs = Redirs(files: seq<(Span, RedirOp)>, p: nat) | NoFile
  datatype Args = Args(argv: seq<Span>, files: seq<(Span, RedirOp)>, p: nat) | BadArgs

  /** What the token after a command redirects. */
  function OpOf(tok: Token): RedirOp {
    if tok.kind == Symbol('<') then In else if tok.kind == Twice then Append else Out
  }

  /** parseredirs as the list of redirections it wraps around its command. */
  function ParseRedirs(s: string, p: nat): (r: Redirs)
    requires p <= |s|
    ensures r.Redirs? ==> p <= r.p <= |s|
    decreases |s| - p
  {
    if !Peek(s, p, {'<', '>'}) then Redirs([], Skip(s, p))
    else
      var tok := GetToken(s, p);
      var file := GetToken(s, tok.next);
      if !file.kind.Word? then NoFile
      else
        var rest := ParseRedirs(s, file.next);
        if rest.NoFile? then NoFile
        else Redirs([(Span(file.q, file.eq), OpOf(tok))] + rest.files, rest.p)
  }

  function Wrap(cmd: Cmd, files: seq<(Span, RedirOp)>): Cmd
    decreases |files|
  {
    if files == [] then cmd else Wrap(Redir(cmd, files[0].0, files[0].1), files[1..])
  }

  /** The loop of parseexec, after `argv` and `files`. */
  function ParseArgs(s: string, p: nat, argv: seq<Span>, files: seq<(Span, RedirOp)>): (r: Args)
    requires p <= |s|
    ensures r.Args? ==> p <= r.p <= |s|
    decreases |s| - p
  {
    if Peek(s, p, {'|', ')', '&', ';'}) then Args(argv, files, Skip(s, p))
    else
      var tok := GetToken(s, p);
      if tok.kind.End? then Args(argv, files, tok.next)
      else if !tok.kind.Word? || |argv| + 1 >= MAXARGS then BadArgs
      else
        var more := ParseRedirs(s, tok.next);
        if more.NoFile? then BadArgs else ParseArgs(s, more.p, argv + [Span(tok.q, tok.eq)], files + more.files)
  }

  function ParseExec(s: string, p: nat): (r: Parsed)
    requires p <= |s|
    ensures r.Ok? ==> p <= r.p <= |s|
    decreases |s| - p, 1
  {
    if Peek(s, p, {'('}) then ParseBlock(s, p)
    else
      var first := ParseRedirs(s, p);
      if first.NoFile? then Syntax
      else
        var a := ParseArgs(s, first.p, [], first.files);
        if a.BadArgs? then Syntax else Ok(Wrap(Exec(a.argv), a.files), a.p)
  }

  function ParseBlock(s: string, p: nat): (r: Parsed)
    requires p <= |s| && Peek(s, p, {'('})
    ensures r.Ok? ==> p <= r.p <= |s|
    decreases |s| - p, 0
  {
    var body := ParseLine(s, GetToken(s, p).next);
    if body.Syntax? || !Peek(s, body.p, {')'}) then Syntax
    else
      var files := ParseRedirs(s, GetToken(s, body.p).next);
      if files.NoFile? then Syntax else Ok(Wrap(body.cmd, files.files), files.p)
  }

  function ParsePipe(s: string, p: nat): (r: Parsed)
    requires p <= |s|
    ensures r.Ok? ==> p <= r.p <= |s|
    decreases |s| - p, 2
  {
    var left := ParseExec(s, p);
    if left.Syntax? then Syntax
    else if Peek(s, left.p, {'|'}) then
      var right := ParsePipe(s, GetToken(s, left.p).next);
      if right.Syntax? then Syntax else Ok(Pipe(left.cmd, right.cmd), right.p)
    else Ok(left.cmd, Skip(s, left.p))
  }

  /** The loop of parseline over '&'. */
  function ParseBack(s: string, p: nat, cmd: Cmd): (r: (Cmd, nat))
    requires p <= |s|
    ensures p <= r.1 <= |s|
    decreases |s| - p
  {
    if Peek(s, p, {'&'}) then ParseBack(s, GetToken(s, p).next, Back(cmd)) else (cmd, Skip(s, p))
  }

  function ParseLine(s: string, p: nat): (r: Parsed)
    requires p <= |s|
    ensures r.Ok? ==> p <= r.p <= |s|
    decreases |s| - p, 3
  {
    var first := ParsePipe(s, p);
    if first.Syntax? then Syntax
    else
      var back := ParseBack(s, first.p, first.cmd);
      if Peek(s, back.1, {';'}) then
        var rest := ParseLine(s, GetToken(s, back.1).next);
        if rest.Syntax? then Syntax else Ok(List(back.0, rest.cmd), rest.p)
      else Ok(back.0, Skip(s, back.1))
  }

  /** parsecmd before nulterminate: the whole input is one line. */
  function ParseCmd(s: string): Parsed {
    var r := ParseLine(s, 0);
    if r.Ok? && Skip(s, r.p) == |s| then Ok(r.cmd, |s|) else Syntax
  }

  // ---------------------------------------------------------------- every span is a word

  predicate ArgvOk(s: string, argv: seq<Span>) {
    forall i :: 0 <= i < |argv| ==> IsWord(s, argv[i])
  }

  predicate FilesOk(s: string, files: seq<(Span, RedirOp)>) {
    forall i :: 0 <= i < |files| ==> IsWord(s, files[i].0)
  }

  /** All words that a command refers to are whole words of the input. */
  predicate AllWords(s: string, cmd: Cmd) {
    match cmd
    case Exec(argv) => ArgvOk(s, argv)
    case Redir(c, file, _) => AllWords(s, c) && IsWord(s, file)
    case Pipe(l, r) => AllWords(s, l) && AllWords(s, r)
    case List(l, r) => AllWords(s, l) && AllWords(s, r)
    case Back(c) => AllWords(s, c)
  }

  lemma {:induction false} RedirsWords(s: string, p: nat)
    requires p <= |s|
    ensures ParseRedirs(s, p).Redirs? ==> FilesOk(s, ParseRedirs(s, p).files)
    decreases |s| - p
  {
    if Peek(s, p, {'<', '>'}) {
      var file := GetToken(s, GetToken(s, p).next);
      if file.kind.Word? {
        TokenWord(s, GetToken(s, p).next);
        RedirsWords(s, file.next);
      }
    }
  }

  lemma {:induction false} WrapWords(s: string, cmd: Cmd, files: seq<(Span, RedirOp)>)
    requires AllWords(s, cmd) && FilesOk(s, files)
    ensures AllWords(s, Wrap(cmd, files))
    decreases |files|
  {
    if files != [] { WrapWords(s, Redir(cmd, files[0].0, files[0].1), files[1..]); }
  }

  lemma {:induction false} ArgsWords(s: string, p: nat, argv: seq<Span>, files: seq<(Span, RedirOp)>)
    requires p <= |s| && ArgvOk(s, argv) && FilesOk(s, files)
    ensures var r := ParseArgs(s, p, argv, files); r.Args? ==> ArgvOk(s, r.argv) && FilesOk(s, r.files)
    decreases |s| - p
  {
    if !Peek(s, p, {'|', ')', '&', ';'}) {
      var tok := GetToken(s, p);
      if tok.kind.Word? && |argv| + 1 < MAXARGS {
        TokenWord(s, p);
        RedirsWords(s, tok.next);
        var more := ParseRedirs(s, tok.next);
        if more.Redirs? { ArgsWords(s, more.p, argv + [Span(tok.q, tok.eq)], files + more.files); }
      }
    }
  }

  lemma {:induction false} ExecWords(s: string, p: nat)
    requires p <= |s|
    ensures ParseExec(s, p).Ok? ==> AllWords(s, ParseExec(s, p).cmd)
    decreases |s| - p, 1
  {
    if Peek(s, p, {'('}) {
      BlockWords(s, p);
    } else {
      RedirsWords(s, p);
      var first := ParseRedirs(s, p);
      if first.Redirs? {
        ArgsWords(s, first.p, [], first.files);
        var a := ParseArgs(s, first.p, [], first.files);
        if a.Args? { WrapWords(s, Exec(a.argv), a.files); }
      }
    }
  }

  lemma {:induction false} BlockWords(s: string, p: nat)
    requires p <= |s| && Peek(s, p, {'('})
    ensures ParseBlock(s, p).Ok? ==> AllWords(s, ParseBlock(s, p).cmd)
    decreases |s| - p, 0
  {
    LineWords(s, GetToken(s, p).next);
    var body := ParseLine(s, GetToken(s, p).next);
    if body.Ok? && Peek(s, body.p, {')'}) {
      var at := GetToken(s, body.p).next;
      RedirsWords(s, at);
      if ParseRedirs(s, at).Redirs? { WrapWords(s, body.cmd, ParseRedirs(s, at).files); }
    }
  }

  lemma {:induction false} PipeWords(s: string, p: nat)
    requires p <= |s|
    ensures ParsePipe(s, p).Ok? ==> AllWords(s, ParsePipe(s, p).cmd)
    decreases |s| - p, 2
  {
    ExecWords(s, p);
    var left := ParseExec(s, p);
    if left.Ok? && Peek(s, left.p, {'|'}) { PipeWords(s, GetToken(s, left.p).next); }
  }

  lemma {:induction false} BackWords(s: string, p: nat, cmd: Cmd)
    requires p <= |s| && AllWords(s, cmd)
    ensures AllWords(s, ParseBack(s, p, cmd).0)
    decreases |s| - p
  {
    if Peek(s, p, {'&'}) { BackWords(s, GetToken(s, p).next, Back(cmd)); }
  }

  /** A command that the parser returns refers to whole words only. */
  lemma {:induction false} LineWords(s: string, p: nat)
    requires p <= |s|
    ensures ParseLine(s, p).Ok? ==> AllWords(s, ParseLine(s, p).cmd)
    decreases |s| - p, 3
  {
    PipeWords(s, p);
    var first := ParsePipe(s, p);
    if first.Ok? {
      BackWords(s, first.p, first.cmd);
      var back := ParseBack(s, first.p, first.cmd);
      if Peek(s, back.1, {';'}) { LineWords(s, GetToken(s, back.1).next); }
    }
  }

  // ---------------------------------------------------------------- nulterminate

  /** The buffer after nulterminate: a NUL after each word of the command. */
  function Cut(buf: string, argv: seq<Span>): (r: string)
    ensures |r| == |buf|
  {
    if argv == [] then buf
    else
      var b := Cut(buf, argv[..|argv| - 1]);
      var e := argv[|argv| - 1].eq;
      if e < |b| then b[e := '\0'] else b
  }

  function Terminated(buf: string, cmd: Cmd): (r: string)
    ensures |r| == |buf|
    decreases cmd
  {
    match cmd
    case Exec(argv) => Cut(buf, argv)
    case Redir(c, file, _) => Cut(Terminated(buf, c), [file])
    case Pipe(l, r) => Terminated(Terminated(buf, l), r)
    case List(l, r) => Terminated(Terminated(buf, l), r)
    case Back(c) => Terminated(buf, c)
  }

  /** The C string at q. */
  function CString(buf: string, q: nat): string
    decreases |buf| - q
  {
    if q >= |buf| || buf[q] == '\0' then [] else [buf[q]] + CString(buf, q + 1)
  }

  /** Where buf and the input differ, the input has no word character. */
  predicate OnlyCut(s: string, buf: string) {
    && |buf| == |s| + 1 && buf[|s|] == '\0'
    && forall k :: 0 <= k < |s| ==> buf[k] == s[k] || (buf[k] == '\0' && !IsWordChar(s[k]))
  }

  predicate Refers(cmd: Cmd, w: Span) {
    match cmd
    case Exec(argv) => w in argv
    case Redir(c, file, _) => Refers(c, w) || w == file
    case Pipe(l, r) => Refers(l, w) || Refers(r, w)
    case List(l, r) => Refers(l, w) || Refers(r, w)
    case Back(c) => Refers(c, w)
  }

  lemma {:induction false} CutOnly(s: string, buf: string, argv: seq<Span>)
    requires OnlyCut(s, buf) && ArgvOk(s, argv)
    ensures OnlyCut(s, Cut(buf, argv))
    ensures forall i :: 0 <= i < |argv| ==> Cut(buf, argv)[argv[i].eq] == '\0'
    ensures forall k :: 0 <= k < |buf| && buf[k] == '\0' ==> Cut(buf, argv)[k] == '\0'
  {
    if argv != [] {
      var n := |argv| - 1;
      CutOnly(s, buf, argv[..n]);
      assert IsWord(s, argv[n]);
      forall i | 0 <= i < |argv| ensures Cut(buf, argv)[argv[i].eq] == '\0' {
        if i < n { assert argv[..n][i] == argv[i]; }
      }
    }
  }

  lemma {:induction false} TerminatedOnly(s: string, buf: string, cmd: Cmd)
    requires OnlyCut(s, buf) && AllWords(s, cmd)
    ensures OnlyCut(s, Terminated(buf, cmd))
    ensures forall w :: Refers(cmd, w) ==> w.eq < |buf| && Terminated(buf, cmd)[w.eq] == '\0'
    ensures forall k :: 0 <= k < |buf| && buf[k] == '\0' ==> Terminated(buf, cmd)[k] == '\0'
    decreases cmd
  {
    match cmd
    case Exec(argv) => CutOnly(s, buf, argv);
    case Redir(c, file, _) =>
      TerminatedOnly(s, buf, c);
      CutOnly(s, Terminated(buf, c), [file]);
      assert Cut(Terminated(buf, c), [file])[[file][0].eq] == '\0';
    case Pipe(l, r) => TerminatedOnly(s, buf, l); TerminatedOnly(s, Terminated(buf, l), r);
    case List(l, r) => TerminatedOnly(s, buf, l); TerminatedOnly(s, Terminated(buf, l), r);
    case Back(c) => TerminatedOnly(s, buf, c);
  }

  lemma {:induction false} ReadWord(s: string, buf: string, w: Span, q: nat)
    requires OnlyCut(s, buf) && IsWord(s, w) && w.q <= q <= w.eq && buf[w.eq] == '\0' && NoNul(s)
    ensures CString(buf, q) == s[q..w.eq]
    decreases w.eq - q
  {
    if q < w.eq {
      assert IsWordChar(s[q]);
      ReadWord(s, buf, w, q + 1);
    }
  }

  predicate NoNul(s: string) {
    forall k :: 0 <= k < |s| ==> s[k] != '\0'
  }

  /** After nulterminate every word of the command is a C string of its own. */
  lemma WordsTerminated(s: string, w: Span)
    requires NoNul(s) && ParseCmd(s).Ok? && Refers(ParseCmd(s).cmd, w)
    ensures IsWord(s, w) && CString(Terminated(s + "\0", ParseCmd(s).cmd), w.q) == s[w.q..w.eq]
  {
    var cmd := ParseCmd(s).cmd;
    LineWords(s, 0);
    RefersWord(s, cmd, w);
    TerminatedOnly(s, s + "\0", cmd);
    ReadWord(s, Terminated(s + "\0", cmd), w, w.q);
  }

  lemma {:induction false} RefersWord(s: string, cmd: Cmd, w: Span)
    requires AllWords(s, cmd) && Refers(cmd, w)
    ensures IsWord(s, w)
  {
    match cmd
    case Exec(argv) =>
    case Redir(c, file, _) => if Refers(c, w) { RefersWord(s, c, w); }
    case Pipe(l, r) => if Refers(l, w) { RefersWord(s, l, w); } else { RefersWord(s, r, w); }
    case List(l, r) => if Refers(l, w) { RefersWord(s, l, w); } else { RefersWord(s, r, w); }
    case Back(c) => RefersWord(s, c, w);
  }

  // ---------------------------------------------------------------- printing and parsing back

  /** A command with its words spelled out. */
  datatype Tree =
    | TExec(args: seq<string>)
    | TRedir(cmd: Tree, file: string, op: RedirOp)
    | TPipe(left: Tree, right: Tree)
    | TList(left: Tree, right: Tree)
    | TBack(cmd: Tree)

  function Text(s: string, w: Span): string {
    if w.q <= w.eq <= |s| then s[w.q..w.eq] else []
  }

  function Texts(s: string, argv: seq<Span>): (r: seq<string>)
    ensures |r| == |argv|
  {
    if argv == [] then [] else Texts(s, argv[..|argv| - 1]) + [Text(s, argv[|argv| - 1])]
  }

  function View(s: string, cmd: Cmd): Tree {
    match cmd
    case Exec(argv) => TExec(Texts(s, argv))
    case Redir(c, file, op) => TRedir(View(s, c), Text(s, file), op)
    case Pipe(l, r) => TPipe(View(s, l), View(s, r))
    case List(l, r) => TList(View(s, l), View(s, r))
    case Back(c) => TBack(View(s, c))
  }

  predicate ValidWord(w: string) {
    w != [] && forall k :: 0 <= k < |w| ==> IsWordChar(w[k])
  }

  predicate ValidTree(t: Tree) {
    match t
    case TExec(args) => |args| < MAXARGS && forall i :: 0 <= i < |args| ==> ValidWord(args[i])
    case TRedir(c, file, _) => ValidTree(c) && ValidWord(file)
    case TPipe(l, r) => ValidTree(l) && ValidTree(r)
    case TList(l, r) => ValidTree(l) && ValidTree(r)
    case TBack(c) => ValidTree(c)
  }

  function Join(args: seq<string>): string {
    if args == [] then "" else if |args| == 1 then args[0] else args[0] + (" " + Join(args[1..]))
  }

  function Sign(op: RedirOp): string {
    match op case In => "<" case Out => ">" case Append => ">>"
  }

  function Paren(x: string): string {
    "(" + (x + ")")
  }

  /** Fully parenthesised: every part of a compound command is in parentheses. */
  function Print(t: Tree): string {
    match t
    case TExec(args) => Join(args)
    case TRedir(c, file, op) => Paren(Print(c)) + (Sign(op) + file)
    case TPipe(l, r) => Paren(Print(l)) + ("|" + Paren(Print(r)))
    case TList(l, r) => Paren(Print(l)) + (";" + Paren(Print(r)))
    case TBack(c) => Paren(Print(c)) + "&"
  }

  /** x stands in s at p. */
  predicate At(s: string, p: nat, x: string) {
    p + |x| <= |s| && forall k :: 0 <= k < |x| ==> s[p + k] == x[k]
  }

  lemma AtSplit(s: string, p: nat, x: string, y: string)
    requires At(s, p, x + y)
    ensures At(s, p, x) && At(s, p + |x|, y)
  {
    forall k | 0 <= k < |x| ensures s[p + k] == x[k] { assert (x + y)[k] == x[k]; }
    forall k | 0 <= k < |y| ensures s[p + |x| + k] == y[k] { assert (x + y)[|x| + k] == y[k]; }
  }

  lemma AtChar(s: string, p: nat, x: string)
    requires At(s, p, x) && x != []
    ensures p < |s| && s[p] == x[0]
  {
    assert s[p + 0] == x[0];
  }

  /** What may follow a printed command: the end, or one of stops. */
  predicate Stops(s: string, p: nat, stops: set<char>) {
    p == |s| || (p < |s| && s[p] in stops)
  }

  /** A word at p is read as such. */
  lemma WordAt(s: string, p: nat, w: string)
    requires ValidWord(w) && At(s, p, w) && (p + |w| < |s| ==> !IsWordChar(s[p + |w|]))
    ensures GetToken(s, p) == Token(Word, p, p + |w|, Skip(s, p + |w|)) && Text(s, Span(p, p + |w|)) == w && p < |s|
  {
    AtChar(s, p, w);
    forall k | p <= k < p + |w| ensures IsWordChar(s[k]) { assert s[p + (k - p)] == w[k - p]; }
    assert s[p..p + |w|] == w;
    WordEndIs(s, p, p + |w|);
  }

  lemma {:induction false} WordEndIs(s: string, p: nat, e: nat)
    requires p <= e <= |s| && (forall k :: p <= k < e ==> IsWordChar(s[k])) && (e < |s| ==> !IsWordChar(s[e]))
    ensures WordEnd(s, p) == e
    decreases e - p
  {
    if p < e { WordEndIs(s, p + 1, e); }
  }

  // The parser's results at each position, as values, so that the grammar can be followed step by step.

  datatype Results = Results(args: (nat, seq<Span>) -> Args, redirs: nat -> Redirs, exec: nat -> Parsed,
                             pipe: nat -> Parsed, line: nat -> Parsed)

  ghost predicate Tabulates(s: string, f: Results) {
    && (forall q: nat, a {:trigger ParseArgs(s, q, a, [])} :: q <= |s| ==> ParseArgs(s, q, a, []) == f.args(q, a))
    && (forall q: nat {:trigger ParseRedirs(s, q)} :: q <= |s| ==> ParseRedirs(s, q) == f.redirs(q))
    && (forall q: nat {:trigger ParseExec(s, q)} :: q <= |s| ==> ParseExec(s, q) == f.exec(q))
    && (forall q: nat {:trigger ParsePipe(s, q)} :: q <= |s| ==> ParsePipe(s, q) == f.pipe(q))
    && (forall q: nat {:trigger ParseLine(s, q)} :: q <= |s| ==> ParseLine(s, q) == f.line(q))
  }

  function Tabulate(s: string): Results {
    Results((q: nat, a: seq<Span>) => if q <= |s| then ParseArgs(s, q, a, []) else BadArgs,
            (q: nat) => if q <= |s| then ParseRedirs(s, q) else NoFile,
            (q: nat) => if q <= |s| then ParseExec(s, q) else Syntax,
            (q: nat) => if q <= |s| then ParsePipe(s, q) else Syntax,
            (q: nat) => if q <= |s| then ParseLine(s, q) else Syntax)
  }

  /** One word of the loop of parseexec, with no redirection after it. */
  lemma {:induction false} ArgStep(s: string, f: Results, p: nat, e: nat, argv: seq<Span>)
    requires Tabulates(s, f) && p <= e <= |s| && GetToken(s, p) == Token(Word, p, e, Skip(s, e)) && |argv| + 1 < MAXARGS
    requires !Peek(s, p, {'|', ')', '&', ';'}) && !Peek(s, Skip(s, e), {'<', '>'})
    ensures f.args(p, argv) == f.args(Skip(s, e), argv + [Span(p, e)])
  {
    var at := Skip(s, e);
    var none: seq<(Span, RedirOp)> := [];
    SkipAgain(s, e);
    assert ParseRedirs(s, at) == Redirs([], at);
    assert none + none == none;
    assert ParseArgs(s, p, argv, []) == ParseArgs(s, at, argv + [Span(p, e)], []);
  }

  lemma {:induction false} SkipAgain(s: string, p: nat)
    requires p <= |s|
    ensures Skip(s, Skip(s, p)) == Skip(s, p)
  {
  }

  lemma TextsMore(s: string, argv: seq<Span>, w: Span)
    ensures Texts(s, argv + [w]) == Texts(s, argv) + [Text(s, w)]
  {
    assert (argv + [w])[..|argv|] == argv;
  }

  lemma ArgsEnd(s: string, f: Results, p: nat, argv: seq<Span>)
    requires Tabulates(s, f) && Stops(s, p, {'|', ')', '&', ';'})
    ensures f.args(p, argv) == Args(argv, [], p)
  {
    assert ParseArgs(s, p, argv, []) == Args(argv, [], p);
  }

  /** After a printed argument list the loop of parseexec has collected it. */
  lemma {:induction false} ArgsPrinted(s: string, f: Results, p: nat, args: seq<string>, argv: seq<Span>)
    returns (r: seq<Span>)
    requires Tabulates(s, f) && At(s, p, Join(args)) && Stops(s, p + |Join(args)|, {'|', ')', '&', ';'})
             && |argv| + |args| < MAXARGS
    requires forall i :: 0 <= i < |args| ==> ValidWord(args[i])
    ensures f.args(p, argv) == Args(r, [], p + |Join(args)|) && Texts(s, r) == Texts(s, argv) + args
    decreases |args|
  {
    if args == [] {
      ArgsEnd(s, f, p, argv);
      assert Texts(s, argv) + args == Texts(s, argv);
      r := argv;
    } else {
      var span := Span(p, p + |args[0]|);
      var next := ArgFirst(s, f, p, args, argv);
      r := ArgsPrinted(s, f, next, args[1..], argv + [span]);
      TextsMore(s, argv, span);
      Shift(Texts(s, argv), args);
    }
  }

  lemma {:induction false} ArgFirst(s: string, f: Results, p: nat, args: seq<string>, argv: seq<Span>)
    returns (next: nat)
    requires Tabulates(s, f) && args != [] && At(s, p, Join(args)) && Stops(s, p + |Join(args)|, {'|', ')', '&', ';'})
    requires |argv| + 1 < MAXARGS && forall i :: 0 <= i < |args| ==> ValidWord(args[i])
    ensures var span := Span(p, p + |args[0]|);
            f.args(p, argv) == f.args(next, argv + [span]) && Text(s, span) == args[0]
    ensures At(s, next, Join(args[1..])) && next + |Join(args[1..])| == p + |Join(args)|
  {
    FirstWord(s, p, args);
    WordAt(s, p, args[0]);
    ArgStep(s, f, p, p + |args[0]|, argv);
    next := Skip(s, p + |args[0]|);
  }

  lemma Shift(a: seq<string>, b: seq<string>)
    requires b != []
    ensures a + [b[0]] + b[1..] == a + b
  {
  }

  /** The first word of a printed argument list ends where the list ends or a blank stands. */
  lemma FirstWord(s: string, p: nat, args: seq<string>)
    requires args != [] && At(s, p, Join(args)) && Stops(s, p + |Join(args)|, {'|', ')', '&', ';'})
             && forall i :: 0 <= i < |args| ==> ValidWord(args[i])
    ensures var e := p + |args[0]|;
            && At(s, p, args[0]) && (e < |s| ==> !IsWordChar(s[e])) && !Peek(s, Skip(s, e), {'<', '>'})
            && !Peek(s, p, {'|', ')', '&', ';'})
            && At(s, Skip(s, e), Join(args[1..])) && Skip(s, e) + |Join(args[1..])| == p + |Join(args)|
  {
    var w, e := args[0], p + |args[0]|;
    if |args| == 1 {
      assert Join(args[1..]) == "";
    } else {
      AtSplit(s, p, w, " " + Join(args[1..]));
      AtSplit(s, e, " ", Join(args[1..]));
      AtChar(s, e, " ");
    }
    SkipTo(s, e, args);
    AtChar(s, p, w);
  }

  /** From the end of the first of several words, blanks lead to the next. */
  lemma SkipTo(s: string, e: nat, args: seq<string>)
    requires args != [] && forall i :: 0 <= i < |args| ==> ValidWord(args[i])
    requires |args| == 1 ==> Stops(s, e, {'|', ')', '&', ';'})
    requires |args| > 1 ==> At(s, e, " " + Join(args[1..]))
    ensures e <= |s| && Skip(s, e) == (if |args| == 1 then e else e + 1) && !Peek(s, Skip(s, e), {'<', '>'})
  {
    if |args| > 1 {
      AtChar(s, e, " " + Join(args[1..]));
      AtSplit(s, e, " ", Join(args[1..]));
      JoinStarts(args[1..]);
      AtChar(s, e + 1, Join(args[1..]));
    }
  }

  lemma JoinStarts(args: seq<string>)
    requires args != [] && ValidWord(args[0])
    ensures Join(args) != [] && IsWordChar(Join(args)[0])
  {
  }

  lemma {:induction false} ExecIs(s: string, f: Results, p: nat, argv: seq<Span>, e: nat)
    requires Tabulates(s, f) && p <= |s| && (p < |s| ==> !IsSpace(s[p]) && s[p] != '(' && s[p] != '<' && s[p] != '>')
    requires f.args(p, []) == Args(argv, [], e)
    ensures f.exec(p) == Ok(Exec(argv), e)
  {
    assert ParseArgs(s, p, [], []) == Args(argv, [], e);
    assert ParseRedirs(s, p) == Redirs([], p);
    assert ParseExec(s, p) == Ok(Exec(argv), e);
  }

  lemma {:induction false} ExecPrinted(s: string, f: Results, p: nat, args: seq<string>) returns (cmd: Cmd)
    requires Tabulates(s, f) && At(s, p, Join(args)) && Stops(s, p + |Join(args)|, {'|', ')', '&', ';'})
             && |args| < MAXARGS
    requires forall i :: 0 <= i < |args| ==> ValidWord(args[i])
    ensures f.exec(p) == Ok(cmd, p + |Join(args)|) && View(s, cmd) == TExec(args)
  {
    if args != [] {
      JoinStarts(args);
      AtChar(s, p, Join(args));
    }
    var argv := ArgsPrinted(s, f, p, args, []);
    assert Texts(s, []) + args == args;
    ExecIs(s, f, p, argv, p + |Join(args)|);
    cmd := Exec(argv);
  }

  lemma {:induction false} PipeStop(s: string, f: Results, p: nat, cmd: Cmd, e: nat)
    requires Tabulates(s, f) && p <= |s| && f.exec(p) == Ok(cmd, e) && Stops(s, e, {')', '&', ';'})
    ensures f.pipe(p) == Ok(cmd, e)
  {
    assert ParsePipe(s, p) == Ok(cmd, e);
  }

  /** A one-character token with no blank after it. */
  lemma SymbolToken(s: string, e: nat)
    requires e < |s| && IsSymbol(s[e]) && s[e] != '>' && (e + 1 < |s| ==> !IsSpace(s[e + 1]))
    ensures GetToken(s, e) == Token(Symbol(s[e]), e, e + 1, e + 1) && Skip(s, e) == e
  {
  }

  lemma {:induction false} PipePipe(s: string, f: Results, p: nat, left: Cmd, e: nat, right: Cmd, end: nat)
    requires Tabulates(s, f) && p <= |s| && f.exec(p) == Ok(left, e) && e + 1 < |s| && s[e] == '|' && !IsSpace(s[e + 1])
    requires f.pipe(e + 1) == Ok(right, end)
    ensures f.pipe(p) == Ok(Pipe(left, right), end)
  {
    SymbolToken(s, e);
    assert ParsePipe(s, p) == Ok(Pipe(left, right), end);
  }

  lemma {:induction false} LineStop(s: string, f: Results, p: nat, cmd: Cmd, e: nat)
    requires Tabulates(s, f) && p <= |s| && f.pipe(p) == Ok(cmd, e) && Stops(s, e, {')'})
    ensures f.line(p) == Ok(cmd, e)
  {
    assert ParseLine(s, p) == Ok(cmd, e);
  }

  lemma {:induction false} LineBack(s: string, f: Results, p: nat, cmd: Cmd, e: nat)
    requires Tabulates(s, f) && p <= |s| && f.pipe(p) == Ok(cmd, e) && e < |s| && s[e] == '&' && Stops(s, e + 1, {')'})
    ensures f.line(p) == Ok(Back(cmd), e + 1)
  {
    SymbolToken(s, e);
    assert ParseBack(s, e + 1, Back(cmd)) == (Back(cmd), e + 1);
    assert ParseLine(s, p) == Ok(Back(cmd), e + 1);
  }

  lemma {:induction false} LineList(s: string, f: Results, p: nat, left: Cmd, e: nat, right: Cmd, end: nat)
    requires Tabulates(s, f) && p <= |s| && f.pipe(p) == Ok(left, e) && e + 1 < |s| && s[e] == ';' && !IsSpace(s[e + 1])
    requires f.line(e + 1) == Ok(right, end)
    ensures f.line(p) == Ok(List(left, right), end)
  {
    SymbolToken(s, e);
    assert ParseBack(s, e, left) == (left, e);
    assert ParseLine(s, p) == Ok(List(left, right), end);
  }

  /** A block and the redirections after it. */
  lemma {:induction false} BlockIs(s: string, f: Results, p: nat, cmd: Cmd, e: nat, files: seq<(Span, RedirOp)>,
                                   end: nat)
    requires Tabulates(s, f)
    requires p + 1 <= e < |s| && s[p] == '(' && s[e] == ')' && !IsSpace(s[p + 1])
             && (e + 1 < |s| ==> !IsSpace(s[e + 1]))
    requires f.line(p + 1) == Ok(cmd, e) && f.redirs(e + 1) == Redirs(files, end)
    ensures f.exec(p) == Ok(Wrap(cmd, files), end)
  {
    SymbolToken(s, p);
    assert ParseLine(s, p + 1) == Ok(cmd, e) && ParseRedirs(s, e + 1) == Redirs(files, end);
    BlockBody(s, p, cmd, e, files, end);
    assert ParseExec(s, p) == ParseBlock(s, p);
  }

  lemma {:induction false} BlockBody(s: string, p: nat, cmd: Cmd, e: nat, files: seq<(Span, RedirOp)>, end: nat)
    requires p + 1 <= e < |s| && s[p] == '(' && s[e] == ')' && !IsSpace(s[p + 1])
             && (e + 1 < |s| ==> !IsSpace(s[e + 1]))
    requires ParseLine(s, p + 1) == Ok(cmd, e) && ParseRedirs(s, e + 1) == Redirs(files, end)
    ensures Skip(s, p) == p && ParseBlock(s, p) == Ok(Wrap(cmd, files), end)
  {
    SymbolToken(s, p);
    SymbolToken(s, e);
  }

  // The printed text by positions: what stands where, without the strings in between.

  function Len(t: Tree): nat {
    match t
    case TExec(args) => |Join(args)|
    case TRedir(c, file, op) => Len(c) + 2 + |Sign(op)| + |file|
    case TPipe(l, r) => Len(l) + 2 + 1 + Len(r) + 2
    case TList(l, r) => Len(l) + 2 + 1 + Len(r) + 2
    case TBack(c) => Len(c) + 2 + 1
  }

  predicate CharAt(s: string, p: nat, c: char) {
    p < |s| && s[p] == c
  }

  /** The text of t stands in s at p. */
  predicate Lies(s: string, p: nat, t: Tree)
    decreases t
  {
    p + Len(t) <= |s| &&
    match t
    case TExec(args) => At(s, p, Join(args))
    case TRedir(c, file, op) =>
      CharAt(s, p, '(') && Lies(s, p + 1, c) && CharAt(s, p + 1 + Len(c), ')') && At(s, p + Len(c) + 2, Sign(op) + file)
    case TPipe(l, r) =>
      && CharAt(s, p, '(') && Lies(s, p + 1, l) && CharAt(s, p + 1 + Len(l), ')') && CharAt(s, p + 2 + Len(l), '|')
      && CharAt(s, p + 3 + Len(l), '(') && Lies(s, p + 4 + Len(l), r) && CharAt(s, p + 4 + Len(l) + Len(r), ')')
    case TList(l, r) =>
      && CharAt(s, p, '(') && Lies(s, p + 1, l) && CharAt(s, p + 1 + Len(l), ')') && CharAt(s, p + 2 + Len(l), ';')
      && CharAt(s, p + 3 + Len(l), '(') && Lies(s, p + 4 + Len(l), r) && CharAt(s, p + 4 + Len(l) + Len(r), ')')
    case TBack(c) =>
      && CharAt(s, p, '(') && Lies(s, p + 1, c)
      && CharAt(s, p + 1 + Len(c), ')') && CharAt(s, p + 2 + Len(c), '&')
  }

  lemma {:induction false} LenIs(t: Tree)
    ensures |Print(t)| == Len(t)
  {
    match t
    case TExec(args) =>
    case TRedir(c, _, _) => LenIs(c);
    case TPipe(l, r) => LenIs(l); LenIs(r);
    case TList(l, r) => LenIs(l); LenIs(r);
    case TBack(c) => LenIs(c);
  }

  /** The parts of a parenthesised text. */
  lemma ParenAt(s: string, p: nat, x: string)
    requires At(s, p, Paren(x))
    ensures CharAt(s, p, '(') && At(s, p + 1, x) && CharAt(s, p + 1 + |x|, ')') && |Paren(x)| == |x| + 2
  {
    AtChar(s, p, Paren(x));
    AtSplit(s, p, "(", x + ")");
    AtSplit(s, p + 1, x, ")");
    AtChar(s, p + 1 + |x|, ")");
  }

  lemma PairAt(s: string, p: nat, x: string, sep: char, y: string)
    requires At(s, p, Paren(x) + ([sep] + Paren(y)))
    ensures CharAt(s, p, '(') && At(s, p + 1, x) && CharAt(s, p + 1 + |x|, ')') && CharAt(s, p + 2 + |x|, sep)
    ensures CharAt(s, p + 3 + |x|, '(') && At(s, p + 4 + |x|, y) && CharAt(s, p + 4 + |x| + |y|, ')')
  {
    AtSplit(s, p, Paren(x), [sep] + Paren(y));
    ParenAt(s, p, x);
    AtSplit(s, p + 2 + |x|, [sep], Paren(y));
    AtChar(s, p + 2 + |x|, [sep]);
    ParenAt(s, p + 3 + |x|, y);
  }

  lemma {:induction false} PrintLies(s: string, p: nat, t: Tree)
    requires At(s, p, Print(t))
    ensures Lies(s, p, t)
    decreases t, 1
  {
    LenIs(t);
    match t
    case TExec(args) =>
    case TRedir(c, file, op) =>
      LenIs(c);
      AtSplit(s, p, Paren(Print(c)), Sign(op) + file);
      ParenLies(s, p, c);
    case TPipe(_, _) => PairLies(s, p, t, '|');
    case TList(_, _) => PairLies(s, p, t, ';');
    case TBack(c) =>
      LenIs(c);
      AtSplit(s, p, Paren(Print(c)), "&");
      AtChar(s, p + |Paren(Print(c))|, "&");
      ParenLies(s, p, c);
  }

  lemma {:induction false} ParenLies(s: string, p: nat, t: Tree)
    requires At(s, p, Paren(Print(t)))
    ensures CharAt(s, p, '(') && Lies(s, p + 1, t) && CharAt(s, p + 1 + Len(t), ')')
    decreases t, 2
  {
    LenIs(t);
    ParenAt(s, p, Print(t));
    PrintLies(s, p + 1, t);
  }

  lemma {:induction false} PairLies(s: string, p: nat, t: Tree, sep: char)
    requires (t.TPipe? || t.TList?) && At(s, p, Paren(Print(t.left)) + ([sep] + Paren(Print(t.right))))
    ensures CharAt(s, p, '(') && Lies(s, p + 1, t.left) && CharAt(s, p + 1 + Len(t.left), ')')
            && CharAt(s, p + 2 + Len(t.left), sep)
    ensures CharAt(s, p + 3 + Len(t.left), '(') && Lies(s, p + 4 + Len(t.left), t.right)
            && CharAt(s, p + 4 + Len(t.left) + Len(t.right), ')')
    decreases t, 0
  {
    LenIs(t.left);
    LenIs(t.right);
    PairAt(s, p, Print(t.left), sep, Print(t.right));
    PrintLies(s, p + 1, t.left);
    PrintLies(s, p + 4 + Len(t.left), t.right);
  }

  /** A printed command in parentheses does not start with a blank. */
  lemma LiesStarts(s: string, p: nat, t: Tree)
    requires ValidTree(t) && Lies(s, p, t) && CharAt(s, p + Len(t), ')')
    ensures p < |s| && !IsSpace(s[p])
  {
    if t.TExec? && t.args != [] {
      JoinStarts(t.args);
      AtChar(s, p, Join(t.args));
    }
  }

  /** The token of a redirection sign. */
  lemma SignToken(s: string, p: nat, op: RedirOp)
    requires At(s, p, Sign(op)) && p + |Sign(op)| < |s| && IsWordChar(s[p + |Sign(op)|])
    ensures p < |s| && !IsSpace(s[p]) && Peek(s, p, {'<', '>'})
    ensures GetToken(s, p).next == p + |Sign(op)|
    ensures op == OpOf(GetToken(s, p))
  {
    AtChar(s, p, Sign(op));
    if op == Append { assert s[p + 1] == Sign(op)[1]; }
  }

  lemma {:induction false} RedirOne(s: string, f: Results, p: nat, q: nat, e: nat, op: RedirOp)
    requires Tabulates(s, f) && p < q < e <= |s| && Peek(s, p, {'<', '>'}) && GetToken(s, p).next == q
    requires GetToken(s, q) == Token(Word, q, e, e) && Stops(s, e, {')'})
    requires op == OpOf(GetToken(s, p))
    ensures f.redirs(p) == Redirs([(Span(q, e), op)], e)
  {
    assert ParseRedirs(s, e) == Redirs([], e);
    var none: seq<(Span, RedirOp)> := [];
    assert [(Span(q, e), op)] + none == [(Span(q, e), op)];
    assert ParseRedirs(s, p) == Redirs([(Span(q, e), op)], e);
  }

  lemma {:induction false} RedirPrinted(s: string, f: Results, p: nat, file: string, op: RedirOp)
    requires Tabulates(s, f) && ValidWord(file) && At(s, p, Sign(op) + file) && Stops(s, p + |Sign(op) + file|, {')'})
    ensures p < |s| && !IsSpace(s[p])
    ensures var e := p + |Sign(op) + file|;
            f.redirs(p) == Redirs([(Span(e - |file|, e), op)], e) && Text(s, Span(e - |file|, e)) == file
  {
    AtSplit(s, p, Sign(op), file);
    var q := p + |Sign(op)|;
    AtChar(s, q, file);
    SignToken(s, p, op);
    WordAt(s, q, file);
    RedirOne(s, f, p, q, q + |file|, op);
  }

  /** The parser reads exactly the text of t and returns t. */
  lemma {:induction false} Printed(s: string, f: Results, p: nat, t: Tree) returns (cmd: Cmd)
    requires Tabulates(s, f) && ValidTree(t) && Lies(s, p, t) && Stops(s, p + Len(t), {')'})
    ensures f.line(p) == Ok(cmd, p + Len(t)) && View(s, cmd) == t
    decreases t, 1
  {
    var end := p + Len(t);
    match t
    case TExec(args) =>
      cmd := ExecPrinted(s, f, p, args);
      PipeStop(s, f, p, cmd, end);
      LineStop(s, f, p, cmd, end);
    case TRedir(c, file, op) =>
      cmd := RedirCase(s, f, p, c, file, op);
      PipeStop(s, f, p, cmd, end);
      LineStop(s, f, p, cmd, end);
    case TPipe(l, r) =>
      cmd := PipeCase(s, f, p, l, r);
      LineStop(s, f, p, cmd, end);
    case TList(l, r) => cmd := ListCase(s, f, p, l, r);
    case TBack(c) => cmd := BackCase(s, f, p, c);
  }

  lemma {:induction false} ParenExec(s: string, f: Results, p: nat, t: Tree) returns (cmd: Cmd)
    requires Tabulates(s, f) && ValidTree(t) && CharAt(s, p, '(') && Lies(s, p + 1, t) && CharAt(s, p + 1 + Len(t), ')')
    requires Stops(s, p + 2 + Len(t), {'|', ')', '&', ';'})
    ensures f.exec(p) == Ok(cmd, p + 2 + Len(t)) && View(s, cmd) == t
    decreases t, 2
  {
    LiesStarts(s, p + 1, t);
    cmd := Printed(s, f, p + 1, t);
    var e := p + 1 + Len(t);
    NoRedirs(s, f, e + 1);
    BlockIs(s, f, p, cmd, e, [], e + 1);
  }

  lemma NoRedirs(s: string, f: Results, p: nat)
    requires Tabulates(s, f) && Stops(s, p, {'|', ')', '&', ';'})
    ensures f.redirs(p) == Redirs([], p)
  {
    assert ParseRedirs(s, p) == Redirs([], p);
  }

  lemma {:induction false} ParenPipe(s: string, f: Results, p: nat, t: Tree) returns (cmd: Cmd)
    requires Tabulates(s, f) && ValidTree(t) && CharAt(s, p, '(') && Lies(s, p + 1, t) && CharAt(s, p + 1 + Len(t), ')')
    requires Stops(s, p + 2 + Len(t), {')', '&', ';'})
    ensures f.pipe(p) == Ok(cmd, p + 2 + Len(t)) && View(s, cmd) == t
    decreases t, 3
  {
    cmd := ParenExec(s, f, p, t);
    PipeStop(s, f, p, cmd, p + 2 + Len(t));
  }

  lemma {:induction false} ParenLine(s: string, f: Results, p: nat, t: Tree) returns (cmd: Cmd)
    requires Tabulates(s, f) && ValidTree(t) && CharAt(s, p, '(') && Lies(s, p + 1, t) && CharAt(s, p + 1 + Len(t), ')')
             && Stops(s, p + 2 + Len(t), {')'})
    ensures f.line(p) == Ok(cmd, p + 2 + Len(t)) && View(s, cmd) == t
    decreases t, 4
  {
    cmd := ParenPipe(s, f, p, t);
    LineStop(s, f, p, cmd, p + 2 + Len(t));
  }

  lemma {:induction false} PipeCase(s: string, f: Results, p: nat, l: Tree, r: Tree) returns (cmd: Cmd)
    requires Tabulates(s, f) && ValidTree(l) && ValidTree(r) && Lies(s, p, TPipe(l, r))
             && Stops(s, p + Len(TPipe(l, r)), {')'})
    ensures f.pipe(p) == Ok(cmd, p + Len(TPipe(l, r))) && View(s, cmd) == TPipe(l, r)
    decreases TPipe(l, r), 0
  {
    var e := p + 2 + Len(l);
    var left := ParenExec(s, f, p, l);
    var right := ParenPipe(s, f, e + 1, r);
    PipePipe(s, f, p, left, e, right, e + 3 + Len(r));
    cmd := Pipe(left, right);
  }

  lemma {:induction false} ListCase(s: string, f: Results, p: nat, l: Tree, r: Tree) returns (cmd: Cmd)
    requires Tabulates(s, f) && ValidTree(l) && ValidTree(r) && Lies(s, p, TList(l, r))
             && Stops(s, p + Len(TList(l, r)), {')'})
    ensures f.line(p) == Ok(cmd, p + Len(TList(l, r))) && View(s, cmd) == TList(l, r)
    decreases TList(l, r), 0
  {
    var e := p + 2 + Len(l);
    var left := ParenPipe(s, f, p, l);
    var right := ParenLine(s, f, e + 1, r);
    LineList(s, f, p, left, e, right, e + 3 + Len(r));
    cmd := List(left, right);
  }

  lemma {:induction false} BackCase(s: string, f: Results, p: nat, c: Tree) returns (cmd: Cmd)
    requires Tabulates(s, f) && ValidTree(c) && Lies(s, p, TBack(c)) && Stops(s, p + Len(TBack(c)), {')'})
    ensures f.line(p) == Ok(cmd, p + Len(TBack(c))) && View(s, cmd) == TBack(c)
    decreases TBack(c), 0
  {
    var inner := ParenPipe(s, f, p, c);
    LineBack(s, f, p, inner, p + 2 + Len(c));
    cmd := Back(inner);
  }

  lemma {:induction false} RedirCase(s: string, f: Results, p: nat, c: Tree, file: string, op: RedirOp)
    returns (cmd: Cmd)
    requires Tabulates(s, f) && ValidTree(c) && ValidWord(file) && Lies(s, p, TRedir(c, file, op))
             && Stops(s, p + Len(TRedir(c, file, op)), {')'})
    ensures f.exec(p) == Ok(cmd, p + Len(TRedir(c, file, op))) && View(s, cmd) == TRedir(c, file, op)
    decreases TRedir(c, file, op), 0
  {
    LiesStarts(s, p + 1, c);
    var inner := Printed(s, f, p + 1, c);
    var e := p + 1 + Len(c);
    RedirPrinted(s, f, e + 1, file, op);
    var end := e + 1 + |Sign(op) + file|;
    var x := (Span(end - |file|, end), op);
    BlockIs(s, f, p, inner, e, [x], end);
    WrapOne(inner, x);
    cmd := Redir(inner, x.0, x.1);
  }

  lemma WrapOne(cmd: Cmd, f: (Span, RedirOp))
    ensures Wrap(cmd, [f]) == Redir(cmd, f.0, f.1)
  {
    assert [f][1..] == [];
  }

  /** Shell round trip: parsing the fully parenthesised printing of any valid command gives it back. */
  lemma RoundTrip(t: Tree)
    requires ValidTree(t)
    ensures ParseCmd(Print(t)).Ok? && View(Print(t), ParseCmd(Print(t)).cmd) == t
  {
    var s := Print(t);
    LenIs(t);
    PrintLies(s, 0, t);
    var cmd := Printed(s, Tabulate(s), 0, t);
    assert Tabulate(s).line(0) == ParseLine(s, 0);
  }

  // ---------------------------------------------------------------- the parser, step by step

  method SkipBlanks(s: string, p: nat) returns (q: nat)
    requires p <= |s|
    ensures q == Skip(s, p)
  {
    q := p;
    while q < |s| && IsSpace(s[q])
      invariant p <= q <= |s| && Skip(s, q) == Skip(s, p)
    {
      q := q + 1;
    }
  }

  method NextToken(s: string, p: nat) returns (t: Token)
    requires p <= |s|
    ensures t == GetToken(s, p)
  {
    var q := SkipBlanks(s, p);
    TokenSkips(s, p);
    if q == |s| {
      return Token(End, q, q, q);
    }
    var e, kind := q + 1, Symbol(s[q]);
    if s[q] == '>' {
      if e < |s| && s[e] == '>' {
        e, kind := e + 1, Twice;
      }
    } else if !IsSymbol(s[q]) {
      kind, e := Word, q;
      while e < |s| && !IsSpace(s[e]) && !IsSymbol(s[e])
        invariant q <= e <= |s| && WordEnd(s, e) == WordEnd(s, q)
      {
        e := e + 1;
      }
    }
    var next := SkipBlanks(s, e);
    return Token(kind, q, e, next);
  }

  lemma {:induction false} TokenSkips(s: string, p: nat)
    requires p <= |s|
    ensures GetToken(s, p) == TokenAt(s, Skip(s, p))
    decreases |s| - p
  {
    if p < |s| && IsSpace(s[p]) { TokenSkips(s, p + 1); }
  }

  /** Redirections already seen, then those of the rest. */
  function Prepend(files: seq<(Span, RedirOp)>, rest: Redirs): Redirs {
    if rest.NoFile? then NoFile else Redirs(files + rest.files, rest.p)
  }

  lemma PrependMore(files: seq<(Span, RedirOp)>, f: (Span, RedirOp), rest: Redirs)
    ensures Prepend(files, Prepend([f], rest)) == Prepend(files + [f], rest)
  {
    if rest.Redirs? { assert files + ([f] + rest.files) == files + [f] + rest.files; }
  }

  /** The loop of parseredirs. */
  method RedirLoop(s: string, p: nat) returns (r: Redirs)
    requires p <= |s|
    ensures r == ParseRedirs(s, p)
  {
    var files, at := [], p;
    while true
      invariant at <= |s| && ParseRedirs(s, p) == Prepend(files, ParseRedirs(s, at))
      decreases |s| - at
    {
      var q := SkipBlanks(s, at);
      if q == |s| || (s[q] != '<' && s[q] != '>') {
        assert files + [] == files;
        return Redirs(files, q);
      }
      var tok := NextToken(s, at);
      var file := NextToken(s, tok.next);
      if !file.kind.Word? {
        return NoFile;
      }
      var f := (Span(file.q, file.eq), OpOf(tok));
      assert ParseRedirs(s, at) == Prepend([f], ParseRedirs(s, file.next));
      PrependMore(files, f, ParseRedirs(s, file.next));
      files, at := files + [f], file.next;
    }
  }

  /** The loop of parseexec over the words of a command. */
  method ArgLoop(s: string, p: nat, first: seq<(Span, RedirOp)>) returns (r: Args)
    requires p <= |s|
    ensures r == ParseArgs(s, p, [], first)
  {
    var argv, files, at := [], first, p;
    while true
      invariant at <= |s| && ParseArgs(s, at, argv, files) == ParseArgs(s, p, [], first)
      decreases |s| - at
    {
      var q := SkipBlanks(s, at);
      if q < |s| && (s[q] == '|' || s[q] == ')' || s[q] == '&' || s[q] == ';') {
        return Args(argv, files, q);
      }
      var tok := NextToken(s, at);
      if tok.kind.End? {
        return Args(argv, files, tok.next);
      }
      if !tok.kind.Word? || |argv| + 1 >= MAXARGS {
        return BadArgs;
      }
      var more := RedirLoop(s, tok.next);
      if more.NoFile? {
        return BadArgs;
      }
      argv, files, at := argv + [Span(tok.q, tok.eq)], files + more.files, more.p;
    }
  }

  /** The loop of parseline over '&'. */
  method BackLoop(s: string, p: nat, first: Cmd) returns (cmd: Cmd, at: nat)
    requires p <= |s|
    ensures (cmd, at) == ParseBack(s, p, first)
  {
    cmd, at := first, p;
    while true
      invariant at <= |s| && ParseBack(s, at, cmd) == ParseBack(s, p, first)
      decreases |s| - at
    {
      var q := SkipBlanks(s, at);
      if q == |s| || s[q] != '&' {
        at := q;
        return;
      }
      var tok := NextToken(s, at);
      cmd, at := Back(cmd), tok.next;
    }
  }

  /** nulterminate: the NULs go into the line buffer itself. */
  method NulTerminate(buf: array<char>, cmd: Cmd)
    requires forall w :: Refers(cmd, w) ==> w.eq < buf.Length
    modifies buf
    ensures buf[..] == Terminated(old(buf[..]), cmd)
    decreases cmd
  {
    match cmd
    case Exec(argv) =>
      ghost var was: string := buf[..];
      assert argv[..0] == [];
      for i := 0 to |argv|
        invariant buf[..] == Cut(was, argv[..i])
      {
        assert argv[..i + 1][..i] == argv[..i];
        assert Refers(cmd, argv[i]);
        buf[argv[i].eq] := '\0';
      }
      assert argv[..|argv|] == argv;
    case Redir(c, file, _) =>
      assert Refers(cmd, file);
      forall w | Refers(c, w) ensures w.eq < buf.Length { assert Refers(cmd, w); }
      NulTerminate(buf, c);
      ghost var was: string := buf[..];
      buf[file.eq] := '\0';
      assert [file][..0] == [] && Cut(was, []) == was;
    case Pipe(l, r) =>
      forall w | Refers(l, w) || Refers(r, w) ensures w.eq < buf.Length { assert Refers(cmd, w); }
      NulTerminate(buf, l);
      NulTerminate(buf, r);
    case List(l, r) =>
      forall w | Refers(l, w) || Refers(r, w) ensures w.eq < buf.Length { assert Refers(cmd, w); }
      NulTerminate(buf, l);
      NulTerminate(buf, r);
    case Back(c) =>
      forall w | Refers(c, w) ensures w.eq < buf.Length { assert Refers(cmd, w); }
      NulTerminate(buf, c);
  }
}
