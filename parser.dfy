/** The compiler from name space file text (namespace(6) of the Plan 9
    manual) to a list of commands. */
module Parser {
  import opened Ops
  import opened Strings

  /** The two ways a line can abort the parse. The Go code panics in both. */
  datatype ParseError =
    | UnknownKeyword(keyword: string)  // the first field is not an action keyword
    | NoFields(line: string)           // a line kept by the filter has no field at all

  /** Lines the parser skips: empty, a comment, or starting with a space. */
  predicate Ignored(line: string) {
    |line| == 0 || line[0] == '#' || line[0] == ' '
  }

  /** The keyword table of the parser. */
  function Keyword(kw: string): Option<Syzcall> {
    if kw == "bind" then Some(BIND)
    else if kw == "mount" then Some(MOUNT)
    else if kw == "unmount" then Some(UNMOUNT)
    else if kw == "clear" then Some(RFORK)
    else if kw == "cd" then Some(CHDIR)
    else if kw == "." then Some(INCLUDE)
    else if kw == "import" then Some(IMPORT)
    else None
  }

  /** The keyword that names an action code. */
  function KeywordName(code: Syzcall): (kw: string)
    requires IsAction(code)
    ensures kw != [] && kw[0] != '#' && kw[0] != ' ' && kw[0] != '-'
    ensures IsField(kw)
  {
    if code == BIND then "bind"
    else if code == MOUNT then "mount"
    else if code == UNMOUNT then "unmount"
    else if code == RFORK then "clear"
    else if code == CHDIR then "cd"
    else if code == INCLUDE then "."
    else "import"
  }

  /** The table recognises exactly the seven action codes, each under exactly
      one keyword: it is injective, and KeywordName is its inverse. */
  lemma KeywordTable(kw: string)
    ensures Keyword(kw).Some? ==> IsAction(Keyword(kw).value) && KeywordName(Keyword(kw).value) == kw
  {
  }

  lemma KeywordNameRoundTrip(code: Syzcall)
    requires IsAction(code)
    ensures Keyword(KeywordName(code)) == Some(code)
  {
  }

  lemma KeywordInjective(k1: string, k2: string)
    requires Keyword(k1).Some? && Keyword(k1) == Keyword(k2)
    ensures k1 == k2
  {
    KeywordTable(k1);
    KeywordTable(k2);
  }

  /** The placement bit a flag character stands for; other characters give none. */
  function LetterBit(c: char): MountFlag {
    if c == 'a' then AFTER
    else if c == 'b' then BEFORE
    else if c == 'c' then CREATE
    else if c == 'C' then CACHE
    else REPL
  }

  /** The placement a flag token gives, its characters OR-ed in from left to right. */
  function FlagOf(tok: string): MountFlag
    decreases |tok|
  {
    if tok == [] then REPL
    else FlagOf(tok[..|tok| - 1]) | LetterBit(tok[|tok| - 1])
  }

  function BitIf(b: bool, bit: MountFlag): MountFlag {
    if b then bit else REPL
  }

  /** A flag token's placement has AFTER, BEFORE, CREATE, CACHE set exactly when
      the token contains `a`, `b`, `c`, `C`; nothing else contributes. */
  lemma {:induction false} FlagOfLetters(tok: string)
    ensures FlagOf(tok) == BitIf('a' in tok, AFTER) | BitIf('b' in tok, BEFORE)
                         | BitIf('c' in tok, CREATE) | BitIf('C' in tok, CACHE)
    decreases |tok|
  {
    if tok != [] {
      var p, c := tok[..|tok| - 1], tok[|tok| - 1];
      assert tok == p + [c];
      FlagOfLetters(p);
      assert 'a' in tok <==> 'a' in p || c == 'a';
      assert 'b' in tok <==> 'b' in p || c == 'b';
      assert 'c' in tok <==> 'c' in p || c == 'c';
      assert 'C' in tok <==> 'C' in p || c == 'C';
    }
  }

  /** The placement depends only on which flag letters occur: not on their
      order, their repetition or any other character. */
  lemma FlagOfLettersOnly(s: string, t: string)
    requires ('a' in s <==> 'a' in t) && ('b' in s <==> 'b' in t)
    requires ('c' in s <==> 'c' in t) && ('C' in s <==> 'C' in t)
    ensures FlagOf(s) == FlagOf(t)
  {
    FlagOfLetters(s);
    FlagOfLetters(t);
  }

  /** Whatever the token, only the bits in PLACEMENT_BITS (0x17) can be set. */
  lemma FlagOfIsPlacement(tok: string)
    ensures IsPlacement(FlagOf(tok))
  {
    FlagOfLetters(tok);
  }

  /** A token without flag letters, such as a bare `-`, gives REPL. */
  lemma FlagOfNoLetters(tok: string)
    requires 'a' !in tok && 'b' !in tok && 'c' !in tok && 'C' !in tok
    ensures FlagOf(tok) == REPL
  {
    FlagOfLetters(tok);
  }

  /** What one line compiles to. The flag token is the field right after the
      keyword, and only when it starts with `-`; every later field is an operand. */
  function LineCmd(line: string): Result<Cmd, ParseError> {
    var fs := Fields(line);
    if fs == [] then Err(NoFields(line))
    else match Keyword(fs[0])
      case None => Err(UnknownKeyword(fs[0]))
      case Some(code) =>
        if |fs| > 1 && fs[1][0] == '-' then Ok(Cmd(code, FlagOf(fs[1]), fs[2..]))
        else Ok(Cmd(code, REPL, fs[1..]))
  }

  /** A line fails to compile for exactly two reasons: it has no field at all
      (it is white space only), or its first field is not a keyword. */
  lemma LineCmdErrors(line: string)
    ensures LineCmd(line) == Err(NoFields(line)) <==> AllSpace(line)
    ensures LineCmd(line).Err? <==> AllSpace(line) || Keyword(Fields(line)[0]).None?
    ensures !AllSpace(line) && Keyword(Fields(line)[0]).None? ==> LineCmd(line) == Err(UnknownKeyword(Fields(line)[0]))
  {
    FieldsEmpty(line);
  }

  /** A line holding only a tab is kept by the filter, whose test reads only
      the first byte, yet has no field for the keyword to be popped from. */
  lemma TabLineHasNoFields()
    ensures !Ignored("\t") && LineCmd("\t") == Err(NoFields("\t"))
  {
    FieldsEmpty("\t");
  }

  /** What a compiled line is: a known action named by the first field, a
      placement within 0x17 read from the flag token, and operands that are the fields after the keyword
      and the optional flag token, in order, none of them empty. */
  lemma LineCmdOk(line: string)
    requires LineCmd(line).Ok?
    ensures var c, fs := LineCmd(line).value, Fields(line);
      IsAction(c.syscall) && KeywordName(c.syscall) == fs[0]
      && IsPlacement(c.flag)
      && (forall i :: 0 <= i < |c.args| ==> IsField(c.args[i]))
      && (if |fs| > 1 && fs[1][0] == '-' then c.args == fs[2..] && c.flag == FlagOf(fs[1]) else c.args == fs[1..] && c.flag == REPL)
  {
    var fs := Fields(line);
    FieldsAreFields(line);
    KeywordTable(fs[0]);
    if |fs| > 1 && fs[1][0] == '-' {
      FlagOfIsPlacement(fs[1]);
    }
  }

  /** Compile one line: split it, pop the keyword, pop and decode an optional
      flag token character by character, keep the rest as operands. */
  method ParseLine(line: string) returns (r: Result<Cmd, ParseError>)
    ensures r == LineCmd(line)
  {
    var args := Fields(line);
    if |args| == 0 {
      // popping the keyword from an empty slice: an index-out-of-range panic in Go
      return Err(NoFields(line));
    }
    var arg := args[0];
    args := args[1..];
    var code: Syzcall;
    if arg == "bind" {
      code := BIND;
    } else if arg == "mount" {
      code := MOUNT;
    } else if arg == "unmount" {
      code := UNMOUNT;
    } else if arg == "clear" {
      code := RFORK;
    } else if arg == "cd" {
      code := CHDIR;
    } else if arg == "." {
      code := INCLUDE;
    } else if arg == "import" {
      code := IMPORT;
    } else {
      return Err(UnknownKeyword(arg));
    }
    var flag := REPL;
    if |args| > 0 && args[0][0] == '-' {
      arg := args[0];
      args := args[1..];
      flag := ParseFlag(arg);
    }
    return Ok(Cmd(code, flag, args));
  }

  /** Decode a flag token one character at a time, OR-ing in the bit of each
      flag letter and skipping every other character. */
  method ParseFlag(tok: string) returns (flag: MountFlag)
    ensures flag == FlagOf(tok)
  {
    flag := REPL;
    var arg := tok;
    while |arg| > 0
      invariant |arg| <= |tok| && arg == tok[|tok| - |arg|..]
      invariant flag == FlagOf(tok[..|tok| - |arg|])
      decreases |arg|
    {
      ghost var done := tok[..|tok| - |arg|];
      var ch := arg[0];
      arg := arg[1..];
      assert tok[..|tok| - |arg|] == done + [ch];
      assert (done + [ch])[..|done|] == done;
      if ch == 'a' {
        flag := flag | AFTER;
      } else if ch == 'b' {
        flag := flag | BEFORE;
      } else if ch == 'c' {
        flag := flag | CREATE;
      } else if ch == 'C' {
        flag := flag | CACHE;
      }
    }
    assert tok[..|tok|] == tok;
  }

  /** What a sequence of lines compiles to: one command per line that is not
      ignored, in order, or the error of the first line that fails. */
  function ParseLines(lines: seq<string>): Result<File, ParseError>
    decreases |lines|
  {
    if lines == [] then Ok([])
    else
      var line := lines[|lines| - 1];
      match ParseLines(lines[..|lines| - 1])
      case Err(e) => Err(e)
      case Ok(f) =>
        if Ignored(line) then Ok(f)
        else match LineCmd(line)
          case Err(e) => Err(e)
          case Ok(c) => Ok(f + [c])
  }

  /** One more line that is kept and compiles adds its command at the end. */
  lemma ParseLinesSnoc(lines: seq<string>, line: string, f: File, c: Cmd)
    requires ParseLines(lines) == Ok(f) && !Ignored(line) && LineCmd(line) == Ok(c)
    ensures ParseLines(lines + [line]) == Ok(f + [c])
  {
    assert (lines + [line])[..|lines|] == lines;
  }

  /** The lines that are not ignored, in order. */
  function Kept(lines: seq<string>): (r: seq<string>)
    ensures |r| <= |lines|
    ensures forall i :: 0 <= i < |r| ==> !Ignored(r[i]) && r[i] in lines
    ensures forall l :: l in lines && !Ignored(l) ==> l in r
    decreases |lines|
  {
    if lines == [] then []
    else
      var p := lines[..|lines| - 1];
      assert lines == p + [lines[|lines| - 1]];
      Kept(p) + (if Ignored(lines[|lines| - 1]) then [] else [lines[|lines| - 1]])
  }

  /** Compiling two blocks of lines one after the other. */
  function Then(a: Result<File, ParseError>, b: Result<File, ParseError>): Result<File, ParseError> {
    match a
    case Err(e) => Err(e)
    case Ok(f) =>
      match b
      case Err(e) => Err(e)
      case Ok(g) => Ok(f + g)
  }

  /** Compiling is line by line: the commands of `a + b` are those of `a`
      followed by those of `b`, and an error in `a` hides everything in `b`. */
  lemma {:induction false} ParseLinesAppend(a: seq<string>, b: seq<string>)
    ensures ParseLines(a + b) == Then(ParseLines(a), ParseLines(b))
    decreases |b|
  {
    if b == [] {
      assert a + b == a;
      match ParseLines(a)
      case Err(_) =>
      case Ok(f) => assert f + [] == f;
    } else {
      var b', l := b[..|b| - 1], b[|b| - 1];
      assert (a + b)[..|a + b| - 1] == a + b';
      assert (a + b)[|a + b| - 1] == l;
      ParseLinesAppend(a, b');
      match ParseLines(a)
      case Err(_) =>
      case Ok(f) =>
        match ParseLines(b')
        case Err(_) =>
        case Ok(g) =>
          if !Ignored(l) && LineCmd(l).Ok? {
            assert f + (g + [LineCmd(l).value]) == (f + g) + [LineCmd(l).value];
          }
    }
  }

  /** Once a prefix fails, the whole input fails with the same error. */
  lemma ParseLinesPrefixError(lines: seq<string>, k: nat)
    requires k <= |lines| && ParseLines(lines[..k]).Err?
    ensures ParseLines(lines) == ParseLines(lines[..k])
  {
    assert lines == lines[..k] + lines[k..];
    ParseLinesAppend(lines[..k], lines[k..]);
  }

  /** Every one of `ls` compiles on its own. */
  predicate AllCompile(ls: seq<string>) {
    forall k :: 0 <= k < |ls| ==> LineCmd(ls[k]).Ok?
  }

  lemma AllCompileAppend(a: seq<string>, b: seq<string>)
    ensures AllCompile(a + b) <==> AllCompile(a) && AllCompile(b)
  {
    assert forall k :: 0 <= k < |a| ==> (a + b)[k] == a[k];
    assert forall k :: 0 <= k < |b| ==> (a + b)[|a| + k] == b[k];
  }

  /** The parse succeeds exactly when every line that is not ignored compiles. */
  lemma {:induction false} ParseLinesOk(lines: seq<string>)
    ensures ParseLines(lines).Ok? <==> AllCompile(Kept(lines))
    decreases |lines|
  {
    if lines != [] {
      var p, l := lines[..|lines| - 1], lines[|lines| - 1];
      ParseLinesOk(p);
      var tail := if Ignored(l) then [] else [l];
      assert Kept(lines) == Kept(p) + tail;
      AllCompileAppend(Kept(p), tail);
    }
  }

  /** Every line that is not ignored yields exactly one command, in source
      order; ignored lines yield none. */
  lemma {:induction false} ParseLinesCommands(lines: seq<string>)
    requires ParseLines(lines).Ok?
    ensures |ParseLines(lines).value| == |Kept(lines)|
    ensures forall k :: 0 <= k < |Kept(lines)| ==>
              LineCmd(Kept(lines)[k]) == Ok(ParseLines(lines).value[k])
    decreases |lines|
  {
    if lines != [] {
      var p, l := lines[..|lines| - 1], lines[|lines| - 1];
      ParseLinesCommands(p);
      var kp, fp := Kept(p), ParseLines(p).value;
      assert Kept(lines) == kp + (if Ignored(l) then [] else [l]);
      if !Ignored(l) {
        var f := ParseLines(lines).value;
        assert f == fp + [LineCmd(l).value];
        forall k | 0 <= k < |Kept(lines)|
          ensures LineCmd(Kept(lines)[k]) == Ok(f[k])
        {
          if k < |kp| {
            assert Kept(lines)[k] == kp[k] && f[k] == fp[k];
          } else {
            assert Kept(lines)[k] == l;
          }
        }
      }
    }
  }

  /** When the kept line number `k` is the first that fails, the parse fails
      with its error. */
  lemma {:induction false} ParseLinesFirstError(lines: seq<string>, k: nat)
    requires k < |Kept(lines)| && LineCmd(Kept(lines)[k]).Err?
    requires AllCompile(Kept(lines)[..k])
    ensures ParseLines(lines) == Err(LineCmd(Kept(lines)[k]).error)
    decreases |lines|
  {
    var p, l := lines[..|lines| - 1], lines[|lines| - 1];
    var kp, tail := Kept(p), if Ignored(l) then [] else [l];
    assert Kept(lines) == kp + tail;
    if k < |kp| {
      assert Kept(lines)[k] == kp[k];
      assert Kept(lines)[..k] == kp[..k];
      ParseLinesFirstError(p, k);
    } else {
      assert Kept(lines)[..k] == kp;
      ParseLinesOk(p);
    }
  }

  /** A file of comments, blank lines and space-led lines compiles to no command. */
  lemma OnlyIgnoredLines(lines: seq<string>)
    requires forall i :: 0 <= i < |lines| ==> Ignored(lines[i])
    ensures ParseLines(lines) == Ok([])
  {
    ParseLinesOk(lines);
    ParseLinesCommands(lines);
  }

  /** Compile the lines a scanner delivered. `scanFailed` says the scanner
      stopped on a read error after those lines; the Go code only reports it, so
      it changes nothing in the result. */
  method Parse(lines: seq<string>, scanFailed: bool) returns (r: Result<File, ParseError>)
    ensures r == ParseLines(lines)
  {
    var cmds: File := [];
    var i := 0;
    while i < |lines|
      invariant 0 <= i <= |lines|
      invariant ParseLines(lines[..i]) == Ok(cmds)
    {
      var buf := lines[i];
      i := i + 1;
      assert lines[..i][..i - 1] == lines[..i - 1];
      if |buf| <= 0 {
        continue;
      }
      if buf[0] == '#' || buf[0] == ' ' {
        continue;
      }
      var c := ParseLine(buf);
      if c.Err? {
        ParseLinesPrefixError(lines, i);
        return Err(c.error);
      }
      cmds := cmds + [c.value];
    }
    assert lines[..i] == lines;
    return Ok(cmds);
  }

  /** Worked tokens: letter order and repetition do not matter, unknown
      letters are ignored, and a bare `-` is REPL. */
  lemma ExampleFlagTokens()
    ensures FlagOf("-ab") == FlagOf("-ba") == FlagOf("-aab") == BEFORE | AFTER
    ensures FlagOf("-az") == AFTER
    ensures FlagOf("-") == REPL
  {
    FlagOfLetters("-ab");
    FlagOfLetters("-ba");
    FlagOfLetters("-aab");
    FlagOfLetters("-az");
  }
}
