/** Writing commands back as name space file lines, in a canonical form that
    the parser reads back to the same commands. */
module Render {
  import opened Ops
  import opened Strings
  import opened Parser

  /** What the parser can produce: a known action, a placement within 0x17,
      and operands that are fields. */
  predicate WellFormed(c: Cmd) {
    IsAction(c.syscall) && IsPlacement(c.flag)
    && forall i :: 0 <= i < |c.args| ==> IsField(c.args[i])
  }

  /** The flag letters of a placement, in the canonical order `a b c C`. */
  function FlagLetters(f: MountFlag): string {
    (if f & AFTER != 0 then "a" else "") + (if f & BEFORE != 0 then "b" else "")
    + (if f & CREATE != 0 then "c" else "") + (if f & CACHE != 0 then "C" else "")
  }

  /** A flag token is written when the placement is not REPL, or when the first
      operand starts with `-` and would otherwise be read as the flag token. */
  predicate NeedsFlagToken(c: Cmd) {
    c.flag != REPL || (c.args != [] && c.args[0] != [] && c.args[0][0] == '-')
  }

  function CmdFields(c: Cmd): seq<string>
    requires IsAction(c.syscall)
  {
    [KeywordName(c.syscall)] + (if NeedsFlagToken(c) then ["-" + FlagLetters(c.flag)] else []) + c.args
  }

  /** The line `keyword [-flags] operands...` for a command. */
  function CmdLine(c: Cmd): string
    requires IsAction(c.syscall)
  {
    Join(CmdFields(c))
  }

  function FileLines(cs: File): seq<string>
    requires forall i :: 0 <= i < |cs| ==> WellFormed(cs[i])
  {
    if cs == [] then []
    else
      assert WellFormed(cs[|cs| - 1]);
      FileLines(cs[..|cs| - 1]) + [CmdLine(cs[|cs| - 1])]
  }

  /** The canonical token holds a flag letter exactly when its bit is set. */
  lemma FlagLettersHold(f: MountFlag)
    ensures var tok := "-" + FlagLetters(f);
      ('a' in tok <==> f & AFTER != 0) && ('b' in tok <==> f & BEFORE != 0)
      && ('c' in tok <==> f & CREATE != 0) && ('C' in tok <==> f & CACHE != 0)
  {
  }

  /** Reading the canonical flag token of a placement gives the placement back. */
  lemma FlagTokenRoundTrip(f: MountFlag)
    requires IsPlacement(f)
    ensures FlagOf("-" + FlagLetters(f)) == f
  {
    var tok := "-" + FlagLetters(f);
    FlagOfLetters(tok);
    FlagLettersHold(f);
    assert f == BitIf(f & AFTER != 0, AFTER) | BitIf(f & BEFORE != 0, BEFORE)
              | BitIf(f & CREATE != 0, CREATE) | BitIf(f & CACHE != 0, CACHE);
  }

  lemma CmdFieldsAreFields(c: Cmd)
    requires WellFormed(c)
    ensures AllFields(CmdFields(c))
  {
    var tok := "-" + FlagLetters(c.flag);
    assert forall i :: 0 <= i < |tok| ==> tok[i] in "-abcC";
    assert IsField(tok);
  }

  /** A canonical line is not ignored and compiles back to its command. */
  lemma CmdLineRoundTrip(c: Cmd)
    requires WellFormed(c)
    ensures !Ignored(CmdLine(c))
    ensures LineCmd(CmdLine(c)) == Ok(c)
  {
    var fs := CmdFields(c);
    CmdFieldsAreFields(c);
    FieldsJoin(fs);
    JoinStartsWith(fs);
    assert Fields(CmdLine(c)) == fs;
    KeywordNameRoundTrip(c.syscall);
    assert Keyword(fs[0]) == Some(c.syscall);
    if NeedsFlagToken(c) {
      FlagTokenRoundTrip(c.flag);
      assert fs[1] == "-" + FlagLetters(c.flag);
      assert fs[2..] == c.args;
    } else {
      assert fs[1..] == c.args;
    }
  }

  /** Every command the parser produces is well formed. */
  lemma ParsedIsWellFormed(line: string)
    requires LineCmd(line).Ok?
    ensures WellFormed(LineCmd(line).value)
  {
    LineCmdOk(line);
  }

  /** Writing a file of well-formed commands and parsing it gives the commands back. */
  lemma {:induction false} FileRoundTrip(cs: File)
    requires forall i :: 0 <= i < |cs| ==> WellFormed(cs[i])
    ensures ParseLines(FileLines(cs)) == Ok(cs)
    decreases |cs|
  {
    if cs != [] {
      var p, c := cs[..|cs| - 1], cs[|cs| - 1];
      assert WellFormed(c);
      FileRoundTrip(p);
      CmdLineRoundTrip(c);
      ParseLinesSnoc(FileLines(p), CmdLine(c), p, c);
      assert p + [c] == cs;
    }
  }

  /** Parsing, writing the result out canonically and parsing again changes nothing. */
  lemma ReparseIsIdentity(lines: seq<string>)
    requires ParseLines(lines).Ok?
    ensures var f := ParseLines(lines).value;
      (forall i :: 0 <= i < |f| ==> WellFormed(f[i])) && ParseLines(FileLines(f)) == Ok(f)
  {
    var f := ParseLines(lines).value;
    ParseLinesCommands(lines);
    forall i | 0 <= i < |f|
      ensures WellFormed(f[i])
    {
      ParsedIsWellFormed(Kept(lines)[i]);
    }
    FileRoundTrip(f);
  }
}
