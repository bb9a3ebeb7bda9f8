/** The pieces of the Plan 9 name space implementation that are plain
    computation: C-string truncation and the argument vector of `import`. */
module Plan9 {
  import opened Ops
  import Parser

  newtype Byte = b: int | 0 <= b < 0x100

  /** The bytes of `s` before its first NUL, or all of `s` if it has none. */
  method CString(s: seq<Byte>) returns (r: seq<Byte>)
    ensures |r| <= |s| && r == s[..|r|]
    ensures 0 !in r
    ensures |r| < |s| ==> s[|r|] == 0
  {
    for i := 0 to |s|
      invariant forall k :: 0 <= k < i ==> s[k] != 0
    {
      if s[i] == 0 {
        return s[0..i];
      }
    }
    return s;
  }

  /** The placement bits that `import` passes on as option letters. */
  const IMPORT_BITS: MountFlag := AFTER | BEFORE | CREATE

  /** `w` is the option word of `import` for `flag`: it holds `a` when AFTER is
      set, `b` when BEFORE is, `c` when CREATE is, nothing else, in that order. */
  predicate IsFlagWord(flag: MountFlag, w: string) {
    ('a' in w <==> flag & AFTER != 0)
    && ('b' in w <==> flag & BEFORE != 0)
    && ('c' in w <==> flag & CREATE != 0)
    && (forall i :: 0 <= i < |w| ==> 'a' <= w[i] <= 'c')
    && (forall i, j :: 0 <= i < j < |w| ==> w[i] < w[j])
  }

  /** The argument vector `import` is run with: an optional option word, the
      host, the remote path when it is not empty, then the mount point. */
  method ImportArgv(host: string, remotepath: string, mountpoint: string, flag: MountFlag) returns (args: seq<string>)
    ensures var w := if flag & IMPORT_BITS != 0 then 1 else 0;
      |args| == w + 2 + (if remotepath != "" then 1 else 0)
      && args[w] == host
      && (remotepath != "" ==> args[w + 1] == remotepath)
      && args[|args| - 1] == mountpoint
      && (w == 1 ==> args[0] != "" && IsFlagWord(flag, args[0]))
  {
    args := [host];
    if remotepath != "" {
      args := args + [remotepath];
    }
    args := args + [mountpoint];
    var flg := "";
    if flag & AFTER != 0 {
      flg := flg + "a";
    }
    if flag & BEFORE != 0 {
      flg := flg + "b";
    }
    if flag & CREATE != 0 {
      flg := flg + "c";
    }
    if |flg| > 0 {
      args := [flg] + args;
    }
  }

  /** The option word is determined by the flag: two words that both fit it are equal. */
  lemma FlagWordUnique(flag: MountFlag, w1: string, w2: string)
    requires IsFlagWord(flag, w1) && IsFlagWord(flag, w2)
    ensures w1 == w2
  {
    SortedLetters(w1);
    SortedLetters(w2);
  }

  /** An increasing word over `a b c` is fixed by which of the letters it holds. */
  lemma SortedLetters(w: string)
    requires forall i :: 0 <= i < |w| ==> 'a' <= w[i] <= 'c'
    requires forall i, j :: 0 <= i < j < |w| ==> w[i] < w[j]
    ensures w == (if 'a' in w then "a" else "") + (if 'b' in w then "b" else "") + (if 'c' in w then "c" else "")
  {
    if w != [] {
      IncreasingLength(w);
    }
    if |w| == 3 {
      assert w[0] < w[1] < w[2];
    } else if |w| == 2 {
      assert w[0] < w[1];
    }
  }

  /** An increasing word over `a b c` has at most as many letters as remain
      from its first one to `c`. */
  lemma {:induction false} IncreasingLength(w: string)
    requires w != []
    requires forall i :: 0 <= i < |w| ==> 'a' <= w[i] <= 'c'
    requires forall i, j :: 0 <= i < j < |w| ==> w[i] < w[j]
    ensures |w| + w[0] as int <= 'c' as int + 1
    decreases |w|
  {
    if |w| > 1 {
      assert w[0] < w[1];
      IncreasingLength(w[1..]);
    }
  }

  /** CACHE never reaches the option word, and neither does any bit outside
      AFTER, BEFORE and CREATE. */
  lemma FlagWordIgnoresOtherBits(flag: MountFlag, w: string)
    ensures IsFlagWord(flag, w) <==> IsFlagWord(flag & IMPORT_BITS, w)
    ensures IsFlagWord(flag, w) <==> IsFlagWord(flag | CACHE, w)
  {
  }

  /** The option word is never a `-` token, and is empty exactly when none of
      AFTER, BEFORE, CREATE is set. */
  lemma FlagWordShape(flag: MountFlag, w: string)
    requires IsFlagWord(flag, w)
    ensures '-' !in w && |w| <= 3
    ensures w == [] <==> flag & IMPORT_BITS == 0
  {
    SortedLetters(w);
  }

  /** Read as a flag token of a name space file, the option word gives back the
      placement without CACHE: both use the same letters for the same bits. */
  lemma FlagWordAgreesWithParser(flag: MountFlag, w: string)
    requires IsFlagWord(flag, w)
    ensures Parser.FlagOf(w) == flag & IMPORT_BITS
  {
    Parser.FlagOfLetters(w);
    assert 'C' !in w;
  }
}
