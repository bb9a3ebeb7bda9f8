/** Splitting a line into white-space separated fields, as Go's
    `strings.Fields` does. */
module Strings {

  /** The characters Go's `unicode.IsSpace` reports as white space: tab, line
      feed, vertical tab, form feed, carriage return and space in ASCII; NEL and
      no-break space in Latin-1; and the other Unicode White_Space characters. */
  predicate IsSpace(c: char) {
    c == '\t' || c == '\n' || c == '\U{000B}' || c == '\U{000C}' || c == '\r' || c == ' '
    || c == '\U{0085}' || c == '\U{00A0}' || c == '\U{1680}'
    || ('\U{2000}' <= c <= '\U{200A}')
    || c == '\U{2028}' || c == '\U{2029}' || c == '\U{202F}' || c == '\U{205F}' || c == '\U{3000}'
  }

  predicate NoSpace(w: string) {
    forall i :: 0 <= i < |w| ==> !IsSpace(w[i])
  }

  predicate AllSpace(s: string) {
    forall i :: 0 <= i < |s| ==> IsSpace(s[i])
  }

  /** What `strings.Fields` can return as one field: non-empty, no white space. */
  predicate IsField(w: string) {
    w != [] && NoSpace(w)
  }

  /** The length of the longest prefix of `s` without white space. */
  function WordLen(s: string): (n: nat)
    ensures n <= |s|
    ensures n < |s| ==> IsSpace(s[n])
    ensures s != [] && !IsSpace(s[0]) ==> n > 0
  {
    if s == [] || IsSpace(s[0]) then 0 else 1 + WordLen(s[1..])
  }

  /** `s` without its leading white space. */
  function SkipSpace(s: string): (t: string)
    ensures |t| <= |s|
    ensures t == [] || !IsSpace(t[0])
  {
    if s != [] && IsSpace(s[0]) then SkipSpace(s[1..]) else s
  }

  /** The maximal runs of non-space characters of `s`, in order. */
  function Fields(s: string): (fs: seq<string>)
    ensures forall i :: 0 <= i < |fs| ==> fs[i] != []
    decreases |s|
  {
    var t := SkipSpace(s);
    if t == [] then []
    else
      var n := WordLen(t);
      [t[..n]] + Fields(t[n..])
  }

  /** The word `WordLen` measures holds no white space. */
  lemma {:induction false} WordLenNoSpace(s: string)
    ensures NoSpace(s[..WordLen(s)])
    decreases |s|
  {
    if s != [] && !IsSpace(s[0]) {
      var n := WordLen(s);
      WordLenNoSpace(s[1..]);
      assert s[..n] == [s[0]] + s[1..][..n - 1];
    }
  }

  /** `SkipSpace` drops a prefix of white space and keeps the rest as it is. */
  lemma {:induction false} SkipSpaceDropsSpace(s: string)
    ensures var t := SkipSpace(s); t == s[|s| - |t|..] && AllSpace(s[..|s| - |t|])
    decreases |s|
  {
    if s != [] && IsSpace(s[0]) {
      var t := SkipSpace(s);
      SkipSpaceDropsSpace(s[1..]);
      assert s[..|s| - |t|] == [s[0]] + s[1..][..|s| - 1 - |t|];
    }
  }

  /** Every element of `ws` can be a field. */
  predicate AllFields(ws: seq<string>) {
    forall i :: 0 <= i < |ws| ==> IsField(ws[i])
  }

  lemma AllFieldsTail(ws: seq<string>)
    requires AllFields(ws) && ws != []
    ensures IsField(ws[0]) && AllFields(ws[1..])
  {
    assert forall i :: 0 <= i < |ws| - 1 ==> ws[1..][i] == ws[i + 1];
  }

  /** Every field `Fields` returns is non-empty and free of white space. */
  lemma {:induction false} FieldsAreFields(s: string)
    ensures AllFields(Fields(s))
    decreases |s|
  {
    var t := SkipSpace(s);
    if t != [] {
      var n := WordLen(t);
      WordLenNoSpace(t);
      FieldsAreFields(t[n..]);
      var fs := Fields(s);
      assert fs == [t[..n]] + Fields(t[n..]);
      assert forall i :: 0 <= i < |fs| - 1 ==> fs[i + 1] == Fields(t[n..])[i];
    }
  }

  /** The fields joined by single spaces: the canonical way to write them on a line. */
  function Join(ws: seq<string>): string {
    if ws == [] then ""
    else if |ws| == 1 then ws[0]
    else ws[0] + " " + Join(ws[1..])
  }

  /** The characters of `s` that are not white space, in order. */
  function NonSpace(s: string): (r: string)
    ensures NoSpace(r) && |r| <= |s|
  {
    if s == [] then []
    else (if IsSpace(s[0]) then [] else [s[0]]) + NonSpace(s[1..])
  }

  function Concat(ws: seq<string>): string {
    if ws == [] then [] else ws[0] + Concat(ws[1..])
  }

  /** A line has no fields exactly when it is all white space. */
  lemma FieldsEmpty(s: string)
    ensures Fields(s) == [] <==> AllSpace(s)
  {
    var t := SkipSpace(s);
    SkipSpaceDropsSpace(s);
    if t == [] {
      assert s[..|s|] == s;
    } else {
      assert t[0] == s[|s| - |t|];
    }
  }

  lemma {:induction false} NonSpaceAppend(a: string, b: string)
    ensures NonSpace(a + b) == NonSpace(a) + NonSpace(b)
    decreases |a|
  {
    if a == [] {
      assert a + b == b;
    } else {
      assert (a + b)[1..] == a[1..] + b;
      NonSpaceAppend(a[1..], b);
    }
  }

  lemma {:induction false} NonSpaceOfAllSpace(s: string)
    requires AllSpace(s)
    ensures NonSpace(s) == []
    decreases |s|
  {
    if s != [] {
      NonSpaceOfAllSpace(s[1..]);
    }
  }

  lemma {:induction false} NonSpaceOfNoSpace(s: string)
    requires NoSpace(s)
    ensures NonSpace(s) == s
    decreases |s|
  {
    if s != [] {
      NonSpaceOfNoSpace(s[1..]);
    }
  }

  /** Leading white space contributes nothing to the non-space characters. */
  lemma NonSpaceSkip(s: string)
    ensures NonSpace(SkipSpace(s)) == NonSpace(s)
  {
    var t := SkipSpace(s);
    var k := |s| - |t|;
    SkipSpaceDropsSpace(s);
    assert s == s[..k] + t;
    NonSpaceAppend(s[..k], t);
    NonSpaceOfAllSpace(s[..k]);
  }

  /** The leading word is kept whole. */
  lemma NonSpaceWord(t: string)
    ensures NonSpace(t) == t[..WordLen(t)] + NonSpace(t[WordLen(t)..])
  {
    var n := WordLen(t);
    assert t == t[..n] + t[n..];
    NonSpaceAppend(t[..n], t[n..]);
    WordLenNoSpace(t);
    NonSpaceOfNoSpace(t[..n]);
  }

  /** Splitting keeps every non-space character and drops only white space:
      the fields, concatenated, are the line without its white space. */
  lemma {:induction false} FieldsKeepContent(s: string)
    ensures Concat(Fields(s)) == NonSpace(s)
    decreases |s|
  {
    var t := SkipSpace(s);
    NonSpaceSkip(s);
    if t != [] {
      NonSpaceWord(t);
      FieldsKeepContent(t[WordLen(t)..]);
    }
  }

  lemma {:induction false} WordLenOfField(w: string, t: string)
    requires NoSpace(w)
    requires t == [] || IsSpace(t[0])
    ensures WordLen(w + t) == |w|
    decreases |w|
  {
    if w == [] {
      assert w + t == t;
    } else {
      assert (w + t)[1..] == w[1..] + t;
      WordLenOfField(w[1..], t);
    }
  }

  /** A field followed by white space (or by nothing) is the first field. */
  lemma FieldsOfField(w: string, t: string)
    requires IsField(w)
    requires t == [] || IsSpace(t[0])
    ensures Fields(w + t) == [w] + Fields(t)
  {
    assert (w + t)[0] == w[0];
    WordLenOfField(w, t);
    assert (w + t)[..|w|] == w;
    assert (w + t)[|w|..] == t;
  }

  /** A leading space changes nothing. */
  lemma FieldsOfSpace(c: char, t: string)
    requires IsSpace(c)
    ensures Fields([c] + t) == Fields(t)
  {
    assert ([c] + t)[1..] == t;
  }

  /** A field, a space, and then anything: the field comes first. */
  lemma FieldsOfFieldSpace(w: string, rest: string)
    requires IsField(w)
    ensures Fields(w + " " + rest) == [w] + Fields(rest)
  {
    assert w + " " + rest == w + ([' '] + rest);
    FieldsOfField(w, [' '] + rest);
    FieldsOfSpace(' ', rest);
  }

  /** Joining fields with single spaces and splitting again gives the fields back. */
  lemma {:induction false} FieldsJoin(ws: seq<string>)
    requires AllFields(ws)
    ensures Fields(Join(ws)) == ws
    decreases |ws|
  {
    if ws != [] {
      AllFieldsTail(ws);
      if |ws| == 1 {
        FieldsJoinOne(ws);
      } else {
        FieldsJoin(ws[1..]);
        FieldsJoinStep(ws);
        assert [ws[0]] + ws[1..] == ws;
      }
    }
  }

  /** The base case of `FieldsJoin`: a single field is its own line. */
  lemma FieldsJoinOne(ws: seq<string>)
    requires |ws| == 1 && IsField(ws[0])
    ensures Fields(Join(ws)) == ws
  {
    FieldsOfWord(ws[0]);
  }

  /** A field on its own splits into itself. */
  lemma FieldsOfWord(w: string)
    requires IsField(w)
    ensures Fields(w) == [w]
  {
    assert w + [] == w;
    WordLenOfField(w, []);
    assert w[..|w|] == w;
    assert w[|w|..] == [];
  }

  /** One step of `FieldsJoin`: the first field, then the fields of the rest. */
  lemma FieldsJoinStep(ws: seq<string>)
    requires |ws| > 1 && IsField(ws[0])
    ensures Fields(Join(ws)) == [ws[0]] + Fields(Join(ws[1..]))
  {
    FieldsOfFieldSpace(ws[0], Join(ws[1..]));
  }

  /** A joined line starts with its first field. */
  lemma {:induction false} JoinStartsWith(ws: seq<string>)
    requires ws != [] && ws[0] != []
    ensures Join(ws) != [] && Join(ws)[0] == ws[0][0]
  {
  }
}
