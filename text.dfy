/** The handful of Python `str` operations the bot relies on: `strip()`,
    `split()` with no separator, and `"\n".join(...)`, over `seq<char>`. */
module Text {

  /** Python's `str.isspace` restricted to the ASCII range. */
  predicate IsSpace(c: char) {
    c == ' ' || c == '\t' || c == '\n' || c == '\r' || c == '\U{000B}' || c == '\U{000C}'
    || c == '\U{001C}' || c == '\U{001D}' || c == '\U{001E}' || c == '\U{001F}'
  }

  predicate AllSpace(s: string) {
    forall k :: 0 <= k < |s| ==> IsSpace(s[k])
  }

  predicate NoSpace(s: string) {
    forall k :: 0 <= k < |s| ==> !IsSpace(s[k])
  }

  /** `s.lstrip()`: the suffix left after dropping leading whitespace. */
  function LStrip(s: string): (r: string)
    ensures |r| <= |s| && r == s[|s| - |r|..]
    ensures AllSpace(s[..|s| - |r|])
    ensures r == [] || !IsSpace(r[0])
  {
    if s != [] && IsSpace(s[0]) then LStrip(s[1..]) else s
  }

  /** `s.rstrip()`: the prefix left after dropping trailing whitespace. */
  function RStrip(s: string): (r: string)
    ensures |r| <= |s| && r == s[..|r|]
    ensures AllSpace(s[|r|..])
    ensures r == [] || !IsSpace(r[|r| - 1])
  {
    if s != [] && IsSpace(s[|s| - 1]) then RStrip(s[..|s| - 1]) else s
  }

  /** `r` is `s` with whitespace-only runs cut from both ends. */
  predicate Trimmed(s: string, r: string) {
    exists i | 0 <= i <= |s| - |r| ::
      r == s[i..i + |r|] && AllSpace(s[..i]) && AllSpace(s[i + |r|..])
  }

  /** `s.strip()`: a slice of `s` with neither leading nor trailing
      whitespace; empty exactly when `s` is all whitespace. */
  function Strip(s: string): (r: string)
    ensures |r| <= |s|
    ensures r == [] || (!IsSpace(r[0]) && !IsSpace(r[|r| - 1]))
    ensures r == [] <==> AllSpace(s)
  {
    var t := RStrip(s);
    var r := LStrip(t);
    StripParts(s, t, r);
    r
  }

  lemma StripParts(s: string, t: string, r: string)
    requires t == RStrip(s) && r == LStrip(t)
    ensures r == [] || (!IsSpace(r[0]) && !IsSpace(r[|r| - 1]))
    ensures r == [] <==> AllSpace(s)
  {
    if r == [] {
      assert t[..|t|] == t;
      assert s == t + s[|t|..];
      AllSpaceConcat(t, s[|t|..]);
    } else {
      assert r[|r| - 1] == t[|t| - 1];
      assert r[0] == s[|t| - |r|];
    }
  }

  /** What `.strip()` cuts from either end is whitespace and nothing
      else: the result is a slice of the input. */
  lemma StripTrims(s: string)
    ensures Trimmed(s, Strip(s))
  {
    var t := RStrip(s);
    var r := LStrip(t);
    var i := |t| - |r|;
    assert s[..i] == t[..i];
    assert r == s[i..i + |r|];
    assert s[i + |r|..] == s[|t|..];
  }

  lemma AllSpaceConcat(a: string, b: string)
    requires AllSpace(a) && AllSpace(b)
    ensures AllSpace(a + b)
  {
    forall k | 0 <= k < |a + b| ensures IsSpace((a + b)[k]) {
      if k >= |a| { assert (a + b)[k] == b[k - |a|]; }
    }
  }

  /** Stripping is idempotent: a stripped string is its own strip. */
  lemma {:induction false} StripIdempotent(s: string)
    ensures Strip(Strip(s)) == Strip(s)
  {
    var r := Strip(s);
    if r != [] {
      assert !IsSpace(r[|r| - 1]) && !IsSpace(r[0]);
      assert RStrip(r) == r;
      assert LStrip(r) == r;
    }
  }

  /** Number of leading non-whitespace characters. */
  function TokenLen(s: string): (n: nat)
    ensures n <= |s|
    ensures NoSpace(s[..n])
    ensures n == |s| || IsSpace(s[n])
    ensures s != [] && !IsSpace(s[0]) ==> n > 0
  {
    if s == [] || IsSpace(s[0]) then 0 else 1 + TokenLen(s[1..])
  }

  /** A token `split()` can produce: non-empty, without whitespace. */
  predicate IsWord(w: string) {
    w != [] && NoSpace(w)
  }

  /** `s.split()`: the maximal runs of non-whitespace characters, in order. */
  function Words(s: string): (ws: seq<string>)
    ensures forall i :: 0 <= i < |ws| ==> IsWord(ws[i])
    decreases |s|
  {
    var t := LStrip(s);
    if t == [] then []
    else
      var n := TokenLen(t);
      var rest := Words(t[n..]);
      WordsCons(t[..n], rest);
      [t[..n]] + rest
  }

  lemma WordsCons(w: string, rest: seq<string>)
    requires IsWord(w)
    requires forall i :: 0 <= i < |rest| ==> IsWord(rest[i])
    ensures forall i :: 0 <= i < |[w] + rest| ==> IsWord(([w] + rest)[i])
  {
    forall i | 0 <= i < |[w] + rest| ensures IsWord(([w] + rest)[i]) {
      if i > 0 { assert ([w] + rest)[i] == rest[i - 1]; }
    }
  }

  /** `split()` yields no word exactly when the string is all whitespace. */
  lemma WordsEmpty(s: string)
    ensures Words(s) == [] <==> AllSpace(s)
  {
    var t := LStrip(s);
    if t == [] {
      assert s[..|s|] == s;
    } else {
      assert s[|s| - |t|] == t[0];
    }
  }

  /** The first word of a string that starts with a non-space character is
      its maximal non-space prefix, and the remaining words are the words of
      what follows it. */
  lemma FirstWord(s: string)
    requires s != [] && !IsSpace(s[0])
    ensures Words(s) != []
    ensures Words(s)[0] == s[..TokenLen(s)]
    ensures Words(s)[1..] == Words(s[TokenLen(s)..])
  {
  }

  /** `"\n".join(parts)`. */
  function JoinLines(parts: seq<string>): (r: string)
  {
    if parts == [] then ""
    else if |parts| == 1 then parts[0]
    else parts[0] + "\n" + JoinLines(parts[1..])
  }

  /** Index of the first newline, or `|s|` when there is none. */
  function LineEnd(s: string): (n: nat)
    ensures n <= |s|
    ensures forall k :: 0 <= k < n ==> s[k] != '\n'
    ensures n < |s| ==> s[n] == '\n'
  {
    if s == [] || s[0] == '\n' then 0 else 1 + LineEnd(s[1..])
  }

  /** `s.split("\n")`: the pieces between newlines (never empty). */
  function SplitLines(s: string): (r: seq<string>)
    ensures r != []
    ensures forall i :: 0 <= i < |r| ==> '\n' !in r[i]
    decreases |s|
  {
    var n := LineEnd(s);
    if n == |s| then
      assert '\n' !in s by { assert s[..n] == s; }
      [s]
    else
      assert '\n' !in s[..n];
      [s[..n]] + SplitLines(s[n + 1..])
  }

  /** Joining newline-free lines and splitting the result again gives the
      lines back: the newline-joined text loses no line. */
  lemma {:induction false} SplitJoinLines(parts: seq<string>)
    requires parts != []
    requires forall i :: 0 <= i < |parts| ==> '\n' !in parts[i]
    ensures SplitLines(JoinLines(parts)) == parts
  {
    var p := parts[0];
    if |parts| == 1 {
      assert LineEnd(p) == |p| by { LineEndNoNewline(p); }
    } else {
      var rest := JoinLines(parts[1..]);
      var s := p + "\n" + rest;
      assert LineEnd(s) == |p| by { LineEndPrefix(p, rest); }
      assert s[..|p|] == p;
      assert s[|p| + 1..] == rest;
      SplitJoinLines(parts[1..]);
    }
  }

  lemma {:induction false} LineEndNoNewline(s: string)
    requires '\n' !in s
    ensures LineEnd(s) == |s|
  {
    if s != [] {
      assert s[0] != '\n';
      assert '\n' !in s[1..];
      LineEndNoNewline(s[1..]);
    }
  }

  lemma {:induction false} LineEndPrefix(p: string, rest: string)
    requires '\n' !in p
    ensures LineEnd(p + "\n" + rest) == |p|
  {
    if p != [] {
      assert (p + "\n" + rest)[1..] == p[1..] + "\n" + rest;
      assert '\n' !in p[1..];
      LineEndPrefix(p[1..], rest);
    }
  }
}
