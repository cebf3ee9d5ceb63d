/** The cleaning api/app.py applies to a model's answer before it is
    posted (lines 185-194): `<think>…</think>` spans go (across lines,
    shortest match), then `<at…</at>` spans (within one line, shortest
    match), then surrounding whitespace, and an empty result becomes a
    fixed fallback sentence. */
module ReplyText {
  import opened Wrappers
  import Text

  const ThinkOpen := "<think>"
  const ThinkClose := "</think>"
  const AtOpen := "<at"
  const AtClose := "</at>"
  const Fallback := "I'm not sure how to respond to that."

  /** `p` occurs in `s` starting at index `i`. */
  predicate At(s: string, i: nat, p: string) {
    i + |p| <= |s| && s[i..i + |p|] == p
  }

  /** The first index at or after `from` where `p` occurs. */
  function Find(s: string, p: string, from: nat): (r: Option<nat>)
    ensures r.Some? ==> from <= r.value && At(s, r.value, p)
    decreases |s| - from
  {
    if |s| < from + |p| then None
    else if At(s, from, p) then Some(from)
    else Find(s, p, from + 1)
  }

  /** `Find` answers with the first occurrence, and with none only when
      there is none. */
  lemma {:induction false} FindFirst(s: string, p: string, from: nat)
    ensures Find(s, p, from).Some? ==> forall k | from <= k < Find(s, p, from).value :: !At(s, k, p)
    ensures Find(s, p, from).None? ==> forall k | from <= k :: !At(s, k, p)
    decreases |s| - from
  {
    if |s| >= from + |p| && !At(s, from, p) {
      FindFirst(s, p, from + 1);
    }
  }

  /** Occurrences of `p` in a suffix of `s` are occurrences in `s`,
      shifted by the length of what was dropped. */
  lemma AtDrop(s: string, d: nat, i: nat, p: string)
    requires d <= |s|
    ensures At(s[d..], i, p) <==> At(s, d + i, p)
  {
    if i + |p| <= |s[d..]| {
      assert s[d..][i..i + |p|] == s[d + i..d + i + |p|];
    }
  }

  /** `re.sub(r'<think>.*?</think>', '', s, flags=re.DOTALL)`: scanning
      left to right, an opening tag that has a closing tag somewhere after
      it is removed together with everything up to the first such closing
      tag; an opening tag with no closing tag after it stays. */
  function StripThink(s: string): (r: string)
    ensures |r| <= |s|
    decreases |s|
  {
    if s == [] then []
    else if At(s, 0, ThinkOpen) then
      match Find(s, ThinkClose, |ThinkOpen|)
      case Some(j) => StripThink(s[j + |ThinkClose|..])
      case None => [s[0]] + StripThink(s[1..])
    else [s[0]] + StripThink(s[1..])
  }

  /** `re.sub(r'<at.*?</at>', '', s)`: as `StripThink`, but `.` does not
      match a newline, so the span must close before the next newline. */
  function StripAt(s: string): (r: string)
    ensures |r| <= |s|
    decreases |s|
  {
    if s == [] then []
    else if At(s, 0, AtOpen) then
      match Find(s, AtClose, |AtOpen|)
      case Some(j) =>
        if '\n' in s[|AtOpen|..j] then [s[0]] + StripAt(s[1..])
        else StripAt(s[j + |AtClose|..])
      case None => [s[0]] + StripAt(s[1..])
    else [s[0]] + StripAt(s[1..])
  }

  /** Text with no opening tag passes through unchanged. */
  lemma {:induction false} StripThinkNoTag(s: string)
    requires forall k | 0 <= k < |s| :: !At(s, k, ThinkOpen)
    ensures StripThink(s) == s
    decreases |s|
  {
    if s != [] {
      forall k | 0 <= k < |s[1..]| ensures !At(s[1..], k, ThinkOpen) {
        AtDrop(s, 1, k, ThinkOpen);
      }
      StripThinkNoTag(s[1..]);
    }
  }

  lemma {:induction false} StripAtNoTag(s: string)
    requires forall k | 0 <= k < |s| :: !At(s, k, AtOpen)
    ensures StripAt(s) == s
    decreases |s|
  {
    if s != [] {
      forall k | 0 <= k < |s[1..]| ensures !At(s[1..], k, AtOpen) {
        AtDrop(s, 1, k, AtOpen);
      }
      StripAtNoTag(s[1..]);
    }
  }

  /** Text with no closing tag passes through unchanged, opening tags
      and all. */
  lemma {:induction false} StripThinkNoClose(s: string)
    requires forall k | 0 <= k < |s| :: !At(s, k, ThinkClose)
    ensures StripThink(s) == s
    decreases |s|
  {
    if s != [] {
      assert Find(s, ThinkClose, |ThinkOpen|).None?;
      forall k | 0 <= k < |s[1..]| ensures !At(s[1..], k, ThinkClose) {
        AtDrop(s, 1, k, ThinkClose);
      }
      StripThinkNoClose(s[1..]);
    }
  }

  lemma {:induction false} StripAtNoClose(s: string)
    requires forall k | 0 <= k < |s| :: !At(s, k, AtClose)
    ensures StripAt(s) == s
    decreases |s|
  {
    if s != [] {
      assert Find(s, AtClose, |AtOpen|).None?;
      forall k | 0 <= k < |s[1..]| ensures !At(s[1..], k, AtClose) {
        AtDrop(s, 1, k, AtClose);
      }
      StripAtNoClose(s[1..]);
    }
  }

  /** No occurrence of `p` at or after `from` means `Find` finds none. */
  lemma FindNone(s: string, p: string, from: nat)
    requires forall k | from <= k :: !At(s, k, p)
    ensures Find(s, p, from).None?
  {
  }

  /** Dropping the first character keeps "no occurrence from here on". */
  lemma FindNoneShift(s: string, p: string, from: nat)
    requires 1 <= from && s != [] && Find(s, p, from).None?
    ensures Find(s[1..], p, from - 1).None?
  {
    FindFirst(s, p, from);
    forall k | from - 1 <= k ensures !At(s[1..], k, p) {
      AtDrop(s, 1, k, p);
    }
    FindNone(s[1..], p, from - 1);
  }

  /** A `</think>` cannot start inside a `<think>` at the head of `s`, so
      when none follows the opening tag there is none at all. */
  lemma NoThinkCloseAfterOpen(s: string)
    requires At(s, 0, ThinkOpen) && Find(s, ThinkClose, |ThinkOpen|).None?
    ensures forall k | 0 <= k < |s| :: !At(s, k, ThinkClose)
  {
    FindFirst(s, ThinkClose, |ThinkOpen|);
    forall k | 0 <= k < |ThinkOpen| ensures !At(s, k, ThinkClose) {
      OpenCharAt(s, k);
      if k == 0 { OpenCharAt(s, 1); }
      if k + |ThinkClose| <= |s| {
        var w := s[k..k + |ThinkClose|];
        assert w[0] == s[k] && w[1] == s[k + 1];
      }
    }
  }

  /** The characters of a leading `<think>`. */
  lemma OpenCharAt(s: string, k: nat)
    requires At(s, 0, ThinkOpen) && k < |ThinkOpen|
    ensures s[k] == ThinkOpen[k]
  {
    assert s[..|ThinkOpen|][k] == s[k];
  }

  /** The same for `</at>` inside a leading `<at`. */
  lemma NoAtCloseAfterOpen(s: string)
    requires At(s, 0, AtOpen) && Find(s, AtClose, |AtOpen|).None?
    ensures forall k | 0 <= k < |s| :: !At(s, k, AtClose)
  {
    FindFirst(s, AtClose, |AtOpen|);
    var h := s[..|AtOpen|];
    assert h == AtOpen;
    forall k | 0 <= k < |AtOpen| ensures !At(s, k, AtClose) {
      if k + |AtClose| <= |s| {
        var w := s[k..k + |AtClose|];
        assert w[0] == s[k] == h[k] && w[1] == s[k + 1];
        assert k == 0 ==> s[1] == h[1] == 'a';
        assert w[0] != AtClose[0] || w[1] != AtClose[1];
      }
    }
  }

  /** When the first `<think>` has no `</think>` after it, nothing is
      removed, whatever closing tags come before it. */
  lemma {:induction false} StripThinkOpenUnclosed(s: string, i: nat)
    requires At(s, i, ThinkOpen)
    requires forall k | 0 <= k < i :: !At(s, k, ThinkOpen)
    requires Find(s, ThinkClose, i + |ThinkOpen|).None?
    ensures StripThink(s) == s
    decreases i
  {
    if i == 0 {
      NoThinkCloseAfterOpen(s);
      StripThinkNoClose(s);
    } else {
      AtDrop(s, 1, i - 1, ThinkOpen);
      NoneAfterHead(s, i - 1, ThinkOpen);
      FindNoneShift(s, ThinkClose, i + |ThinkOpen|);
      StripThinkOpenUnclosed(s[1..], i - 1);
      ThinkHead(s);
    }
  }

  /** When the first `<at` has no `</at>` after it, nothing is removed. */
  lemma {:induction false} StripAtOpenUnclosed(s: string, i: nat)
    requires At(s, i, AtOpen)
    requires forall k | 0 <= k < i :: !At(s, k, AtOpen)
    requires Find(s, AtClose, i + |AtOpen|).None?
    ensures StripAt(s) == s
    decreases i
  {
    if i == 0 {
      NoAtCloseAfterOpen(s);
      StripAtNoClose(s);
    } else {
      AtDrop(s, 1, i - 1, AtOpen);
      NoneAfterHead(s, i - 1, AtOpen);
      FindNoneShift(s, AtClose, i + |AtOpen|);
      StripAtOpenUnclosed(s[1..], i - 1);
      AtHead(s);
    }
  }

  /** Without DOTALL the lazy match cannot cross a newline: when a newline
      comes before the first `</at>` after the first `<at`, that opening
      tag's `<` is kept and the cleaning goes on right after it. */
  lemma {:induction false} StripAtNewline(s: string, i: nat, j: nat)
    requires At(s, i, AtOpen)
    requires forall k | 0 <= k < i :: !At(s, k, AtOpen)
    requires Find(s, AtClose, i + |AtOpen|) == Some(j)
    requires '\n' in s[i + |AtOpen|..j]
    ensures StripAt(s) == s[..i + 1] + StripAt(s[i + 1..])
    decreases i
  {
    if i > 0 {
      var t := s[1..];
      AtNewlineShift(s, i, j);
      StripAtNewline(t, i - 1, j - 1);
      AtHead(s);
      Rejoin(s, i + 1);
      ConsJoin(s[0], t[..i], StripAt(s[i + 1..]), s[..i + 1]);
    }
  }

  /** The premises of `StripAtNewline` hold one character further on. */
  lemma AtNewlineShift(s: string, i: nat, j: nat)
    requires 0 < i
    requires At(s, i, AtOpen)
    requires forall k | 0 <= k < i :: !At(s, k, AtOpen)
    requires Find(s, AtClose, i + |AtOpen|) == Some(j)
    requires '\n' in s[i + |AtOpen|..j]
    ensures At(s[1..], i - 1, AtOpen)
    ensures forall k | 0 <= k < i - 1 :: !At(s[1..], k, AtOpen)
    ensures Find(s[1..], AtClose, i - 1 + |AtOpen|) == Some(j - 1)
    ensures '\n' in s[1..][i - 1 + |AtOpen|..j - 1]
    ensures s[1..][i..] == s[i + 1..]
  {
    AtDrop(s, 1, i - 1, AtOpen);
    NoneAfterHead(s, i - 1, AtOpen);
    FindShift(s, AtClose, i + |AtOpen|, j);
    SliceAfterHead(s, i + |AtOpen|, j);
    DropAfterHead(s, i + 1);
  }

  /** After an opening tag `o`, the first closing tag is the one right
      after `b` when `b` holds no closing tag. */
  lemma FindClose(o: string, b: string, close: string, c: string)
    requires forall k | 0 <= k < |b| :: !At(b + close + c, k, close)
    ensures Find(o + b + close + c, close, |o|) == Some(|o| + |b|)
  {
    var s := o + b + close + c;
    var n := |o|;
    assert s[n..] == b + close + c;
    forall k | n <= k < n + |b| ensures !At(s, k, close) {
      AtDrop(s, n, k - n, close);
    }
    assert s[n + |b|..n + |b| + |close|] == close;
    FindIs(s, close, n, n + |b|);
  }

  /** Occurrences of `p` in `s[1..]` before index `m` shift by one. */
  lemma NoneAfterHead(s: string, m: nat, p: string)
    requires 1 <= |s| && m < |s|
    requires forall k | 0 <= k < m + 1 :: !At(s, k, p)
    ensures forall k | 0 <= k < m :: !At(s[1..], k, p)
  {
    forall k | 0 <= k < m ensures !At(s[1..], k, p) {
      AtDrop(s, 1, k, p);
    }
  }

  /** `Find` returns the first occurrence, so any occurrence with none
      before it is the answer. */
  lemma FindIs(s: string, p: string, from: nat, j: nat)
    requires from <= j && At(s, j, p)
    requires forall k | from <= k < j :: !At(s, k, p)
    ensures Find(s, p, from) == Some(j)
  {
    FindFirst(s, p, from);
  }

  /** Dropping the first character shifts what `Find` returns by one. */
  lemma FindShift(s: string, p: string, from: nat, j: nat)
    requires 1 <= from && from <= |s| && Find(s, p, from) == Some(j)
    ensures Find(s[1..], p, from - 1) == Some(j - 1)
  {
    FindFirst(s, p, from);
    AtDrop(s, 1, j - 1, p);
    forall k | from - 1 <= k < j - 1 ensures !At(s[1..], k, p) {
      AtDrop(s, 1, k, p);
    }
    FindIs(s[1..], p, from - 1, j - 1);
  }

  /** A span at the very start is dropped with its tags. */
  lemma ThinkSpanHere(s: string, j: nat, r: string)
    requires At(s, 0, ThinkOpen) && Find(s, ThinkClose, |ThinkOpen|) == Some(j)
    requires j + |ThinkClose| <= |s| && r == s[j + |ThinkClose|..]
    ensures StripThink(s) == StripThink(r)
  {
  }

  lemma AtSpanHere(s: string, j: nat, r: string)
    requires At(s, 0, AtOpen) && Find(s, AtClose, |AtOpen|) == Some(j)
    requires '\n' !in s[|AtOpen|..j]
    requires j + |AtClose| <= |s| && r == s[j + |AtClose|..]
    ensures StripAt(s) == StripAt(r)
  {
  }

  /** Text that does not start with an opening tag keeps its first
      character. */
  lemma ThinkHead(s: string)
    requires s != [] && !At(s, 0, ThinkOpen)
    ensures StripThink(s) == [s[0]] + StripThink(s[1..])
  {
  }

  lemma AtHead(s: string)
    requires s != [] && !At(s, 0, AtOpen)
    ensures StripAt(s) == [s[0]] + StripAt(s[1..])
  {
  }

  /** The first character put back in front of a prefix and suffix of the
      rest. */
  lemma Rejoin(s: string, i: nat)
    requires 1 <= i <= |s|
    ensures [s[0]] + s[1..][..i - 1] == s[..i]
  {
  }

  lemma SliceAfterHead(s: string, lo: nat, hi: nat)
    requires 1 <= lo <= hi <= |s|
    ensures s[1..][lo - 1..hi - 1] == s[lo..hi]
  {
  }

  lemma DropAfterHead(s: string, n: nat)
    requires 1 <= n <= |s|
    ensures s[1..][n - 1..] == s[n..]
  {
  }

  /** Each piece of a five-piece concatenation is a slice of it. */
  lemma Pieces(a: string, o: string, b: string, e: string, c: string)
    ensures var s := a + o + b + e + c;
      && s[..|a|] == a
      && s[|a|..|a| + |o|] == o
      && s[|a| + |o|..|a| + |o| + |b|] == b
      && s[|a| + |o| + |b| + |e|..] == c
  {
  }

  lemma ConsJoin(h: char, a: string, r: string, q: string)
    requires [h] + a == q
    ensures [h] + (a + r) == q + r
  {
  }

  /** When the first opening tag is at `i` and the first closing tag after
      it at `j`, the text before `i` is kept and the cleaning resumes
      after the closing tag. */
  lemma {:induction false} StripThinkFrom(s: string, i: nat, j: nat, r: string)
    requires At(s, i, ThinkOpen)
    requires forall k | 0 <= k < i :: !At(s, k, ThinkOpen)
    requires Find(s, ThinkClose, i + |ThinkOpen|) == Some(j)
    requires j + |ThinkClose| <= |s| && r == s[j + |ThinkClose|..]
    ensures StripThink(s) == s[..i] + StripThink(r)
    decreases i
  {
    if i == 0 {
      ThinkSpanHere(s, j, r);
      assert s[..i] == [];
      assert s[..i] + StripThink(r) == StripThink(r);
    } else {
      var t := s[1..];
      assert StripThink(t) == t[..i - 1] + StripThink(r) by {
        AtDrop(s, 1, i - 1, ThinkOpen);
        NoneAfterHead(s, i - 1, ThinkOpen);
        FindShift(s, ThinkClose, i + |ThinkOpen|, j);
        DropAfterHead(s, j + |ThinkClose|);
        StripThinkFrom(t, i - 1, j - 1, r);
      }
      ThinkHead(s);
      Rejoin(s, i);
      ConsJoin(s[0], t[..i - 1], StripThink(r), s[..i]);
    }
  }

  lemma {:induction false} StripAtFrom(s: string, i: nat, j: nat, r: string)
    requires At(s, i, AtOpen)
    requires forall k | 0 <= k < i :: !At(s, k, AtOpen)
    requires Find(s, AtClose, i + |AtOpen|) == Some(j)
    requires '\n' !in s[i + |AtOpen|..j]
    requires j + |AtClose| <= |s| && r == s[j + |AtClose|..]
    ensures StripAt(s) == s[..i] + StripAt(r)
    decreases i
  {
    if i == 0 {
      AtSpanHere(s, j, r);
      assert s[..i] == [];
      assert s[..i] + StripAt(r) == StripAt(r);
    } else {
      var t := s[1..];
      assert StripAt(t) == t[..i - 1] + StripAt(r) by {
        AtDrop(s, 1, i - 1, AtOpen);
        NoneAfterHead(s, i - 1, AtOpen);
        FindShift(s, AtClose, i + |AtOpen|, j);
        SliceAfterHead(s, i + |AtOpen|, j);
        DropAfterHead(s, j + |AtClose|);
        StripAtFrom(t, i - 1, j - 1, r);
      }
      AtHead(s);
      Rejoin(s, i);
      ConsJoin(s[0], t[..i - 1], StripAt(r), s[..i]);
    }
  }

  /** The first complete `<think>…</think>` span is cut out: text before
      the first opening tag is kept, and the rest is cleaned after the
      first closing tag that follows it. */
  lemma StripThinkSpan(s: string, a: string, b: string, c: string)
    requires s == a + ThinkOpen + b + ThinkClose + c
    requires forall k | 0 <= k < |a| :: !At(s, k, ThinkOpen)
    requires forall k | 0 <= k < |b| :: !At(b + ThinkClose + c, k, ThinkClose)
    ensures StripThink(s) == a + StripThink(c)
  {
    Pieces(a, ThinkOpen, b, ThinkClose, c);
    FindClose(a + ThinkOpen, b, ThinkClose, c);
    StripThinkFrom(s, |a|, |a| + |ThinkOpen| + |b|, c);
  }

  /** The first `<at…</at>` span that stays within one line is cut out. */
  lemma StripAtSpan(s: string, a: string, b: string, c: string)
    requires s == a + AtOpen + b + AtClose + c
    requires forall k | 0 <= k < |a| :: !At(s, k, AtOpen)
    requires forall k | 0 <= k < |b| :: !At(b + AtClose + c, k, AtClose)
    requires '\n' !in b
    ensures StripAt(s) == a + StripAt(c)
  {
    Pieces(a, AtOpen, b, AtClose, c);
    FindClose(a + AtOpen, b, AtClose, c);
    StripAtFrom(s, |a|, |a| + |AtOpen| + |b|, c);
  }

  lemma NoOpenBefore(s: string, a: string)
    requires a == "<thi" && |s| >= 11 && s[4..11] == ThinkOpen
    ensures forall k | 0 <= k < |a| :: !At(s, k, ThinkOpen)
  {
    forall k | 0 <= k < |a| ensures !At(s, k, ThinkOpen) {
      assert s[k + 4] != ThinkOpen[4];
    }
  }

  lemma NoOpenIn(c: string)
    requires c == "nk>x</think>"
    ensures forall k | 0 <= k < |c| :: !At(c, k, ThinkOpen)
  {
    forall k | 0 <= k < |c| ensures !At(c, k, ThinkOpen) {
      if k + |ThinkOpen| <= |c| {
        assert c[k..k + 7][0] != '<' || c[k..k + 7][1] != 't';
      }
    }
  }

  lemma Rejoined(a: string, c: string)
    requires a == "<thi" && c == "nk>x</think>"
    ensures a + c == ThinkOpen + "x" + ThinkClose
  {
    assert c == "nk>" + "x" + ThinkClose;
    assert a + "nk>" == ThinkOpen;
  }

  /** `StripThink` makes a single left-to-right pass, so the pieces
      around a removed span can join into a new complete span, which
      survives: the cleaned text here is exactly `<think>x</think>`. */
  lemma ThinkSpanCanSurvive(a: string, c: string)
    requires a == "<thi" && c == "nk>x</think>"
    ensures StripThink(a + ThinkOpen + ThinkClose + c) == ThinkOpen + "x" + ThinkClose
  {
    var s := a + ThinkOpen + ThinkClose + c;
    assert s == a + ThinkOpen + "" + ThinkClose + c;
    assert s[4..11] == ThinkOpen;
    NoOpenBefore(s, a);
    StripThinkSpan(s, a, "", c);
    NoOpenIn(c);
    StripThinkNoTag(c);
    Rejoined(a, c);
  }

  /** The whole cleaning step, ending in `.strip()` and the fallback. */
  function Sanitize(answer: string): (r: string)
    ensures r != []
    ensures !Text.IsSpace(r[0]) && !Text.IsSpace(r[|r| - 1])
    ensures r == Fallback || |r| <= |answer|
  {
    var t := Text.Strip(StripAt(StripThink(answer)));
    if t == [] then Fallback else t
  }

  /** An answer that is blank after cleaning becomes the fallback
      sentence, and only then. */
  lemma SanitizeFallback(answer: string)
    ensures Sanitize(answer) == Fallback
        <==> Text.AllSpace(StripAt(StripThink(answer))) || Text.Strip(StripAt(StripThink(answer))) == Fallback
  {
  }

  /** A plain answer (no tags) is only trimmed. */
  lemma SanitizePlain(answer: string)
    requires forall k | 0 <= k < |answer| :: !At(answer, k, ThinkOpen) && !At(answer, k, AtOpen)
    requires !Text.AllSpace(answer)
    ensures Sanitize(answer) == Text.Strip(answer)
  {
    StripThinkNoTag(answer);
    StripAtNoTag(answer);
  }
}
