/**
  Text primitives used on both sides of the wire: joining with a separator
  (Rust's `[String]::join`), splitting on one character (Python's
  `str.split(',')`), splitting on whitespace runs (Python's `str.split()` with
  no argument), JSON whitespace trimming, and unsigned decimal rendering and
  reading. Strings are `seq<char>`.
 */
module Text {

  /* ---------------- join and single-character split ---------------- */

  /** `parts` joined with `sep` between consecutive parts. */
  function Join(parts: seq<string>, sep: string): string
  {
    if |parts| == 0 then ""
    else if |parts| == 1 then parts[0]
    else parts[0] + sep + Join(parts[1..], sep)
  }

  /** Number of occurrences of `c` in `s`. */
  function Count(s: string, c: char): nat
  {
    if |s| == 0 then 0
    else (if s[0] == c then 1 else 0) + Count(s[1..], c)
  }

  /** Python's `s.split(c)`: cut `s` at every occurrence of `c`. Always at
      least one piece, one more piece than there are separators, no piece
      contains the separator, and gluing the pieces back gives `s`. */
  function Split(s: string, c: char): (r: seq<string>)
    ensures |r| == Count(s, c) + 1
    ensures forall k :: 0 <= k < |r| ==> c !in r[k]
    ensures Join(r, [c]) == s
  {
    if |s| == 0 then [""]
    else
      var rest := Split(s[1..], c);
      if s[0] == c then
        [""] + rest
      else
        [[s[0]] + rest[0]] + rest[1..]
  }

  /** A prefix free of the separator, followed by the separator, is cut off
      as exactly one piece. */
  lemma {:induction false} SplitAfterPiece(a: string, c: char, b: string)
    requires c !in a
    ensures Split(a + [c] + b, c) == [a] + Split(b, c)
  {
    if |a| == 0 {
      assert a + [c] + b == [c] + b;
      assert ([c] + b)[1..] == b;
    } else {
      assert (a + [c] + b)[1..] == a[1..] + [c] + b;
      SplitAfterPiece(a[1..], c, b);
      assert [a[0]] + a[1..] == a;
    }
  }

  /** A string free of the separator is a single piece. */
  lemma {:induction false} SplitWithoutSeparator(a: string, c: char)
    requires c !in a
    ensures Split(a, c) == [a]
  {
    if |a| > 0 {
      SplitWithoutSeparator(a[1..], c);
      assert [a[0]] + a[1..] == a;
    }
  }

  /** Split undoes Join: pieces free of the separator come back unchanged
      and in order. Together with `Join(Split(s, c), [c]) == s` this makes
      the two inverse to each other. */
  lemma {:induction false} SplitJoin(parts: seq<string>, c: char)
    requires |parts| > 0
    requires forall k :: 0 <= k < |parts| ==> c !in parts[k]
    ensures Split(Join(parts, [c]), c) == parts
  {
    if |parts| == 1 {
      SplitWithoutSeparator(parts[0], c);
    } else {
      SplitJoin(parts[1..], c);
      SplitAfterPiece(parts[0], c, Join(parts[1..], [c]));
    }
  }

  /* ---------------- whitespace split (Python str.split()) ---------------- */

  /** Python's `str.isspace()` for one character. */
  predicate IsPySpace(ch: char)
  {
    var k := ch as int;
    (9 <= k <= 13) || (28 <= k <= 32) || k == 0x85 || k == 0xA0 || k == 0x1680
    || (0x2000 <= k <= 0x200A) || k == 0x2028 || k == 0x2029 || k == 0x202F
    || k == 0x205F || k == 0x3000
  }

  /** A non-empty run of non-whitespace characters. */
  predicate IsToken(t: string)
  {
    |t| > 0 && forall k :: 0 <= k < |t| ==> !IsPySpace(t[k])
  }

  /** Every character of `w` is whitespace. */
  predicate AllPySpace(w: string)
  {
    forall k :: 0 <= k < |w| ==> IsPySpace(w[k])
  }

  /** Python's `s.split()`: the maximal runs of non-whitespace, in order.
      Leading, trailing and repeated whitespace produce no empty pieces. */
  function SplitWhitespace(s: string): (r: seq<string>)
    ensures forall k :: 0 <= k < |r| ==> IsToken(r[k])
    ensures |s| > 0 && !IsPySpace(s[0]) ==> |r| > 0 && IsToken(r[0]) && r[0][0] == s[0]
  {
    if |s| == 0 then []
    else if IsPySpace(s[0]) then SplitWhitespace(s[1..])
    else
      var rest := SplitWhitespace(s[1..]);
      if |s| > 1 && !IsPySpace(s[1]) then [[s[0]] + rest[0]] + rest[1..]
      else [[s[0]]] + rest
  }

  /** A token followed by a whitespace character is one piece. */
  lemma {:induction false} SplitWhitespaceAfterToken(t: string, w: char, rest: string)
    requires IsToken(t) && IsPySpace(w)
    ensures SplitWhitespace(t + [w] + rest) == [t] + SplitWhitespace(rest)
  {
    var s := t + [w] + rest;
    assert s[1..] == t[1..] + [w] + rest;
    if |t| == 1 {
      assert s[1..] == [w] + rest;
      assert ([w] + rest)[1..] == rest;
      assert t == [t[0]];
    } else {
      SplitWhitespaceAfterToken(t[1..], w, rest);
      assert [t[0]] + t[1..] == t;
    }
  }

  /** A token alone is one piece. */
  lemma {:induction false} SplitWhitespaceOfToken(t: string)
    requires IsToken(t)
    ensures SplitWhitespace(t) == [t]
  {
    if |t| == 1 {
      assert t == [t[0]];
    } else {
      SplitWhitespaceOfToken(t[1..]);
      assert [t[0]] + t[1..] == t;
    }
  }

  /** Trailing whitespace (a final newline, say) adds no pieces. */
  lemma {:induction false} SplitWhitespaceTrailing(s: string, w: string)
    requires AllPySpace(w)
    ensures SplitWhitespace(s + w) == SplitWhitespace(s)
  {
    if |s| == 0 {
      SplitWhitespaceBlank(w);
      assert s + w == w;
    } else {
      assert (s + w)[1..] == s[1..] + w;
      SplitWhitespaceTrailing(s[1..], w);
    }
  }

  /** A string of whitespace only has no pieces. */
  lemma {:induction false} SplitWhitespaceBlank(w: string)
    requires AllPySpace(w)
    ensures SplitWhitespace(w) == []
  {
    if |w| > 0 {
      SplitWhitespaceBlank(w[1..]);
    }
  }

  /** Whitespace split undoes a join of tokens with one whitespace character. */
  lemma {:induction false} SplitWhitespaceJoin(tokens: seq<string>, w: char)
    requires IsPySpace(w)
    requires forall k :: 0 <= k < |tokens| ==> IsToken(tokens[k])
    ensures SplitWhitespace(Join(tokens, [w])) == tokens
  {
    if |tokens| == 1 {
      SplitWhitespaceOfToken(tokens[0]);
    } else if |tokens| > 1 {
      SplitWhitespaceJoin(tokens[1..], w);
      SplitWhitespaceAfterToken(tokens[0], w, Join(tokens[1..], [w]));
      assert tokens[0] + [w] + Join(tokens[1..], [w]) == Join(tokens, [w]);
      assert [tokens[0]] + tokens[1..] == tokens;
    }
  }

  /** Leading whitespace adds no pieces. */
  lemma {:induction false} SplitWhitespaceLeading(w: string, s: string)
    requires AllPySpace(w)
    ensures SplitWhitespace(w + s) == SplitWhitespace(s)
  {
    if |w| == 0 {
      assert w + s == s;
    } else {
      assert (w + s)[0] == w[0];
      assert (w + s)[1..] == w[1..] + s;
      SplitWhitespaceLeading(w[1..], s);
    }
  }

  /** A token followed by a non-empty whitespace run is one piece. */
  lemma SplitWhitespaceAfterGap(t: string, gap: string, rest: string)
    requires IsToken(t) && |gap| > 0 && AllPySpace(gap)
    ensures SplitWhitespace(t + gap + rest) == [t] + SplitWhitespace(rest)
  {
    assert t + gap + rest == t + [gap[0]] + (gap[1..] + rest);
    SplitWhitespaceAfterToken(t, gap[0], gap[1..] + rest);
    SplitWhitespaceLeading(gap[1..], rest);
  }

  /** `tokens` with `gaps[k]` between `tokens[k]` and `tokens[k + 1]`. */
  function Interleave(tokens: seq<string>, gaps: seq<string>): string
    requires |tokens| == 0 || |gaps| == |tokens| - 1
  {
    if |tokens| == 0 then ""
    else if |tokens| == 1 then tokens[0]
    else tokens[0] + gaps[0] + Interleave(tokens[1..], gaps[1..])
  }

  /** Python's `s.split()` returns the maximal runs of non-whitespace in
      order: a text made of optional leading whitespace, tokens separated by
      non-empty whitespace runs of any length, and optional trailing
      whitespace splits into exactly those tokens. */
  lemma {:induction false} SplitWhitespaceRuns(lead: string, tokens: seq<string>, gaps: seq<string>, trail: string)
    requires AllPySpace(lead) && AllPySpace(trail)
    requires forall k :: 0 <= k < |tokens| ==> IsToken(tokens[k])
    requires |tokens| == 0 || |gaps| == |tokens| - 1
    requires forall k :: 0 <= k < |gaps| ==> |gaps[k]| > 0 && AllPySpace(gaps[k])
    ensures SplitWhitespace(lead + Interleave(tokens, gaps) + trail) == tokens
  {
    SplitWhitespaceLeading(lead, Interleave(tokens, gaps) + trail);
    assert lead + Interleave(tokens, gaps) + trail == lead + (Interleave(tokens, gaps) + trail);
    SplitWhitespaceTrailing(Interleave(tokens, gaps), trail);
    InterleaveSplits(tokens, gaps);
  }

  /** The core of `SplitWhitespaceRuns`, without the outer whitespace. */
  lemma {:induction false} InterleaveSplits(tokens: seq<string>, gaps: seq<string>)
    requires forall k :: 0 <= k < |tokens| ==> IsToken(tokens[k])
    requires |tokens| == 0 || |gaps| == |tokens| - 1
    requires forall k :: 0 <= k < |gaps| ==> |gaps[k]| > 0 && AllPySpace(gaps[k])
    ensures SplitWhitespace(Interleave(tokens, gaps)) == tokens
  {
    if |tokens| == 1 {
      SplitWhitespaceOfToken(tokens[0]);
    } else if |tokens| > 1 {
      InterleaveSplits(tokens[1..], gaps[1..]);
      SplitWhitespaceAfterGap(tokens[0], gaps[0], Interleave(tokens[1..], gaps[1..]));
      assert [tokens[0]] + tokens[1..] == tokens;
    }
  }

  /* ---------------- JSON whitespace ---------------- */

  /** The four insignificant whitespace characters of JSON (RFC 8259, section 2). */
  predicate IsJsonSpace(ch: char)
  {
    ch == ' ' || ch == '\t' || ch == '\n' || ch == '\r'
  }

  /** `s` with leading JSON whitespace removed. */
  function TrimStart(s: string): (r: string)
    ensures |r| <= |s| && r == s[|s| - |r|..]
    ensures |r| > 0 ==> !IsJsonSpace(r[0])
    ensures forall k :: 0 <= k < |s| - |r| ==> IsJsonSpace(s[k])
  {
    if |s| > 0 && IsJsonSpace(s[0]) then TrimStart(s[1..]) else s
  }

  /** `s` with trailing JSON whitespace removed. */
  function TrimEnd(s: string): (r: string)
    ensures |r| <= |s| && r == s[..|r|]
    ensures |r| > 0 ==> !IsJsonSpace(r[|r| - 1])
    ensures forall k :: |r| <= k < |s| ==> IsJsonSpace(s[k])
  {
    if |s| > 0 && IsJsonSpace(s[|s| - 1]) then TrimEnd(s[..|s| - 1]) else s
  }

  /** `s` with JSON whitespace removed at both ends. */
  function Trim(s: string): string
  {
    TrimEnd(TrimStart(s))
  }

  /** JSON whitespace in front of a string without surrounding whitespace is
      exactly what trimming removes. */
  lemma TrimPadded(pad: string, t: string)
    requires forall k :: 0 <= k < |pad| ==> IsJsonSpace(pad[k])
    requires |t| > 0 && !IsJsonSpace(t[0]) && !IsJsonSpace(t[|t| - 1])
    ensures Trim(pad + t) == t
  {
    var s := pad + t;
    var a := TrimStart(s);
    assert s[|pad|] == t[0];
    assert |a| >= |t|;
    assert a[0] == s[|s| - |a|];
    assert |a| == |t|;
    assert a == t;
  }

  /* ---------------- decimal numbers ---------------- */

  predicate IsDigit(ch: char)
  {
    '0' <= ch <= '9'
  }

  predicate AllDigits(s: string)
  {
    forall k :: 0 <= k < |s| ==> IsDigit(s[k])
  }

  function DigitChar(d: nat): (ch: char)
    requires d < 10
    ensures IsDigit(ch)
  {
    ['0', '1', '2', '3', '4', '5', '6', '7', '8', '9'][d]
  }

  function DigitValue(ch: char): nat
    requires IsDigit(ch)
  {
    (ch as int) - ('0' as int)
  }

  /** The value of a string of decimal digits, most significant first; the
      empty string reads as 0. */
  function DigitsValue(s: string): nat
    requires AllDigits(s)
  {
    if |s| == 0 then 0 else 10 * DigitsValue(s[..|s| - 1]) + DigitValue(s[|s| - 1])
  }

  /** The shortest decimal rendering of `n` (Rust's `{}` of an unsigned
      integer, Python's `f'{n}'` of a non-negative int): non-empty, digits
      only, no leading zero, and reading it back gives `n`. */
  function Decimal(n: nat): (r: string)
    ensures |r| > 0 && AllDigits(r)
    ensures r[0] == '0' ==> n == 0 && |r| == 1
    ensures DigitsValue(r) == n
  {
    if n < 10 then [DigitChar(n)]
    else
      var r := Decimal(n / 10) + [DigitChar(n % 10)];
      assert r[..|r| - 1] == Decimal(n / 10);
      r
  }

  /** Python's `f'{i}'` of an int: a minus sign before the magnitude of a
      negative number. */
  function IntDecimal(i: int): (r: string)
    ensures 0 <= i ==> r == Decimal(i)
    ensures i < 0 ==> |r| > 1 && r[0] == '-' && r[1..] == Decimal(-i)
  {
    if i < 0 then "-" + Decimal(-i) else Decimal(i)
  }
}
