/** Text helpers shared by the model of the process manager: an option type,
    the ASCII character classes the endpoint scanner and `str.strip()` work
    with, the token lookups the mock helper performs on its argv, and the
    renderings used to build log lines (`' '.join(...)`, `str(int)`). */
module Text {

  datatype Option<+T> = None | Some(value: T)

  /** The ASCII characters Python's `str.strip()` and the `\s` of a str pattern treat
      as whitespace: space, tab, line feed, carriage return, vertical tab, form feed,
      and the four information separators U+001C to U+001F. */
  predicate IsSpace(c: char) {
    c == ' ' || c == '\t' || c == '\n' || c == '\r' || c == '\U{000B}' || c == '\U{000C}'
      || '\U{001C}' <= c <= '\U{001F}'
  }

  /** ASCII decimal digit, the model of Python's `\d`. */
  predicate IsDigit(c: char) {
    '0' <= c <= '9'
  }

  predicate AllSpace(s: string) {
    forall k | 0 <= k < |s| :: IsSpace(s[k])
  }

  predicate AllDigits(s: string) {
    forall k | 0 <= k < |s| :: IsDigit(s[k])
  }

  /** The end of the longest run of characters satisfying `p` that starts at `i`. */
  function Span(s: string, i: nat, p: char -> bool): (j: nat)
    requires i <= |s|
    ensures i <= j <= |s|
    ensures forall k | i <= k < j :: p(s[k])
    ensures j < |s| ==> !p(s[j])
    decreases |s| - i
  {
    if i == |s| || !p(s[i]) then i else Span(s, i + 1, p)
  }

  /** A run of `p`-characters from `i` to `k` that cannot be extended is what `Span` finds. */
  lemma SpanIsMaximalRun(s: string, i: nat, k: nat, p: char -> bool)
    requires i <= k <= |s|
    requires forall m | i <= m < k :: p(s[m])
    requires k == |s| || !p(s[k])
    ensures Span(s, i, p) == k
  {
  }

  /** The start of the trailing whitespace of `s[lo..j]`. */
  function TrailingSpaceStart(s: string, lo: nat, j: nat): (t: nat)
    requires lo <= j <= |s|
    ensures lo <= t <= j
    ensures forall k | t <= k < j :: IsSpace(s[k])
    ensures t > lo ==> !IsSpace(s[t - 1])
    decreases j
  {
    if j == lo || !IsSpace(s[j - 1]) then j else TrailingSpaceStart(s, lo, j - 1)
  }

  /** Python's `str.strip()` with no argument, on ASCII whitespace: what is left once
      leading and trailing whitespace are removed. */
  function Strip(s: string): (r: string)
    ensures var i := Span(s, 0, IsSpace);
      && i + |r| <= |s| && s[i .. i + |r|] == r
      && AllSpace(s[..i]) && AllSpace(s[i + |r|..])
    ensures r != [] ==> !IsSpace(r[0]) && !IsSpace(r[|r| - 1])
    ensures r == [] <==> AllSpace(s)
  {
    var i := Span(s, 0, IsSpace);
    var j := TrailingSpaceStart(s, i, |s|);
    assert AllSpace(s) ==> i == |s|;
    s[i..j]
  }

  /** Python's `' '.join(tokens)`. */
  function Join(tokens: seq<string>): (r: string)
    ensures |tokens| == 0 ==> r == ""
    ensures |tokens| > 0 ==> tokens[0] <= r
    decreases |tokens|
  {
    if |tokens| == 0 then ""
    else if |tokens| == 1 then tokens[0]
    else tokens[0] + " " + Join(tokens[1..])
  }

  /** Python's `s.split(' ')`: the pieces between single spaces, empty ones included. */
  function SplitSpaces(s: string): (r: seq<string>)
    ensures |r| > 0
    decreases |s|
  {
    if |s| == 0 then [""]
    else
      var rest := SplitSpaces(s[1..]);
      if s[0] == ' ' then [""] + rest else [[s[0]] + rest[0]] + rest[1..]
  }

  /** A space-free word at the front of a string extends the first piece of its split. */
  lemma {:induction false} SplitAfterWord(w: string, s: string)
    requires ' ' !in w
    ensures SplitSpaces(w + s) == [w + SplitSpaces(s)[0]] + SplitSpaces(s)[1..]
    decreases |w|
  {
    if |w| > 0 {
      assert (w + s)[1..] == w[1..] + s;
      SplitAfterWord(w[1..], s);
      assert [w[0]] + (w[1..] + SplitSpaces(s)[0]) == w + SplitSpaces(s)[0];
    } else {
      var r := SplitSpaces(s);
      assert w + s == s && w + r[0] == r[0];
      assert [r[0]] + r[1..] == r;
    }
  }

  /** Joining space-free tokens loses nothing: splitting the line at its spaces gives
      the tokens back, so a logged command line determines the command. */
  lemma {:induction false} SplitJoin(tokens: seq<string>)
    requires |tokens| > 0
    requires forall i | 0 <= i < |tokens| :: ' ' !in tokens[i]
    ensures SplitSpaces(Join(tokens)) == tokens
    decreases |tokens|
  {
    if |tokens| == 1 {
      SplitAfterWord(tokens[0], "");
      assert tokens[0] + "" == tokens[0];
    } else {
      var rest := Join(tokens[1..]);
      SplitJoin(tokens[1..]);
      assert tokens[0] + " " + rest == tokens[0] + (" " + rest);
      SplitAfterWord(tokens[0], " " + rest);
      assert (" " + rest)[1..] == rest;
      assert tokens[0] + "" == tokens[0];
      assert tokens == [tokens[0]] + tokens[1..];
    }
  }

  function DigitChar(d: nat): (c: char)
    requires d < 10
    ensures IsDigit(c)
  {
    ('0' as int + d) as char
  }

  /** The number a string of decimal digits denotes. */
  function DigitsValue(s: string): nat
    requires AllDigits(s)
    decreases |s|
  {
    if |s| == 0 then 0
    else DigitsValue(s[..|s| - 1]) * 10 + (s[|s| - 1] as int - '0' as int)
  }

  /** Python's `str(n)` for a natural number. */
  function NatToString(n: nat): (r: string)
    ensures |r| > 0
    decreases n
  {
    if n < 10 then [DigitChar(n)] else NatToString(n / 10) + [DigitChar(n % 10)]
  }

  /** The rendering of a natural number is decimal digits without leading zeros that
      read back as the number. */
  lemma {:induction false} NatToStringReadsBack(n: nat)
    ensures var r := NatToString(n);
      AllDigits(r) && DigitsValue(r) == n && (r[0] == '0' ==> r == "0")
    decreases n
  {
    if n >= 10 {
      NatToStringReadsBack(n / 10);
      var q := NatToString(n / 10);
      var r := q + [DigitChar(n % 10)];
      assert r[..|r| - 1] == q;
    }
  }

  /** Python's `str(n)` for an integer, with a leading minus sign when negative. */
  function IntToString(n: int): (r: string)
    ensures |r| > 0
  {
    if n < 0 then "-" + NatToString(-n) else NatToString(n)
  }

  /** The rendering of an integer starts with a minus sign exactly when it is negative,
      and the rest is decimal digits without a leading zero (unless the magnitude is 0)
      that read back as its magnitude. */
  lemma IntToStringReadsBack(n: int)
    ensures var r := IntToString(n);
      && (r[0] == '-' <==> n < 0)
      && var digits := if n < 0 then r[1..] else r;
         && AllDigits(digits) && DigitsValue(digits) == (if n < 0 then -n else n)
         && |digits| > 0 && (digits[0] == '0' ==> digits == "0")
  {
    var m := if n < 0 then -n else n;
    NatToStringReadsBack(m);
    if n < 0 {
      assert ("-" + NatToString(m))[1..] == NatToString(m);
    }
  }

  /** Python's `xs.index(x)`, with `None` where Python raises `ValueError`. */
  function IndexOf(xs: seq<string>, x: string): (r: Option<nat>)
    ensures r.None? <==> x !in xs
    ensures r.Some? ==> r.value < |xs| && xs[r.value] == x && x !in xs[..r.value]
    decreases |xs|
  {
    if |xs| == 0 then None
    else if xs[0] == x then Some(0)
    else
      match IndexOf(xs[1..], x)
      case None => None
      case Some(i) =>
        assert xs[..i + 1] == [xs[0]] + xs[1..][..i];
        Some(i + 1)
  }

  /** The two tokens right after the first occurrence of `flag`; `None` when the flag
      is missing or fewer than two tokens follow it (where Python's indexing raises). */
  function PairAfter(tokens: seq<string>, flag: string): (r: Option<(string, string)>)
    ensures r.Some? <==> exists d | 0 <= d < |tokens| && tokens[d] == flag && flag !in tokens[..d] :: d + 2 < |tokens|
    ensures r.Some? ==>
      exists d | 0 <= d < |tokens| - 2 && tokens[d] == flag && flag !in tokens[..d] ::
        r.value == (tokens[d + 1], tokens[d + 2])
    // a corollary of the first clause, for callers: a missing flag reads nothing
    ensures flag !in tokens ==> r.None?
  {
    match IndexOf(tokens, flag)
    case None => None
    case Some(d) => if d + 2 < |tokens| then Some((tokens[d + 1], tokens[d + 2])) else None
  }

  /** Reading the two tokens after a flag whose first occurrence is at `d`. */
  lemma PairAfterFirstFlag(tokens: seq<string>, flag: string, d: nat)
    requires d < |tokens| && tokens[d] == flag && flag !in tokens[..d]
    ensures PairAfter(tokens, flag) ==
      if d + 2 < |tokens| then Some((tokens[d + 1], tokens[d + 2])) else None
  {
    assert IndexOf(tokens, flag) == Some(d);
  }

  /** `PairAfterFirstFlag` for every position that holds the first occurrence of the flag,
      together with the case where no such position is followed by two tokens. */
  lemma FirstFlagReads(tokens: seq<string>, flag: string)
    ensures forall d | 0 <= d < |tokens| && tokens[d] == flag && flag !in tokens[..d] ::
      PairAfter(tokens, flag) == if d + 2 < |tokens| then Some((tokens[d + 1], tokens[d + 2])) else None
    ensures (forall d | 0 <= d < |tokens| && tokens[d] == flag && flag !in tokens[..d] :: d + 2 >= |tokens|) ==>
      PairAfter(tokens, flag).None?
  {
    forall d | 0 <= d < |tokens| && tokens[d] == flag && flag !in tokens[..d]
      ensures PairAfter(tokens, flag) == if d + 2 < |tokens| then Some((tokens[d + 1], tokens[d + 2])) else None
    {
      PairAfterFirstFlag(tokens, flag, d);
    }
    // when the flag occurs, its first occurrence is the one IndexOf finds
    if flag in tokens {
      PairAfterFirstFlag(tokens, flag, IndexOf(tokens, flag).value);
    }
  }
}
