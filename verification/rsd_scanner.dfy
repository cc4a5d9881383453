/** The endpoint scanner of the Tunnel B output reader: Python's
    `re.search(r'--rsd\s+([a-f0-9:]+)\s+(\d+)', line)` written out as a
    left-to-right search. `MatchAt` is the greedy matcher anchored at one
    position, `Scan` returns the captures of the leftmost match, and
    `Layout` is the independent, declarative reading of the pattern that
    the lemmas below connect them to. */
module RsdScanner {
  import opened Text

  /** The literal the pattern starts with. */
  const Marker: string := "--rsd"

  /** The address character class `[a-f0-9:]`. */
  predicate IsAddrChar(c: char) {
    'a' <= c <= 'f' || IsDigit(c) || c == ':'
  }

  predicate AllAddr(s: string) {
    forall k | 0 <= k < |s| :: IsAddrChar(s[k])
  }

  /** The pattern anchored at position `p`, with greedy runs: the marker, a
      whitespace run, an address run, a whitespace run and a digit run. */
  function MatchAt(line: string, p: nat): (r: Option<(string, string)>)
    requires p <= |line|
    ensures r.Some? ==> |r.value.0| > 0 && AllAddr(r.value.0)
    ensures r.Some? ==> |r.value.1| > 0 && AllDigits(r.value.1)
  {
    if !(Marker <= line[p..]) then None
    else
      var a := p + |Marker|;
      var b := Span(line, a, IsSpace);
      var c := Span(line, b, IsAddrChar);
      var d := Span(line, c, IsSpace);
      var e := Span(line, d, IsDigit);
      if a < b && b < c && c < d && d < e then Some((line[b..c], line[d..e])) else None
  }

  /** The leftmost position at or after `from` where the pattern matches. */
  function Find(line: string, from: nat): (r: Option<nat>)
    requires from <= |line|
    ensures r.Some? ==> from <= r.value <= |line| && MatchAt(line, r.value).Some?
    ensures forall q | from <= q <= |line| && (r.None? || q < r.value) :: MatchAt(line, q).None?
    decreases |line| - from
  {
    if MatchAt(line, from).Some? then Some(from)
    else if from == |line| then None
    else Find(line, from + 1)
  }

  /** `re.search` on the line: the (address, port) captures of the leftmost match. */
  function Scan(line: string): (r: Option<(string, string)>)
    ensures r.Some? ==> |r.value.0| > 0 && AllAddr(r.value.0)
    ensures r.Some? ==> |r.value.1| > 0 && AllDigits(r.value.1)
  {
    match Find(line, 0)
    case None => None
    case Some(p) => MatchAt(line, p)
  }

  /** The text the pattern matches at `p`, read declaratively: the marker, a
      non-empty whitespace run `ws1`, the address `ip`, a non-empty whitespace
      run `ws2` and the port, where the port is not followed by another digit
      (the greedy `\d+` takes them all). */
  ghost predicate Layout(line: string, p: nat, ws1: string, ip: string, ws2: string, port: string)
  {
    var token := Marker + ws1 + ip + ws2 + port;
    && |ws1| > 0 && AllSpace(ws1) && |ip| > 0 && AllAddr(ip)
    && |ws2| > 0 && AllSpace(ws2) && |port| > 0 && AllDigits(port)
    && p + |token| <= |line| && line[p .. p + |token|] == token
    && (p + |token| == |line| || !IsDigit(line[p + |token|]))
  }

  /** The line announces endpoint (ip, port) at position `p`. */
  ghost predicate AnnouncedAt(line: string, p: nat, ip: string, port: string) {
    exists ws1, ws2 :: Layout(line, p, ws1, ip, ws2, port)
  }

  /** Some endpoint is announced at position `p`. */
  ghost predicate Announces(line: string, p: nat) {
    exists ip, port :: AnnouncedAt(line, p, ip, port)
  }

  lemma MatchAtSound(line: string, p: nat)
    requires p <= |line| && MatchAt(line, p).Some?
    ensures AnnouncedAt(line, p, MatchAt(line, p).value.0, MatchAt(line, p).value.1)
  {
    var a := p + |Marker|;
    var b := Span(line, a, IsSpace);
    var c := Span(line, b, IsAddrChar);
    var d := Span(line, c, IsSpace);
    var e := Span(line, d, IsDigit);
    assert line[p..a] == Marker by { assert line[p..a] == line[p..][..|Marker|]; }
    LayoutOfBounds(line, p, b, c, d, e);
  }

  /** Runs of the right classes between the bounds `b`, `c`, `d`, `e`, right after the
      marker at `p`, form a layout. */
  lemma LayoutOfBounds(line: string, p: nat, b: nat, c: nat, d: nat, e: nat)
    requires p + |Marker| < b < c < d < e <= |line| && line[p .. p + |Marker|] == Marker
    requires forall k | p + |Marker| <= k < b :: IsSpace(line[k])
    requires forall k | b <= k < c :: IsAddrChar(line[k])
    requires forall k | c <= k < d :: IsSpace(line[k])
    requires forall k | d <= k < e :: IsDigit(line[k])
    requires e == |line| || !IsDigit(line[e])
    ensures Layout(line, p, line[p + |Marker| .. b], line[b..c], line[c..d], line[d..e])
  {
    var a := p + |Marker|;
    JoinSlices(line, p, a, b);
    JoinSlices(line, p, b, c);
    JoinSlices(line, p, c, d);
    JoinSlices(line, p, d, e);
    assert AllSpace(line[a..b]) && AllAddr(line[b..c]) && AllSpace(line[c..d]) && AllDigits(line[d..e]);
  }

  /** Two adjacent slices of `line` join into one. */
  lemma JoinSlices(line: string, i: nat, j: nat, k: nat)
    requires i <= j <= k <= |line|
    ensures line[i..j] + line[j..k] == line[i..k]
  {
  }

  /** Splitting a slice of `line` that spells `x + y` into the two parts. */
  lemma SplitSlice(line: string, lo: nat, x: string, y: string)
    requires lo + |x| + |y| <= |line| && line[lo .. lo + |x| + |y|] == x + y
    ensures line[lo .. lo + |x|] == x && line[lo + |x| .. lo + |x| + |y|] == y
  {
    assert line[lo .. lo + |x|] == (x + y)[..|x|];
    assert line[lo + |x| .. lo + |x| + |y|] == (x + y)[|x|..];
  }

  /** The characters of a whitespace slice, read in the line. */
  lemma SpaceRun(line: string, lo: nat, hi: nat)
    requires lo <= hi <= |line| && AllSpace(line[lo..hi])
    ensures forall k | lo <= k < hi :: IsSpace(line[k])
  {
    forall k | lo <= k < hi
      ensures IsSpace(line[k])
    {
      assert line[k] == line[lo..hi][k - lo];
    }
  }

  /** The characters of an address slice, read in the line. */
  lemma AddrRun(line: string, lo: nat, hi: nat)
    requires lo <= hi <= |line| && AllAddr(line[lo..hi])
    ensures forall k | lo <= k < hi :: IsAddrChar(line[k])
  {
    forall k | lo <= k < hi
      ensures IsAddrChar(line[k])
    {
      assert line[k] == line[lo..hi][k - lo];
    }
  }

  /** The characters of a digit slice, read in the line. */
  lemma DigitRun(line: string, lo: nat, hi: nat)
    requires lo <= hi <= |line| && AllDigits(line[lo..hi])
    ensures forall k | lo <= k < hi :: IsDigit(line[k])
  {
    forall k | lo <= k < hi
      ensures IsDigit(line[k])
    {
      assert line[k] == line[lo..hi][k - lo];
    }
  }

  /** The five parts of a layout, located in the line. */
  lemma LayoutSlices(line: string, p: nat, ws1: string, ip: string, ws2: string, port: string)
    requires Layout(line, p, ws1, ip, ws2, port)
    ensures var a := p + |Marker|; var b := a + |ws1|; var c := b + |ip|; var d := c + |ws2|;
      && d + |port| <= |line|
      && line[p .. a] == Marker && line[a .. b] == ws1 && line[b .. c] == ip
      && line[c .. d] == ws2 && line[d .. d + |port|] == port
  {
    SplitSlice(line, p, Marker + ws1 + ip + ws2, port);
    SplitSlice(line, p, Marker + ws1 + ip, ws2);
    SplitSlice(line, p, Marker + ws1, ip);
    SplitSlice(line, p, Marker, ws1);
  }

  lemma MatchAtComplete(line: string, p: nat, ws1: string, ip: string, ws2: string, port: string)
    requires Layout(line, p, ws1, ip, ws2, port)
    ensures MatchAt(line, p) == Some((ip, port))
  {
    var b := p + |Marker| + |ws1|;
    var d := b + |ip| + |ws2|;
    LayoutBounds(line, p, ws1, ip, ws2, port);
    MatchAtOfBounds(line, p, b, b + |ip|, d, d + |port|, ip, port);
  }

  /** A layout read as positions: the runs of each class between its bounds, and the
      captures as slices of the line. */
  lemma LayoutBounds(line: string, p: nat, ws1: string, ip: string, ws2: string, port: string)
    requires Layout(line, p, ws1, ip, ws2, port)
    ensures var a := p + |Marker|; var b := a + |ws1|; var c := b + |ip|; var d := c + |ws2|;
      var e := d + |port|;
      && a < b < c < d < e <= |line| && line[p .. a] == Marker
      && (forall k | a <= k < b :: IsSpace(line[k]))
      && (forall k | b <= k < c :: IsAddrChar(line[k]))
      && (forall k | c <= k < d :: IsSpace(line[k]))
      && (forall k | d <= k < e :: IsDigit(line[k]))
      && (e == |line| || !IsDigit(line[e]))
      && line[b .. c] == ip && line[d .. e] == port
  {
    var a := p + |Marker|;
    var b := a + |ws1|;
    var c := b + |ip|;
    var d := c + |ws2|;
    LayoutSlices(line, p, ws1, ip, ws2, port);
    SpaceRun(line, a, b);
    AddrRun(line, b, c);
    SpaceRun(line, c, d);
    DigitRun(line, d, d + |port|);
  }

  /** The matcher at `p` when the marker is there and runs of the right classes lie
      between the bounds `b`, `c`, `d`, `e`, capturing `ip` and `port` there: the converse
      of `LayoutOfBounds`. */
  lemma MatchAtOfBounds(line: string, p: nat, b: nat, c: nat, d: nat, e: nat, ip: string, port: string)
    requires p + |Marker| < b < c < d < e <= |line| && line[p .. p + |Marker|] == Marker
    requires forall k | p + |Marker| <= k < b :: IsSpace(line[k])
    requires forall k | b <= k < c :: IsAddrChar(line[k])
    requires forall k | c <= k < d :: IsSpace(line[k])
    requires forall k | d <= k < e :: IsDigit(line[k])
    requires e == |line| || !IsDigit(line[e])
    requires line[b .. c] == ip && line[d .. e] == port
    ensures MatchAt(line, p) == Some((ip, port))
  {
    assert Marker <= line[p..] by { assert line[p..][..|Marker|] == line[p .. p + |Marker|]; }
    assert IsAddrChar(line[b]) && IsSpace(line[c]) && IsDigit(line[d]);
    SpanIsMaximalRun(line, p + |Marker|, b, IsSpace);
    SpanIsMaximalRun(line, b, c, IsAddrChar);
    SpanIsMaximalRun(line, c, d, IsSpace);
    SpanIsMaximalRun(line, d, e, IsDigit);
  }

  /** The greedy matcher finds exactly the announcements the declarative pattern describes. */
  lemma MatchAtIffAnnounced(line: string, p: nat, ip: string, port: string)
    requires p <= |line|
    ensures MatchAt(line, p) == Some((ip, port)) <==> AnnouncedAt(line, p, ip, port)
  {
    if MatchAt(line, p) == Some((ip, port)) {
      MatchAtSound(line, p);
    }
    if AnnouncedAt(line, p, ip, port) {
      var ws1, ws2 :| Layout(line, p, ws1, ip, ws2, port);
      MatchAtComplete(line, p, ws1, ip, ws2, port);
    }
  }

  lemma MatchAtNoneIffSilent(line: string, p: nat)
    requires p <= |line|
    ensures MatchAt(line, p).None? <==> !Announces(line, p)
  {
    if MatchAt(line, p).Some? {
      MatchAtSound(line, p);
    }
    if Announces(line, p) {
      var ip, port :| AnnouncedAt(line, p, ip, port);
      MatchAtIffAnnounced(line, p, ip, port);
    }
  }

  /** The scanner returns (ip, port) exactly when the leftmost announcement of the
      line is of that endpoint. */
  lemma ScanIsLeftmostAnnouncement(line: string, ip: string, port: string)
    ensures Scan(line) == Some((ip, port)) <==>
      exists p: nat :: p <= |line| && AnnouncedAt(line, p, ip, port) && forall q: nat | q < p :: !Announces(line, q)
  {
    var found := Find(line, 0);
    if Scan(line) == Some((ip, port)) {
      var p := found.value;
      MatchAtIffAnnounced(line, p, ip, port);
      forall q: nat | q < p
        ensures !Announces(line, q)
      {
        MatchAtNoneIffSilent(line, q);
      }
    }
    if exists p: nat :: p <= |line| && AnnouncedAt(line, p, ip, port) && forall q: nat | q < p :: !Announces(line, q) {
      var p: nat :| p <= |line| && AnnouncedAt(line, p, ip, port) && forall q: nat | q < p :: !Announces(line, q);
      MatchAtIffAnnounced(line, p, ip, port);
      assert found.Some?;
      if found.value < p {
        MatchAtNoneIffSilent(line, found.value);
      }
      assert found.value == p;
    }
  }

  /** The scanner finds nothing exactly when the line announces no endpoint anywhere. */
  lemma ScanNoneIffSilent(line: string)
    ensures Scan(line).None? <==> forall p: nat | p <= |line| :: !Announces(line, p)
  {
    var found := Find(line, 0);
    if found.Some? {
      MatchAtNoneIffSilent(line, found.value);
    } else {
      forall p: nat | p <= |line|
        ensures !Announces(line, p)
      {
        MatchAtNoneIffSilent(line, p);
      }
    }
  }

  /** A line consisting of exactly one announcement, as the helper prints it, is read back
      as that endpoint. */
  lemma ScanReadsAnnouncement(ip: string, port: string)
    requires |ip| > 0 && AllAddr(ip) && |port| > 0 && AllDigits(port)
    ensures Scan(Marker + " " + ip + " " + port) == Some((ip, port))
  {
    var line := Marker + " " + ip + " " + port;
    assert Layout(line, 0, " ", ip, " ", port) by {
      assert line[0..|line|] == line;
    }
    MatchAtComplete(line, 0, " ", ip, " ", port);
  }
}
