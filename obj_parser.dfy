/**
 * The Wavefront OBJ converter (obj_parser.py): the input is stripped and
 * split into lines; `v `, `vn ` and `vt ` records become comma-joined number
 * lists, `f ` records become zero-based vertex indices; the results are then
 * printed as JavaScript typed-array assignments.
 *
 * Python's `float` followed by `str` is an oracle on one token: `repr(t)` is
 * None where `float(t)` raises ValueError. A ValueError anywhere aborts the
 * program, which the model renders as a None result.
 */
module ObjParser {
  import opened Options

  // ---------------------------------------------------------------------------
  // Python string primitives

  /** The characters str.isspace() accepts: what split() and strip() remove. */
  predicate IsSpace(c: char)
  {
    var n := c as int;
    n == 9 || n == 10 || n == 11 || n == 12 || n == 13
    || n == 28 || n == 29 || n == 30 || n == 31 || n == 32
    || n == 0x85 || n == 0xa0 || n == 0x1680
    || n == 0x2000 || n == 0x2001 || n == 0x2002 || n == 0x2003 || n == 0x2004 || n == 0x2005
    || n == 0x2006 || n == 0x2007 || n == 0x2008 || n == 0x2009 || n == 0x200a
    || n == 0x2028 || n == 0x2029 || n == 0x202f || n == 0x205f || n == 0x3000
  }

  /** The line boundaries str.splitlines() splits at ("\r\n" counts as one). */
  predicate IsLineBreak(c: char)
  {
    var n := c as int;
    n == 10 || n == 11 || n == 12 || n == 13 || n == 28 || n == 29 || n == 30
    || n == 0x85 || n == 0x2028 || n == 0x2029
  }

  /** Every line break is whitespace, so stripping removes trailing line breaks too. */
  lemma LineBreaksAreSpace(c: char)
    requires IsLineBreak(c)
    ensures IsSpace(c)
  {
  }

  predicate NoSpace(s: string)
  {
    forall k :: 0 <= k < |s| ==> !IsSpace(s[k])
  }

  /** s.startswith(prefix). */
  predicate StartsWith(s: string, prefix: string)
  {
    |prefix| <= |s| && s[..|prefix|] == prefix
  }

  /** The number of leading whitespace characters. */
  function LeadingSpace(s: string): (n: nat)
    ensures n <= |s|
    ensures forall k :: 0 <= k < n ==> IsSpace(s[k])
    ensures n < |s| ==> !IsSpace(s[n])
  {
    if s == [] || !IsSpace(s[0]) then 0 else 1 + LeadingSpace(s[1..])
  }

  /** The number of trailing whitespace characters. */
  function TrailingSpace(s: string): (n: nat)
    ensures n <= |s|
    ensures forall k :: |s| - n <= k < |s| ==> IsSpace(s[k])
    ensures n < |s| ==> !IsSpace(s[|s| - n - 1])
  {
    if s == [] || !IsSpace(s[|s| - 1]) then 0 else 1 + TrailingSpace(s[..|s| - 1])
  }

  /** s.strip(): the slice of s between its leading and trailing whitespace. */
  function Strip(s: string): (r: string)
    ensures r == [] || (!IsSpace(r[0]) && !IsSpace(r[|r| - 1]))
    ensures exists i, j :: 0 <= i <= j <= |s| && r == s[i..j]
                           && (forall k :: 0 <= k < i ==> IsSpace(s[k]))
                           && (forall k :: j <= k < |s| ==> IsSpace(s[k]))
  {
    var t := s[LeadingSpace(s)..];
    var r := t[..|t| - TrailingSpace(t)];
    assert r == s[LeadingSpace(s)..LeadingSpace(s) + |r|];
    r
  }

  /** The length of the first non-whitespace run. */
  function TokenLength(s: string): (n: nat)
    ensures n <= |s|
    ensures forall k :: 0 <= k < n ==> !IsSpace(s[k])
    ensures n < |s| ==> IsSpace(s[n])
  {
    if s == [] || IsSpace(s[0]) then 0 else 1 + TokenLength(s[1..])
  }

  /** s.split(): the maximal runs of non-whitespace characters, in order. */
  function Split(s: string): (r: seq<string>)
    ensures forall k :: 0 <= k < |r| ==> r[k] != [] && NoSpace(r[k])
    decreases |s|
  {
    var t := s[LeadingSpace(s)..];
    if t == [] then []
    else
      var n := TokenLength(t);
      assert n > 0 && NoSpace(t[..n]);
      [t[..n]] + Split(t[n..])
  }

  /** ' '.join(tokens) */
  function JoinSpaced(tokens: seq<string>): string
  {
    Join(" ", tokens)
  }

  lemma SplitPrefixSpace(s: string)
    requires s != [] && IsSpace(s[0])
    ensures Split(s) == Split(s[1..])
  {
    var t := s[LeadingSpace(s)..];
    assert LeadingSpace(s) == 1 + LeadingSpace(s[1..]);
    assert t == s[1..][LeadingSpace(s[1..])..];
  }

  /** A whitespace-free word followed by nothing or by whitespace is split off as the first token. */
  lemma SplitWordThen(a: string, rest: string)
    requires a != [] && NoSpace(a)
    requires rest == [] || IsSpace(rest[0])
    ensures Split(a + rest) == [a] + Split(rest)
  {
    var s := a + rest;
    assert s[0] == a[0];
    assert LeadingSpace(s) == 0;
    assert s[LeadingSpace(s)..] == s;
    TokenOfWord(a, rest);
  }

  /** split() recovers any list of non-empty, whitespace-free tokens joined by single spaces. */
  lemma {:induction false} SplitJoin(tokens: seq<string>)
    requires forall k :: 0 <= k < |tokens| ==> tokens[k] != [] && NoSpace(tokens[k])
    ensures Split(JoinSpaced(tokens)) == tokens
    decreases |tokens|
  {
    if |tokens| == 1 {
      assert JoinSpaced(tokens) == tokens[0] + "";
      SplitWordThen(tokens[0], "");
    } else if |tokens| > 1 {
      var rest := " " + JoinSpaced(tokens[1..]);
      assert JoinSpaced(tokens) == tokens[0] + rest;
      SplitWordThen(tokens[0], rest);
      SplitPrefixSpace(rest);
      assert rest[1..] == JoinSpaced(tokens[1..]);
      SplitJoin(tokens[1..]);
    }
  }

  /** A whitespace-free word followed by nothing or by whitespace is one token. */
  lemma TokenOfWord(a: string, rest: string)
    requires a != [] && NoSpace(a)
    requires rest == [] || IsSpace(rest[0])
    ensures TokenLength(a + rest) == |a|
    ensures (a + rest)[..|a|] == a && (a + rest)[|a|..] == rest
    decreases |a|
  {
    if |a| > 1 {
      assert (a + rest)[1..] == a[1..] + rest;
      TokenOfWord(a[1..], rest);
    } else {
      assert (a + rest)[1..] == rest;
    }
  }

  predicate AllSpace(g: string)
  {
    forall k :: 0 <= k < |g| ==> IsSpace(g[k])
  }

  /** gaps[0] + tokens[0] + gaps[1] + ... + tokens[n - 1] + gaps[n]. */
  function Interleave(gaps: seq<string>, tokens: seq<string>): string
    requires |gaps| == |tokens| + 1
    decreases |tokens|
  {
    if tokens == [] then gaps[0] else gaps[0] + tokens[0] + Interleave(gaps[1..], tokens[1..])
  }

  /**
   * split() drops only whitespace: s is a run of whitespace, then the tokens
   * with a non-empty run of whitespace between each two, then a run of
   * whitespace. So the tokens are the maximal non-whitespace runs of s, in order.
   */
  lemma {:induction false} SplitCovers(s: string) returns (gaps: seq<string>)
    ensures |gaps| == |Split(s)| + 1
    ensures forall k :: 0 <= k < |gaps| ==> AllSpace(gaps[k])
    ensures forall k :: 0 < k < |Split(s)| ==> gaps[k] != []
    ensures Interleave(gaps, Split(s)) == s
    decreases |s|
  {
    var m := LeadingSpace(s);
    if m == |s| {
      gaps := [s];
      assert s[..m] == s;
    } else {
      var n := SplitStep(s);
      var token, rest := s[m..m + n], s[m + n..];
      var g := SplitCovers(rest);
      var ts := Split(rest);
      gaps := [s[..m]] + g;
      InterleaveCons(s[..m], token, g, ts);
      if ts != [] {
        FirstGapNonEmpty(g, ts, rest);
      }
      ConsGaps(s[..m], g, |ts|);
    }
  }

  /** Putting a whitespace run in front of the gaps of the rest keeps them whitespace, and non-empty inside. */
  lemma ConsGaps(g0: string, g: seq<string>, count: nat)
    requires |g| == count + 1
    requires AllSpace(g0) && forall k :: 0 <= k < |g| ==> AllSpace(g[k])
    requires forall k :: 0 < k < count ==> g[k] != []
    requires count > 0 ==> g[0] != []
    ensures forall k :: 0 <= k < |[g0] + g| ==> AllSpace(([g0] + g)[k])
    ensures forall k :: 0 < k < count + 1 ==> ([g0] + g)[k] != []
  {
    forall k | 0 < k < |[g0] + g|
      ensures ([g0] + g)[k] == g[k - 1]
    {
    }
  }

  /** Where some token is left, split() takes the run after the leading whitespace. */
  lemma SplitStep(s: string) returns (n: nat)
    requires LeadingSpace(s) < |s|
    ensures var m := LeadingSpace(s);
            && 0 < n && m + n <= |s|
            && Split(s) == [s[m..m + n]] + Split(s[m + n..])
            && (m + n == |s| || IsSpace(s[m + n]))
            && AllSpace(s[..m])
            && s[..m] + s[m..m + n] + s[m + n..] == s
  {
    var m := LeadingSpace(s);
    var t := s[m..];
    n := TokenLength(t);
    assert t[0] == s[m];
    assert t[..n] == s[m..m + n] && t[n..] == s[m + n..];
    assert m + n < |s| ==> t[n] == s[m + n];
    LeadingGap(s);
    ThreeParts(s, m, n);
  }

  lemma LeadingGap(s: string)
    ensures AllSpace(s[..LeadingSpace(s)])
  {
  }

  lemma ThreeParts(s: string, m: nat, n: nat)
    requires m + n <= |s|
    ensures s[..m] + s[m..m + n] + s[m + n..] == s
  {
    assert s[..m] + s[m..m + n] == s[..m + n];
  }

  lemma InterleaveCons(g0: string, token: string, gaps: seq<string>, tokens: seq<string>)
    requires |gaps| == |tokens| + 1
    ensures Interleave([g0] + gaps, [token] + tokens) == g0 + token + Interleave(gaps, tokens)
  {
    assert ([g0] + gaps)[1..] == gaps && ([token] + tokens)[1..] == tokens;
  }

  /** Text that starts with whitespace and interleaves a non-empty token list has a non-empty first gap. */
  lemma FirstGapNonEmpty(gaps: seq<string>, tokens: seq<string>, rest: string)
    requires |gaps| == |tokens| + 1 && tokens != [] && tokens[0] != []
    requires Interleave(gaps, tokens) == rest && rest != [] && IsSpace(rest[0])
    requires NoSpace(tokens[0])
    ensures gaps[0] != []
  {
    var tail := tokens[0] + Interleave(gaps[1..], tokens[1..]);
    assert rest == gaps[0] + tail && tail[0] == tokens[0][0];
    assert rest[0] != tail[0];
  }

  /** The index of the first line break, or |s|. */
  function LineEnd(s: string): (n: nat)
    ensures n <= |s|
    ensures forall k :: 0 <= k < n ==> !IsLineBreak(s[k])
    ensures n < |s| ==> IsLineBreak(s[n])
  {
    if s == [] || IsLineBreak(s[0]) then 0 else 1 + LineEnd(s[1..])
  }

  /** s.splitlines(): no final empty line after a trailing break, "\r\n" as one break. */
  function SplitLines(s: string): (r: seq<string>)
    ensures forall k, i :: 0 <= k < |r| && 0 <= i < |r[k]| ==> !IsLineBreak(r[k][i])
    ensures s != [] ==> |r| > 0
    decreases |s|
  {
    if s == [] then []
    else
      var n := LineEnd(s);
      if n == |s| then [s]
      else
        [s[..n]] + SplitLines(s[BreakEnd(s, n)..])
  }

  /** Where the text resumes after the break at s[n]: "\r\n" is one two-character break. */
  function BreakEnd(s: string, n: nat): (e: nat)
    requires n < |s|
    ensures n < e <= |s|
  {
    if s[n] == '\r' && n + 1 < |s| && s[n + 1] == '\n' then n + 2 else n + 1
  }

  /** A text with no line break is one line; a break ends the first line exactly there. */
  lemma SplitLinesFirst(s: string)
    ensures LineEnd(s) == |s| && s != [] ==> SplitLines(s) == [s]
    ensures LineEnd(s) < |s| ==> SplitLines(s)[0] == s[..LineEnd(s)]
  {
  }

  /** "\n".join(s.splitlines()) gives s back when every break of s is "\n" and s does not end with one. */
  lemma {:induction false} JoinSplitLines(s: string)
    requires forall k :: 0 <= k < |s| && IsLineBreak(s[k]) ==> s[k] == '\n'
    requires s == [] || s[|s| - 1] != '\n'
    ensures Join("\n", SplitLines(s)) == s
    decreases |s|
  {
    if s != [] && LineEnd(s) < |s| {
      var n := LineEnd(s);
      var rest := s[n + 1..];
      NewlineRest(s, n);
      JoinSplitLines(rest);
      SplitLinesAtNewline(s, n);
      assert rest != [];
      JoinCons("\n", s[..n], SplitLines(rest));
      assert s == s[..n] + "\n" + rest;
    }
  }

  /** Every line break of s is a "\n". */
  predicate NewlinesOnly(s: string)
  {
    forall k :: 0 <= k < |s| && IsLineBreak(s[k]) ==> s[k] == '\n'
  }

  /** What follows the first "\n" of such a text is again such a text. */
  lemma NewlineRest(s: string, n: nat)
    requires NewlinesOnly(s) && s != [] && s[|s| - 1] != '\n'
    requires n == LineEnd(s) && n < |s|
    ensures s[n] == '\n' && n + 1 < |s|
    ensures NewlinesOnly(s[n + 1..]) && s[|s| - 1] != '\n'
  {
    var rest := s[n + 1..];
    forall k | 0 <= k < |rest| && IsLineBreak(rest[k])
      ensures rest[k] == '\n'
    {
      assert rest[k] == s[n + 1 + k];
    }
  }

  /** At a one-character break splitlines() cuts off the first line and goes on after the break. */
  lemma SplitLinesAtNewline(s: string, n: nat)
    requires n == LineEnd(s) && n < |s| && s[n] != '\r'
    ensures SplitLines(s) == [s[..n]] + SplitLines(s[n + 1..])
  {
    assert BreakEnd(s, n) == n + 1;
  }

  lemma JoinCons(sep: string, a: string, xs: seq<string>)
    requires xs != []
    ensures Join(sep, [a] + xs) == a + sep + Join(sep, xs)
  {
    assert ([a] + xs)[1..] == xs;
  }

  // ---------------------------------------------------------------------------
  // Joining and integers

  /** sep.join(xs) */
  function Join(sep: string, xs: seq<string>): string
    decreases |xs|
  {
    if xs == [] then "" else if |xs| == 1 then xs[0] else xs[0] + sep + Join(sep, xs[1..])
  }

  function CountChar(s: string, c: char): nat
    decreases |s|
  {
    if s == [] then 0 else (if s[0] == c then 1 else 0) + CountChar(s[1..], c)
  }

  lemma CountCharAppend(a: string, b: string, c: char)
    ensures CountChar(a + b, c) == CountChar(a, c) + CountChar(b, c)
    decreases |a|
  {
    if a != [] {
      assert (a + b)[1..] == a[1..] + b;
      CountCharAppend(a[1..], b, c);
    } else {
      assert a + b == b;
    }
  }

  /** ", ".join of comma-free fields has one comma fewer than fields, so the fields can be told apart. */
  lemma {:induction false} JoinCommaCount(xs: seq<string>)
    requires |xs| > 0
    requires forall k :: 0 <= k < |xs| ==> CountChar(xs[k], ',') == 0
    ensures CountChar(Join(", ", xs), ',') == |xs| - 1
    decreases |xs|
  {
    if |xs| > 1 {
      JoinCommaCount(xs[1..]);
      CountCharAppend(xs[0], ", ", ',');
      CountCharAppend(xs[0] + ", ", Join(", ", xs[1..]), ',');
      assert CountChar(", ", ',') == 1;
    }
  }

  predicate IsDigit(c: char) { '0' <= c <= '9' }

  predicate AllDigits(s: string)
  {
    forall k :: 0 <= k < |s| ==> IsDigit(s[k])
  }

  /** The value of a run of decimal digits. */
  function DigitsValue(s: string): nat
    requires AllDigits(s)
    decreases |s|
  {
    if s == [] then 0 else DigitsValue(s[..|s| - 1]) * 10 + (s[|s| - 1] as int - '0' as int)
  }

  /** The decimal digits of n, most significant first, without leading zeros. */
  function NatToDigits(n: nat): (s: string)
    ensures s != [] && AllDigits(s)
    ensures |s| > 1 ==> s[0] != '0'
    decreases n
  {
    if n < 10 then [('0' as int + n) as char] else NatToDigits(n / 10) + [('0' as int + n % 10) as char]
  }

  lemma {:induction false} DigitsRoundTrip(n: nat)
    ensures DigitsValue(NatToDigits(n)) == n
    decreases n
  {
    if n >= 10 {
      var s := NatToDigits(n);
      assert s[..|s| - 1] == NatToDigits(n / 10);
      DigitsRoundTrip(n / 10);
    }
  }

  /** str(n) for a Python int. */
  function IntToString(n: int): string
  {
    if n < 0 then "-" + NatToDigits(-n) else NatToDigits(n)
  }

  /** int(s) for a token: an optional sign and one or more ASCII digits; None where Python raises ValueError. */
  function ParseInt(s: string): Option<int>
  {
    if |s| > 0 && (s[0] == '-' || s[0] == '+') then
      if |s| > 1 && AllDigits(s[1..]) then
        var v: int := DigitsValue(s[1..]);
        Some(if s[0] == '-' then -v else v)
      else None
    else if |s| > 0 && AllDigits(s) then Some(DigitsValue(s))
    else None
  }

  /** int(str(n)) == n. */
  lemma ParseIntOfString(n: int)
    ensures ParseInt(IntToString(n)) == Some(n)
  {
    if n < 0 {
      ParseNegative(NatToDigits(-n));
      DigitsRoundTrip(-n);
    } else {
      ParseUnsigned(NatToDigits(n));
      DigitsRoundTrip(n);
    }
  }

  lemma ParseUnsigned(d: string)
    requires d != [] && AllDigits(d)
    ensures ParseInt(d) == Some(DigitsValue(d))
  {
    assert IsDigit(d[0]);
  }

  lemma ParseNegative(d: string)
    requires d != [] && AllDigits(d)
    ensures ParseInt("-" + d) == Some(-(DigitsValue(d) as int))
  {
    var t := "-" + d;
    assert t[0] == '-' && t[1..] == d;
  }

  /** The index of the first '/', or |s|. */
  function SlashIndex(s: string): (n: nat)
    ensures n <= |s| && (forall k :: 0 <= k < n ==> s[k] != '/') && (n < |s| ==> s[n] == '/')
  {
    if s == [] || s[0] == '/' then 0 else 1 + SlashIndex(s[1..])
  }

  /** part.split("/")[0] */
  function BeforeSlash(s: string): string
  {
    s[..SlashIndex(s)]
  }

  // ---------------------------------------------------------------------------
  // Records

  /** line.split()[1:] */
  function Rest(tokens: seq<string>): seq<string>
  {
    if tokens == [] then [] else tokens[1..]
  }

  /** The tokens after the tag of one record line. */
  function Arguments(line: string): seq<string>
  {
    Rest(Split(line))
  }

  /** The lines that start with the tag, in input order. */
  function Tagged(lines: seq<string>, tag: string): (r: seq<string>)
    ensures |r| <= |lines|
    ensures forall k :: 0 <= k < |r| ==> StartsWith(r[k], tag) && r[k] in lines
    ensures forall k :: 0 <= k < |lines| && StartsWith(lines[k], tag) ==> lines[k] in r
    decreases |lines|
  {
    if lines == [] then []
    else
      var init := lines[..|lines| - 1];
      var prefix := Tagged(init, tag);
      var last := lines[|lines| - 1];
      assert forall k :: 0 <= k < |lines| - 1 ==> lines[k] == init[k];
      if StartsWith(last, tag) then prefix + [last] else prefix
  }

  /** Filtering a concatenation filters each part and keeps them in order. */
  lemma {:induction false} TaggedAppend(a: seq<string>, b: seq<string>, tag: string)
    ensures Tagged(a + b, tag) == Tagged(a, tag) + Tagged(b, tag)
    decreases |b|
  {
    if b == [] {
      assert a + b == a;
    } else {
      var b0, l := b[..|b| - 1], b[|b| - 1];
      TaggedAppend(a, b0, tag);
      assert b == b0 + [l];
      assert a + b == (a + b0) + [l];
      TaggedSnoc(a + b0, l, tag);
      TaggedSnoc(b0, l, tag);
      AppendAssoc(Tagged(a, tag), Tagged(b0, tag), if StartsWith(l, tag) then [l] else []);
    }
  }

  lemma AppendAssoc(x: seq<string>, y: seq<string>, z: seq<string>)
    ensures x + y + z == x + (y + z)
  {
  }

  /** One more line keeps the tagged lines so far, and adds itself when it carries the tag. */
  lemma TaggedSnoc(ls: seq<string>, l: string, tag: string)
    ensures Tagged(ls + [l], tag) == Tagged(ls, tag) + (if StartsWith(l, tag) then [l] else [])
  {
    assert (ls + [l])[..|ls|] == ls;
  }

  /** Each tagged line is kept as often as it occurs in the input, and no other line is kept. */
  lemma {:induction false} TaggedCounts(lines: seq<string>, tag: string, x: string)
    ensures multiset(Tagged(lines, tag))[x] == if StartsWith(x, tag) then multiset(lines)[x] else 0
    decreases |lines|
  {
    if lines != [] {
      var init := lines[..|lines| - 1];
      var last := lines[|lines| - 1];
      TaggedCounts(init, tag, x);
      assert lines == init + [last];
      assert multiset(lines) == multiset(init) + multiset{last};
    }
  }

  /** A line starts with at most one of the four record tags. */
  lemma TagsExclusive(line: string)
    ensures StartsWith(line, "v ") ==> !StartsWith(line, "vn ") && !StartsWith(line, "vt ") && !StartsWith(line, "f ")
    ensures StartsWith(line, "vn ") ==> !StartsWith(line, "vt ") && !StartsWith(line, "f ")
    ensures StartsWith(line, "vt ") ==> !StartsWith(line, "f ")
  {
    if StartsWith(line, "vn ") { assert line[1] == 'n'; }
    if StartsWith(line, "vt ") { assert line[1] == 't'; }
  }

  /**
   * The shared loop of the four parse_* functions as a specification: the
   * entries of the tagged lines, in order, or None once one of them fails.
   */
  function Records<T>(lines: seq<string>, tag: string, entry: seq<string> -> Option<T>): Option<seq<T>>
    decreases |lines|
  {
    if lines == [] then Some([])
    else
      var prefix := Records(lines[..|lines| - 1], tag, entry);
      var last := lines[|lines| - 1];
      if prefix.None? then None
      else if !StartsWith(last, tag) then prefix
      else
        var e := entry(Arguments(last));
        if e.None? then None else Some(prefix.value + [e.value])
  }

  /**
   * The records are exactly the entries of the tagged lines: one per tagged
   * line, in order, and the parse fails iff the entry of some tagged line fails.
   */
  lemma RecordsOfTagged<T>(lines: seq<string>, tag: string, entry: seq<string> -> Option<T>)
    ensures var ts := Tagged(lines, tag);
            var r := Records(lines, tag, entry);
            && (r.None? <==> exists k :: 0 <= k < |ts| && entry(Arguments(ts[k])).None?)
            && (r.Some? ==> |r.value| == |ts| && forall k :: 0 <= k < |ts| ==> Some(r.value[k]) == entry(Arguments(ts[k])))
  {
    RecordsSucceed(lines, tag, entry);
    RecordsValues(lines, tag, entry);
  }

  /** Every entry of the lines succeeds. */
  predicate EntriesSucceed<T>(ts: seq<string>, entry: seq<string> -> Option<T>)
  {
    forall k :: 0 <= k < |ts| ==> entry(Arguments(ts[k])).Some?
  }

  lemma EntriesSucceedSnoc<T>(ts: seq<string>, last: string, entry: seq<string> -> Option<T>)
    ensures EntriesSucceed(ts + [last], entry) <==> EntriesSucceed(ts, entry) && entry(Arguments(last)).Some?
  {
    var ts' := ts + [last];
    assert ts'[|ts|] == last;
    assert forall k :: 0 <= k < |ts| ==> ts'[k] == ts[k];
  }

  /** The parse succeeds iff the entry of every tagged line does. */
  lemma {:induction false} RecordsSucceed<T>(lines: seq<string>, tag: string, entry: seq<string> -> Option<T>)
    ensures Records(lines, tag, entry).Some? <==> EntriesSucceed(Tagged(lines, tag), entry)
    decreases |lines|
  {
    if lines != [] {
      var init, last := lines[..|lines| - 1], lines[|lines| - 1];
      RecordsSucceed(init, tag, entry);
      if StartsWith(last, tag) {
        EntriesSucceedSnoc(Tagged(init, tag), last, entry);
      }
    }
  }

  /** A successful parse holds one value per tagged line: that line's entry. */
  lemma {:induction false} RecordsValues<T>(lines: seq<string>, tag: string, entry: seq<string> -> Option<T>)
    ensures var ts := Tagged(lines, tag);
            var r := Records(lines, tag, entry);
            r.Some? ==> |r.value| == |ts| && forall k :: 0 <= k < |ts| ==> Some(r.value[k]) == entry(Arguments(ts[k]))
    decreases |lines|
  {
    if lines != [] {
      var init, last := lines[..|lines| - 1], lines[|lines| - 1];
      RecordsValues(init, tag, entry);
      var ts0, ts := Tagged(init, tag), Tagged(lines, tag);
      var r0, r := Records(init, tag, entry), Records(lines, tag, entry);
      if StartsWith(last, tag) && r.Some? {
        var e := entry(Arguments(last));
        assert ts == ts0 + [last];
        assert r.value == r0.value + [e.value];
        forall k | 0 <= k < |ts|
          ensures Some(r.value[k]) == entry(Arguments(ts[k]))
        {
          if k < |ts0| {
            assert ts[k] == ts0[k] && r.value[k] == r0.value[k];
          }
        }
      }
    }
  }

  /** The comma-joined text of one v/vn/vt record: ", ".join(map(str, map(float, parts))). */
  function Fields(parts: seq<string>, repr: string -> Option<string>): Option<string>
  {
    var rs := Reprs(parts, repr);
    if rs.None? then None else Some(Join(", ", rs.value))
  }

  /** The entry of a v, vn or vt record: its comma-joined float texts. */
  function FloatEntry(repr: string -> Option<string>): seq<string> -> Option<string>
  {
    parts => Fields(parts, repr)
  }

  function Reprs(parts: seq<string>, repr: string -> Option<string>): (r: Option<seq<string>>)
    ensures r.Some? ==> |r.value| == |parts| && forall k :: 0 <= k < |parts| ==> Some(r.value[k]) == repr(parts[k])
    ensures r.None? ==> exists k :: 0 <= k < |parts| && repr(parts[k]).None?
    decreases |parts|
  {
    if parts == [] then Some([])
    else
      var head := repr(parts[0]);
      var tail := Reprs(parts[1..], repr);
      if head.None? || tail.None? then None else Some([head.value] + tail.value)
  }

  /**
   * An entry has one field per token after the tag: the float texts contain
   * no comma (as Python's never do), so the commas separate exactly the fields.
   */
  lemma FieldsCount(parts: seq<string>, repr: string -> Option<string>)
    requires forall t :: repr(t).Some? ==> CountChar(repr(t).value, ',') == 0
    ensures Fields(parts, repr).Some? && |parts| > 0 ==> CountChar(Fields(parts, repr).value, ',') == |parts| - 1
    ensures parts == [] ==> Fields(parts, repr) == Some("")
  {
    var rs := Reprs(parts, repr);
    if rs.Some? && |parts| > 0 {
      assert forall k :: 0 <= k < |rs.value| ==> CountChar(rs.value[k], ',') == 0 by {
        forall k | 0 <= k < |rs.value| ensures CountChar(rs.value[k], ',') == 0 {
          assert Some(rs.value[k]) == repr(parts[k]);
        }
      }
      JoinCommaCount(rs.value);
    }
  }

  /**
   * The zero-based indices of one face: int(part.split("/")[0]) - 1 for each
   * part, or None (the list comprehension's exception) when a part does not read.
   */
  function FaceIndices(parts: seq<string>): (r: Option<seq<int>>)
    ensures r.Some? ==> |r.value| == |parts|
                        && forall k :: 0 <= k < |parts| ==> ParseInt(BeforeSlash(parts[k])) == Some(r.value[k] + 1)
    ensures r.None? <==> exists k :: 0 <= k < |parts| && ParseInt(BeforeSlash(parts[k])).None?
  {
    if forall k :: 0 <= k < |parts| ==> ParseInt(BeforeSlash(parts[k])).Some? then
      Some(seq(|parts|, k requires 0 <= k < |parts| => ParseInt(BeforeSlash(parts[k])).value - 1))
    else None
  }

  // ---------------------------------------------------------------------------
  // The parse_* loops

  /** A failure stays a failure as more lines are read. */
  lemma {:induction false} RecordsFailureSticks<T>(lines: seq<string>, i: nat, tag: string, entry: seq<string> -> Option<T>)
    requires i <= |lines| && Records(lines[..i], tag, entry).None?
    ensures Records(lines, tag, entry).None?
    decreases |lines| - i
  {
    if i < |lines| {
      assert lines[..i + 1][..i] == lines[..i];
      RecordsFailureSticks(lines, i + 1, tag, entry);
    } else {
      assert lines[..i] == lines;
    }
  }

  /** for line in lines: if line.startswith(tag): records.append(entry(line.split()[1:])) */
  method ParseRecords<T>(lines: seq<string>, tag: string, entry: seq<string> -> Option<T>) returns (r: Option<seq<T>>)
    ensures r == Records(lines, tag, entry)
  {
    var records: seq<T> := [];
    for i := 0 to |lines|
      invariant Records(lines[..i], tag, entry) == Some(records)
    {
      assert lines[..i + 1][..i] == lines[..i];
      if StartsWith(lines[i], tag) {
        var parts := Rest(Split(lines[i]));
        var e := entry(parts);
        if e.None? {
          RecordsFailureSticks(lines, i + 1, tag, entry);
          return None;
        }
        records := records + [e.value];
      }
    }
    assert lines[..|lines|] == lines;
    return Some(records);
  }

  method ParseVertices(lines: seq<string>, repr: string -> Option<string>) returns (vertices: Option<seq<string>>)
    ensures vertices == Records(lines, "v ", FloatEntry(repr))
  {
    vertices := ParseRecords(lines, "v ", FloatEntry(repr));
  }

  method ParseFaces(lines: seq<string>) returns (indices: Option<seq<seq<int>>>)
    ensures indices == Records(lines, "f ", FaceIndices)
  {
    indices := ParseRecords(lines, "f ", FaceIndices);
  }

  method ParseNormals(lines: seq<string>, repr: string -> Option<string>) returns (normals: Option<seq<string>>)
    ensures normals == Records(lines, "vn ", FloatEntry(repr))
  {
    normals := ParseRecords(lines, "vn ", FloatEntry(repr));
  }

  method ParseTextureCoords(lines: seq<string>, repr: string -> Option<string>) returns (textureCoords: Option<seq<string>>)
    ensures textureCoords == Records(lines, "vt ", FloatEntry(repr))
  {
    textureCoords := ParseRecords(lines, "vt ", FloatEntry(repr));
  }

  // ---------------------------------------------------------------------------
  // parse_obj and the printed output

  datatype Obj = Obj(vertices: seq<string>, indices: seq<seq<int>>, normals: seq<string>, textureCoords: seq<string>)

  /** input_data.strip().splitlines() */
  function InputLines(input: string): seq<string>
  {
    SplitLines(Strip(input))
  }

  /** What parse_obj returns: the four parses of one and the same line list. */
  function ObjOf(input: string, repr: string -> Option<string>): Option<Obj>
  {
    var lines := InputLines(input);
    var v := Records(lines, "v ", FloatEntry(repr));
    var f := Records(lines, "f ", FaceIndices);
    var n := Records(lines, "vn ", FloatEntry(repr));
    var t := Records(lines, "vt ", FloatEntry(repr));
    if v.None? || f.None? || n.None? || t.None? then None
    else Some(Obj(v.value, f.value, n.value, t.value))
  }

  method ParseObj(input: string, repr: string -> Option<string>) returns (r: Option<Obj>)
    ensures r == ObjOf(input, repr)
  {
    var lines := SplitLines(Strip(input));
    var vertices := ParseVertices(lines, repr);
    if vertices.None? { return None; }
    var indices := ParseFaces(lines);
    if indices.None? { return None; }
    var normals := ParseNormals(lines, repr);
    if normals.None? { return None; }
    var textureCoords := ParseTextureCoords(lines, repr);
    if textureCoords.None? { return None; }
    return Some(Obj(vertices.value, indices.value, normals.value, textureCoords.value));
  }

  /**
   * A parsed object has one vertex per `v ` line, one face per `f ` line with
   * one index per token after the tag, and one normal and one texture
   * coordinate per `vn ` and `vt ` line of the stripped input.
   */
  lemma ObjCounts(input: string, repr: string -> Option<string>)
    requires ObjOf(input, repr).Some?
    ensures var o := ObjOf(input, repr).value;
            var lines := InputLines(input);
            && |o.vertices| == |Tagged(lines, "v ")|
            && |o.indices| == |Tagged(lines, "f ")|
            && (forall k :: 0 <= k < |o.indices| ==> |o.indices[k]| == |Arguments(Tagged(lines, "f ")[k])|)
            && |o.normals| == |Tagged(lines, "vn ")|
            && |o.textureCoords| == |Tagged(lines, "vt ")|
  {
    var lines := InputLines(input);
    RecordsOfTagged(lines, "v ", FloatEntry(repr));
    RecordsOfTagged(lines, "f ", FaceIndices);
    RecordsOfTagged(lines, "vn ", FloatEntry(repr));
    RecordsOfTagged(lines, "vt ", FloatEntry(repr));
    var o := ObjOf(input, repr).value;
    forall k | 0 <= k < |o.indices|
      ensures |o.indices[k]| == |Arguments(Tagged(lines, "f ")[k])|
    {
      assert Some(o.indices[k]) == FaceIndices(Arguments(Tagged(lines, "f ")[k]));
    }
  }

  const INDENT: string := ",\n    "

  /** ", ".join(map(str, triangle)) */
  function FaceText(face: seq<int>): string
  {
    Join(", ", seq(|face|, k requires 0 <= k < |face| => IntToString(face[k])))
  }

  /** "this.<name> = new <arrayType>([" */
  function Header(name: string, arrayType: string): string
  {
    "this." + name + " = new " + arrayType + "(["
  }

  /** formatted_indices before joining: one text per face. */
  function FacesText(indices: seq<seq<int>>): seq<string>
  {
    seq(|indices|, k requires 0 <= k < |indices| => FaceText(indices[k]))
  }

  /** The statement one print call writes, without its final newline. */
  function ArrayStatement(name: string, arrayType: string, items: seq<string>): string
  {
    Header(name, arrayType) + "\n    " + Join(INDENT, items) + "\n]);"
  }

  /** A statement starts with its own header, and its sixth character is the first of the name it assigns. */
  lemma ArrayStatementStart(name: string, arrayType: string, items: seq<string>)
    requires name != []
    ensures StartsWith(ArrayStatement(name, arrayType, items), Header(name, arrayType))
    ensures |ArrayStatement(name, arrayType, items)| > 5 && ArrayStatement(name, arrayType, items)[5] == name[0]
  {
    var h := Header(name, arrayType);
    var st := ArrayStatement(name, arrayType, items);
    assert st == h + ("\n    " + Join(INDENT, items) + "\n]);");
    assert h[5] == name[0];
  }

  /** The print calls of the output section, in order: vertices and indices always, normals and texture coordinates when there are any. */
  function Statements(o: Obj): seq<string>
  {
    [ArrayStatement("vertices", "Float32Array", o.vertices), ArrayStatement("indices", "Uint8Array", FacesText(o.indices))]
    + (if o.normals != [] then [ArrayStatement("normals", "Float32Array", o.normals)] else [])
    + (if o.textureCoords != [] then [ArrayStatement("textureCoords", "Float32Array", o.textureCoords)] else [])
  }

  /** Whether a printed statement assigns the field `name`. */
  predicate Assigns(statement: string, name: string)
  {
    StartsWith(statement, "this." + name + " = ")
  }

  lemma AssignsOwn(name: string, arrayType: string, items: seq<string>)
    ensures Assigns(ArrayStatement(name, arrayType, items), name)
  {
    var p := "this." + name + " = ";
    var st := ArrayStatement(name, arrayType, items);
    assert st == p + ("new " + arrayType + "([" + "\n    " + Join(INDENT, items) + "\n]);");
  }

  lemma AssignsOther(name: string, other: string, arrayType: string, items: seq<string>)
    requires name != [] && other != [] && name[0] != other[0]
    ensures !Assigns(ArrayStatement(name, arrayType, items), other)
  {
    ArrayStatementStart(name, arrayType, items);
    var p := "this." + other + " = ";
    assert p[5] == other[0];
  }

  /**
   * Vertices are printed first and indices second, always; a normals
   * statement is printed iff there are normals, and a texture-coordinate
   * statement iff there are texture coordinates.
   */
  lemma StatementsShape(o: Obj)
    ensures var r := Statements(o);
            && |r| == 2 + (if o.normals != [] then 1 else 0) + (if o.textureCoords != [] then 1 else 0)
            && Assigns(r[0], "vertices") && Assigns(r[1], "indices")
            && ((exists k :: 0 <= k < |r| && Assigns(r[k], "normals")) <==> o.normals != [])
            && ((exists k :: 0 <= k < |r| && Assigns(r[k], "textureCoords")) <==> o.textureCoords != [])
  {
    var v, i, n, t := StatementParts(o);
    var r := Statements(o);
    AssignsOwn("vertices", "Float32Array", o.vertices);
    AssignsOwn("indices", "Uint8Array", FacesText(o.indices));
    if o.normals != [] {
      AssignsOwn("normals", "Float32Array", o.normals);
      assert r[2] == n;
    } else {
      AssignsOther("vertices", "normals", "Float32Array", o.vertices);
      AssignsOther("indices", "normals", "Uint8Array", FacesText(o.indices));
      AssignsOther("textureCoords", "normals", "Float32Array", o.textureCoords);
      forall k | 0 <= k < |r| ensures !Assigns(r[k], "normals") {
        if k >= 2 { assert r[k] == t; }
      }
    }
    if o.textureCoords != [] {
      AssignsOwn("textureCoords", "Float32Array", o.textureCoords);
      assert r[|r| - 1] == t;
    } else {
      AssignsOther("vertices", "textureCoords", "Float32Array", o.vertices);
      AssignsOther("indices", "textureCoords", "Uint8Array", FacesText(o.indices));
      AssignsOther("normals", "textureCoords", "Float32Array", o.normals);
      forall k | 0 <= k < |r| ensures !Assigns(r[k], "textureCoords") {
        if k >= 2 { assert r[k] == n; }
      }
    }
  }

  /** Names the four candidate statements for StatementsShape's proof. */
  lemma StatementParts(o: Obj) returns (v: string, i: string, n: string, t: string)
    ensures v == ArrayStatement("vertices", "Float32Array", o.vertices)
    ensures i == ArrayStatement("indices", "Uint8Array", FacesText(o.indices))
    ensures n == ArrayStatement("normals", "Float32Array", o.normals)
    ensures t == ArrayStatement("textureCoords", "Float32Array", o.textureCoords)
    ensures Statements(o) == [v, i] + (if o.normals != [] then [n] else []) + (if o.textureCoords != [] then [t] else [])
  {
    v := ArrayStatement("vertices", "Float32Array", o.vertices);
    i := ArrayStatement("indices", "Uint8Array", FacesText(o.indices));
    n := ArrayStatement("normals", "Float32Array", o.normals);
    t := ArrayStatement("textureCoords", "Float32Array", o.textureCoords);
  }
}
