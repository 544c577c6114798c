/**
 * The cube that obj_parser.py carries as its input_data, and what parse_obj
 * makes of it: eight vertices, twelve triangles, six normals and fourteen
 * texture coordinates.
 *
 * The text is written as its records: each line of input_data is the list of
 * its whitespace-separated tokens joined by single spaces, and the text is an
 * opening newline followed by every line and its newline, as the
 * triple-quoted literal is.
 */
module ObjData {
  import opened Options
  import opened ObjParser

  const VERTEX_RECORDS: seq<seq<string>> := [
    ["v", "1.000000", "1.000000", "-1.000000"],
    ["v", "1.000000", "-1.000000", "-1.000000"],
    ["v", "1.000000", "1.000000", "1.000000"],
    ["v", "1.000000", "-1.000000", "1.000000"],
    ["v", "-1.000000", "1.000000", "-1.000000"],
    ["v", "-1.000000", "-1.000000", "-1.000000"],
    ["v", "-1.000000", "1.000000", "1.000000"],
    ["v", "-1.000000", "-1.000000", "1.000000"]]

  const NORMAL_RECORDS: seq<seq<string>> := [
    ["vn", "-0.0000", "1.0000", "-0.0000"],
    ["vn", "-0.0000", "-0.0000", "1.0000"],
    ["vn", "-1.0000", "-0.0000", "-0.0000"],
    ["vn", "-0.0000", "-1.0000", "-0.0000"],
    ["vn", "1.0000", "-0.0000", "-0.0000"],
    ["vn", "-0.0000", "-0.0000", "-1.0000"]]

  const TEXTURE_RECORDS: seq<seq<string>> := [
    ["vt", "0.875000", "0.500000"],
    ["vt", "0.625000", "0.750000"],
    ["vt", "0.625000", "0.500000"],
    ["vt", "0.375000", "1.000000"],
    ["vt", "0.375000", "0.750000"],
    ["vt", "0.625000", "0.000000"],
    ["vt", "0.375000", "0.250000"],
    ["vt", "0.375000", "0.000000"],
    ["vt", "0.375000", "0.500000"],
    ["vt", "0.125000", "0.750000"],
    ["vt", "0.125000", "0.500000"],
    ["vt", "0.625000", "0.250000"],
    ["vt", "0.875000", "0.750000"],
    ["vt", "0.625000", "1.000000"]]

  const SMOOTHING_RECORD: seq<string> := ["s", "0"]

  const FACE_RECORDS: seq<seq<string>> := [
    ["f", "5/1/1", "3/2/1", "1/3/1"],
    ["f", "3/2/2", "8/4/2", "4/5/2"],
    ["f", "7/6/3", "6/7/3", "8/8/3"],
    ["f", "2/9/4", "8/10/4", "6/11/4"],
    ["f", "1/3/5", "4/5/5", "2/9/5"],
    ["f", "5/12/6", "2/9/6", "6/7/6"],
    ["f", "5/1/1", "7/13/1", "3/2/1"],
    ["f", "3/2/2", "7/14/2", "8/4/2"],
    ["f", "7/6/3", "5/12/3", "6/7/3"],
    ["f", "2/9/4", "4/5/4", "8/10/4"],
    ["f", "1/3/5", "3/2/5", "4/5/5"],
    ["f", "5/12/6", "1/3/6", "2/9/6"]]

  const RECORDS: seq<seq<string>> := VERTEX_RECORDS + NORMAL_RECORDS + TEXTURE_RECORDS + [SMOOTHING_RECORD] + FACE_RECORDS

  /** input_data */
  const INPUT_DATA: string := "\n" + Terminated(Lines(RECORDS))

  /** The zero-based vertex indices of the twelve triangles. */
  const FACE_INDICES: seq<seq<int>> := [
    [4, 2, 0], [2, 7, 3], [6, 5, 7], [1, 7, 5], [0, 3, 1], [4, 1, 5],
    [4, 6, 2], [2, 6, 7], [6, 4, 5], [1, 3, 7], [0, 2, 3], [4, 0, 1]]

  /** Each record written as one line. */
  function Lines(rs: seq<seq<string>>): (ls: seq<string>)
    ensures |ls| == |rs|
    decreases |rs|
  {
    if rs == [] then [] else Lines(rs[..|rs| - 1]) + [JoinSpaced(rs[|rs| - 1])]
  }

  lemma {:induction false} LinesIndex(rs: seq<seq<string>>, k: nat)
    requires k < |rs|
    ensures Lines(rs)[k] == JoinSpaced(rs[k])
    decreases |rs|
  {
    if k < |rs| - 1 {
      LinesIndex(rs[..|rs| - 1], k);
    }
  }

  /** Each line followed by a newline. */
  function Terminated(ls: seq<string>): string
    decreases |ls|
  {
    if ls == [] then "" else ls[0] + "\n" + Terminated(ls[1..])
  }

  function Last<T>(s: seq<T>): T
    requires s != []
  {
    s[|s| - 1]
  }

  // ---------------------------------------------------------------------------
  // Tokens

  /** A token of visible ASCII characters only. */
  predicate Graphic(t: string)
  {
    t != [] && forall i :: 0 <= i < |t| ==> '!' <= t[i] <= '~'
  }

  predicate GraphicRecord(r: seq<string>)
  {
    |r| >= 2 && forall j :: 0 <= j < |r| ==> Graphic(r[j])
  }

  predicate GraphicRecords(rs: seq<seq<string>>)
  {
    forall k :: 0 <= k < |rs| ==> GraphicRecord(rs[k])
  }

  lemma GraphicIsPlain(t: string)
    requires Graphic(t)
    ensures NoSpace(t) && forall i :: 0 <= i < |t| ==> !IsLineBreak(t[i])
  {
  }

  lemma {:induction false} GraphicAppend(a: seq<seq<string>>, b: seq<seq<string>>)
    requires GraphicRecords(a) && GraphicRecords(b)
    ensures GraphicRecords(a + b)
  {
    forall k | 0 <= k < |a + b|
      ensures GraphicRecord((a + b)[k])
    {
      if k >= |a| {
        assert (a + b)[k] == b[k - |a|];
      }
    }
  }

  /** The distinct tokens of the vertex lines. */
  predicate VertexToken(t: string)
  {
    t == "v" || t == "1.000000" || t == "-1.000000"
  }

  lemma VertexTokens()
    ensures forall k, j :: 0 <= k < |VERTEX_RECORDS| && 0 <= j < |VERTEX_RECORDS[k]| ==> VertexToken(VERTEX_RECORDS[k][j])
  {
  }

  lemma VertexTokenIsGraphic(t: string)
    requires VertexToken(t)
    ensures Graphic(t)
  {
  }

  lemma VertexRecordsAreGraphic()
    ensures GraphicRecords(VERTEX_RECORDS)
  {
    VertexTokens();
    forall k, j | 0 <= k < |VERTEX_RECORDS| && 0 <= j < |VERTEX_RECORDS[k]|
      ensures Graphic(VERTEX_RECORDS[k][j])
    {
      VertexTokenIsGraphic(VERTEX_RECORDS[k][j]);
    }
  }

  /** The distinct tokens of the normal lines. */
  predicate NormalToken(t: string)
  {
    t == "vn" || t == "-0.0000" || t == "1.0000" || t == "-1.0000"
  }

  lemma NormalTokens()
    ensures forall k, j :: 0 <= k < |NORMAL_RECORDS| && 0 <= j < |NORMAL_RECORDS[k]| ==> NormalToken(NORMAL_RECORDS[k][j])
  {
  }

  lemma NormalTokenIsGraphic(t: string)
    requires NormalToken(t)
    ensures Graphic(t)
  {
  }

  lemma NormalRecordsAreGraphic()
    ensures GraphicRecords(NORMAL_RECORDS)
  {
    NormalTokens();
    forall k, j | 0 <= k < |NORMAL_RECORDS| && 0 <= j < |NORMAL_RECORDS[k]|
      ensures Graphic(NORMAL_RECORDS[k][j])
    {
      NormalTokenIsGraphic(NORMAL_RECORDS[k][j]);
    }
  }

  /** The distinct tokens of the texture lines. */
  predicate TextureToken(t: string)
  {
    t == "vt" || t == "0.875000" || t == "0.500000" || t == "0.625000" || t == "0.750000"
    || t == "0.375000" || t == "1.000000" || t == "0.000000" || t == "0.250000" || t == "0.125000"
  }

  lemma TextureTokens()
    ensures forall k, j :: 0 <= k < |TEXTURE_RECORDS| && 0 <= j < |TEXTURE_RECORDS[k]| ==> TextureToken(TEXTURE_RECORDS[k][j])
  {
  }

  lemma TextureTokenIsGraphic(t: string)
    requires TextureToken(t)
    ensures Graphic(t)
  {
  }

  lemma TextureRecordsAreGraphic()
    ensures GraphicRecords(TEXTURE_RECORDS)
  {
    TextureTokens();
    forall k, j | 0 <= k < |TEXTURE_RECORDS| && 0 <= j < |TEXTURE_RECORDS[k]|
      ensures Graphic(TEXTURE_RECORDS[k][j])
    {
      TextureTokenIsGraphic(TEXTURE_RECORDS[k][j]);
    }
  }

  /** The distinct tokens of the face lines. */
  predicate FaceToken(t: string)
  {
    t == "f" || t == "5/1/1" || t == "3/2/1" || t == "1/3/1" || t == "3/2/2" || t == "8/4/2"
    || t == "4/5/2" || t == "7/6/3" || t == "6/7/3" || t == "8/8/3" || t == "2/9/4" || t == "8/10/4"
    || t == "6/11/4" || t == "1/3/5" || t == "4/5/5" || t == "2/9/5" || t == "5/12/6" || t == "2/9/6"
    || t == "6/7/6" || t == "7/13/1" || t == "7/14/2" || t == "5/12/3" || t == "4/5/4" || t == "3/2/5"
    || t == "1/3/6"
  }

  lemma FaceTokens()
    ensures forall k, j :: 0 <= k < |FACE_RECORDS| && 0 <= j < |FACE_RECORDS[k]| ==> FaceToken(FACE_RECORDS[k][j])
  {
  }

  lemma FaceTokenIsGraphic(t: string)
    requires FaceToken(t)
    ensures Graphic(t)
  {
  }

  lemma FaceRecordsAreGraphic()
    ensures GraphicRecords(FACE_RECORDS)
  {
    FaceTokens();
    forall k, j | 0 <= k < |FACE_RECORDS| && 0 <= j < |FACE_RECORDS[k]|
      ensures Graphic(FACE_RECORDS[k][j])
    {
      FaceTokenIsGraphic(FACE_RECORDS[k][j]);
    }
  }

  lemma RecordsAreGraphic()
    ensures GraphicRecords(RECORDS)
  {
    var v, n, t, s, f := VERTEX_RECORDS, NORMAL_RECORDS, TEXTURE_RECORDS, [SMOOTHING_RECORD], FACE_RECORDS;
    VertexRecordsAreGraphic();
    NormalRecordsAreGraphic();
    TextureRecordsAreGraphic();
    FaceRecordsAreGraphic();
    assert GraphicRecords(s);
    GraphicAppend(v, n);
    GraphicAppend(v + n, t);
    GraphicAppend(v + n + t, s);
    GraphicAppend(v + n + t + s, f);
  }

  // ---------------------------------------------------------------------------
  // From the text to the lines

  /** A space-joined line of graphic tokens holds no line break. */
  lemma {:induction false} JoinedIsPlain(r: seq<string>)
    requires r != [] && forall j :: 0 <= j < |r| ==> Graphic(r[j])
    ensures JoinSpaced(r) != [] && forall i :: 0 <= i < |JoinSpaced(r)| ==> !IsLineBreak(JoinSpaced(r)[i])
    decreases |r|
  {
    GraphicIsPlain(r[0]);
    if |r| > 1 {
      JoinedIsPlain(r[1..]);
      var rest := JoinSpaced(r[1..]);
      assert JoinSpaced(r) == r[0] + " " + rest;
      forall i | 0 <= i < |JoinSpaced(r)|
        ensures !IsLineBreak(JoinSpaced(r)[i])
      {
        if i > |r[0]| {
          assert JoinSpaced(r)[i] == rest[i - |r[0]| - 1];
        }
      }
    }
  }

  /** Lines each followed by a newline are the lines joined by newlines, plus one final newline. */
  lemma {:induction false} TerminatedJoin(ls: seq<string>)
    requires ls != []
    ensures Terminated(ls) == Join("\n", ls) + "\n"
    decreases |ls|
  {
    if |ls| > 1 {
      TerminatedJoin(ls[1..]);
    }
  }

  /** A joined text starts with the first part and ends with the last one. */
  lemma {:induction false} JoinEnds(sep: string, ls: seq<string>)
    requires ls != [] && forall k :: 0 <= k < |ls| ==> ls[k] != []
    ensures Join(sep, ls) != [] && Join(sep, ls)[0] == ls[0][0]
    ensures Last(Join(sep, ls)) == Last(Last(ls))
    decreases |ls|
  {
    if |ls| > 1 {
      JoinEnds(sep, ls[1..]);
      assert Join(sep, ls) == ls[0] + sep + Join(sep, ls[1..]);
    }
  }

  /** strip() removes exactly one newline on each side of a text whose own ends are not blank. */
  lemma StripNewlines(body: string)
    requires body != [] && !IsSpace(body[0]) && !IsSpace(Last(body))
    ensures Strip("\n" + body + "\n") == body
  {
    var s := "\n" + body + "\n";
    assert s[1..] == body + "\n";
    assert LeadingSpace(s) == 1 + LeadingSpace(body + "\n");
    assert LeadingSpace(body + "\n") == 0;
    var t := s[LeadingSpace(s)..];
    assert t == body + "\n";
    assert t[..|t| - 1] == body;
    assert TrailingSpace(t) == 1 + TrailingSpace(body);
  }

  predicate IsPlainLine(l: string)
  {
    l != [] && forall i :: 0 <= i < |l| ==> !IsLineBreak(l[i])
  }

  lemma {:induction false} LineEndOfPlain(l: string, rest: string)
    requires forall i :: 0 <= i < |l| ==> !IsLineBreak(l[i])
    requires rest == [] || IsLineBreak(rest[0])
    ensures LineEnd(l + rest) == |l|
    decreases |l|
  {
    if l == [] {
      assert l + rest == rest;
    } else {
      assert (l + rest)[1..] == l[1..] + rest;
      LineEndOfPlain(l[1..], rest);
    }
  }

  /** splitlines() takes apart what "\n".join put together, for non-empty lines without breaks. */
  lemma {:induction false} SplitLinesJoin(ls: seq<string>)
    requires ls != [] && forall k :: 0 <= k < |ls| ==> IsPlainLine(ls[k])
    ensures SplitLines(Join("\n", ls)) == ls
    decreases |ls|
  {
    var l := ls[0];
    if |ls| == 1 {
      LineEndOfPlain(l, []);
      assert l + [] == l;
    } else {
      var rest := Join("\n", ls[1..]);
      var s := l + "\n" + rest;
      assert s == l + ("\n" + rest);
      LineEndOfPlain(l, "\n" + rest);
      assert s[..|l|] == l && s[|l|] == '\n' && s[|l| + 1..] == rest;
      SplitLinesJoin(ls[1..]);
    }
  }

  /** input_data.strip().splitlines() gives back the forty-one lines. */
  lemma EmbeddedLines()
    ensures InputLines(INPUT_DATA) == Lines(RECORDS)
  {
    var ls := Lines(RECORDS);
    RecordsAreGraphic();
    TerminatedJoin(ls);
    var body := Join("\n", ls);
    assert INPUT_DATA == "\n" + body + "\n";
    forall k | 0 <= k < |ls|
      ensures IsPlainLine(ls[k])
    {
      LinesIndex(RECORDS, k);
      JoinedIsPlain(RECORDS[k]);
    }
    var first, last := RECORDS[0], RECORDS[40];
    LinesIndex(RECORDS, 0);
    LinesIndex(RECORDS, 40);
    assert first == ["v", "1.000000", "1.000000", "-1.000000"];
    assert last == ["f", "5/12/6", "1/3/6", "2/9/6"];
    JoinEnds(" ", first);
    JoinEnds(" ", last);
    JoinEnds("\n", ls);
    assert body[0] == 'v' && Last(body) == '6';
    StripNewlines(body);
    SplitLinesJoin(ls);
  }

  // ---------------------------------------------------------------------------
  // Which lines carry which tag

  /** A line starts with tag and a space exactly when its first token is tag. */
  lemma LineTag(r: seq<string>, tag: string)
    requires |r| >= 2 && r[0] != [] && NoSpace(r[0]) && tag != [] && NoSpace(tag)
    ensures StartsWith(JoinSpaced(r), tag + " ") <==> r[0] == tag
  {
    var a := r[0];
    var rest := " " + JoinSpaced(r[1..]);
    var line := JoinSpaced(r);
    assert line == a + rest;
    var p := tag + " ";
    TokenOfWord(a, rest);
    TokenOfWord(tag, " ");
    if StartsWith(line, p) {
      TokenLengthPrefix(line, p);
      assert a == line[..|a|] == p[..|tag|] == tag;
    }
    if a == tag {
      assert line[..|p|] == p;
    }
  }

  /** The first word of a text is the first word of any prefix that already ends that word. */
  lemma TokenLengthPrefix(s: string, p: string)
    requires StartsWith(s, p) && TokenLength(p) < |p|
    ensures TokenLength(s) == TokenLength(p)
  {
    assert forall k :: 0 <= k < |p| ==> s[k] == p[k];
  }

  /** The records whose first token is tag, in order. */
  function WithTag(rs: seq<seq<string>>, tag: string): seq<seq<string>>
    decreases |rs|
  {
    if rs == [] then []
    else WithTag(rs[..|rs| - 1], tag) + (if Last(rs) != [] && Last(rs)[0] == tag then [Last(rs)] else [])
  }

  /** Records whose first token is a non-empty word, followed by at least one more token. */
  predicate TagWords(rs: seq<seq<string>>)
  {
    forall k :: 0 <= k < |rs| ==> |rs[k]| >= 2 && rs[k][0] != [] && NoSpace(rs[k][0])
  }

  lemma GraphicTagWords(rs: seq<seq<string>>)
    requires GraphicRecords(rs)
    ensures TagWords(rs)
  {
    forall k | 0 <= k < |rs|
      ensures rs[k][0] != [] && NoSpace(rs[k][0])
    {
      GraphicIsPlain(rs[k][0]);
    }
  }

  /** The tagged lines are the lines of the records with that first token. */
  lemma {:induction false} TaggedLines(rs: seq<seq<string>>, tag: string)
    requires TagWords(rs) && tag != [] && NoSpace(tag)
    ensures Tagged(Lines(rs), tag + " ") == Lines(WithTag(rs, tag))
    decreases |rs|
  {
    if rs != [] {
      var init, last := rs[..|rs| - 1], rs[|rs| - 1];
      TagWordsPrefix(rs);
      TaggedLines(init, tag);
      var line, p := JoinSpaced(last), tag + " ";
      assert Lines(rs) == Lines(init) + [line];
      LineTag(last, tag);
      TaggedSnoc(Lines(init), line, p);
      var w := WithTag(init, tag);
      assert Tagged(Lines(init), p) == Lines(w);
      if last[0] == tag {
        assert (w + [last])[..|w|] == w;
        assert Lines(w + [last]) == Lines(w) + [line];
        assert WithTag(rs, tag) == w + [last];
        assert Tagged(Lines(rs), p) == Lines(w) + [line];
      } else {
        assert WithTag(rs, tag) == w;
        assert Tagged(Lines(rs), p) == Lines(w);
      }
    }
  }

  lemma TagWordsPrefix(rs: seq<seq<string>>)
    requires TagWords(rs) && rs != []
    ensures TagWords(rs[..|rs| - 1])
  {
    var init := rs[..|rs| - 1];
    forall k | 0 <= k < |init|
      ensures |init[k]| >= 2 && init[k][0] != [] && NoSpace(init[k][0])
    {
      assert init[k] == rs[k];
    }
  }

  lemma {:induction false} WithTagAppend(a: seq<seq<string>>, b: seq<seq<string>>, tag: string)
    ensures WithTag(a + b, tag) == WithTag(a, tag) + WithTag(b, tag)
    decreases |b|
  {
    if b == [] {
      assert a + b == a;
    } else {
      assert (a + b)[..|a + b| - 1] == a + b[..|b| - 1];
      WithTagAppend(a, b[..|b| - 1], tag);
    }
  }

  /** Records that all start with the token tag (and another token). */
  predicate FirstTokens(rs: seq<seq<string>>, tag: string)
  {
    forall k :: 0 <= k < |rs| ==> |rs[k]| >= 2 && rs[k][0] == tag
  }

  lemma FirstTokensPrefix(rs: seq<seq<string>>, tag: string)
    requires FirstTokens(rs, tag) && rs != []
    ensures FirstTokens(rs[..|rs| - 1], tag) && rs[|rs| - 1][0] == tag
  {
    var init := rs[..|rs| - 1];
    forall k | 0 <= k < |init|
      ensures |init[k]| >= 2 && init[k][0] == tag
    {
      assert init[k] == rs[k];
    }
  }

  lemma {:induction false} WithTagAll(rs: seq<seq<string>>, tag: string)
    requires FirstTokens(rs, tag)
    ensures WithTag(rs, tag) == rs
    decreases |rs|
  {
    if rs != [] {
      var init, last := rs[..|rs| - 1], rs[|rs| - 1];
      FirstTokensPrefix(rs, tag);
      WithTagAll(init, tag);
      assert WithTag(rs, tag) == init + [last];
      assert init + [last] == rs;
    }
  }

  lemma {:induction false} WithTagNone(rs: seq<seq<string>>, first: string, tag: string)
    requires FirstTokens(rs, first) && first != tag
    ensures WithTag(rs, tag) == []
    decreases |rs|
  {
    if rs != [] {
      FirstTokensPrefix(rs, first);
      WithTagNone(rs[..|rs| - 1], first, tag);
    }
  }

  lemma TagsDistinct()
    ensures "v" != "vn" && "v" != "vt" && "v" != "s" && "v" != "f"
    ensures "vn" != "vt" && "vn" != "s" && "vn" != "f" && "vt" != "s" && "vt" != "f" && "s" != "f"
  {
    assert "vn"[1] != "vt"[1];
    assert "v"[0] != "s"[0] && "v"[0] != "f"[0] && "s"[0] != "f"[0];
  }

  /**
   * Five sections of records, each with its own first token: selecting any one
   * of the four record tags gives back exactly its section.
   */
  lemma SectionsOf(v: seq<seq<string>>, n: seq<seq<string>>, t: seq<seq<string>>, s: seq<string>, f: seq<seq<string>>, tag: string)
    requires FirstTokens(v, "v") && FirstTokens(n, "vn") && FirstTokens(t, "vt") && FirstTokens([s], "s") && FirstTokens(f, "f")
    requires tag == "v" || tag == "vn" || tag == "vt" || tag == "f"
    ensures WithTag(v + n + t + [s] + f, tag) == if tag == "v" then v else if tag == "vn" then n else if tag == "vt" then t else f
  {
    TagsDistinct();
    WithTagFive(v, n, t, [s], f, tag);
    if tag == "v" {
      WithTagAll(v, tag);
      WithTagNone(n, "vn", tag);
      WithTagNone(t, "vt", tag);
      WithTagNone([s], "s", tag);
      WithTagNone(f, "f", tag);
    } else if tag == "vn" {
      WithTagNone(v, "v", tag);
      WithTagAll(n, tag);
      WithTagNone(t, "vt", tag);
      WithTagNone([s], "s", tag);
      WithTagNone(f, "f", tag);
    } else if tag == "vt" {
      WithTagNone(v, "v", tag);
      WithTagNone(n, "vn", tag);
      WithTagAll(t, tag);
      WithTagNone([s], "s", tag);
      WithTagNone(f, "f", tag);
    } else {
      WithTagNone(v, "v", tag);
      WithTagNone(n, "vn", tag);
      WithTagNone(t, "vt", tag);
      WithTagNone([s], "s", tag);
      WithTagAll(f, tag);
    }
  }

  lemma WithTagFive(a: seq<seq<string>>, b: seq<seq<string>>, c: seq<seq<string>>, d: seq<seq<string>>, e: seq<seq<string>>, tag: string)
    ensures WithTag(a + b + c + d + e, tag) == WithTag(a, tag) + WithTag(b, tag) + WithTag(c, tag) + WithTag(d, tag) + WithTag(e, tag)
  {
    WithTagAppend(a, b, tag);
    WithTagAppend(a + b, c, tag);
    WithTagAppend(a + b + c, d, tag);
    WithTagAppend(a + b + c + d, e, tag);
  }

  lemma SectionFirstTokens()
    ensures FirstTokens(VERTEX_RECORDS, "v") && FirstTokens(NORMAL_RECORDS, "vn") && FirstTokens(TEXTURE_RECORDS, "vt")
    ensures FirstTokens([SMOOTHING_RECORD], "s") && FirstTokens(FACE_RECORDS, "f")
  {
  }

  // ---------------------------------------------------------------------------
  // The faces

  /** A part whose vertex number is the single digit d reads as d. */
  lemma ReadsVertexDigit(part: string)
    requires |part| >= 2 && '1' <= part[0] <= '9' && part[1] == '/'
    ensures ParseInt(BeforeSlash(part)) == Some(part[0] as int - '0' as int)
  {
    assert SlashIndex(part[1..]) == 0;
    var d := [part[0]];
    assert BeforeSlash(part) == d;
    assert AllDigits(d);
    assert d[..0] == [];
    assert DigitsValue(d) == part[0] as int - '0' as int;
  }

  /** One face record: the tag and three parts, each starting with a one-digit vertex number and a slash; face is those numbers less one. */
  predicate FaceRecord(r: seq<string>, face: seq<int>)
  {
    |r| == 4 && |face| == 3
    && forall j :: 1 <= j < 4 ==> |r[j]| >= 2 && '1' <= r[j][0] <= '9' && r[j][1] == '/' && face[j - 1] == r[j][0] as int - '1' as int
  }

  /** The indices of a face of three parts whose vertex numbers read as i + 1, j + 1 and k + 1. */
  lemma ThreeIndices(a: string, b: string, c: string, i: int, j: int, k: int)
    requires ParseInt(BeforeSlash(a)) == Some(i + 1) && ParseInt(BeforeSlash(b)) == Some(j + 1) && ParseInt(BeforeSlash(c)) == Some(k + 1)
    ensures FaceIndices([a, b, c]) == Some([i, j, k])
  {
    var parts := [a, b, c];
    var r := FaceIndices(parts);
    assert !exists n :: 0 <= n < |parts| && ParseInt(BeforeSlash(parts[n])).None?;
    assert ParseInt(BeforeSlash(parts[0])) == Some(r.value[0] + 1);
    assert ParseInt(BeforeSlash(parts[1])) == Some(r.value[1] + 1);
    assert ParseInt(BeforeSlash(parts[2])) == Some(r.value[2] + 1);
    assert r.value == [i, j, k];
  }

  /** The arguments of a four-token line are its last three tokens. */
  lemma FaceArguments(r: seq<string>)
    requires GraphicRecord(r) && |r| == 4
    ensures Arguments(JoinSpaced(r)) == [r[1], r[2], r[3]]
  {
    RecordArguments(r);
    assert r[1..] == [r[1], r[2], r[3]];
  }

  /** The indices of one face line. */
  lemma FaceLineOf(r: seq<string>, face: seq<int>)
    requires GraphicRecord(r) && FaceRecord(r, face)
    ensures FaceIndices(Arguments(JoinSpaced(r))) == Some(face)
  {
    FaceArguments(r);
    ReadsVertexDigit(r[1]);
    ReadsVertexDigit(r[2]);
    ReadsVertexDigit(r[3]);
    ThreeIndices(r[1], r[2], r[3], face[0], face[1], face[2]);
    assert face == [face[0], face[1], face[2]];
  }

  /** A parse whose every tagged line yields its value yields the list of those values. */
  lemma RecordsAllSome<T>(lines: seq<string>, tag: string, entry: seq<string> -> Option<T>, values: seq<T>)
    requires |Tagged(lines, tag)| == |values|
    requires forall k :: 0 <= k < |values| ==> entry(Arguments(Tagged(lines, tag)[k])) == Some(values[k])
    ensures Records(lines, tag, entry) == Some(values)
  {
    RecordsOfTagged(lines, tag, entry);
    var ts := Tagged(lines, tag);
    assert !exists k :: 0 <= k < |ts| && entry(Arguments(ts[k])).None?;
    var r := Records(lines, tag, entry);
    assert r.value == values;
  }

  /** Face lines parse into the index lists their records describe. */
  lemma FaceRecordsOf(lines: seq<string>, faces: seq<seq<string>>, indices: seq<seq<int>>)
    requires Tagged(lines, "f ") == Lines(faces) && GraphicRecords(faces)
    requires |faces| == |indices| && forall k :: 0 <= k < |faces| ==> FaceRecord(faces[k], indices[k])
    ensures Records(lines, "f ", FaceIndices) == Some(indices)
  {
    var ts := Tagged(lines, "f ");
    forall k | 0 <= k < |indices|
      ensures FaceIndices(Arguments(ts[k])) == Some(indices[k])
    {
      LinesIndex(faces, k);
      FaceLineOf(faces[k], indices[k]);
    }
    RecordsAllSome(lines, "f ", FaceIndices, indices);
  }

  lemma FaceRecordsMatch()
    ensures |FACE_RECORDS| == |FACE_INDICES|
    ensures forall k :: 0 <= k < |FACE_RECORDS| ==> FaceRecord(FACE_RECORDS[k], FACE_INDICES[k])
  {
  }

  lemma FaceIndicesInRange()
    ensures |FACE_INDICES| == 12
    ensures forall k :: 0 <= k < |FACE_INDICES| ==> |FACE_INDICES[k]| == 3 && forall j :: 0 <= j < 3 ==> 0 <= FACE_INDICES[k][j] <= 7
  {
  }

  // ---------------------------------------------------------------------------
  // parse_obj on the embedded data

  /** The float text accepts every argument of every line. */
  predicate AcceptsArguments(ts: seq<string>, repr: string -> Option<string>)
  {
    forall k, j :: 0 <= k < |ts| && 0 <= j < |Arguments(ts[k])| ==> repr(Arguments(ts[k])[j]).Some?
  }

  /** Fields succeeds exactly when the float text accepts every token. */
  lemma FieldsSucceed(parts: seq<string>, repr: string -> Option<string>)
    ensures Fields(parts, repr).Some? <==> forall j :: 0 <= j < |parts| ==> repr(parts[j]).Some?
  {
  }

  /**
   * A number section parses exactly when the float text accepts every
   * argument of every tagged line, and then into one entry per tagged line.
   */
  lemma FloatRecords(ls: seq<string>, tag: string, repr: string -> Option<string>)
    ensures Records(ls, tag, FloatEntry(repr)).Some? <==> AcceptsArguments(Tagged(ls, tag), repr)
    ensures Records(ls, tag, FloatEntry(repr)).Some? ==> |Records(ls, tag, FloatEntry(repr)).value| == |Tagged(ls, tag)|
  {
    RecordsOfTagged(ls, tag, FloatEntry(repr));
    var ts := Tagged(ls, tag);
    forall k | 0 <= k < |ts|
      ensures FloatEntry(repr)(Arguments(ts[k])).Some? <==> forall j :: 0 <= j < |Arguments(ts[k])| ==> repr(Arguments(ts[k])[j]).Some?
    {
      FieldsSucceed(Arguments(ts[k]), repr);
    }
  }

  /** The arguments of a record's line are its tokens after the first. */
  lemma RecordArguments(r: seq<string>)
    requires GraphicRecord(r)
    ensures Arguments(JoinSpaced(r)) == r[1..]
  {
    forall j | 0 <= j < |r|
      ensures r[j] != [] && NoSpace(r[j])
    {
      GraphicIsPlain(r[j]);
    }
    SplitJoin(r);
  }

  /** Lines written from records whose arguments the float text accepts parse into one entry per record. */
  lemma SectionFloats(ls: seq<string>, tag: string, rs: seq<seq<string>>, repr: string -> Option<string>)
    requires Tagged(ls, tag) == Lines(rs) && GraphicRecords(rs)
    requires forall k, j :: 0 <= k < |rs| && 1 <= j < |rs[k]| ==> repr(rs[k][j]).Some?
    ensures Records(ls, tag, FloatEntry(repr)).Some?
    ensures |Records(ls, tag, FloatEntry(repr)).value| == |rs|
  {
    FloatRecords(ls, tag, repr);
    var ts := Tagged(ls, tag);
    forall k, j | 0 <= k < |ts| && 0 <= j < |Arguments(ts[k])|
      ensures repr(Arguments(ts[k])[j]).Some?
    {
      LinesIndex(rs, k);
      RecordArguments(rs[k]);
      assert Arguments(ts[k])[j] == rs[k][j + 1];
    }
  }

  /** The numbers written in the v, vn and vt lines of input_data. */
  predicate DataNumber(t: string)
  {
    t == "1.000000" || t == "-1.000000" || t == "-0.0000" || t == "1.0000" || t == "-1.0000"
    || t == "0.875000" || t == "0.500000" || t == "0.625000" || t == "0.750000" || t == "0.375000"
    || t == "0.000000" || t == "0.250000" || t == "0.125000"
  }

  /** Every token after the tag of a v, vn or vt record is one of those numbers. */
  predicate NumberArguments(rs: seq<seq<string>>)
  {
    forall k, j :: 0 <= k < |rs| && 1 <= j < |rs[k]| ==> DataNumber(rs[k][j])
  }

  lemma VertexNumbers()
    ensures NumberArguments(VERTEX_RECORDS)
  {
  }

  lemma NormalNumbers()
    ensures NumberArguments(NORMAL_RECORDS)
  {
  }

  lemma TextureNumbers()
    ensures NumberArguments(TEXTURE_RECORDS)
  {
  }

  /** A section of numbers, all of which the float text accepts, parses into one entry per record. */
  lemma NumberSection(ls: seq<string>, tag: string, rs: seq<seq<string>>, repr: string -> Option<string>)
    requires Tagged(ls, tag) == Lines(rs) && GraphicRecords(rs) && NumberArguments(rs)
    requires forall t :: DataNumber(t) ==> repr(t).Some?
    ensures Records(ls, tag, FloatEntry(repr)).Some?
    ensures |Records(ls, tag, FloatEntry(repr)).value| == |rs|
  {
    SectionFloats(ls, tag, rs, repr);
  }

  /** Conversely, a section that parses has every argument accepted by the float text. */
  lemma SectionAccepted(ls: seq<string>, tag: string, rs: seq<seq<string>>, repr: string -> Option<string>)
    requires Tagged(ls, tag) == Lines(rs) && GraphicRecords(rs)
    requires Records(ls, tag, FloatEntry(repr)).Some?
    ensures forall k, j :: 0 <= k < |rs| && 1 <= j < |rs[k]| ==> repr(rs[k][j]).Some?
  {
    FloatRecords(ls, tag, repr);
    var ts := Tagged(ls, tag);
    forall k, j | 0 <= k < |rs| && 1 <= j < |rs[k]|
      ensures repr(rs[k][j]).Some?
    {
      LinesIndex(rs, k);
      RecordArguments(rs[k]);
      assert rs[k][j] == Arguments(ts[k])[j - 1];
    }
  }

  /** The lines of the records selected by one tag. */
  lemma TaggedSection(v: seq<seq<string>>, n: seq<seq<string>>, t: seq<seq<string>>, s: seq<string>, f: seq<seq<string>>, tag: string)
    requires FirstTokens(v, "v") && FirstTokens(n, "vn") && FirstTokens(t, "vt") && FirstTokens([s], "s") && FirstTokens(f, "f")
    requires GraphicRecords(v + n + t + [s] + f)
    requires tag == "v" || tag == "vn" || tag == "vt" || tag == "f"
    ensures Tagged(Lines(v + n + t + [s] + f), tag + " ") == Lines(if tag == "v" then v else if tag == "vn" then n else if tag == "vt" then t else f)
  {
    GraphicTagWords(v + n + t + [s] + f);
    TaggedLines(v + n + t + [s] + f, tag);
    SectionsOf(v, n, t, s, f, tag);
  }

  /** The embedded lines that carry one tag are the lines of its section. */
  lemma EmbeddedTagged(tag: string)
    requires tag == "v" || tag == "vn" || tag == "vt" || tag == "f"
    ensures Tagged(InputLines(INPUT_DATA), tag + " ")
            == Lines(if tag == "v" then VERTEX_RECORDS else if tag == "vn" then NORMAL_RECORDS else if tag == "vt" then TEXTURE_RECORDS else FACE_RECORDS)
  {
    EmbeddedLines();
    SectionFirstTokens();
    RecordsAreGraphic();
    TaggedSection(VERTEX_RECORDS, NORMAL_RECORDS, TEXTURE_RECORDS, SMOOTHING_RECORD, FACE_RECORDS, tag);
  }

  /** The four record prefixes are the tags followed by a space. */
  lemma TagSpaces()
    ensures "v" + " " == "v " && "vn" + " " == "vn " && "vt" + " " == "vt " && "f" + " " == "f "
  {
  }

  /**
   * When the float text accepts the numbers written in input_data, the
   * embedded v, vn and vt lines parse into 8, 6 and 14 entries.
   */
  lemma EmbeddedFloats(tag: string, repr: string -> Option<string>)
    requires forall t :: DataNumber(t) ==> repr(t).Some?
    requires tag == "v" || tag == "vn" || tag == "vt"
    ensures Records(InputLines(INPUT_DATA), tag + " ", FloatEntry(repr)).Some?
    ensures |Records(InputLines(INPUT_DATA), tag + " ", FloatEntry(repr)).value| == if tag == "v" then 8 else if tag == "vn" then 6 else 14
  {
    EmbeddedTagged(tag);
    var ls := InputLines(INPUT_DATA);
    if tag == "v" {
      VertexRecordsAreGraphic();
      VertexNumbers();
      NumberSection(ls, tag + " ", VERTEX_RECORDS, repr);
    } else if tag == "vn" {
      NormalRecordsAreGraphic();
      NormalNumbers();
      NumberSection(ls, tag + " ", NORMAL_RECORDS, repr);
    } else {
      TextureRecordsAreGraphic();
      TextureNumbers();
      NumberSection(ls, tag + " ", TEXTURE_RECORDS, repr);
    }
  }

  /** The embedded f lines parse into the twelve listed triangles. */
  lemma EmbeddedFaces()
    ensures Records(InputLines(INPUT_DATA), "f ", FaceIndices) == Some(FACE_INDICES)
  {
    EmbeddedTagged("f");
    TagSpaces();
    FaceRecordsAreGraphic();
    FaceRecordsMatch();
    FaceRecordsOf(InputLines(INPUT_DATA), FACE_RECORDS, FACE_INDICES);
  }

  /**
   * For any float-to-text conversion that accepts the numbers written in
   * input_data, the embedded cube parses into 8 vertices, the 12 listed
   * triangles (three indices each, all in [0, 7]), 6 normals and 14 texture
   * coordinates.
   */
  lemma EmbeddedData(repr: string -> Option<string>)
    requires forall t :: DataNumber(t) ==> repr(t).Some?
    ensures ObjOf(INPUT_DATA, repr).Some?
    ensures var o := ObjOf(INPUT_DATA, repr).value;
            && |o.vertices| == 8 && o.indices == FACE_INDICES && |o.normals| == 6 && |o.textureCoords| == 14
            && |o.indices| == 12
            && forall k :: 0 <= k < |o.indices| ==> |o.indices[k]| == 3 && forall j :: 0 <= j < 3 ==> 0 <= o.indices[k][j] <= 7
  {
    EmbeddedFloats("v", repr);
    EmbeddedFloats("vn", repr);
    EmbeddedFloats("vt", repr);
    TagSpaces();
    EmbeddedFaces();
    FaceIndicesInRange();
  }

  /**
   * The hypothesis of EmbeddedData is also necessary: when parse_obj(input_data)
   * succeeds, the float text accepts every number written in input_data.
   */
  lemma EmbeddedDataNeedsNumbers(repr: string -> Option<string>)
    requires ObjOf(INPUT_DATA, repr).Some?
    ensures forall t :: DataNumber(t) ==> repr(t).Some?
  {
    var ls := InputLines(INPUT_DATA);
    TagSpaces();
    EmbeddedTagged("v");
    EmbeddedTagged("vn");
    EmbeddedTagged("vt");
    VertexRecordsAreGraphic();
    NormalRecordsAreGraphic();
    TextureRecordsAreGraphic();
    SectionAccepted(ls, "v ", VERTEX_RECORDS, repr);
    SectionAccepted(ls, "vn ", NORMAL_RECORDS, repr);
    SectionAccepted(ls, "vt ", TEXTURE_RECORDS, repr);
    NumbersOccur(repr);
  }

  /** Each number of input_data occurs after the tag of some v, vn or vt record. */
  lemma NumbersOccur(repr: string -> Option<string>)
    requires forall k, j :: 0 <= k < |VERTEX_RECORDS| && 1 <= j < |VERTEX_RECORDS[k]| ==> repr(VERTEX_RECORDS[k][j]).Some?
    requires forall k, j :: 0 <= k < |NORMAL_RECORDS| && 1 <= j < |NORMAL_RECORDS[k]| ==> repr(NORMAL_RECORDS[k][j]).Some?
    requires forall k, j :: 0 <= k < |TEXTURE_RECORDS| && 1 <= j < |TEXTURE_RECORDS[k]| ==> repr(TEXTURE_RECORDS[k][j]).Some?
    ensures forall t :: DataNumber(t) ==> repr(t).Some?
  {
    assert repr(VERTEX_RECORDS[0][1]).Some? && repr(VERTEX_RECORDS[0][3]).Some?;
    assert repr(NORMAL_RECORDS[0][1]).Some? && repr(NORMAL_RECORDS[0][2]).Some? && repr(NORMAL_RECORDS[2][1]).Some?;
    assert repr(TEXTURE_RECORDS[0][1]).Some? && repr(TEXTURE_RECORDS[0][2]).Some? && repr(TEXTURE_RECORDS[1][1]).Some?;
    assert repr(TEXTURE_RECORDS[1][2]).Some? && repr(TEXTURE_RECORDS[3][1]).Some? && repr(TEXTURE_RECORDS[5][2]).Some?;
    assert repr(TEXTURE_RECORDS[6][2]).Some? && repr(TEXTURE_RECORDS[9][1]).Some?;
  }
}
