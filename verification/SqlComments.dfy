/**
 When comments and string literals are invisible to the SQL scanner
 (routing-service/internal/sqlmeta/heuristic.go:123-152, 174-177).

 Inserting a comment or a literal where the scan loop is at its head mostly acts
 like inserting a space. It does not at the end of an unterminated construct, nor
 between the text of a line comment and the newline that ends it: the loop is at
 its head there too, yet the inserted text lands inside the comment.
 */
module SqlComments {
  import opened SqlTokenizer

  /** A newline-ended line comment, a terminated block comment, or a closed string literal. */
  datatype Filler = LineComment(text: string) | BlockComment(text: string) | StringLiteral(text: string)

  predicate WellFormed(f: Filler) {
    match f
    case LineComment(text) => '\n' !in text
    case BlockComment(text) => !BlockEnds(text)
    case StringLiteral(_) => true
  }

  function Text(f: Filler): string {
    match f
    case LineComment(text) => "--" + text + "\n"
    case BlockComment(text) => "/*" + text + "*/"
    case StringLiteral(text) => "'" + (Double(text, '\'') + "'")
  }

  function Insert(s: string, k: nat, x: string): string
    requires k <= |s|
  {
    s[..k] + x + s[k..]
  }

  /** The loop is at its head at position k of the input. */
  predicate AtHead(s: string, k: nat)
    requires k <= |s|
  {
    k == 0 || (First(s).len <= k && AtHead(s[First(s).len..], k - First(s).len))
  }

  /** The lexeme that ends at k is not complete: an unterminated construct, or a line comment before its newline. */
  predicate EndsOpen(s: string, k: nat)
    requires k <= |s| && AtHead(s, k)
  {
    k > 0 &&
    if First(s).len == k then !First(s).closed
    else EndsOpen(s[First(s).len..], k - First(s).len)
  }

  lemma {:induction false} BlockText(text: string, y: string)
    requires !BlockEnds(text)
    ensures BlockLen(text + "*/" + y) == |text| + 2
  {
    var x := text + "*/" + y;
    if text == "" {
      assert x == "*/" + y;
    } else {
      assert x[1..] == text[1..] + "*/" + y;
      BlockText(text[1..], y);
      assert |text| == 1 ==> x[1] == '*';
    }
  }

  /** Two literals without a gap are one literal, whatever the second one runs into. */
  lemma {:induction false} LiteralJoins(text: string, y: string)
    requires y != "" && y[0] == '\''
    ensures
      Delimited(Closed(text, '\'', y), '\'', true).len
      == |Double(text, '\'')| + 2 + Delimited(y[1..], '\'', true).len
  {
    hide Delimited;
    if text == "" {
      DelimitedPair(y[1..], '\'');
      assert "'" + y == "''" + y[1..];
    } else {
      LiteralJoins(text[1..], y);
      if text[0] == '\'' {
        DelimitedPair(Closed(text[1..], '\'', y), '\'');
      } else {
        DelimitedCons(text[0], Closed(text[1..], '\'', y), '\'', true);
      }
    }
  }

  lemma LineCommentIsInvisible(text: string, y: string)
    requires '\n' !in text
    ensures Scan("--" + text + "\n" + y) == Scan(y)
  {
    hide LineLen; hide BlockLen; hide BlockEnds; hide Delimited; hide WordLen;
    var x := "--" + text + "\n" + y;
    assert x[0] == '-' && x[1] == '-';
    assert x[2..] == text + ("\n" + y);
    LineCut(text, "\n" + y);
    assert x[First(x).len..] == "\n" + y;
    ScanSkipped('\n', y);
  }

  lemma ScanSkipped(c: char, y: string)
    requires c != '-' && c != '/' && c != '\'' && c != '"' && c != '`' && c != '[' && !IsPunct(c) && !IsIdentChar(c)
    ensures Scan([c] + y) == Scan(y)
  {
    hide LineLen; hide BlockLen; hide BlockEnds; hide Delimited; hide WordLen;
    assert ([c] + y)[1..] == y;
  }

  lemma BlockCommentIsInvisible(text: string, y: string)
    requires !BlockEnds(text)
    ensures Scan("/*" + text + "*/" + y) == Scan(y)
  {
    hide LineLen; hide BlockLen; hide BlockEnds; hide Delimited; hide WordLen;
    var x := "/*" + text + "*/" + y;
    assert x[0] == '/' && x[1] == '*';
    assert x[2..] == text + "*/" + y;
    BlockText(text, y);
    assert x[First(x).len..] == y;
  }

  lemma LiteralIsInvisible(text: string, y: string)
    ensures Scan("'" + (Double(text, '\'') + "'") + y) == Scan(y)
  {
    hide LineLen; hide BlockLen; hide BlockEnds; hide Delimited; hide WordLen; hide Double; hide Closed;
    var x := "'" + (Double(text, '\'') + "'") + y;
    assert x[0] == '\'';
    ClosedIs(text, '\'', y);
    assert x[1..] == Closed(text, '\'', y);
    if y != "" && y[0] == '\'' {
      LiteralJoins(text, y);
      assert x[First(x).len..] == y[First(y).len..];
    } else {
      DelimitedDoubled(text, '\'', y);
      assert x[First(x).len..] == y;
    }
  }

  /** In front of any text, a comment or literal leaves nothing behind. */
  lemma FillerIsInvisible(f: Filler, y: string)
    requires WellFormed(f)
    ensures Scan(Text(f) + y) == Scan(y)
  {
    hide Scan;
    match f {
      case LineComment(text) => LineCommentIsInvisible(text, y);
      case BlockComment(text) => BlockCommentIsInvisible(text, y);
      case StringLiteral(text) => LiteralIsInvisible(text, y);
    }
  }

  // ---------- Where insertion is invisible ----------

  lemma InsertAfter(s: string, n: nat, k: nat, x: string)
    requires n <= k <= |s|
    ensures Insert(s, k, x) == s[..n] + Insert(s[n..], k - n, x)
    ensures n < k ==> Insert(s[n..], k - n, x) != "" && Insert(s[n..], k - n, x)[0] == s[n]
  {
    assert s[..k] == s[..n] + s[n..][..k - n];
    assert s[k..] == s[n..][k - n..];
  }

  lemma OpenReachesEnd(s: string)
    requires s != "" && !First(s).closed && !First(s).kind.Line?
    ensures First(s).len == |s|
  {
    hide LineLen; hide WordLen; hide Delimited;
    if First(s).kind.Block? { hide BlockLen; hide BlockEnds; OpenBlockLen(s[2..]); }
  }

  lemma {:induction false} OpenBlockLen(t: string)
    requires !BlockEnds(t)
    ensures BlockLen(t) == |t|
  {
    if |t| >= 2 { OpenBlockLen(t[1..]); }
  }

  /** Scanning past a complete lexeme that the text after it does not continue. */
  lemma ScanPast(s: string, y: string)
    requires s != "" && (First(s).closed || First(s).kind.Line?)
    requires y == "" || !Continues(s, First(s).kind, y[0])
    ensures Scan(s[..First(s).len] + y) == First(s).toks + Scan(y)
  {
    hide First;
    LexemeStays(s, y);
    var n := First(s).len;
    assert (s[..n] + y)[n..] == y;
  }

  /** Scanning past the first lexeme does not depend on what is inserted further on. */
  lemma ScanPastFirst(s: string, k: nat, x: string)
    requires k <= |s| && s != "" && First(s).len < k
    ensures Scan(Insert(s, k, x)) == First(s).toks + Scan(Insert(s[First(s).len..], k - First(s).len, x))
  {
    hide First; hide Scan; hide Insert;
    var n := First(s).len;
    InsertAfter(s, n, k, x);
    if !First(s).closed && !First(s).kind.Line? { OpenReachesEnd(s); }
    LexemeIsMaximal(s);
    ScanPast(s, Insert(s[n..], k - n, x));
  }

  lemma {:induction false} DelimitedJoin(s: string, y: string)
    requires Delimited(s, '\'', true).closed && y != "" && y[0] == '\''
    ensures
      var r := Delimited(s, '\'', true);
      Delimited(s[..r.len] + y, '\'', true).len == r.len + 1 + Delimited(y[1..], '\'', true).len
  {
    hide Delimited;
    var r := Delimited(s, '\'', true);
    assert s[0..] == s;
    DelimitedAt(s, 0, '\'', true);
    if s[0] != '\'' {
      DelimitedJoin(s[1..], y);
      DelimitedCons(s[0], s[1..][..r.len - 1] + y, '\'', true);
      CutSlice(s, 1, r.len, y);
      assert s[..1] == [s[0]];
    } else if |s| > 1 && s[1] == '\'' {
      DelimitedJoin(s[2..], y);
      DelimitedPair(s[2..][..r.len - 2] + y, '\'');
      CutSlice(s, 2, r.len, y);
      assert s[..2] == "''";
    } else {
      DelimitedPair(y[1..], '\'');
      assert s[..1] + y == "''" + y[1..];
    }
  }

  /** A literal directly before another one is swallowed by it. */
  lemma LiteralBeforeLiteral(s: string, y: string)
    requires s != "" && First(s).kind.Literal? && First(s).closed && y != "" && y[0] == '\''
    ensures Scan(s[..First(s).len] + y) == Scan(y)
  {
    hide LineLen; hide BlockLen; hide BlockEnds; hide Delimited; hide WordLen;
    var n := First(s).len;
    var x := s[..n] + y;
    DelimitedJoin(s[1..], y);
    assert x[0] == '\'';
    assert x[1..] == s[1..][..n - 1] + y;
    assert x[First(x).len..] == y[First(y).len..];
  }

  lemma DashBeforeComment(text: string, rest: string)
    requires '\n' !in text
    ensures Scan("-" + (Text(LineComment(text)) + rest)) == Scan(rest)
  {
    hide Scan;
    assert "-" + (Text(LineComment(text)) + rest) == Text(LineComment("-" + text)) + rest;
    FillerIsInvisible(LineComment("-" + text), rest);
  }

  lemma LineTakesDash(s: string)
    requires s != "" && First(s).kind.Skipped? && s[0] == '-'
    ensures s[..First(s).len] == "-" && First(s).toks == []
  {
  }

  lemma KindsWithoutToken(s: string)
    requires s != "" && First(s).kind.Literal?
    ensures First(s).toks == []
  {
  }

  lemma InsertParts(s: string, n: nat, x: string)
    requires n <= |s|
    ensures Insert(s, n, x) == s[..n] + (x + s[n..])
  {
  }

  lemma TextStarts(f: Filler, rest: string)
    ensures Text(f) != "" && (Text(f) + rest)[0] == Text(f)[0]
  {
  }

  lemma InvisibleAfterLexeme(s: string, f: Filler)
    requires WellFormed(f) && s != "" && First(s).closed
    ensures Scan(Insert(s, First(s).len, Text(f))) == Scan(Insert(s, First(s).len, " "))
  {
    var l := First(s);
    var rest := s[l.len..];
    ClosedIsNotLine(s);
    hide First; hide Scan; hide Double; hide Insert;
    InsertParts(s, l.len, " ");
    ScanPast(s, " " + rest);
    ScanSpace(rest);
    InsertParts(s, l.len, Text(f));
    FillerIsInvisible(f, rest);
    TextStarts(f, rest);
    if !Continues(s, l.kind, Text(f)[0]) {
      ScanPast(s, Text(f) + rest);
    } else if l.kind.Literal? {
      LiteralBeforeLiteral(s, Text(f) + rest);
      KindsWithoutToken(s);
    } else {
      assert l.kind.Skipped? && s[0] == '-' && f.LineComment?;
      LineTakesDash(s);
      DashBeforeComment(f.text, rest);
    }
  }

  lemma ClosedIsNotLine(s: string)
    requires s != "" && First(s).closed
    ensures !First(s).kind.Line? && (First(s).kind.Quoted? ==> s[0] == '"' || s[0] == '`' || s[0] == '[')
  {
    hide LineLen; hide BlockLen; hide BlockEnds; hide Delimited; hide WordLen;
  }

  lemma {:induction false} InsertionIsInvisible(s: string, k: nat, f: Filler)
    requires WellFormed(f) && k <= |s| && AtHead(s, k) && !EndsOpen(s, k)
    ensures Scan(Insert(s, k, Text(f))) == Scan(Insert(s, k, " "))
    decreases k
  {
    hide Scan; hide First;
    if k == 0 {
      assert Insert(s, 0, Text(f)) == Text(f) + s;
      assert Insert(s, 0, " ") == " " + s;
      FillerIsInvisible(f, s);
      ScanSpace(s);
    } else if First(s).len == k {
      InvisibleAfterLexeme(s, f);
    } else {
      InsertionIsInvisible(s[First(s).len..], k - First(s).len, f);
      ScanPastFirst(s, k, Text(f));
      ScanPastFirst(s, k, " ");
    }
  }

  // ---------- Where it is not ----------

  lemma ScanX(y: string)
    requires y == "" || !IsIdentChar(y[0])
    ensures Scan("x" + y) == [Token("x", false)] + Scan(y)
  {
    hide First;
    BareIsOneLexeme("x", y);
    assert ("x" + y)[1..] == y;
  }

  lemma SlashFirst(y: string)
    requires y == "" || y[0] != '*'
    ensures First("/" + y) == Lexeme(Skipped, 1, true, [])
  {
    hide LineLen; hide BlockLen; hide BlockEnds; hide Delimited; hide WordLen; hide QuotedLexeme;
    var s := "/" + y;
    assert s[0] == '/' && (y != "" ==> s[1] == y[0]);
  }

  lemma ScanSlash(y: string)
    requires y == "" || y[0] != '*'
    ensures Scan("/" + y) == Scan(y)
  {
    SlashFirst(y);
    hide First;
    assert ("/" + y)[1..] == y;
  }

  /** Text without a newline at the end of a line comment is part of it. */
  lemma LineSwallows(s: string, x: string, y: string)
    requires s != "" && First(s).kind.Line?
    requires '\n' !in x && (y == "" || y[0] == '\n')
    ensures Scan(s[..First(s).len] + x + y) == Scan(y)
  {
    hide LineLen; hide BlockLen; hide BlockEnds; hide Delimited; hide WordLen;
    var n := First(s).len;
    var z := s[..n] + x + y;
    assert z[0] == '-' && z[1] == '-';
    assert z[2..] == (s[2..][..n - 2] + x) + y;
    LineCut(s[2..][..n - 2] + x, y);
    assert z[n + |x|..] == y;
  }

  lemma ScanAfterNewline(rest: string)
    requires rest == "" || rest[0] == '\n'
    ensures Scan("\nx*/" + rest) == [Token("x", false)] + Scan(rest)
  {
    hide First; hide Scan;
    var y3 := "/" + rest;
    var y2 := "*" + y3;
    ScanSlash(rest);
    ScanSkipped('*', y3);
    ScanX(y2);
    ScanSkipped('\n', "x" + y2);
    assert "\nx*/" + rest == "\n" + ("x" + y2);
  }

  lemma VisibleInLineComment(s: string) returns (f: Filler)
    requires s != "" && First(s).kind.Line?
    ensures WellFormed(f) && Scan(Insert(s, First(s).len, Text(f))) != Scan(Insert(s, First(s).len, " "))
  {
    hide First; hide Scan; hide Insert;
    var n := First(s).len;
    var rest := s[n..];
    LineComplete(s);
    f := BlockComment("\nx");
    assert WellFormed(f) by { assert !BlockEnds("\nx"[1..]); }
    InsertText(s, n);
    var y := "\nx*/" + rest;
    LineSwallows(s, "/*", y);
    ScanAfterNewline(rest);
    LineSwallows(s, " ", rest);
    assert |[Token("x", false)] + Scan(rest)| > |Scan(rest)|;
  }

  lemma InsertText(s: string, n: nat)
    requires n <= |s|
    ensures Insert(s, n, Text(BlockComment("\nx"))) == s[..n] + "/*" + ("\nx*/" + s[n..])
    ensures Insert(s, n, " ") == s[..n] + " " + s[n..]
  {
  }

  lemma LineComplete(s: string)
    requires s != "" && First(s).kind.Line?
    ensures First(s).len < |s| ==> s[First(s).len] == '\n'
  {
    hide BlockLen; hide BlockEnds; hide Delimited; hide WordLen; hide LineLen;
    assert s[2..][..First(s).len - 2] == s[2..First(s).len];
  }

  lemma {:induction false} OpenBlockExtends(t: string, c: char)
    requires !BlockEnds(t) && c != '/'
    ensures !BlockEnds(t + [c])
  {
    if |t| >= 1 {
      assert (t + [c])[1..] == t[1..] + [c];
      OpenBlockExtends(t[1..], c);
    }
  }

  lemma VisibleInBlockComment(s: string) returns (f: Filler)
    requires s != "" && First(s).kind.Block? && !First(s).closed
    ensures WellFormed(f) && Scan(s + Text(f)) != Scan(s + " ")
  {
    hide LineLen; hide BlockLen; hide BlockEnds; hide Delimited; hide WordLen; hide Scan; hide Double; hide First;
    f := StringLiteral("*/x");
    LiteralText();
    BlockSwallows(s, "'", "*/x'");
    BlockRuns(s, " ");
    assert "x'" == "x" + "'";
    ScanX("'");
    assert |[Token("x", false)] + Scan("'")| > 0;
    assert s + Text(f) == s + "'" + "*/x'";
  }

  lemma LiteralText()
    ensures Text(StringLiteral("*/x")) == "'" + "*/x'"
    ensures Text(StringLiteral("x")) == "'" + "x'"
  {
    assert "*/x"[1..] == "/x" && "/x"[1..] == "x" && "x"[1..] == "";
    assert Double("x", '\'') == "x";
    assert Double("/x", '\'') == "/x";
    assert Double("*/x", '\'') == "*/x";
  }

  /** Text inside an open block comment, up to the mark that now closes it. */
  lemma BlockSwallows(s: string, x: string, y: string)
    requires s != "" && First(s).kind.Block? && !First(s).closed
    requires x == "'" && y == "*/x'"
    ensures Scan(s + x + y) == Scan("x'")
  {
    hide LineLen; hide BlockLen; hide BlockEnds; hide Delimited; hide WordLen;
    var z := s + x + y;
    OpenBlockExtends(s[2..], '\'');
    BlockText(s[2..] + "'", "x'");
    assert z[0] == '/' && z[1] == '*';
    assert z[2..] == (s[2..] + "'") + "*/" + "x'";
    assert z[First(z).len..] == "x'";
  }

  lemma BlockRuns(s: string, x: string)
    requires s != "" && First(s).kind.Block? && !First(s).closed && x == " "
    ensures Scan(s + x) == []
  {
    hide LineLen; hide BlockLen; hide BlockEnds; hide Delimited; hide WordLen;
    var z := s + x;
    OpenBlockExtends(s[2..], ' ');
    OpenBlockLen(s[2..] + " ");
    assert z[0] == '/' && z[1] == '*';
    assert z[2..] == s[2..] + " ";
    assert z[First(z).len..] == "";
  }

  /** More text without the delimiter keeps an open identifier or literal open. */
  lemma {:induction false} OpenExtends(t: string, q: char, doubled: bool, z: string)
    requires !Delimited(t, q, doubled).closed && q !in z
    ensures
      Delimited(t + z, q, doubled) == Span(Delimited(t, q, doubled).text + z, |t| + |z|, false)
  {
    hide Delimited;
    if t == "" {
      OpenText(z, q, doubled);
      assert t + z == z;
      EmptyDelimited(q, doubled);
      assert "" + z == z;
    } else {
      assert t[0..] == t;
      DelimitedAt(t, 0, q, doubled);
      if t[0] != q {
        OpenExtends(t[1..], q, doubled, z);
        DelimitedCons(t[0], t[1..] + z, q, doubled);
        assert t + z == [t[0]] + (t[1..] + z);
        Assoc3([t[0]], Delimited(t[1..], q, doubled).text, z);
      } else {
        OpenExtends(t[2..], q, doubled, z);
        DelimitedPair(t[2..] + z, q);
        assert t + z == [q, q] + (t[2..] + z);
        Assoc3([q], Delimited(t[2..], q, doubled).text, z);
      }
    }
  }

  lemma Assoc3(a: string, b: string, c: string)
    ensures a + b + c == a + (b + c)
  {
  }

  lemma EmptyDelimited(q: char, doubled: bool)
    ensures Delimited("", q, doubled) == Span("", 0, false)
  {
  }

  lemma {:induction false} OpenText(z: string, q: char, doubled: bool)
    requires q !in z
    ensures Delimited(z, q, doubled) == Span(z, |z|, false)
  {
    if z != "" {
      OpenText(z[1..], q, doubled);
      assert z == [z[0]] + z[1..];
    }
  }

  /** A closing quote after an open literal closes it. */
  lemma {:induction false} OpenCloses(t: string, q: char, y: string)
    requires !Delimited(t, q, true).closed && y != "" && y[0] != q
    ensures Delimited(t + ([q] + y), q, true).len == |t| + 1
  {
    hide Delimited;
    if t == "" {
      DelimitedEnd(y, q, true);
      assert t + ([q] + y) == [q] + y;
    } else {
      assert t[0..] == t;
      DelimitedAt(t, 0, q, true);
      if t[0] != q {
        OpenCloses(t[1..], q, y);
        DelimitedCons(t[0], t[1..] + ([q] + y), q, true);
        assert t + ([q] + y) == [t[0]] + (t[1..] + ([q] + y));
      } else {
        OpenCloses(t[2..], q, y);
        DelimitedPair(t[2..] + ([q] + y), q);
        assert t + ([q] + y) == [q, q] + (t[2..] + ([q] + y));
      }
    }
  }

  lemma LiteralReopens(s: string)
    requires s != "" && First(s).kind.Literal? && !First(s).closed
    ensures Scan(s + ("'" + "x'")) == Scan("x'") && Scan(s + " ") == []
  {
    hide LineLen; hide BlockLen; hide BlockEnds; hide Delimited; hide WordLen;
    var z := s + ("'" + "x'");
    OpenCloses(s[1..], '\'', "x'");
    assert z[0] == '\'';
    assert z[1..] == s[1..] + ("'" + "x'");
    assert z[First(z).len..] == "x'";
    var w := s + " ";
    OpenExtends(s[1..], '\'', true, " ");
    assert w[0] == '\'';
    assert w[1..] == s[1..] + " ";
    assert w[First(w).len..] == "";
  }

  lemma VisibleInLiteral(s: string) returns (f: Filler)
    requires s != "" && First(s).kind.Literal? && !First(s).closed
    ensures WellFormed(f) && Scan(s + Text(f)) != Scan(s + " ")
  {
    hide First; hide Scan; hide Double;
    f := StringLiteral("x");
    LiteralText();
    LiteralReopens(s);
    assert "x'" == "x" + "'";
    ScanX("'");
    assert |[Token("x", false)] + Scan("'")| > 0;
  }

  lemma QuotedGrows(s: string, close: char, doubled: bool, z: string)
    requires s != "" && First(s) == QuotedLexeme(s, close, doubled) && !First(s).closed && close !in z
    requires (s[0] == close && doubled && (close == '"' || close == '`')) || (s[0] == '[' && close == ']' && !doubled)
    ensures |Scan(s + z)| == 1 && |Scan(s + z)[0].text| == |First(s).toks[0].text| + |z|
  {
    hide LineLen; hide BlockLen; hide BlockEnds; hide Delimited; hide WordLen;
    var w := s + z;
    OpenExtends(s[1..], close, doubled, z);
    assert w[0] == s[0];
    assert w[1..] == s[1..] + z;
    assert w[First(w).len..] == "";
  }

  lemma VisibleInIdentifier(s: string) returns (f: Filler)
    requires s != "" && First(s).kind.Quoted? && !First(s).closed
    ensures WellFormed(f) && Scan(s + Text(f)) != Scan(s + " ")
  {
    f := BlockComment("");
    assert Text(f) == "/**/";
    var close := if s[0] == '[' then ']' else s[0];
    QuotedIs(s);
    hide First; hide Scan; hide QuotedLexeme;
    QuotedGrows(s, close, s[0] != '[', "/**/");
    QuotedGrows(s, close, s[0] != '[', " ");
  }

  lemma QuotedIs(s: string)
    requires s != "" && First(s).kind.Quoted?
    ensures s[0] == '"' || s[0] == '`' || s[0] == '['
    ensures First(s) == QuotedLexeme(s, if s[0] == '[' then ']' else s[0], s[0] != '[')
  {
    hide LineLen; hide BlockLen; hide BlockEnds; hide Delimited; hide WordLen;
  }

  lemma InsertAtEnd(s: string, x: string)
    ensures Insert(s, |s|, x) == s + x
  {
  }

  lemma VisibleAfterLexeme(s: string) returns (f: Filler)
    requires s != "" && !First(s).closed
    ensures WellFormed(f) && Scan(Insert(s, First(s).len, Text(f))) != Scan(Insert(s, First(s).len, " "))
  {
    hide First; hide Scan; hide Text; hide Insert; hide WellFormed;
    OpenKinds(s);
    if First(s).kind.Line? {
      f := VisibleInLineComment(s);
    } else {
      OpenReachesEnd(s);
      match First(s).kind {
        case Block => f := VisibleInBlockComment(s);
        case Literal => f := VisibleInLiteral(s);
        case _ => f := VisibleInIdentifier(s);
      }
      InsertAtEnd(s, Text(f));
      InsertAtEnd(s, " ");
    }
  }

  lemma OpenKinds(s: string)
    requires s != "" && !First(s).closed
    ensures First(s).kind in {Line, Block, Literal, Quoted}
  {
    hide LineLen; hide BlockLen; hide BlockEnds; hide Delimited; hide WordLen;
  }

  lemma {:induction false} InsertionIsVisible(s: string, k: nat) returns (f: Filler)
    requires k <= |s| && AtHead(s, k) && EndsOpen(s, k)
    ensures WellFormed(f) && Scan(Insert(s, k, Text(f))) != Scan(Insert(s, k, " "))
    decreases k
  {
    hide Scan; hide First; hide Text; hide Insert;
    if First(s).len == k {
      f := VisibleAfterLexeme(s);
    } else {
      var n := First(s).len;
      f := InsertionIsVisible(s[n..], k - n);
      ScanPastFirst(s, k, Text(f));
      ScanPastFirst(s, k, " ");
      SamePrefix(First(s).toks, Scan(Insert(s[n..], k - n, Text(f))), Scan(Insert(s[n..], k - n, " ")));
    }
  }

  lemma SamePrefix(a: seq<Token>, b: seq<Token>, c: seq<Token>)
    ensures a + b == a + c ==> b == c
  {
    assert (a + b)[|a|..] == b;
    assert (a + c)[|a|..] == c;
  }

  /**
   At a loop head, every comment and every closed literal acts like a single space
   exactly when the lexeme that ends there is complete.
   */
  lemma InsertionIsInvisibleIff(s: string, k: nat)
    requires k <= |s| && AtHead(s, k)
    ensures (forall f :: WellFormed(f) ==> Scan(Insert(s, k, Text(f))) == Scan(Insert(s, k, " "))) <==> !EndsOpen(s, k)
  {
    if EndsOpen(s, k) {
      var f := InsertionIsVisible(s, k);
    } else {
      forall f | WellFormed(f) ensures Scan(Insert(s, k, Text(f))) == Scan(Insert(s, k, " ")) {
        InsertionIsInvisible(s, k, f);
      }
    }
  }
}
