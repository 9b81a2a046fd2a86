/**
 The hand-written SQL scanner (routing-service/internal/sqlmeta/heuristic.go:116-216).
 A char stands for one byte.

 `First` describes the lexeme at the head of an input and `Scan` the token stream;
 the method Tokenize is the index loop. The theorems are a printer/scanner round
 trip and the exact condition under which a comment or a string literal inserted
 into a statement is invisible.
 */
module SqlTokenizer {

  datatype Token = Token(text: string, quoted: bool)

  predicate IsIdentChar(c: char) {
    c == '_' || 'a' <= c <= 'z' || 'A' <= c <= 'Z' || '0' <= c <= '9'
  }

  predicate IsPunct(c: char) {
    c == '.' || c == '(' || c == ')' || c == ','
  }

  // ---------- Lexemes ----------

  /** Length of a line comment's text: up to, not including, the newline. */
  function LineLen(s: string): (n: nat)
    ensures n <= |s|
    ensures n < |s| ==> s[n] == '\n'
    ensures '\n' !in s[..n]
  {
    if s == "" || s[0] == '\n' then 0 else 1 + LineLen(s[1..])
  }

  /** Length of a block comment after its opening, with the closing mark. */
  function BlockLen(s: string): (n: nat)
    ensures n <= |s|
  {
    if |s| < 2 then |s| else if s[0] == '*' && s[1] == '/' then 2 else 1 + BlockLen(s[1..])
  }

  predicate BlockEnds(s: string) {
    |s| >= 2 && ((s[0] == '*' && s[1] == '/') || BlockEnds(s[1..]))
  }

  /** What a scan up to a closing delimiter finds: the text, the length with the delimiter, and whether it was there. */
  datatype Span = Span(text: string, len: nat, closed: bool)

  function Delimited(s: string, close: char, doubled: bool): (r: Span)
    ensures r.len <= |s| && |r.text| <= r.len
    ensures r.closed ==> r.len > 0
    ensures !r.closed ==> r.len == |s|
  {
    if s == "" then Span("", 0, false)
    else if s[0] != close then
      var r := Delimited(s[1..], close, doubled);
      Span([s[0]] + r.text, 1 + r.len, r.closed)
    else if doubled && |s| > 1 && s[1] == close then
      var r := Delimited(s[2..], close, doubled);
      Span([close] + r.text, 2 + r.len, r.closed)
    else Span("", 1, true)
  }

  function WordLen(s: string): (n: nat)
    ensures n <= |s|
    ensures forall i :: 0 <= i < n ==> IsIdentChar(s[i])
    ensures n < |s| ==> !IsIdentChar(s[n])
  {
    if s == "" || !IsIdentChar(s[0]) then 0 else 1 + WordLen(s[1..])
  }

  datatype Kind = Line | Block | Literal | Quoted | Punct | Word | Skipped

  /** A lexeme: its kind, its length, whether it is complete, and the token it gives, if any. */
  datatype Lexeme = Lexeme(kind: Kind, len: nat, closed: bool, toks: seq<Token>)

  function QuotedLexeme(s: string, close: char, doubled: bool): Lexeme
    requires s != ""
  {
    var r := Delimited(s[1..], close, doubled);
    Lexeme(Quoted, 1 + r.len, r.closed, [Token(r.text, true)])
  }

  /** A line comment counts as open: only the newline that follows it ends it. */
  function First(s: string): (l: Lexeme)
    requires s != ""
    ensures 0 < l.len <= |s|
  {
    if |s| > 1 && s[0] == '-' && s[1] == '-' then Lexeme(Line, 2 + LineLen(s[2..]), false, [])
    else if |s| > 1 && s[0] == '/' && s[1] == '*' then Lexeme(Block, 2 + BlockLen(s[2..]), BlockEnds(s[2..]), [])
    else if s[0] == '\'' then
      var r := Delimited(s[1..], '\'', true);
      Lexeme(Literal, 1 + r.len, r.closed, [])
    else if s[0] == '"' then QuotedLexeme(s, '"', true)
    else if s[0] == '`' then QuotedLexeme(s, '`', true)
    else if s[0] == '[' then QuotedLexeme(s, ']', false)
    else if IsPunct(s[0]) then Lexeme(Punct, 1, true, [Token([s[0]], false)])
    else if IsIdentChar(s[0]) then Lexeme(Word, WordLen(s), true, [Token(s[..WordLen(s)], false)])
    else Lexeme(Skipped, 1, true, [])
  }

  /** The token stream: comments, literals and other characters leave nothing behind. */
  function Scan(s: string): seq<Token> {
    if s == "" then [] else First(s).toks + Scan(s[First(s).len..])
  }

  // ---------- The index loops ----------

  /** One step of Delimited at an index of the input. */
  lemma DelimitedAt(sql: string, i: nat, close: char, doubled: bool)
    requires i < |sql|
    ensures
      var r := Delimited(sql[i..], close, doubled);
      if sql[i] != close then
        var r1 := Delimited(sql[i + 1..], close, doubled);
        r == Span([sql[i]] + r1.text, 1 + r1.len, r1.closed)
      else if doubled && i + 1 < |sql| && sql[i + 1] == close then
        var r2 := Delimited(sql[i + 2..], close, doubled);
        r == Span([close] + r2.text, 2 + r2.len, r2.closed)
      else r == Span("", 1, true)
  {
    assert sql[i..][1..] == sql[i + 1..];
    if i + 1 < |sql| { assert sql[i..][2..] == sql[i + 2..]; }
  }

  lemma Assoc(a: string, c: char, b: string)
    ensures a + ([c] + b) == a + [c] + b
  {
  }

  method ScanDelimited(sql: string, start: nat, open: char, close: char) returns (text: string, next: nat)
    requires start < |sql|
    ensures
      var r := Delimited(sql[start + 1..], close, open == close);
      text == r.text && next == start + 1 + r.len
  {
    hide Delimited;
    text := "";
    var i := start + 1;
    ghost var whole := Delimited(sql[start + 1..], close, open == close);
    while i < |sql|
      invariant start + 1 <= i <= |sql|
      invariant whole.text == text + Delimited(sql[i..], close, open == close).text
      invariant start + 1 + whole.len == i + Delimited(sql[i..], close, open == close).len
    {
      var ch := sql[i];
      DelimitedAt(sql, i, close, open == close);
      if ch == close {
        if open == close && i + 1 < |sql| && sql[i + 1] == close {
          Assoc(text, close, Delimited(sql[i + 2..], close, true).text);
          text := text + [close];
          i := i + 2;
          continue;
        }
        i := i + 1;
        return text, i;
      }
      Assoc(text, ch, Delimited(sql[i + 1..], close, open == close).text);
      text := text + [ch];
      i := i + 1;
    }
    return text, i;
  }

  method SkipLine(sql: string, start: nat) returns (i: nat)
    requires start <= |sql|
    ensures i == start + LineLen(sql[start..])
  {
    i := start;
    while i < |sql| && sql[i] != '\n'
      invariant start <= i <= |sql|
      invariant start + LineLen(sql[start..]) == i + LineLen(sql[i..])
    {
      assert sql[i..][1..] == sql[i + 1..];
      i := i + 1;
    }
  }

  method SkipBlock(sql: string, start: nat) returns (i: nat)
    requires start <= |sql|
    ensures i == start + BlockLen(sql[start..])
  {
    i := start;
    while i + 1 < |sql| && (sql[i] != '*' || sql[i + 1] != '/')
      invariant start <= i <= |sql|
      invariant start + BlockLen(sql[start..]) == i + BlockLen(sql[i..])
    {
      assert sql[i..][1..] == sql[i + 1..];
      i := i + 1;
    }
    i := i + 2;
    if i > |sql| {
      i := |sql|;
    }
  }

  method SkipLiteral(sql: string, start: nat) returns (i: nat)
    requires start <= |sql|
    ensures i == start + Delimited(sql[start..], '\'', true).len
  {
    hide Delimited;
    i := start;
    while i < |sql|
      invariant start <= i <= |sql|
      invariant start + Delimited(sql[start..], '\'', true).len == i + Delimited(sql[i..], '\'', true).len
    {
      DelimitedAt(sql, i, '\'', true);
      if sql[i] == '\'' {
        if i + 1 < |sql| && sql[i + 1] == '\'' {
          i := i + 2;
          continue;
        }
        i := i + 1;
        return;
      }
      i := i + 1;
    }
  }

  method ScanWord(sql: string, start: nat) returns (i: nat)
    requires start < |sql| && IsIdentChar(sql[start])
    ensures start < i == start + WordLen(sql[start..])
  {
    i := start;
    while i < |sql| && IsIdentChar(sql[i])
      invariant start <= i <= |sql|
      invariant start + WordLen(sql[start..]) == i + WordLen(sql[i..])
    {
      assert sql[i..][1..] == sql[i + 1..];
      i := i + 1;
    }
  }

  predicate OpensLine(s: string, i: nat) { i + 1 < |s| && s[i] == '-' && s[i + 1] == '-' }
  predicate OpensBlock(s: string, i: nat) { i + 1 < |s| && s[i] == '/' && s[i + 1] == '*' }

  /** One step of Scan at an index of the input. */
  lemma ScanAt(sql: string, i: nat)
    requires i < |sql|
    ensures Scan(sql[i..]) == First(sql[i..]).toks + Scan(sql[i + First(sql[i..]).len..])
  {
    hide First;
    assert sql[i..][First(sql[i..]).len..] == sql[i + First(sql[i..]).len..];
  }

  lemma CommentAt(sql: string, i: nat)
    requires i < |sql| && (OpensLine(sql, i) || OpensBlock(sql, i))
    ensures First(sql[i..]).toks == []
    ensures OpensLine(sql, i) ==> First(sql[i..]).len == 2 + LineLen(sql[i + 2..])
    ensures OpensBlock(sql, i) ==> First(sql[i..]).len == 2 + BlockLen(sql[i + 2..])
  {
    hide LineLen; hide BlockLen; hide BlockEnds;
    assert sql[i..][2..] == sql[i + 2..];
  }

  lemma DelimitedHead(sql: string, i: nat)
    requires i < |sql|
    ensures
      var l := First(sql[i..]);
      && (sql[i] == '\'' ==> l.toks == [] && l.len == 1 + Delimited(sql[i + 1..], '\'', true).len)
      && (sql[i] == '"' || sql[i] == '`' || sql[i] == '[' ==>
            var r := Delimited(sql[i + 1..], if sql[i] == '[' then ']' else sql[i], sql[i] != '[');
            l.toks == [Token(r.text, true)] && l.len == 1 + r.len)
  {
    hide Delimited; hide LineLen; hide BlockLen; hide BlockEnds; hide WordLen;
    assert sql[i..][1..] == sql[i + 1..];
  }

  lemma PlainHead(sql: string, i: nat)
    requires i < |sql| && !OpensLine(sql, i) && !OpensBlock(sql, i)
    requires sql[i] != '\'' && sql[i] != '"' && sql[i] != '`' && sql[i] != '['
    ensures
      var l := First(sql[i..]);
      if IsPunct(sql[i]) then l.toks == [Token([sql[i]], false)] && l.len == 1
      else if IsIdentChar(sql[i]) then
        l.len == WordLen(sql[i..]) && l.toks == [Token(sql[i..i + WordLen(sql[i..])], false)]
      else l.toks == [] && l.len == 1
  {
    hide WordLen;
    assert sql[i..][..WordLen(sql[i..])] == sql[i..i + WordLen(sql[i..])];
  }

  /** The body of the scan loop: the position after the lexeme at i and what it appends. */
  method ScanLexeme(sql: string, i: nat) returns (next: nat, out: seq<Token>)
    requires i < |sql|
    ensures next == i + First(sql[i..]).len && out == First(sql[i..]).toks
  {
    hide First; hide Delimited; hide LineLen; hide BlockLen; hide WordLen;
    var c, n := sql[i], |sql|;
    out := [];
    if c == '-' && i + 1 < n && sql[i + 1] == '-' {
      CommentAt(sql, i);
      next := SkipLine(sql, i + 2);
    } else if c == '/' && i + 1 < n && sql[i + 1] == '*' {
      CommentAt(sql, i);
      next := SkipBlock(sql, i + 2);
    } else if c == '\'' {
      DelimitedHead(sql, i);
      next := SkipLiteral(sql, i + 1);
    } else if c == '"' || c == '`' || c == '[' {
      DelimitedHead(sql, i);
      var id;
      id, next := ScanDelimited(sql, i, c, if c == '[' then ']' else c);
      out := [Token(id, true)];
    } else {
      PlainHead(sql, i);
      if IsPunct(c) {
        next, out := i + 1, [Token([c], false)];
      } else if IsIdentChar(c) {
        next := ScanWord(sql, i);
        out := [Token(sql[i..next], false)];
      } else {
        next := i + 1;
      }
    }
  }

  method Tokenize(sql: string) returns (toks: seq<Token>)
    ensures toks == Scan(sql)
  {
    hide First; hide Scan;
    toks := [];
    var i := 0;
    assert sql[0..] == sql;
    while i < |sql|
      invariant 0 <= i <= |sql|
      invariant Scan(sql) == toks + Scan(sql[i..])
    {
      ScanAt(sql, i);
      var next, out := ScanLexeme(sql, i);
      assert toks + (out + Scan(sql[next..])) == (toks + out) + Scan(sql[next..]);
      toks := toks + out;
      i := next;
    }
    ScanNothing(sql, i);
  }

  lemma ScanNothing(sql: string, i: nat)
    requires i == |sql|
    ensures Scan(sql[i..]) == []
  {
  }

  // ---------- Bounded work ----------

  function TextLen(toks: seq<Token>): nat {
    if toks == [] then 0 else |toks[0].text| + TextLen(toks[1..])
  }

  lemma {:induction false} TextLenAppend(a: seq<Token>, b: seq<Token>)
    ensures TextLen(a + b) == TextLen(a) + TextLen(b)
  {
    if a == [] {
      assert a + b == b;
    } else {
      assert (a + b)[1..] == a[1..] + b;
      TextLenAppend(a[1..], b);
    }
  }

  lemma FirstFits(s: string)
    requires s != ""
    ensures TextLen(First(s).toks) <= First(s).len && |First(s).toks| <= First(s).len
  {
    hide Delimited; hide LineLen; hide BlockLen; hide WordLen; hide BlockEnds;
  }

  /** The tokens never hold more text than the input, and there are no more of them than characters. */
  lemma {:induction false} TokensFitInput(s: string)
    ensures TextLen(Scan(s)) <= |s| && |Scan(s)| <= |s|
    decreases |s|
  {
    hide Delimited; hide LineLen; hide BlockLen; hide WordLen; hide BlockEnds;
    if s != "" {
      var l := First(s);
      FirstFits(s);
      TokensFitInput(s[l.len..]);
      TextLenAppend(l.toks, Scan(s[l.len..]));
    }
  }

  // ---------- Where a lexeme ends ----------

  /** Would `c` right after the lexeme `x` have been taken into it? */
  predicate Continues(x: string, kind: Kind, c: char)
    requires x != ""
  {
    match kind
    case Word => IsIdentChar(c)
    case Literal => c == '\''
    case Quoted => c == x[0] && x[0] != '['
    case Skipped => (x[0] == '-' && c == '-') || (x[0] == '/' && c == '*')
    case Line => c != '\n'
    case _ => false
  }

  lemma DelimitedCons(c: char, y: string, close: char, doubled: bool)
    requires c != close
    ensures
      var r := Delimited(y, close, doubled);
      Delimited([c] + y, close, doubled) == Span([c] + r.text, 1 + r.len, r.closed)
  {
    assert ([c] + y)[1..] == y;
  }

  lemma DelimitedPair(y: string, close: char)
    ensures
      var r := Delimited(y, close, true);
      Delimited([close, close] + y, close, true) == Span([close] + r.text, 2 + r.len, r.closed)
  {
    assert ([close, close] + y)[2..] == y;
  }

  lemma DelimitedEnd(y: string, close: char, doubled: bool)
    requires y == "" || !doubled || y[0] != close
    ensures Delimited([close] + y, close, doubled) == Span("", 1, true)
  {
  }

  lemma CutSlice(s: string, k: nat, n: nat, y: string)
    requires k <= n <= |s|
    ensures s[..n] + y == s[..k] + (s[k..][..n - k] + y)
  {
  }

  lemma {:induction false} DelimitedCut(s: string, close: char, doubled: bool, y: string)
    requires Delimited(s, close, doubled).closed
    requires y == "" || !doubled || y[0] != close
    ensures
      var r := Delimited(s, close, doubled);
      Delimited(s[..r.len] + y, close, doubled) == r && (r.len < |s| && doubled ==> s[r.len] != close)
  {
    hide Delimited;
    var r := Delimited(s, close, doubled);
    assert s[0..] == s;
    DelimitedAt(s, 0, close, doubled);
    if s[0] != close {
      DelimitedCut(s[1..], close, doubled, y);
      DelimitedCons(s[0], s[1..][..r.len - 1] + y, close, doubled);
      CutSlice(s, 1, r.len, y);
      assert s[..1] == [s[0]];
    } else if doubled && |s| > 1 && s[1] == close {
      DelimitedCut(s[2..], close, doubled, y);
      DelimitedPair(s[2..][..r.len - 2] + y, close);
      CutSlice(s, 2, r.len, y);
      assert s[..2] == [close, close];
    } else {
      DelimitedEnd(y, close, doubled);
      assert s[..1] == [close];
    }
  }

  lemma {:induction false} BlockCut(s: string, y: string)
    requires BlockEnds(s)
    ensures BlockLen(s[..BlockLen(s)] + y) == BlockLen(s) && BlockEnds(s[..BlockLen(s)] + y)
  {
    var n := BlockLen(s);
    var x := s[..n] + y;
    if !(s[0] == '*' && s[1] == '/') {
      BlockCut(s[1..], y);
      assert x[1..] == s[1..][..n - 1] + y;
      assert |s[1..]| >= 2 && n >= 3;
      assert x[0] == s[0] && x[1] == s[1];
    }
  }

  lemma {:induction false} LineCut(s: string, y: string)
    requires '\n' !in s && (y == "" || y[0] == '\n')
    ensures LineLen(s + y) == |s|
  {
    if s == "" {
      assert s + y == y;
    } else {
      assert (s + y)[1..] == s[1..] + y;
      LineCut(s[1..], y);
    }
  }

  lemma {:induction false} WordCut(s: string, y: string)
    requires forall i :: 0 <= i < |s| ==> IsIdentChar(s[i])
    requires y == "" || !IsIdentChar(y[0])
    ensures WordLen(s + y) == |s|
  {
    if s == "" {
      assert s + y == y;
    } else {
      assert (s + y)[1..] == s[1..] + y;
      WordCut(s[1..], y);
    }
  }

  /** A lexeme is followed only by a character that does not continue it. */
  lemma LexemeIsMaximal(s: string)
    requires s != "" && (First(s).closed || First(s).kind.Line?) && First(s).len < |s|
    ensures !Continues(s, First(s).kind, s[First(s).len])
  {
    var l := First(s);
    match l.kind {
      case Literal => DelimitedCut(s[1..], '\'', true, "");
      case Quoted =>
        if s[0] == '"' { DelimitedCut(s[1..], '"', true, ""); }
        else if s[0] == '`' { DelimitedCut(s[1..], '`', true, ""); }
      case _ =>
    }
  }

  lemma QuotedCut(s: string, close: char, doubled: bool, y: string)
    requires s != "" && QuotedLexeme(s, close, doubled).closed
    requires y == "" || !doubled || y[0] != close
    ensures QuotedLexeme(s[..QuotedLexeme(s, close, doubled).len] + y, close, doubled)
            == QuotedLexeme(s, close, doubled)
  {
    var n := QuotedLexeme(s, close, doubled).len;
    DelimitedCut(s[1..], close, doubled, y);
    assert (s[..n] + y)[1..] == s[1..][..n - 1] + y;
  }

  lemma CommentStays(s: string, y: string)
    requires s != "" && (First(s).kind.Line? || (First(s).kind.Block? && First(s).closed))
    requires y == "" || !Continues(s, First(s).kind, y[0])
    ensures First(s[..First(s).len] + y) == First(s)
  {
    hide LineLen; hide BlockLen; hide BlockEnds; hide Delimited; hide WordLen;
    var l := First(s);
    var x := s[..l.len] + y;
    assert x[0] == s[0] && x[1] == s[1];
    assert x[2..] == s[2..][..l.len - 2] + y;
    if l.kind.Line? {
      LineCut(s[2..][..l.len - 2], y);
    } else {
      BlockCut(s[2..], y);
    }
  }

  lemma LiteralStays(s: string, y: string)
    requires s != "" && First(s).kind.Literal? && First(s).closed && (y == "" || y[0] != '\'')
    ensures First(s[..First(s).len] + y) == First(s)
  {
    hide LineLen; hide BlockLen; hide BlockEnds; hide Delimited; hide WordLen;
    var l := First(s);
    DelimitedCut(s[1..], '\'', true, y);
    var x := s[..l.len] + y;
    assert x[0] == s[0];
    assert x[1..] == s[1..][..l.len - 1] + y;
  }

  lemma QuotedStays(s: string, y: string)
    requires s != "" && First(s).kind.Quoted? && First(s).closed
    requires y == "" || !Continues(s, Quoted, y[0])
    ensures First(s[..First(s).len] + y) == First(s)
  {
    hide LineLen; hide BlockLen; hide BlockEnds; hide Delimited; hide WordLen; hide QuotedLexeme;
    assert (s[..First(s).len] + y)[0] == s[0];
    if s[0] == '"' { QuotedCut(s, '"', true, y); }
    else if s[0] == '`' { QuotedCut(s, '`', true, y); }
    else { QuotedCut(s, ']', false, y); }
  }

  lemma PlainStays(s: string, y: string)
    requires s != "" && (First(s).kind.Word? || First(s).kind.Punct? || First(s).kind.Skipped?)
    requires y == "" || !Continues(s, First(s).kind, y[0])
    ensures First(s[..First(s).len] + y) == First(s)
  {
    hide LineLen; hide BlockLen; hide BlockEnds; hide Delimited; hide WordLen;
    var l := First(s);
    var x := s[..l.len] + y;
    assert x[0] == s[0];
    if l.kind.Word? {
      WordCut(s[..l.len], y);
      assert x[..l.len] == s[..l.len];
    } else {
      assert |x| > 1 ==> x[1] == y[0];
    }
  }

  /** A complete lexeme stays what it is before any text that does not continue it. */
  lemma LexemeStays(s: string, y: string)
    requires s != "" && (First(s).closed || First(s).kind.Line?)
    requires y == "" || !Continues(s, First(s).kind, y[0])
    ensures First(s[..First(s).len] + y) == First(s)
  {
    hide First;
    match First(s).kind {
      case Line => CommentStays(s, y);
      case Block => CommentStays(s, y);
      case Literal => LiteralStays(s, y);
      case Quoted => QuotedStays(s, y);
      case Word => PlainStays(s, y);
      case Punct => PlainStays(s, y);
      case Skipped => PlainStays(s, y);
    }
  }

  // ---------- Comments and literals as text ----------

  function Double(text: string, q: char): string {
    if text == "" then "" else (if text[0] == q then [q, q] else [text[0]]) + Double(text[1..], q)
  }

  /** The doubled text and the closing quote, then y. */
  function Closed(text: string, q: char, y: string): string {
    if text == "" then [q] + y
    else if text[0] == q then [q, q] + Closed(text[1..], q, y)
    else [text[0]] + Closed(text[1..], q, y)
  }

  lemma {:induction false} ClosedIs(text: string, q: char, y: string)
    ensures Closed(text, q, y) == Double(text, q) + [q] + y
  {
    if text != "" { ClosedIs(text[1..], q, y); }
  }

  lemma {:induction false} DelimitedDoubled(text: string, q: char, y: string)
    requires y == "" || y[0] != q
    ensures Delimited(Closed(text, q, y), q, true) == Span(text, |Double(text, q)| + 1, true)
  {
    hide Delimited;
    if text == "" {
      DelimitedEnd(y, q, true);
    } else {
      DelimitedDoubled(text[1..], q, y);
      if text[0] == q {
        DelimitedPair(Closed(text[1..], q, y), q);
      } else {
        DelimitedCons(text[0], Closed(text[1..], q, y), q, true);
      }
      assert text == [text[0]] + text[1..];
    }
  }

  lemma {:induction false} DelimitedBracket(text: string, y: string)
    requires ']' !in text
    ensures Delimited(text + "]" + y, ']', false) == Span(text, |text| + 1, true)
  {
    var d := text + "]" + y;
    if text == "" {
      assert d == "]" + y;
    } else {
      DelimitedBracket(text[1..], y);
      assert d[1..] == text[1..] + "]" + y;
    }
  }

  // ---------- Printing and scanning back ----------

  /** What can be printed: a bare word, a punctuation mark, or a quoted identifier in one of three styles. */
  datatype Item =
    | Bare(word: string)
    | Mark(c: char)
    | Ident(text: string, open: char)

  predicate Printable(it: Item) {
    match it
    case Bare(w) => w != "" && forall i :: 0 <= i < |w| ==> WordChar(w[i])
    case Mark(c) => c == '.' || c == ',' || c == '(' || c == ')'
    case Ident(text, open) => open == '"' || open == '`' || (open == '[' && ']' !in text)
  }

  function Print(it: Item): string {
    match it
    case Bare(w) => w
    case Mark(c) => [c]
    case Ident(text, open) => if open == '[' then "[" + text + "]" else [open] + (Double(text, open) + [open])
  }

  function TokenOf(it: Item): Token {
    match it
    case Bare(w) => Token(w, false)
    case Mark(c) => Token([c], false)
    case Ident(text, _) => Token(text, true)
  }

  function PrintAll(items: seq<Item>): string {
    if items == [] then "" else Print(items[0]) + " " + PrintAll(items[1..])
  }

  function TokensOf(items: seq<Item>): seq<Token> {
    if items == [] then [] else [TokenOf(items[0])] + TokensOf(items[1..])
  }

  lemma BareIsOneLexeme(w: string, y: string)
    requires Printable(Bare(w)) && (y == "" || !IsIdentChar(y[0]))
    ensures First(w + y) == Lexeme(Word, |w|, true, [Token(w, false)])
  {
    hide LineLen; hide BlockLen; hide BlockEnds; hide Delimited; hide WordLen;
    var x := w + y;
    WordCut(w, y);
    assert x[0] == w[0] && IsIdentChar(w[0]);
    assert x[..|w|] == w;
  }

  lemma IdentIsOneLexeme(text: string, open: char, y: string)
    requires Printable(Ident(text, open)) && (y == "" || y[0] != open)
    ensures First(Print(Ident(text, open)) + y) == Lexeme(Quoted, |Print(Ident(text, open))|, true, [Token(text, true)])
  {
    hide LineLen; hide BlockLen; hide BlockEnds; hide Delimited; hide WordLen; hide Double;
    var x := Print(Ident(text, open)) + y;
    assert x[0] == open;
    if open == '[' {
      assert x[1..] == text + "]" + y;
      DelimitedBracket(text, y);
    } else {
      ClosedIs(text, open, y);
      assert x[1..] == Closed(text, open, y);
      DelimitedDoubled(text, open, y);
    }
  }

  lemma PrintIsOneLexeme(it: Item, y: string)
    requires Printable(it)
    ensures Print(it) != ""
    ensures
      var l := First(Print(it) + " " + y);
      l.len == |Print(it)| && l.toks == [TokenOf(it)]
  {
    assert Print(it) + " " + y == Print(it) + (" " + y);
    match it {
      case Bare(w) => hide First; BareIsOneLexeme(w, " " + y);
      case Mark(c) => assert ([c] + (" " + y))[0] == c;
      case Ident(text, open) => hide First; IdentIsOneLexeme(text, open, " " + y);
    }
  }

  lemma ScanSpace(y: string)
    ensures Scan(" " + y) == Scan(y)
  {
    hide LineLen; hide BlockLen; hide BlockEnds; hide Delimited; hide WordLen;
    assert (" " + y)[1..] == y;
  }

  /** Scanning a printed list gives back exactly that list. */
  lemma {:induction false} RoundTrip(items: seq<Item>)
    requires forall i :: 0 <= i < |items| ==> Printable(items[i])
    ensures Scan(PrintAll(items)) == TokensOf(items)
  {
    hide First; hide Print;
    if items != [] {
      RoundTrip(items[1..]);
      var p, rest := Print(items[0]), PrintAll(items[1..]);
      PrintIsOneLexeme(items[0], rest);
      assert (p + " " + rest)[|p|..] == " " + rest;
      ScanSpace(rest);
    }
  }

  // ---------- The alphabet ----------

  /** A letter, a digit or an underscore, by code. */
  predicate WordChar(c: char) {
    var n := c as int;
    48 <= n <= 57 || 65 <= n <= 90 || 97 <= n <= 122 || n == 95
  }

  lemma {:induction false} WordCharsLen(w: string, y: string)
    requires (forall i :: 0 <= i < |w| ==> WordChar(w[i])) && (y == "" || !WordChar(y[0]))
    ensures WordLen(w + y) == |w|
  {
    if w == "" {
      assert w + y == y;
    } else {
      assert (w + y)[1..] == w[1..] + y;
      WordCharsLen(w[1..], y);
    }
  }

  /** A word of letters, digits and underscores is one token, whatever else comes after it. */
  lemma WordIsOneToken(w: string, y: string)
    requires w != "" && (forall i :: 0 <= i < |w| ==> WordChar(w[i])) && (y == "" || !WordChar(y[0]))
    ensures Scan(w + y) == [Token(w, false)] + Scan(y)
  {
    var s := w + y;
    WordCharsLen(w, y);
    assert s[0] == w[0] && s[..|w|] == w && s[|w|..] == y;
    hide WordLen; hide LineLen; hide BlockLen; hide BlockEnds; hide Delimited; hide QuotedLexeme;
    WordFirst(s);
    hide First;
  }

  lemma WordFirst(s: string)
    requires s != "" && WordChar(s[0])
    ensures First(s) == Lexeme(Word, WordLen(s), true, [Token(s[..WordLen(s)], false)])
  {
    hide WordLen; hide LineLen; hide BlockLen; hide BlockEnds; hide Delimited; hide QuotedLexeme;
  }

  /** Any other character that opens nothing leaves no token and ends a word, so @ and # split names in two. */
  lemma OtherCharsSplit(a: string, c: char, b: string)
    requires a != "" && (forall i :: 0 <= i < |a| ==> WordChar(a[i]))
    requires b != "" && (forall i :: 0 <= i < |b| ==> WordChar(b[i]))
    requires !WordChar(c) && c !in "'\"`[.(),"
    ensures Scan(a + [c] + b) == [Token(a, false), Token(b, false)]
  {
    assert Scan("") == [];
    hide Scan; hide First;
    assert a + [c] + b == a + ([c] + b);
    WordIsOneToken(a, [c] + b);
    OtherCharIsSkipped(c, b);
    assert b + "" == b;
    WordIsOneToken(b, "");
  }

  lemma OtherCharIsSkipped(c: char, y: string)
    requires !WordChar(c) && c !in "'\"`[.()," && y != "" && WordChar(y[0])
    ensures Scan([c] + y) == Scan(y)
  {
    var s := [c] + y;
    assert s[0] == c && s[1] == y[0] && s[1..] == y;
    assert "'\"`[.(),"[0] == '\'' && "'\"`[.(),"[1] == '"' && "'\"`[.(),"[2] == '`' && "'\"`[.(),"[3] == '[';
    assert "'\"`[.(),"[4] == '.' && "'\"`[.(),"[5] == '(' && "'\"`[.(),"[6] == ')' && "'\"`[.(),"[7] == ',';
    assert First(s) == Lexeme(Skipped, 1, true, []);
  }
}
