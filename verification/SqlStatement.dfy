/**
 Statement classification (routing-service/internal/sqlmeta/heuristic.go:224-327):
 the leading keyword, or the keyword after a WITH list.

 Letters are folded as in ASCII; the scanner only makes bare words of ASCII letters.
 */
module SqlStatement {
  import opened Basics
  import opened SqlTokenizer

  function UpperChar(c: char): char {
    if 'a' <= c <= 'z' then (c as int - 32) as char else c
  }

  function LowerChar(c: char): char {
    if 'A' <= c <= 'Z' then (c as int + 32) as char else c
  }

  function Upper(s: string): (u: string)
    ensures |u| == |s| && forall i :: 0 <= i < |s| ==> u[i] == UpperChar(s[i])
  {
    seq(|s|, i requires 0 <= i < |s| => UpperChar(s[i]))
  }

  function Lower(s: string): (u: string)
    ensures |u| == |s| && forall i :: 0 <= i < |s| ==> u[i] == LowerChar(s[i])
  {
    seq(|s|, i requires 0 <= i < |s| => LowerChar(s[i]))
  }

  predicate IsStatementKeyword(kw: string) {
    kw in {"SELECT", "INSERT", "UPDATE", "DELETE", "MERGE", "CREATE", "DROP", "ALTER", "TRUNCATE", "EXPLAIN",
           "SHOW", "DESCRIBE", "USE", "CALL", "SET", "RESET", "GRANT", "REVOKE", "COMMENT", "ANALYZE", "REFRESH",
           "VALUES", "PREPARE", "EXECUTE", "DEALLOCATE", "START", "COMMIT", "ROLLBACK"}
  }

  datatype Category = Read | Write | Ddl | Explain | Other

  function CategoryFor(queryType: string): Category {
    if queryType in {"SELECT", "VALUES", "DESCRIBE", "SHOW"} then Read
    else if queryType in {"INSERT", "UPDATE", "DELETE", "MERGE", "TRUNCATE"} then Write
    else if queryType in {"CREATE", "DROP", "ALTER", "COMMENT", "REFRESH", "ANALYZE"} then Ddl
    else if queryType == "EXPLAIN" then Explain
    else Other
  }

  // ---------- The leading keyword ----------

  /** The first unquoted token, in upper case. */
  function Leading(toks: seq<Token>): string {
    if toks == [] then "" else if toks[0].quoted then Leading(toks[1..]) else Upper(toks[0].text)
  }

  function Down(depth: nat): nat {
    if depth > 0 then depth - 1 else 0
  }

  /** The first statement keyword outside parentheses; they are counted by text. */
  function Main(toks: seq<Token>, depth: nat): Option<string> {
    if toks == [] then None
    else if toks[0].text == "(" then Main(toks[1..], depth + 1)
    else if toks[0].text == ")" then Main(toks[1..], Down(depth))
    else if depth != 0 || toks[0].quoted || !IsStatementKeyword(Upper(toks[0].text)) then Main(toks[1..], depth)
    else Some(Upper(toks[0].text))
  }

  function StatementType(toks: seq<Token>): Option<string> {
    var first := Leading(toks);
    if first == "EXPLAIN" then Some("EXPLAIN")
    else if first == "WITH" then
      match Main(if toks == [] then [] else toks[1..], 0)
      case Some(kw) => Some(kw)
      case None => Some("SELECT")
    else if IsStatementKeyword(first) then Some(first)
    else None
  }

  method KeywordAt(toks: seq<Token>, idx: nat) returns (kw: string)
    requires idx <= |toks|
    ensures kw == Leading(toks[idx..])
  {
    var i := idx;
    while i < |toks|
      invariant idx <= i <= |toks|
      invariant Leading(toks[idx..]) == Leading(toks[i..])
    {
      assert toks[i..][1..] == toks[i + 1..];
      if !toks[i].quoted {
        return Upper(toks[i].text);
      }
      i := i + 1;
    }
    return "";
  }

  method MainAfterWith(toks: seq<Token>) returns (kw: Option<string>)
    requires toks != []
    ensures kw == Main(toks[1..], 0)
  {
    hide IsStatementKeyword;
    var depth := 0;
    var i := 1;
    while i < |toks|
      invariant 1 <= i <= |toks| && depth >= 0
      invariant Main(toks[1..], 0) == Main(toks[i..], depth)
    {
      assert toks[i..][1..] == toks[i + 1..];
      var t := toks[i];
      i := i + 1;
      if t.text == "(" {
        depth := depth + 1;
        continue;
      }
      if t.text == ")" {
        if depth > 0 {
          depth := depth - 1;
        }
        continue;
      }
      if depth != 0 || t.quoted {
        continue;
      }
      var upper := Upper(t.text);
      if IsStatementKeyword(upper) {
        return Some(upper);
      }
    }
    return None;
  }

  method Classify(toks: seq<Token>) returns (queryType: Option<string>)
    ensures queryType == StatementType(toks)
  {
    hide IsStatementKeyword;
    assert toks[0..] == toks;
    var first := KeywordAt(toks, 0);
    if first == "EXPLAIN" {
      return Some("EXPLAIN");
    }
    if first == "WITH" {
      assert toks != [];
      var kw := MainAfterWith(toks);
      return if kw.Some? then kw else Some("SELECT");
    }
    return if IsStatementKeyword(first) then Some(first) else None;
  }

  // ---------- The keyword after a WITH list ----------

  /** Nesting depth after a token list, or None once a parenthesis closes too much. */
  function Walk(toks: seq<Token>, depth: nat): Option<nat> {
    if toks == [] then Some(depth)
    else if toks[0].text == "(" then Walk(toks[1..], depth + 1)
    else if toks[0].text == ")" then if depth == 0 then None else Walk(toks[1..], depth - 1)
    else Walk(toks[1..], depth)
  }

  predicate Balanced(toks: seq<Token>) {
    Walk(toks, 0) == Some(0)
  }

  const OPEN := Token("(", false)
  const CLOSE := Token(")", false)
  const COMMA := Token(",", false)

  /** name (columns) AS (body) */
  datatype Cte = Cte(name: Token, columns: Option<seq<Token>>, asWord: Token, body: seq<Token>)

  predicate Plain(t: Token) {
    t.text != "(" && t.text != ")" && (t.quoted || !IsStatementKeyword(Upper(t.text)))
  }

  predicate IsWord(t: Token, kw: string) {
    !t.quoted && Upper(t.text) == kw
  }

  predicate WellFormedCte(c: Cte) {
    && Plain(c.name)
    && (c.columns.Some? ==> Balanced(c.columns.value))
    && IsWord(c.asWord, "AS")
    && Balanced(c.body)
  }

  function Group(inner: seq<Token>): seq<Token> {
    [OPEN] + inner + [CLOSE]
  }

  function CteTokens(c: Cte): seq<Token> {
    [c.name] + (if c.columns.Some? then Group(c.columns.value) else []) + [c.asWord] + Group(c.body)
  }

  function WithList(ctes: seq<Cte>): seq<Token> {
    if ctes == [] then [] else CteTokens(ctes[0]) + (if |ctes| == 1 then [] else [COMMA]) + WithList(ctes[1..])
  }

  /** Balanced text inside parentheses is skipped whole. */
  lemma {:induction false} MainSkips(toks: seq<Token>, base: nat, depth: nat, rest: seq<Token>)
    requires base > 0 && Walk(toks, depth) == Some(0)
    ensures Main(toks + rest, base + depth) == Main(rest, base)
  {
    hide IsStatementKeyword;
    if toks == [] {
      assert toks + rest == rest;
    } else {
      assert (toks + rest)[1..] == toks[1..] + rest;
      var next := if toks[0].text == "(" then depth + 1 else if toks[0].text == ")" then depth - 1 else depth;
      MainSkips(toks[1..], base, next, rest);
    }
  }

  lemma MainStep(t: Token, depth: nat, rest: seq<Token>)
    ensures t.text == "(" ==> Main([t] + rest, depth) == Main(rest, depth + 1)
    ensures t.text == ")" ==> Main([t] + rest, depth) == Main(rest, Down(depth))
    ensures Plain(t) ==> Main([t] + rest, depth) == Main(rest, depth)
  {
    hide IsStatementKeyword;
    assert ([t] + rest)[1..] == rest;
  }

  lemma MainSkipsGroup(inner: seq<Token>, rest: seq<Token>)
    requires Balanced(inner)
    ensures Main(Group(inner) + rest, 0) == Main(rest, 0)
  {
    hide Main; hide Walk;
    assert Group(inner) + rest == [OPEN] + (inner + ([CLOSE] + rest));
    MainStep(OPEN, 0, inner + ([CLOSE] + rest));
    MainSkips(inner, 1, 0, [CLOSE] + rest);
    MainStep(CLOSE, 1, rest);
  }

  lemma AsIsPlain(t: Token)
    requires IsWord(t, "AS")
    ensures Plain(t)
  {
    assert Upper(t.text)[0] == 'A' && Upper(t.text)[1] == 'S';
  }

  lemma MainSkipsCte(c: Cte, rest: seq<Token>)
    requires WellFormedCte(c)
    ensures Main(CteTokens(c) + rest, 0) == Main(rest, 0)
  {
    hide Main; hide Walk; hide Group; hide Plain;
    var tail := [c.asWord] + (Group(c.body) + rest);
    var cols := if c.columns.Some? then Group(c.columns.value) else [];
    assert CteTokens(c) + rest == [c.name] + (cols + tail);
    MainStep(c.name, 0, cols + tail);
    if c.columns.Some? { MainSkipsGroup(c.columns.value, tail); } else { assert cols + tail == tail; }
    AsIsPlain(c.asWord);
    MainStep(c.asWord, 0, Group(c.body) + rest);
    MainSkipsGroup(c.body, rest);
  }

  lemma CommaIsPlain()
    ensures Plain(COMMA)
  {
    assert Upper(",")[0] == ',';
    assert |Upper(",")| == 1;
  }

  lemma {:induction false} MainSkipsList(ctes: seq<Cte>, rest: seq<Token>)
    requires forall i :: 0 <= i < |ctes| ==> WellFormedCte(ctes[i])
    ensures Main(WithList(ctes) + rest, 0) == Main(rest, 0)
  {
    hide Main; hide CteTokens; hide Plain; hide WellFormedCte;
    if ctes == [] {
      assert WithList(ctes) + rest == rest;
    } else {
      MainSkipsList(ctes[1..], rest);
      var tail := WithList(ctes[1..]) + rest;
      if |ctes| == 1 {
        assert WithList(ctes) + rest == CteTokens(ctes[0]) + tail;
        MainSkipsCte(ctes[0], tail);
      } else {
        assert WithList(ctes) + rest == CteTokens(ctes[0]) + ([COMMA] + tail);
        MainSkipsCte(ctes[0], [COMMA] + tail);
        CommaIsPlain();
        MainStep(COMMA, 0, tail);
      }
    }
  }

  /**
   The type reported for a WITH statement is the keyword after the list, whatever
   statements the column lists and bodies contain.
   */
  lemma WithReportsMainKeyword(with: Token, lead: seq<Token>, ctes: seq<Cte>, kw: Token, rest: seq<Token>)
    requires IsWord(with, "WITH") && (lead == [] || (|lead| == 1 && IsWord(lead[0], "RECURSIVE")))
    requires forall i :: 0 <= i < |ctes| ==> WellFormedCte(ctes[i])
    requires !kw.quoted && IsStatementKeyword(Upper(kw.text))
    ensures StatementType([with] + lead + WithList(ctes) + [kw] + rest) == Some(Upper(kw.text))
  {
    hide CteTokens; hide WithList; hide WellFormedCte; hide Main; hide Plain; hide StatementType;
    hide IsStatementKeyword;
    var tail := WithList(ctes) + ([kw] + rest);
    var toks := [with] + lead + WithList(ctes) + [kw] + rest;
    assert toks[1..] == lead + tail;
    assert toks[0] == with;
    if lead != [] {
      assert lead == [lead[0]];
      RecursiveIsPlain(lead[0]);
      MainStep(lead[0], 0, tail);
    } else {
      assert lead + tail == tail;
    }
    MainSkipsList(ctes, [kw] + rest);
    MainFinds(kw, rest);
    WithLeads(toks);
  }

  lemma WithLeads(toks: seq<Token>)
    requires toks != [] && IsWord(toks[0], "WITH") && Main(toks[1..], 0).Some?
    ensures StatementType(toks) == Main(toks[1..], 0)
  {
    hide Main; hide IsStatementKeyword;
    assert "WITH" != "EXPLAIN" by { assert |"WITH"| == 4; }
  }

  lemma RecursiveIsPlain(t: Token)
    requires IsWord(t, "RECURSIVE")
    ensures Plain(t)
  {
    assert |Upper(t.text)| == 9 && Upper(t.text)[2] == 'C';
  }

  lemma MainFinds(kw: Token, rest: seq<Token>)
    requires !kw.quoted && IsStatementKeyword(Upper(kw.text))
    ensures Main([kw] + rest, 0) == Some(Upper(kw.text))
  {
    assert |Upper("(")| == 1 && |Upper(")")| == 1;
  }

  // ---------- Statements as they are spelled ----------

  predicate Capitals(kw: string) {
    forall i :: 0 <= i < |kw| ==> 65 <= kw[i] as int <= 90
  }

  /** An unquoted word that is `kw`, given in capitals, in any mix of upper and lower case. */
  predicate Spelled(t: Token, kw: string) {
    && !t.quoted && |t.text| == |kw|
    && forall i :: 0 <= i < |kw| ==> t.text[i] == kw[i] || t.text[i] as int == kw[i] as int + 32
  }

  lemma SpelledIsUpper(t: Token, kw: string)
    requires Capitals(kw)
    ensures Spelled(t, kw) <==> !t.quoted && Upper(t.text) == kw
  {
    if !t.quoted && Upper(t.text) == kw {
      forall i | 0 <= i < |kw| ensures t.text[i] == kw[i] || t.text[i] as int == kw[i] as int + 32 {
        assert UpperChar(t.text[i]) == kw[i];
      }
    }
  }

  const READS: seq<string> := ["SELECT", "VALUES", "DESCRIBE", "SHOW"]
  const WRITES: seq<string> := ["INSERT", "UPDATE", "DELETE", "MERGE", "TRUNCATE"]
  const DDL: seq<string> := ["CREATE", "DROP", "ALTER", "COMMENT", "REFRESH", "ANALYZE"]
  const OTHERS: seq<string> := ["USE", "CALL", "SET", "RESET", "GRANT", "REVOKE", "PREPARE", "EXECUTE", "DEALLOCATE",
                                "START", "COMMIT", "ROLLBACK"]

  predicate IsKnown(kw: string) {
    kw in READS || kw in WRITES || kw in DDL || kw in OTHERS || kw == "EXPLAIN"
  }

  lemma KnownKeywords(kw: string)
    ensures IsStatementKeyword(kw) <==> IsKnown(kw)
  {
  }

  lemma Categories(kw: string)
    ensures CategoryFor(kw) == Read <==> kw in READS
    ensures CategoryFor(kw) == Write <==> kw in WRITES
    ensures CategoryFor(kw) == Ddl <==> kw in DDL
    ensures CategoryFor(kw) == Explain <==> kw == "EXPLAIN"
  {
  }

  lemma {:induction false} LeadingAfterQuoted(pre: seq<Token>, t: Token, rest: seq<Token>)
    requires (forall i :: 0 <= i < |pre| ==> pre[i].quoted) && !t.quoted
    ensures Leading(pre + [t] + rest) == Upper(t.text)
  {
    if pre != [] {
      assert (pre + [t] + rest)[1..] == pre[1..] + [t] + rest;
      LeadingAfterQuoted(pre[1..], t, rest);
    }
  }

  /**
   The first unquoted word decides: a known keyword is the type and gives the category
   it is listed under, anything but WITH that is not known is not a statement.
   */
  lemma SpelledStatement(pre: seq<Token>, t: Token, rest: seq<Token>, kw: string)
    requires (forall i :: 0 <= i < |pre| ==> pre[i].quoted) && Capitals(kw) && Spelled(t, kw)
    ensures kw in READS ==> StatementType(pre + [t] + rest) == Some(kw) && CategoryFor(kw) == Read
    ensures kw in WRITES ==> StatementType(pre + [t] + rest) == Some(kw) && CategoryFor(kw) == Write
    ensures kw in DDL ==> StatementType(pre + [t] + rest) == Some(kw) && CategoryFor(kw) == Ddl
    ensures kw in OTHERS ==> StatementType(pre + [t] + rest) == Some(kw) && CategoryFor(kw) == Other
    ensures kw == "EXPLAIN" ==> StatementType(pre + [t] + rest) == Some("EXPLAIN") && CategoryFor(kw) == Explain
    ensures !IsKnown(kw) && kw != "WITH" ==> StatementType(pre + [t] + rest) == None
  {
    SpelledIsUpper(t, kw);
    LeadingAfterQuoted(pre, t, rest);
    KnownKeywords(kw);
    Categories(kw);
    NotWith(kw);
    hide IsStatementKeyword; hide CategoryFor; hide Main; hide Leading;
  }

  lemma NotWith(kw: string)
    ensures IsKnown(kw) ==> kw != "WITH"
    ensures kw in OTHERS ==> kw !in READS && kw !in WRITES && kw !in DDL && kw != "EXPLAIN"
  {
    assert |"WITH"| == 4 && "WITH"[0] == 'W';
  }

  lemma {:induction false} NoMain(toks: seq<Token>, depth: nat)
    requires forall i, kw :: 0 <= i < |toks| && IsKnown(kw) ==> !IsWord(toks[i], kw)
    ensures Main(toks, depth) == None
    decreases |toks|
  {
    if toks != [] {
      KnownKeywords(Upper(toks[0].text));
      assert !toks[0].quoted ==> IsWord(toks[0], Upper(toks[0].text));
      hide IsStatementKeyword; hide IsKnown;
      assert forall i :: 0 <= i < |toks| - 1 ==> toks[1..][i] == toks[i + 1];
      NoMain(toks[1..], if toks[0].text == "(" then depth + 1 else if toks[0].text == ")" then Down(depth) else depth);
    }
  }

  /** A WITH after which no statement keyword follows counts as a SELECT. */
  lemma WithAloneIsSelect(t: Token, rest: seq<Token>)
    requires Spelled(t, "WITH") && forall i, kw :: 0 <= i < |rest| && IsKnown(kw) ==> !IsWord(rest[i], kw)
    ensures StatementType([t] + rest) == Some("SELECT")
  {
    SpelledIsUpper(t, "WITH");
    NoMain(rest, 0);
    assert ([t] + rest)[0] == t && ([t] + rest)[1..] == rest;
    assert Leading([t] + rest) == "WITH";
    hide IsStatementKeyword; hide Main; hide Leading;
  }
}
