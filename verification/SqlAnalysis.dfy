/**
 The whole SQL analysis (routing-service/internal/sqlmeta/heuristic.go:47-100,
 498-526): type, category and the catalogs, schemas and tables a statement names.

 The sorted, duplicate-free lists of the result are modelled as sets.
 */
module SqlAnalysis {
  import opened Basics
  import opened SqlTokenizer
  import opened SqlStatement
  import opened SqlTableRefs

  const DEFAULT_MAX_BODY_BYTES: nat := 256 * 1024

  datatype QueryMeta = QueryMeta(
    queryType: string,
    category: Category,
    catalogs: set<string>,
    schemas: set<string>,
    catalogSchemas: set<string>,
    tables: set<string>,
    parseOk: bool)

  const EMPTY_META := QueryMeta("", Other, {}, {}, {}, {}, false)

  datatype Name = Name(catalog: string, schema: string, table: string)

  predicate IsSpace(c: char) {
    c == ' ' || '\t' <= c <= '\r'
  }

  predicate AllSpace(s: string) {
    forall i :: 0 <= i < |s| ==> IsSpace(s[i])
  }

  function TrimLeft(s: string): string {
    if s != "" && IsSpace(s[0]) then TrimLeft(s[1..]) else s
  }

  function TrimRight(s: string): string {
    if s != "" && IsSpace(s[|s| - 1]) then TrimRight(s[..|s| - 1]) else s
  }

  /** A default catalog or schema is trimmed and lower-cased before it is used. */
  function Normal(name: string): string {
    Lower(TrimRight(TrimLeft(name)))
  }

  /** Missing leading parts come from the defaults; of four or more parts the last three count. */
  function Qualify(ref: Ref, defaultCatalog: string, defaultSchema: string): Name
    requires |ref| >= 1
  {
    if |ref| == 1 then Name(Normal(defaultCatalog), Normal(defaultSchema), ref[0])
    else if |ref| == 2 then Name(Normal(defaultCatalog), ref[0], ref[1])
    else Name(ref[|ref| - 3], ref[|ref| - 2], ref[|ref| - 1])
  }

  function JoinName(n: Name): string {
    (if n.catalog != "" then n.catalog + "." else "") + (if n.schema != "" then n.schema + "." else "") + n.table
  }

  function Qualified(refs: seq<Ref>, dc: string, ds: string): set<Name>
    requires forall i :: 0 <= i < |refs| ==> |refs[i]| >= 1
  {
    set i | 0 <= i < |refs| && Qualify(refs[i], dc, ds).table != "" :: Qualify(refs[i], dc, ds)
  }

  function MetaOf(queryType: string, names: set<Name>): QueryMeta {
    QueryMeta(queryType, CategoryFor(queryType),
              set n | n in names && n.catalog != "" :: n.catalog,
              set n | n in names && n.schema != "" :: n.schema,
              set n | n in names && n.catalog != "" && n.schema != "" :: n.catalog + "." + n.schema,
              set n | n in names && JoinName(n) != "" :: JoinName(n),
              true)
  }

  function Meta(toks: seq<Token>, dc: string, ds: string): QueryMeta {
    match StatementType(toks)
    case None => EMPTY_META
    case Some(queryType) => MetaOf(queryType, Qualified(Extract(toks), dc, ds))
  }

  function Truncated(sql: string, limit: int): string {
    var cap := if limit <= 0 then DEFAULT_MAX_BODY_BYTES else limit;
    if |sql| > cap then sql[..cap] else sql
  }

  /** A string set ignores the empty string. */
  function Added(m: set<string>, v: string): set<string> {
    if v == "" then m else m + {v}
  }

  lemma QualifiedSnoc(refs: seq<Ref>, i: nat, dc: string, ds: string)
    requires i < |refs| && forall k :: 0 <= k < |refs| ==> |refs[k]| >= 1
    ensures
      var n := Qualify(refs[i], dc, ds);
      Qualified(refs[..i + 1], dc, ds) ==
      if n.table == "" then Qualified(refs[..i], dc, ds) else Qualified(refs[..i], dc, ds) + {n}
  {
    assert forall k :: 0 <= k < i ==> refs[..i + 1][k] == refs[..i][k];
    assert refs[..i + 1][i] == refs[i];
    var a, b := Qualified(refs[..i + 1], dc, ds), Qualified(refs[..i], dc, ds);
    forall x | x in b ensures x in a {
      var k :| 0 <= k < |refs[..i]| && Qualify(refs[..i][k], dc, ds).table != "" && x == Qualify(refs[..i][k], dc, ds);
      assert Qualify(refs[..i + 1][k], dc, ds) == x;
    }
  }

  /** Adding one name to each of the four sets. */
  lemma MetaSnoc(queryType: string, names: set<Name>, n: Name)
    requires n.table != ""
    ensures
      var a, b := MetaOf(queryType, names), MetaOf(queryType, names + {n});
      && b.catalogs == a.catalogs + (if n.catalog != "" then {n.catalog} else {})
      && b.schemas == a.schemas + (if n.schema != "" then {n.schema} else {})
      && b.catalogSchemas ==
         a.catalogSchemas + (if n.catalog != "" && n.schema != "" then {n.catalog + "." + n.schema} else {})
      && b.tables == a.tables + {JoinName(n)}
  {
    var all := names + {n};
    assert forall x :: x in all <==> x in names || x == n;
    assert JoinName(n) != "";
  }

  /** The loop over the references that fills the four sets. */
  method Collect(queryType: string, refs: seq<Ref>, dc: string, ds: string)
    returns (cats: set<string>, schemas: set<string>, catSchemas: set<string>, tables: set<string>)
    requires forall i :: 0 <= i < |refs| ==> |refs[i]| >= 1
    ensures
      var m := MetaOf(queryType, Qualified(refs, dc, ds));
      cats == m.catalogs && schemas == m.schemas && catSchemas == m.catalogSchemas && tables == m.tables
  {
    hide Qualify; hide JoinName; hide CategoryFor; hide MetaOf; hide Qualified;
    cats, schemas, catSchemas, tables := {}, {}, {}, {};
    var i := 0;
    MetaNone(queryType, dc, ds);
    assert refs[..0] == [];
    while i < |refs|
      invariant 0 <= i <= |refs|
      invariant
        var m := MetaOf(queryType, Qualified(refs[..i], dc, ds));
        cats == m.catalogs && schemas == m.schemas && catSchemas == m.catalogSchemas && tables == m.tables
    {
      var n := Qualify(refs[i], dc, ds);
      QualifiedSnoc(refs, i, dc, ds);
      i := i + 1;
      if n.table == "" {
        continue;
      }
      MetaSnoc(queryType, Qualified(refs[..i - 1], dc, ds), n);
      JoinNameText(n);
      if n.catalog != "" {
        cats := Added(cats, n.catalog);
      }
      if n.schema != "" {
        schemas := Added(schemas, n.schema);
      }
      if n.catalog != "" && n.schema != "" {
        catSchemas := Added(catSchemas, n.catalog + "." + n.schema);
      }
      tables := Added(tables, JoinName(n));
    }
    assert refs[..i] == refs;
  }

  method Analyze(sql: string, limit: int, dc: string, ds: string) returns (meta: QueryMeta, truncated: bool)
    ensures meta == Meta(Scan(Truncated(sql, limit)), dc, ds)
    ensures truncated <==> |sql| > (if limit > 0 then limit else 262144)
    ensures !truncated ==> Truncated(sql, limit) == sql
    ensures truncated ==> Truncated(sql, limit) == sql[..if limit > 0 then limit else 262144]
    ensures StatementType(Scan(Truncated(sql, limit))).None? ==> meta == QueryMeta("", Other, {}, {}, {}, {}, false)
    ensures StatementType(Scan(Truncated(sql, limit))).Some? ==>
              && meta.parseOk && meta.queryType == StatementType(Scan(Truncated(sql, limit))).value
              && Reports(meta, Extract(Scan(Truncated(sql, limit))), dc, ds)
  {
    hide Scan; hide Extract; hide StatementType; hide CategoryFor; hide Qualified;
    var cap := if limit <= 0 then DEFAULT_MAX_BODY_BYTES else limit;
    truncated := |sql| > cap;
    var text := if truncated then sql[..cap] else sql;
    var toks := Tokenize(text);
    var queryType := Classify(toks);
    if queryType.None? {
      return EMPTY_META, truncated;
    }
    var refs := ExtractTableRefs(toks);
    var cats, schemas, catSchemas, tables := Collect(queryType.value, refs, dc, ds);
    meta := QueryMeta(queryType.value, CategoryFor(queryType.value), cats, schemas, catSchemas, tables, true);
    MetaReports(queryType.value, refs, dc, ds);
  }

  // ---------- What is reported for a reference ----------

  /** The catalog, schema and table that a reference stands for with these defaults. */
  predicate StandsFor(ref: Ref, c: string, s: string, catalog: string, schema: string, table: string) {
    var n := |ref|;
    && (n == 1 ==> catalog == c && schema == s && table == ref[0])
    && (n == 2 ==> catalog == c && schema == ref[0] && table == ref[1])
    && (n >= 3 ==> catalog == ref[n - 3] && schema == ref[n - 2] && table == ref[n - 1])
    && n >= 1 && table != ""
  }

  /** A dotted name without its empty leading parts. */
  predicate Spells(name: string, catalog: string, schema: string, table: string) {
    && (catalog != "" && schema != "" ==> name == catalog + "." + schema + "." + table)
    && (catalog == "" && schema != "" ==> name == schema + "." + table)
    && (catalog != "" && schema == "" ==> name == catalog + "." + table)
    && (catalog == "" && schema == "" ==> name == table)
  }

  /** The four sets hold what the references stand for, and nothing else; empty parts are not reported. */
  ghost predicate Reports(meta: QueryMeta, refs: seq<Ref>, dc: string, ds: string) {
    var c, s := Normal(dc), Normal(ds);
    && (forall x :: x in meta.catalogs <==> x != "" && exists r, sch, t :: r in refs && StandsFor(r, c, s, x, sch, t))
    && (forall x :: x in meta.schemas <==> x != "" && exists r, cat, t :: r in refs && StandsFor(r, c, s, cat, x, t))
    && (forall x :: x in meta.catalogSchemas <==>
          exists r, cat, sch, t :: r in refs && StandsFor(r, c, s, cat, sch, t) && cat != "" && sch != ""
                                   && x == cat + "." + sch)
    && (forall x :: x in meta.tables <==>
          exists r, cat, sch, t :: r in refs && StandsFor(r, c, s, cat, sch, t) && Spells(x, cat, sch, t))
  }

  /** A reference stands for what it is qualified to. */
  lemma QualifiedStandsFor(refs: seq<Ref>, dc: string, ds: string, n: Name)
    requires forall i :: 0 <= i < |refs| ==> |refs[i]| >= 1
    ensures n in Qualified(refs, dc, ds) <==>
            exists r :: r in refs && StandsFor(r, Normal(dc), Normal(ds), n.catalog, n.schema, n.table)
  {
    hide Normal;
    if n in Qualified(refs, dc, ds) {
      var i :| 0 <= i < |refs| && Qualify(refs[i], dc, ds).table != "" && n == Qualify(refs[i], dc, ds);
      assert refs[i] in refs && StandsFor(refs[i], Normal(dc), Normal(ds), n.catalog, n.schema, n.table);
    }
    if r :| r in refs && StandsFor(r, Normal(dc), Normal(ds), n.catalog, n.schema, n.table) {
      var i :| 0 <= i < |refs| && refs[i] == r;
      assert Qualify(refs[i], dc, ds) == n;
    }
  }

  lemma CatalogsReported(queryType: string, refs: seq<Ref>, dc: string, ds: string, x: string)
    requires forall i :: 0 <= i < |refs| ==> |refs[i]| >= 1
    ensures
      x in MetaOf(queryType, Qualified(refs, dc, ds)).catalogs <==>
      x != "" && exists r, sch, t :: r in refs && StandsFor(r, Normal(dc), Normal(ds), x, sch, t)
  {
    hide Qualified; hide Normal; hide StandsFor; hide JoinName; hide CategoryFor;
    var names := Qualified(refs, dc, ds);
    if x in MetaOf(queryType, names).catalogs {
      var n :| n in names && n.catalog != "" && n.catalog == x;
      QualifiedStandsFor(refs, dc, ds, n);
    }
    if x != "" {
      if r, sch, t :| r in refs && StandsFor(r, Normal(dc), Normal(ds), x, sch, t) {
        QualifiedStandsFor(refs, dc, ds, Name(x, sch, t));
        assert Name(x, sch, t) in names;
      }
    }
  }

  lemma SchemasReported(queryType: string, refs: seq<Ref>, dc: string, ds: string, x: string)
    requires forall i :: 0 <= i < |refs| ==> |refs[i]| >= 1
    ensures
      x in MetaOf(queryType, Qualified(refs, dc, ds)).schemas <==>
      x != "" && exists r, cat, t :: r in refs && StandsFor(r, Normal(dc), Normal(ds), cat, x, t)
  {
    hide Qualified; hide Normal; hide StandsFor; hide JoinName; hide CategoryFor;
    var names := Qualified(refs, dc, ds);
    if x in MetaOf(queryType, names).schemas {
      var n :| n in names && n.schema != "" && n.schema == x;
      QualifiedStandsFor(refs, dc, ds, n);
    }
    if x != "" {
      if r, cat, t :| r in refs && StandsFor(r, Normal(dc), Normal(ds), cat, x, t) {
        QualifiedStandsFor(refs, dc, ds, Name(cat, x, t));
        assert Name(cat, x, t) in names;
      }
    }
  }

  lemma PairsReported(queryType: string, refs: seq<Ref>, dc: string, ds: string, x: string)
    requires forall i :: 0 <= i < |refs| ==> |refs[i]| >= 1
    ensures
      x in MetaOf(queryType, Qualified(refs, dc, ds)).catalogSchemas <==>
      exists r, cat, sch, t :: r in refs && StandsFor(r, Normal(dc), Normal(ds), cat, sch, t) && cat != "" && sch != ""
                               && x == cat + "." + sch
  {
    hide Qualified; hide Normal; hide StandsFor; hide JoinName; hide CategoryFor;
    var names := Qualified(refs, dc, ds);
    if x in MetaOf(queryType, names).catalogSchemas {
      var n :| n in names && n.catalog != "" && n.schema != "" && n.catalog + "." + n.schema == x;
      QualifiedStandsFor(refs, dc, ds, n);
    }
    if r, cat, sch, t :| r in refs && StandsFor(r, Normal(dc), Normal(ds), cat, sch, t) && cat != "" && sch != ""
                         && x == cat + "." + sch {
      QualifiedStandsFor(refs, dc, ds, Name(cat, sch, t));
      assert Name(cat, sch, t) in names;
    }
  }

  lemma JoinNameSpells(n: Name, x: string)
    requires n.table != ""
    ensures (x == JoinName(n) <==> Spells(x, n.catalog, n.schema, n.table)) && JoinName(n) != ""
  {
    FullNameSpells(n.catalog, n.schema, n.table);
    hide Spells;
    var c, s := if n.catalog == "" then "" else n.catalog + ".", if n.schema == "" then "" else n.schema + ".";
    assert JoinName(n) == c + s + n.table;
  }

  lemma TablesReported(queryType: string, refs: seq<Ref>, dc: string, ds: string, x: string)
    requires forall i :: 0 <= i < |refs| ==> |refs[i]| >= 1
    ensures
      x in MetaOf(queryType, Qualified(refs, dc, ds)).tables <==>
      exists r, cat, sch, t :: r in refs && StandsFor(r, Normal(dc), Normal(ds), cat, sch, t) && Spells(x, cat, sch, t)
  {
    hide Qualified; hide Normal; hide StandsFor; hide JoinName; hide CategoryFor; hide Spells;
    var names := Qualified(refs, dc, ds);
    if x in MetaOf(queryType, names).tables {
      var n :| n in names && JoinName(n) != "" && JoinName(n) == x;
      QualifiedStandsFor(refs, dc, ds, n);
      var r :| r in refs && StandsFor(r, Normal(dc), Normal(ds), n.catalog, n.schema, n.table);
      assert n.table != "" by { StandsForATable(r, Normal(dc), Normal(ds), n.catalog, n.schema, n.table); }
      JoinNameSpells(n, x);
    }
    if r, cat, sch, t :| r in refs && StandsFor(r, Normal(dc), Normal(ds), cat, sch, t) && Spells(x, cat, sch, t) {
      var n := Name(cat, sch, t);
      QualifiedStandsFor(refs, dc, ds, n);
      StandsForATable(r, Normal(dc), Normal(ds), cat, sch, t);
      JoinNameSpells(n, x);
      assert n in names;
    }
  }

  lemma StandsForATable(ref: Ref, c: string, s: string, catalog: string, schema: string, table: string)
    requires StandsFor(ref, c, s, catalog, schema, table)
    ensures table != ""
  {
  }

  lemma MetaReports(queryType: string, refs: seq<Ref>, dc: string, ds: string)
    requires forall i :: 0 <= i < |refs| ==> |refs[i]| >= 1
    ensures Reports(MetaOf(queryType, Qualified(refs, dc, ds)), refs, dc, ds)
  {
    var meta := MetaOf(queryType, Qualified(refs, dc, ds));
    hide MetaOf; hide Qualified; hide Normal; hide StandsFor; hide Spells;
    forall x { CatalogsReported(queryType, refs, dc, ds, x); }
    forall x { SchemasReported(queryType, refs, dc, ds, x); }
    forall x { PairsReported(queryType, refs, dc, ds, x); }
    forall x { TablesReported(queryType, refs, dc, ds, x); }
  }

  lemma JoinNameText(n: Name)
    requires n.table != ""
    ensures JoinName(n) != ""
  {
  }

  lemma MetaNone(queryType: string, dc: string, ds: string)
    ensures
      var m := MetaOf(queryType, Qualified([], dc, ds));
      m.catalogs == {} && m.schemas == {} && m.catalogSchemas == {} && m.tables == {}
  {
  }

  // ---------- Letter case of unquoted words does not matter ----------

  predicate SameFold(a: string, b: string) {
    |a| == |b| && forall i :: 0 <= i < |a| ==> UpperChar(a[i]) == UpperChar(b[i])
  }

  predicate SameToken(a: Token, b: Token) {
    a.quoted == b.quoted && if a.quoted then a.text == b.text else SameFold(a.text, b.text)
  }

  predicate SameTokens(a: seq<Token>, b: seq<Token>) {
    |a| == |b| && forall i :: 0 <= i < |a| ==> SameToken(a[i], b[i])
  }

  predicate IsMark(s: string) {
    s == "," || s == "(" || s == ")" || s == "."
  }

  /** Two words that differ in case only have the same keyword, the same folded name and the same punctuation. */
  lemma SameTokenSame(a: Token, b: Token)
    requires SameToken(a, b)
    ensures !a.quoted ==> Upper(a.text) == Upper(b.text)
    ensures PartText(a) == PartText(b)
    ensures forall m :: IsMark(m) ==> (a.text == m <==> b.text == m)
  {
    if !a.quoted {
      assert Upper(a.text) == Upper(b.text);
      forall i | 0 <= i < |a.text| ensures LowerChar(a.text[i]) == LowerChar(b.text[i]) {
        assert UpperChar(a.text[i]) == UpperChar(b.text[i]);
      }
      assert Lower(a.text) == Lower(b.text);
      forall m | IsMark(m) ensures a.text == m <==> b.text == m {
        assert |m| == 1;
        if |a.text| == 1 { assert UpperChar(a.text[0]) == UpperChar(b.text[0]); }
      }
    }
  }

  lemma SameTail(a: seq<Token>, b: seq<Token>, k: nat)
    requires SameTokens(a, b) && k <= |a|
    ensures SameTokens(a[k..], b[k..])
  {
    hide SameToken;
    assert forall i :: 0 <= i < |a| - k ==> a[k..][i] == a[k + i] && b[k..][i] == b[k + i];
  }

  /** The keyword tests agree on the heads of two lists that differ in case only. */
  lemma SameHead(a: Token, b: Token)
    requires SameToken(a, b)
    ensures Anchor(a) == Anchor(b) && Stop(a) == Stop(b) && Only(a) == Only(b) && As(a) == As(b)
    ensures StartsRef(a) == StartsRef(b) && PartText(a) == PartText(b)
    ensures (a.text == "," <==> b.text == ",") && (a.text == "(" <==> b.text == "(")
    ensures (a.text == ")" <==> b.text == ")") && (a.text == "." <==> b.text == ".")
    ensures !a.quoted ==> Upper(a.text) == Upper(b.text)
  {
    hide IsTableKeyword; hide IsStopKeyword; hide SameToken;
    SameTokenSame(a, b);
    assert a.quoted == b.quoted by { SameQuoted(a, b); }
    assert IsMark(",") && IsMark("(") && IsMark(")") && IsMark(".");
  }

  lemma SameQuoted(a: Token, b: Token)
    requires SameToken(a, b)
    ensures a.quoted == b.quoted
  {
  }

  lemma {:induction false} LeadingSame(a: seq<Token>, b: seq<Token>)
    requires SameTokens(a, b)
    ensures Leading(a) == Leading(b)
  {
    if a != [] {
      SameTail(a, b, 1);
      SameTokenSame(a[0], b[0]);
      LeadingSame(a[1..], b[1..]);
    }
  }

  lemma {:induction false} MainSame(a: seq<Token>, b: seq<Token>, depth: nat)
    requires SameTokens(a, b)
    ensures Main(a, depth) == Main(b, depth)
  {
    hide IsStatementKeyword; hide SameToken;
    if a != [] {
      SameTail(a, b, 1);
      SameHead(a[0], b[0]);
      SameQuoted(a[0], b[0]);
      MainSame(a[1..], b[1..], if a[0].text == "(" then depth + 1 else if a[0].text == ")" then Down(depth) else depth);
    }
  }

  lemma StatementTypeSame(a: seq<Token>, b: seq<Token>)
    requires SameTokens(a, b)
    ensures StatementType(a) == StatementType(b)
  {
    hide IsStatementKeyword; hide Main; hide Leading;
    LeadingSame(a, b);
    if a != [] {
      SameTail(a, b, 1);
      MainSame(a[1..], b[1..], 0);
    }
  }

  lemma {:induction false} DottedSame(a: seq<Token>, b: seq<Token>)
    requires SameTokens(a, b)
    ensures Dotted(a).parts == Dotted(b).parts && SameTokens(Dotted(a).rest, Dotted(b).rest)
    decreases |a|
  {
    hide SameToken; hide PartText;
    if a != [] { SameHead(a[0], b[0]); }
    if |a| >= 2 && a[0].text == "." {
      SameHead(a[1], b[1]);
      SameTail(a, b, 2);
      DottedSame(a[2..], b[2..]);
    }
  }

  lemma ReadRefSame(a: seq<Token>, b: seq<Token>)
    requires SameTokens(a, b)
    ensures ReadRef(a).Some? == ReadRef(b).Some?
    ensures ReadRef(a).Some? ==>
              && ReadRef(a).value.parts == ReadRef(b).value.parts
              && SameTokens(ReadRef(a).value.rest, ReadRef(b).value.rest)
  {
    hide SameToken; hide PartText; hide Dotted; hide StartsRef;
    if a != [] {
      SameHead(a[0], b[0]);
      SameTail(a, b, 1);
      DottedSame(a[1..], b[1..]);
    }
  }

  lemma SkipAliasSame(a: seq<Token>, b: seq<Token>)
    requires SameTokens(a, b)
    ensures SameTokens(SkipAlias(a), SkipAlias(b))
  {
    hide SameToken; hide Anchor; hide Stop; hide As;
    if a != [] {
      SameHead(a[0], b[0]);
      SameTail(a, b, 1);
      if |a| > 1 { SameTail(a, b, 2); }
    }
  }

  lemma {:induction false} RefListSame(a: seq<Token>, b: seq<Token>)
    requires SameTokens(a, b)
    ensures RefList(a).refs == RefList(b).refs && SameTokens(RefList(a).rest, RefList(b).rest)
    decreases |a|
  {
    hide SameToken; hide ReadRef; hide SkipAlias;
    ReadRefSame(a, b);
    if ReadRef(a).Some? {
      var ra, rb := SkipAlias(ReadRef(a).value.rest), SkipAlias(ReadRef(b).value.rest);
      SkipAliasSame(ReadRef(a).value.rest, ReadRef(b).value.rest);
      if ra != [] {
        SameHead(ra[0], rb[0]);
        if |ra| > 1 { SameHead(ra[1], rb[1]); }
        SameTail(ra, rb, 1);
        RefListSame(ra[1..], rb[1..]);
      }
    }
  }

  lemma {:induction false} SkipOnlySame(a: seq<Token>, b: seq<Token>)
    requires SameTokens(a, b)
    ensures SameTokens(SkipOnly(a), SkipOnly(b))
  {
    hide SameToken; hide Only;
    if a != [] {
      SameHead(a[0], b[0]);
      SameTail(a, b, 1);
      SkipOnlySame(a[1..], b[1..]);
    }
  }

  lemma {:induction false} ExtractSame(a: seq<Token>, b: seq<Token>)
    requires SameTokens(a, b)
    ensures Extract(a) == Extract(b)
    decreases |a|
  {
    hide SameToken; hide Anchor; hide RefList; hide SkipOnly;
    if a != [] {
      SameHead(a[0], b[0]);
      SameTail(a, b, 1);
      if !Anchor(a[0]) {
        ExtractSame(a[1..], b[1..]);
      } else {
        var ra, rb := SkipOnly(a[1..]), SkipOnly(b[1..]);
        SkipOnlySame(a[1..], b[1..]);
        if ra != [] { SameHead(ra[0], rb[0]); }
        if ra != [] && ra[0].text == "(" {
          ExtractSame(ra, rb);
        } else {
          RefListSame(ra, rb);
          ExtractSame(RefList(ra).rest, RefList(rb).rest);
        }
      }
    }
  }

  lemma QualifySame(ref: Ref, dc: string, ds: string, dc': string, ds': string)
    requires |ref| >= 1 && Normal(dc) == Normal(dc') && Normal(ds) == Normal(ds')
    ensures Qualify(ref, dc, ds) == Qualify(ref, dc', ds')
  {
    hide Normal;
  }

  lemma QualifiedSame(refs: seq<Ref>, dc: string, ds: string, dc': string, ds': string)
    requires forall i :: 0 <= i < |refs| ==> |refs[i]| >= 1
    requires Normal(dc) == Normal(dc') && Normal(ds) == Normal(ds')
    ensures Qualified(refs, dc, ds) == Qualified(refs, dc', ds')
  {
    hide Normal; hide Qualify;
    forall i | 0 <= i < |refs| ensures Qualify(refs[i], dc, ds) == Qualify(refs[i], dc', ds') {
      QualifySame(refs[i], dc, ds, dc', ds');
    }
  }

  /**
   The whole analysis is the same for token lists that differ in the case of unquoted
   words only, with defaults that are the same once trimmed and lower-cased.
   */
  lemma CaseDoesNotMatter(a: seq<Token>, b: seq<Token>, dc: string, ds: string, dc': string, ds': string)
    requires SameTokens(a, b) && Normal(dc) == Normal(dc') && Normal(ds) == Normal(ds')
    ensures Meta(a, dc, ds) == Meta(b, dc', ds')
  {
    hide StatementType; hide Extract; hide MetaOf; hide Qualified; hide Normal;
    StatementTypeSame(a, b);
    ExtractSame(a, b);
    QualifiedSame(Extract(a), dc, ds, dc', ds');
  }

  lemma {:induction false} TrimLeftLower(s: string)
    ensures TrimLeft(Lower(s)) == Lower(TrimLeft(s))
  {
    if s != "" && IsSpace(s[0]) {
      assert Lower(s)[1..] == Lower(s[1..]);
      TrimLeftLower(s[1..]);
    }
  }

  lemma {:induction false} TrimRightLower(s: string)
    ensures TrimRight(Lower(s)) == Lower(TrimRight(s))
  {
    if s != "" && IsSpace(s[|s| - 1]) {
      assert Lower(s)[..|s| - 1] == Lower(s[..|s| - 1]);
      TrimRightLower(s[..|s| - 1]);
    }
  }

  lemma {:induction false} TrimLeftPadded(before: string, s: string)
    requires AllSpace(before)
    ensures TrimLeft(before + s) == TrimLeft(s)
  {
    if before == "" {
      assert before + s == s;
    } else {
      assert (before + s)[1..] == before[1..] + s;
      TrimLeftPadded(before[1..], s);
    }
  }

  lemma {:induction false} TrimRightPadded(s: string, after: string)
    requires AllSpace(after)
    ensures TrimRight(s + after) == TrimRight(s)
  {
    if after == "" {
      assert s + after == s;
    } else {
      var n := |after| - 1;
      assert (s + after)[..|s| + n] == s + after[..n];
      TrimRightPadded(s, after[..n]);
    }
  }

  lemma {:induction false} TrimLeftStops(s: string, after: string)
    requires AllSpace(after)
    ensures TrimRight(TrimLeft(s + after)) == TrimRight(TrimLeft(s))
  {
    if s == "" {
      assert s + after == after + "";
      TrimLeftPadded(after, "");
    } else if IsSpace(s[0]) {
      assert (s + after)[1..] == s[1..] + after;
      TrimLeftStops(s[1..], after);
    } else {
      TrimRightPadded(s, after);
    }
  }

  predicate Blanks(s: string) {
    forall i :: 0 <= i < |s| ==> IsBlank(s[i])
  }

  lemma BlanksAreSpace(s: string)
    requires Blanks(s)
    ensures AllSpace(s)
  {
  }

  lemma FoldIsLower(a: string, b: string)
    requires SameFold(a, b)
    ensures Lower(a) == Lower(b)
  {
    forall i | 0 <= i < |a| ensures LowerChar(a[i]) == LowerChar(b[i]) {
      assert UpperChar(a[i]) == UpperChar(b[i]);
    }
  }

  /** Blanks around a default and the case of its letters do not matter. */
  lemma DefaultsAreNormalised(before: string, name: string, after: string, name': string)
    requires Blanks(before) && Blanks(after) && SameFold(name, name')
    ensures Normal(before + name + after) == Normal(name')
  {
    BlanksAreSpace(before);
    BlanksAreSpace(after);
    FoldIsLower(name, name');
    hide TrimLeft; hide TrimRight; hide Blanks; hide AllSpace; hide SameFold; hide Lower;
    assert before + name + after == before + (name + after);
    TrimLeftPadded(before, name + after);
    TrimLeftStops(name, after);
    NormalByLower(name);
    NormalByLower(name');
  }

  lemma NormalByLower(name: string)
    ensures Normal(name) == TrimRight(TrimLeft(Lower(name)))
  {
    hide TrimLeft; hide TrimRight;
    TrimLeftLower(name);
    TrimRightLower(TrimLeft(name));
  }

  /** Without capitals, and without blanks at its ends. */
  predicate Tidy(name: string) {
    && (forall i :: 0 <= i < |name| ==> !(65 <= name[i] as int <= 90))
    && (name != "" ==> !IsBlank(name[0]) && !IsBlank(name[|name| - 1]))
  }

  predicate IsBlank(c: char) {
    c == ' ' || c == '\t' || c == '\n' || c == '\r' || c as int == 11 || c as int == 12
  }

  /** A tidy default is used as it is. */
  lemma TidyIsNormal(name: string)
    requires Tidy(name)
    ensures Normal(name) == name
  {
    assert TrimLeft(name) == name && TrimRight(name) == name;
    assert Lower(name) == name;
  }

  // ---------- From the text of a query to its tables ----------

  predicate IsSelect(t: Token) { !t.quoted && Upper(t.text) == "SELECT" }

  /**
   Printed as text, scanned, classified and analysed: a SELECT over any list of
   table references is a read of exactly those tables, catalogs and schemas.
   */
  lemma SelectNamesItsTables(items: seq<Item>, select: Token, columns: seq<Token>, from: Token, rs: seq<TableRef>,
                             dc: string, ds: string)
    requires forall i :: 0 <= i < |items| ==> Printable(items[i])
    requires TokensOf(items) == [select] + columns + [from] + (ListTokens(rs) + [])
    requires IsSelect(select) && Anchor(from) && rs != []
    requires forall i :: 0 <= i < |columns| ==> !Anchor(columns[i])
    requires (forall i :: 0 <= i < |rs| ==> Good(rs[i])) && !Only(rs[0].first)
    ensures
      var meta := Meta(Scan(PrintAll(items)), dc, ds);
      && meta == MetaOf("SELECT", Qualified(AllNames(rs), dc, ds))
      && meta.parseOk && meta.queryType == "SELECT" && meta.category == Read && Reports(meta, AllNames(rs), dc, ds)
  {
    MetaReports("SELECT", AllNames(rs), dc, ds);
    hide Extract; hide ListTokens; hide AllNames; hide Scan; hide PrintAll; hide StatementType; hide Good; hide Qualify;
    RoundTrip(items);
    var toks := TokensOf(items);
    var pre := [select] + columns;
    SelectIsNoAnchor(select);
    assert forall i :: 0 <= i < |pre| ==> !Anchor(pre[i]);
    ExtractReadsBack(pre, from, rs, []);
    assert toks == pre + [from] + (ListTokens(rs) + []);
    ExtractNothing();
    assert AllNames(rs) + [] == AllNames(rs);
    SelectIsSelect(toks);
  }

  lemma ExtractNothing()
    ensures Extract([]) == []
  {
  }

  lemma SelectIsNoAnchor(t: Token)
    requires IsSelect(t)
    ensures !Anchor(t)
  {
    assert |Upper(t.text)| == 6 && Upper(t.text)[0] == 'S';
  }

  lemma SelectIsSelect(toks: seq<Token>)
    requires toks != [] && IsSelect(toks[0])
    ensures StatementType(toks) == Some("SELECT") && CategoryFor("SELECT") == Read
  {
    assert |"SELECT"| == 6 && |"EXPLAIN"| == 7 && |"WITH"| == 4;
  }

  /**
   One table without a qualifier, and tidy defaults: the catalog is the default catalog,
   the schema the default schema, and a default that is empty leaves no part and no dot.
   */
  lemma OneTableTakesDefaults(meta: QueryMeta, t: string, c: string, s: string)
    requires Tidy(c) && Tidy(s) && t != "" && Reports(meta, [[t]], c, s)
    ensures meta.catalogs == if c == "" then {} else {c}
    ensures meta.schemas == if s == "" then {} else {s}
    ensures meta.catalogSchemas == if c == "" || s == "" then {} else {c + "." + s}
    ensures meta.tables == {(if c == "" then "" else c + ".") + (if s == "" then "" else s + ".") + t}
  {
    TidyIsNormal(c);
    TidyIsNormal(s);
    hide Tidy; hide Normal;
    var full := (if c == "" then "" else c + ".") + (if s == "" then "" else s + ".") + t;
    assert [t] in [[t]] && StandsFor([t], c, s, c, s, t);
    assert forall r, cat, sch, x :: r in [[t]] && StandsFor(r, c, s, cat, sch, x) ==> cat == c && sch == s && x == t;
    assert forall x :: x in meta.catalogs <==> x != "" && x == c;
    assert forall x :: x in meta.schemas <==> x != "" && x == s;
    FullNameSpells(c, s, t);
    assert forall x :: Spells(x, c, s, t) ==> x == full;
    assert forall x :: x in meta.tables <==> x == full;
    assert forall x :: x in meta.catalogSchemas <==> c != "" && s != "" && x == c + "." + s;
  }

  lemma FullNameSpells(c: string, s: string, t: string)
    ensures
      var full := (if c == "" then "" else c + ".") + (if s == "" then "" else s + ".") + t;
      Spells(full, c, s, t) && forall x :: Spells(x, c, s, t) ==> x == full
  {
    if c == "" {
      assert "" + (if s == "" then "" else s + ".") + t == (if s == "" then "" else s + ".") + t;
      assert "" + t == t;
    } else if s == "" {
      assert c + "." + "" + t == c + "." + t;
    } else {
      assert c + "." + (s + ".") + t == c + "." + s + "." + t;
    }
  }
}
