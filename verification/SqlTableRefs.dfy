/**
 Table-reference extraction (routing-service/internal/sqlmeta/heuristic.go:331-490).
 The functions work on the tokens that are left; the methods are the index loops.
 Punctuation is compared by text, also for quoted tokens, as in the code.
 */
module SqlTableRefs {
  import opened Basics
  import opened SqlTokenizer
  import opened SqlStatement

  predicate IsTableKeyword(kw: string) {
    kw in {"FROM", "JOIN", "INTO", "UPDATE", "TABLE"}
  }

  predicate IsStopKeyword(kw: string) {
    kw in {"WHERE", "ON", "USING", "GROUP", "ORDER", "HAVING", "LIMIT", "UNION", "INTERSECT", "EXCEPT", "AS", "SET",
           "VALUES", "SELECT", "WITH", "LEFT", "RIGHT", "INNER", "OUTER", "CROSS", "FULL", "NATURAL", "AND", "OR",
           "OFFSET", "FETCH", "WINDOW", "QUALIFY", "TABLESAMPLE"}
  }

  /** Unquoted names fold to lower case, quoted ones are kept. */
  function PartText(t: Token): string {
    if t.quoted then t.text else Lower(t.text)
  }

  type Ref = seq<string>

  predicate Anchor(t: Token) { !t.quoted && IsTableKeyword(Upper(t.text)) }
  predicate Stop(t: Token) { !t.quoted && IsStopKeyword(Upper(t.text)) }
  predicate Only(t: Token) { !t.quoted && Upper(t.text) == "ONLY" }
  predicate As(t: Token) { !t.quoted && Upper(t.text) == "AS" }

  // ---------- On the tokens that are left ----------

  datatype Parts = Parts(parts: Ref, rest: seq<Token>)

  function Dotted(toks: seq<Token>): (r: Parts)
    ensures |r.rest| <= |toks|
  {
    if |toks| >= 2 && toks[0].text == "." then
      var r := Dotted(toks[2..]);
      Parts([PartText(toks[1])] + r.parts, r.rest)
    else Parts([], toks)
  }

  predicate StartsRef(t: Token) {
    t.quoted || (t.text != "(" && t.text != "," && t.text != ")" && !Stop(t))
  }

  function ReadRef(toks: seq<Token>): (r: Option<Parts>)
    ensures r.Some? ==> |r.value.rest| < |toks| && |r.value.parts| >= 1
  {
    if toks == [] || !StartsRef(toks[0]) then None
    else
      var r := Dotted(toks[1..]);
      Some(Parts([PartText(toks[0])] + r.parts, r.rest))
  }

  function SkipAlias(toks: seq<Token>): (rest: seq<Token>)
    ensures |rest| <= |toks|
  {
    if toks == [] then []
    else if As(toks[0]) then if |toks| > 1 then toks[2..] else []
    else if toks[0].text == "," || toks[0].text == "(" || toks[0].text == ")" || toks[0].text == "." then toks
    else if Stop(toks[0]) || Anchor(toks[0]) then toks
    else toks[1..]
  }

  datatype Refs = Refs(refs: seq<Ref>, rest: seq<Token>)

  /** A comma-separated list of references; it ends before a subquery. */
  function RefList(toks: seq<Token>): (r: Refs)
    ensures |r.rest| <= |toks|
    ensures forall i :: 0 <= i < |r.refs| ==> |r.refs[i]| >= 1
    decreases |toks|
  {
    match ReadRef(toks)
    case None => Refs([], toks)
    case Some(p) =>
      var rest := SkipAlias(p.rest);
      if rest == [] || rest[0].text != "," then Refs([p.parts], rest)
      else if |rest| > 1 && rest[1].text == "(" then Refs([p.parts], rest[1..])
      else
        var r := RefList(rest[1..]);
        Refs([p.parts] + r.refs, r.rest)
  }

  function SkipOnly(toks: seq<Token>): (rest: seq<Token>)
    ensures |rest| <= |toks|
  {
    if toks != [] && Only(toks[0]) then SkipOnly(toks[1..]) else toks
  }

  function Extract(toks: seq<Token>): (refs: seq<Ref>)
    ensures forall i :: 0 <= i < |refs| ==> |refs[i]| >= 1
    decreases |toks|
  {
    if toks == [] then []
    else if !Anchor(toks[0]) then Extract(toks[1..])
    else
      var rest := SkipOnly(toks[1..]);
      if rest != [] && rest[0].text == "(" then Extract(rest)
      else
        var r := RefList(rest);
        r.refs + Extract(r.rest)
  }

  // ---------- The index loops ----------

  method ReadRefAt(toks: seq<Token>, idx: nat) returns (ref: Ref, next: nat, ok: bool)
    requires idx <= |toks|
    ensures ok <==> ReadRef(toks[idx..]).Some?
    ensures ok ==> idx < next <= |toks| && ReadRef(toks[idx..]) == Some(Parts(ref, toks[next..]))
    ensures !ok ==> next == idx
  {
    hide IsStopKeyword; hide IsTableKeyword; hide Dotted;
    if idx >= |toks| {
      return [], idx, false;
    }
    var first := toks[idx];
    if !first.quoted {
      if first.text == "(" || first.text == "," || first.text == ")" {
        return [], idx, false;
      }
      if IsStopKeyword(Upper(first.text)) {
        return [], idx, false;
      }
    }
    ref := [PartText(first)];
    var i := idx + 1;
    assert toks[idx..][1..] == toks[i..];
    ghost var whole := Dotted(toks[i..]);
    while i + 1 < |toks| && toks[i].text == "."
      invariant idx < i <= |toks|
      invariant [PartText(first)] + whole.parts == ref + Dotted(toks[i..]).parts
      invariant whole.rest == Dotted(toks[i..]).rest
    {
      DottedAt(toks, i);
      assert ref + ([PartText(toks[i + 1])] + Dotted(toks[i + 2..]).parts)
          == ref + [PartText(toks[i + 1])] + Dotted(toks[i + 2..]).parts;
      ref := ref + [PartText(toks[i + 1])];
      i := i + 2;
    }
    DottedAt(toks, i);
    assert ref + [] == ref;
    return ref, i, true;
  }

  /** One step of Dotted at an index of the tokens. */
  lemma DottedAt(toks: seq<Token>, i: nat)
    requires i <= |toks|
    ensures
      if i + 1 < |toks| && toks[i].text == "."
      then Dotted(toks[i..]) == Parts([PartText(toks[i + 1])] + Dotted(toks[i + 2..]).parts, Dotted(toks[i + 2..]).rest)
      else Dotted(toks[i..]) == Parts([], toks[i..])
  {
    if i + 1 < |toks| { assert toks[i..][2..] == toks[i + 2..]; }
  }

  method SkipAliasAt(toks: seq<Token>, idx: nat) returns (i: nat)
    requires idx <= |toks|
    ensures idx <= i <= |toks| && toks[i..] == SkipAlias(toks[idx..])
  {
    hide IsStopKeyword; hide IsTableKeyword;
    i := idx;
    if i >= |toks| {
      return;
    }
    if !toks[i].quoted && Upper(toks[i].text) == "AS" {
      i := i + 1;
      if i < |toks| {
        i := i + 1;
      }
      return;
    }
    var t := toks[i];
    if t.text == "," || t.text == "(" || t.text == ")" || t.text == "." {
      return;
    }
    if !t.quoted {
      if IsStopKeyword(Upper(t.text)) || IsTableKeyword(Upper(t.text)) {
        return;
      }
    }
    i := i + 1;
  }

  method SkipOnlyAt(toks: seq<Token>, idx: nat) returns (i: nat)
    requires idx <= |toks|
    ensures idx <= i <= |toks| && toks[i..] == SkipOnly(toks[idx..])
  {
    i := idx;
    while i < |toks| && Only(toks[i])
      invariant idx <= i <= |toks|
      invariant SkipOnly(toks[idx..]) == SkipOnly(toks[i..])
    {
      assert toks[i..][1..] == toks[i + 1..];
      i := i + 1;
    }
  }

  /** The inner loop: the list of references after an anchor. */
  method ReadRefList(toks: seq<Token>, idx: nat) returns (refs: seq<Ref>, i: nat)
    requires idx <= |toks|
    ensures idx <= i <= |toks|
    ensures RefList(toks[idx..]) == Refs(refs, toks[i..])
  {
    hide ReadRef; hide SkipAlias; hide RefList;
    refs := [];
    i := idx;
    ghost var whole := RefList(toks[idx..]);
    while i < |toks|
      invariant idx <= i <= |toks|
      invariant whole.refs == refs + RefList(toks[i..]).refs
      invariant whole.rest == RefList(toks[i..]).rest
    {
      ghost var start := i;
      var ref, next, ok := ReadRefAt(toks, i);
      if !ok {
        RefListStops(toks, i);
        return;
      }
      ghost var before := refs;
      refs := refs + [ref];
      i := SkipAliasAt(toks, next);
      RefListAt(toks, start, ref, next, i);
      if i < |toks| && toks[i].text == "," {
        i := i + 1;
        if i < |toks| && toks[i].text == "(" {
          return;
        }
        assert before + ([ref] + RefList(toks[i..]).refs) == refs + RefList(toks[i..]).refs;
        continue;
      }
      return;
    }
    RefListEmpty(toks, i);
  }

  lemma RefListStops(toks: seq<Token>, i: nat)
    requires i <= |toks| && ReadRef(toks[i..]).None?
    ensures RefList(toks[i..]) == Refs([], toks[i..])
  {
  }

  lemma RefListEmpty(toks: seq<Token>, i: nat)
    requires i == |toks|
    ensures RefList(toks[i..]) == Refs([], toks[i..])
  {
  }

  /** One step of RefList at an index of the tokens. */
  lemma RefListAt(toks: seq<Token>, start: nat, ref: Ref, next: nat, i: nat)
    requires start < next <= i <= |toks|
    requires ReadRef(toks[start..]) == Some(Parts(ref, toks[next..])) && toks[i..] == SkipAlias(toks[next..])
    ensures
      var r := RefList(toks[start..]);
      if i == |toks| || toks[i].text != "," then r == Refs([ref], toks[i..])
      else if i + 1 < |toks| && toks[i + 1].text == "(" then r == Refs([ref], toks[i + 1..])
      else r == Refs([ref] + RefList(toks[i + 1..]).refs, RefList(toks[i + 1..]).rest)
  {
    hide ReadRef; hide SkipAlias;
    if i < |toks| { assert toks[i..][1..] == toks[i + 1..]; }
  }

  method ExtractTableRefs(toks: seq<Token>) returns (refs: seq<Ref>)
    ensures refs == Extract(toks)
  {
    hide RefList; hide SkipOnly; hide IsTableKeyword;
    refs := [];
    var i := 0;
    assert toks[0..] == toks;
    while i < |toks|
      invariant 0 <= i <= |toks|
      invariant Extract(toks) == refs + Extract(toks[i..])
    {
      assert toks[i..][1..] == toks[i + 1..];
      if !Anchor(toks[i]) {
        i := i + 1;
        continue;
      }
      ghost var start := i;
      i := SkipOnlyAt(toks, i + 1);
      if i < |toks| && toks[i].text == "(" {
        continue;
      }
      var list;
      list, i := ReadRefList(toks, i);
      assert refs + (list + Extract(toks[i..])) == refs + list + Extract(toks[i..]);
      refs := refs + list;
    }
  }

  // ---------- Printing references and reading them back ----------

  datatype Alias = NoAlias | BareAlias(name: Token) | AsAlias(asWord: Token, name: Token)

  /** first.more[0].more[1]... with an optional alias. */
  datatype TableRef = TableRef(first: Token, more: seq<Token>, alias: Alias)

  const DOT := Token(".", false)

  function DottedTokens(more: seq<Token>): seq<Token> {
    if more == [] then [] else [DOT, more[0]] + DottedTokens(more[1..])
  }

  function AliasTokens(a: Alias): seq<Token> {
    match a
    case NoAlias => []
    case BareAlias(t) => [t]
    case AsAlias(w, t) => [w, t]
  }

  function RefTokens(r: TableRef): seq<Token> {
    [r.first] + (DottedTokens(r.more) + AliasTokens(r.alias))
  }

  function ListTokens(rs: seq<TableRef>): seq<Token> {
    if rs == [] then []
    else if |rs| == 1 then RefTokens(rs[0])
    else RefTokens(rs[0]) + ([COMMA] + ListTokens(rs[1..]))
  }

  function Names(parts: seq<Token>): Ref {
    if parts == [] then [] else [PartText(parts[0])] + Names(parts[1..])
  }

  /** What the reference names: bare parts in lower case, quoted parts as they are. */
  function NameOf(r: TableRef): Ref {
    [PartText(r.first)] + Names(r.more)
  }

  function AllNames(rs: seq<TableRef>): (names: seq<Ref>)
    ensures |names| == |rs| && forall i :: 0 <= i < |names| ==> |names[i]| >= 1
  {
    if rs == [] then [] else [NameOf(rs[0])] + AllNames(rs[1..])
  }

  predicate NotPunct(t: Token) {
    t.text != "," && t.text != "(" && t.text != ")" && t.text != "."
  }

  predicate GoodAlias(a: Alias) {
    match a
    case NoAlias => true
    case BareAlias(t) => NotPunct(t) && !Stop(t) && !Anchor(t)
    case AsAlias(w, _) => As(w)
  }

  predicate Good(r: TableRef) {
    NotPunct(r.first) && !Stop(r.first) && GoodAlias(r.alias)
  }

  /** What may follow a list: nothing, a closing parenthesis, or a keyword that is not AS. */
  predicate EndsList(post: seq<Token>) {
    || post == []
    || post[0] == CLOSE
    || (NotPunct(post[0]) && (Stop(post[0]) || Anchor(post[0])) && !As(post[0]))
  }

  lemma {:induction false} DottedReads(more: seq<Token>, rest: seq<Token>)
    requires rest == [] || rest[0].text != "."
    ensures Dotted(DottedTokens(more) + rest) == Parts(Names(more), rest)
  {
    if more == [] {
      assert DottedTokens(more) + rest == rest;
    } else {
      var toks := DottedTokens(more) + rest;
      assert toks[0] == DOT && toks[1] == more[0];
      assert toks[2..] == DottedTokens(more[1..]) + rest;
      DottedReads(more[1..], rest);
    }
  }

  lemma AliasSkips(a: Alias, rest: seq<Token>)
    requires GoodAlias(a) && (EndsList(rest) || (rest != [] && rest[0] == COMMA))
    ensures SkipAlias(AliasTokens(a) + rest) == rest
    ensures AliasTokens(a) + rest == [] || (AliasTokens(a) + rest)[0].text != "."
  {
    hide IsStopKeyword; hide IsTableKeyword;
    AsHead();
    var toks := AliasTokens(a) + rest;
    match a {
      case NoAlias =>
        assert toks == rest;
      case BareAlias(t) =>
        assert toks[1..] == rest && toks[0] == t;
        AsIsStop();
      case AsAlias(w, t) =>
        assert toks[2..] == rest && toks[0] == w;
        AsText(w);
    }
  }

  lemma AsHead()
    ensures !As(COMMA) && COMMA.text == ","
  {
    assert |Upper(",")| == 1;
  }

  lemma AsIsStop()
    ensures IsStopKeyword("AS")
  {
  }

  lemma AsText(w: Token)
    requires As(w)
    ensures |w.text| == 2
  {
    assert |Upper(w.text)| == 2;
  }

  lemma RefReads(r: TableRef, rest: seq<Token>)
    requires Good(r) && (EndsList(rest) || (rest != [] && rest[0] == COMMA))
    ensures ReadRef(RefTokens(r) + rest) == Some(Parts(NameOf(r), AliasTokens(r.alias) + rest))
    ensures SkipAlias(AliasTokens(r.alias) + rest) == rest
  {
    hide IsStopKeyword; hide IsTableKeyword; hide Dotted; hide SkipAlias; hide AliasTokens; hide EndsList;
    var toks := RefTokens(r) + rest;
    AliasSkips(r.alias, rest);
    assert toks[0] == r.first;
    assert toks[1..] == DottedTokens(r.more) + (AliasTokens(r.alias) + rest);
    DottedReads(r.more, AliasTokens(r.alias) + rest);
  }

  lemma {:induction false} ListReads(rs: seq<TableRef>, post: seq<Token>)
    requires rs != [] && EndsList(post)
    requires forall i :: 0 <= i < |rs| ==> Good(rs[i])
    ensures RefList(ListTokens(rs) + post) == Refs(AllNames(rs), post)
  {
    hide ReadRef; hide SkipAlias; hide AliasTokens; hide Good; hide NameOf; hide RefTokens;
    var toks := ListTokens(rs) + post;
    if |rs| == 1 {
      RefReads(rs[0], post);
      assert AllNames(rs[1..]) == [];
    } else {
      var rest := [COMMA] + (ListTokens(rs[1..]) + post);
      assert toks == RefTokens(rs[0]) + rest;
      RefReads(rs[0], rest);
      ListReads(rs[1..], post);
      assert rest[1..] == ListTokens(rs[1..]) + post;
      ListStart(rs[1..], post);
    }
  }

  lemma ListStart(rs: seq<TableRef>, post: seq<Token>)
    requires rs != [] && Good(rs[0])
    ensures ListTokens(rs) + post != [] && (ListTokens(rs) + post)[0] == rs[0].first && rs[0].first.text != "("
  {
    assert RefTokens(rs[0])[0] == rs[0].first;
  }

  lemma {:induction false} NoAnchorNoRefs(pre: seq<Token>, rest: seq<Token>)
    requires forall i :: 0 <= i < |pre| ==> !Anchor(pre[i])
    ensures Extract(pre + rest) == Extract(rest)
  {
    hide IsTableKeyword; hide RefList; hide SkipOnly;
    if pre == [] {
      assert pre + rest == rest;
    } else {
      assert (pre + rest)[1..] == pre[1..] + rest;
      NoAnchorNoRefs(pre[1..], rest);
    }
  }

  /**
   Whatever precedes the anchor, extraction from a printed list returns exactly
   its references, in order, and goes on after the list.
   */
  lemma ExtractReadsBack(pre: seq<Token>, anchor: Token, rs: seq<TableRef>, post: seq<Token>)
    requires forall i :: 0 <= i < |pre| ==> !Anchor(pre[i])
    requires Anchor(anchor) && rs != [] && EndsList(post)
    requires (forall i :: 0 <= i < |rs| ==> Good(rs[i])) && !Only(rs[0].first)
    ensures Extract(pre + [anchor] + (ListTokens(rs) + post)) == AllNames(rs) + Extract(post)
  {
    hide RefList; hide ListTokens; hide AllNames;
    var list := ListTokens(rs) + post;
    assert pre + [anchor] + list == pre + ([anchor] + list);
    NoAnchorNoRefs(pre, [anchor] + list);
    assert ([anchor] + list)[1..] == list;
    ListStart(rs, post);
    ListReads(rs, post);
  }

  // ---------- Words between an anchor and its target ----------

  /** What DDL and INSERT statements may put in front of a target: TABLE, IF EXISTS, IF NOT EXISTS, or nothing. */
  predicate Clause(c: seq<Token>) {
    || c == []
    || (|c| == 1 && Spelled(c[0], "TABLE"))
    || (|c| == 2 && Spelled(c[0], "IF") && Spelled(c[1], "EXISTS"))
    || (|c| == 3 && Spelled(c[0], "IF") && Spelled(c[1], "NOT") && Spelled(c[2], "EXISTS"))
  }

  /** The name that such a clause is taken for. */
  function ClauseName(c: seq<Token>): string {
    if |c| == 1 then "table" else "if"
  }

  lemma FirstWord(t: Token, kw: string)
    requires Spelled(t, kw) && (kw == "TABLE" || kw == "IF")
    ensures StartsRef(t) && !Only(t) && t.text != "(" && PartText(t) == if kw == "TABLE" then "table" else "if"
  {
    SpelledIsUpper(t, kw);
    assert forall i :: 0 <= i < |kw| ==> UpperChar(t.text[i]) == kw[i];
    assert |"TABLE"| == 5 && |"IF"| == 2 && |"ONLY"| == 4;
    assert Lower(t.text) == if kw == "TABLE" then "table" else "if";
  }

  lemma NextWord(t: Token, kw: string)
    requires Spelled(t, kw) && (kw == "NOT" || kw == "EXISTS")
    ensures NotPunct(t) && !Stop(t) && !Anchor(t)
  {
    SpelledIsUpper(t, kw);
    assert |"NOT"| == 3 && |"EXISTS"| == 6;
    assert kw[0] == 'N' || kw[0] == 'E';
    assert kw == "EXISTS" ==> kw[2] == 'I';
  }

  /** Two words in a row read as a reference and its alias. */
  lemma WordAndAlias(first: Token, next: Token, rest: seq<Token>)
    requires StartsRef(first) && NotPunct(next) && !Stop(next) && !Anchor(next) && (rest != [] ==> rest[0].text != ",")
    ensures RefList([first, next] + rest) == Refs([[PartText(first)]], rest)
  {
    hide Stop; hide Anchor; hide StartsRef; hide PartText; hide As;
    var toks := [first, next] + rest;
    assert toks[1..] == [next] + rest && ([next] + rest)[1..] == rest;
    assert Dotted(toks[1..]) == Parts([], toks[1..]);
    AsIsAStop(next);
    assert SkipAlias(toks[1..]) == rest;
    assert [PartText(first)] + [] == [PartText(first)];
  }

  lemma TableIsTaken(c: Token, rest: seq<Token>)
    requires Spelled(c, "TABLE") && rest != [] && NotPunct(rest[0]) && !Stop(rest[0]) && !Anchor(rest[0])
    requires |rest| > 1 ==> rest[1].text != ","
    ensures RefList([c] + rest) == Refs([["table"]], rest[1..])
  {
    hide StartsRef; hide Stop; hide Anchor; hide RefList; hide PartText; hide Spelled; hide Only; hide NotPunct;
    FirstWord(c, "TABLE");
    assert [c] + rest == [c, rest[0]] + rest[1..];
    WordAndAlias(c, rest[0], rest[1..]);
  }

  lemma IfIsTaken(c: Token, next: Token, tail: seq<Token>)
    requires Spelled(c, "IF") && (Spelled(next, "NOT") || Spelled(next, "EXISTS")) && tail != [] && NotPunct(tail[0])
    ensures RefList([c, next] + tail) == Refs([["if"]], tail)
  {
    hide StartsRef; hide Stop; hide Anchor; hide RefList; hide PartText; hide Spelled; hide Only;
    FirstWord(c, "IF");
    NextWord(next, if Spelled(next, "NOT") then "NOT" else "EXISTS");
    WordAndAlias(c, next, tail);
  }

  /** A clause and the start of its target read as a reference and its alias, and text without an anchor. */
  lemma ClauseIsTaken(c: seq<Token>, rest: seq<Token>)
    requires Clause(c) && c != [] && rest != [] && NotPunct(rest[0]) && !Stop(rest[0])
    requires |c| == 1 ==> !Anchor(rest[0]) && (|rest| > 1 ==> rest[1].text != ",")
    ensures RefList(c + rest) == Refs([[ClauseName(c)]], if |c| == 1 then rest[1..] else c[2..] + rest)
  {
    hide Stop; hide Anchor; hide RefList; hide Spelled; hide NotPunct;
    if |c| == 1 {
      assert c == [c[0]];
      TableIsTaken(c[0], rest);
    } else {
      if |c| == 3 { NextWord(c[2], "EXISTS"); }
      var tail := c[2..] + rest;
      assert tail[0] == if |c| == 2 then rest[0] else c[2];
      assert c + rest == [c[0], c[1]] + tail;
      IfIsTaken(c[0], c[1], tail);
    }
  }

  lemma ExtractAfter(pre: seq<Token>, anchor: Token, list: seq<Token>)
    requires (forall i :: 0 <= i < |pre| ==> !Anchor(pre[i])) && Anchor(anchor)
    requires list != [] && !Only(list[0]) && list[0].text != "("
    ensures Extract(pre + [anchor] + list) == RefList(list).refs + Extract(RefList(list).rest)
  {
    hide Anchor; hide RefList; hide Only;
    assert pre + [anchor] + list == pre + ([anchor] + list);
    NoAnchorNoRefs(pre, [anchor] + list);
    assert ([anchor] + list)[1..] == list;
  }

  lemma AsIsAStop(t: Token)
    ensures As(t) ==> Stop(t)
  {
    if As(t) { AsIsStop(); }
  }

  /**
   A target is reported if and only if it stands right after its anchor: a TABLE after
   INTO, an IF EXISTS or an IF NOT EXISTS is itself taken for the target, and the real
   one is lost, unless it happens to be spelled like the first of these words.
   */
  lemma TargetIsReportedIff(pre: seq<Token>, anchor: Token, c: seq<Token>, r: TableRef, post: seq<Token>)
    requires (forall i :: 0 <= i < |pre| ==> !Anchor(pre[i])) && Anchor(anchor) && Clause(c)
    requires Good(r) && !Only(r.first) && EndsList(post)
    requires forall i :: 0 <= i < |RefTokens(r)| ==> !Anchor(RefTokens(r)[i])
    ensures
      var refs := Extract(pre + [anchor] + (c + (RefTokens(r) + post)));
      && refs == [if c == [] then NameOf(r) else [ClauseName(c)]] + Extract(post)
      && (refs == [NameOf(r)] + Extract(post) <==> c == [] || NameOf(r) == [ClauseName(c)])
  {
    hide Stop; hide Anchor; hide Only; hide NameOf; hide RefList; hide Extract; hide PartText; hide EndsList;
    hide Spelled; hide StartsRef;
    var rest := RefTokens(r) + post;
    if c == [] {
      assert c + rest == rest;
      ExtractReadsBack(pre, anchor, [r], post);
      OneRef(r);
    } else {
      FirstWord(c[0], if |c| == 1 then "TABLE" else "IF");
      NoCommaNext(r, post);
      assert rest[0] == RefTokens(r)[0] == r.first;
      ClauseIsTaken(c, rest);
      ExtractAfter(pre, anchor, c + rest);
      TakenHasNoRefs(c, r, post);
      assert ([NameOf(r)] + Extract(post))[0] == NameOf(r);
      assert ([[ClauseName(c)]] + Extract(post))[0] == [ClauseName(c)];
    }
  }

  lemma OneRef(r: TableRef)
    ensures ListTokens([r]) == RefTokens(r) && AllNames([r]) == [NameOf(r)]
  {
    assert [r][1..] == [] && AllNames([]) == [];
  }

  lemma NoCommaNext(r: TableRef, post: seq<Token>)
    requires Good(r) && EndsList(post)
    ensures |RefTokens(r) + post| > 1 ==> (RefTokens(r) + post)[1].text != ","
  {
    hide IsStopKeyword; hide IsTableKeyword;
    var toks := RefTokens(r) + post;
    if r.more != [] {
      assert toks[1] == DOT;
    } else if !r.alias.NoAlias? {
      assert toks[1] == AliasTokens(r.alias)[0];
      if r.alias.AsAlias? { AsText(r.alias.asWord); }
    } else if post != [] {
      assert toks[1] == post[0];
    }
  }

  lemma TakenHasNoRefs(c: seq<Token>, r: TableRef, post: seq<Token>)
    requires Clause(c) && c != [] && forall i :: 0 <= i < |RefTokens(r)| ==> !Anchor(RefTokens(r)[i])
    ensures
      var rest := RefTokens(r) + post;
      Extract(if |c| == 1 then rest[1..] else c[2..] + rest) == Extract(post)
  {
    hide Extract; hide Anchor; hide Stop;
    var ts := RefTokens(r);
    if |c| == 1 {
      assert (ts + post)[1..] == ts[1..] + post;
      NoAnchorNoRefs(ts[1..], post);
    } else {
      if |c| == 3 { NextWord(c[2], "EXISTS"); }
      assert c[2..] + (ts + post) == (c[2..] + ts) + post;
      NoAnchorNoRefs(c[2..] + ts, post);
    }
  }

  // ---------- References as they are spelled ----------

  const ANCHORS: seq<string> := ["FROM", "JOIN", "INTO", "UPDATE", "TABLE"]
  const STOPS: seq<string> := ["WHERE", "ON", "USING", "GROUP", "ORDER", "HAVING", "LIMIT", "UNION", "INTERSECT",
                               "EXCEPT", "AS", "SET", "VALUES", "SELECT", "WITH", "LEFT", "RIGHT", "INNER", "OUTER",
                               "CROSS", "FULL", "NATURAL", "AND", "OR", "OFFSET", "FETCH", "WINDOW", "QUALIFY",
                               "TABLESAMPLE"]

  lemma AnchorIsSpelled(t: Token, kw: string)
    requires kw in ANCHORS && Spelled(t, kw)
    ensures Anchor(t) && NotPunct(t) && !Stop(t) && !As(t)
  {
    assert Capitals(kw) && |kw| >= 4;
    SpelledIsUpper(t, kw);
    assert |"AS"| == 2;
    AnchorIsNoStop(kw);
  }

  lemma AnchorIsNoStop(kw: string)
    requires kw in ANCHORS
    ensures IsTableKeyword(kw) && !IsStopKeyword(kw)
  {
    assert "FROM"[0] == 'F' && "FULL"[1] == 'U' && "FETCH"[1] == 'E' && "TABLE" != "TABLESAMPLE" && |"TABLE"| == 5;
    assert "JOIN"[0] == 'J' && "INTO"[2] == 'T' && "INNER"[2] == 'N' && "UPDATE"[1] == 'P' && |"FROM"| == 4;
  }

  lemma StopWords(kw: string)
    ensures IsStopKeyword(kw) <==> kw in STOPS
    ensures IsTableKeyword(kw) <==> kw in ANCHORS
  {
  }

  /** Which words expect a reference after them, and which end a list, in any mix of upper and lower case. */
  lemma WordsAreSpelled(t: Token, kw: string)
    requires Capitals(kw) && Spelled(t, kw)
    ensures Anchor(t) <==> kw in ANCHORS
    ensures Stop(t) <==> kw in STOPS
    ensures (Only(t) <==> kw == "ONLY") && (As(t) <==> kw == "AS")
  {
    hide IsStopKeyword; hide IsTableKeyword;
    SpelledIsUpper(t, kw);
    StopWords(kw);
  }

  /**
   A FROM list, then anything without an anchor that begins with a keyword (LEFT, an ON
   clause, WHERE) or nothing, then a JOIN: the references of both are reported.
   */
  lemma JoinReportsBoth(pre: seq<Token>, from: Token, rs: seq<TableRef>, mid: seq<Token>, join: Token,
                        r: TableRef, post: seq<Token>)
    requires forall i :: 0 <= i < |pre| ==> !Anchor(pre[i])
    requires Spelled(from, "FROM") && Spelled(join, "JOIN")
    requires rs != [] && (forall i :: 0 <= i < |rs| ==> Good(rs[i])) && !Only(rs[0].first)
    requires (mid != [] ==> EndsList(mid)) && forall i :: 0 <= i < |mid| ==> !Anchor(mid[i])
    requires Good(r) && !Only(r.first) && EndsList(post)
    ensures Extract(pre + [from] + (ListTokens(rs) + (mid + [join] + (RefTokens(r) + post))))
            == AllNames(rs) + ([NameOf(r)] + Extract(post))
  {
    AnchorIsSpelled(from, "FROM");
    AnchorIsSpelled(join, "JOIN");
    hide Stop; hide Anchor; hide Only; hide As; hide Extract; hide ListTokens; hide AllNames; hide NameOf; hide Good;
    var rest := mid + [join] + (RefTokens(r) + post);
    assert rest[0] == if mid == [] then join else mid[0];
    ExtractReadsBack(pre, from, rs, rest);
    ExtractReadsBack(mid, join, [r], post);
    OneRef(r);
  }

  lemma CloseIsNoAnchor()
    ensures !Anchor(OPEN) && !Anchor(CLOSE) && !Only(OPEN)
  {
    assert |Upper("(")| == 1 && |Upper(")")| == 1;
  }

  /** A derived table is looked into: its own references are reported, and then what follows it. */
  lemma DerivedTableIsLookedInto(pre: seq<Token>, from: Token, before: seq<Token>, inner: Token, rs: seq<TableRef>,
                                 post: seq<Token>)
    requires forall i :: 0 <= i < |pre| ==> !Anchor(pre[i])
    requires forall i :: 0 <= i < |before| ==> !Anchor(before[i])
    requires Spelled(from, "FROM") && Spelled(inner, "FROM")
    requires rs != [] && (forall i :: 0 <= i < |rs| ==> Good(rs[i])) && !Only(rs[0].first)
    ensures Extract(pre + [from] + ([OPEN] + (before + [inner] + (ListTokens(rs) + ([CLOSE] + post)))))
            == AllNames(rs) + Extract(post)
  {
    AnchorIsSpelled(from, "FROM");
    AnchorIsSpelled(inner, "FROM");
    CloseIsNoAnchor();
    var body := before + [inner] + (ListTokens(rs) + ([CLOSE] + post));
    LooksInto(pre, from, body);
    assert EndsList([CLOSE] + post);
    hide Stop; hide Anchor; hide Only; hide As; hide ListTokens; hide AllNames; hide Good;
    ExtractReadsBack(before, inner, rs, [CLOSE] + post);
    NoAnchorNoRefs([CLOSE], post);
  }

  lemma LooksInto(pre: seq<Token>, anchor: Token, body: seq<Token>)
    requires (forall i :: 0 <= i < |pre| ==> !Anchor(pre[i])) && Anchor(anchor)
    ensures Extract(pre + [anchor] + ([OPEN] + body)) == Extract(body)
  {
    CloseIsNoAnchor();
    hide Anchor; hide RefList; hide Only;
    var rest := [OPEN] + body;
    assert pre + [anchor] + rest == pre + ([anchor] + rest);
    NoAnchorNoRefs(pre, [anchor] + rest);
    assert ([anchor] + rest)[1..] == rest && rest[0] == OPEN;
    NoAnchorNoRefs([OPEN], body);
  }

  /** So is one that stands after a comma of the list. */
  lemma DerivedAfterComma(pre: seq<Token>, from: Token, r: TableRef, body: seq<Token>)
    requires forall i :: 0 <= i < |pre| ==> !Anchor(pre[i])
    requires Spelled(from, "FROM") && Good(r) && !Only(r.first)
    ensures Extract(pre + [from] + (RefTokens(r) + ([COMMA, OPEN] + body))) == [NameOf(r)] + Extract(body)
  {
    AnchorIsSpelled(from, "FROM");
    CloseIsNoAnchor();
    hide Stop; hide Anchor; hide Only; hide As; hide NameOf; hide RefList; hide Extract; hide NotPunct;
    var list := RefTokens(r) + ([COMMA, OPEN] + body);
    assert list[0] == RefTokens(r)[0] == r.first;
    ListStopsAtDerived(r, body);
    FirstIsNoPunct(r);
    ExtractAfter(pre, from, list);
    NoAnchorNoRefs([OPEN], body);
  }

  lemma FirstIsNoPunct(r: TableRef)
    requires Good(r)
    ensures r.first.text != "("
  {
  }

  lemma ListStopsAtDerived(r: TableRef, body: seq<Token>)
    requires Good(r)
    ensures RefList(RefTokens(r) + ([COMMA, OPEN] + body)) == Refs([NameOf(r)], [OPEN] + body)
  {
    hide Stop; hide Anchor; hide As; hide ReadRef; hide SkipAlias; hide NameOf; hide RefTokens; hide Good;
    hide AliasTokens;
    var rest := [COMMA, OPEN] + body;
    assert rest[0] == COMMA && rest[1] == OPEN && rest[1..] == [OPEN] + body;
    RefReads(r, rest);
  }

  /** ONLY between an anchor and its references is passed over. */
  lemma OnlyIsPassedOver(pre: seq<Token>, anchor: Token, only: Token, rest: seq<Token>)
    requires (forall i :: 0 <= i < |pre| ==> !Anchor(pre[i])) && Anchor(anchor) && Spelled(only, "ONLY")
    ensures Extract(pre + [anchor] + ([only] + rest)) == Extract(pre + [anchor] + rest)
  {
    SpelledIsUpper(only, "ONLY");
    assert Only(only);
    hide Anchor; hide RefList; hide Only; hide Extract; hide SkipOnly;
    AtAnchor(pre, anchor, [only] + rest);
    AtAnchor(pre, anchor, rest);
    SkipsOnly(only, rest);
  }

  lemma SkipsOnly(only: Token, rest: seq<Token>)
    requires Only(only)
    ensures SkipOnly([only] + rest) == SkipOnly(rest)
  {
    hide Only;
    assert ([only] + rest)[1..] == rest;
  }

  /** What extraction does at an anchor. */
  lemma AtAnchor(pre: seq<Token>, anchor: Token, rest: seq<Token>)
    requires (forall i :: 0 <= i < |pre| ==> !Anchor(pre[i])) && Anchor(anchor)
    ensures
      var list := SkipOnly(rest);
      Extract(pre + [anchor] + rest) ==
      if list != [] && list[0].text == "(" then Extract(list) else RefList(list).refs + Extract(RefList(list).rest)
  {
    hide Anchor; hide RefList; hide Only;
    assert pre + [anchor] + rest == pre + ([anchor] + rest);
    NoAnchorNoRefs(pre, [anchor] + rest);
    assert ([anchor] + rest)[1..] == rest;
  }

  /** An anchor before a keyword that ends lists, a comma or a closing parenthesis reports nothing. */
  lemma NothingToReport(pre: seq<Token>, anchor: Token, t: Token, kw: string, rest: seq<Token>)
    requires (forall i :: 0 <= i < |pre| ==> !Anchor(pre[i])) && Anchor(anchor)
    requires (Capitals(kw) && kw in STOPS && Spelled(t, kw)) || t == COMMA || t == CLOSE
    ensures Extract(pre + [anchor] + ([t] + rest)) == Extract(rest)
  {
    EndsAtOnce(t, kw);
    hide Anchor; hide Only; hide Stop; hide Extract; hide StartsRef;
    var list := [t] + rest;
    assert list[0] == t;
    ExtractAfter(pre, anchor, list);
    NoAnchorNoRefs([t], rest);
  }

  lemma EndsAtOnce(t: Token, kw: string)
    requires (Capitals(kw) && kw in STOPS && Spelled(t, kw)) || t == COMMA || t == CLOSE
    ensures !StartsRef(t) && !Anchor(t) && !Only(t) && t.text != "("
  {
    hide IsStopKeyword; hide IsTableKeyword;
    if t != COMMA && t != CLOSE {
      SpelledIsUpper(t, kw);
      WordsAreSpelled(t, kw);
      StopsAreNoAnchors(kw);
    } else {
      StopWords(Upper(t.text));
      assert |Upper(t.text)| == 1;
      ShortIsNoWord(Upper(t.text));
    }
  }

  lemma ShortIsNoWord(kw: string)
    requires |kw| == 1
    ensures kw !in ANCHORS && kw != "ONLY"
  {
    assert |"FROM"| == 4 && |"JOIN"| == 4 && |"INTO"| == 4 && |"UPDATE"| == 6 && |"TABLE"| == 5 && |"ONLY"| == 4;
  }

  lemma StopsAreNoAnchors(kw: string)
    requires kw in STOPS
    ensures kw !in ANCHORS && kw != "ONLY" && |kw| >= 2
  {
    if kw in ANCHORS {
      AnchorIsNoStop(kw);
      StopWords(kw);
    }
    StopLengths(kw);
  }

  lemma StopLengths(kw: string)
    requires kw in STOPS
    ensures |kw| >= 2 && kw != "ONLY"
  {
    assert "ONLY"[0] == 'O' && "ONLY"[1] == 'N' && |"ONLY"| == 4;
  }

  /** What a reference names: quoted parts as they are, the letters of bare parts in lower case. */
  lemma {:induction false} NamesAreFolded(parts: seq<Token>)
    ensures |Names(parts)| == |parts|
    ensures forall k :: 0 <= k < |parts| ==> Folded(parts[k], Names(parts)[k])
  {
    if parts != [] { NamesAreFolded(parts[1..]); }
  }

  predicate Folded(t: Token, name: string) {
    if t.quoted then name == t.text
    else
      && |name| == |t.text|
      && forall i :: 0 <= i < |name| ==>
           if 65 <= t.text[i] as int <= 90 then name[i] as int == t.text[i] as int + 32 else name[i] == t.text[i]
  }
}
