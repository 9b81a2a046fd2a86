/**
 The hand-rolled YAML that carries a method's config from the registry to its
 provider: the printer of routing-service/internal/engine/registry.go:56-110, the
 line parser that the expr and script providers each hold a copy of
 (routing-service/internal/engine/providers/expr/provider.go:210-310 and
 .../script/provider.go:251-339), and the second printer of
 routing-service/tools/expr-test/main.go:175-196.
 */
module MethodConfig {
  import opened Basics

  /** `refresh` is the printed duration when it is positive. */
  datatype Config = Config(typ: string, program: string, file: string, refresh: Option<string>)

  // ---------- Lines ----------

  /** The length of the first line. */
  function LineEnd(s: string): (n: nat)
    ensures n <= |s| && '\n' !in s[..n]
    ensures n < |s| ==> s[n] == '\n'
  {
    if s == "" || s[0] == '\n' then 0 else 1 + LineEnd(s[1..])
  }

  /** The lines of a text; a final newline does not start another line. */
  function Lines(s: string): (ls: seq<string>)
    ensures forall i :: 0 <= i < |ls| ==> '\n' !in ls[i]
    ensures ls == [] <==> s == ""
    decreases |s|
  {
    if s == "" then []
    else
      var n := LineEnd(s);
      [s[..n]] + if n < |s| then Lines(s[n + 1..]) else []
  }

  function Unlines(ls: seq<string>): string {
    if ls == [] then "" else ls[0] + "\n" + Unlines(ls[1..])
  }

  function Join(ls: seq<string>): string {
    if ls == [] then "" else if |ls| == 1 then ls[0] else ls[0] + "\n" + Join(ls[1..])
  }

  /** The text without one trailing newline, if it has one. */
  function Chomp(s: string): string {
    if s != "" && s[|s| - 1] == '\n' then s[..|s| - 1] else s
  }

  lemma {:induction false} LineEndOf(l: string, rest: string)
    requires '\n' !in l && (rest == "" || rest[0] == '\n')
    ensures LineEnd(l + rest) == |l|
  {
    if l == "" {
      assert l + rest == rest;
    } else {
      assert (l + rest)[1..] == l[1..] + rest;
      LineEndOf(l[1..], rest);
    }
  }

  lemma LinesStep(l: string, rest: string)
    requires '\n' !in l
    ensures Lines(l + "\n" + rest) == [l] + Lines(rest)
  {
    var s := l + "\n" + rest;
    assert s == l + ("\n" + rest);
    LineEndOf(l, "\n" + rest);
    assert s[..|l|] == l && s[|l| + 1..] == rest;
  }

  lemma {:induction false} LinesOfUnlines(ls: seq<string>)
    requires forall i :: 0 <= i < |ls| ==> '\n' !in ls[i]
    ensures Lines(Unlines(ls)) == ls
  {
    hide Lines;
    if ls == [] {
      LinesOfNothing();
    } else {
      LinesStep(ls[0], Unlines(ls[1..]));
      LinesOfUnlines(ls[1..]);
    }
  }

  lemma LinesOfNothing()
    ensures Lines("") == []
  {
  }

  lemma ChompAfter(l: string, rest: string)
    ensures Chomp(l + "\n" + rest) == if rest == "" then l else l + "\n" + Chomp(rest)
  {
    var s := l + "\n" + rest;
    if rest != "" {
      assert s[|s| - 1] == rest[|rest| - 1];
      assert s[..|s| - 1] == l + "\n" + rest[..|rest| - 1];
    } else {
      assert s[..|s| - 1] == l;
    }
  }

  /** Joining the lines of a text gives it back without its final newline. */
  lemma {:induction false} JoinOfLines(s: string)
    ensures Join(Lines(s)) == Chomp(s)
    decreases |s|
  {
    hide Lines; hide Chomp;
    var n := LineEnd(s);
    if n < |s| {
      var l, rest := s[..n], s[n + 1..];
      assert s == l + "\n" + rest;
      LinesStep(l, rest);
      JoinOfLines(rest);
      ChompAfter(l, rest);
      assert ([l] + Lines(rest))[1..] == Lines(rest);
    } else {
      assert s[..n] == s;
      LinesOfLine(s);
    }
  }

  lemma LinesOfLine(s: string)
    requires '\n' !in s
    ensures Lines(s) == (if s == "" then [] else [s]) && Chomp(s) == s
  {
    LineEndOf(s, "");
    assert s + "" == s && s[..|s|] == s;
    assert s != "" ==> s[|s| - 1] in s;
  }

  // ---------- Printing ----------

  function Indented(ls: seq<string>): (r: seq<string>)
    ensures |r| == |ls| && forall i :: 0 <= i < |ls| ==> r[i] == "  " + ls[i]
  {
    seq(|ls|, i requires 0 <= i < |ls| => "  " + ls[i])
  }

  function ProgramLines(program: string): seq<string> {
    if program == "" then [] else ["program: |"] + Indented(Lines(program))
  }

  function TailLines(cfg: Config): seq<string> {
    (if cfg.file != "" then ["file: " + cfg.file] else [])
    + (if cfg.refresh.Some? then ["refresh: " + cfg.refresh.value] else [])
  }

  /** The lines of a printed config. */
  function ConfigLines(cfg: Config): seq<string> {
    ["type: " + cfg.typ] + (ProgramLines(cfg.program) + TailLines(cfg))
  }

  lemma {:induction false} UnlinesAppend(a: seq<string>, b: seq<string>)
    ensures Unlines(a + b) == Unlines(a) + Unlines(b)
  {
    if a == [] {
      assert a + b == b;
    } else {
      assert (a + b)[1..] == a[1..] + b;
      UnlinesAppend(a[1..], b);
    }
  }

  lemma UnlinesOne(l: string)
    ensures Unlines([l]) == l + "\n"
  {
    assert [l][1..] == [];
  }

  method IndexByte(s: string, b: char) returns (i: int)
    ensures i >= 0 ==> i < |s| && s[i] == b && b !in s[..i]
    ensures i < 0 ==> b !in s
  {
    i := 0;
    while i < |s|
      invariant 0 <= i <= |s| && b !in s[..i]
    {
      if s[i] == b { return; }
      i := i + 1;
    }
    assert s[..i] == s;
    return -1;
  }

  method AppendYamlStr(buf: string, key: string, val: string) returns (r: string)
    ensures r == buf + Unlines([key + ": " + val])
  {
    UnlinesOne(key + ": " + val);
    r := buf + (key + ": ");
    r := r + val;
    r := r + "\n";
    assert r == buf + (key + ": " + val + "\n");
  }

  lemma IndentStep(line: string, rest: string)
    requires '\n' !in line
    ensures Unlines(Indented(Lines(line + "\n" + rest))) == "  " + (line + "\n") + Unlines(Indented(Lines(rest)))
  {
    hide Lines;
    LinesStep(line, rest);
    var ls := Indented([line] + Lines(rest));
    assert ls[0] == "  " + line && ls[1..] == Indented(Lines(rest));
  }

  lemma LastLine(line: string)
    requires '\n' !in line && line != ""
    ensures Lines(line) == [line] && Unlines(Indented(Lines(line))) == "  " + (line + "\n")
  {
    LineEndOf(line, "");
    assert line + "" == line && line[..|line|] == line;
    UnlinesOne("  " + line);
    assert Indented([line]) == ["  " + line];
  }

  /** The loop takes a line at a time off the value. */
  method AppendYamlBlock(buf: string, key: string, val: string) returns (r: string)
    ensures r == buf + (key + ": |\n") + Unlines(Indented(Lines(val)))
  {
    hide Lines; hide Indented; hide Unlines;
    r := buf + (key + ": |\n");
    ghost var start := r;
    var rest := val;
    while |rest| > 0
      invariant start + Unlines(Indented(Lines(val))) == r + Unlines(Indented(Lines(rest)))
      decreases |rest|
    {
      var i := IndexByte(rest, '\n');
      ghost var before := rest;
      var line;
      if i >= 0 {
        line := rest[..i + 1];
        IndentStep(rest[..i], rest[i + 1..]);
        assert before == rest[..i] + "\n" + rest[i + 1..] && line == rest[..i] + "\n";
        rest := rest[i + 1..];
      } else {
        line := rest + "\n";
        LastLine(rest);
        rest := "";
      }
      UnlinesOfNothing();
      ghost var tail := Unlines(Indented(Lines(rest)));
      assert Unlines(Indented(Lines(before))) == "  " + line + tail;
      Reassociate(r, line, tail);
      r := r + "  ";
      r := r + line;
    }
    UnlinesOfNothing();
  }

  lemma Reassociate(r: string, line: string, tail: string)
    ensures r + ("  " + line + tail) == r + "  " + line + tail
  {
  }

  lemma UnlinesOfNothing()
    ensures Unlines(Indented(Lines(""))) == ""
  {
  }

  /** The printer of the registry. */
  method MethodConfigBytes(cfg: Config) returns (buf: string)
    ensures buf == Unlines(ConfigLines(cfg))
  {
    hide Lines; hide Indented; hide Unlines;
    UnlinesEmpty();
    assert ConfigLines(cfg) == ["type: " + cfg.typ] + (ProgramLines(cfg.program) + TailLines(cfg));
    buf := AppendYamlStr("", "type", cfg.typ);
    UnlinesAppend(["type: " + cfg.typ], ProgramLines(cfg.program) + TailLines(cfg));
    UnlinesAppend(ProgramLines(cfg.program), TailLines(cfg));
    ghost var head := Unlines(["type: " + cfg.typ]);
    assert "type" + ": " + cfg.typ == "type: " + cfg.typ;
    if cfg.program != "" {
      buf := AppendYamlBlock(buf, "program", cfg.program);
      UnlinesAppend(["program: |"], Indented(Lines(cfg.program)));
      UnlinesOne("program: |");
      assert "program" + ": |\n" == "program: |" + "\n";
    }
    assert buf == head + Unlines(ProgramLines(cfg.program));
    ghost var start := buf;
    ghost var f := if cfg.file != "" then ["file: " + cfg.file] else [];
    ghost var t := if cfg.refresh.Some? then ["refresh: " + cfg.refresh.value] else [];
    UnlinesAppend(f, t);
    if cfg.file != "" {
      buf := AppendYamlStr(buf, "file", cfg.file);
      assert "file" + ": " + cfg.file == "file: " + cfg.file;
    }
    assert buf == start + Unlines(f);
    if cfg.refresh.Some? {
      buf := AppendYamlStr(buf, "refresh", cfg.refresh.value);
      assert "refresh" + ": " + cfg.refresh.value == "refresh: " + cfg.refresh.value;
    }
    assert buf == start + Unlines(f) + Unlines(t);
    Regroup(head, Unlines(ProgramLines(cfg.program)), Unlines(f), Unlines(t));
  }

  lemma Regroup(a: string, b: string, c: string, d: string)
    ensures a + b + c + d == a + (b + (c + d))
  {
  }

  lemma UnlinesEmpty()
    ensures Unlines([]) == ""
  {
  }

  // ---------- Parsing ----------

  datatype KeyVal = KeyVal(key: string, val: string)

  function ColonAt(line: string): (n: nat)
    ensures n <= |line| && (n < |line| ==> line[n] == ':') && ':' !in line[..n]
  {
    if line == "" || line[0] == ':' then 0 else 1 + ColonAt(line[1..])
  }

  function DropSpace(v: string): string {
    if v != "" && v[0] == ' ' then v[1..] else v
  }

  function KeyValOf(line: string): KeyVal {
    var n := ColonAt(line);
    if n == |line| then KeyVal("", "") else KeyVal(line[..n], DropSpace(line[n + 1..]))
  }

  datatype Parse = Parse(program: string, file: string, inBlock: bool, block: seq<string>)

  const START := Parse("", "", false, [])

  predicate IsIndented(line: string) {
    |line| >= 2 && line[0] == ' ' && line[1] == ' '
  }

  function EndBlock(p: Parse): Parse {
    if p.inBlock then p.(inBlock := false, program := Join(p.block)) else p
  }

  function ParseLine(p: Parse, line: string): Parse {
    if p.inBlock && IsIndented(line) then p.(block := p.block + [line[2..]])
    else
      var q := EndBlock(p);
      var kv := KeyValOf(line);
      if kv.key == "program" then
        if kv.val == "|" then q.(inBlock := true, block := []) else q.(program := kv.val)
      else if kv.key == "file" then q.(file := kv.val)
      else q
  }

  function ParseLines(p: Parse, ls: seq<string>): Parse
    decreases |ls|
  {
    if ls == [] then p else ParseLines(ParseLine(p, ls[0]), ls[1..])
  }

  datatype Source = Inline(program: string) | FromFile(path: string) | Missing

  function Outcome(p: Parse): Source {
    var q := EndBlock(p);
    if q.program != "" then Inline(q.program) else if q.file != "" then FromFile(q.file) else Missing
  }

  /** Where the provider takes its source from. */
  function SourceOf(raw: string): Source {
    Outcome(ParseLines(START, Lines(raw)))
  }

  method ParseYamlLine(line: string) returns (key: string, val: string)
    ensures KeyVal(key, val) == KeyValOf(line)
    ensures ':' !in line ==> key == "" && val == ""
    ensures ':' in line ==> ':' !in key
    ensures ':' in line ==> line == key + ": " + val || (line == key + ":" + val && (val == "" || val[0] != ' '))
  {
    var i := 0;
    while i < |line|
      invariant 0 <= i <= |line| && ':' !in line[..i]
      invariant ColonAt(line) == i + ColonAt(line[i..])
    {
      assert line[i..][1..] == line[i + 1..];
      if line[i] == ':' {
        key := line[..i];
        val := "";
        if i + 1 < |line| {
          val := line[i + 1..];
          if |val| > 0 && val[0] == ' ' {
            val := val[1..];
            assert line == key + ": " + val;
          }
        }
        assert line == key + [line[i]] + line[i + 1..];
        return;
      }
      i := i + 1;
    }
    return "", "";
  }

  /** One step of Lines at an index of the text. */
  lemma LinesAt(s: string, start: nat, i: nat)
    requires start <= i < |s| && s[i] == '\n' && '\n' !in s[start..i]
    ensures Lines(s[start..]) == [s[start..i]] + Lines(s[i + 1..])
  {
    hide Lines;
    LinesStep(s[start..i], s[i + 1..]);
    assert s[start..] == s[start..i] + "\n" + s[i + 1..];
  }

  method SplitLines(s: string) returns (lines: seq<string>)
    ensures lines == Lines(s)
  {
    hide Lines;
    lines := [];
    var start := 0;
    assert s[0..] == s;
    var i := 0;
    while i < |s|
      invariant 0 <= start <= i <= |s| && '\n' !in s[start..i]
      invariant Lines(s) == lines + Lines(s[start..])
    {
      if s[i] == '\n' {
        LinesAt(s, start, i);
        assert lines + ([s[start..i]] + Lines(s[i + 1..])) == lines + [s[start..i]] + Lines(s[i + 1..]);
        lines := lines + [s[start..i]];
        start := i + 1;
      }
      i := i + 1;
    }
    if start < |s| {
      assert s[start..i] == s[start..];
      LastLine(s[start..]);
      lines := lines + [s[start..]];
    } else {
      assert s[start..] == "";
      LinesOfNothing();
    }
  }

  lemma {:induction false} JoinSnoc(ls: seq<string>, l: string)
    ensures Join(ls + [l]) == if ls == [] then l else Join(ls) + "\n" + l
  {
    if |ls| > 1 {
      assert (ls + [l])[1..] == ls[1..] + [l];
      JoinSnoc(ls[1..], l);
    } else if |ls| == 1 {
      assert (ls + [l])[1..] == [l];
    } else {
      assert ls + [l] == [l];
    }
  }

  method JoinLines(lines: seq<string>) returns (result: string)
    ensures result == Join(lines)
  {
    result := "";
    for i := 0 to |lines|
      invariant result == Join(lines[..i])
    {
      assert lines[..i + 1] == lines[..i] + [lines[i]];
      JoinSnoc(lines[..i], lines[i]);
      if i > 0 {
        result := result + "\n";
      }
      result := result + lines[i];
    }
    assert lines[..|lines|] == lines;
  }

  lemma ParseLinesAt(p: Parse, ls: seq<string>, i: nat)
    requires i < |ls|
    ensures ParseLines(p, ls[i..]) == ParseLines(ParseLine(p, ls[i]), ls[i + 1..])
  {
    assert ls[i..][1..] == ls[i + 1..];
  }

  /** The line parser of both providers; reading the file is left to the caller. */
  method ExtractSource(raw: string) returns (src: Source)
    ensures src == SourceOf(raw)
  {
    hide Lines; hide ParseLines; hide KeyValOf;
    var lines := SplitLines(raw);
    var program, file, inBlock, blockLines := "", "", false, [];
    var i := 0;
    assert lines[0..] == lines;
    while i < |lines|
      invariant 0 <= i <= |lines|
      invariant ParseLines(START, lines) == ParseLines(Parse(program, file, inBlock, blockLines), lines[i..])
    {
      var line := lines[i];
      ParseLinesAt(Parse(program, file, inBlock, blockLines), lines, i);
      i := i + 1;
      if inBlock {
        if |line| >= 2 && line[0] == ' ' && line[1] == ' ' {
          blockLines := blockLines + [line[2..]];
          continue;
        }
        inBlock := false;
        program := JoinLines(blockLines);
      }
      var key, val := ParseYamlLine(line);
      if key == "program" {
        if val == "|" {
          inBlock := true;
          blockLines := [];
        } else {
          program := val;
        }
      } else if key == "file" {
        file := val;
      }
    }
    ParseNothing(Parse(program, file, inBlock, blockLines), lines, i);
    if inBlock {
      program := JoinLines(blockLines);
    }
    if program != "" {
      return Inline(program);
    }
    if file != "" {
      return FromFile(file);
    }
    return Missing;
  }

  lemma ParseNothing(p: Parse, ls: seq<string>, i: nat)
    requires i == |ls|
    ensures ParseLines(p, ls[i..]) == p
  {
  }

  // ---------- Printing and parsing back ----------

  lemma {:induction false} ColonOf(key: string, rest: string)
    requires ':' !in key
    ensures ColonAt(key + ":" + rest) == |key|
  {
    var line := key + ":" + rest;
    if key != "" {
      assert line[1..] == key[1..] + ":" + rest;
      ColonOf(key[1..], rest);
    }
  }

  /** A printed `key: val` parses back to its key and value, whatever the value. */
  lemma KeyValBack(key: string, val: string)
    requires ':' !in key
    ensures KeyValOf(key + ": " + val) == KeyVal(key, val)
  {
    var line := key + ": " + val;
    assert line == key + ":" + (" " + val);
    ColonOf(key, " " + val);
    assert line[..|key|] == key && line[|key| + 1..] == " " + val;
    assert (" " + val)[1..] == val;
  }

  lemma {:induction false} ParseAppend(p: Parse, a: seq<string>, b: seq<string>)
    ensures ParseLines(p, a + b) == ParseLines(ParseLines(p, a), b)
    decreases |a|
  {
    hide ParseLine;
    if a == [] {
      assert a + b == b;
    } else {
      assert (a + b)[1..] == a[1..] + b;
      ParseAppend(ParseLine(p, a[0]), a[1..], b);
    }
  }

  lemma {:induction false} BlockCollects(p: Parse, ls: seq<string>)
    requires p.inBlock
    ensures ParseLines(p, Indented(ls)) == p.(block := p.block + ls)
    decreases |ls|
  {
    if ls == [] {
      assert p.block + [] == p.block;
    } else {
      var first := Indented(ls)[0];
      assert IsIndented(first) && first[2..] == ls[0];
      var q := p.(block := p.block + [ls[0]]);
      assert Indented(ls)[1..] == Indented(ls[1..]);
      BlockCollects(q, ls[1..]);
      assert p.block + [ls[0]] + ls[1..] == p.block + ls;
    }
  }

  lemma TypeLine(p: Parse, typ: string)
    requires !p.inBlock
    ensures ParseLine(p, "type: " + typ) == p
  {
    hide KeyValOf;
    KeyValBack("type", typ);
    assert "type" + ": " + typ == "type: " + typ;
    assert |"type"| == 4 && |"program"| == 7 && "type"[0] == 't' && "file"[0] == 'f';
  }

  lemma FileLine(p: Parse, file: string)
    ensures ParseLine(p, "file: " + file) == EndBlock(p).(file := file)
  {
    hide KeyValOf;
    KeyValBack("file", file);
    assert "file" + ": " + file == "file: " + file;
    assert ("file: " + file)[0] == 'f';
    assert |"file"| == 4 && |"program"| == 7;
  }

  lemma RefreshLine(p: Parse, refresh: string)
    ensures ParseLine(p, "refresh: " + refresh) == EndBlock(p)
  {
    hide KeyValOf;
    KeyValBack("refresh", refresh);
    assert "refresh" + ": " + refresh == "refresh: " + refresh;
    assert ("refresh: " + refresh)[0] == 'r';
    assert "refresh"[0] == 'r' && "program"[0] == 'p' && |"file"| == 4 && |"refresh"| == 7;
  }

  lemma ProgramLine(p: Parse)
    requires !p.inBlock
    ensures ParseLine(p, "program: |") == p.(inBlock := true, block := [])
  {
    hide KeyValOf;
    KeyValBack("program", "|");
    assert "program" + ": " + "|" == "program: |";
  }

  lemma ProgramParses(p: Parse, program: string)
    requires p == START
    ensures EndBlock(ParseLines(p, ProgramLines(program))) ==
            if program == "" then p else Parse(Chomp(program), "", false, Lines(program))
  {
    hide Lines; hide ParseLine;
    if program != "" {
      ProgramLine(p);
      var q := p.(inBlock := true, block := []);
      var ls := ProgramLines(program);
      assert ls[0] == "program: |" && ls[1..] == Indented(Lines(program));
      BlockCollects(q, Lines(program));
      assert [] + Lines(program) == Lines(program);
      JoinOfLines(program);
    }
  }

  // What the provider makes of a file that is printed on more than one line.

  /** The pieces between the newlines of a text; there is always one. */
  function Pieces(s: string): (ls: seq<string>)
    ensures |ls| >= 1 && forall i :: 0 <= i < |ls| ==> '\n' !in ls[i]
    ensures '\n' !in s ==> ls == [s]
    decreases |s|
  {
    var n := LineEnd(s);
    if n == |s| then [s] else [s[..n]] + Pieces(s[n + 1..])
  }

  predicate HasKey(ls: seq<string>, key: string) {
    exists i :: 0 <= i < |ls| && KeyValOf(ls[i]).key == key
  }

  /** The value of the last line with that key. */
  function LastVal(ls: seq<string>, key: string, dflt: string): string {
    if ls == [] then dflt
    else if HasKey(ls[1..], key) then LastVal(ls[1..], key, dflt)
    else if KeyValOf(ls[0]).key == key then KeyValOf(ls[0]).val
    else dflt
  }

  /** The indented lines that lead a list, without their indentation. */
  function Block(ls: seq<string>): seq<string> {
    if ls == [] || !IsIndented(ls[0]) then [] else [ls[0][2..]] + Block(ls[1..])
  }

  /** The last line with the key `program` decides: it holds the program, or its block follows. */
  function ProgramOf(ls: seq<string>, dflt: string): string {
    if ls == [] then dflt
    else if HasKey(ls[1..], "program") then ProgramOf(ls[1..], dflt)
    else if KeyValOf(ls[0]).key != "program" then dflt
    else if KeyValOf(ls[0]).val == "|" then Join(Block(ls[1..]))
    else KeyValOf(ls[0]).val
  }

  lemma IndentedHasNoKey(line: string)
    requires IsIndented(line)
    ensures KeyValOf(line).key != "program" && KeyValOf(line).key != "file"
  {
    var n := ColonAt(line);
    if 0 < n < |line| { assert line[..n][0] == ' '; }
    assert "program"[0] == 'p' && "file"[0] == 'f';
  }

  lemma HasKeyCons(ls: seq<string>, key: string)
    requires ls != []
    ensures HasKey(ls, key) <==> KeyValOf(ls[0]).key == key || HasKey(ls[1..], key)
  {
    if HasKey(ls[1..], key) {
      var i :| 0 <= i < |ls[1..]| && KeyValOf(ls[1..][i]).key == key;
      assert KeyValOf(ls[i + 1]).key == key;
    }
    if i :| 0 <= i < |ls| && KeyValOf(ls[i]).key == key {
      assert i > 0 ==> KeyValOf(ls[1..][i - 1]).key == key;
    }
  }

  lemma NoKeyKeeps(ls: seq<string>, dflt: string)
    requires !HasKey(ls, "program")
    ensures ProgramOf(ls, dflt) == dflt
  {
    hide KeyValOf; hide HasKey;
    if ls != [] { HasKeyCons(ls, "program"); }
  }

  /** ProgramOf does not look at the default once there is a line for the program. */
  lemma {:induction false} KeyDecides(ls: seq<string>, a: string, b: string)
    requires HasKey(ls, "program")
    ensures ProgramOf(ls, a) == ProgramOf(ls, b)
  {
    hide KeyValOf; hide HasKey; hide Block;
    if ls == [] {
      assert false by { NothingHasKey(); }
    } else {
      HasKeyCons(ls, "program");
      if HasKey(ls[1..], "program") { KeyDecides(ls[1..], a, b); }
    }
  }

  lemma NothingHasKey()
    ensures !HasKey([], "program")
  {
  }

  /** What the program will be when p reads the lines that are left. */
  function Reading(p: Parse, ls: seq<string>): string {
    if p.inBlock && !HasKey(ls, "program") then Join(p.block + Block(ls)) else ProgramOf(ls, EndBlock(p).program)
  }

  lemma {:induction false} ReadsProgram(p: Parse, ls: seq<string>)
    ensures EndBlock(ParseLines(p, ls)).program == Reading(p, ls)
    decreases |ls|
  {
    hide KeyValOf; hide HasKey; hide Join; hide Reading; hide ParseLine;
    if ls == [] {
      assert EndBlock(p).program == Reading(p, []) by { ReadingDone(p); }
    } else {
      ReadsProgram(ParseLine(p, ls[0]), ls[1..]);
      ReadingStep(p, ls);
    }
  }

  lemma ReadingDone(p: Parse)
    ensures Reading(p, []) == EndBlock(p).program
  {
    NothingHasKey();
    assert p.block + [] == p.block;
  }

  /** Once a later line decides, what has been read so far does not matter. */
  lemma ReadingDecided(p: Parse, ls: seq<string>)
    requires ls != [] && HasKey(ls[1..], "program")
    ensures Reading(ParseLine(p, ls[0]), ls[1..]) == Reading(p, ls)
  {
    hide KeyValOf; hide HasKey; hide Join; hide Block; hide ParseLine; hide EndBlock;
    HasKeyCons(ls, "program");
    var q := ParseLine(p, ls[0]);
    KeyDecides(ls[1..], EndBlock(q).program, EndBlock(p).program);
  }

  /** The line that decides. */
  lemma ReadingHere(p: Parse, ls: seq<string>)
    requires ls != [] && !HasKey(ls[1..], "program") && KeyValOf(ls[0]).key == "program"
    ensures Reading(ParseLine(p, ls[0]), ls[1..]) == Reading(p, ls)
  {
    hide KeyValOf; hide HasKey; hide Join; hide Block;
    HasKeyCons(ls, "program");
    if IsIndented(ls[0]) { IndentedHasNoKey(ls[0]); }
    var q := ParseLine(p, ls[0]);
    NoKeyKeeps(ls[1..], EndBlock(q).program);
    assert [] + Block(ls[1..]) == Block(ls[1..]);
  }

  /** A line after the one that decided: part of its block, or the end of it. */
  lemma ReadingAfter(p: Parse, ls: seq<string>)
    requires ls != [] && !HasKey(ls[1..], "program") && KeyValOf(ls[0]).key != "program"
    ensures Reading(ParseLine(p, ls[0]), ls[1..]) == Reading(p, ls)
  {
    hide KeyValOf; hide HasKey; hide Join; hide ProgramOf;
    HasKeyCons(ls, "program");
    var q := ParseLine(p, ls[0]);
    NoKeyKeeps(ls[1..], EndBlock(q).program);
    NoKeyKeeps(ls, EndBlock(p).program);
    if IsIndented(ls[0]) {
      assert p.block + [ls[0][2..]] + Block(ls[1..]) == p.block + ([ls[0][2..]] + Block(ls[1..]));
    }
    assert p.block + [] == p.block;
  }

  lemma ReadingStep(p: Parse, ls: seq<string>)
    requires ls != []
    ensures Reading(ParseLine(p, ls[0]), ls[1..]) == Reading(p, ls)
  {
    hide KeyValOf; hide HasKey; hide Reading; hide ParseLine;
    if HasKey(ls[1..], "program") { ReadingDecided(p, ls); }
    else if KeyValOf(ls[0]).key == "program" { ReadingHere(p, ls); }
    else { ReadingAfter(p, ls); }
  }

  lemma {:induction false} ReadsFile(p: Parse, ls: seq<string>)
    ensures ParseLines(p, ls).file == LastVal(ls, "file", p.file)
    decreases |ls|
  {
    hide KeyValOf; hide HasKey; hide Join;
    if ls != [] {
      var q := ParseLine(p, ls[0]);
      ReadsFile(q, ls[1..]);
      if IsIndented(ls[0]) { IndentedHasNoKey(ls[0]); }
      if HasKey(ls[1..], "file") { FileKeyDecides(ls[1..], q.file, p.file); } else { NoFileKeeps(ls[1..], q.file); }
    }
  }

  lemma NoFileKeeps(ls: seq<string>, dflt: string)
    requires !HasKey(ls, "file")
    ensures LastVal(ls, "file", dflt) == dflt
  {
    hide KeyValOf; hide HasKey;
    if ls != [] { HasKeyCons(ls, "file"); }
  }

  lemma {:induction false} FileKeyDecides(ls: seq<string>, a: string, b: string)
    requires HasKey(ls, "file")
    ensures LastVal(ls, "file", a) == LastVal(ls, "file", b)
  {
    hide KeyValOf;
    if ls != [] {
      HasKeyCons(ls, "file");
      if HasKey(ls[1..], "file") { FileKeyDecides(ls[1..], a, b); }
    }
  }

  /** The lines of a printed config as the parser sees them. */
  function PhysicalLines(cfg: Config): seq<string> {
    ["type: " + cfg.typ] + (ProgramLines(cfg.program) + (FileLines(cfg.file) + RefreshLines(cfg)))
  }

  function FileLines(file: string): seq<string> {
    if file == "" then [] else ["file: " + Pieces(file)[0]] + Pieces(file)[1..]
  }

  function RefreshLines(cfg: Config): seq<string> {
    if cfg.refresh.Some? then ["refresh: " + cfg.refresh.value] else []
  }

  lemma {:induction false} UnlinesOfPieces(s: string)
    ensures Unlines(Pieces(s)) == s + "\n"
    decreases |s|
  {
    hide Pieces; hide Unlines;
    var n := LineEnd(s);
    PiecesStep(s);
    if n == |s| {
      UnlinesOne(s);
    } else {
      UnlinesOfPieces(s[n + 1..]);
      UnlinesCons(s[..n], Pieces(s[n + 1..]));
      Rejoin(s, n);
    }
  }

  lemma PiecesStep(s: string)
    ensures
      var n := LineEnd(s);
      Pieces(s) == if n == |s| then [s] else [s[..n]] + Pieces(s[n + 1..])
  {
    hide LineEnd;
  }

  lemma Rejoin(s: string, n: nat)
    requires n < |s| && s[n] == '\n'
    ensures s[..n] + "\n" + (s[n + 1..] + "\n") == s + "\n"
  {
    assert s == s[..n] + [s[n]] + s[n + 1..];
  }

  lemma UnlinesOfFile(file: string)
    requires file != ""
    ensures Unlines(FileLines(file)) == Unlines(["file: " + file])
  {
    hide Pieces; hide Unlines;
    var ls := Pieces(file);
    UnlinesOfPieces(file);
    UnlinesCons(ls[0], ls[1..]);
    UnlinesCons("file: " + ls[0], ls[1..]);
    assert [ls[0]] + ls[1..] == ls;
    UnlinesOne("file: " + file);
    assert "file: " + ls[0] + "\n" + Unlines(ls[1..]) == "file: " + (ls[0] + "\n" + Unlines(ls[1..]));
  }

  lemma UnlinesCons(l: string, ls: seq<string>)
    ensures Unlines([l] + ls) == l + "\n" + Unlines(ls)
  {
    assert ([l] + ls)[1..] == ls;
  }

  lemma SameText(cfg: Config)
    ensures Unlines(PhysicalLines(cfg)) == Unlines(ConfigLines(cfg))
  {
    hide Unlines; hide Lines; hide Indented; hide Pieces; hide FileLines;
    var head, t := ["type: " + cfg.typ] + ProgramLines(cfg.program), RefreshLines(cfg);
    var f := if cfg.file != "" then ["file: " + cfg.file] else [];
    assert PhysicalLines(cfg) == head + (FileLines(cfg.file) + t);
    assert ConfigLines(cfg) == head + (f + t);
    assert Unlines(FileLines(cfg.file)) == Unlines(f) by {
      if cfg.file != "" { UnlinesOfFile(cfg.file); } else { NoFileLines(); }
    }
    UnlinesAppend(FileLines(cfg.file), t);
    UnlinesAppend(f, t);
    UnlinesAppend(head, FileLines(cfg.file) + t);
    UnlinesAppend(head, f + t);
  }

  lemma NoFileLines()
    ensures FileLines("") == []
  {
  }

  lemma PhysicalLinesPlain(cfg: Config)
    requires '\n' !in cfg.typ && (cfg.refresh.Some? ==> '\n' !in cfg.refresh.value)
    ensures forall i :: 0 <= i < |PhysicalLines(cfg)| ==> '\n' !in PhysicalLines(cfg)[i]
  {
    hide Lines; hide Pieces;
    assert '\n' !in "type: " + cfg.typ;
    assert '\n' !in "program: |";
    assert forall i :: 0 <= i < |ProgramLines(cfg.program)| ==> '\n' !in ProgramLines(cfg.program)[i];
    assert forall i :: 0 <= i < |FileLines(cfg.file)| ==> '\n' !in FileLines(cfg.file)[i];
    assert forall i :: 0 <= i < |RefreshLines(cfg)| ==> '\n' !in RefreshLines(cfg)[i];
  }

  /** The file's first line is read as the file, and the others as lines of the config. */
  lemma FileParses(p: Parse, file: string)
    requires file != ""
    ensures ParseLines(p, FileLines(file)) == ParseLines(EndBlock(p).(file := Pieces(file)[0]), Pieces(file)[1..])
  {
    hide ParseLine; hide Pieces; hide EndBlock;
    var ls := FileLines(file);
    assert ls[0] == "file: " + Pieces(file)[0] && ls[1..] == Pieces(file)[1..];
    FileLine(p, Pieces(file)[0]);
  }

  lemma RefreshEnds(p: Parse, cfg: Config)
    ensures EndBlock(ParseLines(p, RefreshLines(cfg))) == EndBlock(p)
  {
    hide ParseLine;
    if cfg.refresh.Some? {
      RefreshLine(p, cfg.refresh.value);
      assert RefreshLines(cfg)[1..] == [];
    }
  }

  /** The whole print parses as the file's further lines do, after the program and the file's first line. */
  lemma PrintParses(cfg: Config)
    requires '\n' !in cfg.typ && (cfg.refresh.Some? ==> '\n' !in cfg.refresh.value)
    ensures
      var p := Parse(Chomp(cfg.program), Pieces(cfg.file)[0], false, Lines(cfg.program));
      EndBlock(ParseLines(START, PhysicalLines(cfg))) == EndBlock(ParseLines(p, Pieces(cfg.file)[1..]))
  {
    hide Lines; hide ParseLine; hide ParseLines; hide Pieces; hide FileLines; hide ProgramLines; hide EndBlock;
    var a, b, c, d := ["type: " + cfg.typ], ProgramLines(cfg.program), FileLines(cfg.file), RefreshLines(cfg);
    ParseAppend(START, a, b + (c + d));
    TypeLine(START, cfg.typ);
    ParseOne(START, "type: " + cfg.typ);
    ParseAppend(START, b, c + d);
    var q := ParseLines(START, b);
    ParseAppend(q, c, d);
    RefreshEnds(ParseLines(q, c), cfg);
    ProgramParses(START, cfg.program);
    FileOrNone(q, cfg);
  }

  lemma FileOrNone(q: Parse, cfg: Config)
    requires EndBlock(q) ==
             if cfg.program == "" then START else Parse(Chomp(cfg.program), "", false, Lines(cfg.program))
    ensures
      var p := Parse(Chomp(cfg.program), Pieces(cfg.file)[0], false, Lines(cfg.program));
      EndBlock(ParseLines(q, FileLines(cfg.file))) == EndBlock(ParseLines(p, Pieces(cfg.file)[1..]))
  {
    hide ParseLine; hide ParseLines; hide Pieces; hide FileLines;
    assert Lines("") == [] && Chomp("") == "";
    hide Lines;
    if cfg.file == "" {
      NoFileLines();
      assert Pieces("") == [""];
      ParseNothing(q, [], 0);
      ParseNothing(Parse(Chomp(cfg.program), "", false, Lines(cfg.program)), [""], 1);
    } else {
      FileParses(q, cfg.file);
    }
  }

  function Pick(program: string, file: string): Source {
    if program != "" then Inline(program) else if file != "" then FromFile(file) else Missing
  }

  /** What the provider gets: its program and file, unless later lines of the file say otherwise. */
  function Expected(cfg: Config): Source {
    var more := Pieces(cfg.file)[1..];
    Pick(ProgramOf(more, Chomp(cfg.program)), LastVal(more, "file", Pieces(cfg.file)[0]))
  }

  lemma {:induction false} LastValIsOnOneLine(ls: seq<string>, key: string, dflt: string)
    requires '\n' !in dflt && forall i :: 0 <= i < |ls| ==> '\n' !in ls[i]
    ensures '\n' !in LastVal(ls, key, dflt)
  {
    if ls != [] { LastValIsOnOneLine(ls[1..], key, dflt); }
  }

  /**
   Printing a config and parsing it back. The type is a registered name and the
   refresh a printed duration, so neither holds a newline. Without a newline in the
   file the provider gets the program without its final newline; only for "" and "\n"
   does it fall through to the file, and to the error if there is none. The lines of
   the file after its first are read as lines of the config: the last one with the key
   `program` or `file` replaces what was there, so the program comes back whenever no
   such line names it, and the file if and only if it has no newline in it.
   */
  lemma ConfigRoundTrip(cfg: Config)
    requires '\n' !in cfg.typ && (cfg.refresh.Some? ==> '\n' !in cfg.refresh.value)
    ensures SourceOf(Unlines(ConfigLines(cfg))) == Expected(cfg)
    ensures '\n' !in cfg.file ==>
              Expected(cfg) == if cfg.program != "" && cfg.program != "\n" then Inline(Chomp(cfg.program))
                               else if cfg.file != "" then FromFile(cfg.file)
                               else Missing
    ensures cfg.program != "" && cfg.program != "\n" && !HasKey(Pieces(cfg.file)[1..], "program") ==>
              Expected(cfg) == Inline(Chomp(cfg.program))
    ensures '\n' in cfg.file ==> Expected(cfg) != FromFile(cfg.file)
  {
    hide Lines; hide ParseLine; hide ParseLines; hide PhysicalLines; hide HasKey; hide ConfigLines;
    var more := Pieces(cfg.file)[1..];
    SameText(cfg);
    PhysicalLinesPlain(cfg);
    LinesOfUnlines(PhysicalLines(cfg));
    PrintParses(cfg);
    var p := Parse(Chomp(cfg.program), Pieces(cfg.file)[0], false, Lines(cfg.program));
    ReadsProgram(p, more);
    ReadsFile(p, more);
    ChompEmpty(cfg.program);
    LastValIsOnOneLine(more, "file", Pieces(cfg.file)[0]);
    if !HasKey(more, "program") { NoKeyKeeps(more, Chomp(cfg.program)); }
  }

  /** A second line of the file that names a program takes its place. */
  lemma FileLineReplacesProgram(typ: string, program: string, file: string, other: string)
    requires '\n' !in typ && '\n' !in file && '\n' !in other && other != "" && other != "|"
    ensures SourceOf(Unlines(ConfigLines(Config(typ, program, file + "\nprogram: " + other, None)))) == Inline(other)
  {
    hide Lines; hide ConfigLines; hide SourceOf; hide ProgramOf; hide LastVal; hide Pieces; hide Unlines; hide HasKey;
    var path := file + "\nprogram: " + other;
    assert path == file + "\n" + ("program: " + other);
    ConfigRoundTrip(Config(typ, program, path, None));
    TwoPieces(file, "program: " + other);
    assert [file, "program: " + other][1..] == ["program: " + other];
    OneProgramLine(other, Chomp(program));
  }

  lemma OneProgramLine(other: string, dflt: string)
    requires other != "|"
    ensures ProgramOf(["program: " + other], dflt) == other
  {
    hide KeyValOf; hide HasKey; hide Block;
    KeyValBack("program", other);
    assert "program" + ": " + other == "program: " + other;
    assert ["program: " + other][1..] == [];
    NothingHasKey();
  }

  lemma TwoPieces(a: string, b: string)
    requires '\n' !in a && '\n' !in b
    ensures Pieces(a + "\n" + b) == [a, b]
  {
    var s := a + "\n" + b;
    assert s == a + ("\n" + b);
    LineEndOf(a, "\n" + b);
    assert s[..|a|] == a && s[|a| + 1..] == b;
  }

  lemma ParseOne(p: Parse, l: string)
    ensures ParseLines(p, [l]) == ParseLine(p, l)
  {
    assert [l][1..] == [];
  }

  lemma ChompEmpty(s: string)
    ensures Chomp(s) == "" <==> s == "" || s == "\n"
  {
  }

  // ---------- The command-line tool's printer ----------

  function ToolConfig(src: string): string {
    Unlines(["type: expr", "program: |"] + Indented(Lines(src)))
  }

  method BuildConfig(src: string) returns (yaml: string)
    ensures yaml == ToolConfig(src)
  {
    hide Lines;
    yaml := "type: expr\nprogram: |\n";
    var lines := SplitLines(src);
    for i := 0 to |lines|
      invariant yaml == "type: expr\nprogram: |\n" + Unlines(Indented(lines[..i]))
    {
      assert Indented(lines[..i + 1]) == Indented(lines[..i]) + ["  " + lines[i]];
      UnlinesAppend(Indented(lines[..i]), ["  " + lines[i]]);
      UnlinesOne("  " + lines[i]);
      yaml := yaml + ("  " + lines[i] + "\n");
    }
    assert lines[..|lines|] == lines;
    UnlinesAppend(["type: expr", "program: |"], Indented(lines));
    ToolHead();
  }

  lemma ToolHead()
    ensures Unlines(["type: expr", "program: |"]) == "type: expr\nprogram: |\n"
  {
    assert ["type: expr", "program: |"][1..] == ["program: |"];
    UnlinesOne("program: |");
    assert "type: expr" + "\n" + ("program: |" + "\n") == "type: expr\nprogram: |\n";
  }

  /** Both printers give the same bytes exactly when the source is not empty. */
  lemma PrintersAgreeIff(src: string)
    ensures ToolConfig(src) == Unlines(ConfigLines(Config("expr", src, "", None))) <==> src != ""
  {
    hide Lines; hide Indented;
    var cfg := Config("expr", src, "", None);
    assert "type: " + "expr" == "type: expr";
    if src != "" {
      assert ConfigLines(cfg) == ["type: expr", "program: |"] + Indented(Lines(src));
    } else {
      assert ConfigLines(cfg) == ["type: expr"];
      UnlinesOne("type: expr");
      UnlinesAppend(["type: expr", "program: |"], Indented(Lines(src)));
      ToolHead();
      assert |"type: expr\nprogram: |\n"| > |"type: expr" + "\n"|;
    }
  }
}
