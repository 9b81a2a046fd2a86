/**
 Field stripping in the diff harness (internal/diffharness/normalize.go:67-113).
 A document is a tree value; a dotted path is applied to every element of the
 arrays it meets.

 `At` looks at one position of a tree, array indices included. It determines the
 tree, so what deletion does is stated position by position and the algebra of
 deletions follows from that.
 */
module JsonPath {
  import opened Basics

  datatype Json = Null | Scalar(text: string) | Arr(elems: seq<Json>) | Obj(fields: map<string, Json>)

  type Path = seq<string>

  function DeletePath(node: Json, path: Path): Json
    decreases node
  {
    if path == [] || node.Null? then node
    else
      match node
      case Arr(elems) => Arr(seq(|elems|, i requires 0 <= i < |elems| => DeletePath(elems[i], path)))
      case Obj(fields) =>
        if |path| == 1 then Obj(fields - {path[0]})
        else if path[0] in fields then Obj(fields[path[0] := DeletePath(fields[path[0]], path[1..])])
        else node
      case _ => node
  }

  /** strings.Join(parts, "."). */
  function Join(parts: Path): string {
    if parts == [] then "" else if |parts| == 1 then parts[0] else parts[0] + "." + Join(parts[1..])
  }

  /** strings.Split(field, "."): the parts without a dot that the dots of the field stand between. */
  function Split(field: string): (parts: Path)
    ensures parts != [] && Join(parts) == field
    ensures forall i :: 0 <= i < |parts| ==> '.' !in parts[i]
  {
    if field == "" then [""]
    else
      var rest := Split(field[1..]);
      if field[0] == '.' then
        assert ([""] + rest)[1..] == rest;
        [""] + rest
      else
        assert ([[field[0]] + rest[0]] + rest[1..])[1..] == rest[1..];
        [[field[0]] + rest[0]] + rest[1..]
  }

  function Stripped(doc: Json, paths: seq<Path>): Json
    decreases |paths|
  {
    if paths == [] then doc else Stripped(DeletePath(doc, paths[0]), paths[1..])
  }

  function Splits(fields: seq<string>): (paths: seq<Path>)
    ensures |paths| == |fields| && forall i :: 0 <= i < |fields| ==> paths[i] == Split(fields[i])
  {
    seq(|fields|, i requires 0 <= i < |fields| => Split(fields[i]))
  }

  /** A body that is not JSON is left alone; `parsed` is what decoding it gave. */
  method StripJsonFields(parsed: Option<Json>, fields: seq<string>) returns (out: Option<Json>)
    ensures out == if parsed.None? then None else Some(Stripped(parsed.value, Splits(fields)))
  {
    if parsed.None? {
      return None;
    }
    var doc := parsed.value;
    var i := 0;
    assert Splits(fields)[0..] == Splits(fields);
    while i < |fields|
      invariant 0 <= i <= |fields|
      invariant Stripped(parsed.value, Splits(fields)) == Stripped(doc, Splits(fields)[i..])
    {
      assert Splits(fields)[i..][1..] == Splits(fields)[i + 1..];
      doc := DeletePath(doc, Split(fields[i]));
      i := i + 1;
    }
    return Some(doc);
  }

  // ---------- Positions ----------

  datatype Step = Key(k: string) | Index(i: nat)
  type Position = seq<Step>

  /** What can be seen of a node without looking below it. */
  datatype Label = NullLabel | ScalarLabel(text: string) | ArrLabel(len: nat) | ObjLabel

  function LabelOf(node: Json): Label {
    match node
    case Null => NullLabel
    case Scalar(text) => ScalarLabel(text)
    case Arr(elems) => ArrLabel(|elems|)
    case Obj(_) => ObjLabel
  }

  function Child(node: Json, step: Step): Option<Json> {
    match step
    case Key(k) => if node.Obj? && k in node.fields then Some(node.fields[k]) else None
    case Index(i) => if node.Arr? && i < |node.elems| then Some(node.elems[i]) else None
  }

  function At(node: Json, pos: Position): Option<Label> {
    if pos == [] then Some(LabelOf(node))
    else
      match Child(node, pos[0])
      case None => None
      case Some(child) => At(child, pos[1..])
  }

  /** The keys along a position, array indices ignored. */
  function Keys(pos: Position): Path {
    if pos == [] then [] else (if pos[0].Key? then [pos[0].k] else []) + Keys(pos[1..])
  }

  /**
   After a deletion exactly the positions below the deleted path are gone; every
   other node is still there, with the same scalar or the same number of elements.
   */
  lemma {:induction false} DeletedPositions(node: Json, path: Path, pos: Position)
    requires path != []
    ensures At(DeletePath(node, path), pos) == if path <= Keys(pos) then None else At(node, pos)
    decreases node
  {
    if pos != [] {
      match pos[0]
      case Index(i) =>
        assert Keys(pos) == Keys(pos[1..]);
        if node.Arr? && i < |node.elems| {
          DeletedPositions(node.elems[i], path, pos[1..]);
        }
      case Key(k) =>
        assert Keys(pos) == [k] + Keys(pos[1..]);
        assert Keys(pos)[1..] == Keys(pos[1..]);
        if node.Obj? && k in node.fields {
          assert path <= Keys(pos) <==> path[0] == k && path[1..] <= Keys(pos[1..]);
          if k == path[0] && |path| > 1 {
            DeletedPositions(node.fields[k], path[1..], pos[1..]);
          }
        }
    }
  }

  /** Key-paths, array indices ignored: those that survive do not start with the deleted path. */
  lemma SurvivingKeyPaths(node: Json, path: Path, keys: Path)
    requires path != []
    ensures (exists pos :: Keys(pos) == keys && At(DeletePath(node, path), pos).Some?)
            <==> (exists pos :: Keys(pos) == keys && At(node, pos).Some?) && !(path <= keys)
  {
    if pos :| Keys(pos) == keys && At(DeletePath(node, path), pos).Some? {
      DeletedPositions(node, path, pos);
    }
    if !(path <= keys) {
      if pos :| Keys(pos) == keys && At(node, pos).Some? {
        DeletedPositions(node, path, pos);
      }
    }
  }

  // ---------- Positions determine the tree ----------

  ghost predicate SameEverywhere(a: Json, b: Json) {
    forall pos :: At(a, pos) == At(b, pos)
  }

  lemma SameBelow(a: Json, b: Json, step: Step)
    requires SameEverywhere(a, b)
    ensures Child(a, step).Some? == Child(b, step).Some?
    ensures Child(a, step).Some? ==> SameEverywhere(Child(a, step).value, Child(b, step).value)
  {
    AtStep(a, step, []);
    AtStep(b, step, []);
    assert At(a, [step] + []) == At(b, [step] + []);
    if Child(a, step).Some? {
      forall pos ensures At(Child(a, step).value, pos) == At(Child(b, step).value, pos) {
        AtStep(a, step, pos);
        AtStep(b, step, pos);
        assert At(a, [step] + pos) == At(b, [step] + pos);
      }
    }
  }

  lemma AtStep(node: Json, step: Step, pos: Position)
    ensures At(node, [step] + pos) == if Child(node, step).None? then None else At(Child(node, step).value, pos)
    ensures At(node, [step] + []).Some? == Child(node, step).Some?
  {
    assert ([step] + pos)[1..] == pos && ([step] + [])[1..] == [];
  }

  lemma {:induction false} PositionsDetermine(a: Json, b: Json)
    requires SameEverywhere(a, b)
    ensures a == b
    decreases a
  {
    assert At(a, []) == At(b, []);
    match a {
      case Arr(elems) =>
        forall i: nat | i < |elems| ensures elems[i] == b.elems[i] {
          SameBelow(a, b, Index(i));
          PositionsDetermine(elems[i], b.elems[i]);
        }
        assert elems == b.elems;
      case Obj(fields) =>
        forall k ensures k in fields <==> k in b.fields { SameBelow(a, b, Key(k)); }
        forall k | k in fields ensures fields[k] == b.fields[k] {
          SameBelow(a, b, Key(k));
          PositionsDetermine(fields[k], b.fields[k]);
        }
        assert fields == b.fields;
      case _ =>
    }
  }

  // ---------- The algebra of deletions ----------

  lemma DeleteIsIdempotent(node: Json, path: Path)
    requires path != []
    ensures DeletePath(DeletePath(node, path), path) == DeletePath(node, path)
  {
    var once := DeletePath(node, path);
    forall pos ensures At(DeletePath(once, path), pos) == At(once, pos) {
      DeletedPositions(once, path, pos);
      DeletedPositions(node, path, pos);
    }
    PositionsDetermine(DeletePath(once, path), once);
  }

  lemma DeletesCommute(node: Json, p: Path, q: Path)
    requires p != [] && q != []
    ensures DeletePath(DeletePath(node, p), q) == DeletePath(DeletePath(node, q), p)
  {
    var pq, qp := DeletePath(DeletePath(node, p), q), DeletePath(DeletePath(node, q), p);
    forall pos ensures At(pq, pos) == At(qp, pos) {
      DeletedPositions(DeletePath(node, p), q, pos);
      DeletedPositions(node, p, pos);
      DeletedPositions(DeletePath(node, q), p, pos);
      DeletedPositions(node, q, pos);
    }
    PositionsDetermine(pq, qp);
  }

  ghost predicate Covered(paths: seq<Path>, keys: Path) {
    exists i :: 0 <= i < |paths| && paths[i] <= keys
  }

  /** Stripping a list of paths removes exactly what lies below one of them. */
  lemma {:induction false} StrippedPositions(doc: Json, paths: seq<Path>, pos: Position)
    requires forall i :: 0 <= i < |paths| ==> paths[i] != []
    ensures At(Stripped(doc, paths), pos) == if Covered(paths, Keys(pos)) then None else At(doc, pos)
    decreases |paths|
  {
    if paths != [] {
      StrippedPositions(DeletePath(doc, paths[0]), paths[1..], pos);
      DeletedPositions(doc, paths[0], pos);
      if Covered(paths[1..], Keys(pos)) {
        var i :| 0 <= i < |paths[1..]| && paths[1..][i] <= Keys(pos);
        assert paths[i + 1] <= Keys(pos);
      } else if Covered(paths, Keys(pos)) {
        var i :| 0 <= i < |paths| && paths[i] <= Keys(pos);
        assert i > 0 ==> paths[1..][i - 1] <= Keys(pos);
      }
    }
  }

  /** The result depends on which fields are named, not on their order or on repetitions. */
  lemma FieldOrderDoesNotMatter(doc: Json, fields: seq<string>, others: seq<string>)
    requires forall f :: f in fields <==> f in others
    ensures Stripped(doc, Splits(fields)) == Stripped(doc, Splits(others))
  {
    forall pos ensures At(Stripped(doc, Splits(fields)), pos) == At(Stripped(doc, Splits(others)), pos) {
      StrippedPositions(doc, Splits(fields), pos);
      StrippedPositions(doc, Splits(others), pos);
      CoverSame(fields, others, Keys(pos));
      CoverSame(others, fields, Keys(pos));
    }
    PositionsDetermine(Stripped(doc, Splits(fields)), Stripped(doc, Splits(others)));
  }

  lemma CoverSame(fields: seq<string>, others: seq<string>, keys: Path)
    requires forall f :: f in fields ==> f in others
    ensures Covered(Splits(fields), keys) ==> Covered(Splits(others), keys)
  {
    if Covered(Splits(fields), keys) {
      var i :| 0 <= i < |fields| && Splits(fields)[i] <= keys;
      assert fields[i] in others;
      var j :| 0 <= j < |others| && others[j] == fields[i];
      assert Splits(others)[j] <= keys;
    }
  }

  // ---------- In place ----------

  datatype Kind = NullKind | ScalarKind | ArrKind | ObjKind

  /**
   A node of a decoded document: slices and maps hold references to the nodes below.
   `value` is the tree it stands for and `repr` holds all nodes at and below it.
   */
  class Node {
    var kind: Kind
    var text: string
    var elems: seq<Node>
    var fields: map<string, Node>
    ghost var value: Json
    ghost var repr: set<Node>

    ghost predicate Below(child: Node, v: Json)
      reads this, child, child.repr
      decreases repr, 0
    {
      this in repr && child in child.repr && child.repr <= repr - {this} && child.value == v && child.Valid()
    }

    /** No node is shared: different children have disjoint parts below them. */
    ghost predicate Valid()
      reads this, repr
      decreases repr, 1
    {
      && this in repr
      && match kind
         case NullKind => value == Null
         case ScalarKind => value == Scalar(text)
         case ArrKind =>
           && value.Arr? && |value.elems| == |elems|
           && (forall i :: 0 <= i < |elems| ==>
                 elems[i] in repr && elems[i].repr <= repr && Below(elems[i], value.elems[i]))
           && (forall i, j :: 0 <= i < j < |elems| ==> elems[i].repr !! elems[j].repr)
         case ObjKind =>
           && value.Obj? && value.fields.Keys == fields.Keys
           && (forall k :: k in fields ==>
                 fields[k] in repr && fields[k].repr <= repr && Below(fields[k], value.fields[k]))
           && (forall k, l :: k in fields && l in fields && k != l ==> fields[k].repr !! fields[l].repr)
    }
  }

  /** The recursive deletion on the nodes themselves gives the tree that DeletePath describes. */
  method DeleteJsonPath(node: Node, path: Path)
    requires node.Valid()
    modifies node.repr
    ensures node.repr == old(node.repr) && node.Valid()
    ensures node.value == DeletePath(old(node.value), path)
    decreases node.repr
  {
    if |path| == 0 {
      return;
    }
    match node.kind {
      case ArrKind => DeleteInElems(node, path);
      case ObjKind =>
        if |path| == 1 {
          node.fields := node.fields - {path[0]};
          node.value := Obj(node.value.fields - {path[0]});
        } else if path[0] in node.fields {
          DeleteInField(node, path);
        }
      case _ =>
    }
  }

  method DeleteInField(node: Node, path: Path)
    requires node.Valid() && node.kind.ObjKind? && |path| > 1 && path[0] in node.fields
    modifies node.repr
    ensures node.repr == old(node.repr) && node.Valid()
    ensures node.value == DeletePath(old(node.value), path)
    decreases node.repr, 0
  {
    var child := node.fields[path[0]];
    ghost var was := node.value.fields;
    assert node.Below(child, was[path[0]]);
    forall k | k in node.fields && k != path[0]
      ensures node.Below(node.fields[k], was[k]) && node.fields[k] in node.fields[k].repr
              && node.fields[k].repr !! child.repr
    {
      assert node.Below(node.fields[k], was[k]);
    }
    DeleteJsonPath(child, path[1..]);
    node.value := Obj(was[path[0] := child.value]);
    assert node.Below(child, child.value);
  }

  method DeleteInElems(node: Node, path: Path)
    requires node.Valid() && node.kind.ArrKind? && path != []
    modifies node.repr
    ensures node.repr == old(node.repr) && node.Valid()
    ensures node.value == DeletePath(old(node.value), path)
    decreases node.repr, 0
  {
    hide DeletePath;
    ghost var was := node.value.elems;
    ElemsDeleted(was, path);
    var i := 0;
    while i < |node.elems|
      invariant 0 <= i <= |node.elems| == |was|
      invariant node.repr == old(node.repr) && node.kind == old(node.kind) && node.elems == old(node.elems)
      invariant node in node.repr
      invariant forall j :: 0 <= j < |was| ==> node.elems[j] in node.repr && node.elems[j].repr <= node.repr
      invariant forall j :: 0 <= j < i ==> node.Below(node.elems[j], DeletePath(was[j], path))
      invariant forall j :: i <= j < |was| ==> node.Below(node.elems[j], was[j])
      invariant forall j, k :: 0 <= j < k < |was| ==> node.elems[j].repr !! node.elems[k].repr
    {
      assert node.Below(node.elems[i], was[i]);
      DeleteJsonPath(node.elems[i], path);
      i := i + 1;
    }
    node.value := DeletePath(Arr(was), path);
  }

  lemma ElemsDeleted(elems: seq<Json>, path: Path)
    requires path != []
    ensures DeletePath(Arr(elems), path).Arr? && |DeletePath(Arr(elems), path).elems| == |elems|
    ensures forall i :: 0 <= i < |elems| ==> DeletePath(Arr(elems), path).elems[i] == DeletePath(elems[i], path)
  {
  }
}
