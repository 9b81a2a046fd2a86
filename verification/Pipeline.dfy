/**
 The routing pipeline (routing-service/internal/engine/pipeline.go): an ordered
 method list, three evaluation loops over it, and the kill switch that wraps the
 first entry of a type. Concurrent use is the subject of PipelineRuns.

 A provider's answer to the request at hand is any value of Outcome; an error or a
 recovered panic is Failed.
 */
module Pipeline {
  import opened Basics

  /** A provider instance. `id` tells instances of one type apart. */
  datatype Provider = Provider(typ: string, id: nat)

  /** An entry of the list. A wrapper may wrap anything, as in the code. */
  datatype Entry = Live(p: Provider) | Disabled(inner: Entry)

  datatype Decision = Decision(group: string, headers: map<string, string>, errors: seq<string>, decided: bool)
  datatype Outcome = Failed | Answer(d: Decision)
  type Request = Provider -> Outcome

  const NO_DECISION := Decision("", map[], [], false)

  function TypeOf(e: Entry): string {
    match e case Live(p) => p.typ case Disabled(inner) => TypeOf(inner)
  }

  function Unwrap(e: Entry): Provider {
    match e case Live(p) => p case Disabled(inner) => Unwrap(inner)
  }

  /** How many wrappers are around a provider. */
  function Depth(e: Entry): nat {
    match e case Live(_) => 0 case Disabled(inner) => 1 + Depth(inner)
  }

  // ---------- Evaluation ----------

  /** The providers that take part: the list with disabled entries removed. */
  function Active(es: seq<Entry>): seq<Provider> {
    if es == [] then []
    else if es[0].Live? then [es[0].p] + Active(es[1..])
    else Active(es[1..])
  }

  predicate Decides(req: Request, p: Provider) {
    req(p).Answer? && req(p).d.decided
  }

  /** The position of the first provider that decides, or the length. */
  function FirstDeciding(req: Request, ps: seq<Provider>): (n: nat)
    ensures n <= |ps|
    ensures n < |ps| ==> Decides(req, ps[n])
    ensures forall i :: 0 <= i < n ==> !Decides(req, ps[i])
  {
    if ps == [] || Decides(req, ps[0]) then 0 else 1 + FirstDeciding(req, ps[1..])
  }

  function OrDefault(group: string, dflt: string): string {
    if group == "" then dflt else group
  }

  /** First decided wins, in list order; the default group otherwise. */
  function Chosen(req: Request, ps: seq<Provider>, dflt: string): string {
    var n := FirstDeciding(req, ps);
    if n < |ps| then OrDefault(req(ps[n]).d.group, dflt) else dflt
  }

  lemma {:induction false} ActiveAppend(a: seq<Entry>, b: seq<Entry>)
    ensures Active(a + b) == Active(a) + Active(b)
  {
    if a == [] {
      assert a + b == b;
    } else {
      assert (a + b)[1..] == a[1..] + b;
      ActiveAppend(a[1..], b);
    }
  }

  /** What a prefix without a decision contributes to the search. */
  lemma {:induction false} SkipUndecided(req: Request, a: seq<Provider>, b: seq<Provider>)
    requires forall p :: p in a ==> !Decides(req, p)
    ensures FirstDeciding(req, a + b) == |a| + FirstDeciding(req, b)
  {
    if a == [] {
      assert a + b == b;
    } else {
      assert a[0] in a && (a + b)[1..] == a[1..] + b;
      SkipUndecided(req, a[1..], b);
    }
  }

  /** Where the loops stop: the active entries before i are undecided and entry i decides. */
  lemma StopsAt(req: Request, es: seq<Entry>, i: nat, dflt: string)
    requires i < |es| && es[i].Live? && Decides(req, es[i].p)
    requires forall p :: p in Active(es[..i]) ==> !Decides(req, p)
    ensures
      var n := FirstDeciding(req, Active(es));
      n == |Active(es[..i])| < |Active(es)| && Active(es)[n] == es[i].p
      && Active(es)[..n] == Active(es[..i])
  {
    assert es == es[..i] + es[i..];
    ActiveAppend(es[..i], es[i..]);
    SkipUndecided(req, Active(es[..i]), Active(es[i..]));
  }

  /** Entry i takes part and decides, and no entry before it does both. */
  predicate Settles(req: Request, es: seq<Entry>, i: int) {
    && 0 <= i < |es| && es[i].Live? && req(es[i].p).Answer? && req(es[i].p).d.decided
    && forall j :: 0 <= j < i && es[j].Live? && req(es[j].p).Answer? ==> !req(es[j].p).d.decided
  }

  /** The group of the entry that settles the request, the default for an empty one or when none does. */
  ghost predicate RightGroup(req: Request, es: seq<Entry>, dflt: string, group: string) {
    && (forall i :: Settles(req, es, i) ==>
          (req(es[i].p).d.group != "" ==> group == req(es[i].p).d.group) &&
          (req(es[i].p).d.group == "" ==> group == dflt))
    && ((forall i :: !Settles(req, es, i)) ==> group == dflt)
    && (dflt != "" ==> group != "")
  }

  lemma OneSettles(req: Request, es: seq<Entry>, i: int, k: int)
    requires Settles(req, es, i) && Settles(req, es, k)
    ensures i == k
  {
    assert !(i < k) && !(k < i);
  }

  /** First-decided-wins over the active providers, said of the entries. */
  lemma ChosenIsRight(req: Request, es: seq<Entry>, dflt: string)
    ensures RightGroup(req, es, dflt, Chosen(req, Active(es), dflt))
    ensures (exists i :: Settles(req, es, i)) <==> FirstDeciding(req, Active(es)) < |Active(es)|
    ensures forall i :: Settles(req, es, i) ==>
              var n := FirstDeciding(req, Active(es));
              n < |Active(es)| && Active(es)[n] == es[i].p && Active(es[..i]) == Active(es)[..n]
  {
    forall i | Settles(req, es, i)
      ensures
        var n := FirstDeciding(req, Active(es));
        n < |Active(es)| && Active(es)[n] == es[i].p && Active(es[..i]) == Active(es)[..n]
    {
      ActiveElements(es[..i]);
      StopsAt(req, es, i, dflt);
    }
    if FirstDeciding(req, Active(es)) < |Active(es)| { SomeoneSettles(req, es); }
  }

  lemma {:induction false} SomeoneSettles(req: Request, es: seq<Entry>)
    requires FirstDeciding(req, Active(es)) < |Active(es)|
    ensures exists i :: Settles(req, es, i)
  {
    if es[0].Live? && Decides(req, es[0].p) {
      assert Settles(req, es, 0);
    } else {
      assert es[0].Live? ==> Active(es)[1..] == Active(es[1..]);
      SomeoneSettles(req, es[1..]);
      var i :| Settles(req, es[1..], i);
      assert forall j :: 0 < j < |es| ==> es[1..][j - 1] == es[j];
      assert Settles(req, es, i + 1);
    }
  }

  lemma RightIsUnique(req: Request, es: seq<Entry>, dflt: string, group: string)
    requires RightGroup(req, es, dflt, group)
    ensures group == Chosen(req, Active(es), dflt)
  {
    ChosenIsRight(req, es, dflt);
    if i :| Settles(req, es, i) { assert Settles(req, es, i); }
  }

  /** An entry that decides with none before it settles the request, and no other does. */
  lemma SettledAt(req: Request, es: seq<Entry>, i: nat)
    requires Settles(req, es, i)
    ensures forall k :: Settles(req, es, k) ==> k == i
  {
    forall k | Settles(req, es, k) ensures k == i { OneSettles(req, es, i, k); }
  }

  method Evaluate(es: seq<Entry>, dflt: string, req: Request) returns (group: string)
    ensures RightGroup(req, es, dflt, group) && group == Chosen(req, Active(es), dflt)
  {
    hide Chosen; hide Active;
    var i := 0;
    while i < |es|
      invariant i <= |es|
      invariant forall j :: 0 <= j < i && es[j].Live? && req(es[j].p).Answer? ==> !req(es[j].p).d.decided
    {
      if es[i].Live? {
        var out := req(es[i].p);
        if out.Answer? && out.d.decided {
          SettledAt(req, es, i);
          group := if out.d.group == "" then dflt else out.d.group;
          RightIsUnique(req, es, dflt, group);
          return;
        }
      }
      i := i + 1;
    }
    RightIsUnique(req, es, dflt, dflt);
    return dflt;
  }

  datatype EvalResult = EvalResult(group: string, methodType: string, decided: bool, hadError: bool)

  /** A provider that takes part failed before entry i. */
  predicate FailedBefore(req: Request, es: seq<Entry>, i: int) {
    exists j :: 0 <= j < i && j < |es| && es[j].Live? && req(es[j].p).Failed?
  }

  /** The outcome flags: who decided, and whether someone failed before that. */
  method EvaluateResult(es: seq<Entry>, dflt: string, req: Request) returns (r: EvalResult)
    ensures RightGroup(req, es, dflt, r.group) && r.group == Chosen(req, Active(es), dflt)
    ensures r.decided <==> exists i :: Settles(req, es, i)
    ensures forall i :: Settles(req, es, i) ==> r.methodType == es[i].p.typ && r.hadError == FailedBefore(req, es, i)
    ensures !r.decided ==> r.methodType == "" && r.hadError == FailedBefore(req, es, |es|)
  {
    hide Chosen; hide Active;
    var hadErr := false;
    var i := 0;
    while i < |es|
      invariant i <= |es| && hadErr == FailedBefore(req, es, i)
      invariant forall j :: 0 <= j < i && es[j].Live? && req(es[j].p).Answer? ==> !req(es[j].p).d.decided
    {
      if es[i].Live? {
        var out := req(es[i].p);
        if out.Failed? {
          hadErr := true;
        } else if out.d.decided {
          SettledAt(req, es, i);
          assert Settles(req, es, i);
          r := EvalResult(if out.d.group == "" then dflt else out.d.group, es[i].p.typ, true, hadErr);
          RightIsUnique(req, es, dflt, r.group);
          return;
        }
      }
      i := i + 1;
    }
    assert forall k :: !Settles(req, es, k);
    RightIsUnique(req, es, dflt, dflt);
    return EvalResult(dflt, "", false, hadErr);
  }

  /** The whole decision: that of the deciding provider with an empty group defaulted. */
  method EvaluateFull(es: seq<Entry>, dflt: string, req: Request) returns (d: Decision)
    ensures RightGroup(req, es, dflt, d.group) && d.group == Chosen(req, Active(es), dflt)
    ensures forall i :: Settles(req, es, i) ==>
              var own := req(es[i].p).d;
              d.headers == own.headers && d.errors == own.errors && d.decided
    ensures (forall i :: !Settles(req, es, i)) ==> d.headers == map[] && d.errors == [] && !d.decided
  {
    hide Chosen; hide Active;
    var i := 0;
    while i < |es|
      invariant i <= |es|
      invariant forall j :: 0 <= j < i && es[j].Live? && req(es[j].p).Answer? ==> !req(es[j].p).d.decided
    {
      if es[i].Live? {
        var out := req(es[i].p);
        if out.Answer? && out.d.decided {
          SettledAt(req, es, i);
          d := if out.d.group == "" then out.d.(group := dflt) else out.d;
          RightIsUnique(req, es, dflt, d.group);
          return;
        }
      }
      i := i + 1;
    }
    RightIsUnique(req, es, dflt, dflt);
    return NO_DECISION.(group := dflt);
  }

  // ---------- The kill switch ----------

  datatype Switch = Disable | Enable

  function Flip(sw: Switch, e: Entry): Entry {
    match sw
    case Disable => if e.Disabled? then e else Disabled(e)
    case Enable => if e.Disabled? then e.inner else e
  }

  /** The position of the first entry of a type, or the length. */
  function FirstOf(es: seq<Entry>, typ: string): (n: nat)
    ensures n <= |es|
    ensures n < |es| ==> TypeOf(es[n]) == typ
    ensures forall i :: 0 <= i < n ==> TypeOf(es[i]) != typ
  {
    if es == [] || TypeOf(es[0]) == typ then 0 else 1 + FirstOf(es[1..], typ)
  }

  /** Only the first entry of the type is touched. */
  function Switched(es: seq<Entry>, typ: string, sw: Switch): seq<Entry> {
    var n := FirstOf(es, typ);
    if n < |es| then es[n := Flip(sw, es[n])] else es
  }

  lemma {:induction false} FirstOfIs(es: seq<Entry>, typ: string, n: nat)
    requires n < |es| && TypeOf(es[n]) == typ && forall i :: 0 <= i < n ==> TypeOf(es[i]) != typ
    ensures FirstOf(es, typ) == n
  {
    if n > 0 {
      assert forall i :: 0 <= i < n - 1 ==> es[1..][i] == es[i + 1];
      FirstOfIs(es[1..], typ, n - 1);
    }
  }

  class MethodPipeline {
    var methods: seq<Entry>
    const defaultGroup: string

    constructor (methods: seq<Entry>, defaultGroup: string)
      ensures this.methods == methods && this.defaultGroup == defaultGroup
    {
      this.methods := methods;
      this.defaultGroup := defaultGroup;
    }

    method Swap(methods: seq<Entry>)
      modifies this
      ensures this.methods == methods
    {
      this.methods := methods;
    }

    method UpdateMethod(typ: string, sw: Switch)
      modifies this
      ensures methods == Switched(old(methods), typ, sw)
    {
      var ms := methods;
      var i := 0;
      while i < |ms|
        invariant i <= |ms| && ms == methods == old(methods)
        invariant forall j :: 0 <= j < i ==> TypeOf(ms[j]) != typ
      {
        if TypeOf(ms[i]) == typ {
          FirstOfIs(ms, typ, i);
          methods := ms[i := Flip(sw, ms[i])];
          return;
        }
        i := i + 1;
      }
    }

    method DisableMethod(typ: string)
      modifies this
      ensures methods == Switched(old(methods), typ, Disable)
    {
      UpdateMethod(typ, Disable);
    }

    method EnableMethod(typ: string)
      modifies this
      ensures methods == Switched(old(methods), typ, Enable)
    {
      UpdateMethod(typ, Enable);
    }

    method DisabledMethods() returns (types: seq<string>)
      ensures types == DisabledTypes(methods)
      ensures forall typ :: typ in types <==>
                exists i :: 0 <= i < |methods| && methods[i].Disabled? && TypeOf(methods[i]) == typ
    {
      DisabledTypesAre(methods);
      types := [];
      var i := 0;
      while i < |methods|
        invariant i <= |methods| && types == DisabledTypes(methods[..i])
      {
        assert methods[..i + 1] == methods[..i] + [methods[i]];
        DisabledTypesSnoc(methods[..i], methods[i]);
        if methods[i].Disabled? {
          types := types + [TypeOf(methods[i])];
        }
        i := i + 1;
      }
      assert methods[..i] == methods;
    }
  }

  function DisabledTypes(es: seq<Entry>): seq<string> {
    if es == [] then []
    else (if es[0].Disabled? then [TypeOf(es[0])] else []) + DisabledTypes(es[1..])
  }

  lemma {:induction false} DisabledTypesAre(es: seq<Entry>)
    ensures forall typ :: typ in DisabledTypes(es) <==>
              exists i :: 0 <= i < |es| && es[i].Disabled? && TypeOf(es[i]) == typ
  {
    if es != [] {
      hide TypeOf;
      DisabledTypesAre(es[1..]);
      forall typ
        ensures typ in DisabledTypes(es) <==> exists i :: 0 <= i < |es| && es[i].Disabled? && TypeOf(es[i]) == typ
      {
        if i :| 0 <= i < |es| && es[i].Disabled? && TypeOf(es[i]) == typ {
          assert i > 0 ==> es[1..][i - 1] == es[i];
        }
        if i :| 0 <= i < |es[1..]| && es[1..][i].Disabled? && TypeOf(es[1..][i]) == typ {
          assert es[i + 1].Disabled? && TypeOf(es[i + 1]) == typ;
        }
      }
    }
  }

  lemma DisabledTypesCons(e: Entry, es: seq<Entry>)
    ensures DisabledTypes([e] + es) == (if e.Disabled? then [TypeOf(e)] else []) + DisabledTypes(es)
  {
    hide TypeOf;
    assert ([e] + es)[1..] == es;
  }

  lemma {:induction false} DisabledTypesSnoc(es: seq<Entry>, e: Entry)
    ensures DisabledTypes(es + [e]) == DisabledTypes(es) + if e.Disabled? then [TypeOf(e)] else []
  {
    if es == [] {
      assert es + [e] == [e] + [];
      DisabledTypesCons(e, []);
    } else {
      hide DisabledTypes; hide TypeOf;
      var last := if e.Disabled? then [TypeOf(e)] else [];
      var first := if es[0].Disabled? then [TypeOf(es[0])] else [];
      DisabledTypesSnoc(es[1..], e);
      assert es + [e] == [es[0]] + (es[1..] + [e]) && es == [es[0]] + es[1..];
      DisabledTypesCons(es[0], es[1..] + [e]);
      DisabledTypesCons(es[0], es[1..]);
      assert first + (DisabledTypes(es[1..]) + last) == first + DisabledTypes(es[1..]) + last;
    }
  }

  // ---------- What the kill switch means for routing ----------

  lemma SwitchKeepsShape(es: seq<Entry>, typ: string, sw: Switch)
    ensures |Switched(es, typ, sw)| == |es|
    ensures forall i :: 0 <= i < |es| ==> Unwrap(Switched(es, typ, sw)[i]) == Unwrap(es[i])
    ensures FirstOf(Switched(es, typ, sw), typ) == FirstOf(es, typ)
  {
    var n := FirstOf(es, typ);
    if n < |es| { FirstOfIs(Switched(es, typ, sw), typ, n); }
  }

  /** Disabling routes as if the first entry of the type had been taken out of the list. */
  lemma DisableTakesFirstOut(es: seq<Entry>, typ: string)
    ensures
      var n := FirstOf(es, typ);
      Active(Switched(es, typ, Disable)) == if n < |es| then Active(es[..n] + es[n + 1..]) else Active(es)
  {
    var n := FirstOf(es, typ);
    if n < |es| {
      var d := Flip(Disable, es[n]);
      assert es[n := d] == es[..n] + ([d] + es[n + 1..]);
      ActiveAppend(es[..n], [d] + es[n + 1..]);
      assert ([d] + es[n + 1..])[1..] == es[n + 1..];
      ActiveAppend(es[..n], es[n + 1..]);
    }
  }

  /** Enabling after disabling gives the list back exactly when the entry was not disabled before. */
  lemma EnableUndoesDisableIff(es: seq<Entry>, typ: string)
    ensures Switched(Switched(es, typ, Disable), typ, Enable) == es
            <==> (FirstOf(es, typ) < |es| ==> es[FirstOf(es, typ)].Live?)
  {
    SwitchKeepsShape(es, typ, Disable);
    var n := FirstOf(es, typ);
    if n < |es| {
      var d := Switched(es, typ, Disable);
      assert Switched(d, typ, Enable)[n] == Flip(Enable, d[n]);
      if es[n].Disabled? {
        assert d == es;
        assert Depth(es[n]) == 1 + Depth(es[n].inner);
      } else {
        assert Switched(d, typ, Enable) == es;
      }
    }
  }

  /** A type is out of service after one disable exactly when the later entries of it already were. */
  lemma KillIsCompleteIff(es: seq<Entry>, typ: string)
    ensures
      (forall p :: p in Active(Switched(es, typ, Disable)) ==> p.typ != typ)
      <==> (forall i :: FirstOf(es, typ) < i < |es| && TypeOf(es[i]) == typ ==> es[i].Disabled?)
  {
    var n, d := FirstOf(es, typ), Switched(es, typ, Disable);
    ActiveElements(d);
    if n < |es| {
      assert forall i :: 0 <= i < |es| && i != n ==> d[i] == es[i];
      assert d[n].Disabled?;
    }
    if i :| n < i < |es| && TypeOf(es[i]) == typ && !es[i].Disabled? {
      assert d[i] == es[i] && d[i].p in Active(d);
    }
  }

  lemma {:induction false} ActiveElements(es: seq<Entry>)
    ensures forall p :: p in Active(es) <==> exists i :: 0 <= i < |es| && es[i] == Live(p)
  {
    if es != [] {
      ActiveElements(es[1..]);
      forall p ensures p in Active(es) <==> exists i :: 0 <= i < |es| && es[i] == Live(p) {
        if i :| 0 <= i < |es| && es[i] == Live(p) {
          assert i > 0 ==> es[1..][i - 1] == Live(p);
        }
        if p in Active(es[1..]) {
          var i :| 0 <= i < |es[1..]| && es[1..][i] == Live(p);
          assert es[i + 1] == Live(p);
        }
      }
    }
  }
}
