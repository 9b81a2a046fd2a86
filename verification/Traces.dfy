/**
 What the gateway can do from a given state: sequences of events, and the events of
 whole requests with the states they lead through.
 */
module Traces {
  import opened Basics
  import opened Gateway
  import QC = QueryCache
  import SF = SingleFlight

  ghost predicate Step(env: Env, s: State, e: Event, s': State) {
    Enabled(env, s, e) && s' == Next(env, s, e)
  }

  /** Taking the events of `evs` one after the other from s ends in s'. */
  ghost predicate Leads(env: Env, s: State, evs: seq<Event>, s': State)
    decreases |evs|
  {
    if evs == [] then s == s'
    else Enabled(env, s, evs[0]) && Leads(env, Next(env, s, evs[0]), evs[1..], s')
  }

  lemma Nowhere(env: Env, s: State)
    ensures Leads(env, s, [], s)
  {
  }

  lemma LeadsOn(env: Env, s: State, e: Event, s1: State, evs: seq<Event>, s': State)
    requires Step(env, s, e, s1)
    ensures Leads(env, s, [e] + evs, s') <==> Leads(env, s1, evs, s')
  {
    hide Next; hide Enabled;
    assert ([e] + evs)[1..] == evs;
  }

  lemma {:induction false} LeadsAppend(env: Env, s: State, evs: seq<Event>, s1: State, more: seq<Event>, s': State)
    requires Leads(env, s, evs, s1) && Leads(env, s1, more, s')
    ensures Leads(env, s, evs + more, s')
    decreases |evs|
  {
    hide Next; hide Enabled;
    if evs == [] {
      assert evs + more == more;
    } else {
      LeadsAppend(env, Next(env, s, evs[0]), evs[1..], s1, more, s');
      assert (evs + more)[1..] == evs[1..] + more;
    }
  }

  /** A trace with its last event taken. */
  lemma Then(env: Env, s0: State, evs: seq<Event>, s: State, e: Event, s': State) returns (evs': seq<Event>)
    requires Leads(env, s0, evs, s) && Step(env, s, e, s')
    ensures evs' == evs + [e] && Leads(env, s0, evs', s')
  {
    hide Next; hide Enabled;
    evs' := evs + [e];
    assert [e][1..] == [];
    LeadsAppend(env, s0, evs, s, [e], s');
  }

  /** A run followed by a trace from its last state is a run. */
  lemma {:induction false} Extend(env: Env, run: seq<Event>, evs: seq<Event>, s': State)
    requires IsRun(env, run) && Leads(env, After(env, run), evs, s')
    ensures IsRun(env, run + evs) && After(env, run + evs) == s'
    decreases |evs|
  {
    hide Next; hide Enabled;
    if evs == [] {
      assert run + evs == run;
    } else {
      assert (run + [evs[0]])[..|run|] == run;
      Extend(env, run + [evs[0]], evs[1..], s');
      assert run + evs == run + [evs[0]] + evs[1..];
    }
  }

  lemma StepKeepsInv(env: Env, s: State, e: Event, s': State)
    requires Inv(env, s) && Step(env, s, e, s')
    ensures Inv(env, s')
  {
    hide Inv; hide Next; hide Enabled;
    NextKeepsInv(env, s, e);
  }

  lemma {:induction false} LeadsKeepInv(env: Env, s: State, evs: seq<Event>, s': State)
    requires Inv(env, s) && Leads(env, s, evs, s')
    ensures Inv(env, s') && s.touched <= s'.touched
    decreases |evs|
  {
    hide Inv; hide Next; hide Enabled;
    if evs != [] {
      NextKeepsInv(env, s, evs[0]);
      Frame(env, s, evs[0], 0);
      LeadsKeepInv(env, Next(env, s, evs[0]), evs[1..], s');
    }
  }

  // ---------- Single steps, each with the state it leads to ----------

  /** A request whose look-up misses, with a router that names a group served by b. */
  lemma GroupSteps(env: Env, s: State, t: nat, b: string)
    requires t in s.threads && SF.PcOf(s.sf, t).Idle? && b != ""
    ensures
      var id := QueryId(s.threads[t].req.uri);
      && (s.threads[t].pc == AtCache && (id == "" || QC.Find(s.cache, id).None?) ==>
            Step(env, s, CacheLookup(t), At(s, t, AtExternal)))
      && (s.threads[t].pc == AtExternal ==> Step(env, s, External(t, "g"), At(s, t, AtGroup("g"))))
      && (s.threads[t].pc == AtGroup("g") ==>
            Step(env, s, Resolve(t, Some([Backend(b, "g")])), At(s, t, Routed(id, b, ViaGroup))))
  {
    hide QC.Find; hide QC.Touch; hide QueryId;
  }

  lemma HitStep(env: Env, s: State, t: nat)
    requires t in s.threads && s.threads[t].pc == AtCache
    requires QueryId(s.threads[t].req.uri) != "" && QC.Find(s.cache, QueryId(s.threads[t].req.uri)).Some?
    ensures
      var id := QueryId(s.threads[t].req.uri);
      Step(env, s, CacheLookup(t),
           At(s.(cache := QC.Touch(s.cache, id), touched := s.touched + [id]), t,
              Routed(id, QC.Find(s.cache, id).value, ViaCache)))
  {
    hide QC.Find; hide QC.Touch; hide QueryId;
  }

  /** Only t moves, and it makes no history look-up. */
  ghost predicate OnlyBy(evs: seq<Event>, t: nat) {
    forall e :: e in evs ==> e.t == t && !e.ReadHistory?
  }

  /** From the look-up of a request that misses to any backend the router may name. */
  lemma StrayFrom(env: Env, s: State, t: nat, stray: string) returns (evs: seq<Event>, s': State)
    requires t in s.threads && s.threads[t].pc == AtCache && SF.PcOf(s.sf, t).Idle? && stray != ""
    requires QueryId(s.threads[t].req.uri) == "" || QC.Find(s.cache, QueryId(s.threads[t].req.uri)).None?
    ensures Leads(env, s, evs, s') && OnlyBy(evs, t) && forall e :: e in evs ==> !e.Arrive?
    ensures s' == At(s, t, Routed(QueryId(s.threads[t].req.uri), stray, ViaGroup))
  {
    hide Leads; hide Next; hide Enabled; hide Step; hide QC.Find; hide QueryId;
    var id := QueryId(s.threads[t].req.uri);
    evs := [];
    Nowhere(env, s);
    GroupSteps(env, s, t, stray);
    var s1 := At(s, t, AtExternal);
    evs := Then(env, s, evs, s, CacheLookup(t), s1);
    GroupSteps(env, s1, t, stray);
    var s2 := At(s, t, AtGroup("g"));
    assert s2 == At(s1, t, AtGroup("g"));
    evs := Then(env, s, evs, s1, External(t, "g"), s2);
    GroupSteps(env, s2, t, stray);
    s' := At(s, t, Routed(id, stray, ViaGroup));
    assert s' == At(s2, t, Routed(id, stray, ViaGroup));
    evs := Then(env, s, evs, s2, Resolve(t, Some([Backend(stray, "g")])), s');
  }

  // ---------- A statement that issues a query, from its arrival to its reply ----------

  const STATEMENT_URI := "/v1/statement"

  lemma StatementUriHasNoId()
    ensures QueryId(STATEMENT_URI) == ""
  {
    assert STATEMENT_URI[4] == 's' && QUERY_PREFIX[4] == 'q';
  }

  ghost function WithStatement(s: State, t: nat, pc: Pc): State {
    s.(threads := s.threads[t := Thread(Statement("", STATEMENT_URI), pc)])
  }

  lemma Moved(s: State, t: nat, pc: Pc, pc': Pc)
    ensures At(WithStatement(s, t, pc), t, pc') == WithStatement(s, t, pc')
  {
    var th := Thread(Statement("", STATEMENT_URI), pc);
    assert s.threads[t := th][t := th.(pc := pc')] == s.threads[t := th.(pc := pc')];
  }

  lemma StatementArrives(env: Env, s: State, t: nat)
    requires t !in s.threads && SF.PcOf(s.sf, t).Idle?
    ensures Step(env, s, Arrive(t, Statement("", STATEMENT_URI)), WithStatement(s, t, AtCache))
  {
  }

  /** The upstream reply carries q, and its owner is cached. */
  lemma StatementReplies(env: Env, s: State, t: nat, q: string)
    requires q != "" && env.owner(q) != ""
    ensures
      var b := env.owner(q);
      && Step(env, WithStatement(s, t, Routed("", b, ViaGroup)), Upstream(t, q), WithStatement(s, t, Replied(q, b)))
      && Step(env, WithStatement(s, t, Replied(q, b)), WriteCache(t),
              WithStatement(s.(cache := QC.Put(s.cache, q, b, QC.DEFAULT_CACHE_SIZE), touched := s.touched + [q]),
                            t, CacheWritten(q, b)))
  {
    hide QC.Put;
    var b := env.owner(q);
    Moved(s, t, Routed("", b, ViaGroup), Replied(q, b));
    var written := s.(cache := QC.Put(s.cache, q, b, QC.DEFAULT_CACHE_SIZE), touched := s.touched + [q]);
    Moved(written, t, Replied(q, b), CacheWritten(q, b));
  }

  /** Its row is inserted, and the reply is flushed. */
  lemma StatementRecords(env: Env, s: State, t: nat, q: string)
    requires t !in s.threads && q != "" && env.owner(q) != ""
    ensures
      var b := env.owner(q);
      && Step(env, WithStatement(s, t, CacheWritten(q, b)), InsertHistory(t, true),
              WithStatement(s.(rows := Inserted(s.rows, q, b)), t, Recorded(q, b)))
      && Step(env, WithStatement(s, t, Recorded(q, b)), Flush(t), s.(sent := s.sent + {(q, b)}))
  {
    hide Inserted;
    var b := env.owner(q);
    Moved(s.(rows := Inserted(s.rows, q, b)), t, CacheWritten(q, b), Recorded(q, b));
    assert WithStatement(s, t, Recorded(q, b)).threads - {t} == s.threads;
  }

  /** s after the whole statement request on a thread of its own that issues q. */
  ghost function Issued(env: Env, s: State, q: string): State {
    s.(cache := QC.Put(s.cache, q, env.owner(q), QC.DEFAULT_CACHE_SIZE), touched := s.touched + [q],
       rows := Inserted(s.rows, q, env.owner(q)), sent := s.sent + {(q, env.owner(q))})
  }

  lemma IssueRoutes(env: Env, s: State, t: nat, b: string) returns (evs: seq<Event>)
    requires t !in s.threads && SF.PcOf(s.sf, t).Idle? && b != ""
    ensures Leads(env, s, evs, WithStatement(s, t, Routed("", b, ViaGroup))) && OnlyBy(evs, t)
  {
    hide Leads; hide Next; hide Enabled; hide Step; hide QC.Find;
    StatementUriHasNoId();
    Nowhere(env, s);
    StatementArrives(env, s, t);
    var s1 := WithStatement(s, t, AtCache);
    var first := Then(env, s, [], s, Arrive(t, Statement("", STATEMENT_URI)), s1);
    var more, s2 := StrayFrom(env, s1, t, b);
    assert s2 == WithStatement(s, t, Routed("", b, ViaGroup));
    LeadsAppend(env, s, first, s1, more, s2);
    evs := first + more;
  }

  lemma IssueReplies(env: Env, s: State, t: nat, q: string) returns (evs: seq<Event>, written: State)
    requires t !in s.threads && q != "" && env.owner(q) != ""
    ensures Leads(env, WithStatement(s, t, Routed("", env.owner(q), ViaGroup)), evs,
                  WithStatement(written, t, CacheWritten(q, env.owner(q))))
    ensures OnlyBy(evs, t)
    ensures written == s.(cache := QC.Put(s.cache, q, env.owner(q), QC.DEFAULT_CACHE_SIZE), touched := s.touched + [q])
  {
    hide Leads; hide Step; hide QC.Put; hide WithStatement;
    var b := env.owner(q);
    written := s.(cache := QC.Put(s.cache, q, b, QC.DEFAULT_CACHE_SIZE), touched := s.touched + [q]);
    var s0 := WithStatement(s, t, Routed("", b, ViaGroup));
    Nowhere(env, s0);
    StatementReplies(env, s, t, q);
    evs := Then(env, s0, [], s0, Upstream(t, q), WithStatement(s, t, Replied(q, b)));
    evs := Then(env, s0, evs, WithStatement(s, t, Replied(q, b)), WriteCache(t),
                WithStatement(written, t, CacheWritten(q, b)));
  }

  lemma IssueRecords(env: Env, s: State, t: nat, q: string) returns (evs: seq<Event>)
    requires t !in s.threads && q != "" && env.owner(q) != ""
    ensures OnlyBy(evs, t)
    ensures Leads(env, WithStatement(s, t, CacheWritten(q, env.owner(q))), evs,
                  s.(rows := Inserted(s.rows, q, env.owner(q)), sent := s.sent + {(q, env.owner(q))}))
  {
    hide Leads; hide Step; hide Inserted; hide WithStatement;
    var b := env.owner(q);
    var s0, s1 := WithStatement(s, t, CacheWritten(q, b)), s.(rows := Inserted(s.rows, q, b));
    Nowhere(env, s0);
    StatementRecords(env, s, t, q);
    StatementRecords(env, s1, t, q);
    evs := Then(env, s0, [], s0, InsertHistory(t, true), WithStatement(s1, t, Recorded(q, b)));
    evs := Then(env, s0, evs, WithStatement(s1, t, Recorded(q, b)), Flush(t), s1.(sent := s.sent + {(q, b)}));
  }

  lemma Issue(env: Env, s: State, t: nat, q: string) returns (evs: seq<Event>)
    requires q != "" && env.owner(q) != "" && t !in s.threads && SF.PcOf(s.sf, t).Idle?
    ensures Leads(env, s, evs, Issued(env, s, q)) && OnlyBy(evs, t)
  {
    hide Next; hide Enabled; hide Step; hide QC.Put; hide Inserted; hide Leads;
    var b := env.owner(q);
    var routed := IssueRoutes(env, s, t, b);
    var replied, written := IssueReplies(env, s, t, q);
    var recorded := IssueRecords(env, written, t, q);
    LeadsAppend(env, s, routed, WithStatement(s, t, Routed("", b, ViaGroup)), replied,
                WithStatement(written, t, CacheWritten(q, b)));
    LeadsAppend(env, s, routed + replied, WithStatement(written, t, CacheWritten(q, b)), recorded, Issued(env, s, q));
    evs := routed + replied + recorded;
  }
}
