/**
 What Route returns and where it goes on (internal/routing/router.go:153-218,
 268-289), told from the events of a run: the cache entry, the group, the history
 answer or the list of active backends that an answer came from. The two later steps
 of the recovery chain are the subject of Recovery.
 */
module Routes {
  import opened Basics
  import opened Gateway
  import opened Recovery
  import QC = QueryCache
  import SF = SingleFlight
  import FO = ProbeFanOut

  /** Backend i is the first of its group in the list. */
  predicate FirstOfGroup(bs: seq<Backend>, group: string, i: int) {
    0 <= i < |bs| && bs[i].group == group && forall j :: 0 <= j < i ==> bs[j].group != group
  }

  lemma {:induction false} GroupHasFirst(bs: seq<Backend>, group: string) returns (i: int)
    ensures FirstOfGroup(bs, group, i) ==> FirstInGroup(bs, group) == bs[i].url
    ensures !FirstOfGroup(bs, group, i) ==>
              FirstInGroup(bs, group) == "" && forall j :: 0 <= j < |bs| ==> bs[j].group != group
  {
    if bs == [] {
      i := 0;
    } else if bs[0].group == group {
      i := 0;
    } else {
      var k := GroupHasFirst(bs[1..], group);
      assert forall j :: 0 < j < |bs| ==> bs[1..][j - 1] == bs[j];
      i := k + 1;
      assert FirstOfGroup(bs[1..], group, k) <==> FirstOfGroup(bs, group, i) by {
        if FirstOfGroup(bs, group, i) && i > 0 { assert bs[1..][k] == bs[i]; }
      }
    }
  }

  // ---------- Where each step leads ----------

  /** No group from the router means the default group. */
  lemma GroupStep(env: Env, s: State, t: nat, group: string)
    requires Enabled(env, s, External(t, group))
    ensures
      var pc := Next(env, s, External(t, group)).threads[t].pc;
      pc.AtGroup? && (group != "" ==> pc.group == group) && (group == "" ==> pc.group == env.defaultGroup)
  {
  }

  /**
   The group step returns the first active backend of the group. It goes on, to the
   recovery chain if the path names a query and to the first active backend if not,
   only when the list failed, holds no backend of the group, or its first one has no
   URL.
   */
  lemma ResolveStep(env: Env, s: State, t: nat, listed: Option<seq<Backend>>) returns (i: int)
    requires Enabled(env, s, Resolve(t, listed))
    ensures
      var group, id := s.threads[t].pc.group, QueryId(s.threads[t].req.uri);
      var pc := Next(env, s, Resolve(t, listed)).threads[t].pc;
      if listed.Some? && FirstOfGroup(listed.value, group, i) && listed.value[i].url != ""
      then pc == Routed(id, listed.value[i].url, ViaGroup)
      else
        && (listed.None? || FirstOfGroup(listed.value, group, i)
            || forall j :: 0 <= j < |listed.value| ==> listed.value[j].group != group)
        && (id != "" ==> pc == Recovering(id, false)) && (id == "" ==> pc == AtFirstActive)
  {
    i := 0;
    if listed.Some? { i := GroupHasFirst(listed.value, s.threads[t].pc.group); }
    hide FirstInGroup; hide QueryId; hide FirstOfGroup;
  }

  /** The look-up in the cache, and the final fallback. */
  lemma LookupAndFallback(env: Env, s: State, e: Event)
    requires Enabled(env, s, e) && (e.CacheLookup? || e.FirstActive?)
    ensures
      var id := QueryId(s.threads[e.t].req.uri);
      var pc := Next(env, s, e).threads[e.t].pc;
      && (e.CacheLookup? ==>
            if id != "" && QC.Find(s.cache, id).Some? then pc == Routed(id, QC.Find(s.cache, id).value, ViaCache)
            else pc == AtExternal)
      && (e.FirstActive? && e.listed.Some? && e.listed.value != [] ==>
            pc == Routed(id, e.listed.value[0].url, ViaFirstActive))
      && (e.FirstActive? && (e.listed.None? || e.listed.value == []) ==> pc == Routed(id, "", ViaFirstActive))
  {
    hide QueryId; hide QC.Find; hide QC.Touch;
  }

  /**
   The recovery chain returns what history gave, else what a probe gave, else the
   first of the list. If that leaves it without a backend, a KILL QUERY goes on with
   the cache look-up and any other request with the first active backend.
   */
  lemma RecoveryLeads(env: Env, s: State, e: Event)
    requires Enabled(env, s, e) && (e.LookupAnswer? || e.ListForProbe? || e.Probe?)
    ensures
      var was, pc := s.threads[e.t].pc, Next(env, s, e).threads[e.t].pc;
      match e
      case LookupAnswer(t) =>
        var val := SF.PcOf(s.sf, t).reply.val;
        if val != "" then pc == Routed(was.id, val, ViaHistory) else pc == AtList(was.id, was.forKill)
      case ListForProbe(_, listed) =>
        if listed.Some? && listed.value != [] then pc == AtProbe(was.id, was.forKill, listed.value)
        else if was.forKill then pc == AtCache else pc == AtFirstActive
      case Probe(_, _, answer) =>
        if answer != "" then pc == Routed(was.id, answer, ViaProbe)
        else if was.backends != [] && was.backends[0].url != ""
        then pc == Routed(was.id, was.backends[0].url, ViaDefault)
        else if was.forKill then pc == AtCache else pc == AtFirstActive
      case _ => true
  {
    hide FO.MayReturn; hide Urls;
  }

  // ---------- Where an answer comes from, over every run ----------

  ghost predicate PutByRoute(pc: Pc) {
    pc.AtGroup? || (pc.Routed? && (pc.src == ViaGroup || pc.src == ViaFirstActive || pc.src == ViaCache))
  }

  lemma ByRoute(env: Env, s: State, e: Event, t: nat, pc: Pc)
    requires Enabled(env, s, e) && PcIs(Next(env, s, e), t, pc) && !PcIs(s, t, pc) && PutByRoute(pc)
    ensures InRoute(e) && e.t == t && t in s.threads
    ensures pc.AtGroup? ==> e.External?
    ensures pc.Routed? && pc.src == ViaGroup ==> e.Resolve?
    ensures pc.Routed? && pc.src == ViaFirstActive ==> e.FirstActive?
    ensures pc.Routed? && pc.src == ViaCache ==> e.CacheLookup?
  {
    hide QueryId; hide FirstInGroup; hide QC.Find; hide QC.Touch; hide QC.Put; hide FO.MayReturn; hide Urls;
    Frame(env, s, e, t);
  }

  /**
   A request routed through its group had the router's answer g and, later, a list of
   active backends; it got the first backend of the list in group g, or in the default
   group when the router gave none.
   */
  lemma GroupRouteIsRight(env: Env, run: seq<Event>, t: nat)
    returns (i: nat, k: nat, g: string, bs: seq<Backend>, b: nat)
    requires IsRun(env, run) && t in After(env, run).threads
    requires After(env, run).threads[t].pc.Routed? && After(env, run).threads[t].pc.src == ViaGroup
    ensures i < k < |run| && run[i] == External(t, g) && run[k] == Resolve(t, Some(bs))
    ensures b < |bs| && bs[b].url == After(env, run).threads[t].pc.url != ""
    ensures
      var group := if g == "" then env.defaultGroup else g;
      bs[b].group == group && forall j :: 0 <= j < b ==> bs[j].group != group
  {
    hide Next; hide Enabled; hide IsRun; hide After; hide QueryId;
    var pc := After(env, run).threads[t].pc;
    k := PutAt(env, run, t, pc);
    var s := After(env, run[..k]);
    ByRoute(env, s, run[k], t, pc);
    var n := ResolveStep(env, s, t, run[k].listed);
    bs, b := run[k].listed.value, n;
    assert PcIs(s, t, s.threads[t].pc);
    AtResolve(env, s, run[k]);
    i := PutAt(env, run[..k], t, s.threads[t].pc);
    assert run[..k][..i] == run[..i] && run[..k][i] == run[i] && run[..k][..i + 1] == run[..i + 1];
    ByRoute(env, After(env, run[..i]), run[i], t, s.threads[t].pc);
    g := run[i].group;
    GroupStep(env, After(env, run[..i]), t, g);
  }

  lemma AtResolve(env: Env, s: State, e: Event)
    requires Enabled(env, s, e) && e.Resolve?
    ensures e.t in s.threads && s.threads[e.t].pc.AtGroup?
  {
  }

  /** A request routed by the final fallback got the first active backend, or none when the list failed or was empty. */
  lemma FallbackIsFirstActive(env: Env, run: seq<Event>, t: nat) returns (k: nat, listed: Option<seq<Backend>>)
    requires IsRun(env, run) && t in After(env, run).threads
    requires After(env, run).threads[t].pc.Routed? && After(env, run).threads[t].pc.src == ViaFirstActive
    ensures k < |run| && run[k] == FirstActive(t, listed)
    ensures listed.Some? && listed.value != [] ==> After(env, run).threads[t].pc.url == listed.value[0].url
    ensures listed.None? || listed.value == [] ==> After(env, run).threads[t].pc.url == ""
  {
    hide Next; hide Enabled; hide IsRun; hide After; hide QueryId;
    var pc := After(env, run).threads[t].pc;
    k := PutAt(env, run, t, pc);
    ByRoute(env, After(env, run[..k]), run[k], t, pc);
    LookupAndFallback(env, After(env, run[..k]), run[k]);
    listed := run[k].listed;
  }

  // ---------- What a reply leaves behind before it is sent ----------

  ghost predicate PutByReply(pc: Pc) {
    pc.Replied? || pc.CacheWritten? || (pc.Recorded? && pc.q != "")
  }

  /** Which step of a reply puts a request where it is, and from where. */
  lemma ByReply(env: Env, s: State, e: Event, t: nat, pc: Pc)
    requires Enabled(env, s, e) && PcIs(Next(env, s, e), t, pc) && !PcIs(s, t, pc) && PutByReply(pc)
    ensures e.t == t && t in s.threads
    ensures pc.Replied? ==>
              e == Upstream(t, pc.q) && s.threads[t].pc.Routed? && s.threads[t].pc.url == pc.url && pc.url != ""
    ensures pc.CacheWritten? ==> e == WriteCache(t) && s.threads[t].pc == Replied(pc.q, pc.url)
    ensures pc.Recorded? ==> e.InsertHistory? && s.threads[t].pc == CacheWritten(pc.q, pc.url)
  {
    hide QueryId; hide FirstInGroup; hide QC.Find; hide QC.Touch; hide QC.Put; hide FO.MayReturn; hide Urls;
    hide Inserted;
    Frame(env, s, e, t);
  }

  /** Where the request is that a flush sends, and what the cache write and the insert of a reply do. */
  lemma ReplyEffects(env: Env, s: State, e: Event)
    requires Enabled(env, s, e)
    ensures
      var s' := Next(env, s, e);
      && (e.Flush? ==> e.t in s.threads && s.threads[e.t].pc.Recorded?)
      && (e.Elsewhere? ==> e.q in s'.rows)
      && (s'.sent != s.sent ==>
            e.Flush? && e.t in s.threads && s.threads[e.t].pc.Recorded? && s.threads[e.t].pc.q != ""
            && s'.sent == s.sent + {(s.threads[e.t].pc.q, s.threads[e.t].pc.url)})
      && (forall q :: q in s'.rows && q !in s.rows ==>
            || (e.Elsewhere? && e.q == q)
            || (e == InsertHistory(e.t, true) && e.t in s.threads && s.threads[e.t].pc.CacheWritten?
                && s.threads[e.t].pc.q == q && s'.rows[q] == s.threads[e.t].pc.url))
  {
    hide QueryId; hide FirstInGroup; hide QC.Find; hide QC.Touch; hide QC.Put; hide FO.MayReturn; hide Urls;
  }

  ghost predicate SentBy(run: seq<Event>, t: nat, q: string, i: int, j: int, k: int, l: int) {
    && 0 <= i < j < k < l < |run|
    && run[i] == Upstream(t, q) && run[j] == WriteCache(t)
    && run[k].InsertHistory? && run[k].t == t && run[l] == Flush(t)
  }

  /**
   A reply carrying a query id reaches the client only after the cache was written and
   the insert was attempted, in this order, by the request that got it, and only from a
   backend: a request that was routed nowhere is not forwarded.
   */
  lemma {:induction false} WritesComeBeforeFlush(env: Env, run: seq<Event>, q: string, b: string)
    returns (t: nat, i: int, j: int, k: int, l: int)
    requires IsRun(env, run) && (q, b) in After(env, run).sent
    ensures SentBy(run, t, q, i, j, k, l) && b != ""
  {
    hide Next; hide Enabled;
    var n := |run| - 1;
    var prev := run[..n];
    if (q, b) in After(env, prev).sent {
      t, i, j, k, l := WritesComeBeforeFlush(env, prev, q, b);
      assert forall m :: 0 <= m < n ==> prev[m] == run[m];
    } else {
      var s := After(env, prev);
      ReplyEffects(env, s, run[n]);
      t, l := run[n].t, n;
      var pc := s.threads[t].pc;
      hide IsRun; hide After;
      i, j, k := ReplyOrder(env, prev, t, pc.q, pc.url);
      assert forall m :: 0 <= m < n ==> prev[m] == run[m];
    }
  }

  lemma ReplyOrder(env: Env, run: seq<Event>, t: nat, q: string, url: string) returns (i: nat, j: nat, k: nat)
    requires IsRun(env, run) && PcIs(After(env, run), t, Recorded(q, url)) && q != ""
    ensures i < j < k < |run| && url != ""
    ensures run[i] == Upstream(t, q) && run[j] == WriteCache(t) && run[k].InsertHistory? && run[k].t == t
  {
    hide Next; hide Enabled; hide IsRun; hide After;
    k := PutAt(env, run, t, Recorded(q, url));
    ByReply(env, After(env, run[..k]), run[k], t, Recorded(q, url));
    i, j := WriteOrder(env, run[..k], t, q, url);
  }

  lemma WriteOrder(env: Env, run: seq<Event>, t: nat, q: string, url: string) returns (i: nat, j: nat)
    requires IsRun(env, run) && PcIs(After(env, run), t, CacheWritten(q, url))
    ensures i < j < |run| && run[i] == Upstream(t, q) && run[j] == WriteCache(t) && url != ""
  {
    hide Next; hide Enabled; hide IsRun; hide After;
    j := PutAt(env, run, t, CacheWritten(q, url));
    ByReply(env, After(env, run[..j]), run[j], t, CacheWritten(q, url));
    i := PutAt(env, run[..j], t, Replied(q, url));
    assert run[..j][..i] == run[..i] && run[..j][i] == run[i] && run[..j][..i + 1] == run[..i + 1];
    ByReply(env, After(env, run[..i]), run[i], t, Replied(q, url));
  }

  /** Step k of a run is what put the row of q into the table. */
  ghost predicate Records(run: seq<Event>, q: string, k: nat) {
    k < |run| &&
    (run[k] == Elsewhere(run[k].t, q)
     || (run[k] == InsertHistory(run[k].t, true) && exists i :: 0 <= i < k && run[i] == Upstream(run[k].t, q)))
  }

  /**
   A row was there at the start, came from another gateway, or from an insert that did
   not fail, by a request whose upstream reply carried the id.
   */
  lemma {:induction false} RowsHaveAnOrigin(env: Env, run: seq<Event>, q: string) returns (k: nat)
    requires IsRun(env, run) && q in After(env, run).rows
    ensures q in env.recorded || Records(run, q, k)
  {
    hide Next; hide Enabled;
    k := 0;
    if run != [] {
      var n := |run| - 1;
      var prev, s := run[..n], After(env, run[..n]);
      assert forall m :: 0 <= m < n ==> prev[m] == run[m];
      if q in s.rows {
        k := RowsHaveAnOrigin(env, prev, q);
      } else {
        k := n;
        var t := run[n].t;
        ReplyEffects(env, s, run[n]);
        if run[n].InsertHistory? {
          var i, j := WriteOrder(env, prev, t, q, s.threads[t].pc.url);
          assert run[i] == Upstream(t, q);
        }
      }
    }
  }
}
