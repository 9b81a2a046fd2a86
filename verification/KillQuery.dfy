/**
 When a KILL QUERY is certain to reach the backend of its query
 (internal/routing/router.go:154-161, internal/routing/recovery.go:56-106).

 The id of a KILL QUERY goes through the recovery chain without a look at the
 cache, and its history look-up may be shared with one that is already in flight.
 When the leader's SELECT takes effect is an event of its own, between the start of
 the look-up and its return. The statements below hold of every state the gateway can reach, and let all other
 requests go on while the KILL QUERY is handled; only history look-ups are taken
 not to fail.
 */
module KillQuery {
  import opened Basics
  import opened Gateway
  import opened Traces
  import QC = QueryCache
  import SF = SingleFlight

  predicate Answers(e: Event) {
    e.ReadHistory? ==> !e.reply.failed
  }

  /** A KILL QUERY for q arriving on thread t in state s can be routed to `url`. */
  ghost predicate KillMayRoute(env: Env, s: State, t: nat, uri: string, q: string, url: string) {
    exists evs, s' ::
      && Leads(env, s, [Arrive(t, Statement(q, uri))] + evs, s')
      && (forall e :: e in evs ==> Answers(e) && (e.Arrive? ==> e.t != t))
      && t in s'.threads && s'.threads[t].pc.Routed? && s'.threads[t].pc.url == url
  }

  /** What record c will tell its callers is settled: its leader has read the table, or has already returned. */
  function Settled(s: State, c: nat): Option<SF.Reply>
    requires c < |s.sf.calls|
  {
    var call := s.sf.calls[c];
    if call.reply.Some? then call.reply
    else if call.leader in s.fetched then Some(s.fetched[call.leader])
    else None
  }

  /** A record for q is in flight, settled without a backend, and can still be joined. */
  ghost predicate Stale(s: State, q: string) {
    q in s.sf.inflight && s.sf.inflight[q] < |s.sf.calls| &&
    var c := s.sf.inflight[q];
    Settled(s, c).Some? && Settled(s, c).value.val == "" && !SF.PcOf(s.sf, s.sf.calls[c].leader).InDelete?
  }

  /** Record c can only bring back the owner, or a failure when failures are let through. */
  ghost predicate Fresh(s: State, c: nat, owner: string, failures: bool) {
    c < |s.sf.calls| &&
    (Settled(s, c).Some? ==> Settled(s, c).value.val == owner || (failures && Settled(s, c).value.failed))
  }

  // ---------- A look-up that has not read yet sees the row ----------

  /** A thread that reads the table, or returns from it, is the leader of its own record. */
  lemma OwnRecord(env: Env, s: State, t: nat, c: nat)
    requires Inv(env, s) && c < |s.sf.calls| && s.sf.calls[c].leader == t && s.sf.calls[c].reply.None?
    ensures SF.PcOf(s.sf, t).Running? && SF.PcOf(s.sf, t).c == c && SF.PcOf(s.sf, t).key == s.sf.calls[c].key
  {
    assert SF.CallOk(s.sf, c) && SF.PcOk(s.sf, t);
  }

  lemma ReadKeepsFresh(env: Env, s: State, e: Event, c: nat, q: string, failures: bool)
    requires Inv(env, s) && Enabled(env, s, e) && e.ReadHistory? && q in s.rows && (failures || Answers(e))
    requires Fresh(s, c, env.owner(q), failures) && s.sf.calls[c].key == q
    ensures Fresh(Next(env, s, e), c, env.owner(q), failures) && Next(env, s, e).sf == s.sf
  {
    hide Next; hide Enabled;
    FetchedStep(env, s, e);
    if s.sf.calls[c].leader == e.t && s.sf.calls[c].reply.None? {
      OwnRecord(env, s, e.t, c);
      assert ThreadOk(env, s, e.t);
      RowsOk(env, s);
    }
  }

  lemma CoalesceKeepsFresh(env: Env, s: State, e: Event, c: nat, owner: string, failures: bool)
    requires Inv(env, s) && Enabled(env, s, e) && e.Coalesce? && Fresh(s, c, owner, failures)
    ensures Fresh(Next(env, s, e), c, owner, failures) && Next(env, s, e).sf.calls[c].key == s.sf.calls[c].key
  {
    hide Next; hide Enabled;
    FetchedStep(env, s, e);
    SfStep(env, s, e);
    assert SF.PcOk(s.sf, e.t);
    if s.sf.calls[c].reply.None? { OwnRecord(env, s, s.sf.calls[c].leader, c); }
    hide Inv;
  }

  lemma FreshStep(env: Env, s: State, e: Event, c: nat, q: string, failures: bool)
    requires Inv(env, s) && Enabled(env, s, e) && q in s.rows && (failures || Answers(e))
    requires Fresh(s, c, env.owner(q), failures) && s.sf.calls[c].key == q
    ensures Fresh(Next(env, s, e), c, env.owner(q), failures) && Next(env, s, e).sf.calls[c].key == q
  {
    hide Next; hide Enabled; hide Inv;
    if e.ReadHistory? {
      ReadKeepsFresh(env, s, e, c, q, failures);
    } else if e.Coalesce? {
      CoalesceKeepsFresh(env, s, e, c, env.owner(q), failures);
    } else {
      SfStep(env, s, e);
      FetchedStep(env, s, e);
    }
  }

  lemma {:induction false} FreshRun(env: Env, run: seq<Event>, more: seq<Event>, q: string, c: nat)
    requires IsRun(env, run) && IsRun(env, run + more) && q in After(env, run).rows
    requires Fresh(After(env, run), c, env.owner(q), true) && After(env, run).sf.calls[c].key == q
    ensures Fresh(After(env, run + more), c, env.owner(q), true) && After(env, run + more).sf.calls[c].key == q
    ensures q in After(env, run + more).rows
  {
    hide Next; hide Enabled; hide Inv; hide Fresh;
    if more == [] {
      assert run + more == run;
    } else {
      var n := |more| - 1;
      assert (run + more)[..|run| + n] == run + more[..n];
      FreshRun(env, run, more[..n], q, c);
      RunKeepsInv(env, run + more[..n]);
      Frame(env, After(env, run + more[..n]), more[n], 0);
      FreshStep(env, After(env, run + more[..n]), more[n], c, q, true);
    }
  }

  /**
   A look-up whose SELECT had not yet taken effect when its row was already in the
   table brings back the owner to every caller that shares it, unless it failed.
   */
  lemma UnreadRecordSeesTheRow(env: Env, run: seq<Event>, more: seq<Event>, q: string, c: nat, u: nat)
    requires IsRun(env, run) && IsRun(env, run + more) && q in After(env, run).rows
    requires c < |After(env, run).sf.calls| && After(env, run).sf.calls[c].key == q
    requires Settled(After(env, run), c).None?
    ensures
      var pc := SF.PcOf(After(env, run + more).sf, u);
      pc.Returned? && pc.c == c && !pc.reply.failed ==> pc.reply.val == env.owner(q)
  {
    FreshRun(env, run, more, q, c);
    RunKeepsInv(env, run + more);
    hide IsRun; hide After;
    assert SF.PcOk(After(env, run + more).sf, u);
  }

  // ---------- Certain when the row is there and nothing stale can be joined ----------

  /** What the record in flight for q can still tell a caller that joins it. */
  ghost predicate Joinable(s: State, q: string, owner: string) {
    q in s.sf.inflight ==>
      && s.sf.inflight[q] < |s.sf.calls|
      && (Fresh(s, s.sf.inflight[q], owner, false) || SF.PcOf(s.sf, s.sf.calls[s.sf.inflight[q]].leader).InDelete?)
  }

  /** What the pending call of t can bring back. */
  ghost predicate Pending(s: State, t: nat, q: string, owner: string) {
    var pc := SF.PcOf(s.sf, t);
    !pc.Idle? && pc.key == q && (pc.WantEnter? || pc.InEnter? || Fresh(s, pc.c, owner, false))
  }

  /** A new record has not been read for. */
  lemma NewRecord(env: Env, s: State, e: Event, key: string, owner: string)
    requires Inv(env, s) && Enabled(env, s, e) && e.Coalesce? && e.step.JoinOrLead?
    requires SF.PcOf(s.sf, e.t).InEnter? && SF.PcOf(s.sf, e.t).key == key && key !in s.sf.inflight
    ensures Fresh(Next(env, s, e), |s.sf.calls|, owner, false)
  {
    hide Next; hide Enabled;
    FetchedStep(env, s, e);
    SfStep(env, s, e);
    assert ReadOk(env, s, e.t);
  }

  /** A step of the singleflight leaves the record in flight for q in place, deletes it, or makes a new one. */
  lemma InflightMoves(sf: SF.State, step: SF.Event, q: string)
    requires SF.Inv(sf) && SF.Enabled(sf, step)
    ensures
      var sf' := SF.Next(sf, step);
      if q in sf.inflight then
        || q !in sf'.inflight
        || (var c := sf.inflight[q];
            && c < |sf.calls| && sf'.inflight[q] == c < |sf'.calls| && sf'.calls[c].leader == sf.calls[c].leader
            && (SF.PcOf(sf, sf.calls[c].leader).InDelete? ==> SF.PcOf(sf', sf.calls[c].leader).InDelete?))
      else
        || q !in sf'.inflight
        || (step.JoinOrLead? && SF.PcOf(sf, step.t) == SF.InEnter(q) && sf'.inflight[q] == |sf.calls| < |sf'.calls|)
  {
    assert SF.PcOk(sf, step.t);
    if q in sf.inflight {
      assert SF.InflightOk(sf, q);
      assert SF.PcOk(sf, sf.calls[sf.inflight[q]].leader);
    }
  }

  lemma JoinableStep(env: Env, s: State, e: Event, q: string)
    requires Inv(env, s) && Enabled(env, s, e) && Answers(e) && q in s.rows && Joinable(s, q, env.owner(q))
    ensures Joinable(Next(env, s, e), q, env.owner(q))
  {
    SfInvOf(env, s);
    if q in s.sf.inflight { assert SF.InflightOk(s.sf, q); }
    hide Next; hide Enabled; hide Inv; hide Fresh; hide SF.Next; hide SF.Enabled; hide SF.Inv;
    var step := SfMoves(env, s, e);
    if step.Some? { InflightMoves(s.sf, step.value, q); }
    if q in s.sf.inflight {
      if Fresh(s, s.sf.inflight[q], env.owner(q), false) { FreshStep(env, s, e, s.sf.inflight[q], q, false); }
    } else if q in Next(env, s, e).sf.inflight {
      NewRecord(env, s, e, q, env.owner(q));
    }
  }

  /** Where a caller that has not yet a record goes, and one that has stays with it. */
  lemma CallerMoves(sf: SF.State, step: SF.Event, t: nat, q: string)
    requires SF.Inv(sf) && SF.Enabled(sf, step) && (step.t == t ==> !step.Begin? && !step.Forget?)
    requires !SF.PcOf(sf, t).Idle? && SF.PcOf(sf, t).key == q
    ensures
      var pc, pc' := SF.PcOf(sf, t), SF.PcOf(SF.Next(sf, step), t);
      !pc'.Idle? && pc'.key == q &&
      if pc.WantEnter? || pc.InEnter? then
        || pc'.WantEnter? || pc'.InEnter?
        || (step == SF.JoinOrLead(t) && q in sf.inflight
            && pc'.c == sf.inflight[q] < |sf.calls| && sf.calls[pc'.c].key == q
            && !SF.PcOf(sf, sf.calls[pc'.c].leader).InDelete?)
        || (step == SF.JoinOrLead(t) && q !in sf.inflight && pc.InEnter? && pc'.c == |sf.calls|)
      else
        !pc'.WantEnter? && !pc'.InEnter? && pc'.c == pc.c
  {
    assert SF.PcOk(sf, t);
    if q in sf.inflight {
      assert SF.InflightOk(sf, q);
      assert SF.PcOk(sf, sf.calls[sf.inflight[q]].leader);
    }
  }

  lemma PendingStep(env: Env, s: State, e: Event, t: nat, q: string)
    requires Inv(env, s) && Enabled(env, s, e) && Answers(e) && q in s.rows
    requires Joinable(s, q, env.owner(q)) && Pending(s, t, q, env.owner(q))
             && (e.t == t ==> e.Coalesce? || e.ReadHistory?)
    ensures Pending(Next(env, s, e), t, q, env.owner(q))
  {
    SfInvOf(env, s);
    hide Next; hide Enabled; hide Inv; hide SF.Next; hide SF.Enabled; hide SF.Inv;
    var owner, pc, pc' := env.owner(q), SF.PcOf(s.sf, t), SF.PcOf(Next(env, s, e).sf, t);
    var step := SfMoves(env, s, e);
    if e.ReadHistory? { FetchedStep(env, s, e); }
    if step.Some? { CallerMoves(s.sf, step.value, t, q); }
    if !pc.WantEnter? && !pc.InEnter? {
      RecordOfKey(env, s, t, q);
      FreshStep(env, s, e, pc.c, q, false);
    } else if !pc'.WantEnter? && !pc'.InEnter? {
      if q in s.sf.inflight {
        FreshStep(env, s, e, s.sf.inflight[q], q, false);
      } else {
        NewRecord(env, s, e, q, owner);
      }
    }
  }

  /** The record a caller holds is a record of its key. */
  lemma RecordOfKey(env: Env, s: State, t: nat, q: string)
    requires Inv(env, s)
    requires
      var pc := SF.PcOf(s.sf, t);
      !pc.Idle? && !pc.WantEnter? && !pc.InEnter? && pc.key == q && pc.c < |s.sf.calls|
    ensures s.sf.calls[SF.PcOf(s.sf, t).c].key == q
  {
    assert SF.PcOk(s.sf, t);
  }

  ghost predicate OnTrack(env: Env, s: State, t: nat, q: string) {
    && q in s.rows
    && Joinable(s, q, env.owner(q))
    && (t in s.threads ==>
          var pc := s.threads[t].pc;
          || (pc == Recovering(q, true) && Pending(s, t, q, env.owner(q)))
          || (pc.Routed? && pc.url == env.owner(q))
          || pc.Replied? || pc.CacheWritten? || pc.Recorded?)
  }

  lemma OwnStep(env: Env, s: State, e: Event, q: string)
    requires Inv(env, s) && Enabled(env, s, e) && OnTrack(env, s, e.t, q) && env.owner(q) != ""
    requires e.t in s.threads && !e.Arrive? && !e.Coalesce? && !e.ReadHistory?
    ensures
      var s' := Next(env, s, e);
      e.t in s'.threads ==>
        var pc := s'.threads[e.t].pc;
        (pc.Routed? && pc.url == env.owner(q)) || pc.Replied? || pc.CacheWritten? || pc.Recorded?
  {
    assert SF.PcOk(s.sf, e.t);
    hide Inv; hide Joinable; hide QC.Find; hide QC.Touch; hide QC.Put; hide QueryId; hide Urls;
  }

  lemma InsideKeepsThreads(env: Env, s: State, e: Event)
    requires Enabled(env, s, e) && (e.Coalesce? || e.ReadHistory?)
    ensures Next(env, s, e).threads == s.threads && e.t in s.threads && s.threads[e.t].pc.Recovering?
  {
  }

  lemma TrackStep(env: Env, s: State, e: Event, t: nat, q: string)
    requires Inv(env, s) && Enabled(env, s, e) && OnTrack(env, s, t, q) && env.owner(q) != ""
    requires Answers(e) && (e.Arrive? ==> e.t != t)
    ensures OnTrack(env, Next(env, s, e), t, q)
  {
    var inside := e.Coalesce? || e.ReadHistory?;
    Frame(env, s, e, t);
    JoinableStep(env, s, e, q);
    if t in s.threads && s.threads[t].pc == Recovering(q, true) && (e.t != t || inside) {
      PendingStep(env, s, e, t, q);
    }
    if e.t == t && t in s.threads && !inside { OwnStep(env, s, e, q); }
    if inside { InsideKeepsThreads(env, s, e); }
    hide Next; hide Enabled; hide Inv; hide Joinable; hide Pending;
    assert t in s.threads || e.t != t || e.Elsewhere?;
    if e.Elsewhere? { ElsewhereKeepsThreads(env, s, e); }
  }

  lemma ElsewhereKeepsThreads(env: Env, s: State, e: Event)
    requires Enabled(env, s, e) && e.Elsewhere?
    ensures Next(env, s, e).threads == s.threads
  {
  }

  lemma {:induction false} TrackRun(env: Env, s: State, evs: seq<Event>, s': State, t: nat, q: string)
    requires Inv(env, s) && OnTrack(env, s, t, q) && env.owner(q) != "" && Leads(env, s, evs, s')
    requires forall e :: e in evs ==> Answers(e) && (e.Arrive? ==> e.t != t)
    ensures OnTrack(env, s', t, q)
    decreases |evs|
  {
    hide Next; hide Enabled; hide OnTrack; hide Inv;
    if evs != [] {
      assert evs[0] in evs;
      TrackStep(env, s, evs[0], t, q);
      NextKeepsInv(env, s, evs[0]);
      TrackRun(env, Next(env, s, evs[0]), evs[1..], s', t, q);
    }
  }

  // ---------- Not certain otherwise ----------

  /** From s0, where the KILL QUERY on t has just arrived, `evs` lead to s and t is still in the look-up. */
  ghost predicate OnPath(env: Env, s0: State, evs: seq<Event>, s: State, t: nat, q: string) {
    && Leads(env, s0, evs, s) && Inv(env, s)
    && (forall e :: e in evs ==> Answers(e) && (e.Arrive? ==> e.t != t))
    && t in s.threads && s.threads[t].pc == Recovering(q, true)
    && !SF.PcOf(s.sf, t).Idle? && SF.PcOf(s.sf, t).key == q
  }

  lemma Coalesces(env: Env, s: State, step: SF.Event)
    requires step.t in s.threads && s.threads[step.t].pc.Recovering?
    requires !step.Begin? && !step.Forget? && !step.FnReturns? && SF.Enabled(s.sf, step)
    ensures Step(env, s, Coalesce(step.t, step), s.(sf := SF.Next(s.sf, step)))
  {
  }

  /** One more step of some caller inside the singleflight. */
  lemma GoOn(env: Env, s0: State, evs: seq<Event>, s: State, t: nat, q: string, step: SF.Event)
    returns (evs': seq<Event>, s': State)
    requires OnPath(env, s0, evs, s, t, q) && SF.Enabled(s.sf, step) && !step.Begin? && !step.Forget?
             && !step.FnReturns?
    ensures OnPath(env, s0, evs', s', t, q) && s' == s.(sf := SF.Next(s.sf, step))
  {
    hide Leads; hide Inv; hide Step; hide Next; hide Enabled;
    CallersRecover(env, s, step.t);
    Coalesces(env, s, step);
    s' := s.(sf := SF.Next(s.sf, step));
    evs' := Then(env, s0, evs, s, Coalesce(step.t, step), s');
    StepKeepsInv(env, s, Coalesce(step.t, step), s');
    KeyStays(s.sf, step, t);
  }

  lemma Reads(env: Env, s: State, u: nat, reply: SF.Reply)
    requires u in s.threads && s.threads[u].pc.Recovering? && SF.PcOf(s.sf, u).Running?
    requires u !in s.fetched && LookupReply(s, s.threads[u].pc.id, reply)
    ensures Step(env, s, ReadHistory(u, reply), s.(fetched := s.fetched[u := reply]))
  {
  }

  /** The leader u of a look-up of q reads the table and finds no row, if it has not read it before. */
  lemma ReadsNothing(env: Env, s0: State, evs: seq<Event>, s: State, t: nat, q: string, u: nat)
    returns (evs': seq<Event>, s': State)
    requires OnPath(env, s0, evs, s, t, q) && q !in s.rows
    requires SF.PcOf(s.sf, u).Running? && SF.PcOf(s.sf, u).key == q
    ensures OnPath(env, s0, evs', s', t, q) && s'.sf == s.sf
    ensures u in s'.fetched && s'.fetched[u].val == ""
  {
    CallersRecover(env, s, u);
    assert ReadOk(env, s, u);
    hide Leads; hide Inv; hide Step; hide Next; hide Enabled;
    if u in s.fetched {
      evs', s' := evs, s;
    } else {
      var reply := SF.Reply("", false);
      Reads(env, s, u, reply);
      s' := s.(fetched := s.fetched[u := reply]);
      evs' := Then(env, s0, evs, s, ReadHistory(u, reply), s');
      StepKeepsInv(env, s, ReadHistory(u, reply), s');
    }
  }

  lemma Returns(env: Env, s: State, u: nat)
    requires u in s.threads && s.threads[u].pc.Recovering? && u in s.fetched
    requires SF.Enabled(s.sf, SF.FnReturns(u, s.fetched[u]))
    ensures Step(env, s, Coalesce(u, SF.FnReturns(u, s.fetched[u])),
                 s.(sf := SF.Next(s.sf, SF.FnReturns(u, s.fetched[u])), fetched := s.fetched - {u}))
  {
  }

  ghost predicate FilledWithNothing(sf: SF.State, sf': SF.State, u: nat)
    requires SF.PcOf(sf, u).Running? && SF.PcOf(sf, u).c < |sf.calls|
  {
    var c := SF.PcOf(sf, u).c;
    && |sf'.calls| == |sf.calls| && sf'.calls[c].reply.Some? && sf'.calls[c].reply.value.val == ""
    && SF.PcOf(sf', u) == SF.Stored(SF.PcOf(sf, u).key, c)
    && (forall v :: v != u ==> SF.PcOf(sf', v) == SF.PcOf(sf, v))
    && sf'.mutex == sf.mutex
  }

  lemma FillLands(sf: SF.State, u: nat, reply: SF.Reply)
    requires SF.PcOf(sf, u).Running? && SF.PcOf(sf, u).c < |sf.calls| && reply.val == ""
    ensures SF.Enabled(sf, SF.FnReturns(u, reply)) && FilledWithNothing(sf, SF.Next(sf, SF.FnReturns(u, reply)), u)
  {
  }

  /** A leader that has read nothing fills its record with nothing. */
  lemma FillsWithNothing(env: Env, s0: State, evs: seq<Event>, s: State, t: nat, q: string, u: nat)
    returns (evs': seq<Event>, s': State)
    requires OnPath(env, s0, evs, s, t, q) && SF.PcOf(s.sf, u).Running?
    requires u in s.fetched && s.fetched[u].val == ""
    ensures OnPath(env, s0, evs', s', t, q)
    ensures SF.PcOf(s.sf, u).c < |s.sf.calls| && FilledWithNothing(s.sf, s'.sf, u)
  {
    CallersRecover(env, s, u);
    assert SF.PcOk(s.sf, u);
    hide Leads; hide Inv; hide Step; hide Next; hide Enabled; hide SF.Inv; hide SF.Next; hide SF.Enabled;
    hide FilledWithNothing;
    var step := SF.FnReturns(u, s.fetched[u]);
    FillLands(s.sf, u, s.fetched[u]);
    Returns(env, s, u);
    s' := s.(sf := SF.Next(s.sf, step), fetched := s.fetched - {u});
    evs' := Then(env, s0, evs, s, Coalesce(u, step), s');
    StepKeepsInv(env, s, Coalesce(u, step), s');
    KeyStays(s.sf, step, t);
  }

  lemma KeyStays(sf: SF.State, step: SF.Event, t: nat)
    requires SF.Enabled(sf, step) && !step.Begin? && !step.Forget? && !SF.PcOf(sf, t).Idle?
    ensures !SF.PcOf(SF.Next(sf, step), t).Idle? && SF.PcOf(SF.Next(sf, step), t).key == SF.PcOf(sf, t).key
  {
  }

  /** Whoever is inside the singleflight is a request in its recovery chain, for its own id. */
  lemma CallersRecover(env: Env, s: State, u: nat)
    requires Inv(env, s) && !SF.PcOf(s.sf, u).Idle?
    ensures u in s.threads && s.threads[u].pc.Recovering? && s.threads[u].pc.id == SF.PcOf(s.sf, u).key
  {
    assert ThreadOk(env, s, u);
  }

  ghost predicate Bad(s: State, q: string) {
    q !in s.rows || Stale(s, q)
  }

  lemma SfInvOf(env: Env, s: State)
    requires Inv(env, s)
    ensures SF.Inv(s.sf)
  {
  }

  /** Nobody holds the mutex, and what made the state bad is still there. */
  lemma FreeMutex(env: Env, s0: State, evs: seq<Event>, s: State, t: nat, q: string)
    returns (evs': seq<Event>, s': State)
    requires OnPath(env, s0, evs, s, t, q) && SF.PcOf(s.sf, t).WantEnter? && Bad(s, q)
    ensures OnPath(env, s0, evs', s', t, q) && SF.PcOf(s'.sf, t).WantEnter? && Bad(s', q) && s'.sf.mutex.None?
  {
    match s.sf.mutex {
      case None => evs', s' := evs, s;
      case Some(h) =>
        SfInvOf(env, s);
        hide OnPath; hide Inv;
        assert SF.PcOk(s.sf, h) && SF.PcOk(s.sf, t);
        var step := if SF.PcOf(s.sf, h).InEnter? then SF.JoinOrLead(h) else SF.Delete(h);
        HolderKeepsStale(s, h, step, q);
        evs', s' := GoOn(env, s0, evs, s, t, q, step);
    }
  }

  lemma HolderKeepsStale(s: State, h: nat, step: SF.Event, q: string)
    requires SF.Inv(s.sf) && s.sf.mutex == Some(h)
    requires step == if SF.PcOf(s.sf, h).InEnter? then SF.JoinOrLead(h) else SF.Delete(h)
    ensures SF.Enabled(s.sf, step) && SF.Next(s.sf, step).mutex.None?
    ensures Stale(s, q) ==> Stale(s.(sf := SF.Next(s.sf, step)), q)
  {
    assert SF.PcOk(s.sf, h);
    if Stale(s, q) {
      assert SF.InflightOk(s.sf, q);
      assert SF.PcOk(s.sf, s.sf.calls[s.sf.inflight[q]].leader);
    }
  }

  lemma EnterLands(sf: SF.State, t: nat, q: string)
    requires SF.PcOf(sf, t) == SF.WantEnter(q) && sf.mutex.None?
    ensures SF.Enabled(sf, SF.LockEnter(t)) && SF.Enabled(SF.Next(sf, SF.LockEnter(t)), SF.JoinOrLead(t))
    ensures
      var sf' := SF.Next(SF.Next(sf, SF.LockEnter(t)), SF.JoinOrLead(t));
      && sf'.mutex.None?
      && if q in sf.inflight then SF.PcOf(sf', t) == SF.Waiting(q, sf.inflight[q]) && sf'.calls == sf.calls
         else SF.PcOf(sf', t) == SF.Running(q, |sf.calls|)
  {
  }

  lemma StaleIsSettled(s: State, s': State, q: string)
    requires Stale(s, q) && s'.fetched == s.fetched && (q in s.sf.inflight ==> s'.sf.calls == s.sf.calls)
    ensures q in s.sf.inflight && s.sf.inflight[q] < |s'.sf.calls|
    ensures Settled(s', s.sf.inflight[q]).Some? && Settled(s', s.sf.inflight[q]).value.val == ""
  {
  }

  /** t takes the mutex and looks its key up. */
  lemma Enter(env: Env, s0: State, evs: seq<Event>, s: State, t: nat, q: string) returns (evs': seq<Event>, s': State)
    requires OnPath(env, s0, evs, s, t, q) && SF.PcOf(s.sf, t) == SF.WantEnter(q) && Bad(s, q) && s.sf.mutex.None?
    ensures OnPath(env, s0, evs', s', t, q) && s'.sf.mutex.None? && s'.rows == s.rows
    ensures
      var pc := SF.PcOf(s'.sf, t);
      || (pc == SF.Running(q, |s.sf.calls|) && q !in s.rows)
      || (pc.Waiting? && pc.c < |s'.sf.calls| && s'.sf.calls[pc.c].key == q
          && (q !in s.rows || (Settled(s', pc.c).Some? && Settled(s', pc.c).value.val == "")))
  {
    SfInvOf(env, s);
    if q in s.sf.inflight { assert SF.InflightOk(s.sf, q); }
    hide OnPath; hide Inv; hide SF.Inv; hide SF.Next; hide SF.Enabled; hide Stale; hide Settled;
    EnterLands(s.sf, t, q);
    evs', s' := GoOn(env, s0, evs, s, t, q, SF.LockEnter(t));
    evs', s' := GoOn(env, s0, evs', s', t, q, SF.JoinOrLead(t));
    if Stale(s, q) { StaleIsSettled(s, s', q); }
  }

  ghost predicate CameBackEmpty(s: State, t: nat) {
    SF.PcOf(s.sf, t).Returned? && SF.PcOf(s.sf, t).reply.val == ""
  }

  /** As the leader, t finds no row and returns nothing. */
  lemma LeadToEmpty(env: Env, s0: State, evs: seq<Event>, s: State, t: nat, q: string)
    returns (evs': seq<Event>, s': State)
    requires OnPath(env, s0, evs, s, t, q) && SF.PcOf(s.sf, t).Running? && q !in s.rows && s.sf.mutex.None?
    ensures OnPath(env, s0, evs', s', t, q) && CameBackEmpty(s', t)
  {
    assert SF.PcOf(s.sf, t).key == q;
    hide OnPath; hide Inv;
    evs', s' := ReadsNothing(env, s0, evs, s, t, q, t);
    evs', s' := FillsWithNothing(env, s0, evs', s', t, q, t);
    evs', s' := GoOn(env, s0, evs', s', t, q, SF.Release(t));
    evs', s' := DeleteToEmpty(env, s0, evs', s', t, q);
  }

  lemma DeleteToEmpty(env: Env, s0: State, evs: seq<Event>, s: State, t: nat, q: string)
    returns (evs': seq<Event>, s': State)
    requires OnPath(env, s0, evs, s, t, q) && SF.PcOf(s.sf, t).WantDelete? && s.sf.mutex.None?
    requires SF.PcOf(s.sf, t).c < |s.sf.calls|
    requires s.sf.calls[SF.PcOf(s.sf, t).c].reply.Some? && s.sf.calls[SF.PcOf(s.sf, t).c].reply.value.val == ""
    ensures OnPath(env, s0, evs', s', t, q) && CameBackEmpty(s', t)
  {
    hide OnPath; hide Inv;
    evs', s' := GoOn(env, s0, evs, s, t, q, SF.LockDelete(t));
    evs', s' := GoOn(env, s0, evs', s', t, q, SF.Delete(t));
  }

  /** The record t waits for gets filled with nothing, if it was not already. */
  lemma FillEmpty(env: Env, s0: State, evs: seq<Event>, s: State, t: nat, q: string)
    returns (evs': seq<Event>, s': State)
    requires OnPath(env, s0, evs, s, t, q) && SF.PcOf(s.sf, t).Waiting? && SF.PcOf(s.sf, t).c < |s.sf.calls|
    requires s.sf.calls[SF.PcOf(s.sf, t).c].key == q
    requires q !in s.rows || (Settled(s, SF.PcOf(s.sf, t).c).Some? && Settled(s, SF.PcOf(s.sf, t).c).value.val == "")
    ensures OnPath(env, s0, evs', s', t, q) && SF.PcOf(s'.sf, t) == SF.PcOf(s.sf, t)
    ensures
      var c := SF.PcOf(s.sf, t).c;
      c < |s'.sf.calls| && s'.sf.calls[c].reply.Some? && s'.sf.calls[c].reply.value.val == ""
  {
    var c := SF.PcOf(s.sf, t).c;
    var call := s.sf.calls[c];
    evs', s' := evs, s;
    if call.reply.None? {
      OwnRecord(env, s, call.leader, c);
      assert SF.PcOk(s.sf, t);
      hide OnPath; hide Inv; hide SF.Inv; hide Settled;
      if q !in s.rows { evs', s' := ReadsNothing(env, s0, evs', s', t, q, call.leader); }
      evs', s' := FillsWithNothing(env, s0, evs', s', t, q, call.leader);
    } else {
      assert call in s.sf.calls;
      assert Gateway.CallOk(env, s, call);
    }
  }

  lemma WakeLands(sf: SF.State, leader: nat, t: nat)
    requires SF.PcOf(sf, t).Waiting? && SF.PcOf(sf, t).c < |sf.calls| && sf.calls[SF.PcOf(sf, t).c].reply.Some?
    requires sf.calls[SF.PcOf(sf, t).c].released ||
             (SF.PcOf(sf, leader).Stored? && SF.PcOf(sf, leader).c == SF.PcOf(sf, t).c)
    ensures
      var c := SF.PcOf(sf, t).c;
      if sf.calls[c].released then
        && SF.Enabled(sf, SF.Wake(t))
        && SF.PcOf(SF.Next(sf, SF.Wake(t)), t) == SF.Returned(SF.PcOf(sf, t).key, c, sf.calls[c].reply.value)
      else
        && SF.Enabled(sf, SF.Release(leader))
        && var sf' := SF.Next(sf, SF.Release(leader));
        && SF.PcOf(sf', t) == SF.PcOf(sf, t)
        && c < |sf'.calls| && sf'.calls[c].released && sf'.calls[c].reply == sf.calls[c].reply
  {
  }

  /** As a waiter, t is released and returns nothing. */
  lemma WaitToEmpty(env: Env, s0: State, evs: seq<Event>, s: State, t: nat, q: string)
    returns (evs': seq<Event>, s': State)
    requires OnPath(env, s0, evs, s, t, q) && SF.PcOf(s.sf, t).Waiting? && SF.PcOf(s.sf, t).c < |s.sf.calls|
    requires s.sf.calls[SF.PcOf(s.sf, t).c].reply.Some? && s.sf.calls[SF.PcOf(s.sf, t).c].reply.value.val == ""
    ensures OnPath(env, s0, evs', s', t, q) && CameBackEmpty(s', t)
  {
    SfInvOf(env, s);
    var c := SF.PcOf(s.sf, t).c;
    var leader := s.sf.calls[c].leader;
    assert SF.CallOk(s.sf, c) && SF.PcOk(s.sf, leader);
    hide OnPath; hide Inv; hide SF.Inv; hide SF.Next; hide SF.Enabled;
    WakeLands(s.sf, leader, t);
    evs', s' := evs, s;
    if !s.sf.calls[c].released {
      evs', s' := GoOn(env, s0, evs', s', t, q, SF.Release(leader));
      WakeLands(s'.sf, leader, t);
    }
    evs', s' := GoOn(env, s0, evs', s', t, q, SF.Wake(t));
  }

  lemma KillDefaults(env: Env, s: State, t: nat, q: string, stray: string)
    requires t in s.threads && stray != ""
    ensures
      var pc := s.threads[t].pc;
      var bs := [Backend(stray, "g")];
      && (pc == Recovering(q, true) && SF.PcOf(s.sf, t).Returned? && SF.PcOf(s.sf, t).reply.val == "" ==>
            Step(env, s, LookupAnswer(t), At(s.(sf := s.sf.(pcs := s.sf.pcs[t := SF.Idle])), t, AtList(q, true))))
      && (pc == AtList(q, true) ==> Step(env, s, ListForProbe(t, Some(bs)), At(s, t, AtProbe(q, true, bs))))
      && (pc == AtProbe(q, true, bs) ==> Step(env, s, Probe(t, [false], ""), At(s, t, Routed(q, stray, ViaDefault))))
  {
  }

  /** From an empty look-up to the first active backend, whatever it is. */
  lemma Stray(env: Env, s: State, t: nat, q: string, stray: string) returns (evs: seq<Event>, s': State)
    requires t in s.threads && s.threads[t].pc == Recovering(q, true) && CameBackEmpty(s, t) && stray != ""
    ensures Leads(env, s, evs, s') && forall e :: e in evs ==> !e.ReadHistory? && !e.Arrive?
    ensures t in s'.threads && s'.threads[t].pc == Routed(q, stray, ViaDefault)
  {
    hide Step; hide Next; hide Enabled;
    var bs := [Backend(stray, "g")];
    KillDefaults(env, s, t, q, stray);
    var s1 := At(s.(sf := s.sf.(pcs := s.sf.pcs[t := SF.Idle])), t, AtList(q, true));
    evs := Then(env, s, [], s, LookupAnswer(t), s1);
    KillDefaults(env, s1, t, q, stray);
    var s2 := At(s1, t, AtProbe(q, true, bs));
    evs := Then(env, s, evs, s1, ListForProbe(t, Some(bs)), s2);
    KillDefaults(env, s2, t, q, stray);
    s' := At(s2, t, Routed(q, stray, ViaDefault));
    evs := Then(env, s, evs, s2, Probe(t, [false], ""), s');
  }

  lemma KillArrives(env: Env, s: State, t: nat, uri: string, q: string)
    requires t !in s.threads && SF.PcOf(s.sf, t).Idle? && q != ""
    ensures Step(env, s, Arrive(t, Statement(q, uri)),
                 s.(sf := s.sf.(pcs := s.sf.pcs[t := SF.WantEnter(q)]),
                    threads := s.threads[t := Thread(Statement(q, uri), Recovering(q, true))]))
  {
    var th := Thread(Statement(q, uri), AtCache);
    assert s.threads[t := th][t := th.(pc := Recovering(q, true))] == s.threads[t := th.(pc := Recovering(q, true))];
  }

  lemma ArrivesAt(env: Env, s: State, t: nat, uri: string, q: string) returns (s0: State)
    requires Inv(env, s) && t !in s.threads && q != ""
    ensures Step(env, s, Arrive(t, Statement(q, uri)), s0) && Inv(env, s0)
    ensures s0 == s.(sf := s.sf.(pcs := s.sf.pcs[t := SF.WantEnter(q)]),
                     threads := s.threads[t := Thread(Statement(q, uri), Recovering(q, true))])
  {
    assert ThreadOk(env, s, t);
    hide Inv; hide Step;
    KillArrives(env, s, t, uri, q);
    s0 := s.(sf := s.sf.(pcs := s.sf.pcs[t := SF.WantEnter(q)]),
             threads := s.threads[t := Thread(Statement(q, uri), Recovering(q, true))]);
    StepKeepsInv(env, s, Arrive(t, Statement(q, uri)), s0);
  }

  lemma ArrivalKeepsBad(s: State, t: nat, q: string, s0: State)
    requires SF.Inv(s.sf) && Bad(s, q) && SF.PcOf(s.sf, t).Idle?
    requires s0.rows == s.rows && s0.fetched == s.fetched && s0.sf == s.sf.(pcs := s.sf.pcs[t := SF.WantEnter(q)])
    ensures Bad(s0, q)
  {
    if q in s.rows { assert SF.InflightOk(s.sf, q); }
  }

  lemma ReachesEmpty(env: Env, s0: State, t: nat, q: string) returns (evs: seq<Event>, s1: State)
    requires OnPath(env, s0, [], s0, t, q) && SF.PcOf(s0.sf, t).WantEnter? && Bad(s0, q)
    ensures OnPath(env, s0, evs, s1, t, q) && CameBackEmpty(s1, t)
  {
    hide OnPath; hide Inv; hide Next; hide Enabled; hide Leads; hide Step; hide Bad; hide Stale; hide CameBackEmpty;
    evs, s1 := FreeMutex(env, s0, [], s0, t, q);
    KeyOf(env, s0, evs, s1, t, q);
    evs, s1 := Enter(env, s0, evs, s1, t, q);
    if SF.PcOf(s1.sf, t).Running? {
      evs, s1 := LeadToEmpty(env, s0, evs, s1, t, q);
    } else {
      evs, s1 := FillEmpty(env, s0, evs, s1, t, q);
      evs, s1 := WaitToEmpty(env, s0, evs, s1, t, q);
    }
  }

  lemma BadStrays(env: Env, s: State, t: nat, uri: string, q: string, stray: string)
    returns (evs: seq<Event>, s': State)
    requires Inv(env, s) && t !in s.threads && q != "" && stray != "" && Bad(s, q)
    ensures Leads(env, s, [Arrive(t, Statement(q, uri))] + evs, s')
    ensures forall e :: e in evs ==> Answers(e) && (e.Arrive? ==> e.t != t)
    ensures t in s'.threads && s'.threads[t].pc == Routed(q, stray, ViaDefault)
  {
    assert ThreadOk(env, s, t);
    SfInvOf(env, s);
    hide Inv; hide SF.Inv; hide Next; hide Enabled; hide Leads; hide Step; hide Bad; hide Stale; hide CameBackEmpty;
    var s0 := ArrivesAt(env, s, t, uri, q);
    ArrivalKeepsBad(s, t, q, s0);
    assert Leads(env, s0, [], s0) by { Nowhere(env, s0); }
    var first, s1 := ReachesEmpty(env, s0, t, q);
    var more;
    more, s' := Stray(env, s1, t, q, stray);
    LeadsAppend(env, s0, first, s1, more, s');
    evs := first + more;
    LeadsOn(env, s, Arrive(t, Statement(q, uri)), s0, evs, s');
  }

  lemma BadMayStray(env: Env, s: State, t: nat, uri: string, q: string, stray: string)
    requires Inv(env, s) && t !in s.threads && q != "" && stray != "" && Bad(s, q)
    ensures KillMayRoute(env, s, t, uri, q, stray)
  {
    hide Inv; hide Bad; hide Leads;
    var evs, s' := BadStrays(env, s, t, uri, q, stray);
  }

  lemma KeyOf(env: Env, s0: State, evs: seq<Event>, s: State, t: nat, q: string)
    requires OnPath(env, s0, evs, s, t, q) && SF.PcOf(s.sf, t).WantEnter?
    ensures SF.PcOf(s.sf, t) == SF.WantEnter(q)
  {
  }

  lemma GoodIsCertain(env: Env, s: State, t: nat, uri: string, q: string, url: string)
    requires Inv(env, s) && t !in s.threads && q != "" && env.owner(q) != "" && !Bad(s, q)
    requires KillMayRoute(env, s, t, uri, q, url)
    ensures url == env.owner(q)
  {
    var evs, s' :| Leads(env, s, [Arrive(t, Statement(q, uri))] + evs, s')
                   && (forall e :: e in evs ==> Answers(e) && (e.Arrive? ==> e.t != t))
                   && t in s'.threads && s'.threads[t].pc.Routed? && s'.threads[t].pc.url == url;
    var s0 := ArrivesAt(env, s, t, uri, q);
    assert Leads(env, s0, evs, s') by { LeadsOn(env, s, Arrive(t, Statement(q, uri)), s0, evs, s'); }
    assert OnTrack(env, s0, t, q) by {
      hide Leads;
      ArrivalIsOnTrack(env, s, t, q, s0);
    }
    hide Leads; hide Inv;
    TrackRun(env, s0, evs, s', t, q);
  }

  lemma ArrivalIsOnTrack(env: Env, s: State, t: nat, q: string, s0: State)
    requires Inv(env, s) && t !in s.threads && !Bad(s, q)
    requires t in s0.threads && s0.threads[t].pc == Recovering(q, true) && s0.rows == s.rows
    requires s0.fetched == s.fetched && s0.sf == s.sf.(pcs := s.sf.pcs[t := SF.WantEnter(q)])
    ensures OnTrack(env, s0, t, q)
  {
    assert ThreadOk(env, s, t);
    SfInvOf(env, s);
    if q in s.sf.inflight {
      assert SF.InflightOk(s.sf, q);
      var call := s.sf.calls[s.sf.inflight[q]];
      assert call in s.sf.calls;
      assert Gateway.CallOk(env, s, call);
      assert ReadOk(env, s, call.leader) && SF.PcOk(s.sf, call.leader);
    }
  }

  lemma CertainIff(env: Env, s: State, t: nat, uri: string, q: string)
    requires Inv(env, s) && t !in s.threads && q != "" && env.owner(q) != ""
    ensures (forall url :: KillMayRoute(env, s, t, uri, q, url) ==> url == env.owner(q))
            <==> q in s.rows && !Stale(s, q)
  {
    hide Inv; hide KillMayRoute; hide Stale;
    if Bad(s, q) {
      var stray := env.owner(q) + "x";
      BadMayStray(env, s, t, uri, q, stray);
      assert stray != env.owner(q);
    } else {
      forall url | KillMayRoute(env, s, t, uri, q, url) ensures url == env.owner(q) {
        GoodIsCertain(env, s, t, uri, q, url);
      }
    }
  }

  /**
   After any run, a KILL QUERY is certain to be routed to the owner of its query if
   and only if the query's row is in the history table and no look-up of it whose
   SELECT has found nothing can still be joined, whether it has returned or not.
   Whether the owner is cached plays no part.
   */
  lemma KillIsCertainIff(env: Env, run: seq<Event>, t: nat, uri: string, q: string)
    requires IsRun(env, run) && t !in After(env, run).threads && q != "" && env.owner(q) != ""
    ensures
      var s := After(env, run);
      (forall url :: KillMayRoute(env, s, t, uri, q, url) ==> url == env.owner(q))
      <==> q in s.rows && !Stale(s, q)
  {
    RunKeepsInv(env, run);
    CertainIff(env, After(env, run), t, uri, q);
  }

  // ---------- For every query, a KILL QUERY that strays although its row is there ----------

  /** A KILL QUERY for q on thread 0 that reads the table before q is issued. */
  ghost function EarlyLookup(env: Env, q: string): State {
    Initial(env).(sf := SF.State(map[0 := SF.Running(q, 0)], [SF.Call(q, 0, None, false)], map[q := 0], None),
                  fetched := map[0 := SF.Reply("", false)],
                  threads := map[0 := Thread(Statement(q, STATEMENT_URI), Recovering(q, true))])
  }

  lemma EarlyEntry(env: Env, q: string) returns (evs: seq<Event>, s': State)
    requires q != ""
    ensures Leads(env, Initial(env), evs, s') && forall e :: e in evs ==> Answers(e)
    ensures s' == EarlyLookup(env, q).(fetched := map[])
  {
    hide Next; hide Enabled; hide Step; hide Leads;
    var s0 := Initial(env);
    KillArrives(env, s0, 0, STATEMENT_URI, q);
    var th := Thread(Statement(q, STATEMENT_URI), Recovering(q, true));
    var s1 := s0.(sf := s0.sf.(pcs := map[0 := SF.WantEnter(q)]), threads := map[0 := th]);
    Nowhere(env, s0);
    evs := Then(env, s0, [], s0, Arrive(0, Statement(q, STATEMENT_URI)), s1);
    Coalesces(env, s1, SF.LockEnter(0));
    var s2 := s1.(sf := SF.Next(s1.sf, SF.LockEnter(0)));
    evs := Then(env, s0, evs, s1, Coalesce(0, SF.LockEnter(0)), s2);
    Coalesces(env, s2, SF.JoinOrLead(0));
    s' := s2.(sf := SF.Next(s2.sf, SF.JoinOrLead(0)));
    evs := Then(env, s0, evs, s2, Coalesce(0, SF.JoinOrLead(0)), s');
  }

  lemma EarlyRead(env: Env, q: string) returns (evs: seq<Event>)
    requires q != "" && q !in env.recorded
    ensures Leads(env, Initial(env), evs, EarlyLookup(env, q)) && forall e :: e in evs ==> Answers(e)
  {
    hide Next; hide Enabled; hide Step; hide Leads;
    var s;
    evs, s := EarlyEntry(env, q);
    Reads(env, s, 0, SF.Reply("", false));
    evs := Then(env, Initial(env), evs, s, ReadHistory(0, SF.Reply("", false)), EarlyLookup(env, q));
  }

  lemma IssuedIsCached(env: Env, s: State, q: string)
    ensures QC.Find(Issued(env, s, q).cache, q) == Some(env.owner(q))
  {
    assert QC.Put(s.cache, q, env.owner(q), QC.DEFAULT_CACHE_SIZE)[0] == QC.Entry(q, env.owner(q));
  }

  lemma EarlyIssued(env: Env, q: string) returns (issued: seq<Event>, s: State)
    requires q != "" && env.owner(q) != "" && q !in env.recorded
    ensures IsRun(env, issued) && After(env, issued) == s && forall e :: e in issued ==> Answers(e)
    ensures 2 !in s.threads && (q, env.owner(q)) in s.sent && Stale(s, q)
    ensures QC.Find(s.cache, q) == Some(env.owner(q)) && q in s.rows && s.rows[q] == env.owner(q)
    ensures forall c :: 0 <= c < |s.sf.calls| ==> s.sf.calls[c].reply.None?
  {
    hide Next; hide Enabled; hide Step; hide Leads; hide QC.Put;
    var early := EarlyRead(env, q);
    var more := Issue(env, EarlyLookup(env, q), 1, q);
    issued := early + more;
    s := Issued(env, EarlyLookup(env, q), q);
    LeadsAppend(env, Initial(env), early, EarlyLookup(env, q), more, s);
    Extend(env, [], issued, s);
    assert [] + issued == issued;
    IssuedIsCached(env, EarlyLookup(env, q), q);
  }

  /**
   Coalescing can hide a row that is already there, and KILL QUERY does not look at
   the cache: for every query not recorded before there is a run in which its reply
   has been sent, its owner is cached and its row is in the table, and a KILL QUERY
   for it arriving after that, with no look-up failing, is still routed to another
   backend. The look-up it joins has read the table too early and not yet returned.
   */
  lemma KillCanStray(env: Env, q: string) returns (issued: seq<Event>, killed: seq<Event>)
    requires q != "" && env.owner(q) != "" && q !in env.recorded
    ensures IsRun(env, issued) && IsRun(env, issued + killed)
    ensures
      var s := After(env, issued);
      && 2 !in s.threads && (q, env.owner(q)) in s.sent
      && QC.Find(s.cache, q) == Some(env.owner(q)) && q in s.rows && s.rows[q] == env.owner(q)
      && forall c :: 0 <= c < |s.sf.calls| ==> s.sf.calls[c].reply.None?
    ensures killed != [] && killed[0] == Arrive(2, Statement(q, STATEMENT_URI))
    ensures forall e :: e in issued + killed ==> Answers(e)
    ensures
      var s := After(env, issued + killed);
      2 in s.threads && s.threads[2].pc.Routed? && s.threads[2].pc.id == q && s.threads[2].pc.url != env.owner(q)
  {
    hide Next; hide Enabled; hide Step; hide Leads; hide Inv; hide IsRun; hide After; hide Issued;
    var s;
    issued, s := EarlyIssued(env, q);
    RunKeepsInv(env, issued);
    var stray := env.owner(q) + "x";
    assert stray != env.owner(q) && stray != "";
    var evs, s' := BadStrays(env, s, 2, STATEMENT_URI, q, stray);
    killed := [Arrive(2, Statement(q, STATEMENT_URI))] + evs;
    Extend(env, issued, killed, s');
  }
}
