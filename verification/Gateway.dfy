/**
 The sticky-routing protocol of the gateway: internal/proxy/forward.go,
 internal/routing/router.go and internal/routing/recovery.go together with the
 cache and the history table, as a step system with any number of requests in
 flight.

 One event is one atomic action of one request thread. Everything outside the
 gateway (external router, list of active backends, probe answers, upstream
 replies, lookup and insert failures, rows recorded by other gateways) is chosen
 freely by the event.
 */
module Gateway {
  import opened Basics
  import QC = QueryCache
  import SF = SingleFlight
  import FO = ProbeFanOut

  datatype Backend = Backend(url: string, group: string)

  /**
   `owner(q)` is the backend that issued query id q; `recorded` are the ids whose row
   is in the history table when the gateway starts.
   */
  datatype Env = Env(owner: string -> string, defaultGroup: string, recorded: set<string>)

  /** A KILL QUERY id is only looked for in a buffered statement body; "" is none. */
  datatype Request =
    | Statement(kill: string, uri: string)
    | Stream(uri: string)

  function KillId(req: Request): string {
    if req.Statement? then req.kill else ""
  }

  // ---------- The query id of a request path ----------

  const QUERY_PREFIX := "/v1/query/"

  function Segment(s: string): string {
    if s == "" || s[0] == '/' || s[0] == '?' then "" else [s[0]] + Segment(s[1..])
  }

  /** Only /v1/query/<id> carries an id; every other path has none. */
  function QueryId(uri: string): string {
    if QUERY_PREFIX < uri then Segment(uri[|QUERY_PREFIX|..]) else ""
  }

  /** One step of Segment at an index of the text. */
  lemma SegmentAt(s: string, i: nat)
    requires i <= |s|
    ensures Segment(s[i..]) ==
            if i == |s| || s[i] == '/' || s[i] == '?' then "" else [s[i]] + Segment(s[i + 1..])
  {
    if i < |s| { assert s[i..][1..] == s[i + 1..]; }
  }

  method ExtractQueryId(uri: string) returns (id: string)
    ensures id == QueryId(uri)
  {
    hide Segment;
    if |uri| > |QUERY_PREFIX| && uri[..|QUERY_PREFIX|] == QUERY_PREFIX {
      var rest := uri[|QUERY_PREFIX|..];
      var i := 0;
      while i < |rest|
        invariant i <= |rest|
        invariant Segment(rest) == rest[..i] + Segment(rest[i..])
      {
        SegmentAt(rest, i);
        if rest[i] == '/' || rest[i] == '?' {
          return rest[..i];
        }
        assert rest[..i] + ([rest[i]] + Segment(rest[i + 1..])) == rest[..i + 1] + Segment(rest[i + 1..]);
        i := i + 1;
      }
      SegmentAt(rest, i);
      return rest;
    }
    return "";
  }

  predicate IsId(id: string) {
    id != "" && '/' !in id && '?' !in id
  }

  lemma {:induction false} SegmentOf(id: string, tail: string)
    requires '/' !in id && '?' !in id
    requires tail == "" || tail[0] == '/' || tail[0] == '?'
    ensures Segment(id + tail) == id
  {
    if id == "" {
      assert id + tail == tail;
    } else {
      assert (id + tail)[1..] == id[1..] + tail;
      SegmentOf(id[1..], tail);
    }
  }

  /** Every poll of a query resource names its query, whatever follows the id. */
  lemma PollNamesItsQuery(id: string, tail: string)
    requires IsId(id) && (tail == "" || tail[0] == '/' || tail[0] == '?')
    ensures QueryId("/v1/query/" + id + tail) == id
  {
    var uri := QUERY_PREFIX + id + tail;
    assert uri[|QUERY_PREFIX|..] == id + tail;
    assert uri[..|QUERY_PREFIX|] == QUERY_PREFIX;
    SegmentOf(id, tail);
  }

  // ---------- Groups ----------

  function FirstInGroup(bs: seq<Backend>, group: string): string {
    if bs == [] then "" else if bs[0].group == group then bs[0].url else FirstInGroup(bs[1..], group)
  }

  function FirstActiveUrl(bs: Option<seq<Backend>>): string {
    if bs.Some? && bs.value != [] then bs.value[0].url else ""
  }

  /** The first active backend of the group, "" when there is none. */
  method ResolveGroup(bs: seq<Backend>, group: string) returns (url: string)
    ensures url == FirstInGroup(bs, group)
    ensures (exists i :: 0 <= i < |bs| && bs[i].group == group && bs[i].url == url &&
                         forall j :: 0 <= j < i ==> bs[j].group != group)
            || (url == "" && forall i :: 0 <= i < |bs| ==> bs[i].group != group)
  {
    var i := 0;
    while i < |bs|
      invariant i <= |bs|
      invariant forall j :: 0 <= j < i ==> bs[j].group != group
      invariant FirstInGroup(bs, group) == FirstInGroup(bs[i..], group)
    {
      if bs[i].group == group {
        return bs[i].url;
      }
      i := i + 1;
    }
    return "";
  }

  function Urls(bs: seq<Backend>): (us: seq<string>)
    ensures |us| == |bs| && forall i :: 0 <= i < |bs| ==> us[i] == bs[i].url
  {
    seq(|bs|, i requires 0 <= i < |bs| => bs[i].url)
  }

  // ---------- The history table ----------

  /** First write wins: an insert of an existing id changes nothing. */
  function Inserted(rows: map<string, string>, q: string, url: string): map<string, string> {
    if q in rows then rows else rows[q := url]
  }

  function Looked(rows: map<string, string>, q: string): string {
    if q in rows then rows[q] else ""
  }

  function AllInserted(rows: map<string, string>, inserts: seq<(string, string)>): map<string, string>
    decreases |inserts|
  {
    if inserts == [] then rows
    else AllInserted(Inserted(rows, inserts[0].0, inserts[0].1), inserts[1..])
  }

  /** What was inserted first for an id, "" if nothing was. */
  function FirstInserted(inserts: seq<(string, string)>, q: string): string {
    if inserts == [] then "" else if inserts[0].0 == q then inserts[0].1 else FirstInserted(inserts[1..], q)
  }

  /** A look-up finds the row that was there, else the first one inserted for its id, else nothing. */
  lemma {:induction false} LookupFindsFirstInsert(rows: map<string, string>, inserts: seq<(string, string)>, q: string)
    ensures Looked(AllInserted(rows, inserts), q) == if q in rows then rows[q] else FirstInserted(inserts, q)
    decreases |inserts|
  {
    if inserts != [] {
      LookupFindsFirstInsert(Inserted(rows, inserts[0].0, inserts[0].1), inserts[1..], q);
    }
  }

  lemma {:induction false} InsertedLast(rows: map<string, string>, inserts: seq<(string, string)>, q: string,
                                        url: string)
    ensures AllInserted(rows, inserts + [(q, url)]) == Inserted(AllInserted(rows, inserts), q, url)
    decreases |inserts|
  {
    if inserts == [] {
      assert inserts + [(q, url)] == [(q, url)] && [(q, url)][1..] == [];
    } else {
      assert (inserts + [(q, url)])[1..] == inserts[1..] + [(q, url)];
      InsertedLast(Inserted(rows, inserts[0].0, inserts[0].1), inserts[1..], q, url);
    }
  }

  class HistoryTable {
    var rows: map<string, string>
    ghost var inserts: seq<(string, string)>

    /** The rows are what the successful inserts left. */
    ghost predicate Valid()
      reads this
    {
      rows == AllInserted(map[], inserts)
    }

    constructor ()
      ensures Valid() && inserts == []
    {
      rows, inserts := map[], [];
    }

    /** `failed` stands for a driver or connection error. */
    method Insert(q: string, url: string, failed: bool) returns (ok: bool)
      requires Valid()
      modifies this
      ensures Valid() && ok == !failed
      ensures inserts == if failed then old(inserts) else old(inserts) + [(q, url)]
      ensures rows == if failed then old(rows) else Inserted(old(rows), q, url)
      ensures forall p :: p in old(rows) ==> p in rows && rows[p] == old(rows)[p]
    {
      if failed { return false; }
      InsertedLast(map[], inserts, q, url);
      inserts := inserts + [(q, url)];
      if q !in rows {
        rows := rows[q := url];
      }
      return true;
    }

    /** The backend first recorded for the id; "" when there is none or the query fails. */
    method LookupByQueryId(q: string, failed: bool) returns (url: string)
      requires Valid()
      ensures url == if failed then "" else FirstInserted(inserts, q)
    {
      LookupFindsFirstInsert(map[], inserts, q);
      if failed || q !in rows {
        return "";
      }
      return rows[q];
    }
  }

  // ---------- The step system ----------

  /** How Route found the backend it returned. */
  datatype Source = ViaCache | ViaHistory | ViaProbe | ViaDefault | ViaGroup | ViaFirstActive

  datatype Pc =
    | AtCache
    | AtExternal
    | AtGroup(group: string)
    | Recovering(id: string, forKill: bool)            // inside sf.do(id, lookup)
    | AtList(id: string, forKill: bool)                // the look-up gave ""
    | AtProbe(id: string, forKill: bool, backends: seq<Backend>)
    | AtFirstActive
    | Routed(id: string, url: string, src: Source)     // Route has returned
    | Replied(q: string, url: string)                  // upstream reply with id q buffered
    | CacheWritten(q: string, url: string)
    | Recorded(q: string, url: string)                 // insert attempted, nothing flushed yet

  datatype Thread = Thread(req: Request, pc: Pc)

  /**
   `fetched` holds what a leader's SELECT has given while its look-up has not yet
   returned; `touched` logs the ids written to or hit in the cache, `sent` the
   flushed statement replies.
   */
  datatype State = State(
    cache: seq<QC.Entry>,
    rows: map<string, string>,
    sf: SF.State,
    fetched: map<nat, SF.Reply>,
    threads: map<nat, Thread>,
    touched: seq<string>,
    sent: set<(string, string)>)

  datatype Event =
    | Arrive(t: nat, req: Request)
    | CacheLookup(t: nat)
    | External(t: nat, group: string)                  // "" when the selector failed or gave no group
    | Resolve(t: nat, listed: Option<seq<Backend>>)    // None: ListActive failed
    | Coalesce(t: nat, step: SF.Event)                 // a step of t inside the singleflight
    | ReadHistory(t: nat, reply: SF.Reply)             // the SELECT of a leader takes effect
    | LookupAnswer(t: nat)
    | ListForProbe(t: nat, listed: Option<seq<Backend>>)
    | Probe(t: nat, oks: seq<bool>, answer: string)
    | FirstActive(t: nat, listed: Option<seq<Backend>>)
    | Upstream(t: nat, q: string)
    | WriteCache(t: nat)
    | InsertHistory(t: nat, ok: bool)                  // not ok: no history, or the insert failed
    | Flush(t: nat)
    | Leave(t: nat)                                    // an error reply, or a stream handed over
    | Elsewhere(t: nat, q: string)                     // a thread of another gateway records q

  ghost function Initial(env: Env): State {
    State([], map q | q in env.recorded :: env.owner(q), SF.INITIAL, map[], map[], [], {})
  }

  /** What the history look-up made by a leader may bring back. */
  predicate LookupReply(s: State, id: string, reply: SF.Reply) {
    reply.val == if reply.failed then "" else Looked(s.rows, id)
  }

  predicate Outside(e: Event) { e.Arrive? || e.Elsewhere? }

  predicate InRoute(e: Event) { e.CacheLookup? || e.External? || e.Resolve? || e.FirstActive? }

  predicate InRecovery(e: Event) {
    e.Coalesce? || e.ReadHistory? || e.LookupAnswer? || e.ListForProbe? || e.Probe?
  }

  predicate InReply(e: Event) { !Outside(e) && !InRoute(e) && !InRecovery(e) }

  predicate CanRoute(s: State, e: Event)
    requires InRoute(e) && e.t in s.threads
  {
    var pc := s.threads[e.t].pc;
    match e
    case CacheLookup(_) => pc.AtCache?
    case External(_, _) => pc.AtExternal?
    case Resolve(t, _) => pc.AtGroup? && SF.PcOf(s.sf, t).Idle?
    case FirstActive(_, _) => pc.AtFirstActive?
  }

  ghost predicate CanRecover(env: Env, s: State, e: Event)
    requires InRecovery(e) && e.t in s.threads
  {
    var pc := s.threads[e.t].pc;
    match e
    case Coalesce(t, step) =>
      && pc.Recovering? && step.t == t && !step.Begin? && !step.Forget?
      && SF.Enabled(s.sf, step)
      && (step.FnReturns? ==> t in s.fetched && step.reply == s.fetched[t])
    case ReadHistory(t, reply) =>
      pc.Recovering? && SF.PcOf(s.sf, t).Running? && t !in s.fetched && LookupReply(s, pc.id, reply)
    case LookupAnswer(t) => pc.Recovering? && SF.PcOf(s.sf, t).Returned?
    case ListForProbe(_, _) => pc.AtList?
    case Probe(_, oks, answer) =>
      // HEAD answers 200 only on the owner.
      && pc.AtProbe? && |oks| == |pc.backends|
      && (forall i :: 0 <= i < |oks| && oks[i] ==> pc.backends[i].url == env.owner(pc.id))
      && FO.MayReturn(Urls(pc.backends), oks, answer)
  }

  ghost predicate CanReply(env: Env, s: State, e: Event)
    requires InReply(e) && e.t in s.threads
  {
    var pc := s.threads[e.t].pc;
    match e
    case Upstream(t, q) =>
      // A query id is issued by one backend.
      pc.Routed? && s.threads[t].req.Statement? && pc.url != "" && (q != "" ==> pc.url == env.owner(q))
    case WriteCache(_) => pc.Replied?
    case InsertHistory(_, _) => pc.CacheWritten?
    case Flush(_) => pc.Recorded?
    case Leave(_) => pc.Routed? || pc.Recorded?
  }

  ghost predicate Enabled(env: Env, s: State, e: Event) {
    if Outside(e) then e.t !in s.threads && SF.PcOf(s.sf, e.t).Idle?
    else if e.t !in s.threads then false
    else if InRoute(e) then CanRoute(s, e)
    else if InRecovery(e) then CanRecover(env, s, e)
    else CanReply(env, s, e)
  }

  function At(s: State, t: nat, pc: Pc): State
    requires t in s.threads
  {
    s.(threads := s.threads[t := s.threads[t].(pc := pc)])
  }

  /** Enter the recovery chain: the history look-up goes through the singleflight. */
  function BeginRecovery(s: State, t: nat, id: string, forKill: bool): State
    requires t in s.threads && SF.PcOf(s.sf, t).Idle?
  {
    At(s.(sf := SF.Next(s.sf, SF.Begin(t, id))), t, Recovering(id, forKill))
  }

  /** Leave the recovery chain; "" means it found nothing. */
  function EndRecovery(s: State, t: nat, id: string, forKill: bool, url: string, src: Source): State
    requires t in s.threads
  {
    At(s, t, if url != "" then Routed(id, url, src) else if forKill then AtCache else AtFirstActive)
  }

  ghost function OutsideStep(env: Env, s: State, e: Event): State
    requires Outside(e) && SF.PcOf(s.sf, e.t).Idle?
  {
    match e
    case Arrive(t, req) =>
      var s' := s.(threads := s.threads[t := Thread(req, AtCache)]);
      if KillId(req) != "" then BeginRecovery(s', t, KillId(req), true) else s'
    case Elsewhere(_, q) => s.(rows := Inserted(s.rows, q, env.owner(q)))
  }

  function RouteStep(env: Env, s: State, e: Event): State
    requires InRoute(e) && e.t in s.threads && CanRoute(s, e)
  {
    var id := QueryId(s.threads[e.t].req.uri);
    match e
    case CacheLookup(t) =>
      var hit := QC.Find(s.cache, id);
      if id != "" && hit.Some? then
        At(s.(cache := QC.Touch(s.cache, id), touched := s.touched + [id]), t, Routed(id, hit.value, ViaCache))
      else
        At(s, t, AtExternal)
    case External(t, group) => At(s, t, AtGroup(if group == "" then env.defaultGroup else group))
    case Resolve(t, listed) =>
      var url := if listed.Some? then FirstInGroup(listed.value, s.threads[t].pc.group) else "";
      if url != "" then At(s, t, Routed(id, url, ViaGroup))
      else if id != "" then BeginRecovery(s, t, id, false)
      else At(s, t, AtFirstActive)
    case FirstActive(t, listed) => At(s, t, Routed(id, FirstActiveUrl(listed), ViaFirstActive))
  }

  ghost function RecoveryStep(env: Env, s: State, e: Event): State
    requires InRecovery(e) && e.t in s.threads && CanRecover(env, s, e)
  {
    var pc := s.threads[e.t].pc;
    match e
    case Coalesce(t, step) =>
      s.(sf := SF.Next(s.sf, step), fetched := if step.FnReturns? then s.fetched - {t} else s.fetched)
    case ReadHistory(t, reply) => s.(fetched := s.fetched[t := reply])
    case LookupAnswer(t) =>
      var reply := SF.PcOf(s.sf, t).reply;
      var s' := s.(sf := SF.Next(s.sf, SF.Forget(t)));
      if reply.val != "" then EndRecovery(s', t, pc.id, pc.forKill, reply.val, ViaHistory)
      else At(s', t, AtList(pc.id, pc.forKill))
    case ListForProbe(t, listed) =>
      if listed.None? || listed.value == [] then EndRecovery(s, t, pc.id, pc.forKill, "", ViaDefault)
      else At(s, t, AtProbe(pc.id, pc.forKill, listed.value))
    case Probe(t, _, answer) =>
      if answer != "" then EndRecovery(s, t, pc.id, pc.forKill, answer, ViaProbe)
      else EndRecovery(s, t, pc.id, pc.forKill, FirstActiveUrl(Some(pc.backends)), ViaDefault)
  }

  ghost function ReplyStep(env: Env, s: State, e: Event): State
    requires InReply(e) && e.t in s.threads && CanReply(env, s, e)
  {
    var pc := s.threads[e.t].pc;
    match e
    case Upstream(t, q) => At(s, t, if q == "" then Recorded("", pc.url) else Replied(q, pc.url))
    case WriteCache(t) =>
      At(s.(cache := QC.Put(s.cache, pc.q, pc.url, QC.DEFAULT_CACHE_SIZE), touched := s.touched + [pc.q]),
         t, CacheWritten(pc.q, pc.url))
    case InsertHistory(t, ok) =>
      At(s.(rows := if ok then Inserted(s.rows, pc.q, pc.url) else s.rows), t, Recorded(pc.q, pc.url))
    case Flush(t) =>
      s.(threads := s.threads - {t}, sent := if pc.q == "" then s.sent else s.sent + {(pc.q, pc.url)})
    case Leave(t) => s.(threads := s.threads - {t})
  }

  ghost function Next(env: Env, s: State, e: Event): State
    requires Enabled(env, s, e)
  {
    if Outside(e) then OutsideStep(env, s, e)
    else if InRoute(e) then RouteStep(env, s, e)
    else if InRecovery(e) then RecoveryStep(env, s, e)
    else ReplyStep(env, s, e)
  }

  ghost predicate IsRun(env: Env, run: seq<Event>)
    decreases |run|, 0
  {
    run == [] ||
    (IsRun(env, run[..|run| - 1]) && Enabled(env, After(env, run[..|run| - 1]), run[|run| - 1]))
  }

  ghost function After(env: Env, run: seq<Event>): State
    requires IsRun(env, run)
    decreases |run|, 1
  {
    if run == [] then Initial(env) else Next(env, After(env, run[..|run| - 1]), run[|run| - 1])
  }

  // ---------- What every step keeps ----------

  predicate Trusted(src: Source) {
    src.ViaCache? || src.ViaHistory? || src.ViaProbe?
  }

  /** What a SELECT has read is the row of its query, or nothing. */
  ghost predicate ReadOk(env: Env, s: State, t: nat) {
    t in s.fetched ==>
      var pc := SF.PcOf(s.sf, t);
      pc.Running? && (s.fetched[t].val != "" ==> pc.key in s.rows && s.fetched[t].val == env.owner(pc.key))
  }

  ghost predicate ThreadOk(env: Env, s: State, t: nat) {
    if t !in s.threads then SF.PcOf(s.sf, t).Idle?
    else
      var pc := s.threads[t].pc;
      && (if pc.Recovering? then !SF.PcOf(s.sf, t).Idle? && SF.PcOf(s.sf, t).key == pc.id
          else SF.PcOf(s.sf, t).Idle?)
      && (pc.Routed? && Trusted(pc.src) ==> pc.url == env.owner(pc.id))
      && (pc.Replied? ==> pc.q != "" && pc.url == env.owner(pc.q))
      && (pc.CacheWritten? ==> pc.q != "" && pc.url == env.owner(pc.q) && pc.q in s.touched)
      && (pc.Recorded? && pc.q != "" ==> pc.url == env.owner(pc.q) && pc.q in s.touched)
  }

  /** A look-up that found something found the row of its query. */
  ghost predicate CallOk(env: Env, s: State, c: SF.Call) {
    c.reply.Some? && c.reply.value.val != "" ==> c.key in s.rows && c.reply.value.val == env.owner(c.key)
  }

  /** The shared tables name owners, and the cache is the most recent ids, newest first. */
  ghost predicate TablesOk(env: Env, s: State) {
    && QC.Keys(s.cache) == QC.Take(QC.Recent(s.touched), QC.DEFAULT_CACHE_SIZE)
    && (forall en :: en in s.cache ==> en.val == env.owner(en.key))
    && (forall q :: q in s.rows ==> s.rows[q] == env.owner(q))
    && (forall p :: p in s.sent ==> p.1 == env.owner(p.0) && p.0 in s.touched)
  }

  ghost predicate Inv(env: Env, s: State) {
    && SF.Inv(s.sf)
    && TablesOk(env, s)
    && (forall c :: c in s.sf.calls ==> CallOk(env, s, c))
    && (forall t :: ThreadOk(env, s, t))
    && (forall t :: ReadOk(env, s, t))
  }

  /** A step of `u` leaves thread t where it is, and the logs and the history only grow. */
  ghost predicate Framed(s: State, s': State, u: nat, t: nat) {
    && (t != u ==>
          && (t in s'.threads <==> t in s.threads)
          && (t in s.threads ==> s'.threads[t] == s.threads[t])
          && (t in s'.fetched <==> t in s.fetched)
          && (t in s.fetched ==> s'.fetched[t] == s.fetched[t])
          && SF.PcOf(s'.sf, t) == SF.PcOf(s.sf, t))
    && s.touched <= s'.touched && s.sent <= s'.sent
    && (forall q :: q in s.rows ==> q in s'.rows && s'.rows[q] == s.rows[q])
  }

  lemma RouteFrame(env: Env, s: State, e: Event, t: nat)
    requires InRoute(e) && e.t in s.threads && CanRoute(s, e)
    ensures Framed(s, RouteStep(env, s, e), e.t, t)
  {
    hide QC.Find; hide QC.Touch; hide QueryId; hide FirstInGroup;
  }

  lemma RecoveryFrame(env: Env, s: State, e: Event, t: nat)
    requires InRecovery(e) && e.t in s.threads && CanRecover(env, s, e)
    ensures Framed(s, RecoveryStep(env, s, e), e.t, t)
  {
    hide FO.MayReturn; hide Urls;
  }

  lemma ReplyFrame(env: Env, s: State, e: Event, t: nat)
    requires InReply(e) && e.t in s.threads && CanReply(env, s, e)
    ensures Framed(s, ReplyStep(env, s, e), e.t, t)
  {
    hide QC.Put;
  }

  lemma Frame(env: Env, s: State, e: Event, t: nat)
    requires Enabled(env, s, e)
    ensures Framed(s, Next(env, s, e), e.t, t)
  {
    hide RouteStep; hide RecoveryStep; hide ReplyStep; hide CanRoute; hide CanRecover; hide CanReply;
    if InRoute(e) { RouteFrame(env, s, e, t); }
    else if InRecovery(e) { RecoveryFrame(env, s, e, t); }
    else if InReply(e) { ReplyFrame(env, s, e, t); }
  }

  // What a step keeps of its own thread, and of the tables.

  ghost predicate StepOk(env: Env, s': State, t: nat) {
    TablesOk(env, s') && ThreadOk(env, s', t) && ReadOk(env, s', t)
  }

  lemma OutsideKeeps(env: Env, s: State, e: Event)
    requires Outside(e) && e.t !in s.threads && SF.PcOf(s.sf, e.t).Idle? && StepOk(env, s, e.t)
    ensures StepOk(env, OutsideStep(env, s, e), e.t)
  {
    hide QC.Keys; hide QC.Recent; hide QC.Take;
  }

  lemma CacheTouched(env: Env, s: State, id: string)
    requires TablesOk(env, s) && QC.Find(s.cache, id).Some?
    ensures TablesOk(env, s.(cache := QC.Touch(s.cache, id), touched := s.touched + [id]))
    ensures QC.Find(s.cache, id).value == env.owner(id)
  {
    QC.TouchKeepsRecent(s.cache, s.touched, id, QC.DEFAULT_CACHE_SIZE);
    QC.WithoutSubset(s.cache, id);
    assert QC.Entry(id, QC.Find(s.cache, id).value) in s.cache;
  }

  lemma RouteKeeps(env: Env, s: State, e: Event)
    requires InRoute(e) && e.t in s.threads && CanRoute(s, e) && StepOk(env, s, e.t)
    ensures StepOk(env, RouteStep(env, s, e), e.t)
  {
    hide QC.Find; hide QC.Touch; hide QC.Keys; hide QC.Recent; hide QC.Take; hide QueryId; hide FirstInGroup;
    var id := QueryId(s.threads[e.t].req.uri);
    if e.CacheLookup? && QC.Find(s.cache, id).Some? { CacheTouched(env, s, id); }
  }

  /** What the look-up of t has come back with. */
  ghost predicate AnswerOk(env: Env, s: State, t: nat) {
    var pc := SF.PcOf(s.sf, t);
    pc.Returned? && pc.reply.val != "" ==> pc.reply.val == env.owner(pc.key)
  }

  lemma RecoveryKeeps(env: Env, s: State, e: Event)
    requires InRecovery(e) && e.t in s.threads && CanRecover(env, s, e) && StepOk(env, s, e.t) && AnswerOk(env, s, e.t)
    ensures StepOk(env, RecoveryStep(env, s, e), e.t)
  {
    hide TablesOk; hide FO.MayReturn; hide Urls;
    SameTables(env, s, RecoveryStep(env, s, e));
    if e.ReadHistory? { RowsOk(env, s); }
    if e.Probe? && e.answer != "" { ProbeNamesOwner(env, s, e); }
  }

  lemma ProbeNamesOwner(env: Env, s: State, e: Event)
    requires e.Probe? && e.t in s.threads && CanRecover(env, s, e) && e.answer != ""
    ensures e.answer == env.owner(s.threads[e.t].pc.id)
  {
  }

  lemma RowsOk(env: Env, s: State)
    requires TablesOk(env, s)
    ensures forall q :: q in s.rows ==> s.rows[q] == env.owner(q)
  {
  }

  lemma SameTables(env: Env, s: State, s': State)
    requires TablesOk(env, s) && s'.cache == s.cache && s'.rows == s.rows && s'.touched == s.touched
             && s'.sent == s.sent
    ensures TablesOk(env, s')
  {
  }

  lemma CachePut(env: Env, s: State, q: string, url: string)
    requires TablesOk(env, s) && url == env.owner(q)
    ensures TablesOk(env, s.(cache := QC.Put(s.cache, q, url, QC.DEFAULT_CACHE_SIZE), touched := s.touched + [q]))
  {
    QC.PutKeepsRecent(s.cache, s.touched, q, url, QC.DEFAULT_CACHE_SIZE);
    QC.WithoutSubset(s.cache, q);
  }

  lemma ReplyKeeps(env: Env, s: State, e: Event)
    requires InReply(e) && e.t in s.threads && CanReply(env, s, e) && StepOk(env, s, e.t)
    ensures StepOk(env, ReplyStep(env, s, e), e.t)
  {
    hide QC.Put; hide QC.Keys; hide QC.Recent; hide QC.Take;
    if e.WriteCache? { CachePut(env, s, s.threads[e.t].pc.q, s.threads[e.t].pc.url); }
  }

  lemma AnswersOk(env: Env, s: State, t: nat)
    requires Inv(env, s)
    ensures AnswerOk(env, s, t)
  {
    assert SF.PcOk(s.sf, t);
    if SF.PcOf(s.sf, t).Returned? {
      assert s.sf.calls[SF.PcOf(s.sf, t).c] in s.sf.calls;
      assert CallOk(env, s, s.sf.calls[SF.PcOf(s.sf, t).c]);
    }
  }

  lemma NextKeeps(env: Env, s: State, e: Event)
    requires Inv(env, s) && Enabled(env, s, e)
    ensures StepOk(env, Next(env, s, e), e.t)
  {
    assert StepOk(env, s, e.t);
    AnswersOk(env, s, e.t);
    hide StepOk; hide AnswerOk; hide Inv;
    hide OutsideStep; hide RouteStep; hide RecoveryStep; hide ReplyStep; hide CanRoute; hide CanRecover; hide CanReply;
    if Outside(e) { OutsideKeeps(env, s, e); }
    else if InRoute(e) { RouteKeeps(env, s, e); }
    else if InRecovery(e) { RecoveryKeeps(env, s, e); }
    else { ReplyKeeps(env, s, e); }
  }

  lemma OtherKeeps(env: Env, s: State, e: Event, t: nat)
    requires ThreadOk(env, s, t) && ReadOk(env, s, t) && Enabled(env, s, e) && t != e.t
    ensures ThreadOk(env, Next(env, s, e), t) && ReadOk(env, Next(env, s, e), t)
  {
    hide Next; hide Enabled;
    Frame(env, s, e, t);
  }

  lemma NextThread(env: Env, s: State, e: Event, t: nat)
    requires Inv(env, s) && Enabled(env, s, e)
    ensures ThreadOk(env, Next(env, s, e), t) && ReadOk(env, Next(env, s, e), t)
  {
    NextKeeps(env, s, e);
    assert ThreadOk(env, s, t) && ReadOk(env, s, t);
    hide Next; hide Enabled; hide Inv; hide TablesOk; hide ThreadOk; hide ReadOk;
    if t != e.t { OtherKeeps(env, s, e, t); }
  }

  /** Only a step inside the singleflight changes call records, and a record is filled with what was read. */
  lemma SfStep(env: Env, s: State, e: Event)
    requires Enabled(env, s, e)
    ensures !e.Coalesce? ==> Next(env, s, e).sf.calls == s.sf.calls
    ensures e.Coalesce? ==>
              && e.t in s.threads && s.threads[e.t].pc.Recovering? && e.step.t == e.t
              && SF.Enabled(s.sf, e.step) && Next(env, s, e).sf == SF.Next(s.sf, e.step)
              && (e.step.FnReturns? ==> e.t in s.fetched && e.step.reply == s.fetched[e.t])
  {
    hide QC.Find; hide QC.Touch; hide QC.Put; hide QueryId; hide FirstInGroup; hide FO.MayReturn; hide Urls;
  }

  /** What has been read changes only by a read and by the return of a look-up. */
  lemma FetchedStep(env: Env, s: State, e: Event)
    requires Enabled(env, s, e)
    ensures
      var s' := Next(env, s, e);
      if e.ReadHistory? then
        && e.t in s.threads && s.threads[e.t].pc.Recovering? && SF.PcOf(s.sf, e.t).Running?
        && LookupReply(s, s.threads[e.t].pc.id, e.reply)
        && s'.fetched == s.fetched[e.t := e.reply] && s'.sf == s.sf
      else
        s'.fetched == if e.Coalesce? && e.step.FnReturns? then s.fetched - {e.t} else s.fetched
  {
    hide QC.Find; hide QC.Touch; hide QC.Put; hide QueryId; hide FirstInGroup; hide FO.MayReturn; hide Urls;
  }

  lemma NextCalls(env: Env, s: State, e: Event, c: SF.Call)
    requires Inv(env, s) && Enabled(env, s, e) && c in Next(env, s, e).sf.calls
    ensures CallOk(env, Next(env, s, e), c)
  {
    hide Next; hide Enabled; hide TablesOk;
    SfStep(env, s, e);
    Frame(env, s, e, 0);
    if c in s.sf.calls {
      assert CallOk(env, s, c);
    } else {
      assert ThreadOk(env, s, e.t) && ReadOk(env, s, e.t);
      assert SF.PcOk(s.sf, e.t);
      if SF.PcOf(s.sf, e.t).Stored? {
        assert s.sf.calls[SF.PcOf(s.sf, e.t).c] in s.sf.calls;
      }
    }
  }

  /** Every event of the gateway is at most one step of the singleflight. */
  lemma SfMoves(env: Env, s: State, e: Event) returns (step: Option<SF.Event>)
    requires Enabled(env, s, e)
    ensures
      match step
      case None => Next(env, s, e).sf == s.sf
      case Some(x) =>
        && x.t == e.t && SF.Enabled(s.sf, x) && Next(env, s, e).sf == SF.Next(s.sf, x)
        && (x.FnReturns? ==> e == Coalesce(e.t, x))
        && (x.Begin? || x.Forget? <==> !e.Coalesce?)
  {
    hide QC.Find; hide QC.Touch; hide QC.Put; hide QueryId; hide FirstInGroup; hide FO.MayReturn; hide Urls;
    step := None;
    if e.Coalesce? {
      step := Some(e.step);
    } else if e.LookupAnswer? {
      step := Some(SF.Forget(e.t));
    } else if e.Arrive? && KillId(e.req) != "" {
      step := Some(SF.Begin(e.t, e.req.kill));
    } else if e.Resolve? && Next(env, s, e).sf != s.sf {
      step := Some(SF.Begin(e.t, QueryId(s.threads[e.t].req.uri)));
    }
  }

  lemma NextSf(env: Env, s: State, e: Event)
    requires Inv(env, s) && Enabled(env, s, e)
    ensures SF.Inv(Next(env, s, e).sf)
  {
    assert SF.Inv(s.sf);
    hide Inv; hide Next; hide Enabled; hide SF.Inv; hide SF.Next; hide SF.Enabled;
    var step := SfMoves(env, s, e);
    if step.Some? { SF.NextKeepsInv(s.sf, step.value); }
  }

  lemma NextKeepsInv(env: Env, s: State, e: Event)
    requires Inv(env, s) && Enabled(env, s, e)
    ensures Inv(env, Next(env, s, e))
  {
    var s' := Next(env, s, e);
    hide Next; hide Enabled; hide SF.Inv; hide TablesOk; hide ThreadOk; hide ReadOk; hide CallOk;
    NextKeeps(env, s, e);
    forall t ensures ThreadOk(env, s', t) && ReadOk(env, s', t) { NextThread(env, s, e, t); }
    forall c | c in s'.sf.calls ensures CallOk(env, s', c) { NextCalls(env, s, e, c); }
    NextSf(env, s, e);
  }

  lemma {:induction false} RunKeepsInv(env: Env, run: seq<Event>)
    requires IsRun(env, run)
    ensures Inv(env, After(env, run))
  {
    if run != [] {
      RunKeepsInv(env, run[..|run| - 1]);
      NextKeepsInv(env, After(env, run[..|run| - 1]), run[|run| - 1]);
    }
  }

  // ---------- Whole-run safety ----------

  lemma {:induction false} RunFrame(env: Env, run: seq<Event>, more: seq<Event>)
    requires IsRun(env, run + more)
    ensures IsRun(env, run)
    ensures
      var s, s' := After(env, run), After(env, run + more);
      && s.touched <= s'.touched && s.sent <= s'.sent
      && (forall q :: q in s.rows ==> q in s'.rows && s'.rows[q] == s.rows[q])
  {
    if more == [] {
      assert run + more == run;
    } else {
      var n := |more| - 1;
      assert (run + more)[..|run| + n] == run + more[..n];
      RunFrame(env, run, more[..n]);
      Frame(env, After(env, run + more[..n]), more[n], 0);
    }
  }

  /**
   Sticky routing over every interleaving. Once a client has been sent a statement
   reply carrying q from b, any later look-up made by Route for a path naming q
   finds b, exactly as long as fewer than 4096 distinct other ids were written or
   hit since q last was.
   */
  lemma StickyRouting(env: Env, run: seq<Event>, more: seq<Event>, t: nat, q: string, b: string)
    requires IsRun(env, run) && (q, b) in After(env, run).sent
    requires IsRun(env, run + more) && Enabled(env, After(env, run + more), CacheLookup(t))
    requires q != "" && QueryId(After(env, run + more).threads[t].req.uri) == q
    ensures
      var s := After(env, run + more);
      var pc := Next(env, s, CacheLookup(t)).threads[t].pc;
      if |QC.OthersSince(s.touched, q)| < 4096
      then pc == Routed(q, b, ViaCache)
      else pc == AtExternal
  {
    RunFrame(env, run, more);
    RunKeepsInv(env, run + more);
    var s := After(env, run + more);
    assert (q, b) in s.sent;
    QC.RetainedIffFewOthers(s.cache, s.touched, q, QC.DEFAULT_CACHE_SIZE);
    if QC.Find(s.cache, q).Some? { CacheTouched(env, s, q); }
  }

  ghost predicate OwnersOnly(env: Env, s: State) {
    && (forall en :: en in s.cache ==> en.val == env.owner(en.key))
    && (forall q :: q in s.rows ==> s.rows[q] == env.owner(q))
    && (forall p :: p in s.sent ==> p.1 == env.owner(p.0))
    && (forall t :: t in s.threads && s.threads[t].pc.Routed? && Trusted(s.threads[t].pc.src) ==>
          s.threads[t].pc.url == env.owner(s.threads[t].pc.id))
  }

  /**
   With unique ownership, every cache entry and history row of every reachable
   state names the owner, and so does every answer of Route taken from the cache,
   from history or from a probe, coalesced or not. Only the group, the first-active
   default of the recovery chain and the final fallback can name another backend.
   */
  lemma AnswersNameTheOwner(env: Env, run: seq<Event>)
    requires IsRun(env, run)
    ensures OwnersOnly(env, After(env, run))
  {
    RunKeepsInv(env, run);
    InvNamesTheOwner(env, After(env, run));
  }

  lemma InvNamesTheOwner(env: Env, s: State)
    requires Inv(env, s)
    ensures OwnersOnly(env, s)
  {
    forall t | t in s.threads && s.threads[t].pc.Routed? && Trusted(s.threads[t].pc.src)
      ensures s.threads[t].pc.url == env.owner(s.threads[t].pc.id)
    {
      assert ThreadOk(env, s, t);
    }
  }
}
