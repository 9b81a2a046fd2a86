/**
 When a poll of a query resource is certain to reach the backend of its query
 (internal/routing/router.go:163-187 with internal/routing/cache.go).

 The statements hold of every state the gateway can reach. All other requests may
 go on while the poll is handled, and so may other gateways; what they do to the
 cache is measured by how many further ids they touch.
 */
module Polls {
  import opened Basics
  import opened Gateway
  import opened Traces
  import QC = QueryCache
  import SF = SingleFlight

  /** The ids other than `id` touched from s to s'. */
  ghost function OthersTouched(s: State, s': State, id: string): set<string> {
    if |s.touched| <= |s'.touched| then set x | x in s'.touched[|s.touched|..] && x != id else {}
  }

  /**
   A poll of `uri` arriving on thread t in state s can be routed to `url` while no
   more than n other ids are touched.
   */
  ghost predicate PollMayRoute(env: Env, s: State, t: nat, uri: string, n: nat, url: string) {
    exists evs, s' ::
      && Leads(env, s, [Arrive(t, Stream(uri))] + evs, s')
      && (forall e :: e in evs && e.Arrive? ==> e.t != t)
      && |OthersTouched(s, s', QueryId(uri))| <= n
      && t in s'.threads && s'.threads[t].pc.Routed? && s'.threads[t].pc.url == url
  }

  /** The query of the path is cached, and stays so even if n more ids are touched. */
  ghost predicate StaysCached(s: State, id: string, n: nat) {
    id != "" && id in s.touched && |QC.OthersSince(s.touched, id)| + n < 4096
  }

  lemma StreamArrives(env: Env, s: State, t: nat, uri: string) returns (s0: State)
    requires Inv(env, s) && t !in s.threads
    ensures Step(env, s, Arrive(t, Stream(uri)), s0) && Inv(env, s0) && SF.PcOf(s0.sf, t).Idle?
    ensures s0 == s.(threads := s.threads[t := Thread(Stream(uri), AtCache)])
  {
    assert ThreadOk(env, s, t);
    s0 := s.(threads := s.threads[t := Thread(Stream(uri), AtCache)]);
    assert Step(env, s, Arrive(t, Stream(uri)), s0);
    hide Inv; hide Step;
    StepKeepsInv(env, s, Arrive(t, Stream(uri)), s0);
  }

  // ---------- Certain while the entry stays ----------

  lemma SubsetCount<T>(a: set<T>, b: set<T>)
    requires a <= b
    ensures |a| <= |b|
  {
    assert b == a + (b - a);
  }

  lemma StillFew(log: seq<string>, mid: seq<string>, last: seq<string>, q: string, n: nat)
    requires log <= mid <= last
    requires |set x | x in last[|log|..] && x != q| <= n
    ensures |QC.OthersSince(mid, q)| <= |QC.OthersSince(log, q)| + n
  {
    hide QC.OthersSince;
    var more, all := set x | x in mid[|log|..] && x != q, set x | x in last[|log|..] && x != q;
    QC.OthersSinceMore(log, mid[|log|..], q);
    assert log + mid[|log|..] == mid;
    assert last[|log|..][..|mid| - |log|] == mid[|log|..];
    assert more <= all;
    SubsetCount(more, all);
    var since := QC.OthersSince(log, q);
    SubsetCount(QC.OthersSince(mid, q), since + more);
    assert |since + more| <= |since| + |more|;
  }

  ghost predicate OnCourse(env: Env, s: State, t: nat, uri: string) {
    t in s.threads ==>
      && s.threads[t].req == Stream(uri)
      && (s.threads[t].pc == AtCache || (s.threads[t].pc.Routed? && s.threads[t].pc.url == env.owner(QueryId(uri))))
  }

  lemma Hit(env: Env, s: State, id: string)
    requires Inv(env, s) && id in s.touched && |QC.OthersSince(s.touched, id)| < QC.DEFAULT_CACHE_SIZE
    ensures QC.Find(s.cache, id) == Some(env.owner(id))
  {
    QC.RetainedIffFewOthers(s.cache, s.touched, id, QC.DEFAULT_CACHE_SIZE);
    CacheTouched(env, s, id);
  }

  lemma OwnPollStep(env: Env, s: State, e: Event, uri: string)
    requires Enabled(env, s, e) && OnCourse(env, s, e.t, uri) && !e.Arrive?
    requires QueryId(uri) != "" && QC.Find(s.cache, QueryId(uri)) == Some(env.owner(QueryId(uri)))
    ensures OnCourse(env, Next(env, s, e), e.t, uri)
  {
    hide QC.Find; hide QC.Touch; hide QueryId;
  }

  lemma {:induction false} CourseKept(env: Env, s: State, s1: State, evs: seq<Event>, s': State, t: nat, uri: string,
                                      n: nat)
    requires Inv(env, s1) && OnCourse(env, s1, t, uri) && Leads(env, s1, evs, s')
    requires forall e :: e in evs && e.Arrive? ==> e.t != t
    requires StaysCached(s, QueryId(uri), n) && s.touched <= s1.touched && |OthersTouched(s, s', QueryId(uri))| <= n
    ensures OnCourse(env, s', t, uri)
    decreases |evs|
  {
    hide Next; hide Enabled; hide Inv; hide OnCourse; hide QueryId; hide QC.OthersSince;
    if evs != [] {
      var e, id := evs[0], QueryId(uri);
      assert e in evs;
      var s2 := Next(env, s1, e);
      NextKeepsInv(env, s1, e);
      Frame(env, s1, e, t);
      LeadsKeepInv(env, s2, evs[1..], s');
      if e.t == t {
        StillFew(s.touched, s1.touched, s'.touched, id, n);
        Hit(env, s1, id);
        OwnPollStep(env, s1, e, uri);
      } else {
        OtherOnCourse(env, s1, s2, e.t, t, uri);
      }
      CourseKept(env, s, s2, evs[1..], s', t, uri, n);
    }
  }

  lemma OtherOnCourse(env: Env, s: State, s': State, u: nat, t: nat, uri: string)
    requires OnCourse(env, s, t, uri) && Framed(s, s', u, t) && t != u
    ensures OnCourse(env, s', t, uri)
  {
  }

  lemma StaysCertain(env: Env, s: State, t: nat, uri: string, n: nat, url: string)
    requires Inv(env, s) && t !in s.threads && StaysCached(s, QueryId(uri), n)
    requires PollMayRoute(env, s, t, uri, n, url)
    ensures url == env.owner(QueryId(uri))
  {
    hide Inv; hide Next; hide Enabled; hide Leads; hide Step; hide StaysCached; hide OthersTouched; hide QueryId;
    var evs, s' :| && Leads(env, s, [Arrive(t, Stream(uri))] + evs, s')
                   && (forall e :: e in evs && e.Arrive? ==> e.t != t)
                   && |OthersTouched(s, s', QueryId(uri))| <= n
                   && t in s'.threads && s'.threads[t].pc.Routed? && s'.threads[t].pc.url == url;
    var s0 := StreamArrives(env, s, t, uri);
    LeadsOn(env, s, Arrive(t, Stream(uri)), s0, evs, s');
    CourseKept(env, s, s0, evs, s', t, uri, n);
  }

  // ---------- Not certain otherwise ----------

  ghost predicate AnotherId(env: Env, known: set<string>) {
    exists x :: x !in known && x != "" && env.owner(x) != ""
  }

  /** Whatever ids have been issued, there is another one to issue. */
  ghost predicate IdsNeverRunOut(env: Env) {
    forall known :: AnotherId(env, known)
  }

  lemma MayRouteBy(env: Env, s: State, t: nat, uri: string, n: nat, s0: State, evs: seq<Event>, s': State)
    requires Step(env, s, Arrive(t, Stream(uri)), s0) && Leads(env, s0, evs, s')
    requires forall e :: e in evs && e.Arrive? ==> e.t != t
    requires |OthersTouched(s, s', QueryId(uri))| <= n
    requires t in s'.threads && s'.threads[t].pc.Routed?
    ensures PollMayRoute(env, s, t, uri, n, s'.threads[t].pc.url)
  {
    hide Next; hide Enabled; hide Step; hide Leads; hide OthersTouched; hide QueryId;
    LeadsOn(env, s, Arrive(t, Stream(uri)), s0, evs, s');
  }

  lemma MissMayStray(env: Env, s: State, t: nat, uri: string, n: nat, stray: string)
    requires Inv(env, s) && t !in s.threads && stray != ""
    requires QueryId(uri) == "" || QC.Find(s.cache, QueryId(uri)).None?
    ensures PollMayRoute(env, s, t, uri, n, stray)
  {
    hide Inv; hide Step; hide Leads; hide PollMayRoute; hide QC.Find; hide QueryId;
    var s0 := StreamArrives(env, s, t, uri);
    var evs, s' := StrayFrom(env, s0, t, stray);
    assert OthersTouched(s, s', QueryId(uri)) == {};
    MayRouteBy(env, s, t, uri, n, s0, evs, s');
  }

  lemma HitMayRoute(env: Env, s: State, t: nat, uri: string, n: nat)
    requires Inv(env, s) && t !in s.threads
    requires QueryId(uri) != "" && QC.Find(s.cache, QueryId(uri)).Some?
    ensures PollMayRoute(env, s, t, uri, n, QC.Find(s.cache, QueryId(uri)).value)
  {
    hide Inv; hide Step; hide Leads; hide PollMayRoute; hide QC.Touch; hide QC.Find; hide QueryId;
    var s0 := StreamArrives(env, s, t, uri);
    HitStep(env, s0, t);
    var id := QueryId(uri);
    var s' := At(s0.(cache := QC.Touch(s.cache, id), touched := s.touched + [id]), t,
                 Routed(id, QC.Find(s.cache, id).value, ViaCache));
    assert Leads(env, s0, [], s0) by { Nowhere(env, s0); }
    var evs := Then(env, s0, [], s0, CacheLookup(t), s');
    assert OthersTouched(s, s', id) == {};
    MayRouteBy(env, s, t, uri, n, s0, evs, s');
  }

  lemma FreshThread(threads: map<nat, Thread>, bound: nat) returns (u: nat)
    ensures u !in threads && u >= bound
    decreases |threads.Keys|
  {
    if t: nat :| t in threads && t >= bound {
      var fewer := threads - {t};
      assert fewer.Keys == threads.Keys - {t};
      u := FreshThread(fewer, t + 1);
    } else {
      u := bound;
    }
  }

  ghost function Ids(xs: seq<string>): set<string> { set x | x in xs }

  /** n statements one after the other, each issuing an id not seen before. */
  lemma {:induction false} IssueMany(env: Env, s: State, t: nat, known: set<string>, n: nat)
    returns (evs: seq<Event>, xs: seq<string>, s': State)
    requires IdsNeverRunOut(env) && t !in s.threads && SF.PcOf(s.sf, t).Idle?
    ensures Leads(env, s, evs, s') && OnlyBy(evs, t)
    ensures s'.touched == s.touched + xs && s'.threads == s.threads && s'.sf == s.sf
    ensures |Ids(xs)| == n && Ids(xs) !! known
  {
    hide Leads; hide IdsNeverRunOut; hide Issued; hide Ids; hide SF.PcOf;
    if n == 0 {
      evs, xs, s' := [], [], s;
      Nowhere(env, s);
      assert Ids([]) == {} by { IdsOf([]); }
    } else {
      var some, ys, s1 := IssueMany(env, s, t, known, n - 1);
      var x := PickId(env, known + Ids(ys));
      var more := Issue(env, s1, t, x);
      s' := Issued(env, s1, x);
      IssuedTouches(env, s1, x);
      LeadsAppend(env, s, some, s1, more, s');
      evs, xs := some + more, ys + [x];
      assert s.touched + ys + [x] == s.touched + xs;
      OneMoreId(ys, x, known);
    }
  }

  lemma PickId(env: Env, known: set<string>) returns (x: string)
    requires IdsNeverRunOut(env)
    ensures x !in known && x != "" && env.owner(x) != ""
  {
    assert AnotherId(env, known);
    x :| x !in known && x != "" && env.owner(x) != "";
  }

  lemma IdsOf(xs: seq<string>)
    ensures forall x :: x in Ids(xs) <==> x in xs
  {
  }

  lemma OneMoreId(ys: seq<string>, x: string, known: set<string>)
    requires Ids(ys) !! known && x !in known + Ids(ys)
    ensures |Ids(ys + [x])| == |Ids(ys)| + 1 && Ids(ys + [x]) !! known
  {
    assert Ids(ys + [x]) == Ids(ys) + {x};
  }

  lemma IssuedTouches(env: Env, s: State, x: string)
    ensures Issued(env, s, x).touched == s.touched + [x]
    ensures Issued(env, s, x).threads == s.threads && Issued(env, s, x).sf == s.sf
  {
  }

  lemma NewIdsCount(log: seq<string>, id: string, xs: seq<string>)
    requires id in log && Ids(xs) !! Ids(log)
    ensures |QC.OthersSince(log + xs, id)| == |QC.OthersSince(log, id)| + |Ids(xs)|
  {
    QC.OthersSinceMore(log, xs, id);
    SinceIsTouched(log, id);
    hide QC.OthersSince;
    assert id in Ids(log);
    assert id in xs ==> id in Ids(xs);
    var since := QC.OthersSince(log, id);
    assert since !! Ids(xs);
    assert |since + Ids(xs)| == |since| + |Ids(xs)|;
  }

  /** Enough new ids push an entry out. */
  lemma PushedOut(env: Env, s: State, s': State, id: string, xs: seq<string>)
    requires Inv(env, s') && id in s.touched && s'.touched == s.touched + xs
    requires Ids(xs) !! Ids(s.touched)
    requires |QC.OthersSince(s.touched, id)| + |Ids(xs)| >= QC.DEFAULT_CACHE_SIZE
    ensures QC.Find(s'.cache, id).None?
  {
    hide QC.OthersSince; hide QC.Find; hide QC.Keys; hide QC.Recent; hide QC.Take; hide Ids; hide SF.Inv;
    NewIdsCount(s.touched, id, xs);
    QC.RetainedIffFewOthers(s'.cache, s'.touched, id, QC.DEFAULT_CACHE_SIZE);
  }

  lemma {:induction false} SinceIsTouched(log: seq<string>, q: string)
    ensures QC.OthersSince(log, q) <= Ids(log)
  {
    if log != [] { SinceIsTouched(log[..|log| - 1], q); }
  }

  lemma EvictedMayStray(env: Env, s: State, t: nat, uri: string, n: nat, stray: string)
    requires Inv(env, s) && t !in s.threads && stray != "" && IdsNeverRunOut(env)
    requires QueryId(uri) in s.touched && |QC.OthersSince(s.touched, QueryId(uri))| + n >= QC.DEFAULT_CACHE_SIZE
    ensures PollMayRoute(env, s, t, uri, n, stray)
  {
    hide Step; hide Leads; hide PollMayRoute; hide QC.Find; hide QueryId; hide IdsNeverRunOut; hide QC.OthersSince;
    var id := QueryId(uri);
    var s0 := StreamArrives(env, s, t, uri);
    var u := FreshThread(s0.threads, 0);
    assert ThreadOk(env, s0, u);
    hide Inv;
    var evs, xs, s1 := IssueMany(env, s0, u, Ids(s.touched), n);
    LeadsKeepInv(env, s0, evs, s1);
    PushedOut(env, s0, s1, id, xs);
    var more, s' := StrayFrom(env, s1, t, stray);
    LeadsAppend(env, s0, evs, s1, more, s');
    assert s'.touched[|s.touched|..] == xs;
    assert OthersTouched(s, s', id) <= Ids(xs);
    SubsetCount(OthersTouched(s, s', id), Ids(xs));
    MayRouteBy(env, s, t, uri, n, s0, evs + more, s');
  }

  lemma OtherwiseMayStray(env: Env, s: State, t: nat, uri: string, n: nat, b: string) returns (url: string)
    requires Inv(env, s) && t !in s.threads && (n > 0 ==> IdsNeverRunOut(env))
    requires !StaysCached(s, QueryId(uri), n) || env.owner(QueryId(uri)) != b
    ensures PollMayRoute(env, s, t, uri, n, url) && url != b
  {
    var id, stray := QueryId(uri), b + "x";
    assert stray != b && stray != "";
    if id == "" || QC.Find(s.cache, id).None? {
      MissMayStray(env, s, t, uri, n, stray);
      return stray;
    }
    CacheTouched(env, s, id);
    CachedIsTouched(env, s, id);
    hide Inv; hide PollMayRoute; hide QueryId; hide QC.Find; hide IdsNeverRunOut; hide QC.OthersSince;
    if env.owner(id) != b {
      HitMayRoute(env, s, t, uri, n);
      url := env.owner(id);
    } else {
      EvictedMayStray(env, s, t, uri, n, stray);
      url := stray;
    }
  }

  lemma CachedIsTouched(env: Env, s: State, id: string)
    requires Inv(env, s) && QC.Find(s.cache, id).Some?
    ensures id in s.touched && |QC.OthersSince(s.touched, id)| < QC.DEFAULT_CACHE_SIZE
  {
    assert QC.Entry(id, QC.Find(s.cache, id).value) in s.cache;
    var i :| 0 <= i < |s.cache| && s.cache[i] == QC.Entry(id, QC.Find(s.cache, id).value);
    assert QC.Keys(s.cache)[i] == id;
    assert id in QC.Recent(s.touched);
    QC.RecentDistinct(s.touched);
    QC.RetainedIffFewOthers(s.cache, s.touched, id, QC.DEFAULT_CACHE_SIZE);
  }

  /**
   After any run, a poll is certain to be routed to b, whatever other requests do that
   touches at most n other ids, if its path names a query owned by b that was touched
   and the ids touched since, together with n more, are fewer than 4096. It is certain
   only then, if n > 0 while there are always further ids to issue. Being recorded in the
   history table is not enough: on a miss the routing group comes before the recovery
   chain.
   */
  lemma PollIsCertainIff(env: Env, run: seq<Event>, t: nat, uri: string, n: nat, b: string)
    requires IsRun(env, run) && t !in After(env, run).threads
    ensures
      var s := After(env, run);
      var certain := forall url :: PollMayRoute(env, s, t, uri, n, url) ==> url == b;
      && (StaysCached(s, QueryId(uri), n) && env.owner(QueryId(uri)) == b ==> certain)
      && ((n > 0 ==> IdsNeverRunOut(env)) && certain ==>
            StaysCached(s, QueryId(uri), n) && env.owner(QueryId(uri)) == b)
  {
    hide IsRun; hide After; hide PollMayRoute; hide Inv; hide StaysCached; hide IdsNeverRunOut; hide QueryId;
    RunKeepsInv(env, run);
    var s := After(env, run);
    if StaysCached(s, QueryId(uri), n) && env.owner(QueryId(uri)) == b {
      forall url | PollMayRoute(env, s, t, uri, n, url) ensures url == b {
        StaysCertain(env, s, t, uri, n, url);
      }
    } else if n > 0 ==> IdsNeverRunOut(env) {
      var url := OtherwiseMayStray(env, s, t, uri, n, b);
    }
  }

  lemma StatementPathHasNoId(tail: string)
    ensures QueryId("/v1/statement/" + tail) == ""
  {
    var uri := "/v1/statement/" + tail;
    assert uri[4] == 's' && QUERY_PREFIX[4] == 'q';
  }

  /** No poll of /v1/statement/... is certain to reach the backend of its query. */
  lemma StatementPollIsNeverCertain(env: Env, run: seq<Event>, t: nat, tail: string, b: string)
    requires IsRun(env, run) && t !in After(env, run).threads
    ensures exists url :: PollMayRoute(env, After(env, run), t, "/v1/statement/" + tail, 0, url) && url != b
  {
    hide IsRun; hide After; hide Inv; hide PollMayRoute;
    RunKeepsInv(env, run);
    StatementPathHasNoId(tail);
    MissMayStray(env, After(env, run), t, "/v1/statement/" + tail, 0, b + "x");
    assert (b + "x") != b;
  }
}
