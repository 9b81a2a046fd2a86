/**
 Concurrent use of the health monitor (internal/monitor/monitor.go:144-207 and
 275-315). The admin API replaces the backend list and sets single statuses while the
 probe loop stores its verdicts; each of them then builds a snapshot, reading the list
 and the statuses one after the other, and hands it to the gauges, which take one
 snapshot at a time but in any order.
 */
module MonitorRuns {
  import opened Basics
  import opened BackendMetrics

  datatype Pc =
    | Idle
    | Merging(loaded: map<string, Status>, url: string, status: Status)  // SetBackendStatus, before its store
    | Probing(urls: set<string>)                                      // the checks are out
    | Notifying                                                       // changed something, before the snapshot
    | Listed(backends: seq<Backend>, list: nat)                       // the list is read, the statuses are not
    | Built(snap: Snapshot, read: Read)                               // before ObserveStatuses

  /** Which version of the list, and which of the statuses, a snapshot was built from. */
  datatype Read = Read(list: nat, status: nat)

  /**
   `lists` counts the replacements of the list and `stores` the stores of statuses.
   `deliveries` says for every snapshot handed to the gauges what it was built from,
   and `shown` is the last of these snapshots.
   */
  datatype State = State(
    backends: seq<Backend>,
    status: map<string, Status>,
    pcs: map<nat, Pc>,
    lists: nat,
    stores: nat,
    deliveries: seq<Read>,
    shown: Snapshot)

  datatype Event =
    | ReplaceBackends(t: nat, backends: seq<Backend>)
    | LoadStatuses(t: nat, url: string, status: Status)
    | StoreStatus(t: nat)
    | BeginProbe(t: nat)
    | StoreVerdicts(t: nat, verdicts: map<string, Status>)
    | ReadBackends(t: nat)
    | ReadStatuses(t: nat)
    | Deliver(t: nat)

  const INITIAL := State([], map[], map[], 0, 0, [], map[])

  function PcOf(s: State, t: nat): Pc {
    if t in s.pcs then s.pcs[t] else Idle
  }

  predicate Enabled(s: State, e: Event) {
    var pc := PcOf(s, e.t);
    match e
    case ReplaceBackends(_, _) => pc.Idle?
    case LoadStatuses(_, _, _) => pc.Idle?
    case StoreStatus(_) => pc.Merging?
    case BeginProbe(_) => pc.Idle?
    case StoreVerdicts(_, verdicts) => pc.Probing? && verdicts.Keys == pc.urls
    case ReadBackends(_) => pc.Notifying?
    case ReadStatuses(_) => pc.Listed?
    case Deliver(_) => pc.Built?
  }

  function At(s: State, t: nat, pc: Pc): State {
    s.(pcs := s.pcs[t := pc])
  }

  function Replace(s: State, t: nat, backends: seq<Backend>): State {
    At(s.(backends := backends, lists := s.lists + 1), t, Notifying)
  }

  function Store(s: State, t: nat, status: map<string, Status>): State {
    At(s.(status := status, stores := s.stores + 1), t, Notifying)
  }

  function Next(s: State, e: Event): State
    requires Enabled(s, e)
  {
    var t, pc := e.t, PcOf(s, e.t);
    match e
    case ReplaceBackends(_, backends) => Replace(s, t, backends)
    case LoadStatuses(_, url, status) => At(s, t, Merging(s.status, url, status))
    case StoreStatus(_) => Store(s, t, pc.loaded[pc.url := pc.status])
    case BeginProbe(_) => if s.backends == [] then s else At(s, t, Probing(UrlsOf(s.backends)))
    case StoreVerdicts(_, verdicts) => Store(s, t, verdicts)
    case ReadBackends(_) => At(s, t, Listed(s.backends, s.lists))
    case ReadStatuses(_) => At(s, t, Built(SnapshotOf(pc.backends, s.status), Read(pc.list, s.stores)))
    case Deliver(_) => At(s.(shown := pc.snap, deliveries := s.deliveries + [pc.read]), t, Idle)
  }

  ghost predicate IsRun(run: seq<Event>)
    decreases |run|, 0
  {
    run == [] || (IsRun(run[..|run| - 1]) && Enabled(After(run[..|run| - 1]), run[|run| - 1]))
  }

  ghost function After(run: seq<Event>): State
    requires IsRun(run)
    decreases |run|, 1
  {
    if run == [] then INITIAL else Next(After(run[..|run| - 1]), run[|run| - 1])
  }

  function Current(s: State): Snapshot {
    SnapshotOf(s.backends, s.status)
  }

  /** What the gauges were last given; before the first delivery they show the empty start. */
  function Last(s: State): Read {
    if s.deliveries == [] then Read(0, 0) else s.deliveries[|s.deliveries| - 1]
  }

  // ---------- What every step keeps ----------

  /** A snapshot built from this read holds the current backends, and their statuses, if the read is the latest. */
  ghost predicate SnapOk(s: State, snap: Snapshot, read: Read) {
    && read.list <= s.lists && read.status <= s.stores
    && (read.list == s.lists ==> snap.Keys == UrlsOf(s.backends))
    && (read == Read(s.lists, s.stores) ==> snap == Current(s))
  }

  /** Every snapshot follows a change. */
  ghost predicate PcOk(s: State, t: nat) {
    var pc := PcOf(s, t);
    && (pc.Notifying? ==> s.lists + s.stores > 0)
    && (pc.Listed? ==>
          pc.list <= s.lists && pc.list + s.stores > 0 && (pc.list == s.lists ==> pc.backends == s.backends))
    && (pc.Built? ==> SnapOk(s, pc.snap, pc.read) && pc.read != Read(0, 0))
  }

  ghost predicate ShownOk(s: State) {
    && (forall i :: 0 <= i < |s.deliveries| ==> ReadOk(s, s.deliveries[i]))
    && SnapOk(s, s.shown, Last(s))
    && (s.lists == 0 ==> s.backends == [] && s.shown == map[])
  }

  predicate ReadOk(s: State, read: Read) {
    read.list <= s.lists && read.status <= s.stores && read != Read(0, 0)
  }

  predicate Brings(s: State, t: nat) {
    var pc := PcOf(s, t);
    pc.Notifying? || (pc.Listed? && pc.list == s.lists) || (pc.Built? && pc.read == Read(s.lists, s.stores))
  }

  /** A snapshot of everything as it is has been delivered, or some thread will bring it. */
  ghost predicate Coming(s: State) {
    s.lists + s.stores > 0 ==> Read(s.lists, s.stores) in s.deliveries || exists t :: Brings(s, t)
  }

  ghost predicate Inv(s: State) {
    (forall t :: PcOk(s, t)) && ShownOk(s) && Coming(s)
  }

  lemma SnapshotKeys(backends: seq<Backend>, status: map<string, Status>)
    ensures SnapshotOf(backends, status).Keys == UrlsOf(backends)
    ensures backends == [] ==> SnapshotOf(backends, status) == map[]
  {
  }

  lemma NextPc(s: State, e: Event, t: nat)
    requires Enabled(s, e) && PcOk(s, t)
    ensures PcOk(Next(s, e), t)
  {
    hide UrlsOf; hide SnapshotOf;
    if e.ReadStatuses? && e.t == t { SnapshotKeys(PcOf(s, t).backends, s.status); }
  }

  lemma NextShown(s: State, e: Event)
    requires Enabled(s, e) && PcOk(s, e.t) && ShownOk(s)
    ensures ShownOk(Next(s, e))
  {
    hide UrlsOf; hide SnapshotOf;
    SnapshotKeys([], s.status);
  }

  lemma NextComing(s: State, e: Event)
    requires Enabled(s, e) && PcOk(s, e.t) && Coming(s)
    ensures Coming(Next(s, e))
  {
    hide UrlsOf; hide SnapshotOf; hide SnapOk;
    var s' := Next(s, e);
    if s'.lists > s.lists || s'.stores > s.stores || e.ReadBackends? {
      assert Brings(s', e.t);
    } else if s.lists + s.stores > 0 {
      if Read(s.lists, s.stores) in s.deliveries {
        assert s.deliveries <= s'.deliveries;
      } else {
        var t :| Brings(s, t);
        assert e == Deliver(t) ==> s'.deliveries[|s.deliveries|] == Read(s.lists, s.stores);
        assert e == Deliver(t) || Brings(s', t);
      }
    }
  }

  lemma {:induction false} RunKeepsInv(run: seq<Event>)
    requires IsRun(run)
    ensures Inv(After(run))
  {
    if run != [] {
      var s, e := After(run[..|run| - 1]), run[|run| - 1];
      RunKeepsInv(run[..|run| - 1]);
      assert PcOk(s, e.t);
      forall t ensures PcOk(Next(s, e), t) { assert PcOk(s, t); NextPc(s, e, t); }
      NextShown(s, e);
      NextComing(s, e);
    }
  }

  // ---------- When the gauges are right ----------

  predicate Quiet(s: State) {
    forall t :: t in s.pcs ==> s.pcs[t].Idle?
  }

  /**
   The gauges list the current backends if the snapshot they show read the latest
   list, and show the current statuses if it read both latest. Once every call has
   returned it did read both latest if and only if no other delivered snapshot read
   a later list or later statuses.
   */
  lemma LatestReadIsShown(run: seq<Event>)
    requires IsRun(run)
    ensures
      var s := After(run);
      var last := Last(s);
      && last.list <= s.lists && last.status <= s.stores
      && (last.list == s.lists ==> s.shown.Keys == UrlsOf(s.backends))
      && (last == Read(s.lists, s.stores) || s.lists == 0 ==> s.shown == Current(s))
      && (Quiet(s) ==>
            (last == Read(s.lists, s.stores) <==>
             forall i :: 0 <= i < |s.deliveries| ==>
               s.deliveries[i].list <= last.list && s.deliveries[i].status <= last.status))
  {
    RunKeepsInv(run);
    var s := After(run);
    hide IsRun; hide After;
    SnapshotKeys([], s.status);
    assert forall i :: 0 <= i < |s.deliveries| ==> ReadOk(s, s.deliveries[i]);
    if Quiet(s) {
      assert forall t :: !Brings(s, t);
      assert s.lists + s.stores > 0 ==> Read(s.lists, s.stores) in s.deliveries;
    }
  }

  lemma Then(run: seq<Event>, s: State, e: Event) returns (longer: seq<Event>, s': State)
    requires IsRun(run) && After(run) == s && Enabled(s, e)
    ensures longer == run + [e] && IsRun(longer) && After(longer) == s' && s' == Next(s, e)
  {
    longer := run + [e];
    assert longer[..|run|] == run;
    s' := Next(s, e);
  }

  lemma EmptyRun()
    ensures IsRun([]) && After([]) == INITIAL
  {
  }

  lemma Twice(s: State, t: nat, a: Pc, b: Pc)
    ensures At(At(s, t, a), t, b) == At(s, t, b)
  {
    assert s.pcs[t := a][t := b] == s.pcs[t := b];
  }

  /** Thread t, having changed something, builds its snapshot but does not deliver it. */
  lemma Builds(run: seq<Event>, s: State, t: nat) returns (longer: seq<Event>, s': State)
    requires IsRun(run) && After(run) == s && PcOf(s, t).Notifying?
    ensures IsRun(longer) && After(longer) == s'
    ensures s' == At(s, t, Built(Current(s), Read(s.lists, s.stores)))
  {
    hide IsRun; hide After; hide SnapshotOf;
    longer, s' := Then(run, s, ReadBackends(t));
    longer, s' := Then(longer, s', ReadStatuses(t));
    Twice(s, t, Listed(s.backends, s.lists), Built(Current(s), Read(s.lists, s.stores)));
  }

  lemma Notifies(run: seq<Event>, s: State, t: nat) returns (longer: seq<Event>, s': State)
    requires IsRun(run) && After(run) == s && PcOf(s, t).Notifying?
    ensures IsRun(longer) && After(longer) == s'
    ensures s' == At(s.(shown := Current(s), deliveries := s.deliveries + [Read(s.lists, s.stores)]), t, Idle)
  {
    hide IsRun; hide After; hide SnapshotOf;
    longer, s' := Builds(run, s, t);
    longer, s' := Then(longer, s', Deliver(t));
    Twice(s, t, Built(Current(s), Read(s.lists, s.stores)), Idle);
  }

  /** One status set on thread t, before the observer is notified. */
  lemma Sets(run: seq<Event>, s: State, t: nat, url: string, status: Status) returns (longer: seq<Event>, s': State)
    requires IsRun(run) && After(run) == s && PcOf(s, t).Idle?
    ensures IsRun(longer) && After(longer) == s' && s' == Store(s, t, s.status[url := status])
  {
    hide IsRun; hide After;
    longer, s' := Then(run, s, LoadStatuses(t, url, status));
    longer, s' := Then(longer, s', StoreStatus(t));
    Twice(s, t, Merging(s.status, url, status), Notifying);
  }

  // ---------- Every other read can leave the gauges wrong ----------

  /** What list version i is, out of n: only the last one holds the backend. */
  function ListAt(b: Backend, n: nat, i: nat): seq<Backend> {
    if i == n then [b] else []
  }

  /** What status version i is, out of n: only the last one is healthy. */
  function StatusAt(b: Backend, n: nat, i: nat): map<string, Status> {
    if i == 0 then map[] else map[b.url := if i == n then Healthy else Unhealthy]
  }

  datatype Plan = Plan(b: Backend, lists: nat, stores: nat)

  /** Versions i and j of the plan are in place, and nobody but thread 0 is busy. */
  predicate Stage(p: Plan, s: State, i: nat, j: nat) {
    && s.lists == i && s.stores == j
    && s.backends == ListAt(p.b, p.lists, i) && s.status == StatusAt(p.b, p.stores, j)
    && forall t :: t in s.pcs && t != 0 ==> s.pcs[t].Idle?
  }

  lemma ListStep(p: Plan, run: seq<Event>, s: State, t: nat, i: nat, j: nat) returns (longer: seq<Event>, s': State)
    requires IsRun(run) && After(run) == s && Stage(p, s, i, j) && PcOf(s, t).Idle?
    ensures IsRun(longer) && After(longer) == s' && s' == Replace(s, t, ListAt(p.b, p.lists, i + 1))
  {
    hide IsRun; hide After;
    longer, s' := Then(run, s, ReplaceBackends(t, ListAt(p.b, p.lists, i + 1)));
  }

  lemma StatusStep(p: Plan, run: seq<Event>, s: State, t: nat, i: nat, j: nat) returns (longer: seq<Event>, s': State)
    requires IsRun(run) && After(run) == s && Stage(p, s, i, j) && PcOf(s, t).Idle?
    ensures IsRun(longer) && After(longer) == s' && s' == Store(s, t, StatusAt(p.b, p.stores, j + 1))
  {
    hide IsRun; hide After;
    var status := if j + 1 == p.stores then Healthy else Unhealthy;
    longer, s' := Sets(run, s, t, p.b.url, status);
    assert s.status[p.b.url := status] == StatusAt(p.b, p.stores, j + 1);
  }

  /** Thread 1 brings the list to version n, one whole call after the other. */
  lemma {:induction false} RaiseLists(p: Plan, run: seq<Event>, s: State, i: nat, j: nat, n: nat)
    returns (longer: seq<Event>, s': State)
    requires IsRun(run) && After(run) == s && Stage(p, s, i, j) && i <= n
    ensures IsRun(longer) && After(longer) == s' && Stage(p, s', n, j) && PcOf(s', 0) == PcOf(s, 0)
    decreases n - i
  {
    hide IsRun; hide After; hide ListAt; hide StatusAt; hide SnapshotOf;
    longer, s' := run, s;
    if i < n {
      longer, s' := ListStep(p, longer, s', 1, i, j);
      longer, s' := Notifies(longer, s', 1);
      longer, s' := RaiseLists(p, longer, s', i + 1, j, n);
    }
  }

  lemma {:induction false} RaiseStores(p: Plan, run: seq<Event>, s: State, i: nat, j: nat, n: nat)
    returns (longer: seq<Event>, s': State)
    requires IsRun(run) && After(run) == s && Stage(p, s, i, j) && j <= n
    ensures IsRun(longer) && After(longer) == s' && Stage(p, s', i, n) && PcOf(s', 0) == PcOf(s, 0)
    decreases n - j
  {
    hide IsRun; hide After; hide ListAt; hide StatusAt; hide SnapshotOf;
    longer, s' := run, s;
    if j < n {
      longer, s' := StatusStep(p, longer, s', 1, i, j);
      longer, s' := Notifies(longer, s', 1);
      longer, s' := RaiseStores(p, longer, s', i, j + 1, n);
    }
  }

  /** Thread 0 makes the last of the changes up to versions i and j, and builds its snapshot of them. */
  lemma SlowBuild(p: Plan, i: nat, j: nat) returns (run: seq<Event>, s: State)
    requires i + j > 0 && p.lists > 0
    ensures IsRun(run) && After(run) == s && Stage(p, s, i, j)
    ensures PcOf(s, 0) == Built(SnapshotOf(ListAt(p.b, p.lists, i), StatusAt(p.b, p.stores, j)), Read(i, j))
  {
    hide IsRun; hide After; hide SnapshotOf;
    run, s := [], INITIAL;
    EmptyRun();
    if j > 0 {
      run, s := RaiseLists(p, run, s, 0, 0, i);
      run, s := RaiseStores(p, run, s, i, 0, j - 1);
      run, s := StatusStep(p, run, s, 0, i, j - 1);
    } else {
      run, s := RaiseLists(p, run, s, 0, 0, i - 1);
      run, s := ListStep(p, run, s, 0, i - 1, 0);
    }
    run, s := Builds(run, s, 0);
  }

  /**
   For every read that is not the latest of its run there is a quiet run in which the
   gauges show the snapshot of such a read and are wrong; with an old list they list
   the wrong backends.
   */
  lemma StaleReadLingers(b: Backend, read: Read, lists: nat, stores: nat) returns (run: seq<Event>)
    requires read.list <= lists && read.status <= stores && read != Read(0, 0)
    requires read != Read(lists, stores) && lists > 0
    ensures IsRun(run) && Quiet(After(run)) && Last(After(run)) == read
    ensures After(run).lists == lists && After(run).stores == stores
    ensures After(run).shown != Current(After(run))
    ensures read.list < lists ==> After(run).shown.Keys != UrlsOf(After(run).backends)
  {
    hide IsRun; hide After;
    var p := Plan(b, lists, stores);
    var s;
    run, s := SlowBuild(p, read.list, read.status);
    run, s := RaiseLists(p, run, s, read.list, read.status, lists);
    run, s := RaiseStores(p, run, s, lists, read.status, stores);
    run, s := Then(run, s, Deliver(0));
    PlanDiffers(p, read);
  }

  lemma PlanDiffers(p: Plan, read: Read)
    requires read.list <= p.lists && read.status <= p.stores && read != Read(p.lists, p.stores)
    ensures
      var was := SnapshotOf(ListAt(p.b, p.lists, read.list), StatusAt(p.b, p.stores, read.status));
      var now := SnapshotOf(ListAt(p.b, p.lists, p.lists), StatusAt(p.b, p.stores, p.stores));
      was != now && (read.list < p.lists ==> was.Keys != UrlsOf(ListAt(p.b, p.lists, p.lists)))
  {
    var was := SnapshotOf(ListAt(p.b, p.lists, read.list), StatusAt(p.b, p.stores, read.status));
    var now := SnapshotOf(ListAt(p.b, p.lists, p.lists), StatusAt(p.b, p.stores, p.stores));
    assert [p.b][0].url in UrlsOf([p.b]);
    if read.list == p.lists {
      assert now[p.b.url] == Healthy && was[p.b.url] != Healthy;
    } else {
      assert p.b.url in now && p.b.url !in was;
    }
  }

  // ---------- The exact conditions ----------

  /** Quiet runs with as many changes whose gauges show a snapshot of the same read. */
  ghost predicate Alike(run: seq<Event>, other: seq<Event>)
    requires IsRun(run)
  {
    && IsRun(other) && Quiet(After(other)) && Last(After(other)) == Last(After(run))
    && After(other).lists == After(run).lists && After(other).stores == After(run).stores
  }

  lemma QuietRead(run: seq<Event>)
    requires IsRun(run) && Quiet(After(run))
    ensures
      var s := After(run);
      Last(s).list <= s.lists && Last(s).status <= s.stores && (Last(s) == Read(0, 0) ==> s.lists == 0 && s.stores == 0)
  {
    RunKeepsInv(run);
    var s := After(run);
    hide IsRun; hide After;
    assert forall t :: !Brings(s, t);
    if s.deliveries != [] { assert ReadOk(s, s.deliveries[|s.deliveries| - 1]); }
  }

  /**
   Once every call has returned, the gauges are certain to list the current backends
   if and only if the snapshot they show read the latest list.
   */
  lemma BackendsAreCurrentIff(run: seq<Event>)
    requires IsRun(run) && Quiet(After(run))
    ensures (forall other :: Alike(run, other) ==> After(other).shown.Keys == UrlsOf(After(other).backends))
            <==> Last(After(run)).list == After(run).lists
  {
    hide IsRun; hide After; hide Quiet; hide UrlsOf;
    var s := After(run);
    QuietRead(run);
    if Last(s).list == s.lists {
      forall other | Alike(run, other) ensures After(other).shown.Keys == UrlsOf(After(other).backends) {
        LatestReadIsShown(other);
      }
    } else {
      var other := StaleReadLingers(Backend("u", "n"), Last(s), s.lists, s.stores);
      assert Alike(run, other);
    }
  }

  /**
   Once every call has returned, the gauges are certain to show the current statuses
   if and only if the snapshot they show read the latest list and the latest statuses,
   or there never was a list.
   */
  lemma GaugesAreCurrentIff(run: seq<Event>)
    requires IsRun(run) && Quiet(After(run))
    ensures (forall other :: Alike(run, other) ==> After(other).shown == Current(After(other)))
            <==> Last(After(run)) == Read(After(run).lists, After(run).stores) || After(run).lists == 0
  {
    hide IsRun; hide After; hide Quiet; hide Current;
    var s := After(run);
    QuietRead(run);
    if Last(s) == Read(s.lists, s.stores) || s.lists == 0 {
      forall other | Alike(run, other) ensures After(other).shown == Current(After(other)) {
        LatestReadIsShown(other);
      }
    } else {
      var other := StaleReadLingers(Backend("u", "n"), Last(s), s.lists, s.stores);
      assert Alike(run, other);
    }
  }

  /**
   A snapshot that is overtaken brings a removed backend back: every call has
   returned, no backend is left, and the gauges still show one.
   */
  lemma RemovedBackendLingers(b: Backend) returns (run: seq<Event>)
    ensures IsRun(run)
    ensures
      var s := After(run);
      Quiet(s) && s.backends == [] && Current(s) == map[] && s.shown == map[b.url := Pending]
  {
    hide IsRun; hide After;
    var s;
    run, s := [], INITIAL;
    EmptyRun();
    run, s := Then(run, s, ReplaceBackends(0, [b]));
    run, s := Builds(run, s, 0);
    run, s := Then(run, s, ReplaceBackends(1, []));
    run, s := Notifies(run, s, 1);
    run, s := Then(run, s, Deliver(0));
    assert SnapshotOf([b], map[]) == map[b.url := Pending] by { assert [b][0] == b; }
    SnapshotKeys([], map[]);
  }

  // ---------- A probe cycle ----------

  ghost predicate ProbesSomeone(s: State, t: nat) {
    PcOf(s, t).Probing? ==> PcOf(s, t).urls != {}
  }

  lemma {:induction false} ProbesAreOfBackends(run: seq<Event>, t: nat)
    requires IsRun(run)
    ensures ProbesSomeone(After(run), t)
  {
    if run != [] {
      var n := |run| - 1;
      var s := After(run[..n]);
      ProbesAreOfBackends(run[..n], t);
      assert s.backends != [] ==> s.backends[0].url in UrlsOf(s.backends);
      hide UrlsOf; hide SnapshotOf;
    }
  }

  /**
   A probe cycle stores the verdicts on the backends it began with, and only those:
   what was known of others is forgotten. A cycle that begins without backends stores
   nothing, so what is known stays.
   */
  lemma ProbeReplacesAll(run: seq<Event>, t: nat, verdicts: map<string, Status>)
    requires IsRun(run) && Enabled(After(run), StoreVerdicts(t, verdicts))
    ensures verdicts != map[] && verdicts.Keys == PcOf(After(run), t).urls
    ensures
      var s, s' := After(run), Next(After(run), StoreVerdicts(t, verdicts));
      && s'.backends == s.backends
      && (forall u :: u in s'.status <==> u in verdicts) && (forall u :: u in verdicts ==> s'.status[u] == verdicts[u])
  {
    ProbesAreOfBackends(run, t);
  }

  // ---------- Setting one status ----------

  /** The statuses of all backends but one are the same. */
  predicate SameBut(a: map<string, Status>, b: map<string, Status>, url: string) {
    a - {url} == b - {url}
  }

  /**
   Setting one status stores a copy made earlier: it leaves the other backends as they
   are if and only if they are as they were when the copy was made.
   */
  lemma StatusStoreKeepsOthersIff(run: seq<Event>, more: seq<Event>, t: nat, url: string, status: Status)
    requires IsRun(run) && Enabled(After(run), LoadStatuses(t, url, status))
    requires IsRun(run + [LoadStatuses(t, url, status)] + more) && forall e :: e in more ==> e.t != t
    ensures
      var s := After(run + [LoadStatuses(t, url, status)] + more);
      && Enabled(s, StoreStatus(t))
      && url in Next(s, StoreStatus(t)).status && Next(s, StoreStatus(t)).status[url] == status
      && (SameBut(Next(s, StoreStatus(t)).status, s.status, url) <==> SameBut(After(run).status, s.status, url))
  {
    CopyStays(run, more, t, url, status);
    var s, was := After(run + [LoadStatuses(t, url, status)] + more), After(run).status;
    hide IsRun; hide After;
    assert Next(s, StoreStatus(t)).status - {url} == was - {url};
  }

  lemma {:induction false} CopyStays(run: seq<Event>, more: seq<Event>, t: nat, url: string, status: Status)
    requires IsRun(run) && Enabled(After(run), LoadStatuses(t, url, status))
    requires IsRun(run + [LoadStatuses(t, url, status)] + more) && forall e :: e in more ==> e.t != t
    ensures PcOf(After(run + [LoadStatuses(t, url, status)] + more), t) == Merging(After(run).status, url, status)
  {
    var first := run + [LoadStatuses(t, url, status)];
    if more == [] {
      assert first + more == first && first[..|run|] == run;
    } else {
      var n := |more| - 1;
      assert (first + more)[..|first| + n] == first + more[..n];
      assert more[n] in more;
      CopyStays(run, more[..n], t, url, status);
    }
  }

  /** Two statuses set at the same time for different backends: the first one is lost. */
  lemma StatusUpdateCanBeLost(u: string, x: Status, v: string, y: Status) returns (run: seq<Event>)
    requires u != v
    ensures IsRun(run) && PcOf(After(run), 0).Notifying? && PcOf(After(run), 1).Notifying?
    ensures StoreStatus(0) in run && StoreStatus(1) in run
    ensures After(run).status == map[v := y]
  {
    hide IsRun; hide After;
    var s := INITIAL;
    run := [];
    assert IsRun(run) && After(run) == s by { EmptyRun(); }
    run, s := Then(run, s, LoadStatuses(0, u, x));
    run, s := Then(run, s, LoadStatuses(1, v, y));
    run, s := Then(run, s, StoreStatus(0));
    run, s := Then(run, s, StoreStatus(1));
  }
}
