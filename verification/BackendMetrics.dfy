/**
 Backend gauges (internal/metrics/backend.go:70-119) and the snapshot the health
 monitor feeds them with (internal/monitor/monitor.go:144-207). A gauge vector is a
 map from label values to the current value; a deleted series is absent.
 */
module BackendMetrics {
  import opened Basics

  datatype Status = Unknown | Pending | Healthy | Unhealthy

  datatype Label = HealthyLabel | UnhealthyLabel | PendingLabel

  const LABELS: set<Label> := {HealthyLabel, UnhealthyLabel, PendingLabel}

  /** Unknown counts as pending: no confirmed health yet. */
  function StatusLabel(s: Status): Label {
    match s
    case Healthy => HealthyLabel
    case Unhealthy => UnhealthyLabel
    case _ => PendingLabel
  }

  datatype Series = Series(backend: string, health: Label)

  type Snapshot = map<string, Status>

  // ---------- What a snapshot should look like on the dashboard ----------

  function StatusSeries(snap: Snapshot): map<Series, int> {
    map u, l | u in snap && l in LABELS :: Series(u, l) := if l == StatusLabel(snap[u]) then 1 else 0
  }

  function ActivationSeries(urls: set<string>): map<string, int> {
    map u | u in urls :: 1
  }

  function Having(snap: Snapshot, l: Label): set<string> {
    set u | u in snap && StatusLabel(snap[u]) == l
  }

  /** One number for each status label. */
  datatype Counts = Counts(healthy: nat, unhealthy: nat, pending: nat) {
    function Of(l: Label): nat {
      match l case HealthyLabel => healthy case UnhealthyLabel => unhealthy case PendingLabel => pending
    }

    function Plus(l: Label): Counts {
      match l
      case HealthyLabel => this.(healthy := healthy + 1)
      case UnhealthyLabel => this.(unhealthy := unhealthy + 1)
      case PendingLabel => this.(pending := pending + 1)
    }
  }

  function Totals(snap: Snapshot): Counts {
    Counts(|Having(snap, HealthyLabel)|, |Having(snap, UnhealthyLabel)|, |Having(snap, PendingLabel)|)
  }

  /** The numbers of backends by status. */
  ghost predicate CountsOf(c: Counts, snap: Snapshot) {
    && c.healthy == |set u | u in snap && snap[u] == Healthy|
    && c.unhealthy == |set u | u in snap && snap[u] == Unhealthy|
    && c.pending == |set u | u in snap && (snap[u] == Pending || snap[u] == Unknown)|
  }

  lemma TotalsCount(snap: Snapshot)
    ensures CountsOf(Totals(snap), snap)
  {
    assert Having(snap, HealthyLabel) == set u | u in snap && snap[u] == Healthy;
    assert Having(snap, UnhealthyLabel) == set u | u in snap && snap[u] == Unhealthy;
    assert Having(snap, PendingLabel) == set u | u in snap && (snap[u] == Pending || snap[u] == Unknown);
  }

  /** Every backend shows 1 on exactly one status label and 0 on the others. */
  lemma OneStatusPerBackend(snap: Snapshot, u: string)
    requires u in snap
    ensures forall l :: Series(u, l) in StatusSeries(snap) && StatusSeries(snap)[Series(u, l)] in {0, 1}
    ensures exists l :: StatusSeries(snap)[Series(u, l)] == 1 &&
                        forall k :: StatusSeries(snap)[Series(u, k)] == 1 ==> k == l
  {
    forall l: Label ensures l in LABELS { match l case HealthyLabel => case UnhealthyLabel => case PendingLabel => }
    assert StatusSeries(snap)[Series(u, StatusLabel(snap[u]))] == 1;
  }

  /** The three totals add up to the number of active backends. */
  lemma TotalsAddUp(snap: Snapshot)
    ensures
      var t := Totals(snap);
      t.healthy + t.unhealthy + t.pending == |snap|
  {
    var h, n, p := Having(snap, HealthyLabel), Having(snap, UnhealthyLabel), Having(snap, PendingLabel);
    assert h + n + p == snap.Keys;
    assert h !! n && (h + n) !! p;
    assert |h + n + p| == |h| + |n| + |p|;
  }

  // ---------- The gauges ----------

  class Gauges {
    var status: map<Series, int>
    var activation: map<string, int>
    var total: Counts
    var active: nat
    var seen: set<string>

    /** Live series are exactly those of the backends in `seen`. */
    ghost predicate Valid()
      reads this`status, this`activation, this`seen
    {
      && (forall s :: s in status <==> s.backend in seen)
      && activation.Keys == seen
    }

    /** The gauges show exactly this snapshot. */
    ghost predicate Shows(snap: Snapshot)
      reads this
    {
      && status == StatusSeries(snap)
      && activation == ActivationSeries(snap.Keys)
      && total == Totals(snap)
      && active == |snap|
      && seen == snap.Keys
    }

    /** The series of one backend, status by status. */
    ghost predicate TellsOf(u: string, s: Status)
      reads this`status, this`activation
    {
      && Series(u, HealthyLabel) in status && Series(u, UnhealthyLabel) in status && Series(u, PendingLabel) in status
      && (status[Series(u, HealthyLabel)] == if s == Healthy then 1 else 0)
      && (status[Series(u, UnhealthyLabel)] == if s == Unhealthy then 1 else 0)
      && (status[Series(u, PendingLabel)] == if s == Pending || s == Unknown then 1 else 0)
      && u in activation && activation[u] == 1
    }

    /** What the gauges say about a snapshot. */
    ghost predicate Tells(snap: Snapshot)
      reads this
    {
      && (forall s :: s in status <==> s.backend in snap)
      && (forall u :: u in snap ==> TellsOf(u, snap[u]))
      && CountsOf(total, snap)
      && activation.Keys == snap.Keys && active == |snap|
    }

    constructor ()
      ensures Valid() && seen == {} && status == map[] && activation == map[]
    {
      status, activation, total, active, seen := map[], map[], Counts(0, 0, 0), 0, {};
    }

    /** Delete every series of one backend. */
    method Drop(url: string)
      requires Valid()
      modifies this`status, this`activation, this`seen
      ensures Valid() && seen == old(seen) - {url}
    {
      status := status - {Series(url, HealthyLabel), Series(url, UnhealthyLabel), Series(url, PendingLabel)};
      activation := activation - {url};
      seen := seen - {url};
      forall s: Series ensures s in status <==> s.backend in seen {
        match s.health case HealthyLabel => case UnhealthyLabel => case PendingLabel =>
      }
    }

    /** Drop the series of backends that left the set. */
    method Prune(snap: Snapshot)
      requires Valid()
      modifies this`status, this`activation, this`seen
      ensures Valid() && seen == old(seen) * snap.Keys
    {
      hide Valid;
      var todo := seen;
      ghost var was := seen;
      while todo != {}
        invariant seen == was * (snap.Keys + todo)
        invariant Valid()
        decreases todo
      {
        var url :| url in todo;
        PruneStep(was, snap.Keys, todo, url);
        todo := todo - {url};
        if url !in snap.Keys {
          Drop(url);
        }
      }
      assert snap.Keys + {} == snap.Keys;
    }

    /** Set the three status series and the activation of one backend; the others stay as they are. */
    method SetBackend(snap: Snapshot, url: string)
      requires Valid() && url in snap
      modifies this`status, this`activation, this`seen
      ensures Valid() && seen == old(seen) + {url}
      ensures Right(snap, url)
      ensures forall u :: u in snap && u != url && old(Right(snap, u)) ==> Right(snap, u)
    {
      var current := StatusLabel(snap[url]);
      status := status[Series(url, HealthyLabel) := if HealthyLabel == current then 1 else 0];
      status := status[Series(url, UnhealthyLabel) := if UnhealthyLabel == current then 1 else 0];
      status := status[Series(url, PendingLabel) := if PendingLabel == current then 1 else 0];
      activation := activation[url := 1];
      seen := seen + {url};
      forall s: Series ensures s in status <==> s.backend in seen {
        match s.health case HealthyLabel => case UnhealthyLabel => case PendingLabel =>
      }
      forall l: Label ensures Series(url, l) in status && status[Series(url, l)] == if l == current then 1 else 0 {
        match l case HealthyLabel => case UnhealthyLabel => case PendingLabel =>
      }
    }

    /** The series of one backend show its status. */
    ghost predicate Right(snap: Snapshot, u: string)
      requires u in snap
      reads this`status, this`activation
    {
      && (forall l :: Series(u, l) in status && status[Series(u, l)] == if l == StatusLabel(snap[u]) then 1 else 0)
      && u in activation && activation[u] == 1
    }

    /** Set the series of every backend and count them by label. */
    method SetAll(snap: Snapshot) returns (counts: Counts)
      requires Valid() && seen <= snap.Keys
      modifies this`status, this`activation, this`seen
      ensures Valid() && seen == snap.Keys
      ensures forall u :: u in snap ==> Right(snap, u) && TellsOf(u, snap[u])
      ensures counts == Totals(snap) && CountsOf(counts, snap)
    {
      hide Valid; hide Having; hide Right; hide CountsSoFar; hide Totals; hide TellsOf; hide CountsOf;
      counts := Counts(0, 0, 0);
      var todo := snap.Keys;
      ghost var done := {};
      ghost var was := seen;
      CountNone(snap);
      while todo != {}
        invariant done + todo == snap.Keys && done !! todo
        invariant Valid() && seen == was + done
        invariant forall u :: u in done ==> Right(snap, u)
        invariant CountsSoFar(counts, snap, done)
        decreases todo
      {
        var url :| url in todo;
        SetBackend(snap, url);
        var current := StatusLabel(snap[url]);
        CountStep(counts, snap, done, url);
        counts := counts.Plus(current);
        MoveOne(snap.Keys, done, todo, url);
        todo := todo - {url};
        done := done + {url};
      }
      assert done == snap.Keys;
      CountAll(counts, snap);
      TotalsCount(snap);
      forall u | u in snap ensures TellsOf(u, snap[u]) { RightIsTold(this, snap, u); }
    }

    /** After a snapshot the gauges show it, whatever they showed before. */
    method ObserveStatuses(snap: Snapshot)
      requires Valid()
      modifies this
      ensures Valid() && Shows(snap) && Tells(snap)
    {
      hide Valid; hide Right; hide TellsOf; hide CountsOf; hide Totals; hide Shows;
      Prune(snap);
      total := SetAll(snap);
      active := |snap|;
      SetIsShown(this, snap);
      ValidMeans(this);
    }
  }

  lemma ValidMeans(g: Gauges)
    requires g.Valid()
    ensures (forall s :: s in g.status <==> s.backend in g.seen) && g.activation.Keys == g.seen
  {
  }

  lemma SetIsShown(g: Gauges, snap: Snapshot)
    requires g.Valid() && g.seen == snap.Keys && g.total == Totals(snap) && g.active == |snap|
    requires forall u :: u in snap ==> g.Right(snap, u)
    ensures g.Shows(snap)
  {
    forall u, l | u in snap
      ensures Series(u, l) in g.status && g.status[Series(u, l)] == if l == StatusLabel(snap[u]) then 1 else 0
    {
      assert g.Right(snap, u);
    }
    EqualsSeries(g.status, snap);
    assert forall u :: u in snap ==> g.Right(snap, u) && g.activation[u] == 1;
  }

  lemma RightIsTold(g: Gauges, snap: Snapshot, u: string)
    requires u in snap && g.Right(snap, u)
    ensures g.TellsOf(u, snap[u])
  {
  }

  lemma PruneStep(was: set<string>, keys: set<string>, todo: set<string>, url: string)
    requires url in todo
    ensures was * (keys + (todo - {url})) == if url in keys then was * (keys + todo) else was * (keys + todo) - {url}
  {
  }

  ghost predicate CountsSoFar(counts: Counts, snap: Snapshot, done: set<string>) {
    forall l :: counts.Of(l) == |Having(snap, l) * done|
  }

  lemma CountNone(snap: Snapshot)
    ensures CountsSoFar(Counts(0, 0, 0), snap, {})
  {
    forall l: Label ensures Counts(0, 0, 0).Of(l) == |Having(snap, l) * {}| { assert Having(snap, l) * {} == {}; }
  }

  lemma CountAll(counts: Counts, snap: Snapshot)
    requires CountsSoFar(counts, snap, snap.Keys)
    ensures counts == Totals(snap)
  {
    forall l: Label ensures counts.Of(l) == |Having(snap, l)| { assert Having(snap, l) * snap.Keys == Having(snap, l); }
    assert counts == Counts(counts.Of(HealthyLabel), counts.Of(UnhealthyLabel), counts.Of(PendingLabel));
  }

  lemma LabelIsListed(l: Label)
    ensures l in LABELS
  {
    match l case HealthyLabel => case UnhealthyLabel => case PendingLabel =>
  }

  lemma CountOne(snap: Snapshot, done: set<string>, url: string, l: Label)
    requires url in snap && url !in done
    ensures |Having(snap, l) * (done + {url})|
            == |Having(snap, l) * done| + if l == StatusLabel(snap[url]) then 1 else 0
  {
    if l == StatusLabel(snap[url]) {
      assert Having(snap, l) * (done + {url}) == Having(snap, l) * done + {url};
    } else {
      assert Having(snap, l) * (done + {url}) == Having(snap, l) * done;
    }
  }

  lemma CountStep(counts: Counts, snap: Snapshot, done: set<string>, url: string)
    requires CountsSoFar(counts, snap, done) && url in snap && url !in done
    ensures CountsSoFar(counts.Plus(StatusLabel(snap[url])), snap, done + {url})
  {
    hide Having;
    var next := counts.Plus(StatusLabel(snap[url]));
    forall l: Label ensures next.Of(l) == |Having(snap, l) * (done + {url})| {
      CountOne(snap, done, url, l);
      assert counts.Of(l) == |Having(snap, l) * done|;
    }
  }

  lemma MoveOne(all: set<string>, done: set<string>, todo: set<string>, url: string)
    requires done + todo == all && done !! todo && url in todo
    ensures done + {url} + (todo - {url}) == all && (done + {url}) !! (todo - {url})
  {
  }

  lemma EqualsSeries(status: map<Series, int>, snap: Snapshot)
    requires forall s :: s in status <==> s.backend in snap
    requires forall u, l :: u in snap ==>
               Series(u, l) in status && status[Series(u, l)] == if l == StatusLabel(snap[u]) then 1 else 0
    ensures status == StatusSeries(snap)
  {
    var want := StatusSeries(snap);
    forall s: Series ensures s in status <==> s in want {
      LabelIsListed(s.health);
      assert s == Series(s.backend, s.health);
    }
    forall s | s in status ensures status[s] == want[s] {
      assert s == Series(s.backend, s.health);
    }
  }

  // ---------- The monitor's snapshot ----------

  datatype Backend = Backend(url: string, name: string)

  function UrlsOf(backends: seq<Backend>): set<string> {
    set i | 0 <= i < |backends| :: backends[i].url
  }

  /** The last probe's verdict for each known backend; not probed yet means pending. */
  function SnapshotOf(backends: seq<Backend>, probed: map<string, Status>): Snapshot {
    map u | u in UrlsOf(backends) :: if u in probed then probed[u] else Pending
  }

  /** The monitor as one caller at a time sees it; MonitorRuns lets its callers interleave. */
  class Monitor {
    var backends: seq<Backend>
    var status: map<string, Status>
    const gauges: Gauges

    constructor (gauges: Gauges)
      ensures backends == [] && status == map[] && this.gauges == gauges
    {
      backends, status := [], map[];
      this.gauges := gauges;
    }

    method CollectUrls() returns (urls: set<string>)
      ensures urls == UrlsOf(backends)
    {
      urls := {};
      var i := 0;
      while i < |backends|
        invariant 0 <= i <= |backends|
        invariant urls == UrlsOf(backends[..i])
      {
        assert backends[..i + 1] == backends[..i] + [backends[i]];
        UrlsSnoc(backends[..i], backends[i]);
        urls := urls + {backends[i].url};
        i := i + 1;
      }
      assert backends[..i] == backends;
    }

    method BuildSnapshot() returns (statuses: Snapshot)
      ensures statuses == SnapshotOf(backends, status)
      ensures forall i :: 0 <= i < |backends| ==> backends[i].url in statuses
      ensures forall u :: u in statuses ==>
                && (exists i :: 0 <= i < |backends| && backends[i].url == u)
                && (u in status ==> statuses[u] == status[u]) && (u !in status ==> statuses[u] == Pending)
    {
      var urls := CollectUrls();
      statuses := map[];
      var todo := urls;
      while todo != {}
        invariant todo <= urls && statuses.Keys == urls - todo
        invariant forall u :: u in statuses ==> statuses[u] == if u in status then status[u] else Pending
        decreases |todo|
      {
        var url :| url in todo;
        todo := todo - {url};
        statuses := statuses[url := if url in status then status[url] else Pending];
      }
    }

    /** The gauges show the last verdict on a backend, pending when there is none. */
    ghost predicate Told(u: string)
      reads this, gauges
    {
      && Series(u, HealthyLabel) in gauges.status && Series(u, UnhealthyLabel) in gauges.status
      && Series(u, PendingLabel) in gauges.status
      && (gauges.status[Series(u, HealthyLabel)] == 1 <==> u in status && status[u] == Healthy)
      && (gauges.status[Series(u, UnhealthyLabel)] == 1 <==> u in status && status[u] == Unhealthy)
      && (gauges.status[Series(u, PendingLabel)] == 1 <==> u !in status || status[u] == Pending || status[u] == Unknown)
    }

    /** Every backend of the list is told, and nothing else is. */
    ghost predicate AllTold()
      reads this, gauges
    {
      && (forall i :: 0 <= i < |backends| ==> Told(backends[i].url))
      && (forall s :: s in gauges.status ==> exists i :: 0 <= i < |backends| && backends[i].url == s.backend)
    }

    method NotifyObserver()
      requires gauges.Valid()
      modifies gauges
      ensures gauges.Valid() && gauges.Shows(SnapshotOf(backends, status))
      ensures AllTold()
    {
      hide Gauges.Shows; hide Gauges.Valid; hide Gauges.Tells; hide AllTold; hide SnapshotOf;
      var statuses := BuildSnapshot();
      gauges.ObserveStatuses(statuses);
      ToldFromSnapshot(this, statuses);
    }

    method SetBackends(backends: seq<Backend>)
      requires gauges.Valid()
      modifies this`backends, gauges
      ensures this.backends == backends
      ensures gauges.Valid() && gauges.Shows(SnapshotOf(backends, status)) && AllTold()
    {
      hide Gauges.Shows; hide Gauges.Valid; hide AllTold;
      this.backends := backends;
      NotifyObserver();
    }

    method SetBackendStatus(url: string, s: Status)
      requires gauges.Valid()
      modifies this`status, gauges
      ensures status == old(status)[url := s]
      ensures gauges.Valid() && gauges.Shows(SnapshotOf(backends, status)) && AllTold()
    {
      hide Gauges.Shows; hide Gauges.Valid; hide AllTold;
      status := status[url := s];
      NotifyObserver();
    }

    /** One probe cycle; `verdicts` are the answers of the concurrent checks. */
    method Probe(verdicts: map<string, Status>)
      requires gauges.Valid() && verdicts.Keys == UrlsOf(backends)
      modifies this`status, gauges
      ensures backends == [] ==> status == old(status) && unchanged(gauges)
      ensures backends != [] ==> status == verdicts && gauges.Shows(verdicts) && AllTold()
      ensures gauges.Valid()
    {
      hide Gauges.Shows; hide Gauges.Valid; hide AllTold;
      if |backends| == 0 {
        return;
      }
      status := verdicts;
      NotifyObserver();
      assert SnapshotOf(backends, verdicts) == verdicts;
    }
  }

  lemma ToldFromSnapshot(m: Monitor, snap: Snapshot)
    requires m.gauges.Tells(snap)
    requires forall i :: 0 <= i < |m.backends| ==> m.backends[i].url in snap
    requires forall u :: u in snap ==>
               && (exists i :: 0 <= i < |m.backends| && m.backends[i].url == u)
               && (u in m.status ==> snap[u] == m.status[u]) && (u !in m.status ==> snap[u] == Pending)
    ensures m.AllTold()
  {
    forall i | 0 <= i < |m.backends| ensures m.Told(m.backends[i].url) {
      var u := m.backends[i].url;
      assert u in snap;
      assert m.gauges.TellsOf(u, snap[u]);
    }
  }

  lemma UrlsSnoc(bs: seq<Backend>, b: Backend)
    ensures UrlsOf(bs + [b]) == UrlsOf(bs) + {b.url}
  {
    assert (bs + [b])[|bs|] == b;
    assert forall i :: 0 <= i < |bs| ==> (bs + [b])[i] == bs[i];
    forall u | u in UrlsOf(bs) ensures u in UrlsOf(bs + [b]) {
      var i :| 0 <= i < |bs| && bs[i].url == u;
      assert (bs + [b])[i].url == u;
    }
  }
}
