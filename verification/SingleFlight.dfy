/**
 The hand-written singleflight of internal/routing/recovery.go:56-79, as a step
 system over any number of callers. The mutex, the in-flight map, the call records
 and each caller's program counter are explicit; one event is one atomic action of
 one caller, and a run is any interleaving of events.
 */
module SingleFlight {
  import opened Basics

  /** What fn returned: the value and whether an error came with it. */
  datatype Reply = Reply(val: string, failed: bool)

  /** A call record. `leader` is the caller that created it; it is never read by the protocol. */
  datatype Call = Call(key: string, leader: nat, reply: Option<Reply>, released: bool)

  datatype Pc =
    | Idle
    | WantEnter(key: string)                 // before the first Lock
    | InEnter(key: string)                   // holding the mutex, about to look the key up
    | Waiting(key: string, c: nat)           // at c.wg.Wait()
    | Running(key: string, c: nat)           // fn is running
    | Stored(key: string, c: nat)            // c.val and c.err assigned, before wg.Done()
    | WantDelete(key: string, c: nat)        // before the second Lock
    | InDelete(key: string, c: nat)          // holding the mutex, about to delete the key
    | Returned(key: string, c: nat, reply: Reply)

  datatype State = State(
    pcs: map<nat, Pc>,
    calls: seq<Call>,
    inflight: map<string, nat>,
    mutex: Option<nat>)

  datatype Event =
    | Begin(t: nat, key: string)
    | LockEnter(t: nat)
    | JoinOrLead(t: nat)
    | FnReturns(t: nat, reply: Reply)
    | Release(t: nat)
    | LockDelete(t: nat)
    | Delete(t: nat)
    | Wake(t: nat)
    | Forget(t: nat)                         // the caller has consumed its result

  const INITIAL := State(map[], [], map[], None)

  function PcOf(s: State, t: nat): Pc {
    if t in s.pcs then s.pcs[t] else Idle
  }

  predicate Enabled(s: State, e: Event) {
    var pc := PcOf(s, e.t);
    match e
    case Begin(_, _) => pc.Idle?
    case LockEnter(_) => pc.WantEnter? && s.mutex.None?
    case JoinOrLead(_) => pc.InEnter?
    case FnReturns(_, _) => pc.Running? && pc.c < |s.calls|
    case Release(_) => pc.Stored? && pc.c < |s.calls|
    case LockDelete(_) => pc.WantDelete? && s.mutex.None?
    case Delete(_) => pc.InDelete? && pc.c < |s.calls| && s.calls[pc.c].reply.Some?
    case Wake(_) => pc.Waiting? && pc.c < |s.calls| && s.calls[pc.c].released && s.calls[pc.c].reply.Some?
    case Forget(_) => pc.Returned?
  }

  function Next(s: State, e: Event): State
    requires Enabled(s, e)
  {
    var t := e.t;
    var pc := PcOf(s, t);
    match e
    case Begin(_, key) => s.(pcs := s.pcs[t := WantEnter(key)])
    case LockEnter(_) => s.(pcs := s.pcs[t := InEnter(pc.key)], mutex := Some(t))
    case JoinOrLead(_) =>
      if pc.key in s.inflight then
        s.(pcs := s.pcs[t := Waiting(pc.key, s.inflight[pc.key])], mutex := None)
      else
        s.(pcs := s.pcs[t := Running(pc.key, |s.calls|)],
           calls := s.calls + [Call(pc.key, t, None, false)],
           inflight := s.inflight[pc.key := |s.calls|],
           mutex := None)
    case FnReturns(_, reply) =>
      s.(pcs := s.pcs[t := Stored(pc.key, pc.c)],
         calls := s.calls[pc.c := s.calls[pc.c].(reply := Some(reply))])
    case Release(_) =>
      s.(pcs := s.pcs[t := WantDelete(pc.key, pc.c)],
         calls := s.calls[pc.c := s.calls[pc.c].(released := true)])
    case LockDelete(_) => s.(pcs := s.pcs[t := InDelete(pc.key, pc.c)], mutex := Some(t))
    case Delete(_) =>
      s.(pcs := s.pcs[t := Returned(pc.key, pc.c, s.calls[pc.c].reply.value)],
         inflight := s.inflight - {pc.key}, mutex := None)
    case Wake(_) => s.(pcs := s.pcs[t := Returned(pc.key, pc.c, s.calls[pc.c].reply.value)])
    case Forget(_) => s.(pcs := s.pcs[t := Idle])
  }

  // ---------- Runs ----------

  ghost predicate IsRun(run: seq<Event>)
    decreases |run|, 0
  {
    run == [] || (IsRun(run[..|run| - 1]) && Enabled(After(run[..|run| - 1]), run[|run| - 1]))
  }

  ghost function After(run: seq<Event>): State
    requires IsRun(run)
    decreases |run|, 1
  {
    if run == [] then INITIAL else Next(After(run[..|run| - 1]), run[|run| - 1])
  }

  // ---------- What every step keeps ----------

  predicate Leads(pc: Pc) {
    pc.Running? || pc.Stored? || pc.WantDelete? || pc.InDelete?
  }

  /** Which state the record of a call is in at each point of its leader. */
  ghost predicate PcOk(s: State, t: nat) {
    var pc := PcOf(s, t);
    && (s.mutex == Some(t) <==> pc.InEnter? || pc.InDelete?)
    && (Leads(pc) ==>
          && pc.c < |s.calls| && s.calls[pc.c].key == pc.key && s.calls[pc.c].leader == t
          && pc.key in s.inflight && s.inflight[pc.key] == pc.c
          && (s.calls[pc.c].reply.None? <==> pc.Running?)
          && (s.calls[pc.c].released <==> pc.WantDelete? || pc.InDelete?))
    && (pc.Waiting? ==> pc.c < |s.calls| && s.calls[pc.c].key == pc.key)
    && (pc.Returned? ==>
          && pc.c < |s.calls| && s.calls[pc.c].key == pc.key
          && s.calls[pc.c].released && s.calls[pc.c].reply == Some(pc.reply))
  }

  /** An unreleased record belongs to a leader that has yet to release it. */
  ghost predicate CallOk(s: State, c: nat)
    requires c < |s.calls|
  {
    && (s.calls[c].released ==> s.calls[c].reply.Some?)
    && (!s.calls[c].released ==>
          var pc := PcOf(s, s.calls[c].leader); (pc.Running? || pc.Stored?) && pc.c == c)
  }

  ghost predicate InflightOk(s: State, key: string)
    requires key in s.inflight
  {
    var c := s.inflight[key];
    c < |s.calls| && s.calls[c].key == key &&
    var pc := PcOf(s, s.calls[c].leader); Leads(pc) && pc.key == key && pc.c == c
  }

  ghost predicate Inv(s: State) {
    && (forall t :: PcOk(s, t))
    && (forall c: nat :: c < |s.calls| ==> CallOk(s, c))
    && (forall key :: key in s.inflight ==> InflightOk(s, key))
  }

  lemma NextPcs(s: State, e: Event, t: nat)
    requires Inv(s) && Enabled(s, e)
    ensures PcOk(Next(s, e), t)
  {
    assert PcOk(s, e.t) && PcOk(s, t);
    var pc := PcOf(s, e.t);
    if e.JoinOrLead? && pc.key in s.inflight { assert InflightOk(s, pc.key); }
  }

  lemma NextCalls(s: State, e: Event, c: nat)
    requires Inv(s) && Enabled(s, e) && c < |Next(s, e).calls|
    ensures CallOk(Next(s, e), c)
  {
    assert PcOk(s, e.t);
    if c < |s.calls| { assert CallOk(s, c); }
  }

  lemma NextInflight(s: State, e: Event, key: string)
    requires Inv(s) && Enabled(s, e) && key in Next(s, e).inflight
    ensures InflightOk(Next(s, e), key)
  {
    assert PcOk(s, e.t);
    if key in s.inflight { assert InflightOk(s, key); }
  }

  lemma NextKeepsInv(s: State, e: Event)
    requires Inv(s) && Enabled(s, e)
    ensures Inv(Next(s, e))
  {
    var s' := Next(s, e);
    forall t ensures PcOk(s', t) { NextPcs(s, e, t); }
    forall c: nat | c < |s'.calls| ensures CallOk(s', c) { NextCalls(s, e, c); }
    forall key | key in s'.inflight ensures InflightOk(s', key) { NextInflight(s, e, key); }
  }

  lemma {:induction false} RunKeepsInv(run: seq<Event>)
    requires IsRun(run)
    ensures Inv(After(run))
  {
    if run != [] {
      RunKeepsInv(run[..|run| - 1]);
      NextKeepsInv(After(run[..|run| - 1]), run[|run| - 1]);
    }
  }

  // ---------- Safety over every interleaving ----------

  /** At most one fn runs per key, and the mutex has at most one holder. */
  lemma OneRunPerKey(run: seq<Event>, t: nat, u: nat)
    requires IsRun(run)
    requires
      var p, q := PcOf(After(run), t), PcOf(After(run), u);
      (p.Running? && q.Running? && p.key == q.key) || ((p.InEnter? || p.InDelete?) && (q.InEnter? || q.InDelete?))
    ensures t == u
  {
    RunKeepsInv(run);
    assert PcOk(After(run), t) && PcOk(After(run), u);
  }

  /** The delete by key always removes the deleting leader's own record, and no other. */
  lemma DeleteRemovesOwnRecord(run: seq<Event>, t: nat)
    requires IsRun(run) && Enabled(After(run), Delete(t))
    ensures
      var s, s' := After(run), Next(After(run), Delete(t));
      var pc := PcOf(s, t);
      && pc.key in s.inflight && s.inflight[pc.key] == pc.c && s.calls[pc.c].leader == t
      && (forall key :: key in s'.inflight <==> key in s.inflight && key != pc.key)
      && (forall key :: key in s'.inflight ==> s'.inflight[key] == s.inflight[key])
  {
    RunKeepsInv(run);
    assert PcOk(After(run), t);
  }

  predicate Holds(pc: Pc, key: string, c: nat) {
    !pc.Idle? && !pc.WantEnter? && !pc.InEnter? && pc.key == key && pc.c == c
  }

  /** Event i of the run is t's look-up, after which record c is in flight for the key. */
  ghost predicate JoinedAt(run: seq<Event>, t: nat, key: string, c: nat, i: nat)
    requires IsRun(run)
  {
    && i < |run|
    && run[i] == JoinOrLead(t)
    && IsRun(run[..i + 1])
    && key in After(run[..i + 1]).inflight && After(run[..i + 1]).inflight[key] == c
  }

  /** Event j of the run is the return of the fn that fills record c. */
  ghost predicate FilledAt(run: seq<Event>, key: string, c: nat, reply: Reply, j: nat)
    requires IsRun(run)
  {
    && j < |run|
    && IsRun(run[..j])
    && run[j].FnReturns? && run[j].reply == reply
    && PcOf(After(run[..j]), run[j].t) == Running(key, c)
  }

  lemma JoinedLater(run: seq<Event>, t: nat, key: string, c: nat, i: nat)
    requires run != [] && IsRun(run) && JoinedAt(run[..|run| - 1], t, key, c, i)
    ensures JoinedAt(run, t, key, c, i)
  {
    assert run[..|run| - 1][..i + 1] == run[..i + 1];
  }

  lemma {:induction false} HolderJoined(run: seq<Event>, t: nat, key: string, c: nat) returns (i: nat)
    requires IsRun(run) && Holds(PcOf(After(run), t), key, c)
    ensures JoinedAt(run, t, key, c, i)
  {
    var n := |run| - 1;
    var prev := run[..n];
    if Holds(PcOf(After(prev), t), key, c) {
      i := HolderJoined(prev, t, key, c);
      JoinedLater(run, t, key, c, i);
    } else {
      i := n;
      assert run[..n + 1] == run;
    }
  }

  lemma {:induction false} ReplyFilled(run: seq<Event>, c: nat) returns (j: nat)
    requires IsRun(run) && c < |After(run).calls| && After(run).calls[c].reply.Some?
    ensures FilledAt(run, After(run).calls[c].key, c, After(run).calls[c].reply.value, j)
  {
    var n := |run| - 1;
    var prev := run[..n];
    RunKeepsInv(prev);
    assert PcOk(After(prev), run[n].t);
    if c < |After(prev).calls| && After(prev).calls[c].reply.Some? {
      j := ReplyFilled(prev, c);
      assert prev[..j] == run[..j];
    } else {
      j := n;
    }
  }

  /**
   Every caller returns the reply of an fn run for its own key, and the record of
   that run was in flight when the caller looked the key up.
   */
  lemma ReturnsReplyForOwnKey(run: seq<Event>, t: nat) returns (i: nat, j: nat)
    requires IsRun(run) && PcOf(After(run), t).Returned?
    ensures
      var pc := PcOf(After(run), t);
      JoinedAt(run, t, pc.key, pc.c, i) && FilledAt(run, pc.key, pc.c, pc.reply, j)
  {
    RunKeepsInv(run);
    assert PcOk(After(run), t);
    var pc := PcOf(After(run), t);
    i := HolderJoined(run, t, pc.key, pc.c);
    j := ReplyFilled(run, pc.c);
  }

  // ---------- No caller is left behind ----------

  /** A waiter is blocked only while the leader of its record is running or about to release. */
  lemma WaiterReleased(run: seq<Event>, t: nat)
    requires IsRun(run) && PcOf(After(run), t).Waiting?
    ensures
      var s := After(run);
      var c := PcOf(s, t).c;
      && c < |s.calls|
      && (Enabled(s, Wake(t)) || PcOf(s, s.calls[c].leader).Running? || Enabled(s, Release(s.calls[c].leader)))
  {
    RunKeepsInv(run);
    var s := After(run);
    assert PcOk(s, t);
    assert CallOk(s, PcOf(s, t).c);
    assert PcOk(s, s.calls[PcOf(s, t).c].leader);
  }

  /** Steps a caller still has to take; a waiter and a leader both end at Returned. */
  function Remaining(pc: Pc): nat {
    match pc
    case WantEnter(_) => 7
    case InEnter(_) => 6
    case Running(_, _) => 5
    case Stored(_, _) => 4
    case WantDelete(_, _) => 3
    case InDelete(_, _) => 2
    case Waiting(_, _) => 1
    case Returned(_, _, _) => 0
    case Idle => 0
  }

  predicate Busy(pc: Pc) { Remaining(pc) > 0 }

  /** Whoever moves gets closer to its return, and nobody else is pushed back. */
  lemma StepsGetCloser(s: State, e: Event, u: nat)
    requires Enabled(s, e) && !e.Begin?
    ensures Remaining(PcOf(Next(s, e), u)) <= Remaining(PcOf(s, u))
    ensures u == e.t && !e.Forget? ==> Remaining(PcOf(Next(s, e), u)) < Remaining(PcOf(s, u))
  {
  }

  ghost function Total(pcs: map<nat, Pc>): nat
    decreases |pcs|
  {
    if pcs == map[] then 0
    else var t :| t in pcs; Remaining(pcs[t]) + Total(pcs - {t})
  }

  /** The total does not depend on the order in which callers are counted. */
  lemma {:induction false} TotalSplit(pcs: map<nat, Pc>, t: nat)
    requires t in pcs
    ensures Total(pcs) == Remaining(pcs[t]) + Total(pcs - {t})
    decreases |pcs|
  {
    var u :| u in pcs && Total(pcs) == Remaining(pcs[u]) + Total(pcs - {u});
    if u != t {
      TotalSplit(pcs - {u}, t);
      TotalSplit(pcs - {t}, u);
      assert pcs - {u} - {t} == pcs - {t} - {u};
    }
  }

  lemma TotalDrops(s: State, e: Event)
    requires Enabled(s, e) && !e.Begin? && !e.Forget?
    ensures Total(Next(s, e).pcs) < Total(s.pcs)
  {
    StepsGetCloser(s, e, e.t);
    TotalSplit(s.pcs, e.t);
    TotalSplit(Next(s, e).pcs, e.t);
    assert Next(s, e).pcs - {e.t} == s.pcs - {e.t};
  }

  /** Once no new call begins, only boundedly many steps are left. */
  lemma {:induction false} DrainIsBounded(run: seq<Event>, more: seq<Event>)
    requires IsRun(run) && IsRun(run + more)
    requires forall e :: e in more ==> !e.Begin? && !e.Forget?
    ensures |more| + Total(After(run + more).pcs) <= Total(After(run).pcs)
  {
    hide Next; hide Enabled; hide Total;
    if more == [] {
      assert run + more == run;
    } else {
      var n := |more| - 1;
      assert (run + more)[..|run| + n] == run + more[..n];
      DrainIsBounded(run, more[..n]);
      TotalDrops(After(run + more[..n]), more[n]);
    }
  }

  /**
   No deadlock: in every reachable state with an unfinished call some unfinished
   call can move. With DrainIsBounded, every run in which no new call begins and
   which cannot be continued has returned to all its callers.
   */
  lemma NoDeadlock(run: seq<Event>, t: nat) returns (e: Event)
    requires IsRun(run) && Busy(PcOf(After(run), t))
    ensures Enabled(After(run), e) && Busy(PcOf(After(run), e.t)) && !e.Begin? && !e.Forget?
  {
    RunKeepsInv(run);
    var s := After(run);
    var pc := PcOf(s, t);
    assert PcOk(s, t);
    if pc.Waiting? {
      WaiterReleased(run, t);
      var leader := s.calls[pc.c].leader;
      assert PcOk(s, leader);
      e := if Enabled(s, Wake(t)) then Wake(t)
           else if PcOf(s, leader).Running? then FnReturns(leader, Reply("", true))
           else Release(leader);
    } else if pc.WantEnter? || pc.WantDelete? {
      match s.mutex {
        case Some(h) =>
          assert PcOk(s, h);
          e := if PcOf(s, h).InEnter? then JoinOrLead(h) else Delete(h);
        case None =>
          e := if pc.WantEnter? then LockEnter(t) else LockDelete(t);
      }
    } else {
      e := if pc.InEnter? then JoinOrLead(t)
           else if pc.InDelete? then Delete(t)
           else if pc.Running? then FnReturns(t, Reply("", true))
           else Release(t);
    }
  }
}
