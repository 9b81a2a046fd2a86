/**
 The recovery chain tries its steps in order (internal/routing/recovery.go:83-106):
 the first active backend is only ever returned after an empty history look-up and
 a fan-out in which no listed backend with a URL answered 200.
 */
module Recovery {
  import opened Basics
  import opened Gateway
  import SF = SingleFlight
  import FO = ProbeFanOut

  ghost predicate PcIs(s: State, t: nat, pc: Pc) {
    t in s.threads && s.threads[t].pc == pc
  }

  ghost predicate PutByRecovery(pc: Pc) {
    pc.AtList? || pc.AtProbe? || (pc.Routed? && (pc.src == ViaDefault || pc.src == ViaProbe))
  }

  lemma NotByOthers(env: Env, s: State, e: Event, t: nat, pc: Pc)
    requires Enabled(env, s, e) && PcIs(Next(env, s, e), t, pc) && !PcIs(s, t, pc) && PutByRecovery(pc)
    ensures InRecovery(e) && e.t == t
  {
    hide QueryId; hide FirstInGroup; hide FO.MayReturn; hide Urls;
    Frame(env, s, e, t);
  }

  lemma LookupPutsIt(env: Env, s: State, e: Event, pc: Pc)
    requires InRecovery(e) && e.t in s.threads && CanRecover(env, s, e) && pc.AtList?
    requires PcIs(RecoveryStep(env, s, e), e.t, pc) && !PcIs(s, e.t, pc)
    ensures e.LookupAnswer? && PcIs(s, e.t, Recovering(pc.id, pc.forKill))
    ensures SF.PcOf(s.sf, e.t).Returned? && SF.PcOf(s.sf, e.t).reply.val == ""
  {
    hide FO.MayReturn; hide Urls;
  }

  lemma ProbePutsIt(env: Env, s: State, e: Event, pc: Pc)
    requires InRecovery(e) && e.t in s.threads && CanRecover(env, s, e) && pc.Routed?
    requires PcIs(RecoveryStep(env, s, e), e.t, pc) && !PcIs(s, e.t, pc)
    ensures pc.src == ViaDefault || pc.src == ViaProbe ==>
              && e.Probe? && s.threads[e.t].pc.AtProbe? && s.threads[e.t].pc.id == pc.id
              && |e.oks| == |s.threads[e.t].pc.backends|
              && FO.MayReturn(Urls(s.threads[e.t].pc.backends), e.oks, e.answer)
              && if pc.src == ViaProbe then e.answer == pc.url != ""
                 else e.answer == "" && s.threads[e.t].pc.backends != [] && pc.url == s.threads[e.t].pc.backends[0].url
  {
    hide FO.MayReturn; hide Urls;
  }

  lemma ListPutsIt(env: Env, s: State, e: Event, pc: Pc)
    requires InRecovery(e) && e.t in s.threads && CanRecover(env, s, e) && pc.AtProbe?
    requires PcIs(RecoveryStep(env, s, e), e.t, pc) && !PcIs(s, e.t, pc)
    ensures e == ListForProbe(e.t, Some(pc.backends)) && PcIs(s, e.t, AtList(pc.id, pc.forKill)) && pc.backends != []
  {
    hide FO.MayReturn; hide Urls;
  }

  /** Which step puts a request where it is. */
  lemma WhoPutsIt(env: Env, s: State, e: Event, t: nat, pc: Pc)
    requires Enabled(env, s, e) && PcIs(Next(env, s, e), t, pc) && !PcIs(s, t, pc)
    ensures pc.AtList? ==>
              e == LookupAnswer(t) && PcIs(s, t, Recovering(pc.id, pc.forKill))
              && SF.PcOf(s.sf, t).Returned? && SF.PcOf(s.sf, t).reply.val == ""
    ensures pc.AtProbe? ==>
              e == ListForProbe(t, Some(pc.backends)) && PcIs(s, t, AtList(pc.id, pc.forKill)) && pc.backends != []
    ensures pc.Routed? && pc.src == ViaDefault ==>
              && e.Probe? && e.t == t && e.answer == ""
              && t in s.threads && s.threads[t].pc.AtProbe? && s.threads[t].pc.id == pc.id
              && s.threads[t].pc.backends != [] && pc.url == s.threads[t].pc.backends[0].url
              && |e.oks| == |s.threads[t].pc.backends| && FO.MayReturn(Urls(s.threads[t].pc.backends), e.oks, "")
    ensures pc.Routed? && pc.src == ViaProbe ==>
              && e.Probe? && e.t == t && e.answer == pc.url != ""
              && t in s.threads && s.threads[t].pc.AtProbe? && s.threads[t].pc.id == pc.id
  {
    hide OutsideStep; hide RouteStep; hide RecoveryStep; hide ReplyStep; hide CanRoute; hide CanRecover; hide CanReply;
    hide FO.MayReturn; hide Urls; hide QueryId;
    if PutByRecovery(pc) {
      NotByOthers(env, s, e, t, pc);
      if pc.AtList? { LookupPutsIt(env, s, e, pc); }
      if pc.AtProbe? { ListPutsIt(env, s, e, pc); }
      if pc.Routed? { ProbePutsIt(env, s, e, pc); }
    }
  }

  /** The step that put a request where it is lies in the run, and has not been undone. */
  lemma {:induction false} PutAt(env: Env, run: seq<Event>, t: nat, pc: Pc) returns (i: nat)
    requires IsRun(env, run) && PcIs(After(env, run), t, pc)
    ensures i < |run| && IsRun(env, run[..i]) && IsRun(env, run[..i + 1])
    ensures !PcIs(After(env, run[..i]), t, pc) && PcIs(After(env, run[..i + 1]), t, pc)
    ensures Enabled(env, After(env, run[..i]), run[i])
    ensures After(env, run[..i + 1]) == Next(env, After(env, run[..i]), run[i])
  {
    hide Next; hide Enabled;
    var n := |run| - 1;
    var prev := run[..n];
    if PcIs(After(env, prev), t, pc) {
      i := PutAt(env, prev, t, pc);
      assert prev[..i] == run[..i] && prev[..i + 1] == run[..i + 1];
    } else {
      i := n;
      assert run[..n + 1] == run;
    }
  }

  lemma ProbedAfterLookup(env: Env, run: seq<Event>, t: nat, id: string, forKill: bool, bs: seq<Backend>)
    returns (i: nat, j: nat)
    requires IsRun(env, run) && PcIs(After(env, run), t, AtProbe(id, forKill, bs))
    ensures i < j < |run| && run[j] == ListForProbe(t, Some(bs)) && run[i] == LookupAnswer(t) && IsRun(env, run[..i])
    ensures
      var pc := SF.PcOf(After(env, run[..i]).sf, t);
      PcIs(After(env, run[..i]), t, Recovering(id, forKill)) && pc.Returned? && pc.reply.val == ""
  {
    hide Next; hide Enabled; hide IsRun; hide After;
    j := PutAt(env, run, t, AtProbe(id, forKill, bs));
    WhoPutsIt(env, After(env, run[..j]), run[j], t, AtProbe(id, forKill, bs));
    i := PutAt(env, run[..j], t, AtList(id, forKill));
    assert run[..j][..i] == run[..i] && run[..j][i] == run[i] && run[..j][..i + 1] == run[..i + 1];
    WhoPutsIt(env, After(env, run[..i]), run[i], t, AtList(id, forKill));
  }

  /**
   A request routed by the first-active default had, in this order, a history
   look-up of its id that brought nothing, a list of active backends, and a fan-out
   over that list in which no backend with a URL answered 200; it got the first of
   the list.
   */
  lemma DefaultIsTheLastResort(env: Env, run: seq<Event>, t: nat) returns (i: nat, j: nat, k: nat, bs: seq<Backend>)
    requires IsRun(env, run) && t in After(env, run).threads
    requires After(env, run).threads[t].pc.Routed? && After(env, run).threads[t].pc.src == ViaDefault
    ensures i < j < k < |run| && bs != []
    ensures run[i] == LookupAnswer(t) && run[j] == ListForProbe(t, Some(bs)) && run[k].Probe? && run[k].t == t
    ensures IsRun(env, run[..i])
    ensures
      var pc := SF.PcOf(After(env, run[..i]).sf, t);
      pc.Returned? && pc.key == After(env, run).threads[t].pc.id && pc.reply.val == ""
    ensures |run[k].oks| == |bs| && forall b :: 0 <= b < |bs| && run[k].oks[b] ==> bs[b].url == ""
    ensures After(env, run).threads[t].pc.url == bs[0].url
  {
    hide Next; hide Enabled; hide IsRun; hide After;
    var pc := After(env, run).threads[t].pc;
    k := PutAt(env, run, t, pc);
    var s := After(env, run[..k]);
    WhoPutsIt(env, s, run[k], t, pc);
    var at := s.threads[t].pc;
    bs := at.backends;
    i, j := ProbedAfterLookup(env, run[..k], t, at.id, at.forKill, bs);
    assert run[..k][..i] == run[..i] && run[..k][i] == run[i] && run[..k][j] == run[j];
    RunKeepsInv(env, run[..i]);
    assert ThreadOk(env, After(env, run[..i]), t);
    assert forall b :: 0 <= b < |bs| ==> Urls(bs)[b] == bs[b].url;
  }

  /** A request routed by a probe had an empty history look-up before it. */
  lemma ProbeIsSecond(env: Env, run: seq<Event>, t: nat) returns (i: nat, k: nat)
    requires IsRun(env, run) && t in After(env, run).threads
    requires After(env, run).threads[t].pc.Routed? && After(env, run).threads[t].pc.src == ViaProbe
    ensures i < k < |run| && run[i] == LookupAnswer(t) && run[k].Probe? && run[k].t == t && IsRun(env, run[..i])
    ensures SF.PcOf(After(env, run[..i]).sf, t).Returned? && SF.PcOf(After(env, run[..i]).sf, t).reply.val == ""
    ensures After(env, run).threads[t].pc.url == run[k].answer
  {
    hide Next; hide Enabled; hide IsRun; hide After;
    var pc := After(env, run).threads[t].pc;
    k := PutAt(env, run, t, pc);
    var s := After(env, run[..k]);
    WhoPutsIt(env, s, run[k], t, pc);
    var at := s.threads[t].pc;
    var j;
    i, j := ProbedAfterLookup(env, run[..k], t, at.id, at.forKill, at.backends);
    assert run[..k][..i] == run[..i] && run[..k][i] == run[i];
  }
}
