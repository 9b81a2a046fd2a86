/**
 The HEAD-probe fan-out of internal/routing/recovery.go:118-149: one prober per
 backend, a closer that waits for all of them, a channel as large as the backend
 list, and a receiver that returns at the first non-empty URL without draining
 the channel. Cancellation only influences the answers of the probes.
 */
module ProbeFanOut {
  import opened Basics

  datatype Prober =
    | Probing        // the HEAD request is out
    | Sending        // answered 200, at ch <- result
    | Sent           // delivered to the channel, before wg.Done()
    | Finished       // wg.Done() executed

  datatype Receiver = Receiving | Returned(url: string)

  /**
   `oks[i]` is the answer of probe i once it is known, None while it is out; `taken`
   is what the receiver has taken from the channel so far.
   */
  datatype State = State(
    probers: seq<Prober>,
    oks: seq<Option<bool>>,
    buffer: seq<string>,
    taken: seq<string>,
    closed: bool,
    receiver: Receiver)

  datatype Event =
    | Answer(i: nat, ok: bool)
    | Send(i: nat)
    | Done(i: nat)
    | Close
    | Receive
    | ReceiveClosed

  function Initial(n: nat): State {
    State(seq(n, _ => Probing), seq(n, _ => None), [], [], false, Receiving)
  }

  /** A send needs room in the channel; the capacity is the number of backends. */
  predicate Enabled(urls: seq<string>, s: State, e: Event) {
    match e
    case Answer(i, _) => i < |s.probers| && i < |s.oks| && s.probers[i] == Probing
    case Send(i) => i < |s.probers| && i < |urls| && s.probers[i] == Sending && |s.buffer| < |urls|
    case Done(i) => i < |s.probers| && s.probers[i] == Sent
    case Close => !s.closed && forall i :: 0 <= i < |s.probers| ==> s.probers[i] == Finished
    case Receive => s.receiver.Receiving? && s.buffer != []
    case ReceiveClosed => s.receiver.Receiving? && s.buffer == [] && s.closed
  }

  function Next(urls: seq<string>, s: State, e: Event): State
    requires Enabled(urls, s, e)
  {
    match e
    case Answer(i, ok) =>
      s.(probers := s.probers[i := if ok then Sending else Finished], oks := s.oks[i := Some(ok)])
    case Send(i) => s.(probers := s.probers[i := Sent], buffer := s.buffer + [urls[i]])
    case Done(i) => s.(probers := s.probers[i := Finished])
    case Close => s.(closed := true)
    case Receive =>
      s.(buffer := s.buffer[1..], taken := s.taken + [s.buffer[0]],
         receiver := if s.buffer[0] != "" then Returned(s.buffer[0]) else Receiving)
    case ReceiveClosed => s.(receiver := Returned(""))
  }

  ghost predicate IsRun(urls: seq<string>, run: seq<Event>)
    decreases |run|, 0
  {
    run == [] ||
    (IsRun(urls, run[..|run| - 1]) && Enabled(urls, After(urls, run[..|run| - 1]), run[|run| - 1]))
  }

  ghost function After(urls: seq<string>, run: seq<Event>): State
    requires IsRun(urls, run)
    decreases |run|, 1
  {
    if run == [] then Initial(|urls|) else Next(urls, After(urls, run[..|run| - 1]), run[|run| - 1])
  }

  // ---------- What every step keeps ----------

  predicate Gone(p: Prober, ok: Option<bool>) {
    ok == Some(true) && (p.Sent? || p.Finished?)
  }

  /** The URLs of the probes that answered 200 and have delivered. */
  function Delivered(urls: seq<string>, probers: seq<Prober>, oks: seq<Option<bool>>): multiset<string>
    requires |urls| == |probers| == |oks|
  {
    if urls == [] then multiset{}
    else
      var first := if Gone(probers[0], oks[0]) then multiset{urls[0]} else multiset{};
      Delivered(urls[1..], probers[1..], oks[1..]) + first
  }

  lemma {:induction false} DeliveredUpdate(urls: seq<string>, probers: seq<Prober>, oks: seq<Option<bool>>,
                                           i: nat, p: Prober, ok: Option<bool>)
    requires |urls| == |probers| == |oks| && i < |urls| && !Gone(probers[i], oks[i])
    ensures Delivered(urls, probers[i := p], oks[i := ok])
            == Delivered(urls, probers, oks) + if Gone(p, ok) then multiset{urls[i]} else multiset{}
  {
    if i > 0 {
      assert probers[i := p][1..] == probers[1..][i - 1 := p];
      assert oks[i := ok][1..] == oks[1..][i - 1 := ok];
      DeliveredUpdate(urls[1..], probers[1..], oks[1..], i - 1, p, ok);
    } else {
      assert probers[0 := p][1..] == probers[1..];
      assert oks[0 := ok][1..] == oks[1..];
    }
  }

  /** Which prober is past its send does not change what was delivered. */
  lemma {:induction false} DeliveredSame(urls: seq<string>, probers: seq<Prober>, probers': seq<Prober>,
                                         oks: seq<Option<bool>>)
    requires |urls| == |probers| == |probers'| == |oks|
    requires forall i :: 0 <= i < |urls| ==> Gone(probers[i], oks[i]) == Gone(probers'[i], oks[i])
    ensures Delivered(urls, probers, oks) == Delivered(urls, probers', oks)
  {
    if urls != [] {
      assert Gone(probers[0], oks[0]) == Gone(probers'[0], oks[0]);
      forall i | 0 <= i < |urls| - 1 ensures Gone(probers[1..][i], oks[1..][i]) == Gone(probers'[1..][i], oks[1..][i]) {
        assert Gone(probers[i + 1], oks[i + 1]) == Gone(probers'[i + 1], oks[i + 1]);
      }
      DeliveredSame(urls[1..], probers[1..], probers'[1..], oks[1..]);
    }
  }

  lemma {:induction false} DeliveredCount(urls: seq<string>, probers: seq<Prober>, oks: seq<Option<bool>>)
    requires |urls| == |probers| == |oks|
    ensures |Delivered(urls, probers, oks)| <= |urls|
    ensures (exists i :: 0 <= i < |urls| && !Gone(probers[i], oks[i])) ==> |Delivered(urls, probers, oks)| < |urls|
  {
    if urls != [] {
      DeliveredCount(urls[1..], probers[1..], oks[1..]);
      if i :| 0 <= i < |urls| && !Gone(probers[i], oks[i]) {
        assert i > 0 ==> !Gone(probers[1..][i - 1], oks[1..][i - 1]);
      }
    }
  }

  lemma {:induction false} DeliveredIff(urls: seq<string>, probers: seq<Prober>, oks: seq<Option<bool>>, u: string)
    requires |urls| == |probers| == |oks|
    ensures u in Delivered(urls, probers, oks) <==>
            exists i :: 0 <= i < |urls| && urls[i] == u && Gone(probers[i], oks[i])
  {
    if urls != [] {
      DeliveredIff(urls[1..], probers[1..], oks[1..], u);
      if i :| 0 <= i < |urls| && urls[i] == u && Gone(probers[i], oks[i]) {
        assert i > 0 ==> urls[1..][i - 1] == u && Gone(probers[1..][i - 1], oks[1..][i - 1]);
      }
      if i :| 0 <= i < |urls| - 1 && urls[1..][i] == u && Gone(probers[1..][i], oks[1..][i]) {
        assert urls[i + 1] == u && Gone(probers[i + 1], oks[i + 1]);
      }
    }
  }

  ghost predicate ProberOk(s: State, i: nat)
    requires |s.probers| == |s.oks| && i < |s.probers|
  {
    match s.probers[i]
    case Probing => s.oks[i] == None
    case Sending => s.oks[i] == Some(true)
    case Sent => s.oks[i] == Some(true)
    case Finished => s.oks[i].Some?
  }

  predicate AllEmpty(us: seq<string>) {
    forall k :: 0 <= k < |us| ==> us[k] == ""
  }

  /** The receiver goes past empty URLs and returns at the first other one. */
  ghost predicate TakenOk(s: State) {
    match s.receiver
    case Receiving => AllEmpty(s.taken)
    case Returned(url) =>
      if url == "" then s.closed && s.buffer == [] && AllEmpty(s.taken)
      else s.taken != [] && s.taken[|s.taken| - 1] == url && AllEmpty(s.taken[..|s.taken| - 1])
  }

  lemma {:induction false} InitialDelivered(urls: seq<string>)
    ensures Delivered(urls, Initial(|urls|).probers, Initial(|urls|).oks) == multiset{}
  {
    if urls != [] {
      InitialDelivered(urls[1..]);
      assert Initial(|urls|).probers[1..] == Initial(|urls[1..]|).probers;
      assert Initial(|urls|).oks[1..] == Initial(|urls[1..]|).oks;
    }
  }

  /** Nothing is lost on the way from the probers through the channel to the receiver. */
  ghost predicate Conserved(urls: seq<string>, s: State) {
    && |s.probers| == |s.oks| == |urls|
    && multiset(s.taken) + multiset(s.buffer) == Delivered(urls, s.probers, s.oks)
  }

  ghost predicate ProbersOk(urls: seq<string>, s: State) {
    && |s.probers| == |s.oks| == |urls|
    && (forall i: nat :: i < |urls| ==> ProberOk(s, i))
    && (s.closed ==> forall i :: 0 <= i < |urls| ==> s.probers[i].Finished?)
  }

  ghost predicate Inv(urls: seq<string>, s: State) {
    ProbersOk(urls, s) && Conserved(urls, s) && TakenOk(s)
  }

  lemma NextProbers(urls: seq<string>, s: State, e: Event)
    requires ProbersOk(urls, s) && Enabled(urls, s, e)
    ensures ProbersOk(urls, Next(urls, s, e))
  {
    var s' := Next(urls, s, e);
    forall i: nat | i < |urls| ensures ProberOk(s', i) { assert ProberOk(s, i); }
  }

  /** An answer delivers nothing yet, a send one URL. */
  lemma SendConserves(urls: seq<string>, s: State, e: Event)
    requires ProbersOk(urls, s) && Conserved(urls, s) && Enabled(urls, s, e) && (e.Answer? || e.Send?)
    ensures Conserved(urls, Next(urls, s, e))
  {
    assert ProberOk(s, e.i);
    hide ProbersOk; hide Delivered; hide ProberOk;
    match e
    case Answer(i, ok) =>
      DeliveredUpdate(urls, s.probers, s.oks, i, if ok then Sending else Finished, Some(ok));
    case Send(i) =>
      DeliveredUpdate(urls, s.probers, s.oks, i, Sent, s.oks[i]);
      assert s.oks[i := s.oks[i]] == s.oks;
      assert multiset(s.buffer + [urls[i]]) == multiset(s.buffer) + multiset{urls[i]};
  }

  lemma DoneConserves(urls: seq<string>, s: State, e: Event)
    requires Conserved(urls, s) && Enabled(urls, s, e) && e.Done?
    ensures Conserved(urls, Next(urls, s, e))
  {
    hide Delivered;
    DeliveredSame(urls, s.probers, s.probers[e.i := Finished], s.oks);
  }

  lemma ReceiverConserves(urls: seq<string>, s: State, e: Event)
    requires Conserved(urls, s) && Enabled(urls, s, e) && !e.Answer? && !e.Send? && !e.Done?
    ensures Conserved(urls, Next(urls, s, e))
  {
    hide Delivered;
    if e.Receive? { assert s.buffer == [s.buffer[0]] + s.buffer[1..]; }
  }

  lemma ReceiveTakes(urls: seq<string>, s: State)
    requires TakenOk(s) && Enabled(urls, s, Receive)
    ensures TakenOk(Next(urls, s, Receive))
  {
    var taken := s.taken + [s.buffer[0]];
    assert taken[..|taken| - 1] == s.taken;
    assert s.buffer[0] == "" ==> AllEmpty(taken);
  }

  lemma NextTaken(urls: seq<string>, s: State, e: Event)
    requires ProbersOk(urls, s) && TakenOk(s) && Enabled(urls, s, e)
    ensures TakenOk(Next(urls, s, e))
  {
    hide AllEmpty;
    if e.Send? { assert s.probers[e.i].Sending? && !s.closed; }
    if e.Receive? { ReceiveTakes(urls, s); }
  }

  lemma NextKeepsInv(urls: seq<string>, s: State, e: Event)
    requires Inv(urls, s) && Enabled(urls, s, e)
    ensures Inv(urls, Next(urls, s, e))
  {
    hide Next; hide Enabled; hide ProbersOk; hide Conserved; hide TakenOk;
    NextProbers(urls, s, e);
    NextTaken(urls, s, e);
    if e.Answer? || e.Send? { SendConserves(urls, s, e); }
    else if e.Done? { DoneConserves(urls, s, e); }
    else { ReceiverConserves(urls, s, e); }
  }

  lemma {:induction false} RunKeepsInv(urls: seq<string>, run: seq<Event>)
    requires IsRun(urls, run)
    ensures Inv(urls, After(urls, run))
  {
    if run == [] {
      InitialDelivered(urls);
    } else {
      RunKeepsInv(urls, run[..|run| - 1]);
      NextKeepsInv(urls, After(urls, run[..|run| - 1]), run[|run| - 1]);
    }
  }

  // ---------- Nobody blocks ----------

  /**
   A prober that wants to send always can: the channel has room and is not
   closed, whether or not the receiver has already returned.
   */
  lemma SendNeverBlocks(urls: seq<string>, run: seq<Event>, i: nat)
    requires IsRun(urls, run) && i < |After(urls, run).probers| && After(urls, run).probers[i] == Sending
    ensures Enabled(urls, After(urls, run), Send(i)) && !After(urls, run).closed
  {
    RunKeepsInv(urls, run);
    var s := After(urls, run);
    hide IsRun; hide After;
    DeliveredCount(urls, s.probers, s.oks);
    assert !Gone(s.probers[i], s.oks[i]);
    assert |multiset(s.taken) + multiset(s.buffer)| == |s.taken| + |s.buffer|;
  }

  function Left(p: Prober): nat {
    match p case Probing => 3 case Sending => 2 case Sent => 1 case Finished => 0
  }

  function Work(probers: seq<Prober>): nat {
    if probers == [] then 0 else Left(probers[0]) + Work(probers[1..])
  }

  lemma {:induction false} WorkUpdate(probers: seq<Prober>, i: nat, p: Prober)
    requires i < |probers|
    ensures Work(probers[i := p]) + Left(probers[i]) == Work(probers) + Left(p)
  {
    if i > 0 {
      assert probers[i := p][1..] == probers[1..][i - 1 := p];
      WorkUpdate(probers[1..], i - 1, p);
    } else {
      assert probers[0 := p][1..] == probers[1..];
    }
  }

  /** What is left to do for the probers, the closer and the receiver together. */
  function Pending(s: State): nat {
    Work(s.probers) * 2 + (if s.closed then 0 else 1) + |s.buffer| + (if s.receiver.Receiving? then 1 else 0)
  }

  /** Every step is progress, so every run is finite. */
  lemma {:induction false} RunIsBounded(urls: seq<string>, run: seq<Event>)
    requires IsRun(urls, run)
    ensures |run| + Pending(After(urls, run)) <= 6 * |urls| + 2
  {
    if run == [] {
      InitialWork(|urls|);
    } else {
      var prev := run[..|run| - 1];
      var s, e := After(urls, prev), run[|run| - 1];
      RunIsBounded(urls, prev);
      if e.Answer? || e.Send? || e.Done? {
        WorkUpdate(s.probers, e.i, Next(urls, s, e).probers[e.i]);
      }
    }
  }

  lemma {:induction false} InitialWork(n: nat)
    ensures Work(Initial(n).probers) == 3 * n
  {
    if n > 0 {
      InitialWork(n - 1);
      assert Initial(n).probers[1..] == Initial(n - 1).probers;
    }
  }

  /**
   A run that cannot be continued has finished every prober, closed the channel
   and returned from the receiver; the probers and the closer get there without
   any help from the receiver.
   */
  lemma StuckMeansFinished(urls: seq<string>, run: seq<Event>)
    requires IsRun(urls, run)
    requires forall e: Event :: Enabled(urls, After(urls, run), e) ==> e.Receive? || e.ReceiveClosed?
    ensures
      var s := After(urls, run);
      && s.closed
      && (forall i :: 0 <= i < |s.probers| ==> s.probers[i].Finished?)
      && (s.receiver.Returned? || Enabled(urls, s, Receive) || Enabled(urls, s, ReceiveClosed))
  {
    RunKeepsInv(urls, run);
    var s := After(urls, run);
    forall i: nat | i < |s.probers| ensures s.probers[i].Finished? {
      assert s.probers[i].Probing? ==> Enabled(urls, s, Answer(i, false));
      assert s.probers[i].Sent? ==> Enabled(urls, s, Done(i));
      if s.probers[i].Sending? { SendNeverBlocks(urls, run, i); }
    }
    assert s.closed || Enabled(urls, s, Close);
  }

  // ---------- What is returned ----------

  /** The answers a fan-out over `urls` may give when probe i answers `oks[i]`. */
  ghost predicate MayReturn(urls: seq<string>, oks: seq<bool>, r: string)
    requires |urls| == |oks|
  {
    if r != "" then exists i :: 0 <= i < |urls| && urls[i] == r && oks[i]
    else forall i :: 0 <= i < |urls| && oks[i] ==> urls[i] == ""
  }

  /**
   A non-empty result is a listed backend that answered 200; the empty result
   means that no backend with a non-empty URL answered 200, so with non-empty URLs
   every probe failed.
   */
  lemma ResultIsRight(urls: seq<string>, run: seq<Event>, oks: seq<bool>)
    requires IsRun(urls, run) && After(urls, run).receiver.Returned?
    requires |oks| == |urls|
    requires forall i :: 0 <= i < |After(urls, run).oks| && i < |oks| ==>
               After(urls, run).oks[i].Some? ==> After(urls, run).oks[i].value == oks[i]
    ensures MayReturn(urls, oks, After(urls, run).receiver.url)
  {
    RunKeepsInv(urls, run);
    var s := After(urls, run);
    hide IsRun; hide After; hide Delivered;
    var r := s.receiver.url;
    DeliveredIff(urls, s.probers, s.oks, r);
    if r != "" {
      assert r in multiset(s.taken);
    } else {
      forall i: nat | i < |urls| && oks[i] ensures urls[i] == "" {
        assert ProberOk(s, i);
        DeliveredIff(urls, s.probers, s.oks, urls[i]);
        assert Gone(s.probers[i], s.oks[i]);
        assert urls[i] in s.taken;
      }
    }
  }
}
