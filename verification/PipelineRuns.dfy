/**
 Concurrent use of the routing pipeline, at the granularity of its atomic
 operations: readers load the method-list pointer once, kill-switch calls load,
 copy and compare-and-swap in a retry loop (pipeline.go:247-272), and the reload
 watcher (routing-service/internal/reload/watcher.go:188-249) builds a new list
 method by method and stores it with one plain store.

 A pointer is an index into `cells`; a cell never changes once allocated, and a
 stored list always gets a fresh cell.
 */
module PipelineRuns {
  import opened Basics
  import opened Pipeline

  datatype Op = Flick(typ: string, sw: Switch) | Install(entries: seq<Entry>)

  /** An operation with the ticket number it drew when it was called; an Install is called as Swap. */
  datatype Commit = Commit(ticket: nat, op: Op)

  /** `at` is the length of the commit log when the pointer was loaded. */
  datatype Pc =
    | Idle
    | Called(ticket: nat, typ: string, sw: Switch)
    | Loaded(ticket: nat, typ: string, sw: Switch, ptr: nat, at: nat)
    | Finished(ticket: nat, typ: string, sw: Switch)
    | Reading(from: nat)                                   // an evaluation has been called
    | Evaluating(from: nat, ptr: nat, at: nat)             // ... and has loaded the list

  datatype Watcher =
    | Waiting
    | Parsing                                              // the file was read
    | Building(todo: nat, built: seq<Provider>)
    | Storing(ticket: nat, built: seq<Provider>)           // every method built, Swap called
    | Stored                                               // before reloadSuccessTotal.Add(1)
    | Counting                                             // the deferred reloadCount.Add(1)

  /**
   `log` lists the operations in the order in which they took effect. `good` is
   the method list of the last config that was built in full, or the startup list.
   */
  datatype State = State(
    cells: seq<seq<Entry>>,
    ptr: nat,
    pcs: map<nat, Pc>,
    watcher: Watcher,
    successes: nat,
    errors: nat,
    reloads: nat,
    tickets: nat,
    log: seq<Commit>,
    good: seq<Provider>)

  datatype Event =
    | Call(t: nat, typ: string, sw: Switch)
    | Load(t: nat)
    | Cas(t: nat)
    | Return(t: nat)
    | Evaluate(t: nat)
    | LoadForEvaluation(t: nat)
    | Answer(t: nat, req: Request, dflt: string, group: string)
    | ReadConfig(ok: bool)
    | ParseConfig(methods: Option<nat>)                    // None: invalid config
    | BuildMethod(built: Option<Provider>)                 // None: unknown type or LoadConfig error
    | Store
    | CountSuccess
    | CountReload

  function LiveList(ps: seq<Provider>): (es: seq<Entry>)
    ensures |es| == |ps| && forall i :: 0 <= i < |ps| ==> es[i] == Live(ps[i])
  {
    seq(|ps|, i requires 0 <= i < |ps| => Live(ps[i]))
  }

  function Strip(es: seq<Entry>): (ps: seq<Provider>)
    ensures |ps| == |es| && forall i :: 0 <= i < |es| ==> ps[i] == Unwrap(es[i])
  {
    seq(|es|, i requires 0 <= i < |es| => Unwrap(es[i]))
  }

  function Initial(startup: seq<Provider>): State {
    State([LiveList(startup)], 0, map[], Waiting, 0, 0, 0, 0, [], startup)
  }

  function PcOf(s: State, t: nat): Pc {
    if t in s.pcs then s.pcs[t] else Idle
  }

  predicate Enabled(s: State, e: Event) {
    match e
    case Call(t, _, _) => PcOf(s, t).Idle?
    case Load(t) => PcOf(s, t).Called? && s.ptr < |s.cells|
    case Cas(t) => PcOf(s, t).Loaded? && PcOf(s, t).ptr < |s.cells|
    case Return(t) => PcOf(s, t).Finished?
    case Evaluate(t) => PcOf(s, t).Idle?
    case LoadForEvaluation(t) => PcOf(s, t).Reading?
    case Answer(t, req, dflt, group) =>
      // What Pipeline.Evaluate returns for the list that was loaded.
      && PcOf(s, t).Evaluating? && PcOf(s, t).ptr < |s.cells|
      && group == Chosen(req, Active(s.cells[PcOf(s, t).ptr]), dflt)
    case ReadConfig(_) => s.watcher.Waiting?
    case ParseConfig(_) => s.watcher.Parsing?
    case BuildMethod(_) => s.watcher.Building? && s.watcher.todo > 0
    case Store => s.watcher.Storing?
    case CountSuccess => s.watcher.Stored?
    case CountReload => s.watcher.Counting?
  }

  function Failed(s: State): State {
    s.(watcher := Counting, errors := s.errors + 1)
  }

  /** After the last method the loop is left and Swap is called with the list. */
  function Built(s: State, todo: nat, built: seq<Provider>): State {
    if todo == 0 then s.(watcher := Storing(s.tickets, built), tickets := s.tickets + 1)
    else s.(watcher := Building(todo, built))
  }

  function Next(s: State, e: Event): State
    requires Enabled(s, e)
  {
    match e
    case Call(t, typ, sw) => s.(pcs := s.pcs[t := Called(s.tickets, typ, sw)], tickets := s.tickets + 1)
    case Load(t) =>
      var pc := PcOf(s, t);
      // An empty list or an unknown type: the call returns without a CAS.
      if FirstOf(s.cells[s.ptr], pc.typ) == |s.cells[s.ptr]| then
        s.(pcs := s.pcs[t := Finished(pc.ticket, pc.typ, pc.sw)],
           log := s.log + [Commit(pc.ticket, Flick(pc.typ, pc.sw))])
      else
        s.(pcs := s.pcs[t := Loaded(pc.ticket, pc.typ, pc.sw, s.ptr, |s.log|)])
    case Cas(t) =>
      var pc := PcOf(s, t);
      if pc.ptr == s.ptr then
        s.(cells := s.cells + [Switched(s.cells[pc.ptr], pc.typ, pc.sw)], ptr := |s.cells|,
           pcs := s.pcs[t := Finished(pc.ticket, pc.typ, pc.sw)],
           log := s.log + [Commit(pc.ticket, Flick(pc.typ, pc.sw))])
      else
        s.(pcs := s.pcs[t := Called(pc.ticket, pc.typ, pc.sw)])
    case Return(t) => s.(pcs := s.pcs[t := Idle])
    case Evaluate(t) => s.(pcs := s.pcs[t := Reading(|s.log|)])
    case LoadForEvaluation(t) => s.(pcs := s.pcs[t := Evaluating(PcOf(s, t).from, s.ptr, |s.log|)])
    case Answer(t, _, _, _) => s.(pcs := s.pcs[t := Idle])
    case ReadConfig(ok) => if ok then s.(watcher := Parsing) else Failed(s)
    case ParseConfig(methods) =>
      if methods.None? then Failed(s) else Built(s, methods.value, [])
    case BuildMethod(built) =>
      if built.None? then Failed(s) else Built(s, s.watcher.todo - 1, s.watcher.built + [built.value])
    case Store =>
      var es := LiveList(s.watcher.built);
      s.(cells := s.cells + [es], ptr := |s.cells|, watcher := Stored, good := s.watcher.built,
         log := s.log + [Commit(s.watcher.ticket, Install(es))])
    case CountSuccess => s.(watcher := Counting, successes := s.successes + 1)
    case CountReload => s.(watcher := Waiting, reloads := s.reloads + 1)
  }

  ghost predicate IsRun(startup: seq<Provider>, run: seq<Event>)
    decreases |run|, 0
  {
    run == [] ||
    (IsRun(startup, run[..|run| - 1]) && Enabled(After(startup, run[..|run| - 1]), run[|run| - 1]))
  }

  ghost function After(startup: seq<Provider>, run: seq<Event>): State
    requires IsRun(startup, run)
    decreases |run|, 1
  {
    if run == [] then Initial(startup) else Next(After(startup, run[..|run| - 1]), run[|run| - 1])
  }

  // ---------- The sequential object ----------

  function Apply(es: seq<Entry>, op: Op): seq<Entry> {
    match op
    case Flick(typ, sw) => Switched(es, typ, sw)
    case Install(entries) => entries
  }

  /** The list after the operations of a log, one at a time. */
  function Replay(startup: seq<Provider>, log: seq<Commit>): seq<Entry> {
    if log == [] then LiveList(startup)
    else Apply(Replay(startup, log[..|log| - 1]), log[|log| - 1].op)
  }

  // ---------- What every step keeps ----------

  predicate Unique(log: seq<Commit>) {
    forall i, j :: 0 <= i < j < |log| ==> log[i].ticket != log[j].ticket
  }

  predicate Took(log: seq<Commit>, ticket: nat) {
    exists i :: 0 <= i < |log| && log[i].ticket == ticket
  }

  predicate HasTicket(pc: Pc) {
    pc.Called? || pc.Loaded? || pc.Finished?
  }

  /** A pending operation has not taken effect, a finished one has; a loaded pointer is a replayed list. */
  ghost predicate PcOk(startup: seq<Provider>, s: State, t: nat) {
    var pc := PcOf(s, t);
    && (HasTicket(pc) ==> pc.ticket < s.tickets)
    && (pc.Called? || pc.Loaded? ==> !Took(s.log, pc.ticket))
    && (pc.Finished? ==> Commit(pc.ticket, Flick(pc.typ, pc.sw)) in s.log)
    && (pc.Reading? ==> pc.from <= |s.log|)
    && (pc.Evaluating? ==> pc.from <= pc.at)
    && (pc.Loaded? || pc.Evaluating? ==>
          pc.ptr < |s.cells| && pc.at <= |s.log| && s.cells[pc.ptr] == Replay(startup, s.log[..pc.at]))
    && (pc.Loaded? ==> FirstOf(s.cells[pc.ptr], pc.typ) < |s.cells[pc.ptr]|)
    && (pc.Loaded? ==> pc.ptr == s.ptr || pc.at < |s.log|)
  }

  ghost predicate LogTickets(s: State) {
    Unique(s.log) && forall i :: 0 <= i < |s.log| ==> s.log[i].ticket < s.tickets
  }

  ghost predicate ThreadTickets(s: State) {
    forall t, u :: t != u && HasTicket(PcOf(s, t)) && HasTicket(PcOf(s, u)) ==> PcOf(s, t).ticket != PcOf(s, u).ticket
  }

  ghost predicate WatcherTicket(s: State) {
    s.watcher.Storing? ==>
      && s.watcher.ticket < s.tickets && !Took(s.log, s.watcher.ticket)
      && (forall t :: HasTicket(PcOf(s, t)) ==> PcOf(s, t).ticket != s.watcher.ticket)
  }

  ghost predicate TicketsOk(s: State) {
    LogTickets(s) && ThreadTickets(s) && WatcherTicket(s)
  }

  /** Wrappers are at most one deep. */
  predicate Flat(es: seq<Entry>) {
    forall i :: 0 <= i < |es| ==> Depth(es[i]) <= 1
  }

  ghost predicate ListOk(startup: seq<Provider>, s: State) {
    && s.ptr < |s.cells|
    && s.cells[s.ptr] == Replay(startup, s.log)
    && Strip(s.cells[s.ptr]) == s.good
    && (forall c :: 0 <= c < |s.cells| ==> Flat(s.cells[c]))
  }

  ghost predicate CountsOk(s: State) {
    s.successes + s.errors == s.reloads + if s.watcher.Counting? then 1 else 0
  }

  ghost predicate Inv(startup: seq<Provider>, s: State) {
    && (forall t :: PcOk(startup, s, t))
    && TicketsOk(s)
    && ListOk(startup, s)
    && CountsOk(s)
  }

  lemma SwitchedKeeps(es: seq<Entry>, typ: string, sw: Switch)
    requires Flat(es)
    ensures Flat(Switched(es, typ, sw)) && Strip(Switched(es, typ, sw)) == Strip(es)
  {
    SwitchKeepsShape(es, typ, sw);
  }

  /** Logs only grow, cells never change. */
  lemma Frame(s: State, e: Event)
    requires Enabled(s, e)
    ensures
      var s' := Next(s, e);
      && s.log <= s'.log && |s'.log| <= |s.log| + 1 && s.cells <= s'.cells && s.tickets <= s'.tickets
      && (s'.ptr == s.ptr || |s'.log| == |s.log| + 1)
  {
  }

  lemma ReplaySnoc(startup: seq<Provider>, log: seq<Commit>, c: Commit)
    ensures Replay(startup, log + [c]) == Apply(Replay(startup, log), c.op)
  {
    assert (log + [c])[..|log|] == log;
  }

  lemma UnknownTypeChangesNothing(es: seq<Entry>, typ: string, sw: Switch)
    requires FirstOf(es, typ) == |es|
    ensures Switched(es, typ, sw) == es
  {
  }

  lemma LiveIsFlat(ps: seq<Provider>)
    ensures Flat(LiveList(ps)) && Strip(LiveList(ps)) == ps
  {
  }

  lemma NextList(startup: seq<Provider>, s: State, e: Event)
    requires ListOk(startup, s) && Enabled(s, e)
    ensures ListOk(startup, Next(s, e))
  {
    hide Replay; hide Switched; hide FirstOf; hide LiveList; hide Strip; hide Flat;
    if e.Load? || e.Cas? {
      var pc, es := PcOf(s, e.t), s.cells[s.ptr];
      ReplaySnoc(startup, s.log, Commit(pc.ticket, Flick(pc.typ, pc.sw)));
      SwitchedKeeps(es, pc.typ, pc.sw);
      if FirstOf(es, pc.typ) == |es| { UnknownTypeChangesNothing(es, pc.typ, pc.sw); }
    } else if e.Store? {
      LiveIsFlat(s.watcher.built);
      ReplaySnoc(startup, s.log, Commit(s.watcher.ticket, Install(LiveList(s.watcher.built))));
    }
  }

  lemma OwnPc(startup: seq<Provider>, s: State, e: Event, t: nat)
    requires Inv(startup, s) && Enabled(s, e) && PcOf(Next(s, e), t) != PcOf(s, t)
    ensures PcOk(startup, Next(s, e), t)
  {
    hide Replay; hide Switched; hide LiveList; hide Strip; hide Flat; hide FirstOf; hide TicketsOk;
    var s' := Next(s, e);
    assert PcOk(startup, s, t);
    var pc := PcOf(s', t);
    assert s.log[..|s.log|] == s.log;
    if pc.Finished? {
      assert s'.log[|s.log|] == Commit(pc.ticket, Flick(pc.typ, pc.sw));
    } else if e.Call? {
      CalledIsNew(s);
    }
  }

  lemma CalledIsNew(s: State)
    requires TicketsOk(s)
    ensures !Took(s.log, s.tickets)
  {
  }

  /** A thread that does not move keeps what it knows. */
  lemma OtherPc(startup: seq<Provider>, s: State, e: Event, t: nat)
    requires Inv(startup, s) && Enabled(s, e) && PcOf(Next(s, e), t) == PcOf(s, t)
    ensures PcOk(startup, Next(s, e), t)
  {
    hide Replay; hide Switched; hide LiveList; hide Strip; hide Flat; hide FirstOf;
    var s' := Next(s, e);
    Frame(s, e);
    assert PcOk(startup, s, t);
    var pc := PcOf(s, t);
    if pc.Loaded? || pc.Evaluating? {
      assert s'.log[..pc.at] == s.log[..pc.at];
    }
    if (pc.Called? || pc.Loaded?) && |s'.log| > |s.log| {
      NewCommitIsMovers(s, e, t);
    }
  }

  /** The ticket that takes effect in a step is that of the thread that moves. */
  lemma NewCommitIsMovers(s: State, e: Event, t: nat)
    requires TicketsOk(s) && Enabled(s, e) && |Next(s, e).log| > |s.log|
    requires HasTicket(PcOf(s, t)) && PcOf(Next(s, e), t) == PcOf(s, t)
    ensures Next(s, e).log[..|s.log|] == s.log && Next(s, e).log[|s.log|].ticket != PcOf(s, t).ticket
  {
    hide Switched; hide LiveList; hide FirstOf;
  }

  lemma NextPcs(startup: seq<Provider>, s: State, e: Event, t: nat)
    requires Inv(startup, s) && Enabled(s, e)
    ensures PcOk(startup, Next(s, e), t)
  {
    hide Inv; hide Next; hide Enabled; hide PcOk;
    if PcOf(Next(s, e), t) == PcOf(s, t) {
      OtherPc(startup, s, e, t);
    } else {
      OwnPc(startup, s, e, t);
    }
  }

  /** Whose ticket a step puts into the log. */
  lemma NewCommit(s: State, e: Event)
    requires Enabled(s, e)
    ensures
      var s' := Next(s, e);
      || s'.log == s.log
      || (e.Store? && s.watcher.Storing?
          && s'.log == s.log + [Commit(s.watcher.ticket, Install(LiveList(s.watcher.built)))])
      || ((e.Load? || e.Cas?) && (PcOf(s, e.t).Called? || PcOf(s, e.t).Loaded?)
          && s'.log == s.log + [Commit(PcOf(s, e.t).ticket, Flick(PcOf(s, e.t).typ, PcOf(s, e.t).sw))])
  {
    hide Switched; hide LiveList; hide FirstOf;
  }

  /** Where the tickets held after a step come from: a new one is the next number. */
  lemma TicketFrom(s: State, e: Event, t: nat)
    requires Enabled(s, e)
    ensures
      var s' := Next(s, e);
      && (HasTicket(PcOf(s', t)) ==>
            || (HasTicket(PcOf(s, t)) && PcOf(s', t).ticket == PcOf(s, t).ticket)
            || (e.Call? && e.t == t && PcOf(s', t).ticket == s.tickets && s'.tickets == s.tickets + 1))
      && (s'.watcher.Storing? ==>
            || (s.watcher.Storing? && s'.watcher.ticket == s.watcher.ticket)
            || (s'.watcher.ticket == s.tickets && s'.tickets == s.tickets + 1 && s'.log == s.log && !e.Call?))
  {
    hide Switched; hide LiveList; hide FirstOf;
  }

  lemma NextLogTickets(startup: seq<Provider>, s: State, e: Event)
    requires Inv(startup, s) && Enabled(s, e)
    ensures LogTickets(Next(s, e))
  {
    if e.Load? || e.Cas? { assert PcOk(startup, s, e.t); }
    NewCommit(s, e);
    Frame(s, e);
    hide Next; hide Enabled; hide PcOk; hide ListOk; hide ThreadTickets;
  }

  lemma NextThreadTickets(startup: seq<Provider>, s: State, e: Event)
    requires Inv(startup, s) && Enabled(s, e)
    ensures ThreadTickets(Next(s, e))
  {
    hide Next; hide Enabled; hide ListOk; hide LogTickets; hide WatcherTicket;
    var s' := Next(s, e);
    forall t, u | t != u && HasTicket(PcOf(s', t)) && HasTicket(PcOf(s', u))
      ensures PcOf(s', t).ticket != PcOf(s', u).ticket
    {
      TicketFrom(s, e, t);
      TicketFrom(s, e, u);
      assert PcOk(startup, s, t) && PcOk(startup, s, u);
    }
  }

  lemma NextWatcherTicket(startup: seq<Provider>, s: State, e: Event)
    requires Inv(startup, s) && Enabled(s, e)
    ensures WatcherTicket(Next(s, e))
  {
    hide Next; hide Enabled; hide ListOk; hide ThreadTickets;
    var s' := Next(s, e);
    if s'.watcher.Storing? {
      TicketFrom(s, e, 0);
      Frame(s, e);
      NewCommit(s, e);
      StoreMovesOn(s, e);
      assert !Took(s'.log, s'.watcher.ticket) by { hide PcOk; }
      forall t | HasTicket(PcOf(s', t)) ensures PcOf(s', t).ticket != s'.watcher.ticket {
        TicketFrom(s, e, t);
        assert PcOk(startup, s, t);
      }
    }
  }

  lemma StoreMovesOn(s: State, e: Event)
    requires Enabled(s, e)
    ensures e.Store? ==> !Next(s, e).watcher.Storing?
  {
  }

  lemma NextTickets(startup: seq<Provider>, s: State, e: Event)
    requires Inv(startup, s) && Enabled(s, e)
    ensures TicketsOk(Next(s, e))
  {
    hide Next; hide Enabled; hide Inv; hide LogTickets; hide ThreadTickets; hide WatcherTicket;
    NextLogTickets(startup, s, e);
    NextThreadTickets(startup, s, e);
    NextWatcherTicket(startup, s, e);
  }

  lemma NextKeepsInv(startup: seq<Provider>, s: State, e: Event)
    requires Inv(startup, s) && Enabled(s, e)
    ensures Inv(startup, Next(s, e))
  {
    NextList(startup, s, e);
    NextTickets(startup, s, e);
    forall t ensures PcOk(startup, Next(s, e), t) { NextPcs(startup, s, e, t); }
  }

  lemma {:induction false} RunKeepsInv(startup: seq<Provider>, run: seq<Event>)
    requires IsRun(startup, run)
    ensures Inv(startup, After(startup, run))
  {
    if run != [] {
      RunKeepsInv(startup, run[..|run| - 1]);
      NextKeepsInv(startup, After(startup, run[..|run| - 1]), run[|run| - 1]);
    }
  }

  // ---------- Linearizability ----------

  lemma {:induction false} LogGrows(startup: seq<Provider>, run: seq<Event>, more: seq<Event>)
    requires IsRun(startup, run + more)
    ensures IsRun(startup, run)
    ensures After(startup, run).log <= After(startup, run + more).log
    ensures After(startup, run).tickets <= After(startup, run + more).tickets
  {
    hide Next; hide Enabled;
    if more == [] {
      assert run + more == run;
    } else {
      var n := |more| - 1;
      assert (run + more)[..|run| + n] == run + more[..n];
      LogGrows(startup, run, more[..n]);
      Frame(After(startup, run + more[..n]), more[n]);
    }
  }

  /**
   No update is lost: in every interleaving the live list is the result of
   performing the committed operations one after the other, each exactly once,
   and an operation that has returned is among them.
   */
  lemma NoLostUpdate(startup: seq<Provider>, run: seq<Event>, t: nat)
    requires IsRun(startup, run)
    ensures
      var s := After(startup, run);
      && s.ptr < |s.cells| && s.cells[s.ptr] == Replay(startup, s.log)
      && Unique(s.log)
      && (PcOf(s, t).Finished? ==> Commit(PcOf(s, t).ticket, Flick(PcOf(s, t).typ, PcOf(s, t).sw)) in s.log)
      && (PcOf(s, t).Called? || PcOf(s, t).Loaded? ==> !Took(s.log, PcOf(s, t).ticket))
  {
    RunKeepsInv(startup, run);
    assert PcOk(startup, After(startup, run), t);
  }

  /**
   The commit order respects real time: an operation that had taken effect, as
   every returned one has, stands before any operation called after that.
   */
  lemma CommitOrderIsRealTime(startup: seq<Provider>, run: seq<Event>, more: seq<Event>, i: nat, j: nat)
    requires IsRun(startup, run) && IsRun(startup, run + more)
    requires
      var s, log := After(startup, run), After(startup, run + more).log;
      i < |log| && j < |log| && Took(s.log, log[i].ticket) && log[j].ticket >= s.tickets
    ensures i < j
  {
    RunKeepsInv(startup, run);
    RunKeepsInv(startup, run + more);
    LogGrows(startup, run, more);
    var s, log := After(startup, run), After(startup, run + more).log;
    var k :| 0 <= k < |s.log| && s.log[k].ticket == log[i].ticket;
    assert log[k].ticket == log[i].ticket;
    assert j >= |s.log|;
  }

  /**
   Every evaluation answers with the group of the first entry that is not disabled and
   decides, or the default, on one committed list of some moment between its call and
   its answer.
   */
  lemma EvaluationIsLinearizable(startup: seq<Provider>, run: seq<Event>, t: nat, req: Request, dflt: string,
                                 group: string)
    requires IsRun(startup, run) && Enabled(After(startup, run), Event.Answer(t, req, dflt, group))
    ensures
      var s := After(startup, run);
      var pc := PcOf(s, t);
      && pc.from <= pc.at <= |s.log|
      && RightGroup(req, Replay(startup, s.log[..pc.at]), dflt, group)
  {
    RunKeepsInv(startup, run);
    var s := After(startup, run);
    assert PcOk(startup, s, t);
    hide IsRun; hide After; hide Inv; hide RightGroup; hide Chosen; hide Replay;
    ChosenIsRight(req, s.cells[PcOf(s, t).ptr], dflt);
  }

  /** Lock freedom: a compare-and-swap fails only if another operation took effect since the load. */
  lemma FailedCasMeansProgress(startup: seq<Provider>, run: seq<Event>, t: nat)
    requires IsRun(startup, run) && Enabled(After(startup, run), Cas(t))
    requires PcOf(Next(After(startup, run), Cas(t)), t).Called?
    ensures PcOf(After(startup, run), t).at < |After(startup, run).log|
  {
    RunKeepsInv(startup, run);
    assert PcOk(startup, After(startup, run), t);
  }

  // ---------- Keep last good ----------

  /** The methods of the last config that every step of a reload accepted, else the startup list. */
  ghost function LastGood(startup: seq<Provider>, run: seq<Event>): seq<Provider>
    requires IsRun(startup, run)
  {
    if run == [] then startup
    else if run[|run| - 1].Store? then BuiltSinceParse(run[..|run| - 1])
    else LastGood(startup, run[..|run| - 1])
  }

  /** What the registry built since the config was last parsed. */
  function BuiltSinceParse(run: seq<Event>): seq<Provider> {
    if run == [] then []
    else
      match run[|run| - 1]
      case ParseConfig(_) => []
      case BuildMethod(Some(p)) => BuiltSinceParse(run[..|run| - 1]) + [p]
      case _ => BuiltSinceParse(run[..|run| - 1])
  }

  /** How many methods the config parsed last has. */
  function Parsed(run: seq<Event>): nat {
    if run == [] then 0
    else
      match run[|run| - 1]
      case ParseConfig(Some(n)) => n
      case _ => Parsed(run[..|run| - 1])
  }

  ghost predicate Tracks(w: Watcher, built: seq<Provider>, parsed: nat) {
    && (w.Building? ==> w.built == built && |built| + w.todo == parsed)
    && (w.Storing? ==> w.built == built && |built| == parsed)
  }

  lemma TrackStep(s: State, e: Event, built: seq<Provider>, parsed: nat)
    requires Enabled(s, e) && Tracks(s.watcher, built, parsed)
    ensures
      Tracks(Next(s, e).watcher,
             match e case ParseConfig(_) => [] case BuildMethod(Some(p)) => built + [p] case _ => built,
             match e case ParseConfig(Some(n)) => n case _ => parsed)
    ensures Next(s, e).good == if e.Store? then built else s.good
  {
    hide Switched; hide LiveList; hide FirstOf;
  }

  lemma {:induction false} WatcherTracksBuild(startup: seq<Provider>, run: seq<Event>)
    requires IsRun(startup, run)
    ensures Tracks(After(startup, run).watcher, BuiltSinceParse(run), Parsed(run))
    ensures After(startup, run).good == LastGood(startup, run)
  {
    hide Next; hide Enabled;
    if run != [] {
      var prev := run[..|run| - 1];
      WatcherTracksBuild(startup, prev);
      TrackStep(After(startup, prev), run[|run| - 1], BuiltSinceParse(prev), Parsed(prev));
    }
  }

  /**
   Over any run of good and bad reloads mixed with kill-switch calls: the live list
   with its wrappers stripped is the one built from the last fully accepted config,
   wrappers never nest, and every finished reload is a success or an error.
   */
  lemma KeepsLastGood(startup: seq<Provider>, run: seq<Event>)
    requires IsRun(startup, run)
    ensures
      var s := After(startup, run);
      && s.ptr < |s.cells| && Strip(s.cells[s.ptr]) == LastGood(startup, run) && Flat(s.cells[s.ptr])
      && (!s.watcher.Counting? ==> s.reloads == s.successes + s.errors)
  {
    RunKeepsInv(startup, run);
    WatcherTracksBuild(startup, run);
  }

  /** The reload steps that a run had: how many succeeded, how many were rejected, how many reloads ended. */
  datatype Tally = Tally(successes: nat, errors: nat, reloads: nat)

  function Tallied(run: seq<Event>): Tally {
    if run == [] then Tally(0, 0, 0)
    else
      var n := Tallied(run[..|run| - 1]);
      match run[|run| - 1]
      case CountSuccess => n.(successes := n.successes + 1)
      case ReadConfig(false) => n.(errors := n.errors + 1)
      case ParseConfig(None) => n.(errors := n.errors + 1)
      case BuildMethod(None) => n.(errors := n.errors + 1)
      case CountReload => n.(reloads := n.reloads + 1)
      case _ => n
  }

  lemma TallyStep(s: State, e: Event)
    requires Enabled(s, e)
    ensures Next(s, e).successes == s.successes + if e.CountSuccess? then 1 else 0
    ensures Next(s, e).reloads == s.reloads + if e.CountReload? then 1 else 0
    ensures Next(s, e).errors ==
            s.errors + if e == ReadConfig(false) || e == ParseConfig(None) || e == BuildMethod(None) then 1 else 0
  {
    hide Switched; hide LiveList; hide FirstOf; hide Chosen; hide Active;
  }

  /**
   The counters say what happened: a success for every list that was stored and
   counted, an error for every config that could not be read, parsed or built.
   */
  lemma {:induction false} CountersAreRight(startup: seq<Provider>, run: seq<Event>)
    requires IsRun(startup, run)
    ensures
      var s := After(startup, run);
      Tallied(run) == Tally(s.successes, s.errors, s.reloads)
  {
    hide Next; hide Enabled;
    if run != [] {
      var n := |run| - 1;
      CountersAreRight(startup, run[..n]);
      TallyStep(After(startup, run[..n]), run[n]);
    }
  }

  /** A reload stores a list only after the registry accepted every method of the config. */
  lemma NoPartialList(startup: seq<Provider>, run: seq<Event>)
    requires IsRun(startup, run) && Enabled(After(startup, run), Store)
    ensures
      var s' := Next(After(startup, run), Store);
      && s'.ptr < |s'.cells| && s'.cells[s'.ptr] == LiveList(BuiltSinceParse(run))
      && |s'.cells[s'.ptr]| == Parsed(run)
      && DisabledTypes(s'.cells[s'.ptr]) == []
  {
    WatcherTracksBuild(startup, run);
    NothingDisabled(BuiltSinceParse(run));
  }

  lemma {:induction false} NothingDisabled(ps: seq<Provider>)
    ensures DisabledTypes(LiveList(ps)) == []
  {
    if ps != [] {
      NothingDisabled(ps[1..]);
      assert LiveList(ps)[1..] == LiveList(ps[1..]);
    }
  }
}
