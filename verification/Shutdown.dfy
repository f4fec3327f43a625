/**
 Graceful shutdown (server/src/server.rs, accept_loop): cancelling disturbs no request in progress,
 the accept loop returns only on a quiet server, every schedule gets there unless clients keep asking
 or one of them neither finishes its handshake nor reads its reply, and it can be reached without
 losing a token.
 */
module Shutdown {
  import opened Wrappers
  import opened MachineInts
  import opened ServerProtocol
  import opened Machine
  import opened Safety
  import opened Ledger
  import Clock = TimeOracle
  import Locks

  predicate BetweenRequests(pc: Pc) {
    pc.GuestIdle? || pc.SessionIdle?
  }

  predicate Blind(on: Option<Outcome>, off: Option<Outcome>, pc: Pc) {
    !BetweenRequests(pc) ==> on == off
  }

  lemma GuestIgnoresCancel(cfg: Config, sh: Shared, pc: Pc, act: Action)
    ensures GuestStep(cfg, sh, pc, Interrupt).Some? <==> sh.cancelled && pc.GuestIdle?
    ensures Blind(GuestStep(cfg, sh.(cancelled := true), pc, act), GuestStep(cfg, sh.(cancelled := false), pc, act), pc)
  {
  }

  lemma SessionIgnoresCancel(sh: Shared, pc: Pc, act: Action)
    ensures SessionStep(sh, pc, Interrupt).Some? <==> sh.cancelled && pc.SessionIdle?
    ensures Blind(SessionStep(sh.(cancelled := true), pc, act), SessionStep(sh.(cancelled := false), pc, act), pc)
  {
  }

  lemma RestIgnoresCancel(cfg: Config, sh: Shared, pc: Pc, act: Action)
    ensures TokenStep(sh, pc, Interrupt) == StampStep(cfg, sh, pc, Interrupt) == QueryStep(sh, pc, Interrupt) == None
    ensures var on, off := sh.(cancelled := true), sh.(cancelled := false);
            && TokenStep(on, pc, act) == TokenStep(off, pc, act)
            && StampStep(cfg, on, pc, act) == StampStep(cfg, off, pc, act)
            && QueryStep(on, pc, act) == QueryStep(off, pc, act)
  {
    assert forall u :: sh.(cancelled := true).HistoryOf(u) == sh.(cancelled := false).HistoryOf(u);
  }

  /** The cancel token is looked at only between requests: elsewhere it makes no difference to a task. */
  lemma CancelWaitsForRequests(cfg: Config, sh: Shared, pc: Pc, act: Action)
    ensures LocalStep(cfg, sh, pc, Interrupt).Some? <==> sh.cancelled && BetweenRequests(pc)
    ensures !BetweenRequests(pc) ==>
              LocalStep(cfg, sh.(cancelled := true), pc, act) == LocalStep(cfg, sh.(cancelled := false), pc, act)
  {
    match pc.Part() {
      case Guest => GuestIgnoresCancel(cfg, sh, pc, act);
      case Session => SessionIgnoresCancel(sh, pc, act);
      case Done =>
      case _ => RestIgnoresCancel(cfg, sh, pc, act);
    }
  }

  // ----- Returning -----

  ghost predicate PhaseOk(s: State) {
    && (!s.phase.Accepting? ==> s.shared.cancelled)
    && (s.phase.Returned? ==> forall c :: c in s.conns ==> s.conns[c].Closed?)
  }

  lemma StepKeepsPhase(cfg: Config, s: State, l: Label, s': State)
    requires PhaseOk(s) && Step(cfg, s, l) == Some(s')
    ensures PhaseOk(s')
  {
    if l.Task? {
      OriginOfStep(cfg, s.shared, s.conns[l.conn], l.act, LocalStep(cfg, s.shared, s.conns[l.conn], l.act).value);
    }
  }

  lemma {:induction false} PhaseOfRun(cfg: Config, synced: bool, run: Run, s: State)
    requires Reaches(cfg, synced, run, s)
    ensures PhaseOk(s)
    decreases |run|
  {
    if run != [] {
      var p := Exec(cfg, Init(synced), run[..|run| - 1]).value;
      PhaseOfRun(cfg, synced, run[..|run| - 1], p);
      StepKeepsPhase(cfg, p, run[|run| - 1], s);
    }
  }

  /**
   When the accept loop has returned, the server was cancelled, every task it ever spawned has
   ended, nobody is logged in except the stranded names, no debit is in flight, and so every token
   bought is a balance, a record or one that was given up. No task moves any more.
   */
  lemma ReturnedIsQuiet(cfg: Config, synced: bool, run: Run, s: State)
    requires cfg.crypto.Sound() && Reaches(cfg, synced, run, s) && s.phase.Returned?
    ensures s.shared.cancelled && forall c :: c in s.conns ==> s.conns[c].Closed?
    ensures s.shared.logged == Locks.Stranded(cfg, synced, run)
    ensures forall u :: InFlight(s, u) == 0
    ensures forall u :: Purchased(cfg, synced, run, u) ==
                        s.shared.Balance(u) + |s.shared.HistoryOf(u)| + Burned(cfg, synced, run, u)
    ensures forall c, act :: TaskStep(cfg, s, c, act) == None
  {
    PhaseOfRun(cfg, synced, run, s);
    Locks.LoggedExactly(cfg, synced, run, s);
    AtRest(s);
    forall u ensures Purchased(cfg, synced, run, u) ==
                     s.shared.Balance(u) + |s.shared.HistoryOf(u)| + Burned(cfg, synced, run, u)
    {
      TokensAreConserved(cfg, synced, run, s, u);
    }
    forall c, act ensures TaskStep(cfg, s, c, act) == None {
      ClosedStays(cfg, s, c, act);
    }
  }

  lemma AtRest(s: State)
    requires forall c :: c in s.conns ==> s.conns[c].Closed?
    ensures Locks.Held(s) == {} && forall u :: InFlight(s, u) == 0
  {
  }

  lemma ClosedStays(cfg: Config, s: State, c: ConnId, act: Action)
    requires c in s.conns ==> s.conns[c].Closed?
    ensures TaskStep(cfg, s, c, act) == None
  {
  }

  // ----- Every schedule winds down -----

  /** How many more steps a task can take at most unless it is given another request. */
  function Rank(pc: Pc): nat {
    match pc
    case Closed(_) => 0
    case GuestIdle => 1
    case Shaking => 2
    case Unlocking(_, _) => 2
    case SessionIdle(_) => 3
    case GuestReply(_, _) => 4
    case SessionReply(_, _, _) => 4
    case Verified(_) => 5
    case Registering(_, _) => 5
    case Counting(_) => 5
    case ReadHistory(_) => 5
    case Recording(_, _, _, _) => 5
    case Verifying(_, _) => 6
    case Signing(_, _, _) => 7
    case ReadClock(_, _) => 8
    case TxCommit(_, op, _) => if op.Debit? then 9 else 5
    case TxSelect(_, op) => if op.Debit? then 10 else 6
  }

  /** A step uses up at least one of the steps left; a request fetched is worth seven more. */
  predicate Descends(pc: Pc, act: Action, o: Outcome) {
    Rank(o.pc) + 1 <= Rank(pc) + if act.Fetched? then 8 else 0
  }

  lemma GuestDescends(cfg: Config, sh: Shared, pc: Pc, act: Action, o: Outcome)
    requires GuestStep(cfg, sh, pc, act) == Some(o)
    ensures Descends(pc, act, o)
  {
  }

  lemma SessionDescends(sh: Shared, pc: Pc, act: Action, o: Outcome)
    requires SessionStep(sh, pc, act) == Some(o)
    ensures Descends(pc, act, o)
  {
  }

  lemma TokenDescends(sh: Shared, pc: Pc, act: Action, o: Outcome)
    requires TokenStep(sh, pc, act) == Some(o)
    ensures Descends(pc, act, o)
  {
  }

  lemma StampDescends(cfg: Config, sh: Shared, pc: Pc, act: Action, o: Outcome)
    requires StampStep(cfg, sh, pc, act) == Some(o)
    ensures Descends(pc, act, o)
  {
  }

  lemma QueryDescends(sh: Shared, pc: Pc, act: Action, o: Outcome)
    requires QueryStep(sh, pc, act) == Some(o)
    ensures Descends(pc, act, o)
  {
  }

  lemma StepDescends(cfg: Config, sh: Shared, pc: Pc, act: Action, o: Outcome)
    requires LocalStep(cfg, sh, pc, act) == Some(o)
    ensures Descends(pc, act, o)
  {
    match pc.Part() {
      case Guest => GuestDescends(cfg, sh, pc, act, o);
      case Session => SessionDescends(sh, pc, act, o);
      case TokenTx => TokenDescends(sh, pc, act, o);
      case Stamp => StampDescends(cfg, sh, pc, act, o);
      case Query => QueryDescends(sh, pc, act, o);
      case Done =>
    }
  }

  ghost function AnyConn(conns: map<ConnId, Pc>): (c: ConnId)
    requires conns != map[]
    ensures c in conns
  {
    assert exists c :: c in conns;
    var c :| c in conns; c
  }

  /** The steps all tasks together have left. */
  ghost function Work(conns: map<ConnId, Pc>): nat
    decreases |conns|
  {
    if conns == map[] then 0
    else var c := AnyConn(conns); Rank(conns[c]) + Work(conns - {c})
  }

  lemma {:induction false} WorkOf(conns: map<ConnId, Pc>, c: ConnId)
    requires c in conns
    ensures Work(conns) == Rank(conns[c]) + Work(conns - {c})
    decreases |conns|
  {
    var d := AnyConn(conns);
    if d != c {
      WorkOf(conns - {d}, c);
      WorkOf(conns - {c}, d);
      assert conns - {d} - {c} == conns - {c} - {d};
    }
  }

  lemma WorkAfter(conns: map<ConnId, Pc>, c: ConnId, pc: Pc)
    ensures Work(conns[c := pc]) + (if c in conns then Rank(conns[c]) else 0) == Work(conns) + Rank(pc)
  {
    WorkOf(conns[c := pc], c);
    if c in conns {
      WorkOf(conns, c);
      assert conns[c := pc] - {c} == conns - {c};
    } else {
      assert conns[c := pc] - {c} == conns;
    }
  }

  predicate MovesTask(l: Label) {
    l.Task?
  }

  predicate Asks(l: Label) {
    l.Task? && l.act.Fetched?
  }

  predicate Connects(l: Label) {
    l.Accept?
  }

  function Count(run: Run, p: Label -> bool): nat {
    if run == [] then 0
    else Count(run[..|run| - 1], p) + if p(run[|run| - 1]) then 1 else 0
  }

  lemma StepWorks(cfg: Config, s: State, l: Label, s': State)
    requires Step(cfg, s, l) == Some(s') && !l.Restart?
    ensures Work(s'.conns) + (if MovesTask(l) then 1 else 0) <=
            Work(s.conns) + (if Asks(l) then 8 else 0) + (if Connects(l) then 2 else 0)
  {
    if l.Task? {
      var o := LocalStep(cfg, s.shared, s.conns[l.conn], l.act).value;
      StepDescends(cfg, s.shared, s.conns[l.conn], l.act, o);
      WorkAfter(s.conns, l.conn, o.pc);
    } else if l.Accept? {
      WorkAfter(s.conns, l.conn, Shaking);
    }
  }

  /** However the tasks are scheduled, their steps are paid for by the requests and connections that come in. */
  lemma {:induction false} StepsAreBounded(cfg: Config, s: State, more: Run, s': State)
    requires Exec(cfg, s, more) == Some(s') && forall i :: 0 <= i < |more| ==> !more[i].Restart?
    ensures Count(more, MovesTask) + Work(s'.conns) <=
            Work(s.conns) + 8 * Count(more, Asks) + 2 * Count(more, Connects)
    decreases |more|
  {
    if more != [] {
      var n := |more| - 1;
      var p := Exec(cfg, s, more[..n]).value;
      StepsAreBounded(cfg, s, more[..n], p);
      StepWorks(cfg, p, more[n], s');
    }
  }

  /** Something that may happen next to a task when the server is cancelled, whatever the tables contain. */
  function AnyStep(pc: Pc): Action {
    match pc
    case Shaking => ShakeFails
    case GuestIdle => Interrupt
    case SessionIdle(_) => Interrupt
    case Verified(_) => TakeLock
    case GuestReply(_, _) => Sent
    case SessionReply(_, _, _) => Sent
    case ReadClock(_, _) => ReadTime(0)
    case Signing(_, _, _) => SignFails
    case Unlocking(_, _) => ReleaseLock
    case _ => SqlFails
  }

  lemma TaskCanMove(cfg: Config, s: State, c: ConnId)
    requires s.shared.cancelled && c in s.conns && !s.conns[c].Closed?
    ensures TaskStep(cfg, s, c, AnyStep(s.conns[c])).Some?
  {
  }

  // ----- Who can hold it up -----

  /** What only the client can bring about: its side of the handshake, its requests, its reading of replies. */
  predicate OfClient(act: Action) {
    || act.ShakeDone? || act.ShakeFails? || act.Fetched? || act.StreamEnds? || act.FetchFails?
    || act.Sent? || act.SendFails?
  }

  /** What the server gets done without the client. A reply that cannot be serialised is not counted on. */
  predicate Unaided(act: Action) {
    !OfClient(act) && !act.SerializeFails?
  }

  /** The awaits that are neither under the cancel token nor the server's own: the handshake and the sends. */
  predicate AtClient(pc: Pc) {
    pc.Shaking? || pc.GuestReply? || pc.SessionReply?
  }

  lemma ClientStepsOnly(cfg: Config, sh: Shared, pc: Pc, act: Action)
    requires AtClient(pc) && LocalStep(cfg, sh, pc, act).Some?
    ensures !Unaided(act)
  {
  }

  /** In a cancelled server a task can go on without its client exactly when it is not at one of those awaits. */
  lemma WaitsExactlyAtClient(cfg: Config, s: State, c: ConnId)
    requires s.shared.cancelled && c in s.conns && !s.conns[c].Closed?
    ensures (exists act :: Unaided(act) && TaskStep(cfg, s, c, act).Some?) <==> !AtClient(s.conns[c])
  {
    TaskCanMove(cfg, s, c);
    assert !AtClient(s.conns[c]) ==> Unaided(AnyStep(s.conns[c]));
    forall act | AtClient(s.conns[c]) && TaskStep(cfg, s, c, act).Some? ensures !Unaided(act) {
      ClientStepsOnly(cfg, s.shared, s.conns[c], act);
    }
  }

  /** The accept loop has not returned and nothing more happens unless a client does something. */
  ghost predicate HeldUp(cfg: Config, s: State) {
    && !s.phase.Returned? && Step(cfg, s, StopAccepting) == None && Step(cfg, s, AllDone) == None
    && (forall c, act :: Unaided(act) ==> TaskStep(cfg, s, c, act) == None)
  }

  /** Some task is at its client, and every other task is too or has ended. */
  ghost predicate LeftToClients(s: State) {
    && (exists c :: c in s.conns && AtClient(s.conns[c]))
    && (forall c :: c in s.conns ==> s.conns[c].Closed? || AtClient(s.conns[c]))
  }

  /** What holds up the shutdown of a cancelled server: clients, and nothing else. */
  lemma HeldUpExactlyByClients(cfg: Config, s: State)
    requires s.shared.cancelled
    ensures HeldUp(cfg, s) <==> s.phase.Draining? && LeftToClients(s)
  {
    if HeldUp(cfg, s) {
      forall c | c in s.conns && !s.conns[c].Closed? ensures AtClient(s.conns[c]) {
        WaitsExactlyAtClient(cfg, s, c);
      }
    }
    if s.phase.Draining? && LeftToClients(s) {
      forall c, act | Unaided(act) ensures TaskStep(cfg, s, c, act) == None {
        OnlyClientsMove(cfg, s, c, act);
      }
    }
  }

  lemma OnlyClientsMove(cfg: Config, s: State, c: ConnId, act: Action)
    requires LeftToClients(s) && Unaided(act)
    ensures TaskStep(cfg, s, c, act) == None
  {
    if c in s.conns && AtClient(s.conns[c]) && TaskStep(cfg, s, c, act).Some? {
      ClientStepsOnly(cfg, s.shared, s.conns[c], act);
    }
  }

  /**
   Graceful shutdown under every schedule. From any state of a cancelled server, whatever happens
   next short of a process stop: the number of task steps is bounded by the work at hand plus eight
   for every request and two for every connection that still comes in; as long as the accept loop
   has not returned, either it can take its next step or some task can move without being given
   another request; and nothing moves without the clients only when every task that has not ended
   waits for its client.
   */
  lemma EveryScheduleReturns(cfg: Config, s: State, more: Run, s': State)
    requires s.shared.cancelled
    requires Exec(cfg, s, more) == Some(s') && forall i :: 0 <= i < |more| ==> !more[i].Restart?
    ensures Count(more, MovesTask) <= Work(s.conns) + 8 * Count(more, Asks) + 2 * Count(more, Connects)
    ensures !s.phase.Accepting? ==> Count(more, Connects) == 0
    ensures s'.shared.cancelled
    ensures || s'.phase.Returned?
            || Step(cfg, s', StopAccepting).Some?
            || Step(cfg, s', AllDone).Some?
            || exists c, act: Action :: !act.Fetched? && TaskStep(cfg, s', c, act).Some?
    ensures HeldUp(cfg, s') <==> s'.phase.Draining? && LeftToClients(s')
  {
    StepsAreBounded(cfg, s, more, s');
    CancelLasts(cfg, s, more, s');
    HeldUpExactlyByClients(cfg, s');
    if s'.phase.Draining? && Step(cfg, s', AllDone) == None {
      var c :| c in s'.conns && !s'.conns[c].Closed?;
      TaskCanMove(cfg, s', c);
      assert !AnyStep(s'.conns[c]).Fetched?;
    }
  }

  lemma StepKeepsCancel(cfg: Config, s: State, l: Label, s': State)
    requires Step(cfg, s, l) == Some(s') && !l.Restart? && s.shared.cancelled
    ensures s'.shared.cancelled && (!s.phase.Accepting? ==> !s'.phase.Accepting? && !Connects(l))
  {
    if l.Task? {
      TaskKeepsCancelled(cfg, s, l.conn, l.act, s');
    }
  }

  lemma {:induction false} CancelLasts(cfg: Config, s: State, more: Run, s': State)
    requires Exec(cfg, s, more) == Some(s') && forall i :: 0 <= i < |more| ==> !more[i].Restart?
    requires s.shared.cancelled
    ensures s'.shared.cancelled
    ensures !s.phase.Accepting? ==> !s'.phase.Accepting? && Count(more, Connects) == 0
    decreases |more|
  {
    if more != [] {
      var n := |more| - 1;
      var p := Exec(cfg, s, more[..n]).value;
      CancelLasts(cfg, s, more[..n], p);
      StepKeepsCancel(cfg, p, more[n], s');
    }
  }

  /**
   A task at its client has only what the client brings about ahead of it, cancelled or not (save a
   reply that cannot be serialised), and until it moves no continuation returns from the accept loop.
   */
  lemma {:induction false} ClientHoldsUpShutdown(cfg: Config, synced: bool, run: Run, s: State, more: Run, s': State,
                                                 c: ConnId)
    requires Reaches(cfg, synced, run, s) && c in s.conns && AtClient(s.conns[c])
    requires Exec(cfg, s, more) == Some(s')
    requires forall i :: 0 <= i < |more| ==> !more[i].Restart? && !(more[i].Task? && more[i].conn == c)
    ensures c in s'.conns && s'.conns[c] == s.conns[c] && !s'.phase.Returned?
    ensures forall act :: Unaided(act) ==> TaskStep(cfg, s', c, act) == None
    decreases |more|
  {
    if more == [] {
      PhaseOfRun(cfg, synced, run, s);
    } else {
      var n := |more| - 1;
      var p := Exec(cfg, s, more[..n]).value;
      ClientHoldsUpShutdown(cfg, synced, run, s, more[..n], p, c);
      WaiterStays(cfg, p, more[n], s', c);
    }
    forall act | Unaided(act) ensures TaskStep(cfg, s', c, act) == None {
      if TaskStep(cfg, s', c, act).Some? { ClientStepsOnly(cfg, s'.shared, s'.conns[c], act); }
    }
  }

  lemma WaiterStays(cfg: Config, s: State, l: Label, s': State, c: ConnId)
    requires Step(cfg, s, l) == Some(s') && c in s.conns && !s.conns[c].Closed? && !s.phase.Returned?
    requires !l.Restart? && !(l.Task? && l.conn == c)
    ensures c in s'.conns && s'.conns[c] == s.conns[c] && !s'.phase.Returned?
  {
    if l.Task? {
      TaskKeepsCancelled(cfg, s, l.conn, l.act, s');
    }
  }

  lemma StopsAccepting(cfg: Config, synced: bool, run: Run, s: State)
    requires Reaches(cfg, synced, run, s) && s.phase.Accepting? && s.conns.Keys == {0} && AtClient(s.conns[0])
    ensures Exec(cfg, Init(synced), run + [Cancel, StopAccepting]).Some?
    ensures var s' := Exec(cfg, Init(synced), run + [Cancel, StopAccepting]).value;
            s'.conns == s.conns && HeldUp(cfg, s')
  {
    var s1 := s.(shared := s.shared.(cancelled := true));
    ExecSnoc(cfg, Init(synced), run, Cancel);
    ExecSnoc(cfg, Init(synced), run + [Cancel], StopAccepting);
    assert run + [Cancel] + [StopAccepting] == run + [Cancel, StopAccepting];
    HeldUpExactlyByClients(cfg, s1.(phase := Draining));
  }

  /** It does happen, with a client that connects and does not shake hands... */
  lemma HandshakeHoldsUp(cfg: Config, synced: bool)
    ensures var run := [Accept(0)] + [Cancel, StopAccepting];
            && Exec(cfg, Init(synced), run).Some?
            && var s := Exec(cfg, Init(synced), run).value;
               0 in s.conns && s.conns[0].Shaking? && HeldUp(cfg, s)
  {
    ExecOne(cfg, Init(synced), Accept(0));
    StopsAccepting(cfg, synced, [Accept(0)], Init(synced).(conns := map[0 := Shaking]));
  }

  /** ... and with one that asks and does not read the reply. */
  lemma UnreadReplyHoldsUp(cfg: Config, synced: bool)
    ensures var run := [Accept(0), Task(0, ShakeDone), Task(0, Fetched(LogOut))] + [Cancel, StopAccepting];
            && Exec(cfg, Init(synced), run).Some?
            && var s := Exec(cfg, Init(synced), run).value;
               0 in s.conns && s.conns[0] == GuestReply(NotLoggedIn, None) && HeldUp(cfg, s)
  {
    var s0 := Init(synced).(conns := map[0 := Shaking]);
    ExecOne(cfg, Init(synced), Accept(0));
    ExecTask(cfg, Init(synced), [Accept(0)], s0, 0, ShakeDone, GuestIdle, Nothing);
    var r1, s1 := [Accept(0)] + [Task(0, ShakeDone)], s0.(conns := s0.conns[0 := GuestIdle]);
    ExecTask(cfg, Init(synced), r1, s1, 0, Fetched(LogOut), GuestReply(NotLoggedIn, None), Nothing);
    var r2 := r1 + [Task(0, Fetched(LogOut))];
    assert r2 == [Accept(0), Task(0, ShakeDone), Task(0, Fetched(LogOut))];
    StopsAccepting(cfg, synced, r2, s1.(conns := s1.conns[0 := GuestReply(NotLoggedIn, None)]));
  }

  lemma TaskKeepsCancelled(cfg: Config, s: State, c: ConnId, act: Action, s': State)
    requires TaskStep(cfg, s, c, act) == Some(s')
    ensures s'.shared.cancelled == s.shared.cancelled && s'.phase == s.phase && s'.conns.Keys == s.conns.Keys
    ensures forall d :: d in s.conns && d != c ==> s'.conns[d] == s.conns[d]
  {
    OriginOfStep(cfg, s.shared, s.conns[c], act, LocalStep(cfg, s.shared, s.conns[c], act).value);
  }

  // ----- A way to return without losing a token -----

  /** No task is about to insert a record under a key that is taken. */
  ghost predicate NoCollision(s: State) {
    forall c :: c in s.conns && s.conns[c].Recording? ==>
      ToBeBytes(s.conns[c].timestamp) !in s.shared.HistoryOf(s.conns[c].user)
  }

  /** A reading of the machine's clock that the current offset does not push before 1970. */
  function GoodReading(offset: i64): Clock.SystemTime {
    if offset >= 0 then 0 else UnsignedAbs(offset)
  }

  /** What may happen next so that no token is lost. */
  function Way(sh: Shared, pc: Pc): Action {
    match pc
    case TxSelect(_, Refund) => Select
    case TxCommit(_, Refund, _) => Commit
    case ReadClock(_, _) => ReadTime(GoodReading(sh.offset))
    case Recording(_, _, _, _) => InsertRecord
    case _ => AnyStep(pc)
  }

  lemma ClockHasGoodReading(offset: i64)
    ensures Clock.Issue(offset, GoodReading(offset)).Some?
  {
  }

  /** The step exists, burns nothing, buys nothing and leads to no new record. */
  ghost predicate Careful(sh: Shared, pc: Pc, next: Option<Outcome>) {
    && next.Some? && !next.value.pc.Recording?
    && (forall u :: !Burns(sh.offset, pc, Way(sh, pc), u) && Purchase(pc, Way(sh, pc), u) == 0)
  }

  lemma GuestCareful(cfg: Config, sh: Shared, pc: Pc)
    requires sh.cancelled && pc.Part().Guest?
    ensures Careful(sh, pc, GuestStep(cfg, sh, pc, Way(sh, pc)))
  {
  }

  lemma SessionCareful(sh: Shared, pc: Pc)
    requires sh.cancelled && pc.Part().Session?
    ensures Careful(sh, pc, SessionStep(sh, pc, Way(sh, pc)))
  {
  }

  lemma TokenCareful(sh: Shared, pc: Pc)
    requires pc.Part().TokenTx? && KnownUser(sh, pc) && BalancesOk(sh) && TokensOk(sh, pc)
    ensures Careful(sh, pc, TokenStep(sh, pc, Way(sh, pc)))
  {
  }

  lemma StampCareful(cfg: Config, sh: Shared, pc: Pc)
    requires pc.Part().Stamp? && KnownUser(sh, pc)
    requires pc.Recording? ==> ToBeBytes(pc.timestamp) !in sh.HistoryOf(pc.user)
    ensures Careful(sh, pc, StampStep(cfg, sh, pc, Way(sh, pc)))
  {
    ClockHasGoodReading(sh.offset);
  }

  lemma QueryCareful(sh: Shared, pc: Pc)
    requires pc.Part().Query?
    ensures Careful(sh, pc, QueryStep(sh, pc, Way(sh, pc)))
  {
  }

  lemma WayIsCareful(cfg: Config, sh: Shared, pc: Pc)
    requires sh.cancelled && !pc.Closed? && TablesOk(cfg, sh) && PcOk(cfg, sh, pc)
    requires pc.Recording? ==> ToBeBytes(pc.timestamp) !in sh.HistoryOf(pc.user)
    ensures Careful(sh, pc, LocalStep(cfg, sh, pc, Way(sh, pc)))
  {
    match pc.Part() {
      case Guest => GuestCareful(cfg, sh, pc);
      case Session => SessionCareful(sh, pc);
      case TokenTx => TokenCareful(sh, pc);
      case Stamp => StampCareful(cfg, sh, pc);
      case Query => QueryCareful(sh, pc);
      case Done =>
    }
  }

  /** What a drain relies on while tasks wind down. */
  ghost predicate Winding(cfg: Config, s: State) {
    Inv(cfg, s) && NoCollision(s) && s.shared.cancelled
  }

  lemma WayKeepsKeysFree(cfg: Config, s: State, c: ConnId, s': State)
    requires Winding(cfg, s) && c in s.conns && !s.conns[c].Closed?
    requires TaskStep(cfg, s, c, Way(s.shared, s.conns[c])) == Some(s') && !s'.conns[c].Recording?
    ensures NoCollision(s')
  {
    var o := LocalStep(cfg, s.shared, s.conns[c], Way(s.shared, s.conns[c])).value;
    forall d | d in s'.conns && s'.conns[d].Recording?
      ensures ToBeBytes(s'.conns[d].timestamp) !in s'.shared.HistoryOf(s'.conns[d].user)
    {
      assert d != c;
      RowsOf(cfg, s.shared, s.conns[c], Way(s.shared, s.conns[c]), o, s.conns[d].user);
    }
  }

  lemma WayKeepsTokens(cfg: Config, s: State, c: ConnId, s': State, u: Text)
    requires Inv(cfg, s) && c in s.conns && TaskStep(cfg, s, c, Way(s.shared, s.conns[c])) == Some(s')
    requires !Burns(s.shared.offset, s.conns[c], Way(s.shared, s.conns[c]), u)
    requires Purchase(s.conns[c], Way(s.shared, s.conns[c]), u) == 0
    ensures Accounted(s', u) == Accounted(s, u)
  {
    TaskConserves(cfg, s, c, Way(s.shared, s.conns[c]), s', u);
  }

  lemma WayExists(cfg: Config, s: State, c: ConnId) returns (s': State)
    requires Winding(cfg, s) && c in s.conns && !s.conns[c].Closed?
    ensures TaskStep(cfg, s, c, Way(s.shared, s.conns[c])) == Some(s') && NoCollision(s')
    ensures forall u :: Accounted(s', u) == Accounted(s, u)
  {
    WayIsCareful(cfg, s.shared, s.conns[c]);
    s' := TaskStep(cfg, s, c, Way(s.shared, s.conns[c])).value;
    WayKeepsKeysFree(cfg, s, c, s');
    forall u ensures Accounted(s', u) == Accounted(s, u) { WayKeepsTokens(cfg, s, c, s', u); }
  }

  lemma StillWinding(cfg: Config, s: State, c: ConnId, act: Action, s': State)
    requires cfg.crypto.Sound() && Winding(cfg, s) && TaskStep(cfg, s, c, act) == Some(s') && NoCollision(s')
    ensures Winding(cfg, s') && s'.phase == s.phase
  {
    TaskKeepsInv(cfg, s, c, act, s');
    TaskKeepsCancelled(cfg, s, c, act, s');
  }

  lemma OneTaskStep(cfg: Config, s: State, c: ConnId, act: Action, s': State)
    requires TaskStep(cfg, s, c, act) == Some(s') && !act.Fetched?
    ensures Exec(cfg, s, [Task(c, act)]) == Some(s') && Work(s'.conns) < Work(s.conns)
  {
    ExecOne(cfg, s, Task(c, act));
    StepWorks(cfg, s, Task(c, act), s');
  }

  lemma CarefulStep(cfg: Config, s: State, c: ConnId) returns (s': State)
    requires cfg.crypto.Sound() && Winding(cfg, s) && c in s.conns && !s.conns[c].Closed?
    ensures Exec(cfg, s, [Task(c, Way(s.shared, s.conns[c]))]) == Some(s')
    ensures Winding(cfg, s') && s'.phase == s.phase && Work(s'.conns) < Work(s.conns)
    ensures forall u :: Accounted(s', u) == Accounted(s, u)
  {
    s' := WayExists(cfg, s, c);
    StillWinding(cfg, s, c, Way(s.shared, s.conns[c]), s');
    OneTaskStep(cfg, s, c, Way(s.shared, s.conns[c]), s');
  }

  ghost predicate AllClosed(s: State) {
    forall c :: c in s.conns ==> s.conns[c].Closed?
  }

  lemma {:induction false} DrainAll(cfg: Config, s: State) returns (more: Run, s': State)
    requires cfg.crypto.Sound() && Winding(cfg, s)
    ensures Exec(cfg, s, more) == Some(s') && s'.shared.cancelled
    ensures forall i :: 0 <= i < |more| ==> more[i].Task?
    ensures AllClosed(s') && s'.phase == s.phase
    ensures forall u :: Accounted(s', u) == Accounted(s, u)
    decreases Work(s.conns)
  {
    if AllClosed(s) {
      more, s' := [], s;
    } else {
      var c :| c in s.conns && !s.conns[c].Closed?;
      var l := Task(c, Way(s.shared, s.conns[c]));
      var next := CarefulStep(cfg, s, c);
      var rest;
      rest, s' := DrainAll(cfg, next);
      more := [l] + rest;
      ExecConcat(cfg, s, [l], rest);
    }
  }

  lemma LoopReturns(cfg: Config, s: State) returns (more: Run)
    requires s.shared.cancelled && !s.phase.Returned? && AllClosed(s)
    ensures Exec(cfg, s, more) == Some(s.(phase := Returned))
    ensures forall i :: 0 <= i < |more| ==> more[i].StopAccepting? || more[i].AllDone?
  {
    var stop: Run := if s.phase.Accepting? then [StopAccepting] else [];
    assert Exec(cfg, s, stop) == Some(s.(phase := Draining)) by {
      ExecOne(cfg, s, StopAccepting);
    }
    ExecSnoc(cfg, s, stop, AllDone);
    more := stop + [AllDone];
  }

  /**
   From every reachable state in which the server has been cancelled and no record key is taken,
   the tasks can wind down and the accept loop can return such that every debit then in flight ends
   as a record or back on its balance.
   */
  lemma ShutdownCanKeepTokens(cfg: Config, synced: bool, run: Run, s: State) returns (more: Run, s': State)
    requires cfg.crypto.Sound() && Reaches(cfg, synced, run, s)
    requires s.shared.cancelled && !s.phase.Returned? && NoCollision(s)
    ensures Exec(cfg, s, more) == Some(s') && s'.phase.Returned?
    ensures forall i :: 0 <= i < |more| ==> more[i].Task? || more[i].StopAccepting? || more[i].AllDone?
    ensures forall u :: s'.shared.Balance(u) + |s'.shared.HistoryOf(u)| ==
                        s.shared.Balance(u) + |s.shared.HistoryOf(u)| + InFlight(s, u)
  {
    InvOfRun(cfg, synced, run, s);
    var tasks, quiet := DrainAll(cfg, s);
    AtRest(quiet);
    var end := LoopReturns(cfg, quiet);
    more, s' := tasks + end, quiet.(phase := Returned);
    ExecConcat(cfg, s, tasks, end);
    forall u ensures s'.shared.Balance(u) + |s'.shared.HistoryOf(u)| ==
                     s.shared.Balance(u) + |s.shared.HistoryOf(u)| + InFlight(s, u)
    {
      assert Accounted(quiet, u) == Accounted(s, u);
    }
  }
}
