/**
 When clients can hold up a graceful shutdown, told from the state in which the server is cancelled:
 exactly when some task is shaking hands or has a request in hand that can still be answered.
 */
module HoldUp {
  import opened Wrappers
  import opened ServerProtocol
  import opened Database
  import opened Machine
  import opened Safety
  import opened Shutdown

  /** The task will end without its client: it is between requests, on its way out, or its record is refused. */
  predicate Settled(sh: Shared, pc: Pc) {
    || pc.GuestIdle? || pc.SessionIdle? || pc.Unlocking? || pc.Closed?
    || (pc.Recording? && ToBeBytes(pc.timestamp) in sh.HistoryOf(pc.user))
  }

  ghost predicate AllSettled(s: State) {
    forall c :: c in s.conns ==> Settled(s.shared, s.conns[c])
  }

  /** No client does anything, and the process goes on. */
  predicate WithoutClients(run: Run) {
    forall i :: 0 <= i < |run| ==> !run[i].Accept? && !run[i].Restart? && (run[i].Task? ==> Unaided(run[i].act))
  }

  // ----- Settled tasks are not held up -----

  lemma SettledGoesOn(cfg: Config, sh: Shared, pc: Pc, act: Action, o: Outcome)
    requires Settled(sh, pc) && Unaided(act) && LocalStep(cfg, sh, pc, act) == Some(o)
    requires pc.Recording? ==> pc.user in sh.users
    ensures Settled(sh, o.pc) && (o.effect.Nothing? || o.effect.Unlock?)
  {
  }

  lemma StepKeepsSettled(cfg: Config, s: State, l: Label, s': State)
    requires Inv(cfg, s) && AllSettled(s) && Step(cfg, s, l) == Some(s') && WithoutClients([l])
    ensures AllSettled(s')
  {
    assert [l][0] == l;
    if l.Task? {
      assert KnownUser(s.shared, s.conns[l.conn]) by { assert PcOk(cfg, s.shared, s.conns[l.conn]); }
      SettledGoesOn(cfg, s.shared, s.conns[l.conn], l.act, LocalStep(cfg, s.shared, s.conns[l.conn], l.act).value);
      assert forall u :: s'.shared.HistoryOf(u) == s.shared.HistoryOf(u);
    } else {
      QuietStep(cfg, s, l, s');
    }
  }

  lemma QuietStep(cfg: Config, s: State, l: Label, s': State)
    requires Step(cfg, s, l) == Some(s') && !l.Task? && !l.Accept? && !l.Restart?
    ensures s'.conns == s.conns && forall u :: s'.shared.HistoryOf(u) == s.shared.HistoryOf(u)
  {
  }

  lemma {:induction false} RunKeepsSettled(cfg: Config, s: State, more: Run, s': State)
    requires cfg.crypto.Sound() && Inv(cfg, s) && AllSettled(s)
    requires Exec(cfg, s, more) == Some(s') && WithoutClients(more)
    ensures AllSettled(s')
    decreases |more|
  {
    if more != [] {
      var n := |more| - 1;
      var p := Exec(cfg, s, more[..n]).value;
      RunKeepsSettled(cfg, s, more[..n], p);
      RunKeepsInv(cfg, s, more[..n]);
      StepKeepsSettled(cfg, p, more[n], s');
    }
  }

  // ----- Any other task can be -----

  /** A step of the server's own that brings a request in hand closer to its reply. */
  ghost function Toward(sh: Shared, pc: Pc): Action {
    match pc
    case Verifying(_, _) => PasswordRead
    case Verified(_) => TakeLock
    case Registering(_, _) => InsertUser([])
    case ReadClock(_, _) => ReadTime(GoodReading(sh.offset))
    case Signing(_, _, _) => SignFails
    case Recording(_, _, _, _) => InsertRecord
    case TxCommit(_, _, _) => Commit
    case ReadHistory(u) =>
      if exists rows :: IsQueryResult(sh.HistoryOf(u), HISTORY_LIMIT, rows) then
        var rows :| IsQueryResult(sh.HistoryOf(u), HISTORY_LIMIT, rows);
        RowsRead(rows)
      else SqlFails
    case _ => Select
  }

  lemma TowardIsUnaided(sh: Shared, pc: Pc)
    ensures Unaided(Toward(sh, pc))
  {
  }

  ghost predicate Nearer(cfg: Config, sh: Shared, next: Option<Outcome>) {
    next.Some? && !Settled(Apply(sh, next.value.effect), next.value.pc)
  }

  lemma GuestNearer(cfg: Config, sh: Shared, pc: Pc)
    requires cfg.crypto.Sound() && HashesOk(cfg, sh) && pc.Part().Guest? && !pc.GuestIdle? && !AtClient(pc)
    ensures Nearer(cfg, sh, GuestStep(cfg, sh, pc, Toward(sh, pc)))
  {
    if pc.Verifying? && pc.user in sh.users {
      StoredHashParses(cfg, sh, pc.user, pc.password);
    }
  }

  lemma TokenNearer(cfg: Config, sh: Shared, pc: Pc)
    requires pc.Part().TokenTx? && KnownUser(sh, pc) && BalancesOk(sh) && TokensOk(sh, pc)
    ensures Nearer(cfg, sh, TokenStep(sh, pc, Toward(sh, pc)))
  {
  }

  lemma StampNearer(cfg: Config, sh: Shared, pc: Pc)
    requires pc.Part().Stamp? && KnownUser(sh, pc) && !Settled(sh, pc)
    ensures Nearer(cfg, sh, StampStep(cfg, sh, pc, Toward(sh, pc)))
  {
    ClockHasGoodReading(sh.offset);
  }

  lemma QueryNearer(cfg: Config, sh: Shared, pc: Pc)
    requires pc.Part().Query? && KnownUser(sh, pc) && BalancesOk(sh) && RecordsOk(sh)
    ensures Nearer(cfg, sh, QueryStep(sh, pc, Toward(sh, pc)))
  {
    if pc.ReadHistory? {
      var rows := QueryHasAnswer(sh.HistoryOf(pc.user), HISTORY_LIMIT);
      QueryDecodesToLatest(sh.HistoryOf(pc.user), HISTORY_LIMIT, Toward(sh, pc).rows);
    }
  }

  lemma TowardIsNearer(cfg: Config, sh: Shared, pc: Pc)
    requires cfg.crypto.Sound() && TablesOk(cfg, sh) && PcOk(cfg, sh, pc) && !Settled(sh, pc) && !AtClient(pc)
    ensures Nearer(cfg, sh, LocalStep(cfg, sh, pc, Toward(sh, pc)))
  {
    match pc.Part() {
      case Guest => GuestNearer(cfg, sh, pc);
      case TokenTx => TokenNearer(cfg, sh, pc);
      case Stamp => StampNearer(cfg, sh, pc);
      case Query => QueryNearer(cfg, sh, pc);
      case Session =>
      case Done =>
    }
  }

  lemma NearerStep(cfg: Config, s: State, c: ConnId) returns (s': State)
    requires cfg.crypto.Sound() && Inv(cfg, s) && c in s.conns
    requires !Settled(s.shared, s.conns[c]) && !AtClient(s.conns[c])
    ensures Exec(cfg, s, [Task(c, Toward(s.shared, s.conns[c]))]) == Some(s') && Unaided(Toward(s.shared, s.conns[c]))
    ensures Inv(cfg, s') && s'.phase == s.phase && s'.shared.cancelled == s.shared.cancelled
    ensures c in s'.conns && !Settled(s'.shared, s'.conns[c]) && Rank(s'.conns[c]) < Rank(s.conns[c])
  {
    var act := Toward(s.shared, s.conns[c]);
    TowardIsUnaided(s.shared, s.conns[c]);
    TowardIsNearer(cfg, s.shared, s.conns[c]);
    s' := TaskStep(cfg, s, c, act).value;
    ExecOne(cfg, s, Task(c, act));
    TaskKeepsInv(cfg, s, c, act, s');
    TaskKeepsCancelled(cfg, s, c, act, s');
    StepDescends(cfg, s.shared, s.conns[c], act, LocalStep(cfg, s.shared, s.conns[c], act).value);
  }

  /** The request in hand gets as far as its reply. */
  lemma {:induction false} GetsToClient(cfg: Config, s: State, c: ConnId) returns (more: Run, s': State)
    requires cfg.crypto.Sound() && Inv(cfg, s) && c in s.conns && !Settled(s.shared, s.conns[c])
    ensures Exec(cfg, s, more) == Some(s') && WithoutClients(more)
    ensures s'.phase == s.phase && s'.shared.cancelled == s.shared.cancelled
    ensures c in s'.conns && AtClient(s'.conns[c])
    decreases Rank(s.conns[c])
  {
    if AtClient(s.conns[c]) {
      more, s' := [], s;
    } else {
      var l := Task(c, Toward(s.shared, s.conns[c]));
      var next := NearerStep(cfg, s, c);
      var rest;
      rest, s' := GetsToClient(cfg, next, c);
      more := [l] + rest;
      ExecConcat(cfg, s, [l], rest);
    }
  }

  lemma LoopWaits(cfg: Config, s: State, c: ConnId)
    requires s.phase.Draining? && c in s.conns && !s.conns[c].Closed?
    ensures Step(cfg, s, StopAccepting) == None && Step(cfg, s, AllDone) == None
  {
  }

  lemma OtherCanMove(cfg: Config, s: State, c: ConnId) returns (d: ConnId, act: Action)
    requires s.phase.Draining? && c in s.conns && AtClient(s.conns[c]) && !HeldUp(cfg, s)
    ensures Unaided(act) && TaskStep(cfg, s, d, act).Some? && d != c
  {
    LoopWaits(cfg, s, c);
    d, act :| Unaided(act) && TaskStep(cfg, s, d, act).Some?;
    if d == c { ClientStepsOnly(cfg, s.shared, s.conns[c], act); }
  }

  lemma OtherStep(cfg: Config, s: State, c: ConnId) returns (l: Label, s': State)
    requires s.shared.cancelled && s.phase.Draining? && c in s.conns && AtClient(s.conns[c]) && !HeldUp(cfg, s)
    ensures Exec(cfg, s, [l]) == Some(s') && WithoutClients([l])
    ensures s'.shared.cancelled && s'.phase.Draining? && c in s'.conns && AtClient(s'.conns[c])
    ensures Work(s'.conns) < Work(s.conns)
  {
    var d, act := OtherCanMove(cfg, s, c);
    l, s' := Task(d, act), TaskStep(cfg, s, d, act).value;
    ExecOne(cfg, s, l);
    TaskKeepsCancelled(cfg, s, d, act, s');
    StepWorks(cfg, s, l, s');
  }

  /** While one task waits for its client, the others go as far as they can without theirs. */
  lemma {:induction false} OthersExhausted(cfg: Config, s: State, c: ConnId) returns (more: Run, s': State)
    requires s.shared.cancelled && s.phase.Draining? && c in s.conns && AtClient(s.conns[c])
    ensures Exec(cfg, s, more) == Some(s') && WithoutClients(more) && HeldUp(cfg, s')
    decreases Work(s.conns)
  {
    if HeldUp(cfg, s) {
      more, s' := [], s;
    } else {
      var l, next := OtherStep(cfg, s, c);
      var rest;
      rest, s' := OthersExhausted(cfg, next, c);
      more := [l] + rest;
      ExecConcat(cfg, s, [l], rest);
    }
  }

  lemma Drains(cfg: Config, s: State) returns (stop: Run, s': State)
    requires s.shared.cancelled && !s.phase.Returned?
    ensures s' == s.(phase := Draining) && Exec(cfg, s, stop) == Some(s') && WithoutClients(stop)
  {
    s' := s.(phase := Draining);
    stop := if s.phase.Accepting? then [StopAccepting] else [];
    ExecOne(cfg, s, StopAccepting);
  }

  lemma UnsettledIsHeldUp(cfg: Config, s: State, c: ConnId) returns (more: Run, s': State)
    requires cfg.crypto.Sound() && Inv(cfg, s) && s.shared.cancelled && !s.phase.Returned?
    requires c in s.conns && !Settled(s.shared, s.conns[c])
    ensures Exec(cfg, s, more) == Some(s') && WithoutClients(more) && HeldUp(cfg, s')
  {
    var stop, draining := Drains(cfg, s);
    RunKeepsInv(cfg, s, stop);
    var first, mid := GetsToClient(cfg, draining, c);
    var second, last := OthersExhausted(cfg, mid, c);
    ExecConcat(cfg, draining, first, second);
    ExecConcat(cfg, s, stop, first + second);
    more, s' := stop + (first + second), last;
  }

  /** A schedule in which no client does anything leads to s', where only clients could go on. */
  ghost predicate LeadsToHoldUp(cfg: Config, s: State, more: Run, s': State) {
    Exec(cfg, s, more) == Some(s') && WithoutClients(more) && HeldUp(cfg, s')
  }

  /**
   Clients can hold up the shutdown of a server, by doing nothing, if and only if some task is not
   settled when it is cancelled: it is shaking hands, sending a reply, or working on a request.
   */
  lemma HeldUpExactlyWhenUnsettled(cfg: Config, synced: bool, run: Run, s: State)
    requires cfg.crypto.Sound() && Reaches(cfg, synced, run, s) && s.shared.cancelled && !s.phase.Returned?
    ensures (exists more, s' :: LeadsToHoldUp(cfg, s, more, s')) <==> !AllSettled(s)
  {
    InvOfRun(cfg, synced, run, s);
    if AllSettled(s) {
      forall more, s' ensures !LeadsToHoldUp(cfg, s, more, s') {
        SettledIsNotHeldUp(cfg, s, more, s');
      }
    } else {
      var c :| c in s.conns && !Settled(s.shared, s.conns[c]);
      var more, s' := UnsettledIsHeldUp(cfg, s, c);
      assert LeadsToHoldUp(cfg, s, more, s');
    }
  }

  lemma SettledIsNotHeldUp(cfg: Config, s: State, more: Run, s': State)
    requires cfg.crypto.Sound() && Inv(cfg, s) && s.shared.cancelled && AllSettled(s)
    ensures !LeadsToHoldUp(cfg, s, more, s')
  {
    if LeadsToHoldUp(cfg, s, more, s') {
      RunKeepsSettled(cfg, s, more, s');
      CancelLasts(cfg, s, more, s');
      HeldUpExactlyByClients(cfg, s');
      assert false;
    }
  }
}
