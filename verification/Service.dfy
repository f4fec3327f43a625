/**
 Requests are served: what can happen to a task at each point, why a task ends, when a request is
 refused, and what stops or restarts the server.
 */
module Service {
  import opened Wrappers
  import opened ServerProtocol
  import opened Database
  import opened Machine
  import opened Safety
  import opened Exchange
  import opened Receipts
  import Clock = TimeOracle

  // ----- What can happen -----

  predicate Between(pc: Pc) {
    pc.GuestIdle? || pc.SessionIdle?
  }

  predicate AtDatabase(pc: Pc) {
    || pc.Verifying? || pc.Registering? || pc.TxSelect? || pc.TxCommit? || pc.Recording? || pc.Counting?
    || pc.ReadHistory?
  }

  predicate Sending(pc: Pc) {
    pc.GuestReply? || pc.SessionReply?
  }

  /** Where each event can meet a task of a server that started on an empty database. */
  ghost predicate Can(cfg: Config, sh: Shared, pc: Pc, act: Action) {
    match act
    case ShakeDone => pc.Shaking?
    case ShakeFails => pc.Shaking?
    case Fetched(_) => Between(pc)
    case StreamEnds => Between(pc)
    case FetchFails => Between(pc)
    case Interrupt => Between(pc) && sh.cancelled
    case SqlFails => AtDatabase(pc)
    case HashFails => pc.Registering?
    case InsertUser(_) => pc.Registering?
    case PasswordRead => pc.Verifying?
    case TakeLock => pc.Verified?
    case ReleaseLock => pc.Unlocking?
    case Select => pc.TxSelect? || pc.Counting?
    case Commit => pc.TxCommit?
    case ReadTime(_) => pc.ReadClock?
    case SignFails => pc.Signing?
    case SignDone => pc.Signing? && cfg.crypto.rsaSign(cfg.crypto.Bind(pc.hash, pc.timestamp)).Some?
    case InsertRecord => pc.Recording? && ToBeBytes(pc.timestamp) !in sh.HistoryOf(pc.user)
    case RowsRead(rows) => pc.ReadHistory? && IsQueryResult(sh.HistoryOf(pc.user), 100, rows)
    case SerializeFails => Sending(pc)
    case SendFails => Sending(pc)
    case Sent => Sending(pc)
  }

  lemma GuestCan(cfg: Config, sh: Shared, pc: Pc, act: Action)
    requires pc.Part().Guest?
    ensures GuestStep(cfg, sh, pc, act).Some? <==> Can(cfg, sh, pc, act)
  {
  }

  lemma SessionCan(cfg: Config, sh: Shared, pc: Pc, act: Action)
    requires pc.Part().Session?
    ensures SessionStep(sh, pc, act).Some? <==> Can(cfg, sh, pc, act)
  {
  }

  lemma TokenCan(cfg: Config, sh: Shared, pc: Pc, act: Action)
    requires pc.Part().TokenTx? && BalancesOk(sh) && KnownUser(sh, pc) && TokensOk(sh, pc)
    ensures TokenStep(sh, pc, act).Some? <==> Can(cfg, sh, pc, act)
  {
  }

  lemma StampCan(cfg: Config, sh: Shared, pc: Pc, act: Action)
    requires pc.Part().Stamp? && KnownUser(sh, pc)
    ensures StampStep(cfg, sh, pc, act).Some? <==> Can(cfg, sh, pc, act)
  {
  }

  lemma QueryCan(cfg: Config, sh: Shared, pc: Pc, act: Action)
    requires pc.Part().Query? && BalancesOk(sh) && KnownUser(sh, pc)
    ensures QueryStep(sh, pc, act).Some? <==> Can(cfg, sh, pc, act)
  {
  }

  /** In every reachable state exactly these events can happen: nothing the environment may do is ruled out. */
  lemma EveryOutcomeIsPossible(cfg: Config, synced: bool, run: Run, s: State, c: ConnId, act: Action)
    requires cfg.crypto.Sound() && Reaches(cfg, synced, run, s) && c in s.conns
    ensures TaskStep(cfg, s, c, act).Some? <==> Can(cfg, s.shared, s.conns[c], act)
  {
    PcOfRun(cfg, synced, run, s, c);
    match s.conns[c].Part() {
      case Guest => GuestCan(cfg, s.shared, s.conns[c], act);
      case Session => SessionCan(cfg, s.shared, s.conns[c], act);
      case TokenTx => TokenCan(cfg, s.shared, s.conns[c], act);
      case Stamp => StampCan(cfg, s.shared, s.conns[c], act);
      case Query => QueryCan(cfg, s.shared, s.conns[c], act);
      case Done =>
    }
  }

  // ----- Why a task ends -----

  /** How a task that is on its way out, or out, came to leave. */
  function Leaving(pc: Pc): Option<Exit> {
    match pc
    case Closed(e) => Some(e)
    case Unlocking(_, Leave(e)) => Some(e)
    case _ => None
  }

  /** How an event outside the program makes a task leave, if it does. */
  function CauseOf(sh: Shared, act: Action): Option<Exit> {
    match act
    case Interrupt => if sh.cancelled then Some(Interrupted) else None
    case StreamEnds => Some(if sh.cancelled then Interrupted else ClientAsked)
    case ShakeFails => Some(Failed(Handshake))
    case FetchFails => Some(Failed(Network))
    case SendFails => Some(Failed(Network))
    case SerializeFails => Some(Failed(Serialize))
    case SqlFails => Some(Failed(Sql))
    case HashFails => Some(Failed(Hashing))
    case ReadTime(local) => if Clock.Issue(sh.offset, local) == None then Some(Failed(ClockStaggered)) else None
    case _ => None
  }

  predicate Refunding(pc: Pc) {
    (pc.TxSelect? || pc.TxCommit?) && pc.op.Refund?
  }

  predicate Inside(exit: Option<Exit>) {
    exit.Some? && exit.value.Failed? && Internal(exit.value.fault)
  }

  /** The step keeps the task's way out, or begins one exactly if there is a cause, except for a refund. */
  predicate Founded(sh: Shared, pc: Pc, act: Action, o: Outcome) {
    && (Leaving(pc).Some? ==> Leaving(o.pc) == Leaving(pc))
    && (Leaving(pc) == None && !Refunding(pc) ==> Leaving(o.pc) == CauseOf(sh, act) || Inside(Leaving(o.pc)))
  }

  lemma GuestFounded(cfg: Config, sh: Shared, pc: Pc, act: Action, o: Outcome)
    requires GuestStep(cfg, sh, pc, act) == Some(o)
    ensures Founded(sh, pc, act, o)
  {
  }

  lemma SessionFounded(sh: Shared, pc: Pc, act: Action, o: Outcome)
    requires SessionStep(sh, pc, act) == Some(o)
    ensures Founded(sh, pc, act, o)
  {
  }

  lemma TokenFounded(sh: Shared, pc: Pc, act: Action, o: Outcome)
    requires TokenStep(sh, pc, act) == Some(o)
    ensures Founded(sh, pc, act, o)
  {
  }

  lemma StampFounded(cfg: Config, sh: Shared, pc: Pc, act: Action, o: Outcome)
    requires StampStep(cfg, sh, pc, act) == Some(o)
    ensures Founded(sh, pc, act, o)
  {
  }

  lemma QueryFounded(sh: Shared, pc: Pc, act: Action, o: Outcome)
    requires QueryStep(sh, pc, act) == Some(o)
    ensures Founded(sh, pc, act, o)
  {
  }

  lemma StepFounded(cfg: Config, sh: Shared, pc: Pc, act: Action, o: Outcome)
    requires LocalStep(cfg, sh, pc, act) == Some(o)
    ensures Founded(sh, pc, act, o)
  {
    match pc.Part() {
      case Guest => GuestFounded(cfg, sh, pc, act, o);
      case Session => SessionFounded(sh, pc, act, o);
      case TokenTx => TokenFounded(sh, pc, act, o);
      case Stamp => StampFounded(cfg, sh, pc, act, o);
      case Query => QueryFounded(sh, pc, act, o);
      case Done =>
    }
  }

  /** A task leaves for a cause outside the program, only then, and always then unless it is refunding a token. */
  lemma ExitHasCause(cfg: Config, sh: Shared, pc: Pc, act: Action, o: Outcome)
    requires cfg.crypto.Sound() && TablesOk(cfg, sh) && PcOk(cfg, sh, pc)
    requires LocalStep(cfg, sh, pc, act) == Some(o)
    ensures Leaving(pc).Some? ==> Leaving(o.pc) == Leaving(pc)
    ensures Leaving(pc) == None && !Refunding(pc) ==> Leaving(o.pc) == CauseOf(sh, act)
    ensures Refunding(pc) ==> Leaving(o.pc) == None
  {
    StepFounded(cfg, sh, pc, act, o);
    OwnStep(cfg, sh, pc, act, o);
    if Refunding(pc) { RefundEndsInReply(cfg, sh, pc, act, o); }
  }

  // ----- over whole runs -----

  /** The last step of the run that gave connection c a beginning or a request, -1 if there is none. */
  function Since(run: Run, c: ConnId): (i: int)
    ensures -1 <= i < |run|
  {
    if run == [] then -1
    else
      var n := |run| - 1;
      if run[n].Restart? || run[n] == Accept(c) || (run[n].Task? && run[n].conn == c && run[n].act.Fetched?) then n
      else Since(run[..n], c)
  }

  ghost predicate CausedAt(cfg: Config, synced: bool, run: Run, i: int, c: ConnId, exit: Exit) {
    && Since(run, c) < i < |run| && run[i].Task? && run[i].conn == c && Exec(cfg, Init(synced), run[..i]).Some?
    && CauseOf(Exec(cfg, Init(synced), run[..i]).value.shared, run[i].act) == Some(exit)
  }

  /** A task that has left, or is leaving, met its cause after it was given its last request. */
  lemma {:induction false} LeavesForCause(cfg: Config, synced: bool, run: Run, s: State, c: ConnId) returns (i: int)
    requires cfg.crypto.Sound() && Reaches(cfg, synced, run, s) && c in s.conns && Leaving(s.conns[c]).Some?
    ensures CausedAt(cfg, synced, run, i, c, Leaving(s.conns[c]).value)
    decreases |run|
  {
    var n := |run| - 1;
    var l, p := run[n], Exec(cfg, Init(synced), run[..n]).value;
    var exit := Leaving(s.conns[c]).value;
    if l.Task? && l.conn == c {
      PcOfRun(cfg, synced, run[..n], p, c);
      ExitHasCause(cfg, p.shared, p.conns[c], l.act, LocalStep(cfg, p.shared, p.conns[c], l.act).value);
    } else {
      NotMoved(cfg, p, l, s, c);
    }
    if l.Task? && l.conn == c && Leaving(p.conns[c]) == None {
      i := n;
    } else {
      i := LeavesForCause(cfg, synced, run[..n], p, c);
      if l.Task? && l.conn == c { NoRequestOnTheWayOut(cfg, p.shared, p.conns[c], l.act); }
      assert run[..n][..i] == run[..i];
    }
  }

  lemma NotMoved(cfg: Config, s: State, l: Label, s': State, c: ConnId)
    requires Step(cfg, s, l) == Some(s') && c in s'.conns && !s'.conns[c].Shaking? && !(l.Task? && l.conn == c)
    ensures c in s.conns && s.conns[c] == s'.conns[c] && !l.Restart? && l != Accept(c)
  {
    if !l.Task? { OtherStepFrames(cfg, s, l, s'); }
  }

  lemma NoRequestOnTheWayOut(cfg: Config, sh: Shared, pc: Pc, act: Action)
    requires Leaving(pc).Some? && LocalStep(cfg, sh, pc, act).Some?
    ensures !act.Fetched?
  {
  }

  /** The requests of c once the run's last label has happened. */
  function Grown(run: Run, c: ConnId, requests: seq<Request>): seq<Request>
    requires run != []
  {
    var l := run[|run| - 1];
    if l.Restart? || l == Accept(c) then []
    else if l.Task? && l.conn == c && l.act.Fetched? then requests + [l.act.request]
    else requests
  }

  lemma RequestsGrow(cfg: Config, synced: bool, run: Run, c: ConnId)
    requires run != [] && Exec(cfg, Init(synced), run).Some?
    ensures LogOf(cfg, synced, run, c).requests == Grown(run, c, LogOf(cfg, synced, run[..|run| - 1], c).requests)
  {
  }

  /** The last request was taken by the step that Since names. */
  predicate TakenLast(run: Run, c: ConnId, requests: seq<Request>) {
    requests != [] ==> Since(run, c) >= 0 && run[Since(run, c)] == Task(c, Fetched(requests[|requests| - 1]))
  }

  lemma TakenLastStep(run: Run, c: ConnId, requests: seq<Request>)
    requires run != [] && TakenLast(run[..|run| - 1], c, requests)
    ensures TakenLast(run, c, Grown(run, c, requests))
  {
  }

  lemma {:induction false} LastRequest(cfg: Config, synced: bool, run: Run, c: ConnId)
    requires Exec(cfg, Init(synced), run).Some?
    ensures TakenLast(run, c, LogOf(cfg, synced, run, c).requests)
    decreases |run|
  {
    if run != [] {
      var n := |run| - 1;
      LastRequest(cfg, synced, run[..n], c);
      RequestsGrow(cfg, synced, run, c);
      TakenLastStep(run, c, LogOf(cfg, synced, run[..n], c).requests);
    }
  }

  /**
   Every request is answered unless something outside the program fails after it was taken: if a
   task has ended and its last request has no reply, then after the step that took this very request
   the connection met the failure that its exit reports.
   */
  lemma UnansweredOnlyByFailure(cfg: Config, synced: bool, run: Run, s: State, c: ConnId) returns (i: int)
    requires cfg.crypto.Sound() && Reaches(cfg, synced, run, s) && c in s.conns && s.conns[c].Closed?
    requires |LogOf(cfg, synced, run, c).requests| > |LogOf(cfg, synced, run, c).replies|
    ensures var requests := LogOf(cfg, synced, run, c).requests;
            && Since(run, c) >= 0 && run[Since(run, c)] == Task(c, Fetched(requests[|requests| - 1]))
            && s.conns[c].exit.Failed? && !Internal(s.conns[c].exit.fault)
            && CausedAt(cfg, synced, run, i, c, s.conns[c].exit)
  {
    ClosedUnanswered(cfg, synced, run, s, c);
    LastRequest(cfg, synced, run, c);
    i := LeavesForCause(cfg, synced, run, s, c);
  }

  lemma ClosedUnanswered(cfg: Config, synced: bool, run: Run, s: State, c: ConnId)
    requires cfg.crypto.Sound() && Reaches(cfg, synced, run, s) && c in s.conns && s.conns[c].Closed?
    requires |LogOf(cfg, synced, run, c).requests| > |LogOf(cfg, synced, run, c).replies|
    ensures s.conns[c].exit.Failed? && !Internal(s.conns[c].exit.fault)
  {
    RepliesAnswerRequests(cfg, synced, run, s, c);
    PcOfRun(cfg, synced, run, s, c);
  }

  // ----- When a request is refused, and when it is granted -----

  predicate TooLong(u: Text, p: Text) {
    |u| > 32 || |p| > 32
  }

  predicate Known(cfg: Config, users: Users, u: Text, p: Text) {
    u in users && cfg.crypto.argonVerify(p, users[u].passwordHash) == Match
  }

  /** What each reply to a guest says is so when the step that decides on it is taken. */
  predicate GuestTruth(cfg: Config, sh: Shared, pc: Pc, act: Action, reply: Response) {
    match reply
    case NotLoggedIn => pc.GuestIdle? && act.Fetched? && !act.request.Login? && !act.request.SignUp?
    case LoginFailed(InvalidCredentials) =>
      || (pc.GuestIdle? && act.Fetched? && act.request.Login? && TooLong(act.request.username, act.request.password))
      || (pc.Verifying? && act.PasswordRead? && !Known(cfg, sh.users, pc.user, pc.password))
    case LoginFailed(AlreadyLoggedIn) => pc.Verified? && pc.user in sh.logged
    case SignInFailed(UsernameAlreadyTaken) => pc.Registering? && pc.user in sh.users
    case OperationError =>
      pc.GuestIdle? && act.Fetched? && act.request.SignUp? && TooLong(act.request.username, act.request.password)
    case Okay => (pc.Verified? && pc.user !in sh.logged) || (pc.Registering? && pc.user !in sh.users)
    case _ => false
  }

  /** The same inside a session. */
  ghost predicate SessionTruth(sh: Shared, pc: Pc, act: Action, reply: Response) {
    match reply
    case LoginFailed(AlreadyLoggedIn) => pc.SessionIdle? && act.Fetched? && act.request.Login?
    case SignInFailed(SessionOpen) => pc.SessionIdle? && act.Fetched? && act.request.SignUp?
    case Okay => pc.SessionIdle? && act == Fetched(LogOut)
    case NotEnoughTokens => pc.TxSelect? && pc.op.Debit? && act.Select? && sh.Balance(pc.user) == 0
    case TokenAmountTooHigh =>
      || (pc.SessionIdle? && act.Fetched? && act.request.PurchaseTokens? &&
          sh.Balance(pc.user) + act.request.amount > 9_223_372_036_854_775_807)
      || (pc.TxSelect? && pc.op.Buy? && act.Select? &&
          sh.Balance(pc.user) + pc.op.amount > 9_223_372_036_854_775_807)
    case OperationError => Refunding(pc)
    case TokenCount(k) =>
      || (pc.Counting? && act.Select? && k == sh.Balance(pc.user))
      || (pc.TxCommit? && pc.op.Buy? && act.Commit? && k == sh.Balance(pc.user) + pc.op.amount)
    case Token(h, sign, ts) => pc.Recording? && pc == Recording(pc.user, h, ts, sign) && act.InsertRecord?
    case Records(records) => pc.ReadHistory? && act.RowsRead? && Shows(sh, pc.user, records)
    case _ => false
  }

  /** A guest's credentials are looked at exactly if both fit into 32 bytes. */
  lemma TurnedAwayExactly(cfg: Config, sh: Shared, act: Action, o: Outcome)
    requires LocalStep(cfg, sh, GuestIdle, act) == Some(o) && act.Fetched?
    ensures act.request.Login? || act.request.SignUp? ==>
              (o.pc.GuestReply? <==> TooLong(act.request.username, act.request.password))
    ensures !o.pc.GuestReply? ==>
              || (act.request.Login? && o.pc == Verifying(act.request.username, act.request.password))
              || (act.request.SignUp? && o.pc == Registering(act.request.username, act.request.password))
  {
  }

  lemma GuestIsTrue(cfg: Config, sh: Shared, pc: Pc, act: Action, o: Outcome)
    requires cfg.crypto.Sound() && HashesOk(cfg, sh) && GuestStep(cfg, sh, pc, act) == Some(o) && o.pc.GuestReply?
    ensures GuestTruth(cfg, sh, pc, act, o.pc.response)
  {
    if pc.Verifying? && pc.user in sh.users {
      StoredHashParses(cfg, sh, pc.user, pc.password);
    }
  }

  lemma SessionIsTrue(sh: Shared, pc: Pc, act: Action, o: Outcome)
    requires BalancesOk(sh) && SessionStep(sh, pc, act) == Some(o) && o.pc.SessionReply?
    ensures SessionTruth(sh, pc, act, o.pc.response)
  {
  }

  lemma TokenIsTrue(sh: Shared, pc: Pc, act: Action, o: Outcome)
    requires BalancesOk(sh) && KnownUser(sh, pc) && TokensOk(sh, pc)
    requires TokenStep(sh, pc, act) == Some(o) && o.pc.SessionReply?
    ensures SessionTruth(sh, pc, act, o.pc.response)
  {
  }

  lemma StampIsTrue(cfg: Config, sh: Shared, pc: Pc, act: Action, o: Outcome)
    requires StampStep(cfg, sh, pc, act) == Some(o) && o.pc.SessionReply?
    ensures SessionTruth(sh, pc, act, o.pc.response)
  {
  }

  lemma QueryIsTrue(sh: Shared, pc: Pc, act: Action, o: Outcome)
    requires BalancesOk(sh) && RecordsOk(sh) && KnownUser(sh, pc)
    requires QueryStep(sh, pc, act) == Some(o) && o.pc.SessionReply?
    ensures SessionTruth(sh, pc, act, o.pc.response)
  {
    if pc.ReadHistory? && act.RowsRead? {
      QueryDecodesToLatest(sh.HistoryOf(pc.user), HISTORY_LIMIT, act.rows);
    }
  }

  /** The step that makes a task send a reply. */
  ghost predicate Decides(cfg: Config, sh: Shared, pc: Pc, act: Action, next: Pc) {
    && (next.GuestReply? ==> GuestTruth(cfg, sh, pc, act, next.response))
    && (next.SessionReply? ==> SessionTruth(sh, pc, act, next.response))
  }

  /** Guests are answered by the guest code and sessions by the session code. */
  lemma RepliesStayApart(cfg: Config, sh: Shared, pc: Pc, act: Action, o: Outcome)
    requires LocalStep(cfg, sh, pc, act) == Some(o)
    ensures o.pc.GuestReply? ==> pc.Part().Guest?
    ensures o.pc.SessionReply? ==> !pc.Part().Guest?
  {
    if pc.Part().Guest? { assert GuestStep(cfg, sh, pc, act) == Some(o); }
  }

  lemma StepIsTrue(cfg: Config, sh: Shared, pc: Pc, act: Action, o: Outcome)
    requires cfg.crypto.Sound() && TablesOk(cfg, sh) && PcOk(cfg, sh, pc) && LocalStep(cfg, sh, pc, act) == Some(o)
    ensures Decides(cfg, sh, pc, act, o.pc)
  {
    RepliesStayApart(cfg, sh, pc, act, o);
    if o.pc.GuestReply? {
      GuestIsTrue(cfg, sh, pc, act, o);
    } else if o.pc.SessionReply? {
      match pc.Part() {
        case Session => SessionIsTrue(sh, pc, act, o);
        case TokenTx => TokenIsTrue(sh, pc, act, o);
        case Stamp => StampIsTrue(cfg, sh, pc, act, o);
        case Query => QueryIsTrue(sh, pc, act, o);
        case Done =>
      }
    }
  }

  /** Step j of the run, a step of c since it was given its request, decided on this reply, and rightly. */
  ghost predicate DecidedAt(cfg: Config, synced: bool, run: Run, j: int, c: ConnId, next: Pc) {
    && 0 <= Since(run, c) <= j < |run| && run[j].Task? && run[j].conn == c && Exec(cfg, Init(synced), run[..j]).Some?
    && var p := Exec(cfg, Init(synced), run[..j]).value;
       c in p.conns && Decides(cfg, p.shared, p.conns[c], run[j].act, next)
  }

  lemma {:induction false} PendingReplyIsTrue(cfg: Config, synced: bool, run: Run, s: State, c: ConnId) returns (j: int)
    requires cfg.crypto.Sound() && Reaches(cfg, synced, run, s) && c in s.conns && Sending(s.conns[c])
    ensures DecidedAt(cfg, synced, run, j, c, s.conns[c])
    decreases |run|
  {
    var n := |run| - 1;
    var l, p := run[n], Exec(cfg, Init(synced), run[..n]).value;
    if l.Task? && l.conn == c {
      PcOfRun(cfg, synced, run[..n], p, c);
      StepIsTrue(cfg, p.shared, p.conns[c], l.act, LocalStep(cfg, p.shared, p.conns[c], l.act).value);
      RequestPending(cfg, synced, run, s, c);
      j := n;
    } else {
      NotMoved(cfg, p, l, s, c);
      j := PendingReplyIsTrue(cfg, synced, run[..n], p, c);
      assert run[..n][..j] == run[..j];
    }
  }

  lemma RequestPending(cfg: Config, synced: bool, run: Run, s: State, c: ConnId)
    requires Reaches(cfg, synced, run, s) && c in s.conns && Sending(s.conns[c])
    ensures Since(run, c) >= 0
  {
    LogInStep(cfg, synced, run, s, c);
    LastRequest(cfg, synced, run, c);
  }

  /**
   Every reply a connection has received was true when it was decided on, between the step that took
   its request and the step that sent it: refusals name the reason there was, grants had none against
   them, and counts and records are those of the tables.
   */
  lemma EveryReplyWasTrue(cfg: Config, synced: bool, run: Run, c: ConnId, k: nat) returns (j: int, i: int)
    requires cfg.crypto.Sound() && Exec(cfg, Init(synced), run).Some? && k < |LogOf(cfg, synced, run, c).replies|
    ensures SentAt(cfg, synced, run, c, k, i) && c in Exec(cfg, Init(synced), run[..i]).value.conns
    ensures DecidedAt(cfg, synced, run[..i], j, c, Exec(cfg, Init(synced), run[..i]).value.conns[c])
  {
    i := WasSent(cfg, synced, run, c, k);
    j := PendingReplyIsTrue(cfg, synced, run[..i], Exec(cfg, Init(synced), run[..i]).value, c);
  }

  // ----- Failed signing -----

  /** Whatever happens to a refund, the client is told that the operation failed. */
  lemma RefundEndsInReply(cfg: Config, sh: Shared, pc: Pc, act: Action, o: Outcome)
    requires Refunding(pc) && LocalStep(cfg, sh, pc, act) == Some(o)
    ensures (Refunding(o.pc) && o.pc.user == pc.user) || o.pc == SessionReply(pc.user, OperationError, false)
  {
  }

  predicate Sorry(pc: Pc) {
    Refunding(pc) || (pc.SessionReply? && pc.response.OperationError?)
  }

  predicate SorryForReason(pc: Pc, act: Action, o: Outcome) {
    Sorry(o.pc) ==> (Sorry(pc) || act.SignFails?) && !act.Fetched?
  }

  lemma GuestSorry(cfg: Config, sh: Shared, pc: Pc, act: Action, o: Outcome)
    requires GuestStep(cfg, sh, pc, act) == Some(o)
    ensures SorryForReason(pc, act, o)
  {
  }

  lemma SessionSorry(sh: Shared, pc: Pc, act: Action, o: Outcome)
    requires SessionStep(sh, pc, act) == Some(o)
    ensures SorryForReason(pc, act, o)
  {
  }

  lemma TokenSorry(sh: Shared, pc: Pc, act: Action, o: Outcome)
    requires TokenStep(sh, pc, act) == Some(o)
    ensures SorryForReason(pc, act, o)
  {
  }

  lemma StampSorry(cfg: Config, sh: Shared, pc: Pc, act: Action, o: Outcome)
    requires StampStep(cfg, sh, pc, act) == Some(o)
    ensures SorryForReason(pc, act, o)
  {
  }

  lemma QuerySorry(sh: Shared, pc: Pc, act: Action, o: Outcome)
    requires QueryStep(sh, pc, act) == Some(o)
    ensures SorryForReason(pc, act, o)
  {
  }

  lemma SorryAfterSignFails(cfg: Config, sh: Shared, pc: Pc, act: Action, o: Outcome)
    requires LocalStep(cfg, sh, pc, act) == Some(o) && Sorry(o.pc)
    ensures Sorry(pc) || act.SignFails?
    ensures !act.Fetched?
  {
    match pc.Part() {
      case Guest => GuestSorry(cfg, sh, pc, act, o);
      case Session => SessionSorry(sh, pc, act, o);
      case TokenTx => TokenSorry(sh, pc, act, o);
      case Stamp => StampSorry(cfg, sh, pc, act, o);
      case Query => QuerySorry(sh, pc, act, o);
      case Done =>
    }
  }

  /** A session is told that the operation failed only if signing failed for that very request. */
  lemma {:induction false} SorryOnlyIfSigningFailed(cfg: Config, synced: bool, run: Run, s: State, c: ConnId)
    returns (i: int)
    requires Reaches(cfg, synced, run, s) && c in s.conns && Sorry(s.conns[c])
    ensures Since(run, c) < i < |run| && run[i] == Task(c, SignFails)
    decreases |run|
  {
    var n := |run| - 1;
    var l, p := run[n], Exec(cfg, Init(synced), run[..n]).value;
    if l.Task? && l.conn == c {
      SorryAfterSignFails(cfg, p.shared, p.conns[c], l.act, LocalStep(cfg, p.shared, p.conns[c], l.act).value);
    } else {
      NotMoved(cfg, p, l, s, c);
    }
    if l == Task(c, SignFails) {
      i := n;
    } else {
      i := SorryOnlyIfSigningFailed(cfg, synced, run[..n], p, c);
    }
  }

  // ----- What stops the server, and what a restart leaves -----

  /** The worker's end, and nothing else that happens to it, cancels the server. */
  lemma WorkerEndCancels(cfg: Config, s: State, e: Clock.SyncEvent, s': State)
    requires Step(cfg, s, Sync(e)) == Some(s')
    ensures s.syncing && s'.syncing == !Clock.EndsWorker(e)
    ensures s'.shared.cancelled == (s.shared.cancelled || Clock.EndsWorker(e))
    ensures s'.conns == s.conns && s'.phase == s.phase && s'.shared.users == s.shared.users
    ensures s'.shared.history == s.shared.history && s'.shared.logged == s.shared.logged
  {
    if e.Reply? { Clock.WorkerOffsetNeverOverflows(e.secs, e.nanos, e.local); }
  }

  predicate Stops(l: Label) {
    l.Cancel? || (l.Sync? && Clock.EndsWorker(l.event))
  }

  /** Step i stops the server, and the process is not started again since. */
  predicate StoppedAt(run: Run, i: int) {
    0 <= i < |run| && Stops(run[i]) && forall j :: i < j < |run| ==> !run[j].Restart?
  }

  lemma StepCancels(cfg: Config, s: State, l: Label, s': State)
    requires Step(cfg, s, l) == Some(s')
    ensures s'.shared.cancelled == (!l.Restart? && (s.shared.cancelled || Stops(l)))
  {
    if l.Sync? {
      WorkerEndCancels(cfg, s, l.event, s');
    } else if l.Task? {
      OriginOfStep(cfg, s.shared, s.conns[l.conn], l.act, LocalStep(cfg, s.shared, s.conns[l.conn], l.act).value);
    }
  }

  /** The server is cancelled exactly if it was told to stop, or its time worker ended, since the last start. */
  lemma {:induction false} CancelledExactly(cfg: Config, synced: bool, run: Run, s: State)
    requires Reaches(cfg, synced, run, s)
    ensures s.shared.cancelled <==> exists i :: StoppedAt(run, i)
    decreases |run|
  {
    if run != [] {
      var n := |run| - 1;
      var p := Exec(cfg, Init(synced), run[..n]).value;
      CancelledExactly(cfg, synced, run[..n], p);
      StepCancels(cfg, p, run[n], s);
      StoppedLonger(run, n);
    }
  }

  lemma StoppedLonger(run: Run, n: nat)
    requires n == |run| - 1
    ensures (exists i :: StoppedAt(run, i)) <==>
            !run[n].Restart? && (Stops(run[n]) || exists i :: StoppedAt(run[..n], i))
  {
    if i :| StoppedAt(run, i) {
      assert i < n ==> StoppedAt(run[..n], i);
    }
    if i :| StoppedAt(run[..n], i) {
      assert !run[n].Restart? ==> StoppedAt(run, i);
    }
    assert Stops(run[n]) ==> StoppedAt(run, n);
  }

  /** A process that is started again keeps the two tables and nothing else. */
  lemma RestartIsFresh(cfg: Config, s: State, synced: bool, s': State)
    requires Step(cfg, s, Restart(synced)) == Some(s')
    ensures s'.shared.users == s.shared.users && s'.shared.history == s.shared.history
    ensures s'.shared.logged == {} && s'.shared.offset == 0 && !s'.shared.cancelled
    ensures s'.conns == map[] && s'.phase.Accepting? && s'.syncing == synced
  {
  }
}
