/**
 The server as a labelled transition system over any number of connections.

 A program counter records where a connection's task stands between two accesses to shared state
 (server/src/connection_handler.rs). One step of a task is one such access; everything the
 environment decides (which request arrives, whether SQL, signing or sending succeeds, what the
 clock reads) is part of the step's label.
 */
module Machine {
  import opened Wrappers
  import opened MachineInts
  import opened Bytes
  import opened ServerProtocol
  import opened Database
  import Clock = TimeOracle

  // ----- Shared state -----

  /** The database tables, the set of logged-in usernames, the clock offset and the cancel token. */
  datatype Shared = Shared(
    users: Users,
    history: map<Text, UserHistory>,
    logged: set<Text>,
    offset: i64,
    cancelled: bool)
  {
    function HistoryOf(u: Text): UserHistory {
      if u in history then history[u] else map[]
    }

    function Balance(u: Text): int {
      if u in users then users[u].availableTokens else 0
    }
  }

  /** What one task step does to the shared state. */
  datatype Effect =
    | Nothing
    | Register(user: Text, row: UserRow)
    | AddTokens(user: Text, delta: int)
    | AddRecord(user: Text, key: Blob, hash: Blob)
    | Lock(user: Text)
    | Unlock(user: Text)

  function Apply(sh: Shared, e: Effect): Shared {
    match e
    case Nothing => sh
    case Register(u, row) => sh.(users := sh.users[u := row])
    case AddTokens(u, delta) =>
      if u in sh.users
      then sh.(users := sh.users[u := sh.users[u].(availableTokens := sh.users[u].availableTokens + delta)])
      else sh
    case AddRecord(u, key, hash) => sh.(history := sh.history[u := sh.HistoryOf(u)[key := hash]])
    case Lock(u) => sh.(logged := sh.logged + {u})
    case Unlock(u) => sh.(logged := sh.logged - {u})
  }

  // ----- One connection -----

  /** The three uses of the token transactions of server/src/database.rs. */
  datatype TokenOp = Debit(hash: Sha256Hash) | Buy(amount: i64) | Refund

  function Delta(op: TokenOp): int {
    match op
    case Debit(_) => -1
    case Buy(n) => n
    case Refund => 1
  }

  datatype Fault =
    | Handshake | Network | Serialize | Sql | Hashing
    | StoredHashMalformed | UserMissing | IntegrityViolation | ClockStaggered

  datatype Exit = Interrupted | ClientAsked | Failed(fault: Fault)

  datatype AfterSession = BackToGuest | Leave(exit: Exit)

  datatype Part = Guest | Session | TokenTx | Stamp | Query | Done

  /** Where a connection's task stands. */
  datatype Pc =
    | Shaking
    | GuestIdle
    | Verifying(user: Text, password: Text)
    | Verified(user: Text)
    | Registering(user: Text, password: Text)
    | GuestReply(response: Response, started: Option<Text>)
    | SessionIdle(user: Text)
    | TxSelect(user: Text, op: TokenOp)
    | TxCommit(user: Text, op: TokenOp, seen: i64)
    | ReadClock(user: Text, hash: Sha256Hash)
    | Signing(user: Text, hash: Sha256Hash, timestamp: Timestamp)
    | Recording(user: Text, hash: Sha256Hash, timestamp: Timestamp, sign: RsaSignature)
    | Counting(user: Text)
    | ReadHistory(user: Text)
    | SessionReply(user: Text, response: Response, logout: bool)
    | Unlocking(user: Text, next: AfterSession)
    | Closed(exit: Exit)
  {
    /** The piece of code the task is in. */
    function Part(): Part {
      match this
      case SessionIdle(_) => Session
      case SessionReply(_, _, _) => Session
      case Unlocking(_, _) => Session
      case TxSelect(_, _) => TokenTx
      case TxCommit(_, _, _) => TokenTx
      case ReadClock(_, _) => Stamp
      case Signing(_, _, _) => Stamp
      case Recording(_, _, _, _) => Stamp
      case Counting(_) => Query
      case ReadHistory(_) => Query
      case Closed(_) => Done
      case _ => Guest
    }

    /** The username this task has inserted into the logged-in set and not yet removed. */
    function Holds(): Option<Text> {
      match this
      case GuestReply(_, started) => started
      case SessionIdle(u) => Some(u)
      case TxSelect(u, _) => Some(u)
      case TxCommit(u, _, _) => Some(u)
      case ReadClock(u, _) => Some(u)
      case Signing(u, _, _) => Some(u)
      case Recording(u, _, _, _) => Some(u)
      case Counting(u) => Some(u)
      case ReadHistory(u) => Some(u)
      case SessionReply(u, _, _) => Some(u)
      case Unlocking(u, _) => Some(u)
      case _ => None
    }

    /** The user whose debited token is neither spent on a record, refunded nor lost yet. */
    function InFlight(): Option<Text> {
      match this
      case ReadClock(u, _) => Some(u)
      case Signing(u, _, _) => Some(u)
      case Recording(u, _, _, _) => Some(u)
      case TxSelect(u, Refund) => Some(u)
      case TxCommit(u, Refund, _) => Some(u)
      case _ => None
    }
  }

  /** What happens to a task at the access it is waiting for. */
  datatype Action =
    | ShakeDone | ShakeFails
    | Fetched(request: Request) | StreamEnds | Interrupt | FetchFails
    | SqlFails | HashFails
    | PasswordRead | TakeLock | InsertUser(salt: Blob)
    | Select | Commit
    | ReadTime(local: Clock.SystemTime)
    | SignDone | SignFails
    | InsertRecord
    | RowsRead(rows: seq<Row>)
    | SerializeFails | SendFails | Sent
    | ReleaseLock

  /** The libraries the server is linked with. */
  datatype Config = Config(crypto: Crypto, asI32: int -> Option<int>)

  datatype Outcome = Outcome(pc: Pc, effect: Effect)

  /** The request dispatch of `conn_handler_core`. */
  function GuestDispatch(request: Request): (pc: Pc) {
    match request
    case Login(u, p) =>
      if CredentialsFit(u, p) then Verifying(u, p)
      else GuestReply(LoginFailed(InvalidCredentials), None)
    case SignUp(u, p) =>
      if CredentialsFit(u, p) then Registering(u, p)
      else GuestReply(OperationError, None)
    case _ => GuestReply(NotLoggedIn, None)
  }

  /** The request dispatch of `session_handler`. */
  function SessionDispatch(u: Text, request: Request): (pc: Pc) {
    match request
    case Login(_, _) => SessionReply(u, LoginFailed(AlreadyLoggedIn), false)
    case SignUp(_, _) => SessionReply(u, SignInFailed(SessionOpen), false)
    case LogOut => SessionReply(u, Okay, true)
    case SignHash(h) => TxSelect(u, Debit(h))
    case PurchaseTokens(n) =>
      (match I64FromU64(n)
       case Some(amount) => TxSelect(u, Buy(amount))
       case None => SessionReply(u, TokenAmountTooHigh, false))
    case HowManyTokensDoIHave => Counting(u)
    case History => ReadHistory(u)
  }

  function VerifyOutcome(cfg: Config, users: Users, u: Text, p: Text): (pc: Pc) {
    if u !in users then GuestReply(LoginFailed(InvalidCredentials), None)
    else match cfg.crypto.argonVerify(p, users[u].passwordHash)
      case Malformed => Closed(Failed(StoredHashMalformed))
      case Mismatch => GuestReply(LoginFailed(InvalidCredentials), None)
      case Match => Verified(u)
  }

  /** A refund that fails is only logged; the other two operations report the fault to the caller. */
  function TxFault(u: Text, op: TokenOp, fault: Fault): (pc: Pc) {
    if op.Refund? then SessionReply(u, OperationError, false) else Unlocking(u, Leave(Failed(fault)))
  }

  /** The balance check made on the value the SELECT returned. */
  function TxCheck(u: Text, op: TokenOp, seen: i64): (pc: Pc) {
    match op
    case Debit(_) =>
      var left := CheckedSubI64(seen, 1);
      if left == None || left.value < 0 then SessionReply(u, NotEnoughTokens, false) else TxCommit(u, op, seen)
    case Buy(n) =>
      if CheckedAddI64(seen, n) == None then SessionReply(u, TokenAmountTooHigh, false) else TxCommit(u, op, seen)
    case Refund =>
      if CheckedAddI64(seen, 1) == None then SessionReply(u, OperationError, false) else TxCommit(u, op, seen)
  }

  /** After the commit; the count reported for a purchase is computed from the value that was read. */
  function TxDone(u: Text, op: TokenOp, seen: i64): (pc: Pc) {
    match op
    case Debit(h) => ReadClock(u, h)
    case Buy(n) =>
      (match CheckedAddI64(seen, n)
       case Some(sum) => SessionReply(u, TokenCount(AsU64(sum)), false)
       case None => SessionReply(u, TokenAmountTooHigh, false))
    case Refund => SessionReply(u, OperationError, false)
  }

  /** SQLite can hand the column to the program as an i64. */
  predicate Readable(users: Users, u: Text) {
    u in users ==> I64_MIN <= users[u].availableTokens <= I64_MAX
  }

  /** CHECK (available_tokens >= 0) on the row an UPDATE would write. */
  predicate CheckHolds(users: Users, u: Text, op: TokenOp) {
    u in users ==> users[u].availableTokens + Delta(op) >= 0
  }

  function CountOutcome(users: Users, u: Text): (pc: Pc)
    requires Readable(users, u)
  {
    if u !in users then Unlocking(u, Leave(Failed(UserMissing)))
    else if users[u].availableTokens < 0 then Unlocking(u, Leave(Failed(IntegrityViolation)))
    else SessionReply(u, TokenCount(users[u].availableTokens), false)
  }

  function HistoryOutcome(users: Users, u: Text, rows: seq<Row>): (pc: Pc) {
    if u !in users then Unlocking(u, Leave(Failed(UserMissing)))
    else match DecodeRows(rows)
      case Err(_) => Unlocking(u, Leave(Failed(IntegrityViolation)))
      case Ok(records) => SessionReply(u, Records(records), false)
  }

  function EndOfStream(cancelled: bool): Exit {
    if cancelled then Interrupted else ClientAsked
  }

  function Go(pc: Pc): Option<Outcome> {
    Some(Outcome(pc, Nothing))
  }

  // The steps a task can take, by where it stands. None means that the action cannot happen there.

  function ShakeStep(act: Action): Option<Outcome> {
    if act.ShakeDone? then Go(GuestIdle)
    else if act.ShakeFails? then Go(Closed(Failed(Handshake)))
    else None
  }

  function GuestIdleStep(cancelled: bool, act: Action): Option<Outcome> {
    if act.Fetched? then Go(GuestDispatch(act.request))
    else if act.StreamEnds? then Go(Closed(EndOfStream(cancelled)))
    else if act.Interrupt? && cancelled then Go(Closed(Interrupted))
    else if act.FetchFails? then Go(Closed(Failed(Network)))
    else None
  }

  function VerifyStep(cfg: Config, users: Users, u: Text, p: Text, act: Action): Option<Outcome> {
    if act.PasswordRead? then Go(VerifyOutcome(cfg, users, u, p))
    else if act.SqlFails? then Go(Closed(Failed(Sql)))
    else None
  }

  /** `logged_users.insert` reports whether the username was new. */
  function LockStep(logged: set<Text>, u: Text, act: Action): Option<Outcome> {
    if !act.TakeLock? then None
    else if u in logged then Go(GuestReply(LoginFailed(AlreadyLoggedIn), None))
    else Some(Outcome(GuestReply(Okay, Some(u)), Lock(u)))
  }

  function RegisterStep(cfg: Config, users: Users, u: Text, p: Text, act: Action): Option<Outcome> {
    if act.InsertUser? then
      if u in users then Go(GuestReply(SignInFailed(UsernameAlreadyTaken), None))
      else Some(Outcome(GuestReply(Okay, None), Register(u, UserRow(cfg.crypto.argonHash(p, act.salt), 0))))
    else if act.SqlFails? then Go(Closed(Failed(Sql)))
    else if act.HashFails? then Go(Closed(Failed(Hashing)))
    else None
  }

  function GuestReplyStep(started: Option<Text>, act: Action): Option<Outcome> {
    if act.SerializeFails? then Go(Closed(Failed(Serialize)))
    else if act.SendFails? then Go(Closed(Failed(Network)))
    else if act.Sent? then Go(if started.Some? then SessionIdle(started.value) else GuestIdle)
    else None
  }

  function SessionIdleStep(cancelled: bool, u: Text, act: Action): Option<Outcome> {
    if act.Fetched? then Go(SessionDispatch(u, act.request))
    else if act.StreamEnds? then Go(Unlocking(u, Leave(EndOfStream(cancelled))))
    else if act.Interrupt? && cancelled then Go(Unlocking(u, Leave(Interrupted)))
    else if act.FetchFails? then Go(Unlocking(u, Leave(Failed(Network))))
    else None
  }

  function SelectStep(users: Users, u: Text, op: TokenOp, act: Action): Option<Outcome> {
    if act.Select? && Readable(users, u) then
      Go(if u in users then TxCheck(u, op, users[u].availableTokens) else TxFault(u, op, UserMissing))
    else if act.SqlFails? then Go(TxFault(u, op, Sql))
    else None
  }

  /** The UPDATE adds to the stored balance, whatever the SELECT saw. */
  function CommitStep(users: Users, u: Text, op: TokenOp, seen: i64, act: Action): Option<Outcome> {
    if act.Commit? && CheckHolds(users, u, op) then Some(Outcome(TxDone(u, op, seen), AddTokens(u, Delta(op))))
    else if act.SqlFails? then Go(TxFault(u, op, Sql))
    else None
  }

  function ClockStep(offset: i64, u: Text, h: Sha256Hash, act: Action): Option<Outcome> {
    if !act.ReadTime? then None
    else match Clock.Issue(offset, act.local)
      case Some(ts) => Go(Signing(u, h, ts))
      case None => Go(Unlocking(u, Leave(Failed(ClockStaggered))))
  }

  function SignStep(cfg: Config, u: Text, h: Sha256Hash, ts: Timestamp, act: Action): Option<Outcome> {
    var signed := cfg.crypto.rsaSign(cfg.crypto.Bind(h, ts));
    if act.SignDone? && signed.Some? then Go(Recording(u, h, ts, signed.value))
    else if act.SignFails? then Go(TxSelect(u, Refund))
    else None
  }

  /** A second record under one (username, timestamp) key violates the primary key: only SqlFails is left. */
  function RecordStep(sh: Shared, u: Text, h: Sha256Hash, ts: Timestamp, sign: RsaSignature, act: Action)
    : Option<Outcome>
  {
    if act.InsertRecord? && u !in sh.users then Go(Unlocking(u, Leave(Failed(UserMissing))))
    else if act.InsertRecord? && ToBeBytes(ts) !in sh.HistoryOf(u) then
      Some(Outcome(SessionReply(u, Token(h, sign, ts), false), AddRecord(u, ToBeBytes(ts), sign)))
    else if act.SqlFails? then Go(Unlocking(u, Leave(Failed(Sql))))
    else None
  }

  function CountStep(users: Users, u: Text, act: Action): Option<Outcome> {
    if act.Select? && Readable(users, u) then Go(CountOutcome(users, u))
    else if act.SqlFails? then Go(Unlocking(u, Leave(Failed(Sql))))
    else None
  }

  ghost function HistoryStep(sh: Shared, u: Text, act: Action): Option<Outcome> {
    if act.RowsRead? && (u in sh.users ==> IsQueryResult(sh.HistoryOf(u), HISTORY_LIMIT, act.rows)) then
      Go(HistoryOutcome(sh.users, u, act.rows))
    else if act.SqlFails? then Go(Unlocking(u, Leave(Failed(Sql))))
    else None
  }

  function SessionReplyStep(u: Text, logout: bool, act: Action): Option<Outcome> {
    if act.SerializeFails? then Go(Unlocking(u, Leave(Failed(Serialize))))
    else if act.SendFails? then Go(Unlocking(u, Leave(Failed(Network))))
    else if act.Sent? then Go(if logout then Unlocking(u, BackToGuest) else SessionIdle(u))
    else None
  }

  /** `logged_users.remove`, on every way out of a session. */
  function UnlockStep(u: Text, next: AfterSession, act: Action): Option<Outcome> {
    if !act.ReleaseLock? then None
    else Some(Outcome(if next.BackToGuest? then GuestIdle else Closed(next.exit), Unlock(u)))
  }

  // The same steps grouped as the code is.

  /** `conn_handler_core`, outside a session. */
  function GuestStep(cfg: Config, sh: Shared, pc: Pc, act: Action): Option<Outcome> {
    if pc.Shaking? then ShakeStep(act)
    else if pc.GuestIdle? then GuestIdleStep(sh.cancelled, act)
    else if pc.Verifying? then VerifyStep(cfg, sh.users, pc.user, pc.password, act)
    else if pc.Verified? then LockStep(sh.logged, pc.user, act)
    else if pc.Registering? then RegisterStep(cfg, sh.users, pc.user, pc.password, act)
    else if pc.GuestReply? then GuestReplyStep(pc.started, act)
    else None
  }

  /** `session_handler` between requests, and the way out of it. */
  function SessionStep(sh: Shared, pc: Pc, act: Action): Option<Outcome> {
    if pc.SessionIdle? then SessionIdleStep(sh.cancelled, pc.user, act)
    else if pc.SessionReply? then SessionReplyStep(pc.user, pc.logout, act)
    else if pc.Unlocking? then UnlockStep(pc.user, pc.next, act)
    else None
  }

  /** `add_user_tokens` and `subtract_user_tokens`. */
  function TokenStep(sh: Shared, pc: Pc, act: Action): Option<Outcome> {
    if pc.TxSelect? then SelectStep(sh.users, pc.user, pc.op, act)
    else if pc.TxCommit? then CommitStep(sh.users, pc.user, pc.op, pc.seen, act)
    else None
  }

  /** Clock, signature and record of a request to sign. */
  function StampStep(cfg: Config, sh: Shared, pc: Pc, act: Action): Option<Outcome> {
    if pc.ReadClock? then ClockStep(sh.offset, pc.user, pc.hash, act)
    else if pc.Signing? then SignStep(cfg, pc.user, pc.hash, pc.timestamp, act)
    else if pc.Recording? then RecordStep(sh, pc.user, pc.hash, pc.timestamp, pc.sign, act)
    else None
  }

  /** `get_user_tokens` and `get_user_history`. */
  ghost function QueryStep(sh: Shared, pc: Pc, act: Action): Option<Outcome> {
    if pc.Counting? then CountStep(sh.users, pc.user, act)
    else if pc.ReadHistory? then HistoryStep(sh, pc.user, act)
    else None
  }

  /** One step of a task. */
  ghost function LocalStep(cfg: Config, sh: Shared, pc: Pc, act: Action): Option<Outcome> {
    match pc.Part()
    case Guest => GuestStep(cfg, sh, pc, act)
    case Session => SessionStep(sh, pc, act)
    case TokenTx => TokenStep(sh, pc, act)
    case Stamp => StampStep(cfg, sh, pc, act)
    case Query => QueryStep(sh, pc, act)
    case Done => None
  }

  // ----- The whole server -----

  type ConnId = nat

  /** `accept_loop`: accepting, waiting for the tracked tasks, returned. */
  datatype Phase = Accepting | Draining | Returned

  datatype State = State(shared: Shared, conns: map<ConnId, Pc>, phase: Phase, syncing: bool)

  datatype Label =
    | Accept(conn: ConnId)
    | Task(conn: ConnId, act: Action)
    | Cancel
    | StopAccepting
    | AllDone
    | Sync(event: Clock.SyncEvent)
    | Restart(synced: bool)

  function Init(synced: bool): State {
    State(Shared(map[], map[], {}, 0, false), map[], Accepting, synced)
  }

  ghost function TaskStep(cfg: Config, s: State, c: ConnId, act: Action): Option<State> {
    if c !in s.conns then None
    else match LocalStep(cfg, s.shared, s.conns[c], act)
      case None => None
      case Some(o) => Some(s.(shared := Apply(s.shared, o.effect), conns := s.conns[c := o.pc]))
  }

  /** One turn of the time worker; a turn that ends the worker cancels the server. */
  function SyncStep(s: State, e: Clock.SyncEvent): Option<State> {
    if !s.syncing then None
    else match Clock.Turn(Clock.Running(s.shared.offset), e)
      case Running(offset) => Some(s.(shared := s.shared.(offset := offset)))
      case Stopped(_, _) => Some(s.(shared := s.shared.(cancelled := true), syncing := false))
  }

  ghost function Step(cfg: Config, s: State, l: Label): Option<State> {
    match l
    case Accept(c) =>
      if s.phase.Accepting? && c !in s.conns then Some(s.(conns := s.conns[c := Shaking])) else None
    case Task(c, act) => TaskStep(cfg, s, c, act)
    case Cancel => Some(s.(shared := s.shared.(cancelled := true)))
    case StopAccepting =>
      if s.phase.Accepting? && s.shared.cancelled then Some(s.(phase := Draining)) else None
    case AllDone =>
      if s.phase.Draining? && forall c :: c in s.conns ==> s.conns[c].Closed? then Some(s.(phase := Returned))
      else None
    case Sync(e) => SyncStep(s, e)
    case Restart(synced) =>
      // The process stops anywhere and is started again on the database it left, if the audit passes.
      if Auditable(s.shared.users, cfg.asI32)
      then Some(State(Shared(s.shared.users, s.shared.history, {}, 0, false), map[], Accepting, synced))
      else None
  }

  // ----- Runs -----

  type Run = seq<Label>

  /** The state after a run, or None if some label could not happen. */
  ghost function Exec(cfg: Config, start: State, run: Run): Option<State>
    decreases |run|
  {
    if run == [] then Some(start)
    else match Exec(cfg, start, run[..|run| - 1])
      case None => None
      case Some(s) => Step(cfg, s, run[|run| - 1])
  }

  ghost predicate Reaches(cfg: Config, synced: bool, run: Run, s: State) {
    Exec(cfg, Init(synced), run) == Some(s)
  }

  lemma ExecSnoc(cfg: Config, start: State, run: Run, l: Label)
    ensures Exec(cfg, start, run + [l]) ==
            match Exec(cfg, start, run) case None => None case Some(s) => Step(cfg, s, l)
  {
    assert (run + [l])[..|run|] == run;
  }

  /** A run extended by one step of a task. */
  lemma ExecTask(cfg: Config, start: State, run: Run, s: State, c: ConnId, act: Action, pc: Pc, e: Effect)
    requires Exec(cfg, start, run) == Some(s) && c in s.conns
    requires LocalStep(cfg, s.shared, s.conns[c], act) == Some(Outcome(pc, e))
    ensures Exec(cfg, start, run + [Task(c, act)]) == Some(s.(shared := Apply(s.shared, e), conns := s.conns[c := pc]))
  {
    ExecSnoc(cfg, start, run, Task(c, act));
  }

  lemma ExecOne(cfg: Config, start: State, l: Label)
    ensures Exec(cfg, start, [l]) == Step(cfg, start, l)
  {
    assert [l][..0] == [];
  }

  /** Every prefix of a run is a run. */
  lemma {:induction false} ExecPrefix(cfg: Config, start: State, run: Run, n: nat)
    requires n <= |run| && Exec(cfg, start, run).Some?
    ensures Exec(cfg, start, run[..n]).Some?
    decreases |run|
  {
    if n == |run| {
      assert run[..n] == run;
    } else {
      assert run[..|run| - 1][..n] == run[..n];
      ExecPrefix(cfg, start, run[..|run| - 1], n);
    }
  }

  lemma {:induction false} ExecConcat(cfg: Config, start: State, first: Run, second: Run)
    requires Exec(cfg, start, first).Some?
    ensures Exec(cfg, start, first + second) == Exec(cfg, Exec(cfg, start, first).value, second)
    decreases |second|
  {
    if second == [] {
      assert first + second == first;
    } else {
      var n := |second| - 1;
      ExecConcat(cfg, start, first, second[..n]);
      ExecSnoc(cfg, start, first + second[..n], second[n]);
      assert first + second[..n] + [second[n]] == first + second;
      ExecSnoc(cfg, Exec(cfg, start, first).value, second[..n], second[n]);
      assert second[..n] + [second[n]] == second;
    }
  }
}
