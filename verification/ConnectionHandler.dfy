/**
 The code of one connection's task, in the form it is written in: `conn_handler_core` and
 `session_handler` as loops over shared state, with the database operations they call
 (server/src/connection_handler.rs, server/src/database.rs).

 At every access to shared state the rest of the server may first take any steps of its own; a
 script says which, and how the awaited operation then ends. The methods are proved to follow the
 transition system whatever the script, so what is proved of its runs holds of this code.
 */
module ConnectionHandler {
  import opened Wrappers
  import opened MachineInts
  import opened Bytes
  import opened ServerProtocol
  import opened Database
  import opened Machine
  import opened Safety
  import Clock = TimeOracle

  /** What the others do while the task waits, where that leads, and what the task then meets. */
  datatype TaskTurn = TaskTurn(others: Run, after: State, act: Action)

  /** No step of c itself, and the process goes on. */
  predicate NotOf(others: Run, c: ConnId) {
    forall i :: 0 <= i < |others| ==> !others[i].Restart? && !(others[i].Task? && others[i].conn == c)
  }

  /** The script is one the server can follow from s. */
  ghost predicate TaskPlays(cfg: Config, s: State, c: ConnId, script: seq<TaskTurn>)
    decreases |script|
  {
    script == [] ||
    var t := script[0];
    && Exec(cfg, s, t.others) == Some(t.after) && NotOf(t.others, c)
    && TaskStep(cfg, t.after, c, t.act).Some?
    && TaskPlays(cfg, TaskStep(cfg, t.after, c, t.act).value, c, script[1..])
  }

  /** The steps a script amounts to, those of the others and those of c. */
  function Labels(c: ConnId, script: seq<TaskTurn>): Run {
    if script == [] then [] else script[0].others + [Task(c, script[0].act)] + Labels(c, script[1..])
  }

  /** Nobody else moves a task. */
  lemma {:induction false} OthersLeaveTask(cfg: Config, s: State, c: ConnId, others: Run)
    requires Exec(cfg, s, others).Some? && NotOf(others, c) && c in s.conns
    ensures c in Exec(cfg, s, others).value.conns && Exec(cfg, s, others).value.conns[c] == s.conns[c]
    decreases |others|
  {
    if others != [] {
      OthersLeaveTask(cfg, s, c, others[..|others| - 1]);
    }
  }

  /** A task that has ended has no more turns. */
  lemma ClosedEnds(cfg: Config, s: State, c: ConnId, script: seq<TaskTurn>)
    requires TaskPlays(cfg, s, c, script) && c in s.conns && s.conns[c].Closed?
    ensures script == []
  {
    if script != [] {
      OthersLeaveTask(cfg, s, c, script[0].others);
    }
  }

  /** The balance a commit finds is the one its SELECT saw. */
  lemma CommitFindsSeen(cfg: Config, synced: bool, trace: Run, s: State, c: ConnId, u: Text, op: TokenOp, seen: i64)
    requires cfg.crypto.Sound() && Reaches(cfg, synced, trace, s) && c in s.conns && s.conns[c] == TxCommit(u, op, seen)
    ensures u in s.shared.users && s.shared.users[u].availableTokens == seen && 0 <= seen + Delta(op)
  {
    PcOfRun(cfg, synced, trace, s, c);
  }

  /** A session never fails because the database contradicts the program. */
  lemma FailsCleanly(cfg: Config, synced: bool, trace: Run, s: State, c: ConnId, u: Text, f: Fault)
    requires cfg.crypto.Sound() && Reaches(cfg, synced, trace, s) && c in s.conns
    requires s.conns[c] == Unlocking(u, Leave(Failed(f)))
    ensures !Internal(f)
  {
    PcOfRun(cfg, synced, trace, s, c);
  }

  /** The history a session is about to send is the user's. */
  lemma HistoryIsShown(cfg: Config, synced: bool, trace: Run, s: State, c: ConnId, u: Text, records: seq<HistoryRecord>)
    requires cfg.crypto.Sound() && Reaches(cfg, synced, trace, s) && c in s.conns
    requires s.conns[c] == SessionReply(u, Records(records), false)
    ensures u in s.shared.users && Shows(s.shared, u, records)
    ensures |records| == if |s.shared.HistoryOf(u)| >= 100 then 100 else |s.shared.HistoryOf(u)|
  {
    PcOfRun(cfg, synced, trace, s, c);
    LatestIsLatest(Numeric(s.shared.HistoryOf(u)), HISTORY_LIMIT);
    NumericSize(s.shared.HistoryOf(u));
  }

  /** What has happened is a run of the transition system, and the script continues it as planned. */
  ghost predicate Follows(cfg: Config, synced: bool, plan: Run, trace: Run, s: State, c: ConnId,
                          script: seq<TaskTurn>)
  {
    && Reaches(cfg, synced, trace, s) && c in s.conns && TaskPlays(cfg, s, c, script)
    && trace + Labels(c, script) == plan
  }

  /** In the middle of a step: the others have moved, the outcome of the awaited operation is known. */
  ghost predicate MidStep(cfg: Config, synced: bool, plan: Run, trace: Run, s: State, c: ConnId, script: seq<TaskTurn>,
                          pc: Pc, act: Action)
  {
    && trace + [Task(c, act)] + Labels(c, script) == plan
    && Reaches(cfg, synced, trace, s)
    && c in s.conns && s.conns[c] == pc
    && LocalStep(cfg, s.shared, pc, act).Some?
    && TaskPlays(cfg, TaskStep(cfg, s, c, act).value, c, script)
  }

  lemma TurnBegins(cfg: Config, synced: bool, plan: Run, trace: Run, s: State, c: ConnId, script: seq<TaskTurn>)
    requires Follows(cfg, synced, plan, trace, s, c, script) && script != []
    ensures var t := script[0];
            MidStep(cfg, synced, plan, trace + t.others, t.after, c, script[1..], s.conns[c], t.act)
  {
    var t := script[0];
    OthersLeaveTask(cfg, s, c, t.others);
    ExecConcat(cfg, Init(synced), trace, t.others);
    assert trace + Labels(c, script) == trace + t.others + [Task(c, t.act)] + Labels(c, script[1..]);
  }

  lemma TurnEnds(cfg: Config, synced: bool, plan: Run, trace: Run, s: State, c: ConnId, script: seq<TaskTurn>,
                 pc: Pc, act: Action, next: Pc, e: Effect)
    requires MidStep(cfg, synced, plan, trace, s, c, script, pc, act)
    requires LocalStep(cfg, s.shared, pc, act) == Some(Outcome(next, e))
    ensures var s' := s.(shared := Apply(s.shared, e), conns := s.conns[c := next]);
            Follows(cfg, synced, plan, trace + [Task(c, act)], s', c, script)
  {
    ExecTask(cfg, Init(synced), trace, s, c, act, next, e);
  }

  /** An operation that has ended, or that waits beyond the end of the script. */
  datatype Poll<+T> = Pending | Ready(value: T)

  datatype Fetch = Got(request: Request) | StreamClosed | FetchError

  /** The next request, or how the stream ended. */
  datatype Arrival = Serve(request: Request) | Stop(exit: Exit)

  datatype TokenError = UserDoesNotExist | InsufficientTokens | TokenOverflow | InternalDataBase

  datatype AuthError = UserNotFound | InvalidPassword | AuthFault(fault: Fault)

  datatype RegisterError = UserAlreadyExists | RegisterFault(fault: Fault)

  datatype ClosedSession = LoggedOut | ClosedStream(reason: Exit)

  /** How the password p compares with what is stored for u. */
  predicate Checks(cfg: Config, users: Users, u: Text, p: Text, verdict: PasswordCheck) {
    u in users && cfg.crypto.argonVerify(p, users[u].passwordHash) == verdict
  }

  /** Nothing but a new row for u, with an empty account and a hash of p. */
  ghost predicate Registers(cfg: Config, before: Shared, after: Shared, u: Text, p: Text) {
    && u !in before.users
    && exists salt: Blob :: after == before.(users := before.users[u := UserRow(cfg.crypto.argonHash(p, salt), 0)])
  }

  /** Nothing but a new record of u under the bytes of ts. */
  predicate Inserts(before: Shared, after: Shared, u: Text, ts: Timestamp, sign: RsaSignature) {
    && u in before.users && ToBeBytes(ts) !in before.HistoryOf(u)
    && after == before.(history := before.history[u := before.HistoryOf(u)[ToBeBytes(ts) := sign]])
  }

  class Connection {
    const cfg: Config
    const synced: bool
    const self: ConnId

    /** The state all connections share: tables, logged-in usernames, clock offset, cancel token. */
    var shared: Shared

    var script: seq<TaskTurn>

    // The whole server as the transition system sees it, and the run that led there.
    ghost var world: State
    ghost var trace: Run
    /** What happens in all, by the end of the script. */
    ghost const plan: Run

    constructor (cfg: Config, synced: bool, self: ConnId, shared: Shared, script: seq<TaskTurn>,
                 ghost world: State, ghost trace: Run)
      requires world.shared == shared && Follows(cfg, synced, trace + Labels(self, script), trace, world, self, script)
      ensures At(world.conns[self]) && this.world == world && this.trace == trace && this.script == script
      ensures this.cfg == cfg && this.synced == synced && this.self == self && plan == trace + Labels(self, script)
    {
      this.cfg, this.synced, this.self, this.plan := cfg, synced, self, trace + Labels(self, script);
      this.shared, this.script, this.world, this.trace := shared, script, world, trace;
    }

    ghost predicate Valid()
      reads this
    {
      world.shared == shared && Follows(cfg, synced, plan, trace, world, self, script)
    }

    /** This task stands at pc. */
    ghost predicate At(pc: Pc)
      reads this
    {
      Valid() && world.conns[self] == pc
    }

    ghost predicate Awaited(pc: Pc, act: Action)
      reads this
    {
      world.shared == shared && MidStep(cfg, synced, plan, trace, world, self, script, pc, act)
    }

    /** The task's last step, with which the run ends, was taken on this shared state. */
    ghost predicate Found(found: Shared)
      reads this
    {
      && trace != [] && trace[|trace| - 1].Task? && trace[|trace| - 1].conn == self
      && Exec(cfg, Init(synced), trace[..|trace| - 1]).Some?
      && Exec(cfg, Init(synced), trace[..|trace| - 1]).value.shared == found
    }

    /** The run has grown by steps of the transition system and the script has not. */
    twostate predicate Onward()
      reads this
    {
      Valid() && old(trace) <= trace && |script| <= |old(script)|
    }

    /** Lets the others move and returns how the awaited operation ends. */
    method Await(ghost pc: Pc) returns (act: Action)
      requires At(pc) && script != []
      modifies this
      ensures Awaited(pc, act) && old(trace) <= trace && |script| < |old(script)|
    {
      TurnBegins(cfg, synced, plan, trace, world, self, script);
      var t := script[0];
      shared := t.after.shared;
      world, trace := t.after, trace + t.others;
      script := script[1..];
      act := t.act;
    }

    /** Completes a step: the code has done to the shared state what the transition system says. */
    ghost method Moved(pc: Pc, act: Action, next: Pc, effect: Effect)
      requires MidStep(cfg, synced, plan, trace, world, self, script, pc, act)
      requires LocalStep(cfg, world.shared, pc, act) == Some(Outcome(next, effect))
      requires shared == Apply(world.shared, effect)
      modifies this`world, this`trace
      ensures At(next) && old(trace) <= trace && Found(old(world.shared))
    {
      TurnEnds(cfg, synced, plan, trace, world, self, script, pc, act, next, effect);
      world := world.(shared := shared, conns := world.conns[self := next]);
      trace := trace + [Task(self, act)];
    }

    /** `fetch_next_request`: a request, the end of the stream or the cancel token, whichever comes first. */
    method FetchNextRequest(ghost pc: Pc) returns (f: Fetch, ghost act: Action)
      requires At(pc) && (pc.GuestIdle? || pc.SessionIdle?) && script != []
      modifies this
      ensures Awaited(pc, act) && old(trace) <= trace && |script| < |old(script)|
      ensures f == if act.Fetched? then Got(act.request) else if act.FetchFails? then FetchError else StreamClosed
      ensures act.Fetched? || act.FetchFails? || act.StreamEnds? || (act.Interrupt? && shared.cancelled)
    {
      var a := Await(pc);
      act := a;
      if a.Fetched? {
        f := Got(a.request);
      } else if a.FetchFails? {
        f := FetchError;
      } else {
        f := StreamClosed;
      }
    }

    // ----- Token transactions -----

    /** SELECT available_tokens; which way the transaction goes on is decided by the value. */
    method SelectTokens(u: Text, ghost op: TokenOp) returns (r: Poll<Result<Option<i64>, ()>>)
      requires At(TxSelect(u, op))
      modifies this
      ensures Onward()
      ensures match r
              case Pending => script == []
              case Ready(Err(_)) => world.conns[self] == TxFault(u, op, Sql)
              case Ready(Ok(None)) => world.conns[self] == TxFault(u, op, UserMissing)
              case Ready(Ok(Some(tokens))) => world.conns[self] == TxCheck(u, op, tokens)
    {
      if script == [] { return Pending; }
      var act := Await(TxSelect(u, op));
      if act.SqlFails? {
        Moved(TxSelect(u, op), act, TxFault(u, op, Sql), Nothing);
        r := Ready(Err(()));
      } else if u !in shared.users {
        Moved(TxSelect(u, op), act, TxFault(u, op, UserMissing), Nothing);
        r := Ready(Ok(None));
      } else {
        var tokens: i64 := shared.users[u].availableTokens;
        Moved(TxSelect(u, op), act, TxCheck(u, op, tokens), Nothing);
        r := Ready(Ok(Some(tokens)));
      }
    }

    /** UPDATE users SET available_tokens = available_tokens + amount, and COMMIT. */
    method UpdateTokens(u: Text, amount: int, ghost op: TokenOp, ghost seen: i64) returns (r: Poll<bool>)
      requires At(TxCommit(u, op, seen)) && Delta(op) == amount
      modifies this
      ensures Onward()
      ensures match r
              case Pending => script == []
              case Ready(done) => world.conns[self] == if done then TxDone(u, op, seen) else TxFault(u, op, Sql)
      ensures cfg.crypto.Sound() && r == Ready(true) ==> shared.Balance(u) == seen + amount && 0 <= seen + amount
    {
      if script == [] { return Pending; }
      var act := Await(TxCommit(u, op, seen));
      if act.SqlFails? {
        Moved(TxCommit(u, op, seen), act, TxFault(u, op, Sql), Nothing);
        r := Ready(false);
      } else {
        WriteTokens(u, amount, op, seen, act);
        r := Ready(true);
      }
    }

    method WriteTokens(u: Text, amount: int, ghost op: TokenOp, ghost seen: i64, ghost act: Action)
      requires Awaited(TxCommit(u, op, seen), act) && !act.SqlFails? && Delta(op) == amount
      modifies this
      ensures At(TxDone(u, op, seen)) && old(trace) <= trace && script == old(script)
      ensures cfg.crypto.Sound() ==> shared.Balance(u) == seen + amount && 0 <= seen + amount
    {
      if cfg.crypto.Sound() { CommitFindsSeen(cfg, synced, trace, world, self, u, op, seen); }
      if u in shared.users {
        var row := shared.users[u];
        shared := shared.(users := shared.users[u := row.(availableTokens := row.availableTokens + amount)]);
      }
      assert shared == Apply(world.shared, AddTokens(u, Delta(op)));
      Moved(TxCommit(u, op, seen), act, TxDone(u, op, seen), AddTokens(u, Delta(op)));
    }

    /** `subtract_user_tokens` with amount 1. */
    method SubtractOneToken(u: Text, ghost h: Sha256Hash) returns (r: Poll<Result<u64, TokenError>>)
      requires At(TxSelect(u, Debit(h)))
      modifies this
      ensures Onward()
      ensures match r
              case Pending => script == []
              case Ready(Ok(_)) => world.conns[self] == ReadClock(u, h)
              case Ready(Err(InsufficientTokens)) => world.conns[self] == SessionReply(u, NotEnoughTokens, false)
              case Ready(Err(UserDoesNotExist)) => world.conns[self] == Unlocking(u, Leave(Failed(UserMissing)))
              case Ready(Err(e)) => e.InternalDataBase? && world.conns[self] == Unlocking(u, Leave(Failed(Sql)))
      ensures cfg.crypto.Sound() && r.Ready? && r.value.Ok? ==> r.value.value == shared.Balance(u)
    {
      var row := SelectTokens(u, Debit(h));
      if row.Pending? { return Pending; }
      if row.value.Err? { return Ready(Err(InternalDataBase)); }
      if row.value.value.None? { return Ready(Err(UserDoesNotExist)); }
      r := SubtractFrom(u, row.value.value.value, h);
    }

    /** The transaction once the balance has been read: check, then update. */
    method SubtractFrom(u: Text, tokens: i64, ghost h: Sha256Hash) returns (r: Poll<Result<u64, TokenError>>)
      requires At(TxCheck(u, Debit(h), tokens))
      modifies this
      ensures Onward()
      ensures match r
              case Pending => script == []
              case Ready(Ok(_)) => world.conns[self] == ReadClock(u, h)
              case Ready(Err(InsufficientTokens)) => world.conns[self] == SessionReply(u, NotEnoughTokens, false)
              case Ready(Err(e)) => e.InternalDataBase? && world.conns[self] == Unlocking(u, Leave(Failed(Sql)))
      ensures cfg.crypto.Sound() && r.Ready? && r.value.Ok? ==> r.value.value == shared.Balance(u)
    {
      var resulting := CheckedSubI64(tokens, 1);
      if resulting.None? || resulting.value < 0 { return Ready(Err(InsufficientTokens)); }
      var done := UpdateTokens(u, -1, Debit(h), tokens);
      if done.Pending? { return Pending; }
      if !done.value { return Ready(Err(InternalDataBase)); }
      r := Ready(Ok(AsU64(resulting.value)));
    }

    /** `add_user_tokens`, for a purchase and for the refund of one token. */
    method AddUserTokens(u: Text, amount: u64, ghost op: TokenOp) returns (r: Poll<Result<u64, TokenError>>)
      requires !op.Debit? && (amount <= I64_MAX ==> Delta(op) == amount)
      requires At(if amount > I64_MAX then SessionReply(u, TokenAmountTooHigh, false) else TxSelect(u, op))
      modifies this
      ensures Onward()
      ensures match r
              case Pending => script == []
              case Ready(Ok(n)) =>
                world.conns[self] == SessionReply(u, if op.Refund? then OperationError else TokenCount(n), false)
              case Ready(Err(TokenOverflow)) =>
                var refund := amount <= I64_MAX && op.Refund?;
                world.conns[self] == SessionReply(u, if refund then OperationError else TokenAmountTooHigh, false)
              case Ready(Err(UserDoesNotExist)) => world.conns[self] == TxFault(u, op, UserMissing)
              case Ready(Err(e)) => e.InternalDataBase? && world.conns[self] == TxFault(u, op, Sql)
      ensures cfg.crypto.Sound() && r.Ready? && r.value.Ok? ==> r.value.value == shared.Balance(u)
    {
      var converted := I64FromU64(amount);
      if converted.None? { return Ready(Err(TokenOverflow)); }
      var row := SelectTokens(u, op);
      if row.Pending? { return Pending; }
      if row.value.Err? { return Ready(Err(InternalDataBase)); }
      if row.value.value.None? { return Ready(Err(UserDoesNotExist)); }
      r := AddTo(u, row.value.value.value, converted.value, op);
    }

    /** The transaction once the balance has been read: checked sum, then update. */
    method AddTo(u: Text, tokens: i64, amount: i64, ghost op: TokenOp) returns (r: Poll<Result<u64, TokenError>>)
      requires !op.Debit? && Delta(op) == amount && At(TxCheck(u, op, tokens))
      modifies this
      ensures Onward()
      ensures match r
              case Pending => script == []
              case Ready(Ok(n)) =>
                world.conns[self] == SessionReply(u, if op.Refund? then OperationError else TokenCount(n), false)
              case Ready(Err(TokenOverflow)) =>
                world.conns[self] == SessionReply(u, if op.Refund? then OperationError else TokenAmountTooHigh, false)
              case Ready(Err(e)) => e.InternalDataBase? && world.conns[self] == TxFault(u, op, Sql)
      ensures cfg.crypto.Sound() && r.Ready? && r.value.Ok? ==> r.value.value == shared.Balance(u)
    {
      var resulting := CheckedAddI64(tokens, amount);
      if resulting.None? { return Ready(Err(TokenOverflow)); }
      var done := UpdateTokens(u, amount, op, tokens);
      if done.Pending? { return Pending; }
      if !done.value { return Ready(Err(InternalDataBase)); }
      r := Ready(Ok(AsU64(resulting.value)));
    }

    // ----- The other database operations -----

    /** `verify_user_password`. */
    method VerifyUserPassword(u: Text, p: Text) returns (r: Poll<Result<(), AuthError>>)
      requires At(Verifying(u, p))
      modifies this
      ensures Onward()
      ensures match r
              case Pending => script == []
              case Ready(Ok(_)) => world.conns[self] == Verified(u)
              case Ready(Err(AuthFault(f))) => world.conns[self] == Closed(Failed(f))
              case Ready(Err(_)) => world.conns[self] == GuestReply(LoginFailed(InvalidCredentials), None)
      ensures match r
              case Ready(Ok(_)) => Checks(cfg, shared.users, u, p, Match)
              case Ready(Err(UserNotFound)) => u !in shared.users
              case Ready(Err(InvalidPassword)) => Checks(cfg, shared.users, u, p, Mismatch)
              case Ready(Err(AuthFault(f))) =>
                f == Sql || (f == StoredHashMalformed && Checks(cfg, shared.users, u, p, Malformed))
              case Pending => true
    {
      if script == [] { return Pending; }
      var act := Await(Verifying(u, p));
      if act.SqlFails? {
        r := Ready(Err(AuthFault(Sql)));
        Moved(Verifying(u, p), act, Closed(Failed(Sql)), Nothing);
        return;
      }
      if u !in shared.users {
        r := Ready(Err(UserNotFound));
      } else {
        match cfg.crypto.argonVerify(p, shared.users[u].passwordHash) {
          case Malformed => r := Ready(Err(AuthFault(StoredHashMalformed)));
          case Mismatch => r := Ready(Err(InvalidPassword));
          case Match => r := Ready(Ok(()));
        }
      }
      Moved(Verifying(u, p), act, VerifyOutcome(cfg, shared.users, u, p), Nothing);
    }

    /** `try_register_user`. */
    method TryRegisterUser(u: Text, p: Text) returns (r: Poll<Result<(), RegisterError>>, ghost found: Shared)
      requires At(Registering(u, p))
      modifies this
      ensures Onward()
      ensures match r
              case Pending => script == []
              case Ready(Ok(_)) => world.conns[self] == GuestReply(Okay, None)
              case Ready(Err(UserAlreadyExists)) =>
                world.conns[self] == GuestReply(SignInFailed(UsernameAlreadyTaken), None)
              case Ready(Err(RegisterFault(f))) => world.conns[self] == Closed(Failed(f))
      ensures r.Ready? ==> Found(found)
      ensures match r
              case Ready(Ok(_)) => Registers(cfg, found, shared, u, p)
              case Ready(Err(UserAlreadyExists)) => u in found.users && shared == found
              case Ready(Err(RegisterFault(f))) => (f == Sql || f == Hashing) && shared == found
              case Pending => true
      ensures cfg.crypto.Sound() && r == Ready(Ok(())) ==> Checks(cfg, shared.users, u, p, Match)
    {
      found := shared;
      if script == [] { r := Pending; return; }
      var act := Await(Registering(u, p));
      found := shared;
      if act.HashFails? {
        Moved(Registering(u, p), act, Closed(Failed(Hashing)), Nothing);
        r := Ready(Err(RegisterFault(Hashing)));
      } else if act.SqlFails? {
        Moved(Registering(u, p), act, Closed(Failed(Sql)), Nothing);
        r := Ready(Err(RegisterFault(Sql)));
      } else if u in shared.users {
        Moved(Registering(u, p), act, GuestReply(SignInFailed(UsernameAlreadyTaken), None), Nothing);
        r := Ready(Err(UserAlreadyExists));
      } else {
        var row := UserRow(cfg.crypto.argonHash(p, act.salt), 0);
        shared := shared.(users := shared.users[u := row]);
        Moved(Registering(u, p), act, GuestReply(Okay, None), Register(u, row));
        r := Ready(Ok(()));
      }
    }

    /** `get_user_tokens`. */
    method GetUserTokens(u: Text) returns (r: Poll<Result<u64, Fault>>)
      requires At(Counting(u))
      modifies this
      ensures Onward()
      ensures match r
              case Pending => script == []
              case Ready(Ok(n)) => world.conns[self] == SessionReply(u, TokenCount(n), false)
              case Ready(Err(f)) => world.conns[self] == Unlocking(u, Leave(Failed(f)))
      ensures match r
              case Ready(Ok(n)) => u in shared.users && n == shared.users[u].availableTokens
              case Ready(Err(f)) =>
                || f == Sql
                || (f == UserMissing && u !in shared.users)
                || (f == IntegrityViolation && u in shared.users && shared.users[u].availableTokens < 0)
              case Pending => true
      ensures cfg.crypto.Sound() && r.Ready? ==> r.value.Ok? || r.value.error == Sql
    {
      if script == [] { return Pending; }
      var act := Await(Counting(u));
      if act.SqlFails? {
        Moved(Counting(u), act, Unlocking(u, Leave(Failed(Sql))), Nothing);
        r := Ready(Err(Sql));
      } else {
        Moved(Counting(u), act, CountOutcome(shared.users, u), Nothing);
        if u !in shared.users {
          r := Ready(Err(UserMissing));
        } else if shared.users[u].availableTokens < 0 {
          r := Ready(Err(IntegrityViolation));
        } else {
          r := Ready(Ok(shared.users[u].availableTokens));
        }
      }
      if cfg.crypto.Sound() && r.value.Err? { FailsCleanly(cfg, synced, trace, world, self, u, r.value.error); }
    }

    /** `get_user_history`: the query, then the decoding loop. */
    method GetUserHistory(u: Text) returns (r: Poll<Result<seq<HistoryRecord>, Fault>>)
      requires At(ReadHistory(u))
      modifies this
      ensures Onward()
      ensures match r
              case Pending => script == []
              case Ready(Ok(records)) => world.conns[self] == SessionReply(u, Records(records), false)
              case Ready(Err(f)) => world.conns[self] == Unlocking(u, Leave(Failed(f)))
      ensures cfg.crypto.Sound() ==>
                match r
                case Ready(Ok(records)) =>
                  && u in shared.users && Shows(shared, u, records)
                  && |records| == (if |shared.HistoryOf(u)| >= 100 then 100 else |shared.HistoryOf(u)|)
                case Ready(Err(f)) => f == Sql
                case Pending => true
    {
      if script == [] { return Pending; }
      var act := Await(ReadHistory(u));
      if act.SqlFails? {
        Moved(ReadHistory(u), act, Unlocking(u, Leave(Failed(Sql))), Nothing);
        r := Ready(Err(Sql));
      } else {
        Moved(ReadHistory(u), act, HistoryOutcome(shared.users, u, act.rows), Nothing);
        if u !in shared.users {
          r := Ready(Err(UserMissing));
        } else {
          var decoded := ReadRecords(act.rows);
          r := Ready(if decoded.Ok? then Ok(decoded.value) else Err(IntegrityViolation));
        }
      }
      if cfg.crypto.Sound() {
        if r.value.Ok? {
          HistoryIsShown(cfg, synced, trace, world, self, u, r.value.value);
        } else {
          FailsCleanly(cfg, synced, trace, world, self, u, r.value.error);
        }
      }
    }

    /** `add_user_record`. */
    method AddUserRecord(u: Text, ghost h: Sha256Hash, ts: Timestamp, sign: RsaSignature)
      returns (r: Poll<Result<(), Fault>>, ghost found: Shared)
      requires At(Recording(u, h, ts, sign))
      modifies this
      ensures Onward()
      ensures match r
              case Pending => script == []
              case Ready(Ok(_)) => world.conns[self] == SessionReply(u, Token(h, sign, ts), false)
              case Ready(Err(f)) => world.conns[self] == Unlocking(u, Leave(Failed(f)))
      ensures r.Ready? ==> Found(found)
      ensures match r
              case Ready(Ok(_)) => Inserts(found, shared, u, ts, sign)
              case Ready(Err(f)) => shared == found && (f == Sql || (f == UserMissing && u !in found.users))
              case Pending => true
    {
      found := shared;
      if script == [] { r := Pending; return; }
      var act := Await(Recording(u, h, ts, sign));
      found := shared;
      if act.SqlFails? {
        Moved(Recording(u, h, ts, sign), act, Unlocking(u, Leave(Failed(Sql))), Nothing);
        r := Ready(Err(Sql));
      } else if u !in shared.users {
        Moved(Recording(u, h, ts, sign), act, Unlocking(u, Leave(Failed(UserMissing))), Nothing);
        r := Ready(Err(UserMissing));
      } else {
        WriteRecord(u, h, ts, sign, act);
        r := Ready(Ok(()));
      }
    }

    method WriteRecord(u: Text, ghost h: Sha256Hash, ts: Timestamp, sign: RsaSignature, ghost act: Action)
      requires Awaited(Recording(u, h, ts, sign), act) && !act.SqlFails? && u in shared.users
      modifies this
      ensures At(SessionReply(u, Token(h, sign, ts), false)) && old(trace) <= trace && script == old(script)
      ensures Found(old(shared)) && Inserts(old(shared), shared, u, ts, sign)
    {
      var key := ToBeBytes(ts);
      shared := shared.(history := shared.history[u := shared.HistoryOf(u)[key := sign]]);
      Moved(Recording(u, h, ts, sign), act, SessionReply(u, Token(h, sign, ts), false), AddRecord(u, key, sign));
    }

    // ----- The set of logged-in usernames -----

    /** `logged_users.insert`: whether the name was new. */
    method InsertLogged(u: Text) returns (r: Poll<bool>)
      requires At(Verified(u))
      modifies this
      ensures Onward()
      ensures match r
              case Pending => script == []
              case Ready(isNew) =>
                world.conns[self] ==
                (if isNew then GuestReply(Okay, Some(u)) else GuestReply(LoginFailed(AlreadyLoggedIn), None))
    {
      if script == [] { return Pending; }
      var act := Await(Verified(u));
      if u in shared.logged {
        Moved(Verified(u), act, GuestReply(LoginFailed(AlreadyLoggedIn), None), Nothing);
        r := Ready(false);
      } else {
        shared := shared.(logged := shared.logged + {u});
        Moved(Verified(u), act, GuestReply(Okay, Some(u)), Lock(u));
        r := Ready(true);
      }
    }

    /** `logged_users.remove`. */
    method RemoveLogged(u: Text, ghost next: AfterSession) returns (r: Poll<()>)
      requires At(Unlocking(u, next))
      modifies this
      ensures Onward()
      ensures match r
              case Pending => script == []
              case Ready(_) => world.conns[self] == (if next.BackToGuest? then GuestIdle else Closed(next.exit))
    {
      if script == [] { return Pending; }
      var act := Await(Unlocking(u, next));
      shared := shared.(logged := shared.logged - {u});
      Moved(Unlocking(u, next), act, if next.BackToGuest? then GuestIdle else Closed(next.exit), Unlock(u));
      r := Ready(());
    }

    // ----- Sending -----

    method SendGuest(response: Response, ghost started: Option<Text>) returns (r: Poll<Result<(), Fault>>)
      requires At(GuestReply(response, started))
      modifies this
      ensures Onward()
      ensures match r
              case Pending => script == []
              case Ready(Ok(_)) =>
                world.conns[self] == (if started.Some? then SessionIdle(started.value) else GuestIdle)
              case Ready(Err(f)) => world.conns[self] == Closed(Failed(f))
    {
      if script == [] { return Pending; }
      ghost var pc := GuestReply(response, started);
      var act := Await(pc);
      if act.SerializeFails? {
        Moved(pc, act, Closed(Failed(Serialize)), Nothing);
        r := Ready(Err(Serialize));
      } else if act.SendFails? {
        Moved(pc, act, Closed(Failed(Network)), Nothing);
        r := Ready(Err(Network));
      } else {
        Moved(pc, act, if started.Some? then SessionIdle(started.value) else GuestIdle, Nothing);
        r := Ready(Ok(()));
      }
    }

    method SendSession(u: Text, response: Response, ghost logout: bool) returns (r: Poll<Result<(), Fault>>)
      requires At(SessionReply(u, response, logout))
      modifies this
      ensures Onward()
      ensures match r
              case Pending => script == []
              case Ready(Ok(_)) =>
                world.conns[self] == (if logout then Unlocking(u, BackToGuest) else SessionIdle(u))
              case Ready(Err(f)) => world.conns[self] == Unlocking(u, Leave(Failed(f)))
    {
      if script == [] { return Pending; }
      ghost var pc := SessionReply(u, response, logout);
      var act := Await(pc);
      if act.SerializeFails? {
        Moved(pc, act, Unlocking(u, Leave(Failed(Serialize))), Nothing);
        r := Ready(Err(Serialize));
      } else if act.SendFails? {
        Moved(pc, act, Unlocking(u, Leave(Failed(Network))), Nothing);
        r := Ready(Err(Network));
      } else {
        Moved(pc, act, if logout then Unlocking(u, BackToGuest) else SessionIdle(u), Nothing);
        r := Ready(Ok(()));
      }
    }

    // ----- Signing a hash -----

    /** `time_now` since 1970; None is a staggered clock. */
    method TakeTimestamp(u: Text, ghost h: Sha256Hash) returns (r: Poll<Option<Timestamp>>)
      requires At(ReadClock(u, h))
      modifies this
      ensures Onward()
      ensures match r
              case Pending => script == []
              case Ready(None) => world.conns[self] == Unlocking(u, Leave(Failed(ClockStaggered)))
              case Ready(Some(ts)) => world.conns[self] == Signing(u, h, ts)
    {
      if script == [] { return Pending; }
      var act := Await(ReadClock(u, h));
      var issued := Clock.Issue(shared.offset, act.local);
      ghost var next :=
        if issued.Some? then Signing(u, h, issued.value) else Unlocking(u, Leave(Failed(ClockStaggered)));
      Moved(ReadClock(u, h), act, next, Nothing);
      r := Ready(issued);
    }

    /** `generate_timestamp_signature`, by either signer. */
    method Sign(u: Text, h: Sha256Hash, ts: Timestamp) returns (r: Poll<Option<RsaSignature>>)
      requires At(Signing(u, h, ts))
      modifies this
      ensures Onward()
      ensures match r
              case Pending => script == []
              case Ready(None) => world.conns[self] == TxSelect(u, Refund)
              case Ready(Some(sign)) => world.conns[self] == Recording(u, h, ts, sign)
    {
      if script == [] { return Pending; }
      var act := Await(Signing(u, h, ts));
      if act.SignFails? {
        Moved(Signing(u, h, ts), act, TxSelect(u, Refund), Nothing);
        r := Ready(None);
      } else {
        var signature := SignWithTimestamp(cfg.crypto, h, ts);
        Moved(Signing(u, h, ts), act, Recording(u, h, ts, signature.value), Nothing);
        r := Ready(signature);
      }
    }

    /** The `SignHash` arm: debit, clock, signature, record; the token is refunded if signing fails. */
    method SignHashArm(u: Text, h: Sha256Hash) returns (r: Poll<Result<Response, Fault>>)
      requires At(TxSelect(u, Debit(h)))
      modifies this
      ensures Onward()
      ensures match r
              case Pending => script == []
              case Ready(Ok(response)) => world.conns[self] == SessionReply(u, response, false)
              case Ready(Err(f)) => world.conns[self] == Unlocking(u, Leave(Failed(f)))
    {
      var refused := DebitOne(u, h);
      if refused.Pending? { return Pending; }
      if refused.value.Some? { return Ready(refused.value.value); }
      r := StampAndRecord(u, h);
    }

    /** The debit of a request to sign; if it is refused, what the request then ends with. */
    method DebitOne(u: Text, ghost h: Sha256Hash) returns (r: Poll<Option<Result<Response, Fault>>>)
      requires At(TxSelect(u, Debit(h)))
      modifies this
      ensures Onward()
      ensures match r
              case Pending => script == []
              case Ready(None) => world.conns[self] == ReadClock(u, h)
              case Ready(Some(Ok(response))) => world.conns[self] == SessionReply(u, response, false)
              case Ready(Some(Err(f))) => world.conns[self] == Unlocking(u, Leave(Failed(f)))
    {
      var debit := SubtractOneToken(u, h);
      if debit.Pending? { return Pending; }
      match debit.value {
        case Ok(_) => r := Ready(None);
        case Err(InsufficientTokens) => r := Ready(Some(Ok(NotEnoughTokens)));
        case Err(UserDoesNotExist) => r := Ready(Some(Err(UserMissing)));
        case Err(_) => r := Ready(Some(Err(Sql)));
      }
    }

    method StampAndRecord(u: Text, h: Sha256Hash) returns (r: Poll<Result<Response, Fault>>)
      requires At(ReadClock(u, h))
      modifies this
      ensures Onward()
      ensures match r
              case Pending => script == []
              case Ready(Ok(response)) => world.conns[self] == SessionReply(u, response, false)
              case Ready(Err(f)) => world.conns[self] == Unlocking(u, Leave(Failed(f)))
    {
      var ts := TakeTimestamp(u, h);
      if ts.Pending? { return Pending; }
      if ts.value.None? { return Ready(Err(ClockStaggered)); }
      r := SignAndRecord(u, h, ts.value.value);
    }

    method SignAndRecord(u: Text, h: Sha256Hash, ts: Timestamp) returns (r: Poll<Result<Response, Fault>>)
      requires At(Signing(u, h, ts))
      modifies this
      ensures Onward()
      ensures match r
              case Pending => script == []
              case Ready(Ok(response)) => world.conns[self] == SessionReply(u, response, false)
              case Ready(Err(f)) => world.conns[self] == Unlocking(u, Leave(Failed(f)))
    {
      var signature := Sign(u, h, ts);
      if signature.Pending? { return Pending; }
      if signature.value.None? {
        // A refund that fails is only logged.
        var refund := AddUserTokens(u, 1, Refund);
        if refund.Pending? { return Pending; }
        return Ready(Ok(OperationError));
      }
      var sign := signature.value.value;
      var record, found := AddUserRecord(u, h, ts, sign);
      if record.Pending? { return Pending; }
      if record.value.Err? { return Ready(Err(record.value.error)); }
      r := Ready(Ok(Token(h, sign, ts)));
    }

    /** The `PurchaseTokens` arm. */
    method PurchaseArm(u: Text, amount: u64) returns (r: Poll<Result<Response, Fault>>)
      requires At(SessionDispatch(u, PurchaseTokens(amount)))
      modifies this
      ensures Onward()
      ensures match r
              case Pending => script == []
              case Ready(Ok(response)) => world.conns[self] == SessionReply(u, response, false)
              case Ready(Err(f)) => world.conns[self] == Unlocking(u, Leave(Failed(f)))
    {
      ghost var op := if amount <= I64_MAX then Buy(amount) else Buy(0);
      var sum := AddUserTokens(u, amount, op);
      if sum.Pending? { return Pending; }
      match sum.value {
        case Ok(n) => r := Ready(Ok(TokenCount(n)));
        case Err(TokenOverflow) => r := Ready(Ok(TokenAmountTooHigh));
        case Err(UserDoesNotExist) => r := Ready(Err(UserMissing));
        case Err(_) => r := Ready(Err(Sql));
      }
    }

    // ----- The handlers -----

    /** One request inside a session: the reply, and whether it ends the session. */
    method ServeSession(u: Text, request: Request) returns (r: Poll<Result<Response, Fault>>)
      requires At(SessionDispatch(u, request))
      modifies this
      ensures Onward()
      ensures match r
              case Pending => script == []
              case Ready(Ok(response)) => world.conns[self] == SessionReply(u, response, request.LogOut?)
              case Ready(Err(f)) => world.conns[self] == Unlocking(u, Leave(Failed(f)))
    {
      match request {
        case Login(_, _) => r := Ready(Ok(LoginFailed(AlreadyLoggedIn)));
        case SignUp(_, _) => r := Ready(Ok(SignInFailed(SessionOpen)));
        case LogOut => r := Ready(Ok(Okay));
        case SignHash(h) => r := SignHashArm(u, h);
        case PurchaseTokens(n) => r := PurchaseArm(u, n);
        case HowManyTokensDoIHave =>
          var count := GetUserTokens(u);
          r := if count.Pending? then Pending
               else if count.value.Ok? then Ready(Ok(TokenCount(count.value.value)))
               else Ready(Err(count.value.error));
        case History =>
          var history := GetUserHistory(u);
          r := if history.Pending? then Pending
               else if history.value.Ok? then Ready(Ok(Records(history.value.value)))
               else Ready(Err(history.value.error));
      }
    }

    /** Serves one request of a session and sends the reply. */
    method AnswerInSession(u: Text, request: Request) returns (r: Poll<Result<(), Fault>>)
      requires At(SessionDispatch(u, request))
      modifies this
      ensures Onward()
      ensures match r
              case Pending => script == []
              case Ready(Ok(_)) =>
                world.conns[self] == (if request.LogOut? then Unlocking(u, BackToGuest) else SessionIdle(u))
              case Ready(Err(f)) => world.conns[self] == Unlocking(u, Leave(Failed(f)))
    {
      var served := ServeSession(u, request);
      if served.Pending? { return Pending; }
      if served.value.Err? { return Ready(Err(served.value.error)); }
      r := SendSession(u, served.value.value, request.LogOut?);
    }

    /** Serves one request of a guest and sends the reply; the user whose session it starts, if any. */
    method AnswerAsGuest(request: Request) returns (r: Poll<Result<Option<Text>, Fault>>)
      requires At(GuestDispatch(request))
      modifies this
      ensures Onward()
      ensures match r
              case Pending => script == []
              case Ready(Ok(started)) =>
                world.conns[self] == (if started.Some? then SessionIdle(started.value) else GuestIdle)
              case Ready(Err(f)) => world.conns[self] == Closed(Failed(f))
    {
      var served := ServeGuest(request);
      if served.Pending? { return Pending; }
      if served.value.Err? { return Ready(Err(served.value.error)); }
      var (response, started) := served.value.value;
      var sent := SendGuest(response, started);
      if sent.Pending? { return Pending; }
      r := Ready(if sent.value.Ok? then Ok(started) else Err(sent.value.error));
    }

    /** The head of the session loop. */
    method NextInSession(u: Text) returns (r: Arrival)
      requires At(SessionIdle(u)) && script != []
      modifies this
      ensures Onward() && |script| < |old(script)|
      ensures match r
              case Serve(request) => world.conns[self] == SessionDispatch(u, request)
              case Stop(exit) => world.conns[self] == Unlocking(u, Leave(exit))
    {
      var fetched, act := FetchNextRequest(SessionIdle(u));
      if fetched.FetchError? {
        Moved(SessionIdle(u), act, Unlocking(u, Leave(Failed(Network))), Nothing);
        r := Stop(Failed(Network));
      } else if fetched.StreamClosed? {
        r := Stop(EndOfStream(shared.cancelled));
        Moved(SessionIdle(u), act, Unlocking(u, Leave(r.exit)), Nothing);
      } else {
        Moved(SessionIdle(u), act, SessionDispatch(u, fetched.request), Nothing);
        r := Serve(fetched.request);
      }
    }

    /** The head of the guest loop. */
    method NextAsGuest() returns (r: Arrival)
      requires At(GuestIdle) && script != []
      modifies this
      ensures Onward() && |script| < |old(script)|
      ensures match r
              case Serve(request) => world.conns[self] == GuestDispatch(request)
              case Stop(exit) => world.conns[self] == Closed(exit)
    {
      var fetched, act := FetchNextRequest(GuestIdle);
      if fetched.FetchError? {
        Moved(GuestIdle, act, Closed(Failed(Network)), Nothing);
        r := Stop(Failed(Network));
      } else if fetched.StreamClosed? {
        r := Stop(EndOfStream(shared.cancelled));
        Moved(GuestIdle, act, Closed(r.exit), Nothing);
      } else {
        Moved(GuestIdle, act, GuestDispatch(fetched.request), Nothing);
        r := Serve(fetched.request);
      }
    }

    /** `session_handler`. */
    method SessionHandler(u: Text) returns (r: Poll<Result<ClosedSession, Fault>>)
      requires At(SessionIdle(u))
      modifies this
      ensures Onward()
      ensures match r
              case Pending => script == []
              case Ready(Ok(LoggedOut)) => world.conns[self] == Unlocking(u, BackToGuest)
              case Ready(Ok(ClosedStream(reason))) => world.conns[self] == Unlocking(u, Leave(reason))
              case Ready(Err(f)) => world.conns[self] == Unlocking(u, Leave(Failed(f)))
    {
      while script != []
        invariant At(SessionIdle(u)) && old(trace) <= trace && |script| <= |old(script)|
        decreases |script|
      {
        var next := NextInSession(u);
        if next.Stop? {
          return Ready(if next.exit.Failed? then Err(next.exit.fault) else Ok(ClosedStream(next.exit)));
        }
        var request := next.request;
        var answered := AnswerInSession(u, request);
        if answered.Pending? { return Pending; }
        if answered.value.Err? { return Ready(Err(answered.value.error)); }
        if request.LogOut? { return Ready(Ok(LoggedOut)); }
      }
      r := Pending;
    }

    method LoginArm(u: Text, p: Text) returns (r: Poll<Result<(Response, Option<Text>), Fault>>)
      requires At(GuestDispatch(Login(u, p)))
      modifies this
      ensures Onward()
      ensures match r
              case Pending => script == []
              case Ready(Ok(pair)) => world.conns[self] == GuestReply(pair.0, pair.1)
              case Ready(Err(f)) => world.conns[self] == Closed(Failed(f))
    {
      if !CredentialsFit(u, p) { return Ready(Ok((LoginFailed(InvalidCredentials), None))); }
      var verified := VerifyUserPassword(u, p);
      if verified.Pending? { return Pending; }
      match verified.value {
        case Err(AuthFault(f)) => return Ready(Err(f));
        case Err(_) => return Ready(Ok((LoginFailed(InvalidCredentials), None)));
        case Ok(_) =>
      }
      var inserted := InsertLogged(u);
      if inserted.Pending? { return Pending; }
      r := Ready(Ok(if inserted.value then (Okay, Some(u)) else (LoginFailed(AlreadyLoggedIn), None)));
    }

    method SignUpArm(u: Text, p: Text) returns (r: Poll<Result<(Response, Option<Text>), Fault>>)
      requires At(GuestDispatch(SignUp(u, p)))
      modifies this
      ensures Onward()
      ensures match r
              case Pending => script == []
              case Ready(Ok(pair)) => world.conns[self] == GuestReply(pair.0, pair.1)
              case Ready(Err(f)) => world.conns[self] == Closed(Failed(f))
    {
      if !CredentialsFit(u, p) { return Ready(Ok((OperationError, None))); }
      var registered, found := TryRegisterUser(u, p);
      if registered.Pending? { return Pending; }
      match registered.value {
        case Ok(_) => r := Ready(Ok((Okay, None)));
        case Err(UserAlreadyExists) => r := Ready(Ok((SignInFailed(UsernameAlreadyTaken), None)));
        case Err(RegisterFault(f)) => r := Ready(Err(f));
      }
    }

    /** One request outside a session: the reply, and the user whose session it starts. */
    method ServeGuest(request: Request) returns (r: Poll<Result<(Response, Option<Text>), Fault>>)
      requires At(GuestDispatch(request))
      modifies this
      ensures Onward()
      ensures match r
              case Pending => script == []
              case Ready(Ok(pair)) => world.conns[self] == GuestReply(pair.0, pair.1)
              case Ready(Err(f)) => world.conns[self] == Closed(Failed(f))
    {
      match request {
        case Login(u, p) => r := LoginArm(u, p);
        case SignUp(u, p) => r := SignUpArm(u, p);
        case _ => r := Ready(Ok((NotLoggedIn, None)));
      }
    }

    /** A session from its first request to the release of the username; None if the connection goes on. */
    method RunSession(u: Text) returns (r: Poll<Option<Exit>>)
      requires At(SessionIdle(u))
      modifies this
      ensures Onward()
      ensures match r
              case Pending => script == []
              case Ready(None) => world.conns[self] == GuestIdle
              case Ready(Some(e)) => world.conns[self] == Closed(e)
    {
      var closed := SessionHandler(u);
      if closed.Pending? { return Pending; }
      match closed.value {
        case Err(f) =>
          var removed := RemoveLogged(u, Leave(Failed(f)));
          r := if removed.Pending? then Pending else Ready(Some(Failed(f)));
        case Ok(LoggedOut) =>
          var removed := RemoveLogged(u, BackToGuest);
          r := if removed.Pending? then Pending else Ready(None);
        case Ok(ClosedStream(reason)) =>
          var removed := RemoveLogged(u, Leave(reason));
          r := if removed.Pending? then Pending else Ready(Some(reason));
      }
    }

    /**
     `conn_handler_core`. Whatever the other connections do at each await, the code takes exactly the
     steps the transition system allows: it follows the script to its end, what happens in all is
     the planned run, and when the task ends, it ends as the transition system says and never
     because the database contradicted the program.
     */
    method ConnHandlerCore() returns (r: Poll<Exit>)
      requires At(GuestIdle)
      modifies this
      ensures script == [] && trace == plan == old(trace) + Labels(self, old(script))
      ensures Reaches(cfg, synced, trace, world) && world.shared == shared
      ensures self in world.conns && (r.Ready? ==> world.conns[self] == Closed(r.value))
      ensures r.Ready? && cfg.crypto.Sound() ==> CleanExit(r.value)
    {
      r := HandlerLoop();
      if r.Ready? {
        ClosedEnds(cfg, world, self, script);
        if cfg.crypto.Sound() { PcOfRun(cfg, synced, trace, world, self); }
      }
    }

    method HandlerLoop() returns (r: Poll<Exit>)
      requires At(GuestIdle)
      modifies this
      ensures Onward()
      ensures r.Pending? ==> script == []
      ensures r.Ready? ==> world.conns[self] == Closed(r.value)
    {
      while script != []
        invariant At(GuestIdle) && old(trace) <= trace && |script| <= |old(script)|
        decreases |script|
      {
        var turn := GuestTurn();
        if turn.Pending? { return Pending; }
        if turn.value.Some? { return Ready(turn.value.value); }
      }
      r := Pending;
    }

    /** One request of the guest loop, with the session it may start; None if the connection goes on. */
    method GuestTurn() returns (r: Poll<Option<Exit>>)
      requires At(GuestIdle) && script != []
      modifies this
      ensures Onward() && |script| < |old(script)|
      ensures match r
              case Pending => script == []
              case Ready(None) => world.conns[self] == GuestIdle
              case Ready(Some(e)) => world.conns[self] == Closed(e)
    {
      var next := NextAsGuest();
      r := if next.Stop? then Ready(Some(next.exit)) else Pending;
      if next.Serve? { r := ServeAndRun(next.request); }
    }

    method ServeAndRun(request: Request) returns (r: Poll<Option<Exit>>)
      requires At(GuestDispatch(request))
      modifies this
      ensures Onward()
      ensures match r
              case Pending => script == []
              case Ready(None) => world.conns[self] == GuestIdle
              case Ready(Some(e)) => world.conns[self] == Closed(e)
    {
      var answered := AnswerAsGuest(request);
      if answered.Pending? { return Pending; }
      if answered.value.Err? { return Ready(Some(Failed(answered.value.error))); }
      var started := answered.value.value;
      if started.None? { return Ready(None); }
      r := RunSession(started.value);
    }
  }
}
