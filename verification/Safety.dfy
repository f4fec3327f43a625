/**
 What every step of the server keeps: who holds which username, what the tables contain, and what
 each task may rely on at its program counter.
 */
module Safety {
  import opened Wrappers
  import opened MachineInts
  import opened Bytes
  import opened ServerProtocol
  import opened Database
  import opened Machine

  // ----- Where effects come from -----

  /** The only positions and actions that touch shared state, and what they write. */
  predicate Origin(cfg: Config, sh: Shared, pc: Pc, act: Action, o: Outcome) {
    match o.effect
    case Nothing => true
    case Register(u, row) =>
      && pc.Registering? && pc.user == u && u !in sh.users && o.pc == GuestReply(Okay, None)
      && act.InsertUser? && row == UserRow(cfg.crypto.argonHash(pc.password, act.salt), 0)
    case AddTokens(u, delta) =>
      && pc.TxCommit? && pc.user == u && delta == Delta(pc.op) && o.pc == TxDone(u, pc.op, pc.seen) && act.Commit?
    case AddRecord(u, key, hash) =>
      && pc.Recording? && pc.user == u && key == ToBeBytes(pc.timestamp) && hash == pc.sign && u in sh.users
      && o.pc == SessionReply(u, Token(pc.hash, pc.sign, pc.timestamp), false) && act.InsertRecord?
      && key !in sh.HistoryOf(u)
    case Lock(u) => pc == Verified(u) && u !in sh.logged && o.pc == GuestReply(Okay, Some(u)) && act.TakeLock?
    case Unlock(u) => pc.Unlocking? && pc.user == u && (o.pc.GuestIdle? || o.pc.Closed?) && act.ReleaseLock?
  }

  /** The login reply could not be delivered although the username had just been locked. */
  predicate Strands(pc: Pc, act: Action) {
    pc.GuestReply? && pc.started.Some? && (act.SerializeFails? || act.SendFails?)
  }

  /** A step without effect keeps the username its task holds, unless it strands it. */
  predicate KeepsHold(pc: Pc, act: Action, o: Outcome) {
    o.effect.Nothing? ==> o.pc.Holds() == if Strands(pc, act) then None else pc.Holds()
  }

  lemma GuestOrigin(cfg: Config, sh: Shared, pc: Pc, act: Action, o: Outcome)
    requires GuestStep(cfg, sh, pc, act) == Some(o)
    ensures Origin(cfg, sh, pc, act, o) && KeepsHold(pc, act, o)
  {
  }

  lemma SessionOrigin(cfg: Config, sh: Shared, pc: Pc, act: Action, o: Outcome)
    requires SessionStep(sh, pc, act) == Some(o)
    ensures Origin(cfg, sh, pc, act, o) && KeepsHold(pc, act, o)
  {
  }

  lemma TokenOrigin(cfg: Config, sh: Shared, pc: Pc, act: Action, o: Outcome)
    requires TokenStep(sh, pc, act) == Some(o)
    ensures Origin(cfg, sh, pc, act, o) && KeepsHold(pc, act, o)
  {
  }

  lemma StampOrigin(cfg: Config, sh: Shared, pc: Pc, act: Action, o: Outcome)
    requires StampStep(cfg, sh, pc, act) == Some(o)
    ensures Origin(cfg, sh, pc, act, o) && KeepsHold(pc, act, o)
  {
  }

  lemma QueryOrigin(cfg: Config, sh: Shared, pc: Pc, act: Action, o: Outcome)
    requires QueryStep(sh, pc, act) == Some(o)
    ensures Origin(cfg, sh, pc, act, o) && KeepsHold(pc, act, o)
  {
  }

  lemma OriginOfStep(cfg: Config, sh: Shared, pc: Pc, act: Action, o: Outcome)
    requires LocalStep(cfg, sh, pc, act) == Some(o)
    ensures Origin(cfg, sh, pc, act, o) && KeepsHold(pc, act, o)
  {
    match pc.Part() {
      case Guest => GuestOrigin(cfg, sh, pc, act, o);
      case Session => SessionOrigin(cfg, sh, pc, act, o);
      case TokenTx => TokenOrigin(cfg, sh, pc, act, o);
      case Stamp => StampOrigin(cfg, sh, pc, act, o);
      case Query => QueryOrigin(cfg, sh, pc, act, o);
      case Done =>
    }
  }

  // ----- Username locks -----

  /** Every held username is locked, and no two connections hold the same one. */
  ghost predicate LocksOk(s: State) {
    && (forall c :: c in s.conns && s.conns[c].Holds().Some? ==> s.conns[c].Holds().value in s.shared.logged)
    && (forall c, d :: c in s.conns && d in s.conns && c != d && s.conns[c].Holds().Some? ==>
          s.conns[c].Holds() != s.conns[d].Holds())
  }

  /** How a step relates its effect to the username the task holds. */
  lemma HolderOfStep(cfg: Config, sh: Shared, pc: Pc, act: Action, o: Outcome)
    requires LocalStep(cfg, sh, pc, act) == Some(o)
    ensures o.effect.Lock? ==> pc.Holds() == None && o.pc.Holds() == Some(o.effect.user) && o.effect.user !in sh.logged
    ensures o.effect.Unlock? ==> pc.Holds() == Some(o.effect.user) && o.pc.Holds() == None
    ensures o.effect.AddTokens? || o.effect.AddRecord? ==> pc.Holds() == o.pc.Holds() == Some(o.effect.user)
    ensures o.effect.Register? ==> pc.Holds() == o.pc.Holds() == None && o.effect.user !in sh.users
    ensures o.effect.Nothing? ==> o.pc.Holds() == if Strands(pc, act) then None else pc.Holds()
  {
    OriginOfStep(cfg, sh, pc, act, o);
  }

  lemma TaskKeepsLocks(cfg: Config, s: State, c: ConnId, act: Action, s': State)
    requires LocksOk(s) && TaskStep(cfg, s, c, act) == Some(s')
    ensures LocksOk(s')
  {
    HolderOfStep(cfg, s.shared, s.conns[c], act, LocalStep(cfg, s.shared, s.conns[c], act).value);
  }

  // ----- What the tables contain -----

  /** The stored string is the Argon2 hash of some password. */
  ghost predicate Hashed(cfg: Config, stored: Text) {
    exists p: Text, salt: Blob :: stored == cfg.crypto.argonHash(p, salt)
  }

  ghost predicate BalancesOk(sh: Shared) {
    forall u :: u in sh.users ==> 0 <= sh.users[u].availableTokens <= I64_MAX
  }

  ghost predicate HashesOk(cfg: Config, sh: Shared) {
    forall u :: u in sh.users ==> Hashed(cfg, sh.users[u].passwordHash)
  }

  ghost predicate RecordsOk(sh: Shared) {
    forall u :: u in sh.history ==> WellFormed(sh.history[u])
  }

  /** Locked usernames and usernames with records are registered. */
  ghost predicate UsersOk(sh: Shared) {
    sh.logged <= sh.users.Keys && sh.history.Keys <= sh.users.Keys
  }

  ghost predicate TablesOk(cfg: Config, sh: Shared) {
    UsersOk(sh) && BalancesOk(sh) && RecordsOk(sh) && HashesOk(cfg, sh)
  }

  // ----- What a task relies on at its program counter -----

  predicate KnownUser(sh: Shared, pc: Pc) {
    && (pc.Holds().Some? ==> pc.Holds().value in sh.users)
    && (pc.Verified? ==> pc.user in sh.users)
  }

  /** A purchase is not negative. */
  predicate OpOk(op: TokenOp) {
    op.Buy? ==> op.amount >= 0
  }

  /** The value read by the SELECT is still the stored one, and the update stays within an i64. */
  predicate CommitOk(sh: Shared, u: Text, op: TokenOp, seen: i64) {
    OpOk(op) && sh.Balance(u) == seen && 0 <= seen + Delta(op) <= I64_MAX
  }

  predicate TokensOk(sh: Shared, pc: Pc) {
    && (pc.InFlight().Some? ==> sh.Balance(pc.InFlight().value) < I64_MAX)
    && (pc.TxSelect? ==> OpOk(pc.op))
    && (pc.TxCommit? ==> CommitOk(sh, pc.user, pc.op, pc.seen))
    && (pc.SessionReply? && pc.response.TokenCount? ==> pc.response.count == sh.Balance(pc.user))
  }

  ghost predicate Shows(sh: Shared, u: Text, records: seq<HistoryRecord>) {
    WellFormed(sh.HistoryOf(u)) && records == Latest(Numeric(sh.HistoryOf(u)), HISTORY_LIMIT)
  }

  predicate Recorded(cfg: Config, sh: Shared, u: Text, h: Sha256Hash, sign: RsaSignature, ts: Timestamp) {
    && ToBeBytes(ts) in sh.HistoryOf(u) && sh.HistoryOf(u)[ToBeBytes(ts)] == sign
    && cfg.crypto.Accepts(h, ts, sign)
  }

  ghost predicate HistoryOk(cfg: Config, sh: Shared, pc: Pc) {
    && (pc.Recording? ==> cfg.crypto.Accepts(pc.hash, pc.timestamp, pc.sign))
    && (pc.SessionReply? && pc.response.Token? ==>
          Recorded(cfg, sh, pc.user, pc.response.hash, pc.response.sign, pc.response.timestamp))
    && (pc.SessionReply? && pc.response.Records? ==> Shows(sh, pc.user, pc.response.records))
  }

  /** Faults that mean the database contradicts the program's expectations. */
  predicate Internal(f: Fault) {
    f.UserMissing? || f.IntegrityViolation? || f.StoredHashMalformed?
  }

  predicate CleanExit(e: Exit) {
    e.Failed? ==> !Internal(e.fault)
  }

  predicate ExitOk(pc: Pc) {
    && (pc.Unlocking? && pc.next.Leave? ==> CleanExit(pc.next.exit))
    && (pc.Closed? ==> CleanExit(pc.exit))
  }

  ghost predicate PcOk(cfg: Config, sh: Shared, pc: Pc) {
    KnownUser(sh, pc) && TokensOk(sh, pc) && HistoryOk(cfg, sh, pc) && ExitOk(pc)
  }

  // ----- The task that moves -----

  lemma StoredHashParses(cfg: Config, sh: Shared, u: Text, p: Text)
    requires cfg.crypto.Sound() && HashesOk(cfg, sh) && u in sh.users
    ensures !cfg.crypto.argonVerify(p, sh.users[u].passwordHash).Malformed?
  {
    var q: Text, salt: Blob :| sh.users[u].passwordHash == cfg.crypto.argonHash(q, salt);
  }

  lemma GuestKeeps(cfg: Config, sh: Shared, pc: Pc, act: Action, o: Outcome)
    requires cfg.crypto.Sound() && HashesOk(cfg, sh) && ExitOk(pc)
    requires GuestStep(cfg, sh, pc, act) == Some(o)
    ensures TokensOk(Apply(sh, o.effect), o.pc) && HistoryOk(cfg, Apply(sh, o.effect), o.pc) && ExitOk(o.pc)
    ensures o.pc.Verified? ==> o.pc.user in sh.users && o.effect.Nothing?
  {
    if pc.Verifying? && pc.user in sh.users {
      StoredHashParses(cfg, sh, pc.user, pc.password);
    }
  }

  lemma SessionKeeps(cfg: Config, sh: Shared, pc: Pc, act: Action, o: Outcome)
    requires ExitOk(pc)
    requires SessionStep(sh, pc, act) == Some(o)
    ensures TokensOk(Apply(sh, o.effect), o.pc) && HistoryOk(cfg, Apply(sh, o.effect), o.pc) && ExitOk(o.pc)
    ensures !o.pc.Verified?
  {
  }

  lemma SelectKeeps(cfg: Config, sh: Shared, u: Text, op: TokenOp, act: Action, o: Outcome)
    requires BalancesOk(sh) && u in sh.users && OpOk(op) && (op.Refund? ==> sh.Balance(u) < I64_MAX)
    requires SelectStep(sh.users, u, op, act) == Some(o)
    ensures o.effect.Nothing? && !o.pc.Verified?
    ensures TokensOk(sh, o.pc) && HistoryOk(cfg, sh, o.pc) && ExitOk(o.pc)
  {
  }

  lemma CommitKeeps(cfg: Config, sh: Shared, u: Text, op: TokenOp, seen: i64, act: Action, o: Outcome)
    requires u in sh.users && CommitOk(sh, u, op, seen)
    requires CommitStep(sh.users, u, op, seen, act) == Some(o)
    ensures !o.pc.Verified?
    ensures TokensOk(Apply(sh, o.effect), o.pc) && HistoryOk(cfg, Apply(sh, o.effect), o.pc) && ExitOk(o.pc)
  {
  }

  lemma TokenKeeps(cfg: Config, sh: Shared, pc: Pc, act: Action, o: Outcome)
    requires BalancesOk(sh) && KnownUser(sh, pc) && TokensOk(sh, pc)
    requires TokenStep(sh, pc, act) == Some(o)
    ensures TokensOk(Apply(sh, o.effect), o.pc) && HistoryOk(cfg, Apply(sh, o.effect), o.pc) && ExitOk(o.pc)
    ensures !o.pc.Verified?
  {
    if pc.TxSelect? {
      SelectKeeps(cfg, sh, pc.user, pc.op, act, o);
    } else {
      CommitKeeps(cfg, sh, pc.user, pc.op, pc.seen, act, o);
    }
  }

  lemma StampKeeps(cfg: Config, sh: Shared, pc: Pc, act: Action, o: Outcome)
    requires cfg.crypto.Sound() && KnownUser(sh, pc) && TokensOk(sh, pc) && HistoryOk(cfg, sh, pc)
    requires StampStep(cfg, sh, pc, act) == Some(o)
    ensures TokensOk(Apply(sh, o.effect), o.pc) && HistoryOk(cfg, Apply(sh, o.effect), o.pc) && ExitOk(o.pc)
    ensures !o.pc.Verified?
  {
  }

  lemma QueryKeeps(cfg: Config, sh: Shared, pc: Pc, act: Action, o: Outcome)
    requires BalancesOk(sh) && RecordsOk(sh) && KnownUser(sh, pc)
    requires QueryStep(sh, pc, act) == Some(o)
    ensures TokensOk(Apply(sh, o.effect), o.pc) && HistoryOk(cfg, Apply(sh, o.effect), o.pc) && ExitOk(o.pc)
    ensures !o.pc.Verified?
  {
    if pc.ReadHistory? && act.RowsRead? {
      QueryDecodesToLatest(sh.HistoryOf(pc.user), HISTORY_LIMIT, act.rows);
    }
  }

  lemma OwnStep(cfg: Config, sh: Shared, pc: Pc, act: Action, o: Outcome)
    requires cfg.crypto.Sound()
    requires TablesOk(cfg, sh) && PcOk(cfg, sh, pc)
    requires LocalStep(cfg, sh, pc, act) == Some(o)
    ensures PcOk(cfg, Apply(sh, o.effect), o.pc)
  {
    HolderOfStep(cfg, sh, pc, act, o);
    match pc.Part() {
      case Guest => GuestKeeps(cfg, sh, pc, act, o);
      case Session => SessionKeeps(cfg, sh, pc, act, o);
      case TokenTx => TokenKeeps(cfg, sh, pc, act, o);
      case Stamp => StampKeeps(cfg, sh, pc, act, o);
      case Query => QueryKeeps(cfg, sh, pc, act, o);
      case Done =>
    }
    if o.effect.Lock? { OriginOfStep(cfg, sh, pc, act, o); }
  }

  lemma UsersKept(cfg: Config, sh: Shared, pc: Pc, act: Action, o: Outcome)
    requires Origin(cfg, sh, pc, act, o) && UsersOk(sh) && KnownUser(sh, pc)
    ensures UsersOk(Apply(sh, o.effect))
    ensures sh.users.Keys <= Apply(sh, o.effect).users.Keys
  {
  }

  lemma BalancesKept(cfg: Config, sh: Shared, pc: Pc, act: Action, o: Outcome)
    requires Origin(cfg, sh, pc, act, o) && BalancesOk(sh) && TokensOk(sh, pc)
    ensures BalancesOk(Apply(sh, o.effect))
  {
  }

  lemma HashesKept(cfg: Config, sh: Shared, pc: Pc, act: Action, o: Outcome)
    requires Origin(cfg, sh, pc, act, o) && HashesOk(cfg, sh)
    ensures HashesOk(cfg, Apply(sh, o.effect))
  {
    if o.effect.Register? {
      assert Hashed(cfg, cfg.crypto.argonHash(pc.password, act.salt));
    }
  }

  lemma RecordsKept(cfg: Config, sh: Shared, pc: Pc, act: Action, o: Outcome)
    requires Origin(cfg, sh, pc, act, o) && RecordsOk(sh)
    ensures RecordsOk(Apply(sh, o.effect))
  {
    if o.effect.AddRecord? {
      assert WellFormed(sh.HistoryOf(pc.user));
      assert WellFormed(sh.HistoryOf(pc.user)[o.effect.key := o.effect.hash]);
    }
  }

  lemma StepKeepsTables(cfg: Config, sh: Shared, pc: Pc, act: Action, o: Outcome)
    requires TablesOk(cfg, sh) && PcOk(cfg, sh, pc)
    requires LocalStep(cfg, sh, pc, act) == Some(o)
    ensures TablesOk(cfg, Apply(sh, o.effect))
    ensures sh.users.Keys <= Apply(sh, o.effect).users.Keys
  {
    OriginOfStep(cfg, sh, pc, act, o);
    UsersKept(cfg, sh, pc, act, o);
    BalancesKept(cfg, sh, pc, act, o);
    HashesKept(cfg, sh, pc, act, o);
    RecordsKept(cfg, sh, pc, act, o);
  }

  // ----- The tasks that do not move -----

  /** The effect of a task that does not hold u leaves u's rows alone. */
  lemma RowsOf(cfg: Config, sh: Shared, pc: Pc, act: Action, o: Outcome, u: Text)
    requires LocalStep(cfg, sh, pc, act) == Some(o) && pc.Holds() != Some(u)
    ensures u in sh.users ==> u in Apply(sh, o.effect).users && Apply(sh, o.effect).users[u] == sh.users[u]
    ensures Apply(sh, o.effect).HistoryOf(u) == sh.HistoryOf(u)
  {
    HolderOfStep(cfg, sh, pc, act, o);
  }

  /** Only the rows of the user it holds matter to a task. */
  lemma Undisturbed(cfg: Config, sh: Shared, sh': Shared, pc: Pc)
    requires PcOk(cfg, sh, pc) && sh.users.Keys <= sh'.users.Keys
    requires pc.Holds().Some? ==> sh'.users[pc.Holds().value] == sh.users[pc.Holds().value]
    requires pc.Holds().Some? ==> sh'.HistoryOf(pc.Holds().value) == sh.HistoryOf(pc.Holds().value)
    ensures PcOk(cfg, sh', pc)
  {
  }

  // ----- The whole invariant -----

  ghost predicate Inv(cfg: Config, s: State) {
    && LocksOk(s)
    && TablesOk(cfg, s.shared)
    && (forall c :: c in s.conns ==> PcOk(cfg, s.shared, s.conns[c]))
  }

  lemma TaskKeepsInv(cfg: Config, s: State, c: ConnId, act: Action, s': State)
    requires cfg.crypto.Sound()
    requires Inv(cfg, s) && TaskStep(cfg, s, c, act) == Some(s')
    ensures Inv(cfg, s')
  {
    var o := LocalStep(cfg, s.shared, s.conns[c], act).value;
    TaskKeepsLocks(cfg, s, c, act, s');
    OwnStep(cfg, s.shared, s.conns[c], act, o);
    StepKeepsTables(cfg, s.shared, s.conns[c], act, o);
    forall d | d in s'.conns ensures PcOk(cfg, s'.shared, s'.conns[d]) {
      if d != c {
        if s.conns[d].Holds().Some? { RowsOf(cfg, s.shared, s.conns[c], act, o, s.conns[d].Holds().value); }
        Undisturbed(cfg, s.shared, s'.shared, s.conns[d]);
      }
    }
  }

  /** What a step that no task takes leaves alone. */
  ghost predicate Framed(s: State, s': State) {
    && s'.shared.users == s.shared.users && s'.shared.history == s.shared.history
    && (s'.shared.logged == s.shared.logged || (s'.shared.logged == {} && s'.conns == map[]))
    && (forall c :: c in s'.conns ==> (c in s.conns && s'.conns[c] == s.conns[c]) || s'.conns[c].Shaking?)
  }

  lemma OtherStepFrames(cfg: Config, s: State, l: Label, s': State)
    requires Step(cfg, s, l) == Some(s') && !l.Task?
    ensures Framed(s, s')
  {
  }

  lemma FramedKeepsInv(cfg: Config, s: State, s': State)
    requires Inv(cfg, s) && Framed(s, s')
    ensures Inv(cfg, s')
  {
    forall d | d in s'.conns && d in s.conns && s'.conns[d] == s.conns[d] ensures PcOk(cfg, s'.shared, s'.conns[d]) {
      Undisturbed(cfg, s.shared, s'.shared, s.conns[d]);
    }
  }

  /** Every step of the server keeps the invariant. */
  lemma StepKeepsInv(cfg: Config, s: State, l: Label, s': State)
    requires cfg.crypto.Sound()
    requires Inv(cfg, s) && Step(cfg, s, l) == Some(s')
    ensures Inv(cfg, s')
  {
    if l.Task? {
      TaskKeepsInv(cfg, s, l.conn, l.act, s');
    } else {
      OtherStepFrames(cfg, s, l, s');
      FramedKeepsInv(cfg, s, s');
    }
  }

  lemma StepKeepsLocks(cfg: Config, s: State, l: Label, s': State)
    requires LocksOk(s) && Step(cfg, s, l) == Some(s')
    ensures LocksOk(s')
  {
    if l.Task? {
      TaskKeepsLocks(cfg, s, l.conn, l.act, s');
    } else {
      OtherStepFrames(cfg, s, l, s');
    }
  }

  /** The locks need no assumption about the libraries. */
  lemma {:induction false} LocksOfRun(cfg: Config, synced: bool, run: Run, s: State)
    requires Reaches(cfg, synced, run, s)
    ensures LocksOk(s)
    decreases |run|
  {
    if run != [] {
      var before, l := run[..|run| - 1], run[|run| - 1];
      var p := Exec(cfg, Init(synced), before).value;
      LocksOfRun(cfg, synced, before, p);
      StepKeepsLocks(cfg, p, l, s);
    }
  }

  lemma {:induction false} RunKeepsInv(cfg: Config, start: State, run: Run)
    requires cfg.crypto.Sound()
    requires Inv(cfg, start) && Exec(cfg, start, run).Some?
    ensures Inv(cfg, Exec(cfg, start, run).value)
    decreases |run|
  {
    if run != [] {
      var n := |run| - 1;
      RunKeepsInv(cfg, start, run[..n]);
      StepKeepsInv(cfg, Exec(cfg, start, run[..n]).value, run[n], Exec(cfg, start, run).value);
    }
  }

  lemma InvOfRun(cfg: Config, synced: bool, run: Run, s: State)
    requires cfg.crypto.Sound() && Reaches(cfg, synced, run, s)
    ensures Inv(cfg, s)
  {
    RunKeepsInv(cfg, Init(synced), run);
  }

  lemma PcOfRun(cfg: Config, synced: bool, run: Run, s: State, c: ConnId)
    requires cfg.crypto.Sound() && Reaches(cfg, synced, run, s) && c in s.conns
    ensures TablesOk(cfg, s.shared) && PcOk(cfg, s.shared, s.conns[c])
  {
    InvOfRun(cfg, synced, run, s);
  }
}
