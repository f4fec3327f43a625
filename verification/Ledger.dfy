/**
 Tokens over whole runs: for every user the interleaved server behaves like a sequential account,
 and no token appears or disappears except where the code gives one up.
 */
module Ledger {
  import opened Wrappers
  import opened MachineInts
  import opened Bytes
  import opened ServerProtocol
  import opened Database
  import opened Machine
  import opened Safety
  import opened Scenario
  import Clock = TimeOracle

  // ----- The sequential account -----

  /** What happened to one user's account, with the answers that were given. */
  datatype Entry =
    | Opened
    | Bought(amount: int, reported: u64)
    | TooMuch(amount: int)
    | Debited
    | TooPoor
    | Refunded
    | RefundRefused
    | Counted(reported: u64)

  /** The largest balance the accounts can hold. */
  const MOST: int := 9_223_372_036_854_775_807

  /** An account that does one thing at a time: check and update are one step. None is an illegal entry. */
  function Book(balance: Option<int>, e: Entry): Option<Option<int>> {
    match e
    case Opened => if balance == None then Some(Some(0)) else None
    case Bought(n, r) =>
      if balance.Some? && n >= 0 && balance.value + n <= MOST && r == balance.value + n then Some(Some(r)) else None
    case TooMuch(n) => if balance.Some? && balance.value + n > MOST then Some(balance) else None
    case Debited => if balance.Some? && balance.value > 0 then Some(Some(balance.value - 1)) else None
    case TooPoor => if balance == Some(0) then Some(balance) else None
    case Refunded => if balance.Some? && balance.value < MOST then Some(Some(balance.value + 1)) else None
    case RefundRefused => if balance == Some(MOST) then Some(balance) else None
    case Counted(r) => if balance == Some(r) then Some(balance) else None
  }

  function BookAll(entries: seq<Entry>): Option<Option<int>> {
    if entries == [] then Some(None)
    else match BookAll(entries[..|entries| - 1])
      case None => None
      case Some(balance) => Book(balance, entries[|entries| - 1])
  }

  lemma BookOneMore(entries: seq<Entry>, e: Entry)
    requires BookAll(entries).Some?
    ensures BookAll(entries + [e]) == Book(BookAll(entries).value, e)
  {
    assert (entries + [e])[..|entries|] == entries;
  }

  // ----- A run, as user u's account sees it -----

  function SelectEntry(op: TokenOp): Entry {
    match op
    case Debit(_) => TooPoor
    case Buy(n) => TooMuch(n)
    case Refund => RefundRefused
  }

  function CommitEntry(op: TokenOp, next: Pc): Entry {
    match op
    case Debit(_) => Debited
    case Buy(n) => if Says(next) then Bought(n, next.response.count) else TooMuch(n)
    case Refund => Refunded
  }

  /** The task is about to tell the client a number of tokens. */
  predicate Says(pc: Pc) {
    pc.SessionReply? && pc.response.TokenCount?
  }

  /** The entry a task's step makes, read off the answer it gives and the update it commits. */
  function EntryOf(pc: Pc, act: Action, o: Outcome): Option<Entry> {
    if pc.Registering? && o.effect.Register? then Some(Opened)
    else if pc.SessionIdle? && act.Fetched? && act.request.PurchaseTokens? && o.pc.SessionReply? then
      Some(TooMuch(act.request.amount))
    else if pc.TxSelect? && act.Select? && o.pc.SessionReply? then Some(SelectEntry(pc.op))
    else if pc.TxCommit? && act.Commit? then Some(CommitEntry(pc.op, o.pc))
    else if pc.Counting? && Says(o.pc) then Some(Counted(o.pc.response.count))
    else None
  }

  /** The entries a step makes in u's account: one or none. */
  function Entries(pc: Pc, act: Action, o: Outcome, u: Text): seq<Entry> {
    var e := EntryOf(pc, act, o);
    if e.Some? && pc.user == u then [e.value] else []
  }

  ghost function EntriesAt(cfg: Config, s: State, l: Label, u: Text): seq<Entry> {
    if l.Task? && l.conn in s.conns && LocalStep(cfg, s.shared, s.conns[l.conn], l.act).Some?
    then Entries(s.conns[l.conn], l.act, LocalStep(cfg, s.shared, s.conns[l.conn], l.act).value, u)
    else []
  }

  /** The run projected on one username. */
  ghost function Statement(cfg: Config, synced: bool, run: Run, u: Text): seq<Entry>
    decreases |run|
  {
    if run == [] then []
    else
      var before := run[..|run| - 1];
      match Exec(cfg, Init(synced), before)
      case None => []
      case Some(s) => Statement(cfg, synced, before, u) + EntriesAt(cfg, s, run[|run| - 1], u)
  }

  /** The stored balance; None before sign-up. */
  function Account(sh: Shared, u: Text): Option<int> {
    if u in sh.users then Some(sh.users[u].availableTokens) else None
  }

  /** Booking the entry a step makes turns the old balance into the new one; no entry, no change. */
  predicate Books(sh: Shared, pc: Pc, act: Action, o: Outcome, u: Text) {
    var es := Entries(pc, act, o, u);
    if es == [] then Account(Apply(sh, o.effect), u) == Account(sh, u)
    else Book(Account(sh, u), es[0]) == Some(Account(Apply(sh, o.effect), u))
  }

  lemma GuestBooks(cfg: Config, sh: Shared, pc: Pc, act: Action, o: Outcome, u: Text)
    requires GuestStep(cfg, sh, pc, act) == Some(o)
    ensures Books(sh, pc, act, o, u)
  {
  }

  lemma SessionBooks(sh: Shared, pc: Pc, act: Action, o: Outcome, u: Text)
    requires BalancesOk(sh) && KnownUser(sh, pc)
    requires SessionStep(sh, pc, act) == Some(o)
    ensures Books(sh, pc, act, o, u)
  {
  }

  /** The SELECT's refusals are right about the balance the account has now. */
  lemma SelectBooks(sh: Shared, pc: Pc, act: Action, o: Outcome, u: Text)
    requires BalancesOk(sh) && KnownUser(sh, pc) && pc.TxSelect?
    requires SelectStep(sh.users, pc.user, pc.op, act) == Some(o)
    ensures Books(sh, pc, act, o, u)
  {
  }

  /** The commit acts on a balance read earlier; the lock has kept it current. */
  lemma CommitBooks(sh: Shared, pc: Pc, act: Action, o: Outcome, u: Text)
    requires BalancesOk(sh) && KnownUser(sh, pc) && pc.TxCommit? && CommitOk(sh, pc.user, pc.op, pc.seen)
    requires CommitStep(sh.users, pc.user, pc.op, pc.seen, act) == Some(o)
    ensures Books(sh, pc, act, o, u)
  {
  }

  lemma StampBooks(cfg: Config, sh: Shared, pc: Pc, act: Action, o: Outcome, u: Text)
    requires StampStep(cfg, sh, pc, act) == Some(o)
    ensures Books(sh, pc, act, o, u)
  {
  }

  lemma QueryBooks(sh: Shared, pc: Pc, act: Action, o: Outcome, u: Text)
    requires BalancesOk(sh) && KnownUser(sh, pc)
    requires QueryStep(sh, pc, act) == Some(o)
    ensures Books(sh, pc, act, o, u)
  {
  }

  lemma StepBooks(cfg: Config, sh: Shared, pc: Pc, act: Action, o: Outcome, u: Text)
    requires TablesOk(cfg, sh) && PcOk(cfg, sh, pc)
    requires LocalStep(cfg, sh, pc, act) == Some(o)
    ensures Books(sh, pc, act, o, u)
  {
    match pc.Part() {
      case Guest => GuestBooks(cfg, sh, pc, act, o, u);
      case Session => SessionBooks(sh, pc, act, o, u);
      case TokenTx =>
        if pc.TxSelect? { SelectBooks(sh, pc, act, o, u); } else { CommitBooks(sh, pc, act, o, u); }
      case Stamp => StampBooks(cfg, sh, pc, act, o, u);
      case Query => QueryBooks(sh, pc, act, o, u);
      case Done =>
    }
  }

  lemma TakenStepBooks(cfg: Config, s: State, l: Label, s': State, u: Text)
    requires Inv(cfg, s) && Step(cfg, s, l) == Some(s')
    ensures var es := EntriesAt(cfg, s, l, u);
            |es| <= 1 &&
            if es == [] then Account(s'.shared, u) == Account(s.shared, u)
            else Book(Account(s.shared, u), es[0]) == Some(Account(s'.shared, u))
  {
    if l.Task? {
      StepBooks(cfg, s.shared, s.conns[l.conn], l.act, LocalStep(cfg, s.shared, s.conns[l.conn], l.act).value, u);
    } else {
      OtherStepFrames(cfg, s, l, s');
    }
  }

  /**
   However the connections interleave between the SELECT and the commit of their transactions, the
   run as user u sees it is a run of the sequential account: every refusal is justified, every
   count reported is the account's balance, and the stored balance is where the account stands.
   */
  lemma {:induction false} RunIsSequentialAccount(cfg: Config, synced: bool, run: Run, s: State, u: Text)
    requires cfg.crypto.Sound() && Reaches(cfg, synced, run, s)
    ensures BookAll(Statement(cfg, synced, run, u)) == Some(Account(s.shared, u))
    decreases |run|
  {
    if run != [] {
      var before, l := run[..|run| - 1], run[|run| - 1];
      var p := Exec(cfg, Init(synced), before).value;
      RunIsSequentialAccount(cfg, synced, before, p, u);
      InvOfRun(cfg, synced, before, p);
      TakenStepBooks(cfg, p, l, s, u);
      var es := EntriesAt(cfg, p, l, u);
      var account := Statement(cfg, synced, before, u);
      if es == [] {
        assert account + es == account;
      } else {
        assert es == [es[0]];
        BookOneMore(account, es[0]);
      }
    }
  }

  // ----- Conservation -----

  /** The tokens a step adds by a committed purchase of u. */
  function Purchase(pc: Pc, act: Action, u: Text): int {
    if pc.TxCommit? && pc.user == u && pc.op.Buy? && act.Commit? then pc.op.amount else 0
  }

  /** The steps on which the code gives up a debited token of u. */
  predicate Burns(offset: i64, pc: Pc, act: Action, u: Text) {
    || (pc.ReadClock? && pc.user == u && act.ReadTime? && Clock.Issue(offset, act.local) == None)
    || (pc.Recording? && pc.user == u && act.SqlFails?)
    || (pc.TxSelect? && pc.user == u && pc.op.Refund? && act.SqlFails?)
    || (pc.TxCommit? && pc.user == u && pc.op.Refund? && act.SqlFails?)
  }

  function Pending(pc: Pc, u: Text): nat {
    if pc.InFlight() == Some(u) then 1 else 0
  }

  ghost function InFlight(s: State, u: Text): nat {
    if exists c :: c in s.conns && s.conns[c].InFlight() == Some(u) then 1 else 0
  }

  /** One task step, in tokens of u: what comes in equals what is stored, recorded, pending or given up. */
  predicate Balanced(sh: Shared, pc: Pc, act: Action, o: Outcome, u: Text) {
    var sh' := Apply(sh, o.effect);
    Purchase(pc, act, u) ==
    (sh'.Balance(u) - sh.Balance(u)) + (|sh'.HistoryOf(u)| - |sh.HistoryOf(u)|) +
    (Pending(o.pc, u) - Pending(pc, u)) + (if Burns(sh.offset, pc, act, u) then 1 else 0)
  }

  /** The step neither moves a token nor leaves or enters a request to sign. */
  predicate TokenNeutral(sh: Shared, pc: Pc, o: Outcome) {
    && pc.InFlight() == o.pc.InFlight() == None && !pc.TxCommit?
    && (o.effect.Nothing? || o.effect.Lock? || o.effect.Unlock? || o.effect.Register?)
    && (o.effect.Register? ==> o.effect.user !in sh.users && o.effect.row.availableTokens == 0)
  }

  lemma GuestIsNeutral(cfg: Config, sh: Shared, pc: Pc, act: Action, o: Outcome)
    requires GuestStep(cfg, sh, pc, act) == Some(o)
    ensures TokenNeutral(sh, pc, o)
  {
  }

  lemma SessionIsNeutral(sh: Shared, pc: Pc, act: Action, o: Outcome)
    requires SessionStep(sh, pc, act) == Some(o)
    ensures TokenNeutral(sh, pc, o)
  {
  }

  lemma QueryIsNeutral(sh: Shared, pc: Pc, act: Action, o: Outcome)
    requires QueryStep(sh, pc, act) == Some(o)
    ensures TokenNeutral(sh, pc, o)
  {
  }

  lemma NeutralBalanced(sh: Shared, pc: Pc, act: Action, o: Outcome, u: Text)
    requires TokenNeutral(sh, pc, o)
    ensures Balanced(sh, pc, act, o, u)
  {
    assert Apply(sh, o.effect).HistoryOf(u) == sh.HistoryOf(u);
  }

  lemma SelectBalanced(sh: Shared, pc: Pc, act: Action, o: Outcome, u: Text)
    requires KnownUser(sh, pc) && TokensOk(sh, pc) && pc.TxSelect?
    requires SelectStep(sh.users, pc.user, pc.op, act) == Some(o)
    ensures Balanced(sh, pc, act, o, u)
  {
  }

  lemma CommitBalanced(sh: Shared, pc: Pc, act: Action, o: Outcome, u: Text)
    requires KnownUser(sh, pc) && TokensOk(sh, pc) && pc.TxCommit?
    requires CommitStep(sh.users, pc.user, pc.op, pc.seen, act) == Some(o)
    ensures Balanced(sh, pc, act, o, u)
  {
  }

  lemma RecordBalanced(sh: Shared, pc: Pc, act: Action, o: Outcome, u: Text)
    requires pc.Recording? && pc.user in sh.users
    requires RecordStep(sh, pc.user, pc.hash, pc.timestamp, pc.sign, act) == Some(o)
    ensures Balanced(sh, pc, act, o, u)
  {
    if o.effect.AddRecord? {
      var table := sh.HistoryOf(pc.user);
      assert table[o.effect.key := o.effect.hash].Keys == table.Keys + {o.effect.key};
    }
  }

  lemma StampBalanced(cfg: Config, sh: Shared, pc: Pc, act: Action, o: Outcome, u: Text)
    requires KnownUser(sh, pc)
    requires StampStep(cfg, sh, pc, act) == Some(o)
    ensures Balanced(sh, pc, act, o, u)
  {
    if pc.Recording? {
      RecordBalanced(sh, pc, act, o, u);
    }
  }

  lemma StepBalanced(cfg: Config, sh: Shared, pc: Pc, act: Action, o: Outcome, u: Text)
    requires PcOk(cfg, sh, pc)
    requires LocalStep(cfg, sh, pc, act) == Some(o)
    ensures Balanced(sh, pc, act, o, u)
  {
    match pc.Part() {
      case Guest => GuestIsNeutral(cfg, sh, pc, act, o); NeutralBalanced(sh, pc, act, o, u);
      case Session => SessionIsNeutral(sh, pc, act, o); NeutralBalanced(sh, pc, act, o, u);
      case TokenTx =>
        if pc.TxSelect? { SelectBalanced(sh, pc, act, o, u); } else { CommitBalanced(sh, pc, act, o, u); }
      case Stamp => StampBalanced(cfg, sh, pc, act, o, u);
      case Query => QueryIsNeutral(sh, pc, act, o); NeutralBalanced(sh, pc, act, o, u);
      case Done =>
    }
  }

  lemma InFlightHolds(pc: Pc)
    ensures pc.InFlight().Some? ==> pc.Holds() == pc.InFlight()
  {
  }

  /** Only the moving task changes what is in flight: the lock leaves room for one debit per user. */
  lemma InFlightAfterTask(cfg: Config, s: State, c: ConnId, act: Action, s': State, u: Text)
    requires LocksOk(s) && TaskStep(cfg, s, c, act) == Some(s')
    ensures InFlight(s', u) - InFlight(s, u) == Pending(s'.conns[c], u) - Pending(s.conns[c], u)
  {
    TaskKeepsLocks(cfg, s, c, act, s');
    if d :| d in s.conns && d != c && s.conns[d].InFlight() == Some(u) {
      assert s'.conns[d] == s.conns[d];
      InFlightHolds(s.conns[d]);
      InFlightHolds(s.conns[c]);
      InFlightHolds(s'.conns[c]);
    } else {
      assert forall d :: d in s'.conns && d != c ==> s'.conns[d] == s.conns[d];
      assert c in s.conns && c in s'.conns;
    }
  }

  lemma InFlightAfterOther(cfg: Config, s: State, l: Label, s': State, u: Text)
    requires Step(cfg, s, l) == Some(s') && !l.Task? && !l.Restart?
    ensures InFlight(s', u) == InFlight(s, u)
  {
    assert forall c :: c in s.conns ==> c in s'.conns && s'.conns[c] == s.conns[c];
    assert forall c :: c in s'.conns && c !in s.conns ==> s'.conns[c].InFlight() == None;
  }

  /** Tokens of u that are stored, recorded or in flight. */
  ghost function Accounted(s: State, u: Text): int {
    s.shared.Balance(u) + |s.shared.HistoryOf(u)| + InFlight(s, u)
  }

  ghost function PurchaseAt(s: State, l: Label, u: Text): int {
    if l.Task? && l.conn in s.conns then Purchase(s.conns[l.conn], l.act, u) else 0
  }

  /** Also a process stop in the middle of a request loses the debited token. */
  ghost function BurnAt(s: State, l: Label, u: Text): nat {
    if l.Restart? then InFlight(s, u)
    else if l.Task? && l.conn in s.conns && Burns(s.shared.offset, s.conns[l.conn], l.act, u) then 1
    else 0
  }

  lemma TaskConserves(cfg: Config, s: State, c: ConnId, act: Action, s': State, u: Text)
    requires Inv(cfg, s) && TaskStep(cfg, s, c, act) == Some(s')
    ensures PurchaseAt(s, Task(c, act), u) == Accounted(s', u) - Accounted(s, u) + BurnAt(s, Task(c, act), u)
  {
    StepBalanced(cfg, s.shared, s.conns[c], act, LocalStep(cfg, s.shared, s.conns[c], act).value, u);
    InFlightAfterTask(cfg, s, c, act, s', u);
  }

  lemma OtherConserves(cfg: Config, s: State, l: Label, s': State, u: Text)
    requires Step(cfg, s, l) == Some(s') && !l.Task?
    ensures 0 == Accounted(s', u) - Accounted(s, u) + BurnAt(s, l, u)
  {
    OtherStepFrames(cfg, s, l, s');
    if !l.Restart? { InFlightAfterOther(cfg, s, l, s', u); }
  }

  ghost function Purchased(cfg: Config, synced: bool, run: Run, u: Text): int
    decreases |run|
  {
    if run == [] then 0
    else
      var before := run[..|run| - 1];
      match Exec(cfg, Init(synced), before)
      case None => 0
      case Some(s) => Purchased(cfg, synced, before, u) + PurchaseAt(s, run[|run| - 1], u)
  }

  ghost function Burned(cfg: Config, synced: bool, run: Run, u: Text): nat
    decreases |run|
  {
    if run == [] then 0
    else
      var before := run[..|run| - 1];
      match Exec(cfg, Init(synced), before)
      case None => 0
      case Some(s) => Burned(cfg, synced, before, u) + BurnAt(s, run[|run| - 1], u)
  }

  /**
   Conservation, after every run and for every user: the tokens bought are the balance, plus one
   for each record, plus a debit in flight, plus those given up on the four listed occasions or by
   a process stop.
   */
  lemma {:induction false} TokensAreConserved(cfg: Config, synced: bool, run: Run, s: State, u: Text)
    requires cfg.crypto.Sound() && Reaches(cfg, synced, run, s)
    ensures Purchased(cfg, synced, run, u) ==
            s.shared.Balance(u) + |s.shared.HistoryOf(u)| + InFlight(s, u) + Burned(cfg, synced, run, u)
    decreases |run|
  {
    if run != [] {
      var before, l := run[..|run| - 1], run[|run| - 1];
      var p := Exec(cfg, Init(synced), before).value;
      TokensAreConserved(cfg, synced, before, p, u);
      InvOfRun(cfg, synced, before, p);
      if l.Task? {
        TaskConserves(cfg, p, l.conn, l.act, s, u);
      } else {
        OtherConserves(cfg, p, l, s, u);
      }
    }
  }

  lemma RefundSelects(sh: Shared, u: Text)
    requires u in sh.users && 0 <= sh.users[u].availableTokens < I64_MAX
    ensures Readable(sh.users, u)
    ensures SelectStep(sh.users, u, Refund, Select) == Go(TxCommit(u, Refund, sh.Balance(u)))
  {
  }

  lemma RefundCommits(sh: Shared, u: Text, seen: i64)
    requires u in sh.users && 0 <= sh.users[u].availableTokens < I64_MAX
    ensures CommitStep(sh.users, u, Refund, seen, Commit) ==
            Some(Outcome(SessionReply(u, OperationError, false), AddTokens(u, 1)))
  {
  }

  /** A refund fails only if the database does: it never meets an overflow, a missing user or a failed CHECK. */
  lemma RefundAlwaysFits(cfg: Config, synced: bool, run: Run, s: State, c: ConnId, u: Text, seen: i64)
    requires cfg.crypto.Sound() && Reaches(cfg, synced, run, s) && c in s.conns
    ensures s.conns[c] == TxSelect(u, Refund) ==>
              Readable(s.shared.users, u) &&
              LocalStep(cfg, s.shared, s.conns[c], Select) == Go(TxCommit(u, Refund, s.shared.Balance(u)))
    ensures s.conns[c] == TxCommit(u, Refund, seen) ==>
              LocalStep(cfg, s.shared, s.conns[c], Commit) ==
              Some(Outcome(SessionReply(u, OperationError, false), AddTokens(u, 1))) &&
              s.shared.Balance(u) + 1 <= I64_MAX
  {
    PcOfRun(cfg, synced, run, s, c);
    if s.conns[c] == TxSelect(u, Refund) {
      RefundSelects(s.shared, u);
    } else if s.conns[c] == TxCommit(u, Refund, seen) {
      RefundCommits(s.shared, u, seen);
    }
  }

  /** The database refuses an update that would leave a negative balance, whatever the program checked. */
  lemma CheckIsEnforced(cfg: Config, s: State, c: ConnId, s': State)
    requires BalancesOk(s.shared) && TaskStep(cfg, s, c, Commit) == Some(s')
    ensures forall u :: u in s'.shared.users ==> s'.shared.users[u].availableTokens >= 0
  {
    var o := LocalStep(cfg, s.shared, s.conns[c], Commit).value;
    OriginOfStep(cfg, s.shared, s.conns[c], Commit, o);
    assert s.conns[c].TxCommit?;
  }

  /** Every balance, after every run and across restarts, is a valid i64 and not negative. */
  lemma BalancesInRange(cfg: Config, synced: bool, run: Run, s: State, u: Text)
    requires cfg.crypto.Sound() && Reaches(cfg, synced, run, s) && u in s.shared.users
    ensures 0 <= s.shared.users[u].availableTokens <= 9_223_372_036_854_775_807
  {
    InvOfRun(cfg, synced, run, s);
  }

  /** Two sessions of one user: what the username lock rules out. */
  function TwoBuyers(u: Text, hash: Text, n: i64): State {
    var sh := Shared(map[u := UserRow(hash, 0)], map[], {u}, 0, false);
    State(sh, map[0 := TxCommit(u, Buy(n), 0), 1 := TxCommit(u, Buy(n), 0)], Accepting, false)
  }

  /** Without the lock the check-then-update would not be sound: the second buyer is told a wrong balance. */
  lemma TheLockIsNeeded(cfg: Config, u: Text, hash: Text)
    ensures var s := TwoBuyers(u, hash, 1);
            && !LocksOk(s)
            && Exec(cfg, s, [Task(0, Commit), Task(1, Commit)]).Some?
            && var s' := Exec(cfg, s, [Task(0, Commit), Task(1, Commit)]).value;
               s'.shared.Balance(u) == 2 && s'.conns[1] == SessionReply(u, TokenCount(1), false)
  {
    var s := TwoBuyers(u, hash, 1);
    ExecOne(cfg, s, Task(0, Commit));
    ExecSnoc(cfg, s, [Task(0, Commit)], Task(1, Commit));
    assert [Task(0, Commit)] + [Task(1, Commit)] == [Task(0, Commit), Task(1, Commit)];
    assert s.conns[0].Holds() == s.conns[1].Holds();
  }

  // ----- Starting again on the database a run left -----

  /** The decoder refuses what does not fit an i32, as a checked narrowing does. */
  ghost predicate NarrowsI32(asI32: int -> Option<int>) {
    forall x :: asI32(x).Some? <==> -2_147_483_648 <= x <= 2_147_483_647
  }

  /** The audit never turns away a database whose balances fit an i32. */
  lemma SmallBalancesRestart(cfg: Config, synced: bool, run: Run, s: State, again: bool)
    requires cfg.crypto.Sound() && ReadsI32(cfg.asI32) && Reaches(cfg, synced, run, s)
    requires forall u :: u in s.shared.users ==> s.shared.users[u].availableTokens <= 2_147_483_647
    ensures Step(cfg, s, Restart(again)).Some?
  {
    InvOfRun(cfg, synced, run, s);
  }

  /**
   With a narrowing decoder the server can be started again exactly when no user has more than
   2^31 - 1 tokens, although balances up to 2^63 - 1 are sold.
   */
  lemma RestartsExactlyWhenSmall(cfg: Config, synced: bool, run: Run, s: State, again: bool)
    requires cfg.crypto.Sound() && NarrowsI32(cfg.asI32) && Reaches(cfg, synced, run, s)
    ensures Step(cfg, s, Restart(again)).Some? <==>
            forall u :: u in s.shared.users ==> s.shared.users[u].availableTokens <= 2_147_483_647
  {
    InvOfRun(cfg, synced, run, s);
    forall u | u in s.shared.users
      ensures cfg.asI32(s.shared.users[u].availableTokens).Some? <==> s.shared.users[u].availableTokens <= 2_147_483_647
    {
    }
  }

  /** It does happen: one purchase of more than 2^31 - 1 tokens, and the server cannot be started again. */
  lemma LargePurchaseBlocksRestart(cfg: Config, synced: bool, u: Text, p: Text, salt: Blob, n: i64, again: bool)
    requires cfg.crypto.Sound() && NarrowsI32(cfg.asI32) && CredentialsFit(u, p) && n > 2_147_483_647
    ensures var run := EnterRun(u, p, salt) + BuyRun(n);
            && Exec(cfg, Init(synced), run).Some?
            && Step(cfg, Exec(cfg, Init(synced), run).value, Restart(again)) == None
  {
    var s := EnterReaches(cfg, synced, u, p, salt);
    BuyReaches(cfg, synced, EnterRun(u, p, salt), s, u, n);
    var s' := AfterMove(s, AddTokens(u, n), SessionIdle(u));
    assert s'.shared.users[u].availableTokens == n;
    RestartsExactlyWhenSmall(cfg, synced, EnterRun(u, p, salt) + BuyRun(n), s', again);
  }
}
