/**
 Stretches of a run on connection 0, from which concrete runs are put together: sign up, log in,
 buy tokens, and ask for a signature.
 */
module Scenario {
  import opened Wrappers
  import opened MachineInts
  import opened Bytes
  import opened ServerProtocol
  import opened Database
  import opened Machine
  import Clock = TimeOracle

  /** The state s after connection 0 has moved to pc and written e. */
  function AfterMove(s: State, e: Effect, pc: Pc): State {
    s.(shared := Apply(s.shared, e), conns := s.conns[0 := pc])
  }

  function SignUpRun(u: Text, p: Text, salt: Blob): Run {
    [Accept(0), Task(0, ShakeDone), Task(0, Fetched(SignUp(u, p))), Task(0, InsertUser(salt)), Task(0, Sent)]
  }

  function LoginRun(u: Text, p: Text): Run {
    [Task(0, Fetched(Login(u, p))), Task(0, PasswordRead), Task(0, TakeLock)]
  }

  function BuyRun(n: u64): Run {
    [Task(0, Fetched(PurchaseTokens(n))), Task(0, Select), Task(0, Commit), Task(0, Sent)]
  }

  function DebitRun(h: Sha256Hash): Run {
    [Task(0, Fetched(SignHash(h))), Task(0, Select), Task(0, Commit)]
  }

  function SignRun(h: Sha256Hash, local: Clock.SystemTime): Run {
    DebitRun(h) + [Task(0, ReadTime(local)), Task(0, SignDone)]
  }

  function StoreRun(): Run {
    [Task(0, InsertRecord), Task(0, Sent)]
  }

  /** A server with u as its only user, and that user's connection as its only one. */
  predicate OnlyUser(cfg: Config, synced: bool, s: State, u: Text, p: Text, salt: Blob) {
    && s.shared.users == map[u := UserRow(cfg.crypto.argonHash(p, salt), 0)] && s.shared.history == map[]
    && s.shared.offset == 0 && s.syncing == synced && 0 in s.conns
  }

  lemma SignUpReaches(cfg: Config, synced: bool, u: Text, p: Text, salt: Blob) returns (s: State)
    requires CredentialsFit(u, p)
    ensures Reaches(cfg, synced, SignUpRun(u, p, salt), s) && OnlyUser(cfg, synced, s, u, p, salt)
    ensures s.conns[0] == GuestIdle && s.shared.logged == {}
  {
    var start := Init(synced);
    var users := map[u := UserRow(cfg.crypto.argonHash(p, salt), 0)];
    var s1 := start.(conns := map[0 := Shaking]);
    var r1 := [Accept(0)];
    ExecOne(cfg, start, Accept(0));
    assert Exec(cfg, start, r1) == Some(s1);
    ExecTask(cfg, start, r1, s1, 0, ShakeDone, GuestIdle, Nothing);
    var r2, s2 := r1 + [Task(0, ShakeDone)], AfterMove(s1, Nothing, GuestIdle);
    ExecTask(cfg, start, r2, s2, 0, Fetched(SignUp(u, p)), Registering(u, p), Nothing);
    var r3, s3 := r2 + [Task(0, Fetched(SignUp(u, p)))], AfterMove(s2, Nothing, Registering(u, p));
    ExecTask(cfg, start, r3, s3, 0, InsertUser(salt), GuestReply(Okay, None), Register(u, users[u]));
    var r4, s4 := r3 + [Task(0, InsertUser(salt))], AfterMove(s3, Register(u, users[u]), GuestReply(Okay, None));
    ExecTask(cfg, start, r4, s4, 0, Sent, GuestIdle, Nothing);
    s := AfterMove(s4, Nothing, GuestIdle);
    assert r4 + [Task(0, Sent)] == SignUpRun(u, p, salt);
  }

  lemma LoginReaches(cfg: Config, synced: bool, run: Run, s: State, u: Text, p: Text)
    requires Reaches(cfg, synced, run, s) && 0 in s.conns && s.conns[0] == GuestIdle && CredentialsFit(u, p)
    requires u in s.shared.users && u !in s.shared.logged
    requires cfg.crypto.argonVerify(p, s.shared.users[u].passwordHash) == Match
    ensures Reaches(cfg, synced, run + LoginRun(u, p), AfterMove(s, Lock(u), GuestReply(Okay, Some(u))))
  {
    var start := Init(synced);
    ExecTask(cfg, start, run, s, 0, Fetched(Login(u, p)), Verifying(u, p), Nothing);
    var r1, s1 := run + [Task(0, Fetched(Login(u, p)))], AfterMove(s, Nothing, Verifying(u, p));
    ExecTask(cfg, start, r1, s1, 0, PasswordRead, Verified(u), Nothing);
    var r2, s2 := r1 + [Task(0, PasswordRead)], AfterMove(s1, Nothing, Verified(u));
    ExecTask(cfg, start, r2, s2, 0, TakeLock, GuestReply(Okay, Some(u)), Lock(u));
    assert s2.conns[0 := GuestReply(Okay, Some(u))] == s.conns[0 := GuestReply(Okay, Some(u))];
    assert r2 + [Task(0, TakeLock)] == run + LoginRun(u, p);
  }

  function EnterRun(u: Text, p: Text, salt: Blob): Run {
    SignUpRun(u, p, salt) + LoginRun(u, p) + [Task(0, Sent)]
  }

  lemma SessionReaches(cfg: Config, synced: bool, run: Run, s: State, u: Text, p: Text)
    requires Reaches(cfg, synced, run, s) && 0 in s.conns && s.conns[0] == GuestIdle && CredentialsFit(u, p)
    requires u in s.shared.users && u !in s.shared.logged
    requires cfg.crypto.argonVerify(p, s.shared.users[u].passwordHash) == Match
    ensures Reaches(cfg, synced, run + LoginRun(u, p) + [Task(0, Sent)], AfterMove(s, Lock(u), SessionIdle(u)))
  {
    LoginReaches(cfg, synced, run, s, u, p);
    var s' := AfterMove(s, Lock(u), GuestReply(Okay, Some(u)));
    ExecTask(cfg, Init(synced), run + LoginRun(u, p), s', 0, Sent, SessionIdle(u), Nothing);
    assert s'.conns[0 := SessionIdle(u)] == s.conns[0 := SessionIdle(u)];
  }

  lemma EnterReaches(cfg: Config, synced: bool, u: Text, p: Text, salt: Blob) returns (s: State)
    requires cfg.crypto.Sound() && CredentialsFit(u, p)
    ensures Reaches(cfg, synced, EnterRun(u, p, salt), s) && OnlyUser(cfg, synced, s, u, p, salt)
    ensures s.conns[0] == SessionIdle(u)
  {
    var guest := SignUpReaches(cfg, synced, u, p, salt);
    SessionReaches(cfg, synced, SignUpRun(u, p, salt), guest, u, p);
    s := AfterMove(guest, Lock(u), SessionIdle(u));
  }

  lemma OfferReaches(cfg: Config, synced: bool, run: Run, s: State, u: Text, n: i64)
    requires Reaches(cfg, synced, run, s) && 0 in s.conns && s.conns[0] == SessionIdle(u)
    requires u in s.shared.users && n >= 0
    requires 0 <= s.shared.users[u].availableTokens && s.shared.users[u].availableTokens + n <= I64_MAX
    ensures Reaches(cfg, synced, run + [Task(0, Fetched(PurchaseTokens(n))), Task(0, Select)],
                    AfterMove(s, Nothing, TxCommit(u, Buy(n), s.shared.users[u].availableTokens)))
  {
    var next := TxCommit(u, Buy(n), s.shared.users[u].availableTokens);
    ExecTask(cfg, Init(synced), run, s, 0, Fetched(PurchaseTokens(n)), TxSelect(u, Buy(n)), Nothing);
    var r1, s1 := run + [Task(0, Fetched(PurchaseTokens(n)))], AfterMove(s, Nothing, TxSelect(u, Buy(n)));
    ExecTask(cfg, Init(synced), r1, s1, 0, Select, next, Nothing);
    assert s1.conns[0 := next] == s.conns[0 := next];
    assert r1 + [Task(0, Select)] == run + [Task(0, Fetched(PurchaseTokens(n))), Task(0, Select)];
  }

  lemma SettleReaches(cfg: Config, synced: bool, run: Run, s: State, u: Text, n: i64, seen: i64)
    requires Reaches(cfg, synced, run, s) && 0 in s.conns && s.conns[0] == TxCommit(u, Buy(n), seen)
    requires CheckHolds(s.shared.users, u, Buy(n)) && CheckedAddI64(seen, n).Some?
    ensures Reaches(cfg, synced, run + [Task(0, Commit), Task(0, Sent)], AfterMove(s, AddTokens(u, n), SessionIdle(u)))
  {
    ExecTask(cfg, Init(synced), run, s, 0, Commit, TxDone(u, Buy(n), seen), AddTokens(u, n));
    var r1, s1 := run + [Task(0, Commit)], AfterMove(s, AddTokens(u, n), TxDone(u, Buy(n), seen));
    ExecTask(cfg, Init(synced), r1, s1, 0, Sent, SessionIdle(u), Nothing);
    assert s1.conns[0 := SessionIdle(u)] == s.conns[0 := SessionIdle(u)];
    assert r1 + [Task(0, Sent)] == run + [Task(0, Commit), Task(0, Sent)];
  }

  lemma BuyReaches(cfg: Config, synced: bool, run: Run, s: State, u: Text, n: i64)
    requires Reaches(cfg, synced, run, s) && 0 in s.conns && s.conns[0] == SessionIdle(u)
    requires u in s.shared.users && n >= 0
    requires 0 <= s.shared.users[u].availableTokens && s.shared.users[u].availableTokens + n <= I64_MAX
    ensures Reaches(cfg, synced, run + BuyRun(n), AfterMove(s, AddTokens(u, n), SessionIdle(u)))
  {
    var seen := s.shared.users[u].availableTokens;
    OfferReaches(cfg, synced, run, s, u, n);
    var r1 := run + [Task(0, Fetched(PurchaseTokens(n))), Task(0, Select)];
    var s1 := AfterMove(s, Nothing, TxCommit(u, Buy(n), seen));
    SettleReaches(cfg, synced, r1, s1, u, n, seen);
    assert s1.conns[0 := SessionIdle(u)] == s.conns[0 := SessionIdle(u)];
    assert r1 + [Task(0, Commit), Task(0, Sent)] == run + BuyRun(n);
  }

  lemma DebitReaches(cfg: Config, synced: bool, run: Run, s: State, u: Text, h: Sha256Hash)
    requires Reaches(cfg, synced, run, s) && 0 in s.conns && s.conns[0] == SessionIdle(u)
    requires u in s.shared.users && 0 < s.shared.users[u].availableTokens <= I64_MAX
    ensures Reaches(cfg, synced, run + DebitRun(h), AfterMove(s, AddTokens(u, -1), ReadClock(u, h)))
  {
    var start, seen := Init(synced), s.shared.users[u].availableTokens;
    ExecTask(cfg, start, run, s, 0, Fetched(SignHash(h)), TxSelect(u, Debit(h)), Nothing);
    var r1, s1 := run + [Task(0, Fetched(SignHash(h)))], AfterMove(s, Nothing, TxSelect(u, Debit(h)));
    ExecTask(cfg, start, r1, s1, 0, Select, TxCommit(u, Debit(h), seen), Nothing);
    var r2, s2 := r1 + [Task(0, Select)], AfterMove(s1, Nothing, TxCommit(u, Debit(h), seen));
    ExecTask(cfg, start, r2, s2, 0, Commit, ReadClock(u, h), AddTokens(u, -1));
    assert s2.conns[0 := ReadClock(u, h)] == s.conns[0 := ReadClock(u, h)];
    assert r2 + [Task(0, Commit)] == run + DebitRun(h);
  }

  lemma StampReaches(cfg: Config, synced: bool, run: Run, s: State, u: Text, h: Sha256Hash, local: Clock.SystemTime,
                     ts: Timestamp, sign: RsaSignature)
    requires Reaches(cfg, synced, run, s) && 0 in s.conns && s.conns[0] == ReadClock(u, h)
    requires Clock.Issue(s.shared.offset, local) == Some(ts) && cfg.crypto.rsaSign(cfg.crypto.Bind(h, ts)) == Some(sign)
    ensures Reaches(cfg, synced, run + [Task(0, ReadTime(local)), Task(0, SignDone)],
                    AfterMove(s, Nothing, Recording(u, h, ts, sign)))
  {
    var start := Init(synced);
    ExecTask(cfg, start, run, s, 0, ReadTime(local), Signing(u, h, ts), Nothing);
    var r1, s1 := run + [Task(0, ReadTime(local))], AfterMove(s, Nothing, Signing(u, h, ts));
    ExecTask(cfg, start, r1, s1, 0, SignDone, Recording(u, h, ts, sign), Nothing);
    assert s1.conns[0 := Recording(u, h, ts, sign)] == s.conns[0 := Recording(u, h, ts, sign)];
    assert r1 + [Task(0, SignDone)] == run + [Task(0, ReadTime(local)), Task(0, SignDone)];
  }

  /** From a session with a token to the point where the signed timestamp is to be recorded. */
  lemma SignReaches(cfg: Config, synced: bool, run: Run, s: State, u: Text, h: Sha256Hash, local: Clock.SystemTime,
                    ts: Timestamp, sign: RsaSignature)
    requires Reaches(cfg, synced, run, s) && 0 in s.conns && s.conns[0] == SessionIdle(u)
    requires u in s.shared.users && 0 < s.shared.users[u].availableTokens <= I64_MAX
    requires Clock.Issue(s.shared.offset, local) == Some(ts) && cfg.crypto.rsaSign(cfg.crypto.Bind(h, ts)) == Some(sign)
    ensures Reaches(cfg, synced, run + SignRun(h, local), AfterMove(s, AddTokens(u, -1), Recording(u, h, ts, sign)))
  {
    DebitReaches(cfg, synced, run, s, u, h);
    var paid := AfterMove(s, AddTokens(u, -1), ReadClock(u, h));
    StampReaches(cfg, synced, run + DebitRun(h), paid, u, h, local, ts, sign);
    assert paid.conns[0 := Recording(u, h, ts, sign)] == s.conns[0 := Recording(u, h, ts, sign)];
    assert run + DebitRun(h) + [Task(0, ReadTime(local)), Task(0, SignDone)] == run + SignRun(h, local);
  }

  lemma StoreReaches(cfg: Config, synced: bool, run: Run, s: State, u: Text, h: Sha256Hash, ts: Timestamp,
                     sign: RsaSignature)
    requires Reaches(cfg, synced, run, s) && 0 in s.conns && s.conns[0] == Recording(u, h, ts, sign)
    requires u in s.shared.users && ToBeBytes(ts) !in s.shared.HistoryOf(u)
    ensures Reaches(cfg, synced, run + StoreRun(), AfterMove(s, AddRecord(u, ToBeBytes(ts), sign), SessionIdle(u)))
  {
    var start, reply := Init(synced), SessionReply(u, Token(h, sign, ts), false);
    ExecTask(cfg, start, run, s, 0, InsertRecord, reply, AddRecord(u, ToBeBytes(ts), sign));
    var r1, s1 := run + [Task(0, InsertRecord)], AfterMove(s, AddRecord(u, ToBeBytes(ts), sign), reply);
    ExecTask(cfg, start, r1, s1, 0, Sent, SessionIdle(u), Nothing);
    assert s1.conns[0 := SessionIdle(u)] == s.conns[0 := SessionIdle(u)];
    assert r1 + [Task(0, Sent)] == run + StoreRun();
  }
}
