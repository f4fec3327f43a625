/**
 One connection as its client sees it: on every run the k-th reply answers the k-th request, in the
 mode (guest or session) that the earlier exchanges have led to.
 */
module Exchange {
  import opened Wrappers
  import opened ServerProtocol
  import opened Database
  import opened Machine
  import opened Safety

  // ----- The protocol, without the server -----

  /** The mode after the exchanges so far: a granted login opens a session, a logout ends it. */
  function LoggedIn(requests: seq<Request>, replies: seq<Response>): bool
    requires |replies| <= |requests|
    decreases |replies|
  {
    if replies == [] then false
    else
      var n := |replies| - 1;
      if requests[n].Login? && replies[n].Okay? then true
      else if requests[n].LogOut? && replies[n].Okay? then false
      else LoggedIn(requests, replies[..n])
  }

  /** Which replies a request may get. */
  predicate Answers(session: bool, request: Request, reply: Response) {
    if session then
      match request
      case Login(_, _) => reply == LoginFailed(AlreadyLoggedIn)
      case SignUp(_, _) => reply == SignInFailed(SessionOpen)
      case LogOut => reply == Okay
      case SignHash(h) => (reply.Token? && reply.hash == h) || reply.NotEnoughTokens? || reply.OperationError?
      case PurchaseTokens(_) => reply.TokenCount? || reply.TokenAmountTooHigh?
      case HowManyTokensDoIHave => reply.TokenCount?
      case History => reply.Records?
    else
      match request
      case Login(u, p) =>
        if CredentialsFit(u, p) then reply.Okay? || reply.LoginFailed? else reply == LoginFailed(InvalidCredentials)
      case SignUp(u, p) =>
        if CredentialsFit(u, p) then reply.Okay? || reply == SignInFailed(UsernameAlreadyTaken)
        else reply == OperationError
      case _ => reply == NotLoggedIn
  }

  // ----- What has gone over one connection -----

  /** Requests taken and replies sent, and what was committed since the last request. */
  datatype Log = Log(requests: seq<Request>, replies: seq<Response>, debits: nat, refunds: nat, records: nat)

  const NoTraffic := Log([], [], 0, 0, 0)

  function Logged(log: Log, pc: Pc, act: Action, o: Outcome): Log {
    if act.Fetched? then Log(log.requests + [act.request], log.replies, 0, 0, 0)
    else if act.Sent? && (pc.GuestReply? || pc.SessionReply?) then log.(replies := log.replies + [pc.response])
    else if o.effect.AddRecord? then log.(records := log.records + 1)
    else if o.effect.AddTokens? && pc.TxCommit? && pc.op.Debit? then log.(debits := log.debits + 1)
    else if o.effect.AddTokens? && pc.TxCommit? && pc.op.Refund? then log.(refunds := log.refunds + 1)
    else log
  }

  /** The log of connection c after a run. */
  ghost function LogOf(cfg: Config, synced: bool, run: Run, c: ConnId): Log
    decreases |run|
  {
    if run == [] then NoTraffic
    else
      var before, l := run[..|run| - 1], run[|run| - 1];
      match Exec(cfg, Init(synced), before)
      case None => NoTraffic
      case Some(s) =>
        if l.Restart? || l == Accept(c) then NoTraffic
        else if l.Task? && l.conn == c && c in s.conns && LocalStep(cfg, s.shared, s.conns[c], l.act).Some? then
          Logged(LogOf(cfg, synced, before, c), s.conns[c], l.act, LocalStep(cfg, s.shared, s.conns[c], l.act).value)
        else LogOf(cfg, synced, before, c)
  }

  // ----- What the program counter says about the log -----

  predicate Idle(pc: Pc) {
    pc.Shaking? || pc.GuestIdle? || pc.SessionIdle?
  }

  predicate Over(pc: Pc) {
    pc.Closed? || pc.Unlocking?
  }

  /** A request taken in guest mode is being worked on. */
  predicate GuestBusy(pc: Pc, request: Request) {
    match pc
    case Verifying(u, p) => request == Login(u, p) && CredentialsFit(u, p)
    case Verified(u) => request.Login? && request.username == u && CredentialsFit(u, request.password)
    case Registering(u, p) => request == SignUp(u, p) && CredentialsFit(u, p)
    case GuestReply(reply, started) =>
      Answers(false, request, reply) && (started.Some? <==> request.Login? && reply.Okay?)
    case _ => false
  }

  /** What the token transactions of one request amount to at each point. */
  predicate OpFor(op: TokenOp, request: Request, log: Log) {
    match op
    case Debit(h) => request == SignHash(h) && log.debits == log.refunds == log.records == 0
    case Buy(n) => request.PurchaseTokens? && request.amount == n
    case Refund => request.SignHash? && log.debits == 1 && log.refunds == log.records == 0
  }

  predicate Paid(log: Log) {
    log.debits == 1 && log.refunds == log.records == 0
  }

  predicate SessionBusy(pc: Pc, request: Request, log: Log) {
    match pc
    case TxSelect(_, op) => OpFor(op, request, log)
    case TxCommit(_, op, _) => OpFor(op, request, log)
    case ReadClock(_, h) => request == SignHash(h) && Paid(log)
    case Signing(_, h, _) => request == SignHash(h) && Paid(log)
    case Recording(_, h, _, _) => request == SignHash(h) && Paid(log)
    case Counting(_) => request == HowManyTokensDoIHave
    case ReadHistory(_) => request == History
    case SessionReply(_, reply, logout) =>
      && Answers(true, request, reply) && (logout <==> request.LogOut?)
      && (reply.Token? ==> log.debits == log.records == 1 && log.refunds == 0)
    case _ => false
  }

  /** The log is as long as the program counter allows, and the request in hand is being served. */
  predicate InStep(pc: Pc, log: Log) {
    && |log.replies| <= |log.requests|
    && var n, mode := |log.requests|, LoggedIn(log.requests, log.replies);
       if Idle(pc) then n == |log.replies| && mode == pc.SessionIdle?
       else if Over(pc) then
         && n <= |log.replies| + 1
         && (pc.Unlocking? && pc.next.BackToGuest? ==> n == |log.replies| && !mode)
         && (pc.Unlocking? && pc.next.Leave? && !pc.next.exit.Failed? ==> n == |log.replies|)
         && (pc.Closed? && !pc.exit.Failed? ==> n == |log.replies|)
       else n == |log.replies| + 1 &&
            if mode then SessionBusy(pc, log.requests[n - 1], log) else GuestBusy(pc, log.requests[n - 1])
  }

  /** The k-th reply answers the k-th request in the mode the first k exchanges led to. */
  predicate AnsweredAt(requests: seq<Request>, replies: seq<Response>, k: nat)
    requires k < |replies| <= |requests|
  {
    Answers(LoggedIn(requests, replies[..k]), requests[k], replies[k])
  }

  ghost predicate AllAnswered(log: Log) {
    |log.replies| <= |log.requests| && forall k :: 0 <= k < |log.replies| ==> AnsweredAt(log.requests, log.replies, k)
  }

  lemma {:induction false} ModeIgnoresLaterRequests(requests: seq<Request>, more: seq<Request>, replies: seq<Response>)
    requires |replies| <= |requests|
    ensures LoggedIn(requests + more, replies) == LoggedIn(requests, replies)
    decreases |replies|
  {
    if replies != [] {
      ModeIgnoresLaterRequests(requests, more, replies[..|replies| - 1]);
    }
  }

  lemma ModeAfterReply(requests: seq<Request>, replies: seq<Response>, reply: Response)
    requires |replies| < |requests|
    ensures LoggedIn(requests, replies + [reply]) ==
            if requests[|replies|].Login? && reply.Okay? then true
            else if requests[|replies|].LogOut? && reply.Okay? then false
            else LoggedIn(requests, replies)
  {
    assert (replies + [reply])[..|replies|] == replies;
  }

  // ----- Steps -----

  lemma FetchInStep(cfg: Config, sh: Shared, pc: Pc, act: Action, o: Outcome, log: Log)
    requires act.Fetched? && InStep(pc, log) && LocalStep(cfg, sh, pc, act) == Some(o)
    ensures InStep(o.pc, Logged(log, pc, act, o))
  {
    ModeIgnoresLaterRequests(log.requests, [act.request], log.replies);
    assert pc.GuestIdle? || pc.SessionIdle?;
  }

  lemma SentInStep(cfg: Config, sh: Shared, pc: Pc, act: Action, o: Outcome, log: Log)
    requires act.Sent? && InStep(pc, log) && LocalStep(cfg, sh, pc, act) == Some(o)
    ensures InStep(o.pc, Logged(log, pc, act, o))
  {
    assert pc.GuestReply? || pc.SessionReply?;
    ModeAfterReply(log.requests, log.replies, pc.response);
  }

  lemma GuestInStep(cfg: Config, sh: Shared, pc: Pc, act: Action, o: Outcome, log: Log)
    requires InStep(pc, log) && GuestStep(cfg, sh, pc, act) == Some(o) && !act.Fetched? && !act.Sent?
    ensures InStep(o.pc, Logged(log, pc, act, o))
  {
  }

  lemma SessionInStep(sh: Shared, pc: Pc, act: Action, o: Outcome, log: Log)
    requires InStep(pc, log) && SessionStep(sh, pc, act) == Some(o) && !act.Fetched? && !act.Sent?
    ensures InStep(o.pc, Logged(log, pc, act, o))
  {
  }

  lemma TokenInStep(sh: Shared, pc: Pc, act: Action, o: Outcome, log: Log)
    requires InStep(pc, log) && TokenStep(sh, pc, act) == Some(o)
    ensures InStep(o.pc, Logged(log, pc, act, o))
  {
  }

  lemma StampInStep(cfg: Config, sh: Shared, pc: Pc, act: Action, o: Outcome, log: Log)
    requires InStep(pc, log) && StampStep(cfg, sh, pc, act) == Some(o)
    ensures InStep(o.pc, Logged(log, pc, act, o))
  {
  }

  lemma QueryInStep(sh: Shared, pc: Pc, act: Action, o: Outcome, log: Log)
    requires InStep(pc, log) && QueryStep(sh, pc, act) == Some(o)
    ensures InStep(o.pc, Logged(log, pc, act, o))
  {
  }

  lemma StepInStep(cfg: Config, sh: Shared, pc: Pc, act: Action, o: Outcome, log: Log)
    requires InStep(pc, log) && LocalStep(cfg, sh, pc, act) == Some(o)
    ensures InStep(o.pc, Logged(log, pc, act, o))
  {
    if act.Fetched? {
      FetchInStep(cfg, sh, pc, act, o, log);
    } else if act.Sent? {
      SentInStep(cfg, sh, pc, act, o, log);
    } else {
      match pc.Part() {
        case Guest => GuestInStep(cfg, sh, pc, act, o, log);
        case Session => SessionInStep(sh, pc, act, o, log);
        case TokenTx => TokenInStep(sh, pc, act, o, log);
        case Stamp => StampInStep(cfg, sh, pc, act, o, log);
        case Query => QueryInStep(sh, pc, act, o, log);
        case Done =>
      }
    }
  }

  lemma AnsweredAfterFetch(log: Log, request: Request)
    requires AllAnswered(log)
    ensures AllAnswered(Log(log.requests + [request], log.replies, 0, 0, 0))
  {
    var requests := log.requests + [request];
    forall k | 0 <= k < |log.replies| ensures AnsweredAt(requests, log.replies, k) {
      ModeIgnoresLaterRequests(log.requests, [request], log.replies[..k]);
      assert AnsweredAt(log.requests, log.replies, k);
    }
  }

  lemma AnsweredAfterSend(log: Log, reply: Response)
    requires AllAnswered(log) && |log.replies| < |log.requests|
    requires Answers(LoggedIn(log.requests, log.replies), log.requests[|log.replies|], reply)
    ensures AllAnswered(log.(replies := log.replies + [reply]))
  {
    var replies := log.replies + [reply];
    forall k | 0 <= k < |replies| ensures AnsweredAt(log.requests, replies, k) {
      assert replies[..k] == log.replies[..k];
      if k < |log.replies| {
        assert AnsweredAt(log.requests, log.replies, k);
      } else {
        assert log.replies[..k] == log.replies;
      }
    }
  }

  lemma StepKeepsAnswered(cfg: Config, sh: Shared, pc: Pc, act: Action, o: Outcome, log: Log)
    requires InStep(pc, log) && AllAnswered(log) && LocalStep(cfg, sh, pc, act) == Some(o)
    ensures AllAnswered(Logged(log, pc, act, o))
  {
    if act.Fetched? {
      AnsweredAfterFetch(log, act.request);
    } else if act.Sent? && (pc.GuestReply? || pc.SessionReply?) {
      AnsweredAfterSend(log, pc.response);
    }
  }

  lemma {:induction false} LogInStep(cfg: Config, synced: bool, run: Run, s: State, c: ConnId)
    requires Reaches(cfg, synced, run, s) && c in s.conns
    ensures InStep(s.conns[c], LogOf(cfg, synced, run, c)) && AllAnswered(LogOf(cfg, synced, run, c))
    decreases |run|
  {
    if run != [] {
      var before, l := run[..|run| - 1], run[|run| - 1];
      var p := Exec(cfg, Init(synced), before).value;
      if l != Accept(c) {
        LogInStep(cfg, synced, before, p, c);
        if l.Task? && l.conn == c {
          var o := LocalStep(cfg, p.shared, p.conns[c], l.act).value;
          StepInStep(cfg, p.shared, p.conns[c], l.act, o, LogOf(cfg, synced, before, c));
          StepKeepsAnswered(cfg, p.shared, p.conns[c], l.act, o, LogOf(cfg, synced, before, c));
        }
      }
    }
  }

  /**
   On every connection of every run, the k-th reply answers the k-th request in the mode the first
   k exchanges led to. Between requests none is unanswered; a task that ends without a fault has
   answered every request, and one that fails leaves at most one unanswered.
   */
  lemma RepliesAnswerRequests(cfg: Config, synced: bool, run: Run, s: State, c: ConnId)
    requires Reaches(cfg, synced, run, s) && c in s.conns
    ensures var log, pc := LogOf(cfg, synced, run, c), s.conns[c];
            && |log.replies| <= |log.requests| <= |log.replies| + 1
            && (forall k :: 0 <= k < |log.replies| ==> AnsweredAt(log.requests, log.replies, k))
            && (Idle(pc) ==> |log.requests| == |log.replies| && LoggedIn(log.requests, log.replies) == pc.SessionIdle?)
            && (pc.Closed? && |log.requests| == |log.replies| + 1 ==> pc.exit.Failed?)
  {
    LogInStep(cfg, synced, run, s, c);
  }

  lemma TokenInLog(pc: Pc, log: Log)
    requires InStep(pc, log) && pc.SessionReply? && pc.response.Token?
    ensures |log.requests| > 0 && log.requests[|log.requests| - 1] == SignHash(pc.response.hash)
    ensures log.debits == 1 && log.records == 1 && log.refunds == 0
  {
  }

  /**
   A Token reply is backed: the record is committed under the requester's name, the signature
   verifies for the requested hash, and between the request and the reply this connection committed
   exactly one debit, one record and no refund.
   */
  lemma TokenRepliesAreBacked(cfg: Config, synced: bool, run: Run, s: State, c: ConnId)
    requires cfg.crypto.Sound() && Reaches(cfg, synced, run, s) && c in s.conns
    requires s.conns[c].SessionReply? && s.conns[c].response.Token?
    ensures var pc, log := s.conns[c], LogOf(cfg, synced, run, c);
            var r := pc.response;
            && |log.requests| > 0 && log.requests[|log.requests| - 1] == SignHash(r.hash)
            && log.debits == 1 && log.records == 1 && log.refunds == 0
            && ToBeBytes(r.timestamp) in s.shared.HistoryOf(pc.user)
            && s.shared.HistoryOf(pc.user)[ToBeBytes(r.timestamp)] == r.sign
            && cfg.crypto.Accepts(r.hash, r.timestamp, r.sign)
  {
    LogInStep(cfg, synced, run, s, c);
    TokenInLog(s.conns[c], LogOf(cfg, synced, run, c));
    PcOfRun(cfg, synced, run, s, c);
  }

  /**
   What a session says about the user's own rows is true when it is said: counts are balances, and
   a history reply is the newest hundred records in descending order.
   */
  lemma RepliesAreTrue(cfg: Config, synced: bool, run: Run, s: State, c: ConnId)
    requires cfg.crypto.Sound() && Reaches(cfg, synced, run, s) && c in s.conns && s.conns[c].SessionReply?
    ensures var pc := s.conns[c];
            && (pc.response.TokenCount? ==> pc.response.count == s.shared.Balance(pc.user))
            && (pc.response.Records? ==>
                  && WellFormed(s.shared.HistoryOf(pc.user))
                  && |pc.response.records| ==
                     (if |s.shared.HistoryOf(pc.user)| >= 100 then 100 else |s.shared.HistoryOf(pc.user)|)
                  && IsLatest(Numeric(s.shared.HistoryOf(pc.user)), HISTORY_LIMIT, pc.response.records))
  {
    PcOfRun(cfg, synced, run, s, c);
    if s.conns[c].response.Records? {
      LatestIsLatest(Numeric(s.shared.HistoryOf(s.conns[c].user)), HISTORY_LIMIT);
      NumericSize(s.shared.HistoryOf(s.conns[c].user));
    }
  }
}
