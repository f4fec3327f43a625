/**
 The Token replies a connection has received: each is for the hash asked for, was paid for once, and
 stands for a record of the user logged in at the time which is there for good; no two stand for the
 same record.
 */
module Receipts {
  import opened Wrappers
  import opened ServerProtocol
  import opened Machine
  import opened Safety
  import opened Exchange
  import opened Stamps
  import Authority

  // ----- Who was logged in -----

  /** The user the exchanges so far have logged in. */
  function UserOf(requests: seq<Request>, replies: seq<Response>): Option<Text>
    requires |replies| <= |requests|
    decreases |replies|
  {
    if replies == [] then None
    else
      var n := |replies| - 1;
      if requests[n].Login? && replies[n].Okay? then Some(requests[n].username)
      else if requests[n].LogOut? && replies[n].Okay? then None
      else UserOf(requests, replies[..n])
  }

  lemma {:induction false} UserIgnoresLaterRequests(requests: seq<Request>, more: seq<Request>, replies: seq<Response>)
    requires |replies| <= |requests|
    ensures UserOf(requests + more, replies) == UserOf(requests, replies)
    decreases |replies|
  {
    if replies != [] {
      UserIgnoresLaterRequests(requests, more, replies[..|replies| - 1]);
    }
  }

  lemma UserAfterReply(requests: seq<Request>, replies: seq<Response>, reply: Response)
    requires |replies| < |requests|
    ensures UserOf(requests, replies + [reply]) ==
            if requests[|replies|].Login? && reply.Okay? then Some(requests[|replies|].username)
            else if requests[|replies|].LogOut? && reply.Okay? then None
            else UserOf(requests, replies)
  {
    assert (replies + [reply])[..|replies|] == replies;
  }

  /** The task serves a session. */
  predicate InSession(pc: Pc) {
    pc.Holds().Some? && !pc.GuestReply? && !pc.Unlocking?
  }

  /** The session is that of the user the log says. */
  predicate Named(pc: Pc, log: Log) {
    && |log.replies| <= |log.requests|
    && (InSession(pc) ==> UserOf(log.requests, log.replies) == pc.Holds())
    && (pc.GuestReply? && pc.started.Some? ==>
          && |log.replies| < |log.requests| && log.requests[|log.replies|].Login?
          && log.requests[|log.replies|].username == pc.started.value)
  }

  lemma FetchNamed(cfg: Config, sh: Shared, pc: Pc, act: Action, o: Outcome, log: Log)
    requires act.Fetched? && Named(pc, log) && LocalStep(cfg, sh, pc, act) == Some(o)
    ensures Named(o.pc, Logged(log, pc, act, o))
  {
    UserIgnoresLaterRequests(log.requests, [act.request], log.replies);
    assert pc.GuestIdle? || pc.SessionIdle?;
  }

  lemma SentNamed(cfg: Config, sh: Shared, pc: Pc, act: Action, o: Outcome, log: Log)
    requires act.Sent? && InStep(pc, log) && Named(pc, log) && LocalStep(cfg, sh, pc, act) == Some(o)
    ensures Named(o.pc, Logged(log, pc, act, o))
  {
    assert pc.GuestReply? || pc.SessionReply?;
    UserAfterReply(log.requests, log.replies, pc.response);
  }

  /** Without a request or a reply a session neither begins nor changes its user. */
  predicate SameSession(pc: Pc, o: Outcome) {
    && (InSession(o.pc) ==> InSession(pc) && pc.Holds() == o.pc.Holds())
    && (o.pc.GuestReply? && o.pc.started.Some? ==> pc == Verified(o.pc.started.value))
  }

  lemma GuestSameSession(cfg: Config, sh: Shared, pc: Pc, act: Action, o: Outcome)
    requires GuestStep(cfg, sh, pc, act) == Some(o) && !act.Fetched? && !act.Sent?
    ensures SameSession(pc, o)
  {
  }

  lemma SessionSameSession(sh: Shared, pc: Pc, act: Action, o: Outcome)
    requires SessionStep(sh, pc, act) == Some(o) && !act.Fetched? && !act.Sent?
    ensures SameSession(pc, o)
  {
  }

  lemma TokenSameSession(sh: Shared, pc: Pc, act: Action, o: Outcome)
    requires TokenStep(sh, pc, act) == Some(o)
    ensures SameSession(pc, o)
  {
  }

  lemma StampSameSession(cfg: Config, sh: Shared, pc: Pc, act: Action, o: Outcome)
    requires StampStep(cfg, sh, pc, act) == Some(o)
    ensures SameSession(pc, o)
  {
  }

  lemma QuerySameSession(sh: Shared, pc: Pc, act: Action, o: Outcome)
    requires QueryStep(sh, pc, act) == Some(o)
    ensures SameSession(pc, o)
  {
  }

  lemma RestNamed(cfg: Config, sh: Shared, pc: Pc, act: Action, o: Outcome, log: Log)
    requires InStep(pc, log) && Named(pc, log) && LocalStep(cfg, sh, pc, act) == Some(o) && !act.Fetched? && !act.Sent?
    ensures Named(o.pc, Logged(log, pc, act, o))
  {
    match pc.Part() {
      case Guest => GuestSameSession(cfg, sh, pc, act, o);
      case Session => SessionSameSession(sh, pc, act, o);
      case TokenTx => TokenSameSession(sh, pc, act, o);
      case Stamp => StampSameSession(cfg, sh, pc, act, o);
      case Query => QuerySameSession(sh, pc, act, o);
      case Done =>
    }
  }

  lemma {:induction false} LogNamed(cfg: Config, synced: bool, run: Run, s: State, c: ConnId)
    requires Reaches(cfg, synced, run, s) && c in s.conns
    ensures Named(s.conns[c], LogOf(cfg, synced, run, c))
    decreases |run|
  {
    if run != [] {
      var before, l := run[..|run| - 1], run[|run| - 1];
      var p := Exec(cfg, Init(synced), before).value;
      if l != Accept(c) {
        LogNamed(cfg, synced, before, p, c);
        if l.Task? && l.conn == c {
          var o, log := LocalStep(cfg, p.shared, p.conns[c], l.act).value, LogOf(cfg, synced, before, c);
          LogInStep(cfg, synced, before, p, c);
          StepNamed(cfg, p.shared, p.conns[c], l.act, o, log);
        }
      }
    }
  }

  lemma StepNamed(cfg: Config, sh: Shared, pc: Pc, act: Action, o: Outcome, log: Log)
    requires InStep(pc, log) && Named(pc, log) && LocalStep(cfg, sh, pc, act) == Some(o)
    ensures Named(o.pc, Logged(log, pc, act, o))
  {
    if act.Fetched? {
      FetchNamed(cfg, sh, pc, act, o, log);
    } else if act.Sent? {
      SentNamed(cfg, sh, pc, act, o, log);
    } else {
      RestNamed(cfg, sh, pc, act, o, log);
    }
  }

  // ----- When a reply was sent -----

  /** The k-th reply on c was sent by step i, after the first k exchanges. */
  ghost predicate SentAt(cfg: Config, synced: bool, run: Run, c: ConnId, k: nat, i: int)
    requires k < |LogOf(cfg, synced, run, c).replies|
  {
    && 0 <= i < |run| && run[i] == Task(c, Sent) && Exec(cfg, Init(synced), run[..i]).Some?
    && var p, log, earlier := Exec(cfg, Init(synced), run[..i]).value, LogOf(cfg, synced, run, c),
                              LogOf(cfg, synced, run[..i], c);
       && c in p.conns && (p.conns[c].GuestReply? || p.conns[c].SessionReply?)
       && p.conns[c].response == log.replies[k]
       && earlier.replies == log.replies[..k] && earlier.requests <= log.requests
  }

  lemma LogGrows(log: Log, pc: Pc, act: Action, o: Outcome)
    ensures var log' := Logged(log, pc, act, o);
            && log.requests <= log'.requests
            && log'.replies == if act.Sent? && (pc.GuestReply? || pc.SessionReply?) then log.replies + [pc.response]
                               else log.replies
  {
  }

  lemma {:induction false} WasSent(cfg: Config, synced: bool, run: Run, c: ConnId, k: nat) returns (i: int)
    requires Exec(cfg, Init(synced), run).Some? && k < |LogOf(cfg, synced, run, c).replies|
    ensures SentAt(cfg, synced, run, c, k, i)
    decreases |run|
  {
    var n := |run| - 1;
    var before, l := run[..n], run[n];
    var p, log := Exec(cfg, Init(synced), before).value, LogOf(cfg, synced, before, c);
    if l.Task? && l.conn == c {
      LogGrows(log, p.conns[c], l.act, LocalStep(cfg, p.shared, p.conns[c], l.act).value);
    }
    if k == |log.replies| {
      i := n;
    } else {
      i := WasSent(cfg, synced, before, c, k);
      assert before[..i] == run[..i];
    }
  }

  // ----- Each Token reply stands for a record -----

  /** The record of u that a Token reply refers to is there. */
  predicate Receipted(cfg: Config, sh: Shared, u: Text, reply: Response)
    requires reply.Token?
  {
    Recorded(cfg, sh, u, reply.hash, reply.sign, reply.timestamp)
  }

  lemma TokenIsOfSession(pc: Pc, log: Log)
    requires InStep(pc, log) && (pc.GuestReply? || pc.SessionReply?) && pc.response.Token?
    ensures pc.SessionReply? && |log.requests| == |log.replies| + 1
  {
  }

  lemma ReceiptLasts(cfg: Config, s: State, more: Run, s': State, u: Text, reply: Response)
    requires reply.Token? && Receipted(cfg, s.shared, u, reply) && Exec(cfg, s, more) == Some(s')
    ensures Receipted(cfg, s'.shared, u, reply)
  {
    Authority.RecordsArePermanent(cfg, s, more, u, ToBeBytes(reply.timestamp));
  }

  /** The exchange of the k-th reply when step i was about to send it. */
  ghost predicate PaidAt(cfg: Config, synced: bool, run: Run, c: ConnId, i: int, u: Text, reply: Response)
    requires reply.Token?
  {
    && 0 <= i < |run| && Exec(cfg, Init(synced), run[..i]).Some?
    && var p, log := Exec(cfg, Init(synced), run[..i]).value, LogOf(cfg, synced, run[..i], c);
       && c in p.conns && p.conns[c].SessionReply? && p.conns[c].user == u && p.conns[c].response == reply
       && |log.requests| > 0 && log.requests[|log.requests| - 1] == SignHash(reply.hash)
       && log.debits == 1 && log.records == 1 && log.refunds == 0
       && Receipted(cfg, p.shared, u, reply)
  }

  lemma WasPaid(cfg: Config, synced: bool, run: Run, c: ConnId, k: nat, i: int) returns (u: Text)
    requires cfg.crypto.Sound() && k < |LogOf(cfg, synced, run, c).replies|
    requires LogOf(cfg, synced, run, c).replies[k].Token? && SentAt(cfg, synced, run, c, k, i)
    ensures PaidAt(cfg, synced, run, c, i, u, LogOf(cfg, synced, run, c).replies[k])
    ensures |LogOf(cfg, synced, run[..i], c).requests| == k + 1
  {
    var p := Exec(cfg, Init(synced), run[..i]).value;
    LogInStep(cfg, synced, run[..i], p, c);
    TokenIsOfSession(p.conns[c], LogOf(cfg, synced, run[..i], c));
    u := p.conns[c].user;
    TokenRepliesAreBacked(cfg, synced, run[..i], p, c);
  }

  /**
   For every Token reply among all replies a connection has received: it was sent by a step i, up
   to which its request had cost exactly one debit, made exactly one record and no refund; it is for
   the hash of its request; and the record under the name of the user then logged in is there now,
   with a signature that verifies.
   */
  lemma EveryTokenIsBacked(cfg: Config, synced: bool, run: Run, s: State, c: ConnId, k: nat) returns (i: int, u: Text)
    requires cfg.crypto.Sound() && Reaches(cfg, synced, run, s)
    requires k < |LogOf(cfg, synced, run, c).replies| && LogOf(cfg, synced, run, c).replies[k].Token?
    ensures SentAt(cfg, synced, run, c, k, i)
    ensures PaidAt(cfg, synced, run, c, i, u, LogOf(cfg, synced, run, c).replies[k])
    ensures var log := LogOf(cfg, synced, run, c);
            && k < |log.requests| && log.requests[k] == SignHash(log.replies[k].hash)
            && |log.replies[..k]| <= |log.requests| && UserOf(log.requests, log.replies[..k]) == Some(u)
            && Receipted(cfg, s.shared, u, log.replies[k])
  {
    i := WasSent(cfg, synced, run, c, k);
    u := WasPaid(cfg, synced, run, c, k, i);
    RequestWas(cfg, synced, run, c, k, i, u);
    SenderWasLoggedIn(cfg, synced, run, Exec(cfg, Init(synced), run[..i]).value, c, k, i);
    ReceiptStands(cfg, synced, run, s, c, i, u, LogOf(cfg, synced, run, c).replies[k]);
  }

  lemma RequestWas(cfg: Config, synced: bool, run: Run, c: ConnId, k: nat, i: int, u: Text)
    requires k < |LogOf(cfg, synced, run, c).replies| && LogOf(cfg, synced, run, c).replies[k].Token?
    requires SentAt(cfg, synced, run, c, k, i)
    requires PaidAt(cfg, synced, run, c, i, u, LogOf(cfg, synced, run, c).replies[k])
    requires |LogOf(cfg, synced, run[..i], c).requests| == k + 1
    ensures var log := LogOf(cfg, synced, run, c);
            k < |log.requests| && log.requests[k] == SignHash(log.replies[k].hash)
  {
  }

  lemma ReceiptStands(cfg: Config, synced: bool, run: Run, s: State, c: ConnId, i: int, u: Text, reply: Response)
    requires reply.Token? && PaidAt(cfg, synced, run, c, i, u, reply) && Reaches(cfg, synced, run, s)
    ensures Receipted(cfg, s.shared, u, reply)
  {
    assert run[..i] + run[i..] == run;
    ExecConcat(cfg, Init(synced), run[..i], run[i..]);
    ReceiptLasts(cfg, Exec(cfg, Init(synced), run[..i]).value, run[i..], s, u, reply);
  }

  lemma SenderWasLoggedIn(cfg: Config, synced: bool, run: Run, p: State, c: ConnId, k: nat, i: int)
    requires k < |LogOf(cfg, synced, run, c).replies| && SentAt(cfg, synced, run, c, k, i)
    requires Reaches(cfg, synced, run[..i], p) && p.conns[c].SessionReply?
    requires |LogOf(cfg, synced, run[..i], c).replies| <= |LogOf(cfg, synced, run[..i], c).requests|
    ensures var log := LogOf(cfg, synced, run, c);
            |log.replies[..k]| <= |log.requests| && UserOf(log.requests, log.replies[..k]) == Some(p.conns[c].user)
  {
    LogNamed(cfg, synced, run[..i], p, c);
    UserStays(LogOf(cfg, synced, run[..i], c), LogOf(cfg, synced, run, c), k);
  }

  lemma UserStays(earlier: Log, log: Log, k: nat)
    requires k <= |log.replies| && earlier.replies == log.replies[..k]
    requires earlier.requests <= log.requests && |earlier.replies| <= |earlier.requests|
    ensures k <= |log.requests| && UserOf(log.requests, log.replies[..k]) == UserOf(earlier.requests, earlier.replies)
  {
    var later := log.requests[|earlier.requests|..];
    UserIgnoresLaterRequests(earlier.requests, later, earlier.replies);
    assert earlier.requests + later == log.requests;
  }

  // ----- and no two for the same -----

  /** Connection c has not moved, and the process not stopped, since step j. */
  predicate UnmovedSince(run: Run, j: int, c: ConnId) {
    forall m :: j < m < |run| && 0 <= m ==> !run[m].Restart? && !(run[m].Task? && run[m].conn == c)
  }

  predicate AboutToSendToken(pc: Pc) {
    pc.SessionReply? && pc.response.Token?
  }

  lemma GuestMakesNoToken(cfg: Config, sh: Shared, pc: Pc, act: Action, o: Outcome)
    requires GuestStep(cfg, sh, pc, act) == Some(o)
    ensures !AboutToSendToken(o.pc)
  {
  }

  lemma SessionMakesNoToken(sh: Shared, pc: Pc, act: Action, o: Outcome)
    requires SessionStep(sh, pc, act) == Some(o)
    ensures !AboutToSendToken(o.pc)
  {
  }

  lemma TransactionMakesNoToken(sh: Shared, pc: Pc, act: Action, o: Outcome)
    requires TokenStep(sh, pc, act) == Some(o)
    ensures !AboutToSendToken(o.pc)
  {
  }

  lemma QueryMakesNoToken(sh: Shared, pc: Pc, act: Action, o: Outcome)
    requires QueryStep(sh, pc, act) == Some(o)
    ensures !AboutToSendToken(o.pc)
  {
  }

  lemma StampMakesToken(cfg: Config, sh: Shared, pc: Pc, act: Action, o: Outcome)
    requires StampStep(cfg, sh, pc, act) == Some(o) && AboutToSendToken(o.pc)
    ensures pc.Recording? && act.InsertRecord? && o.effect.AddRecord?
    ensures pc.user == o.pc.user && pc.timestamp == o.pc.response.timestamp
  {
  }

  lemma TokenComesFromRecord(cfg: Config, sh: Shared, pc: Pc, act: Action, o: Outcome)
    requires LocalStep(cfg, sh, pc, act) == Some(o) && AboutToSendToken(o.pc)
    ensures pc.Recording? && act.InsertRecord? && o.effect.AddRecord?
    ensures pc.user == o.pc.user && pc.timestamp == o.pc.response.timestamp
  {
    match pc.Part() {
      case Guest => GuestMakesNoToken(cfg, sh, pc, act, o);
      case Session => SessionMakesNoToken(sh, pc, act, o);
      case TokenTx => TransactionMakesNoToken(sh, pc, act, o);
      case Stamp => StampMakesToken(cfg, sh, pc, act, o);
      case Query => QueryMakesNoToken(sh, pc, act, o);
      case Done =>
    }
  }

  lemma {:induction false} TokenWasRecorded(cfg: Config, synced: bool, run: Run, s: State, c: ConnId) returns (j: int)
    requires Reaches(cfg, synced, run, s) && c in s.conns && s.conns[c].SessionReply? && s.conns[c].response.Token?
    ensures RecordedAt(cfg, synced, run, j, s.conns[c].user, s.conns[c].response.timestamp)
    ensures run[j].conn == c && UnmovedSince(run, j, c)
    decreases |run|
  {
    var n := |run| - 1;
    var l, p := run[n], Exec(cfg, Init(synced), run[..n]).value;
    if l.Task? && l.conn == c {
      StoresBeforeToken(cfg, p, c, l.act, s);
      j := n;
    } else {
      StillThere(cfg, p, l, s, c);
      j := TokenWasRecorded(cfg, synced, run[..n], p, c);
      RecordedEarlier(cfg, synced, run, n, j, s.conns[c].user, s.conns[c].response.timestamp);
    }
  }

  lemma StoresBeforeToken(cfg: Config, s: State, c: ConnId, act: Action, s': State)
    requires TaskStep(cfg, s, c, act) == Some(s') && AboutToSendToken(s'.conns[c])
    ensures Stores(cfg, s, Task(c, act), s'.conns[c].user, s'.conns[c].response.timestamp)
  {
    TokenComesFromRecord(cfg, s.shared, s.conns[c], act, LocalStep(cfg, s.shared, s.conns[c], act).value);
  }

  lemma StillThere(cfg: Config, s: State, l: Label, s': State, c: ConnId)
    requires Step(cfg, s, l) == Some(s') && c in s'.conns && s'.conns[c].SessionReply? && !(l.Task? && l.conn == c)
    ensures c in s.conns && s.conns[c] == s'.conns[c] && !l.Restart?
  {
    if !l.Task? { OtherStepFrames(cfg, s, l, s'); }
  }

  /** One timestamp of one user is recorded once. */
  lemma RecordedOnce(cfg: Config, synced: bool, run: Run, i: int, j: int, u: Text, ts: Timestamp)
    requires RecordedAt(cfg, synced, run, i, u, ts) && RecordedAt(cfg, synced, run, j, u, ts)
    ensures i == j
  {
    if i != j {
      var a, b := if i < j then i else j, if i < j then j else i;
      var p := Exec(cfg, Init(synced), run[..b]).value;
      RecordedEarlier(cfg, synced, run, b, a, u, ts);
      HistoryIsWhatWasRecorded(cfg, synced, run[..b], p, u, ts);
      StoresFreeKey(cfg, p, run[b], u, ts);
      assert false;
    }
  }

  lemma StoresFreeKey(cfg: Config, s: State, l: Label, u: Text, ts: Timestamp)
    requires Stores(cfg, s, l, u, ts)
    ensures ToBeBytes(ts) !in s.shared.HistoryOf(u)
  {
    OriginOfStep(cfg, s.shared, s.conns[l.conn], l.act, LocalStep(cfg, s.shared, s.conns[l.conn], l.act).value);
  }

  /** Step i sends the Token reply that stands for u's record under ts. */
  ghost predicate SendsToken(cfg: Config, synced: bool, run: Run, i: int, u: Text, ts: Timestamp) {
    && 0 <= i < |run| && run[i].Task? && run[i].act.Sent? && Exec(cfg, Init(synced), run[..i]).Some?
    && var p := Exec(cfg, Init(synced), run[..i]).value;
       run[i].conn in p.conns && p.conns[run[i].conn].SessionReply? && p.conns[run[i].conn].user == u &&
       p.conns[run[i].conn].response.Token? && p.conns[run[i].conn].response.timestamp == ts
  }

  lemma TokenSentFromRecord(cfg: Config, synced: bool, run: Run, i: int, u: Text, ts: Timestamp) returns (j: int)
    requires SendsToken(cfg, synced, run, i, u, ts)
    ensures RecordedAt(cfg, synced, run, j, u, ts) && j < i
    ensures run[j].conn == run[i].conn && UnmovedSince(run[..i], j, run[i].conn)
  {
    j := TokenWasRecorded(cfg, synced, run[..i], Exec(cfg, Init(synced), run[..i]).value, run[i].conn);
    RecordedEarlier(cfg, synced, run, i, j, u, ts);
  }

  lemma NotBefore(run: Run, j: int, i: int, i': int)
    requires 0 <= j < i < |run| && 0 <= i' <= |run| && run[i].Task? && UnmovedSince(run[..i'], j, run[i].conn)
    ensures i' <= i
  {
  }

  /** Over a whole run, restarts included, every record is handed out at most once. */
  lemma TokenSentOnce(cfg: Config, synced: bool, run: Run, i: int, i': int, u: Text, ts: Timestamp)
    requires SendsToken(cfg, synced, run, i, u, ts) && SendsToken(cfg, synced, run, i', u, ts)
    ensures i == i'
  {
    var j := TokenSentFromRecord(cfg, synced, run, i, u, ts);
    var j' := TokenSentFromRecord(cfg, synced, run, i', u, ts);
    RecordedOnce(cfg, synced, run, j, j', u, ts);
    NotBefore(run, j, i, i');
    NotBefore(run, j, i', i);
  }

  /** Different Token replies, on one connection or on two, stand for different records. */
  lemma TokensAreDistinct(cfg: Config, synced: bool, run: Run, s: State, c: ConnId, k: nat, d: ConnId, m: nat)
    requires cfg.crypto.Sound() && Reaches(cfg, synced, run, s) && (c != d || k != m)
    requires k < |LogOf(cfg, synced, run, c).replies| && LogOf(cfg, synced, run, c).replies[k].Token?
    requires m < |LogOf(cfg, synced, run, d).replies| && LogOf(cfg, synced, run, d).replies[m].Token?
    ensures var one, two := LogOf(cfg, synced, run, c), LogOf(cfg, synced, run, d);
            && |one.replies[..k]| <= |one.requests| && |two.replies[..m]| <= |two.requests|
            && (UserOf(one.requests, one.replies[..k]) != UserOf(two.requests, two.replies[..m]) ||
                one.replies[k].timestamp != two.replies[m].timestamp)
  {
    var i, u := EveryTokenIsBacked(cfg, synced, run, s, c, k);
    var i', v := EveryTokenIsBacked(cfg, synced, run, s, d, m);
    var ts := LogOf(cfg, synced, run, c).replies[k].timestamp;
    if u == v && ts == LogOf(cfg, synced, run, d).replies[m].timestamp {
      assert SendsToken(cfg, synced, run, i, u, ts) && SendsToken(cfg, synced, run, i', u, ts);
      TokenSentOnce(cfg, synced, run, i, i', u, ts);
    }
  }
}
