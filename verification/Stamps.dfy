/**
 Timestamps as history keys (server/src/database.rs, PRIMARY KEY (username, timestamp)): a record is
 refused exactly when the clock gave its user a timestamp a second time after the first was recorded.
 A clock that goes forward for the user never does that; a re-sync that sets the clock back can.
 */
module Stamps {
  import opened Wrappers
  import opened MachineInts
  import opened Bytes
  import opened ServerProtocol
  import opened Machine
  import opened Safety
  import opened Scenario
  import opened Ledger
  import opened Shutdown
  import Clock = TimeOracle

  /** The timestamp a task has taken for u and not yet stored. */
  function Carried(pc: Pc, u: Text): Option<Timestamp> {
    match pc
    case Signing(v, _, ts) => if v == u then Some(ts) else None
    case Recording(v, _, ts, _) => if v == u then Some(ts) else None
    case _ => None
  }

  /** The machine's clock as read by a step on behalf of u, if the step does that. */
  function Reading(s: State, l: Label, u: Text): Option<Clock.SystemTime> {
    if l.Task? && l.conn in s.conns && s.conns[l.conn].ReadClock? && s.conns[l.conn].user == u && l.act.ReadTime?
    then Some(l.act.local)
    else None
  }

  /** The timestamp a step takes for u, if any. */
  function Taken(s: State, l: Label, u: Text): Option<Timestamp> {
    match Reading(s, l, u)
    case None => None
    case Some(local) => Clock.Issue(s.shared.offset, local)
  }

  /** The step stores a record of u under ts. */
  ghost predicate Stores(cfg: Config, s: State, l: Label, u: Text, ts: Timestamp) {
    && l.Task? && l.conn in s.conns && s.conns[l.conn].Recording?
    && s.conns[l.conn].user == u && s.conns[l.conn].timestamp == ts && l.act.InsertRecord?
    && LocalStep(cfg, s.shared, s.conns[l.conn], l.act).Some?
    && LocalStep(cfg, s.shared, s.conns[l.conn], l.act).value.effect.AddRecord?
  }

  // ----- One step -----

  lemma StampCarries(cfg: Config, sh: Shared, pc: Pc, act: Action, o: Outcome, u: Text, ts: Timestamp)
    requires StampStep(cfg, sh, pc, act) == Some(o) && Carried(o.pc, u) == Some(ts)
    ensures o.effect.Nothing?
    ensures Carried(pc, u) == Some(ts) ||
            (pc.ReadClock? && pc.user == u && act.ReadTime? && Clock.Issue(sh.offset, act.local) == Some(ts))
  {
  }

  lemma OthersCarryNothing(cfg: Config, sh: Shared, pc: Pc, act: Action, o: Outcome, u: Text)
    requires LocalStep(cfg, sh, pc, act) == Some(o) && !pc.Part().Stamp?
    ensures Carried(o.pc, u) == None
  {
    match pc.Part() {
      case Guest => GuestIsNeutral(cfg, sh, pc, act, o);
      case Session => SessionIsNeutral(sh, pc, act, o);
      case TokenTx =>
      case Query => QueryIsNeutral(sh, pc, act, o);
      case Done =>
    }
  }

  lemma NewlyCarried(cfg: Config, sh: Shared, pc: Pc, act: Action, o: Outcome, u: Text, ts: Timestamp)
    requires LocalStep(cfg, sh, pc, act) == Some(o) && Carried(o.pc, u) == Some(ts)
    ensures o.effect.Nothing?
    ensures Carried(pc, u) == Some(ts) ||
            (pc.ReadClock? && pc.user == u && act.ReadTime? && Clock.Issue(sh.offset, act.local) == Some(ts))
  {
    if pc.Part().Stamp? {
      StampCarries(cfg, sh, pc, act, o, u, ts);
    } else {
      OthersCarryNothing(cfg, sh, pc, act, o, u);
    }
  }

  lemma CarriedHolds(pc: Pc, u: Text)
    ensures Carried(pc, u).Some? ==> pc.Holds() == Some(u)
  {
  }

  /**
   A carried timestamp is the task's own last clock reading, and the username lock keeps everybody
   else away from the user's records for as long as it is carried.
   */
  lemma CarriedAfterStep(cfg: Config, s: State, l: Label, s': State, c: ConnId, u: Text, ts: Timestamp)
    requires LocksOk(s) && Step(cfg, s, l) == Some(s') && c in s'.conns && Carried(s'.conns[c], u) == Some(ts)
    ensures s'.shared.HistoryOf(u) == s.shared.HistoryOf(u)
    ensures || (l.Task? && l.conn == c && Taken(s, l, u) == Some(ts))
            || (c in s.conns && Carried(s.conns[c], u) == Some(ts))
  {
    if l.Task? {
      var o := LocalStep(cfg, s.shared, s.conns[l.conn], l.act).value;
      if l.conn == c {
        NewlyCarried(cfg, s.shared, s.conns[c], l.act, o, u, ts);
      } else {
        CarriedHolds(s.conns[c], u);
        RowsOf(cfg, s.shared, s.conns[l.conn], l.act, o, u);
      }
    } else {
      OtherStepFrames(cfg, s, l, s');
    }
  }

  lemma EncodingOf(ts: Timestamp, other: Timestamp)
    ensures ToBeBytes(ts) == ToBeBytes(other) <==> ts == other
  {
  }

  /** A timestamp is stored after a step exactly when it was before or the step stores it. */
  lemma StoredAfterStep(cfg: Config, s: State, l: Label, s': State, u: Text, ts: Timestamp)
    requires Step(cfg, s, l) == Some(s')
    ensures ToBeBytes(ts) in s'.shared.HistoryOf(u) <==>
            ToBeBytes(ts) in s.shared.HistoryOf(u) || Stores(cfg, s, l, u, ts)
  {
    if l.Task? {
      var o := LocalStep(cfg, s.shared, s.conns[l.conn], l.act).value;
      OriginOfStep(cfg, s.shared, s.conns[l.conn], l.act, o);
      if o.effect.AddRecord? {
        EncodingOf(ts, s.conns[l.conn].timestamp);
      } else {
        assert s'.shared.HistoryOf(u) == s.shared.HistoryOf(u);
      }
    } else {
      OtherStepFrames(cfg, s, l, s');
    }
  }

  // ----- Runs -----

  ghost predicate RecordedAt(cfg: Config, synced: bool, run: Run, i: int, u: Text, ts: Timestamp) {
    && 0 <= i < |run| && Exec(cfg, Init(synced), run[..i]).Some?
    && Stores(cfg, Exec(cfg, Init(synced), run[..i]).value, run[i], u, ts)
  }

  /** At position j connection c takes ts for u, and u's records are then `table`. */
  ghost predicate TakenAt(cfg: Config, synced: bool, run: Run, j: int, c: ConnId, u: Text, ts: Timestamp,
                          table: map<Blob, Blob>)
  {
    && 0 <= j < |run| && run[j].Task? && run[j].conn == c && Exec(cfg, Init(synced), run[..j]).Some?
    && Taken(Exec(cfg, Init(synced), run[..j]).value, run[j], u) == Some(ts)
    && Exec(cfg, Init(synced), run[..j]).value.shared.HistoryOf(u) == table
  }

  lemma RecordedEarlier(cfg: Config, synced: bool, run: Run, n: nat, i: int, u: Text, ts: Timestamp)
    requires n <= |run|
    ensures RecordedAt(cfg, synced, run[..n], i, u, ts) <==> i < n && RecordedAt(cfg, synced, run, i, u, ts)
  {
    if 0 <= i < n { assert run[..n][..i] == run[..i]; }
  }

  lemma TakenEarlier(cfg: Config, synced: bool, run: Run, n: nat, j: int, c: ConnId, u: Text, ts: Timestamp,
                     table: map<Blob, Blob>)
    requires n <= |run|
    ensures TakenAt(cfg, synced, run[..n], j, c, u, ts, table) <==>
            j < n && TakenAt(cfg, synced, run, j, c, u, ts, table)
  {
    if 0 <= j < n { assert run[..n][..j] == run[..j]; }
  }

  /** The history table holds exactly what steps of the run recorded. */
  lemma {:induction false} HistoryIsWhatWasRecorded(cfg: Config, synced: bool, run: Run, s: State, u: Text,
                                                    ts: Timestamp)
    requires Reaches(cfg, synced, run, s)
    ensures ToBeBytes(ts) in s.shared.HistoryOf(u) <==> exists i :: RecordedAt(cfg, synced, run, i, u, ts)
    decreases |run|
  {
    if run != [] {
      var n := |run| - 1;
      var p := Exec(cfg, Init(synced), run[..n]).value;
      HistoryIsWhatWasRecorded(cfg, synced, run[..n], p, u, ts);
      StoredAfterStep(cfg, p, run[n], s, u, ts);
      forall i ensures RecordedAt(cfg, synced, run, i, u, ts) <==>
                       RecordedAt(cfg, synced, run[..n], i, u, ts) || (i == n && Stores(cfg, p, run[n], u, ts))
      {
        RecordedEarlier(cfg, synced, run, n, i, u, ts);
      }
      assert Stores(cfg, p, run[n], u, ts) ==> RecordedAt(cfg, synced, run, n, u, ts);
    }
  }

  /** Since a task took the timestamp it carries, the user's records have not changed. */
  lemma {:induction false} CarriedWasTaken(cfg: Config, synced: bool, run: Run, s: State, c: ConnId, u: Text,
                                           ts: Timestamp) returns (j: int)
    requires Reaches(cfg, synced, run, s) && c in s.conns && Carried(s.conns[c], u) == Some(ts)
    ensures TakenAt(cfg, synced, run, j, c, u, ts, s.shared.HistoryOf(u))
    decreases |run|
  {
    var n := |run| - 1;
    var p := Exec(cfg, Init(synced), run[..n]).value;
    LocksOfRun(cfg, synced, run[..n], p);
    CarriedAfterStep(cfg, p, run[n], s, c, u, ts);
    if run[n].Task? && run[n].conn == c && Taken(p, run[n], u) == Some(ts) {
      j := n;
    } else {
      j := CarriedWasTaken(cfg, synced, run[..n], p, c, u, ts);
      TakenEarlier(cfg, synced, run, n, j, c, u, ts, s.shared.HistoryOf(u));
    }
  }

  // ----- When a record is refused -----

  /** ts was issued for u twice, by steps first and second, and recorded in between. */
  ghost predicate RepeatedAt(cfg: Config, synced: bool, run: Run, first: int, stored: int, second: int, c: ConnId,
                             u: Text, ts: Timestamp)
  {
    && first < stored < second && RecordedAt(cfg, synced, run, stored, u, ts)
    && (exists d, table :: TakenAt(cfg, synced, run, first, d, u, ts, table))
    && (exists table :: TakenAt(cfg, synced, run, second, c, u, ts, table))
  }

  lemma RecordedWasTaken(cfg: Config, synced: bool, run: Run, stored: int, u: Text, ts: Timestamp) returns (first: int)
    requires RecordedAt(cfg, synced, run, stored, u, ts)
    ensures first < stored && exists d, table :: TakenAt(cfg, synced, run, first, d, u, ts, table)
  {
    var p := Exec(cfg, Init(synced), run[..stored]).value;
    var d := run[stored].conn;
    first := CarriedWasTaken(cfg, synced, run[..stored], p, d, u, ts);
    TakenEarlier(cfg, synced, run, stored, first, d, u, ts, p.shared.HistoryOf(u));
  }

  lemma TakenKeyWasRepeated(cfg: Config, synced: bool, run: Run, s: State, c: ConnId)
    returns (first: int, stored: int, second: int)
    requires Reaches(cfg, synced, run, s) && c in s.conns && s.conns[c].Recording?
    requires ToBeBytes(s.conns[c].timestamp) in s.shared.HistoryOf(s.conns[c].user)
    ensures RepeatedAt(cfg, synced, run, first, stored, second, c, s.conns[c].user, s.conns[c].timestamp)
  {
    var u, ts := s.conns[c].user, s.conns[c].timestamp;
    second := CarriedWasTaken(cfg, synced, run, s, c, u, ts);
    var q := Exec(cfg, Init(synced), run[..second]).value;
    HistoryIsWhatWasRecorded(cfg, synced, run[..second], q, u, ts);
    stored :| RecordedAt(cfg, synced, run[..second], stored, u, ts);
    RecordedEarlier(cfg, synced, run, second, stored, u, ts);
    first := RecordedWasTaken(cfg, synced, run, stored, u, ts);
  }

  /** The record the task is about to insert goes in, and the token is on its way to the client. */
  ghost predicate Insertable(cfg: Config, sh: Shared, pc: Pc)
    requires pc.Recording?
  {
    && ToBeBytes(pc.timestamp) !in sh.HistoryOf(pc.user)
    && LocalStep(cfg, sh, pc, InsertRecord) ==
       Some(Outcome(SessionReply(pc.user, Token(pc.hash, pc.sign, pc.timestamp), false),
                    AddRecord(pc.user, ToBeBytes(pc.timestamp), pc.sign)))
  }

  lemma TakenKeyIsRefused(cfg: Config, sh: Shared, pc: Pc, act: Action)
    requires pc.Recording? && pc.user in sh.users && ToBeBytes(pc.timestamp) in sh.HistoryOf(pc.user)
    requires LocalStep(cfg, sh, pc, act).Some?
    ensures act.SqlFails?
  {
  }

  lemma FreeKeyInserts(cfg: Config, synced: bool, run: Run, s: State, c: ConnId)
    requires cfg.crypto.Sound() && Reaches(cfg, synced, run, s) && c in s.conns && s.conns[c].Recording?
    ensures Insertable(cfg, s.shared, s.conns[c]) <==>
            ToBeBytes(s.conns[c].timestamp) !in s.shared.HistoryOf(s.conns[c].user)
    ensures !Insertable(cfg, s.shared, s.conns[c]) ==>
              forall act :: LocalStep(cfg, s.shared, s.conns[c], act).Some? ==>
                act.SqlFails? && Burns(s.shared.offset, s.conns[c], act, s.conns[c].user)
  {
    assert s.conns[c].user in s.shared.users by { PcOfRun(cfg, synced, run, s, c); }
    if ToBeBytes(s.conns[c].timestamp) in s.shared.HistoryOf(s.conns[c].user) {
      forall act | LocalStep(cfg, s.shared, s.conns[c], act).Some? ensures act.SqlFails? {
        TakenKeyIsRefused(cfg, s.shared, s.conns[c], act);
      }
    }
  }

  /**
   After every run, a signed timestamp cannot be recorded if and only if the clock had issued the
   same timestamp for the same user before and that one was recorded in between. Then the token is
   lost: the only way on gives it up.
   */
  lemma RefusedExactlyWhenRepeated(cfg: Config, synced: bool, run: Run, s: State, c: ConnId)
    requires cfg.crypto.Sound() && Reaches(cfg, synced, run, s) && c in s.conns && s.conns[c].Recording?
    ensures !Insertable(cfg, s.shared, s.conns[c]) <==>
            exists first, stored, second ::
              RepeatedAt(cfg, synced, run, first, stored, second, c, s.conns[c].user, s.conns[c].timestamp)
    ensures !Insertable(cfg, s.shared, s.conns[c]) ==>
              forall act :: LocalStep(cfg, s.shared, s.conns[c], act).Some? ==>
                act.SqlFails? && Burns(s.shared.offset, s.conns[c], act, s.conns[c].user)
  {
    var u, ts := s.conns[c].user, s.conns[c].timestamp;
    FreeKeyInserts(cfg, synced, run, s, c);
    if !Insertable(cfg, s.shared, s.conns[c]) {
      var first, stored, second := TakenKeyWasRepeated(cfg, synced, run, s, c);
    }
    forall first, stored, second | RepeatedAt(cfg, synced, run, first, stored, second, c, u, ts)
      ensures ToBeBytes(ts) in s.shared.HistoryOf(u)
    {
      HistoryIsWhatWasRecorded(cfg, synced, run, s, u, ts);
    }
  }

  /** Offset and machine clock of the step at position j of a run. */
  ghost predicate ReadsAt(cfg: Config, synced: bool, run: Run, j: int, u: Text, offset: i64, local: Clock.SystemTime) {
    && 0 <= j < |run| && Exec(cfg, Init(synced), run[..j]).Some?
    && Exec(cfg, Init(synced), run[..j]).value.shared.offset == offset
    && Reading(Exec(cfg, Init(synced), run[..j]).value, run[j], u) == Some(local)
  }

  /**
   In terms of the two readings that gave the user the timestamp, the first of which was recorded:
   between them the offset went back by exactly as much as the machine's clock advanced, unless a
   correction was not representable.
   */
  lemma RefusalMeansOffsetWentBack(cfg: Config, synced: bool, run: Run, s: State, c: ConnId)
    returns (first: int, o1: i64, t1: Clock.SystemTime, stored: int, second: int, o2: i64, t2: Clock.SystemTime)
    requires Reaches(cfg, synced, run, s) && c in s.conns && s.conns[c].Recording?
    requires ToBeBytes(s.conns[c].timestamp) in s.shared.HistoryOf(s.conns[c].user)
    ensures first < stored < second
    ensures RecordedAt(cfg, synced, run, stored, s.conns[c].user, s.conns[c].timestamp)
    ensures ReadsAt(cfg, synced, run, first, s.conns[c].user, o1, t1)
    ensures ReadsAt(cfg, synced, run, second, s.conns[c].user, o2, t2) && run[second] == Task(c, ReadTime(t2))
    ensures Clock.Issue(o1, t1) == Clock.Issue(o2, t2) == Some(s.conns[c].timestamp)
    ensures o1 - o2 == t2 - t1 || t1 + o1 > Clock.MAX_TIME || t2 + o2 > Clock.MAX_TIME
  {
    var u := s.conns[c].user;
    first, stored, second := TakenKeyWasRepeated(cfg, synced, run, s, c);
    var p, q := Exec(cfg, Init(synced), run[..first]).value, Exec(cfg, Init(synced), run[..second]).value;
    o1, t1 := p.shared.offset, Reading(p, run[first], u).value;
    o2, t2 := q.shared.offset, Reading(q, run[second], u).value;
    Clock.IssuedAcrossOffsets(o1, t1, o2, t2);
  }

  // ----- A clock that goes forward -----

  /** Every timestamp taken for u during the run is later than the ones then stored for u. */
  ghost predicate Forward(cfg: Config, synced: bool, run: Run, u: Text) {
    forall j, c, ts, table, earlier: Timestamp ::
      TakenAt(cfg, synced, run, j, c, u, ts, table) && ToBeBytes(earlier) in table ==> earlier < ts
  }

  /**
   If every timestamp a user is given is later than the user's records, through re-syncs, restarts
   and whatever the other users are given, then no record of the user is ever refused for its key.
   */
  lemma ForwardClockNeverCollides(cfg: Config, synced: bool, run: Run, s: State, u: Text)
    requires cfg.crypto.Sound() && Reaches(cfg, synced, run, s) && Forward(cfg, synced, run, u)
    ensures forall c :: c in s.conns && s.conns[c].Recording? && s.conns[c].user == u ==>
              Insertable(cfg, s.shared, s.conns[c])
  {
    forall c | c in s.conns && s.conns[c].Recording? && s.conns[c].user == u
      ensures Insertable(cfg, s.shared, s.conns[c])
    {
      var ts := s.conns[c].timestamp;
      var j := CarriedWasTaken(cfg, synced, run, s, c, u, ts);
      FreeKeyInserts(cfg, synced, run, s, c);
    }
  }

  /** If that holds for every user, a shutdown loses nobody's token to a taken key. */
  lemma ForwardClockKeepsKeysFree(cfg: Config, synced: bool, run: Run, s: State)
    requires cfg.crypto.Sound() && Reaches(cfg, synced, run, s) && forall u :: Forward(cfg, synced, run, u)
    ensures NoCollision(s)
  {
    forall c | c in s.conns && s.conns[c].Recording? ensures Insertable(cfg, s.shared, s.conns[c]) {
      ForwardClockNeverCollides(cfg, synced, run, s, s.conns[c].user);
    }
  }

  // ----- A steady clock -----

  /** Nothing stored or carried for u is later than `last`, and what is carried is not stored. */
  ghost predicate UpTo(s: State, u: Text, last: int) {
    && (forall ts: Timestamp :: ToBeBytes(ts) in s.shared.HistoryOf(u) ==> ts <= last)
    && (forall c :: c in s.conns && Carried(s.conns[c], u).Some? ==>
          Carried(s.conns[c], u).value <= last &&
          ToBeBytes(Carried(s.conns[c], u).value) !in s.shared.HistoryOf(u))
  }

  /** The last reading of the machine's clock on behalf of u, or `local` if there is none. */
  ghost function LastReading(cfg: Config, start: State, run: Run, u: Text, local: int): int
    decreases |run|
  {
    if run == [] then local
    else
      var before, l := run[..|run| - 1], run[|run| - 1];
      match Exec(cfg, start, before)
      case None => local
      case Some(s) =>
        if Reading(s, l, u).Some? then Reading(s, l, u).value else LastReading(cfg, start, before, u, local)
  }

  /**
   The readings on behalf of u strictly increase from `local` on, are all made under the offset of
   the start, and their corrections are representable.
   */
  ghost predicate Steady(cfg: Config, start: State, run: Run, u: Text, local: int)
    decreases |run|
  {
    run == [] ||
    var before, l := run[..|run| - 1], run[|run| - 1];
    && Steady(cfg, start, before, u, local)
    && Exec(cfg, start, before).Some?
    && var s := Exec(cfg, start, before).value;
       Reading(s, l, u).Some? ==>
         && s.shared.offset == start.shared.offset
         && LastReading(cfg, start, before, u, local) < Reading(s, l, u).value
         && Reading(s, l, u).value + s.shared.offset <= Clock.MAX_TIME
  }

  lemma IssueIsSum(offset: i64, local: Clock.SystemTime)
    requires local + offset <= Clock.MAX_TIME && Clock.Issue(offset, local).Some?
    ensures Clock.Issue(offset, local).value == local + offset
  {
  }

  lemma StepKeepsUpTo(cfg: Config, s: State, l: Label, s': State, u: Text, last: int)
    requires LocksOk(s) && UpTo(s, u, last) && Step(cfg, s, l) == Some(s')
    requires Taken(s, l, u).Some? ==> Taken(s, l, u).value > last
    ensures UpTo(s', u, if Taken(s, l, u).Some? then Taken(s, l, u).value else last)
  {
    forall ts: Timestamp | ToBeBytes(ts) in s'.shared.HistoryOf(u) ensures ts <= last {
      StoredAfterStep(cfg, s, l, s', u, ts);
      if Stores(cfg, s, l, u, ts) { assert Carried(s.conns[l.conn], u) == Some(ts); }
    }
    forall c | c in s'.conns && Carried(s'.conns[c], u).Some?
      ensures var ts := Carried(s'.conns[c], u).value;
              && ts <= (if Taken(s, l, u).Some? then Taken(s, l, u).value else last)
              && ToBeBytes(ts) !in s'.shared.HistoryOf(u)
    {
      CarriedAfterStep(cfg, s, l, s', c, u, Carried(s'.conns[c], u).value);
    }
  }

  lemma UpToLater(s: State, u: Text, last: int, later: int)
    requires UpTo(s, u, last) && last <= later
    ensures UpTo(s, u, later)
  {
  }

  lemma {:induction false} SteadyKeepsUpTo(cfg: Config, start: State, run: Run, s: State, u: Text, local: int)
    requires LocksOk(start) && UpTo(start, u, local + start.shared.offset)
    requires Exec(cfg, start, run) == Some(s) && Steady(cfg, start, run, u, local)
    ensures LocksOk(s) && UpTo(s, u, LastReading(cfg, start, run, u, local) + start.shared.offset)
    decreases |run|
  {
    if run != [] {
      var before, l := run[..|run| - 1], run[|run| - 1];
      var p := Exec(cfg, start, before).value;
      SteadyKeepsUpTo(cfg, start, before, p, u, local);
      StepKeepsLocks(cfg, p, l, s);
      if Taken(p, l, u).Some? { IssueIsSum(p.shared.offset, l.act.local); }
      var last := LastReading(cfg, start, before, u, local) + start.shared.offset;
      StepKeepsUpTo(cfg, p, l, s, u, last);
      UpToLater(s, u, if Taken(p, l, u).Some? then Taken(p, l, u).value else last,
                LastReading(cfg, start, run, u, local) + start.shared.offset);
    }
  }

  /**
   After any run at all, re-syncs that set the clock back included: once the corrected clock is not
   behind a user's stored and carried timestamps, no record of the user is refused for as long as
   the machine's clock advances and the user's timestamps are taken under one offset.
   */
  lemma SteadyClockNeverCollides(cfg: Config, synced: bool, run: Run, mid: State, more: Run, s: State, u: Text,
                                 local: int)
    requires cfg.crypto.Sound() && Reaches(cfg, synced, run, mid) && UpTo(mid, u, local + mid.shared.offset)
    requires Exec(cfg, mid, more) == Some(s) && Steady(cfg, mid, more, u, local)
    ensures forall c :: c in s.conns && s.conns[c].Recording? && s.conns[c].user == u ==>
              Insertable(cfg, s.shared, s.conns[c])
  {
    LocksOfRun(cfg, synced, run, mid);
    SteadyKeepsUpTo(cfg, mid, more, s, u, local);
    ExecConcat(cfg, Init(synced), run, more);
    forall c | c in s.conns && s.conns[c].Recording? && s.conns[c].user == u
      ensures Insertable(cfg, s.shared, s.conns[c])
    {
      FreeKeyInserts(cfg, synced, run + more, s, c);
      assert Carried(s.conns[c], u) == Some(s.conns[c].timestamp);
    }
  }

  // ----- What the timestamps mean -----

  /** Neither a process stop nor another reply of the NTP server. */
  predicate NoNewReply(run: Run) {
    forall i :: 0 <= i < |run| ==> !run[i].Restart? && (run[i].Sync? ==> !run[i].event.Reply?)
  }

  lemma StepKeepsOffset(cfg: Config, s: State, l: Label, s': State)
    requires Step(cfg, s, l) == Some(s') && !l.Restart? && (l.Sync? ==> !l.event.Reply?)
    ensures s'.shared.offset == s.shared.offset
  {
  }

  lemma {:induction false} RunKeepsOffset(cfg: Config, s: State, more: Run, s': State)
    requires Exec(cfg, s, more) == Some(s') && NoNewReply(more)
    ensures s'.shared.offset == s.shared.offset
    decreases |more|
  {
    if more != [] {
      var n := |more| - 1;
      var p := Exec(cfg, s, more[..n]).value;
      RunKeepsOffset(cfg, s, more[..n], p);
      StepKeepsOffset(cfg, p, more[n], s');
    }
  }

  /**
   After the server took an NTP reply N at local time L, and through any run without another reply
   or a process stop, however many syncs fail: a timestamp given out at local time L' is
   N + (L' - L). It is refused exactly when that lies before 1970, and only beyond the representable
   range does the machine's clock count uncorrected. A machine clock more than 2^63 ns ahead is
   corrected by 2^63 ns.
   */
  lemma TimestampsTrackNtp(cfg: Config, s: State, secs: u32, nanos: u32, atSync: Clock.SystemTime, synced: State,
                           more: Run, s': State, l: Label, u: Text, later: Clock.SystemTime)
    requires Step(cfg, s, Sync(Clock.Reply(secs, nanos, atSync))) == Some(synced) && atSync >= 0
    requires Exec(cfg, synced, more) == Some(s') && NoNewReply(more) && Reading(s', l, u) == Some(later)
    ensures var ntp := secs * 1_000_000_000 + nanos;
            var instant := if ntp - atSync >= -9_223_372_036_854_775_808 then ntp + (later - atSync)
                           else later - 9_223_372_036_854_775_808;
            Taken(s', l, u) ==
            if instant < 0 then None
            else if instant <= 9_223_372_036_854_775_807_999_999_999 then Some(instant)
            else Some(later)
  {
    Clock.WorkerOffsetNeverOverflows(secs, nanos, atSync);
    RunKeepsOffset(cfg, synced, more, s');
  }

  /** Until the NTP server has answered once since the start, a timestamp is what the machine's clock says. */
  lemma UncorrectedUntilFirstReply(cfg: Config, started: State, more: Run, s': State, l: Label, u: Text,
                                   later: Clock.SystemTime)
    requires started.shared.offset == 0 && Exec(cfg, started, more) == Some(s') && NoNewReply(more)
    requires Reading(s', l, u) == Some(later)
    ensures Taken(s', l, u) == if later < 0 then None else Some(later)
  {
    RunKeepsOffset(cfg, started, more, s');
  }

  // ----- A clock that goes back -----

  /**
   Sign up, log in, buy two tokens; a signature at machine time t; a re-sync at t + 1 that finds the
   NTP server at t - 1; a second request at t + 2.
   */
  function ResyncRun(u: Text, p: Text, salt: Blob, h: Sha256Hash, secs: u32, nanos: u32, t: Clock.SystemTime): Run
    requires t + 2 <= Clock.MAX_TIME
  {
    EnterRun(u, p, salt) + BuyRun(2) + SignRun(h, t) + StoreRun() + SyncRun(secs, nanos, t + 1) + SignRun(h, t + 2)
  }

  function SyncRun(secs: u32, nanos: u32, local: Clock.SystemTime): Run {
    [Sync(Clock.Reply(secs, nanos, local))]
  }

  /** Connection 0 waits for a request of u, who has that many tokens. */
  predicate Ready(s: State, u: Text, tokens: int, offset: i64) {
    && 0 in s.conns && s.conns[0] == SessionIdle(u) && s.syncing && s.shared.offset == offset
    && u in s.shared.users && s.shared.users[u].availableTokens == tokens
  }

  lemma BuyTwo(cfg: Config, run: Run, s: State, u: Text) returns (s': State)
    requires Reaches(cfg, true, run, s) && Ready(s, u, 0, 0)
    ensures Reaches(cfg, true, run + BuyRun(2), s') && Ready(s', u, 2, 0)
    ensures s'.shared.history == s.shared.history
  {
    BuyReaches(cfg, true, run, s, u, 2);
    s' := AfterMove(s, AddTokens(u, 2), SessionIdle(u));
  }

  lemma SignAndStore(cfg: Config, run: Run, s: State, u: Text, h: Sha256Hash, t: Timestamp, sign: RsaSignature)
    returns (s': State)
    requires Reaches(cfg, true, run, s) && Ready(s, u, 2, 0) && ToBeBytes(t) !in s.shared.HistoryOf(u)
    requires t <= Clock.MAX_TIME && cfg.crypto.rsaSign(cfg.crypto.Bind(h, t)) == Some(sign)
    ensures Reaches(cfg, true, run + SignRun(h, t) + StoreRun(), s') && Ready(s', u, 1, 0)
    ensures ToBeBytes(t) in s'.shared.HistoryOf(u)
  {
    SignReaches(cfg, true, run, s, u, h, t, t, sign);
    var s1 := AfterMove(s, AddTokens(u, -1), Recording(u, h, t, sign));
    StoreReaches(cfg, true, run + SignRun(h, t), s1, u, h, t, sign);
    s' := AfterMove(s1, AddRecord(u, ToBeBytes(t), sign), SessionIdle(u));
  }

  lemma ResyncSetsBack(cfg: Config, run: Run, s: State, secs: u32, nanos: u32, local: Clock.SystemTime, u: Text)
    returns (s': State)
    requires Reaches(cfg, true, run, s) && Ready(s, u, 1, 0) && local == secs * 1_000_000_000 + nanos + 2
    ensures Reaches(cfg, true, run + SyncRun(secs, nanos, local), s')
    ensures Ready(s', u, 1, -2) && s'.shared.history == s.shared.history
  {
    Clock.WorkerOffsetNeverOverflows(secs, nanos, local);
    ExecSnoc(cfg, Init(true), run, Sync(Clock.Reply(secs, nanos, local)));
    s' := s.(shared := s.shared.(offset := -2));
  }

  lemma SignAgain(cfg: Config, run: Run, s: State, u: Text, h: Sha256Hash, t: Timestamp, sign: RsaSignature)
    returns (s': State)
    requires Reaches(cfg, true, run, s) && Ready(s, u, 1, -2) && ToBeBytes(t) in s.shared.HistoryOf(u)
    requires t + 2 <= Clock.MAX_TIME && cfg.crypto.rsaSign(cfg.crypto.Bind(h, t)) == Some(sign)
    ensures Reaches(cfg, true, run + SignRun(h, t + 2), s')
    ensures 0 in s'.conns && s'.conns[0] == Recording(u, h, t, sign) && ToBeBytes(t) in s'.shared.HistoryOf(u)
  {
    SignReaches(cfg, true, run, s, u, h, t + 2, t, sign);
    s' := AfterMove(s, AddTokens(u, -1), Recording(u, h, t, sign));
  }

  lemma BuyAndSign(cfg: Config, run: Run, s: State, u: Text, h: Sha256Hash, t: Timestamp, sign: RsaSignature)
    returns (s': State)
    requires Reaches(cfg, true, run, s) && Ready(s, u, 0, 0) && s.shared.history == map[]
    requires t <= Clock.MAX_TIME && cfg.crypto.rsaSign(cfg.crypto.Bind(h, t)) == Some(sign)
    ensures Reaches(cfg, true, run + BuyRun(2) + SignRun(h, t) + StoreRun(), s') && Ready(s', u, 1, 0)
    ensures ToBeBytes(t) in s'.shared.HistoryOf(u)
  {
    s' := BuyTwo(cfg, run, s, u);
    s' := SignAndStore(cfg, run + BuyRun(2), s', u, h, t, sign);
  }

  lemma ResyncAndSign(cfg: Config, run: Run, s: State, u: Text, h: Sha256Hash, secs: u32, nanos: u32, t: Timestamp,
                      sign: RsaSignature) returns (s': State)
    requires Reaches(cfg, true, run, s) && Ready(s, u, 1, 0) && ToBeBytes(t) in s.shared.HistoryOf(u)
    requires t == secs * 1_000_000_000 + nanos + 1 && cfg.crypto.rsaSign(cfg.crypto.Bind(h, t)) == Some(sign)
    ensures Reaches(cfg, true, run + SyncRun(secs, nanos, t + 1) + SignRun(h, t + 2), s')
    ensures 0 in s'.conns && s'.conns[0] == Recording(u, h, t, sign) && ToBeBytes(t) in s'.shared.HistoryOf(u)
  {
    s' := ResyncSetsBack(cfg, run, s, secs, nanos, t + 1, u);
    s' := SignAgain(cfg, run + SyncRun(secs, nanos, t + 1), s', u, h, t, sign);
  }

  lemma ResyncReaches(cfg: Config, u: Text, p: Text, salt: Blob, h: Sha256Hash, secs: u32, nanos: u32, t: Timestamp)
    returns (s: State)
    requires cfg.crypto.Sound() && CredentialsFit(u, p)
    requires t == secs * 1_000_000_000 + nanos + 1 && cfg.crypto.rsaSign(cfg.crypto.Bind(h, t)).Some?
    ensures Reaches(cfg, true, ResyncRun(u, p, salt, h, secs, nanos, t), s)
    ensures 0 in s.conns && s.conns[0].Recording? && s.conns[0].user == u
    ensures ToBeBytes(s.conns[0].timestamp) in s.shared.HistoryOf(u)
  {
    var sign := cfg.crypto.rsaSign(cfg.crypto.Bind(h, t)).value;
    var run := EnterRun(u, p, salt);
    s := EnterReaches(cfg, true, u, p, salt);
    s := BuyAndSign(cfg, run, s, u, h, t, sign);
    s := ResyncAndSign(cfg, run + BuyRun(2) + SignRun(h, t) + StoreRun(), s, u, h, secs, nanos, t, sign);
  }

  /** A record insert that fails ends the session and costs the token. */
  lemma RefusalBurnsToken(cfg: Config, synced: bool, run: Run, s: State, c: ConnId)
    requires Reaches(cfg, synced, run, s) && c in s.conns && s.conns[c].Recording?
    ensures Exec(cfg, Init(synced), run + [Task(c, SqlFails)]).Some?
    ensures Burned(cfg, synced, run + [Task(c, SqlFails)], s.conns[c].user) ==
            Burned(cfg, synced, run, s.conns[c].user) + 1
  {
    ExecTask(cfg, Init(synced), run, s, c, SqlFails, Unlocking(s.conns[c].user, Leave(Failed(Sql))), Nothing);
    var whole := run + [Task(c, SqlFails)];
    assert whole[..|whole| - 1] == run;
  }

  /**
   It does happen, with a machine clock that only advances: the user pays twice, gets one record,
   and the second token is given up.
   */
  lemma ResyncBurnsToken(cfg: Config, u: Text, p: Text, salt: Blob, h: Sha256Hash, secs: u32, nanos: u32, t: Timestamp)
    requires cfg.crypto.Sound() && CredentialsFit(u, p)
    requires t == secs * 1_000_000_000 + nanos + 1 && cfg.crypto.rsaSign(cfg.crypto.Bind(h, t)).Some?
    ensures var run := ResyncRun(u, p, salt, h, secs, nanos, t);
            && Exec(cfg, Init(true), run).Some?
            && var s := Exec(cfg, Init(true), run).value;
               && 0 in s.conns && s.conns[0].Recording? && s.conns[0].user == u
               && !Insertable(cfg, s.shared, s.conns[0])
               && (forall act :: LocalStep(cfg, s.shared, s.conns[0], act).Some? ==> act.SqlFails?)
               && Exec(cfg, Init(true), run + [Task(0, SqlFails)]).Some?
               && Burned(cfg, true, run + [Task(0, SqlFails)], u) == Burned(cfg, true, run, u) + 1
  {
    var s := ResyncReaches(cfg, u, p, salt, h, secs, nanos, t);
    var run := ResyncRun(u, p, salt, h, secs, nanos, t);
    FreeKeyInserts(cfg, true, run, s, 0);
    RefusalBurnsToken(cfg, true, run, s, 0);
  }
}
