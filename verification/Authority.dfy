/**
 Who may change what: only a connection that proved a user's password and holds that user's lock
 changes the user's balance or history, nothing ever changes a stored password hash, and the
 faults that mean "the database contradicts the program" never happen.
 */
module Authority {
  import opened Wrappers
  import opened Bytes
  import opened ServerProtocol
  import opened Machine
  import opened Safety

  // ----- Events of a run -----

  /** At position i connection c showed a password that matched the stored hash of u. */
  ghost predicate ProvedAt(cfg: Config, synced: bool, run: Run, i: int, c: ConnId, u: Text) {
    && 0 <= i < |run| && run[i] == Task(c, PasswordRead)
    && var s := Exec(cfg, Init(synced), run[..i]);
       && s.Some? && c in s.value.conns && s.value.conns[c].Verifying? && s.value.conns[c].user == u
       && u in s.value.shared.users
       && cfg.crypto.argonVerify(s.value.conns[c].password, s.value.shared.users[u].passwordHash) == Match
  }

  /** At position i connection c entered u into the set of logged-in usernames, where it was not before. */
  ghost predicate LockedAt(cfg: Config, synced: bool, run: Run, i: int, c: ConnId, u: Text) {
    && 0 <= i < |run| && run[i] == Task(c, TakeLock)
    && var s := Exec(cfg, Init(synced), run[..i]);
       s.Some? && c in s.value.conns && s.value.conns[c] == Verified(u) && u !in s.value.shared.logged
  }

  /** The label ends c's session, or its whole process. */
  predicate Ends(l: Label, c: ConnId) {
    l.Restart? || l == Accept(c) || l == Task(c, ReleaseLock)
  }

  predicate Unbroken(run: Run, from: int, c: ConnId) {
    forall k :: 0 <= from < k < |run| ==> !Ends(run[k], c)
  }

  ghost predicate AuthorisedBy(cfg: Config, synced: bool, run: Run, i: int, j: int, c: ConnId, u: Text) {
    i < j && ProvedAt(cfg, synced, run, i, c, u) && LockedAt(cfg, synced, run, j, c, u) && Unbroken(run, i, c)
  }

  /** c proved u's password, then took u's lock, and has been in its session since. */
  ghost predicate Authorised(cfg: Config, synced: bool, run: Run, c: ConnId, u: Text) {
    exists i, j :: AuthorisedBy(cfg, synced, run, i, j, c, u)
  }

  ghost predicate Proved(cfg: Config, synced: bool, run: Run, c: ConnId, u: Text) {
    exists i :: ProvedAt(cfg, synced, run, i, c, u) && Unbroken(run, i, c)
  }

  lemma ProvedAtLonger(cfg: Config, synced: bool, run: Run, l: Label, i: int, c: ConnId, u: Text)
    requires 0 <= i < |run|
    ensures ProvedAt(cfg, synced, run + [l], i, c, u) <==> ProvedAt(cfg, synced, run, i, c, u)
    ensures LockedAt(cfg, synced, run + [l], i, c, u) <==> LockedAt(cfg, synced, run, i, c, u)
  {
    assert (run + [l])[..i] == run[..i];
  }

  lemma ProvedLonger(cfg: Config, synced: bool, run: Run, l: Label, c: ConnId, u: Text)
    requires Proved(cfg, synced, run, c, u) && !Ends(l, c)
    ensures Proved(cfg, synced, run + [l], c, u)
  {
    var i :| ProvedAt(cfg, synced, run, i, c, u) && Unbroken(run, i, c);
    ProvedAtLonger(cfg, synced, run, l, i, c, u);
    assert Unbroken(run + [l], i, c);
  }

  lemma AuthorisedLonger(cfg: Config, synced: bool, run: Run, l: Label, c: ConnId, u: Text)
    requires Authorised(cfg, synced, run, c, u) && !Ends(l, c)
    ensures Authorised(cfg, synced, run + [l], c, u)
  {
    var i, j :| AuthorisedBy(cfg, synced, run, i, j, c, u);
    ProvedAtLonger(cfg, synced, run, l, i, c, u);
    ProvedAtLonger(cfg, synced, run, l, j, c, u);
    assert AuthorisedBy(cfg, synced, run + [l], i, j, c, u);
  }

  lemma NowProved(cfg: Config, synced: bool, run: Run, s: State, c: ConnId, u: Text)
    requires Reaches(cfg, synced, run, s) && c in s.conns && s.conns[c].Verifying? && s.conns[c].user == u
    requires u in s.shared.users && cfg.crypto.argonVerify(s.conns[c].password, s.shared.users[u].passwordHash) == Match
    ensures Proved(cfg, synced, run + [Task(c, PasswordRead)], c, u)
  {
    var longer := run + [Task(c, PasswordRead)];
    assert longer[..|run|] == run;
    assert ProvedAt(cfg, synced, longer, |run|, c, u);
    assert Unbroken(longer, |run|, c);
  }

  lemma NowAuthorised(cfg: Config, synced: bool, run: Run, s: State, c: ConnId, u: Text)
    requires Reaches(cfg, synced, run, s) && c in s.conns && s.conns[c] == Verified(u) && u !in s.shared.logged
    requires Proved(cfg, synced, run, c, u)
    ensures Authorised(cfg, synced, run + [Task(c, TakeLock)], c, u)
  {
    var l := Task(c, TakeLock);
    var longer := run + [l];
    var i :| ProvedAt(cfg, synced, run, i, c, u) && Unbroken(run, i, c);
    ProvedAtLonger(cfg, synced, run, l, i, c, u);
    assert longer[..|run|] == run;
    assert LockedAt(cfg, synced, longer, |run|, c, u);
    assert AuthorisedBy(cfg, synced, longer, i, |run|, c, u);
  }

  /** How a task comes to be verified for, or to hold, a username. */
  lemma SourceOfRights(cfg: Config, sh: Shared, pc: Pc, act: Action, o: Outcome)
    requires LocalStep(cfg, sh, pc, act) == Some(o)
    ensures o.pc.Verified? ==>
              && act.PasswordRead? && pc.Verifying? && pc.user == o.pc.user && pc.user in sh.users
              && cfg.crypto.argonVerify(pc.password, sh.users[pc.user].passwordHash) == Match
    ensures o.pc.Holds().Some? && pc.Holds() != o.pc.Holds() ==>
              act.TakeLock? && pc == Verified(o.pc.Holds().value) && o.pc.Holds().value !in sh.logged
    ensures act.ReleaseLock? ==> o.pc.Holds() == None && !o.pc.Verified?
  {
    OriginOfStep(cfg, sh, pc, act, o);
    NewlyVerified(cfg, sh, pc, act, o);
  }

  lemma NewlyVerified(cfg: Config, sh: Shared, pc: Pc, act: Action, o: Outcome)
    requires LocalStep(cfg, sh, pc, act) == Some(o)
    ensures o.pc.Verified? ==>
              && act.PasswordRead? && pc.Verifying? && pc.user == o.pc.user && pc.user in sh.users
              && cfg.crypto.argonVerify(pc.password, sh.users[pc.user].passwordHash) == Match
    ensures act.ReleaseLock? ==> o.pc.Holds() == None && !o.pc.Verified?
  {
  }

  /** A task is verified for, or holds, only a username whose password its client has shown. */
  ghost predicate Rightful(cfg: Config, synced: bool, run: Run, c: ConnId, pc: Pc) {
    && (pc.Verified? ==> Proved(cfg, synced, run, c, pc.user))
    && (pc.Holds().Some? ==> Authorised(cfg, synced, run, c, pc.Holds().value))
  }

  lemma OwnStepRightful(cfg: Config, synced: bool, run: Run, s: State, c: ConnId, act: Action, o: Outcome)
    requires Reaches(cfg, synced, run, s) && c in s.conns && Rightful(cfg, synced, run, c, s.conns[c])
    requires LocalStep(cfg, s.shared, s.conns[c], act) == Some(o)
    ensures Rightful(cfg, synced, run + [Task(c, act)], c, o.pc)
  {
    SourceOfRights(cfg, s.shared, s.conns[c], act, o);
    if o.pc.Verified? {
      NowProved(cfg, synced, run, s, c, o.pc.user);
    }
    if o.pc.Holds().Some? {
      if s.conns[c].Holds() == o.pc.Holds() {
        AuthorisedLonger(cfg, synced, run, Task(c, act), c, o.pc.Holds().value);
      } else {
        NowAuthorised(cfg, synced, run, s, c, o.pc.Holds().value);
      }
    }
  }

  lemma RestRightful(cfg: Config, synced: bool, run: Run, l: Label, c: ConnId, pc: Pc)
    requires Rightful(cfg, synced, run, c, pc) && !Ends(l, c)
    ensures Rightful(cfg, synced, run + [l], c, pc)
  {
    if pc.Verified? { ProvedLonger(cfg, synced, run, l, c, pc.user); }
    if pc.Holds().Some? { AuthorisedLonger(cfg, synced, run, l, c, pc.Holds().value); }
  }

  lemma {:induction false} HoldersAreRightful(cfg: Config, synced: bool, run: Run, s: State, c: ConnId)
    requires Reaches(cfg, synced, run, s) && c in s.conns
    ensures Rightful(cfg, synced, run, c, s.conns[c])
    decreases |run|
  {
    if run != [] {
      var before, l := run[..|run| - 1], run[|run| - 1];
      var p := Exec(cfg, Init(synced), before).value;
      assert before + [l] == run;
      if l == Accept(c) {
        assert s.conns[c] == Shaking;
      } else {
        HoldersAreRightful(cfg, synced, before, p, c);
        if l.Task? && l.conn == c {
          OwnStepRightful(cfg, synced, before, p, c, l.act, LocalStep(cfg, p.shared, p.conns[c], l.act).value);
        } else {
          RestRightful(cfg, synced, before, l, c, p.conns[c]);
        }
      }
    }
  }

  predicate SameRows(sh: Shared, sh': Shared, u: Text) {
    sh'.Balance(u) == sh.Balance(u) && sh'.HistoryOf(u) == sh.HistoryOf(u)
  }

  /**
   A step that changes u's balance or history is taken by a connection that showed u's password
   and took u's lock earlier in the run and has not ended its session since. The step leaves every
   other user's rows and all password hashes as they are.
   */
  lemma WritesAreAuthorised(cfg: Config, synced: bool, run: Run, s: State, l: Label, s': State, u: Text)
    requires Reaches(cfg, synced, run, s) && Step(cfg, s, l) == Some(s')
    requires !SameRows(s.shared, s'.shared, u)
    ensures l.Task? && Authorised(cfg, synced, run, l.conn, u)
    ensures forall v :: v != u ==> SameRows(s.shared, s'.shared, v)
    ensures s'.shared.users.Keys == s.shared.users.Keys && s'.shared.logged == s.shared.logged
    ensures forall v :: v in s.shared.users ==> s'.shared.users[v].passwordHash == s.shared.users[v].passwordHash
  {
    if l.Task? {
      var pc := s.conns[l.conn];
      var o := LocalStep(cfg, s.shared, pc, l.act).value;
      HolderOfStep(cfg, s.shared, pc, l.act, o);
      WriteOfStep(cfg, s.shared, pc, l.act, o, u);
      HoldersAreRightful(cfg, synced, run, s, l.conn);
    } else {
      OtherStepFrames(cfg, s, l, s');
    }
  }

  lemma WriteOfStep(cfg: Config, sh: Shared, pc: Pc, act: Action, o: Outcome, u: Text)
    requires LocalStep(cfg, sh, pc, act) == Some(o) && !SameRows(sh, Apply(sh, o.effect), u)
    ensures (o.effect.AddTokens? || o.effect.AddRecord?) && o.effect.user == u
    ensures forall v :: v != u ==> SameRows(sh, Apply(sh, o.effect), v)
    ensures Apply(sh, o.effect).users.Keys == sh.users.Keys
    ensures forall v :: v in sh.users ==> Apply(sh, o.effect).users[v].passwordHash == sh.users[v].passwordHash
  {
    OriginOfStep(cfg, sh, pc, act, o);
  }

  lemma StepKeepsHashes(cfg: Config, s: State, l: Label, s': State, u: Text)
    requires Step(cfg, s, l) == Some(s') && u in s.shared.users
    ensures u in s'.shared.users && s'.shared.users[u].passwordHash == s.shared.users[u].passwordHash
  {
    if l.Task? {
      OriginOfStep(cfg, s.shared, s.conns[l.conn], l.act, LocalStep(cfg, s.shared, s.conns[l.conn], l.act).value);
    } else {
      OtherStepFrames(cfg, s, l, s');
    }
  }

  /** Accounts are never removed and their password hash is the one stored at sign-up, restarts included. */
  lemma {:induction false} HashesArePermanent(cfg: Config, start: State, run: Run, u: Text)
    requires Exec(cfg, start, run).Some? && u in start.shared.users
    ensures var s := Exec(cfg, start, run).value;
            u in s.shared.users && s.shared.users[u].passwordHash == start.shared.users[u].passwordHash
    decreases |run|
  {
    if run != [] {
      var before := run[..|run| - 1];
      HashesArePermanent(cfg, start, before, u);
      StepKeepsHashes(cfg, Exec(cfg, start, before).value, run[|run| - 1], Exec(cfg, start, run).value, u);
    }
  }

  /** Records are never removed or altered either. */
  lemma {:induction false} RecordsArePermanent(cfg: Config, start: State, run: Run, u: Text, key: Blob)
    requires Exec(cfg, start, run).Some? && key in start.shared.HistoryOf(u)
    ensures var s := Exec(cfg, start, run).value;
            key in s.shared.HistoryOf(u) && s.shared.HistoryOf(u)[key] == start.shared.HistoryOf(u)[key]
    decreases |run|
  {
    if run != [] {
      var before, l := run[..|run| - 1], run[|run| - 1];
      RecordsArePermanent(cfg, start, before, u, key);
      var p := Exec(cfg, start, before).value;
      if l.Task? {
        OriginOfStep(cfg, p.shared, p.conns[l.conn], l.act, LocalStep(cfg, p.shared, p.conns[l.conn], l.act).value);
      } else {
        OtherStepFrames(cfg, p, l, Exec(cfg, start, run).value);
      }
    }
  }

  /**
   Starting from an empty database, no task ever ends on a missing user, a negative balance, a
   stored timestamp or signature of the wrong length, or a password hash that does not parse.
   */
  lemma InternalFaultsUnreachable(cfg: Config, synced: bool, run: Run, s: State, c: ConnId, act: Action, o: Outcome)
    requires cfg.crypto.Sound() && Reaches(cfg, synced, run, s) && c in s.conns
    requires LocalStep(cfg, s.shared, s.conns[c], act) == Some(o)
    ensures forall f :: Internal(f) ==>
              o.pc != Closed(Failed(f)) && (o.pc.Unlocking? ==> o.pc.next != Leave(Failed(f)))
  {
    PcOfRun(cfg, synced, run, s, c);
    OwnStep(cfg, s.shared, s.conns[c], act, o);
  }
}
