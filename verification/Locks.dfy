/**
 Who is logged in: over every run, the set of logged-in usernames is exactly the usernames held by
 live connections plus those stranded by a login reply that could not be delivered.
 */
module Locks {
  import opened Wrappers
  import opened Bytes
  import opened ServerProtocol
  import opened Machine
  import opened Safety
  import opened Scenario

  ghost function Held(s: State): set<Text> {
    set c | c in s.conns && s.conns[c].Holds().Some? :: s.conns[c].Holds().value
  }

  /** The usernames left locked when a task ended on the login reply, since the last restart. */
  ghost function Stranded(cfg: Config, synced: bool, run: Run): set<Text>
    decreases |run|
  {
    if run == [] then {}
    else
      var before, l := run[..|run| - 1], run[|run| - 1];
      match Exec(cfg, Init(synced), before)
      case None => {}
      case Some(s) =>
        if l.Restart? then {}
        else if l.Task? && l.conn in s.conns && Strands(s.conns[l.conn], l.act)
        then Stranded(cfg, synced, before) + {s.conns[l.conn].started.value}
        else Stranded(cfg, synced, before)
  }

  /** No two connections ever hold one username. */
  lemma AtMostOneHolder(cfg: Config, synced: bool, run: Run, s: State, c: ConnId, d: ConnId)
    requires Reaches(cfg, synced, run, s)
    requires c in s.conns && d in s.conns && s.conns[c].Holds().Some? && s.conns[c].Holds() == s.conns[d].Holds()
    ensures c == d
  {
    LocksOfRun(cfg, synced, run, s);
  }

  /** A task step moves one username at most, and only its own. */
  lemma HeldAfterTask(cfg: Config, s: State, c: ConnId, act: Action, s': State)
    requires LocksOk(s) && TaskStep(cfg, s, c, act) == Some(s')
    ensures var pc, pc' := s.conns[c], s'.conns[c];
            Held(s') == if pc.Holds() == pc'.Holds() then Held(s)
                        else if pc'.Holds().Some? then Held(s) + {pc'.Holds().value}
                        else Held(s) - {pc.Holds().value}
  {
    var pc, pc' := s.conns[c], s'.conns[c];
    HolderOfStep(cfg, s.shared, pc, act, LocalStep(cfg, s.shared, pc, act).value);
    forall u ensures u in Held(s') <==> exists d :: d in s.conns && s'.conns[d].Holds() == Some(u) {
    }
    forall u | u in Held(s) && pc.Holds() != Some(u) ensures u in Held(s') {
      var d :| d in s.conns && s.conns[d].Holds() == Some(u);
      assert s'.conns[d].Holds() == Some(u);
    }
  }

  lemma TaskKeepsLogged(cfg: Config, s: State, c: ConnId, act: Action, s': State, stranded: set<Text>)
    requires LocksOk(s) && TaskStep(cfg, s, c, act) == Some(s')
    requires s.shared.logged == Held(s) + stranded && Held(s) !! stranded
    ensures var stranded' := if Strands(s.conns[c], act) then stranded + {s.conns[c].started.value} else stranded;
            s'.shared.logged == Held(s') + stranded' && Held(s') !! stranded'
  {
    var pc := s.conns[c];
    HeldAfterTask(cfg, s, c, act, s');
    HolderOfStep(cfg, s.shared, pc, act, LocalStep(cfg, s.shared, pc, act).value);
    if pc.Holds().Some? { assert pc.Holds().value in Held(s); }
    if s'.conns[c].Holds().Some? { assert s'.conns[c].Holds().value in Held(s'); }
  }

  lemma OtherKeepsHeld(cfg: Config, s: State, l: Label, s': State)
    requires Step(cfg, s, l) == Some(s') && !l.Task? && !l.Restart?
    ensures Held(s') == Held(s) && s'.shared.logged == s.shared.logged
  {
    forall c | c in s.conns ensures c in s'.conns && s'.conns[c] == s.conns[c] {}
    forall c | c in s'.conns && c !in s.conns ensures s'.conns[c].Holds() == None {}
    assert forall u :: u in Held(s') <==> exists c :: c in s'.conns && s'.conns[c].Holds() == Some(u);
    assert forall u :: u in Held(s) <==> exists c :: c in s.conns && s.conns[c].Holds() == Some(u);
  }

  /** The exact contents of `logged_users`, after every run. */
  lemma {:induction false} LoggedExactly(cfg: Config, synced: bool, run: Run, s: State)
    requires Reaches(cfg, synced, run, s)
    ensures s.shared.logged == Held(s) + Stranded(cfg, synced, run)
    ensures Held(s) !! Stranded(cfg, synced, run)
    decreases |run|
  {
    if run != [] {
      var before, l := run[..|run| - 1], run[|run| - 1];
      var p := Exec(cfg, Init(synced), before).value;
      LoggedExactly(cfg, synced, before, p);
      LocksOfRun(cfg, synced, before, p);
      if l.Task? {
        TaskKeepsLogged(cfg, p, l.conn, l.act, s, Stranded(cfg, synced, before));
      } else if !l.Restart? {
        OtherKeepsHeld(cfg, p, l, s);
      }
    }
  }

  /**
   Every way out of a session gives back the session's own username and no other; the one way to
   stop holding a username without giving it back is a failed login reply.
   */
  lemma LeavingReleasesOwnName(cfg: Config, synced: bool, run: Run, s: State, c: ConnId, act: Action, s': State)
    requires Reaches(cfg, synced, run, s)
    requires TaskStep(cfg, s, c, act) == Some(s')
    requires s.conns[c].Holds().Some? && s'.conns[c].Holds() == None
    ensures var u := s.conns[c].Holds().value;
            && (Strands(s.conns[c], act) <==> u in s'.shared.logged)
            && s'.shared.logged == (if Strands(s.conns[c], act) then s.shared.logged else s.shared.logged - {u})
            && (forall d :: d in s'.conns && s'.conns[d].Holds().Some? ==>
                  s'.conns[d].Holds().value in s'.shared.logged)
  {
    LocksOfRun(cfg, synced, run, s);
    TaskKeepsLocks(cfg, s, c, act, s');
    HolderOfStep(cfg, s.shared, s.conns[c], act, LocalStep(cfg, s.shared, s.conns[c], act).value);
  }

  lemma {:induction false} StrandedGrows(cfg: Config, synced: bool, run: Run, more: Run, u: Text)
    requires Exec(cfg, Init(synced), run + more).Some?
    requires forall i :: 0 <= i < |more| ==> !more[i].Restart?
    requires u in Stranded(cfg, synced, run)
    ensures u in Stranded(cfg, synced, run + more)
    decreases |more|
  {
    if more == [] {
      assert run + more == run;
    } else {
      var n := |more| - 1;
      assert (run + more)[..|run + more| - 1] == run + more[..n];
      ExecPrefix(cfg, Init(synced), run + more, |run| + n);
      assert (run + more)[..|run| + n] == run + more[..n];
      StrandedGrows(cfg, synced, run, more[..n], u);
    }
  }

  /** A stranded username stays locked until the process restarts: nobody can log in with it. */
  lemma StrandedUntilRestart(cfg: Config, synced: bool, run: Run, more: Run, u: Text, s: State)
    requires Reaches(cfg, synced, run + more, s)
    requires forall i :: 0 <= i < |more| ==> !more[i].Restart?
    requires u in Stranded(cfg, synced, run)
    ensures u in s.shared.logged
    ensures forall c :: c in s.conns ==> s.conns[c].Holds() != Some(u)
    ensures LockStep(s.shared.logged, u, TakeLock) == Go(GuestReply(LoginFailed(AlreadyLoggedIn), None))
  {
    StrandedGrows(cfg, synced, run, more, u);
    LoggedExactly(cfg, synced, run + more, s);
    forall c | c in s.conns ensures s.conns[c].Holds() != Some(u) {
      assert s.conns[c].Holds() == Some(u) ==> u in Held(s);
    }
  }

  /** It does happen: sign up, log in, and lose the connection before the login reply is sent. */
  lemma StrandingHappens(cfg: Config, synced: bool, u: Text, p: Text, salt: Blob)
    requires cfg.crypto.Sound() && CredentialsFit(u, p)
    ensures var run := SignUpRun(u, p, salt) + LoginRun(u, p) + [Task(0, SendFails)];
            Exec(cfg, Init(synced), run).Some? && u in Stranded(cfg, synced, run)
  {
    var s := SignUpReaches(cfg, synced, u, p, salt);
    LoginReaches(cfg, synced, SignUpRun(u, p, salt), s, u, p);
    var run := SignUpRun(u, p, salt) + LoginRun(u, p);
    var s' := Exec(cfg, Init(synced), run).value;
    ExecTask(cfg, Init(synced), run, s', 0, SendFails, Closed(Failed(Network)), Nothing);
    var whole := run + [Task(0, SendFails)];
    assert whole[..|whole| - 1] == run;
  }
}
