/**
 `accept_loop` (server/src/server.rs) in the form it is written in: accept and spawn tracked tasks
 until the cancel token is seen, then wait for every task that was spawned.
 */
module AcceptLoop {
  import opened Wrappers
  import opened Machine
  import opened Ledger
  import Shutdown

  /** What the listener meets: a connection, a failed accept, the cancel token, or the last tracked task ending. */
  datatype Event = Incoming(conn: ConnId) | AcceptFails | CancelSeen | TasksEnded

  /** What the tasks and the clock worker do in the meantime, and where that leads. */
  datatype ListenerTurn = ListenerTurn(others: Run, after: State, event: Event)

  predicate NotTheListener(others: Run) {
    forall i :: 0 <= i < |others| ==> others[i].Task? || others[i].Cancel? || others[i].Sync?
  }

  ghost predicate TasksClosed(s: State, tracked: set<ConnId>) {
    forall c :: c in tracked ==> c in s.conns && s.conns[c].Closed?
  }

  /** The event can happen: what the listener, the cancel token and the task tracker guarantee. */
  ghost predicate Possible(s: State, tracked: set<ConnId>, e: Event) {
    match e
    case Incoming(c) => s.phase.Accepting? && c !in s.conns
    case AcceptFails => s.phase.Accepting?
    case CancelSeen => s.phase.Accepting? && s.shared.cancelled
    case TasksEnded => s.phase.Draining? && TasksClosed(s, tracked)
  }

  function After(s: State, e: Event): State {
    match e
    case Incoming(c) => s.(conns := s.conns[c := Shaking])
    case AcceptFails => s
    case CancelSeen => s.(phase := Draining)
    case TasksEnded => s.(phase := Returned)
  }

  function Tracked(tracked: set<ConnId>, e: Event): set<ConnId> {
    if e.Incoming? then tracked + {e.conn} else tracked
  }

  /** The connections that come in during the turns ahead. */
  function Incomers(turns: seq<ListenerTurn>): set<ConnId> {
    if turns == [] then {}
    else (if turns[0].event.Incoming? then {turns[0].event.conn} else {}) + Incomers(turns[1..])
  }

  ghost predicate ListenerPlays(cfg: Config, s: State, tracked: set<ConnId>, script: seq<ListenerTurn>)
    decreases |script|
  {
    script == [] ||
    var t := script[0];
    && Exec(cfg, s, t.others) == Some(t.after) && NotTheListener(t.others)
    && Possible(t.after, tracked, t.event)
    && ListenerPlays(cfg, After(t.after, t.event), Tracked(tracked, t.event), script[1..])
  }

  /** Only the listener adds tasks or changes the phase. */
  lemma {:induction false} OthersAddNoTask(cfg: Config, s: State, others: Run)
    requires Exec(cfg, s, others).Some? && NotTheListener(others)
    ensures Exec(cfg, s, others).value.conns.Keys == s.conns.Keys && Exec(cfg, s, others).value.phase == s.phase
    decreases |others|
  {
    if others != [] {
      OthersAddNoTask(cfg, s, others[..|others| - 1]);
    }
  }

  class Listener {
    const cfg: Config
    const synced: bool
    var script: seq<ListenerTurn>
    /** The tasks the tracker has spawned. */
    var tracker: set<ConnId>
    ghost var world: State
    ghost var trace: Run

    /** A server that has just been started, on an empty database or on the one an earlier process left. */
    constructor (cfg: Config, synced: bool, script: seq<ListenerTurn>, ghost world: State, ghost trace: Run)
      requires Reaches(cfg, synced, trace, world) && world.phase.Accepting? && world.conns == map[]
      requires ListenerPlays(cfg, world, {}, script)
      ensures Valid() && this.world == world && this.trace == trace && this.cfg == cfg && this.synced == synced
      ensures tracker == {} && this.script == script
    {
      this.cfg, this.synced, this.script, this.tracker := cfg, synced, script, {};
      this.world, this.trace := world, trace;
    }

    /** What has happened is a run, and the tracker knows every task there is. */
    ghost predicate Valid()
      reads this
    {
      && Reaches(cfg, synced, trace, world)
      && tracker == world.conns.Keys
      && ListenerPlays(cfg, world, tracker, script)
    }

    /** Lets the others move and returns what the listener meets then. */
    method Await() returns (e: Event)
      requires Valid() && script != []
      modifies this
      ensures Reaches(cfg, synced, trace, world) && tracker == world.conns.Keys == old(tracker)
      ensures world.phase == old(world.phase) && Possible(world, tracker, e)
      ensures ListenerPlays(cfg, After(world, e), Tracked(tracker, e), script)
      ensures script == old(script)[1..] && e == old(script)[0].event && old(trace) <= trace
    {
      var t := script[0];
      OthersAddNoTask(cfg, world, t.others);
      ExecConcat(cfg, Init(synced), trace, t.others);
      world, trace := t.after, trace + t.others;
      script := script[1..];
      e := t.event;
    }

    /** The label of the transition system that an event amounts to; a failed accept is none. */
    ghost method Took(l: Label, next: State)
      requires Reaches(cfg, synced, trace, world) && Step(cfg, world, l) == Some(next)
      requires tracker == next.conns.Keys && ListenerPlays(cfg, next, tracker, script)
      modifies this`world, this`trace
      ensures Valid() && world == next && trace == old(trace) + [l]
    {
      ExecSnoc(cfg, Init(synced), trace, l);
      world, trace := next, trace + [l];
    }

    /** Accepts until the cancel token is seen; false if the script ends first. Every incomer gets a tracked task. */
    method Accept() returns (cancelSeen: bool)
      requires Valid() && world.phase.Accepting?
      modifies this
      ensures Valid() && old(trace) <= trace
      ensures tracker + Incomers(script) == old(tracker + Incomers(script))
      ensures cancelSeen ==> world.phase.Draining? && world.shared.cancelled
      ensures !cancelSeen ==> script == []
    {
      while script != []
        invariant Valid() && world.phase.Accepting? && old(trace) <= trace
        invariant tracker + Incomers(script) == old(tracker + Incomers(script))
        decreases |script|
      {
        var e := Await();
        match e {
          case Incoming(c) =>
            tracker := tracker + {c};
            Took(Label.Accept(c), After(world, e));
          case AcceptFails =>
          case CancelSeen =>
            Took(StopAccepting, After(world, e));
            return true;
        }
      }
      cancelSeen := false;
    }

    /**
     The whole loop. It returns only after cancellation and after every task it spawned has ended;
     then no session is open and no debit is in flight.
     */
    method Run() returns (returned: bool)
      requires Valid() && world.phase.Accepting?
      modifies this
      ensures Reaches(cfg, synced, trace, world) && old(trace) <= trace
      ensures tracker + Incomers(script) == old(tracker + Incomers(script))
      ensures returned ==> world.phase.Returned? && world.shared.cancelled && TasksClosed(world, tracker)
      ensures returned && cfg.crypto.Sound() ==> forall u :: InFlight(world, u) == 0
      ensures !returned ==> script == []
    {
      var cancelSeen := Accept();
      if !cancelSeen || script == [] {
        return false;
      }
      var e := Await();
      Took(AllDone, After(world, e));
      if cfg.crypto.Sound() {
        Shutdown.ReturnedIsQuiet(cfg, synced, trace, world);
      }
      Shutdown.PhaseOfRun(cfg, synced, trace, world);
      returned := true;
    }
  }
}
