/**
 The NTP-corrected clock (server/src/time_oracle.rs). An instant is a whole number of
 nanoseconds relative to 1 January 1970; `SystemTime` covers what the standard library's
 representation on Unix covers, a signed 64-bit count of seconds plus nanoseconds.
 */
module TimeOracle {
  import opened Wrappers
  import opened MachineInts
  import opened ServerProtocol

  const NANOS_PER_SEC: nat := 1_000_000_000
  const MIN_TIME: int := I64_MIN * NANOS_PER_SEC
  const MAX_TIME: int := (I64_MAX + 1) * NANOS_PER_SEC - 1

  type SystemTime = x: int | MIN_TIME <= x <= MAX_TIME

  datatype TimeOracleError = NtpOverflow | TimeWentBackwards | HostnameNotFound | GenericNetworkError

  function UnwrapOr<T>(o: Option<T>, default: T): T {
    if o.Some? then o.value else default
  }

  /** `duration_since(UNIX_EPOCH)` followed by `as_nanos`. */
  function SinceEpoch(t: SystemTime): (r: Option<Timestamp>) {
    if t >= 0 then Some(t) else None
  }

  function NtpNanos(secs: u64, nanos: u64): (r: Option<nat>) {
    match CheckedMulU64(secs, NANOS_PER_SEC)
    case None => None
    case Some(ns) => CheckedAddU64(ns, nanos)
  }

  function ComputeOffset(secs: u64, nanos: u64, local: SystemTime): (r: Result<i64, TimeOracleError>) {
    match NtpNanos(secs, nanos)
    case None => Err(NtpOverflow)
    case Some(ntp) =>
      match SinceEpoch(local)
      case None => Err(TimeWentBackwards)
      case Some(elapsed) =>
        var local128 := UnwrapOr(I128FromU128(elapsed), I128_MAX);
        Ok(ClampToI64(UnwrapOr(CheckedSubI128(ntp, local128), 0)))
  }

  /** The offset is the clamped difference of the two clocks; both fallback values are dead. */
  lemma ComputeOffsetRefinesSubtraction(secs: u64, nanos: u64, local: SystemTime)
    ensures var ntp := secs * 1_000_000_000 + nanos;
            var r := ComputeOffset(secs, nanos, local);
            && (r == Err(NtpOverflow) <==> ntp >= 18_446_744_073_709_551_616)
            && (r == Err(TimeWentBackwards) <==> ntp < 18_446_744_073_709_551_616 && local < 0)
            && (ntp < 18_446_744_073_709_551_616 && local >= 0 ==>
                  && I128FromU128(local) == Some(local)
                  && CheckedSubI128(ntp, local) == Some(ntp - local)
                  && r == Ok(if ntp - local < -9_223_372_036_854_775_808 then -9_223_372_036_854_775_808
                             else if ntp - local > 9_223_372_036_854_775_807 then 9_223_372_036_854_775_807
                             else ntp - local))
  {
  }

  /** For the 32-bit values the worker passes, only a clock before 1970 fails, and only the lower clamp occurs. */
  lemma WorkerOffsetNeverOverflows(secs: u32, nanos: u32, local: SystemTime)
    ensures var ntp := secs * 1_000_000_000 + nanos;
            ComputeOffset(secs, nanos, local) ==
            if local < 0 then Err(TimeWentBackwards)
            else if ntp - local < -9_223_372_036_854_775_808 then Ok(-9_223_372_036_854_775_808)
            else Ok(ntp - local)
  {
    ComputeOffsetRefinesSubtraction(secs, nanos, local);
  }

  function CheckedAddTime(t: SystemTime, nanos: nat): (r: Option<SystemTime>) {
    if t + nanos <= MAX_TIME then Some(t + nanos) else None
  }

  function CheckedSubTime(t: SystemTime, nanos: nat): (r: Option<SystemTime>) {
    if t - nanos >= MIN_TIME then Some(t - nanos) else None
  }

  /** `time_now` when the machine's clock reads `local` and the shared offset is `offset`. */
  function Corrected(offset: i64, local: SystemTime): (t: SystemTime) {
    if offset >= 0 then UnwrapOr(CheckedAddTime(local, offset), local)
    else UnwrapOr(CheckedSubTime(local, UnsignedAbs(offset)), local)
  }

  /** The timestamp the session handler takes from the oracle; None is `ClockStaggered`. */
  function Issue(offset: i64, local: SystemTime): (r: Option<Timestamp>) {
    SinceEpoch(Corrected(offset, local))
  }

  /**
   After a sync at NTP time N and local time L whose offset is not clamped, a timestamp taken at
   local time L' is N + (L' - L). It is refused exactly when that instant lies before 1970, and
   only an instant beyond the representable range falls back to the uncorrected clock.
   */
  lemma IssuedTimeTracksNtp(secs: u32, nanos: u32, atSync: SystemTime, later: SystemTime)
    requires atSync >= 0
    requires var ntp := secs * 1_000_000_000 + nanos; ntp - atSync >= -9_223_372_036_854_775_808
    ensures var instant := secs * 1_000_000_000 + nanos + (later - atSync);
            && ComputeOffset(secs, nanos, atSync).Ok?
            && Issue(ComputeOffset(secs, nanos, atSync).value, later) ==
               if instant < 0 then None
               else if instant <= 9_223_372_036_854_775_807_999_999_999 then Some(instant)
               else Some(later)
  {
    WorkerOffsetNeverOverflows(secs, nanos, atSync);
  }

  /** When an increasing local clock yields increasing timestamps, exactly. */
  lemma IssuedTimesIncrease(offset: i64, first: SystemTime, second: SystemTime)
    requires first < second
    requires Issue(offset, first).Some? && Issue(offset, second).Some?
    ensures Issue(offset, first).value < Issue(offset, second).value <==>
            second + offset <= MAX_TIME || first + offset > MAX_TIME || first + offset < second
  {
  }

  /**
   How timestamps taken under two offsets compare. As long as the correction stays representable,
   the second is later exactly when the offset went back by less than the machine's clock advanced,
   and the same exactly when it went back by as much.
   */
  lemma IssuedAcrossOffsets(o1: i64, t1: SystemTime, o2: i64, t2: SystemTime)
    requires Issue(o1, t1).Some? && Issue(o2, t2).Some?
    ensures t1 + o1 > MAX_TIME ==> Issue(o1, t1).value == t1
    ensures t1 + o1 <= MAX_TIME && t2 + o2 <= MAX_TIME ==>
              && (Issue(o1, t1).value < Issue(o2, t2).value <==> o1 - o2 < t2 - t1)
              && (Issue(o1, t1) == Issue(o2, t2) <==> o1 - o2 == t2 - t1)
  {
  }

  /** A correction beyond the representable range makes the issued time jump backwards. */
  lemma FallbackCanGoBackwards()
    ensures Issue(2, MAX_TIME - 2) == Some(MAX_TIME)
    ensures Issue(2, MAX_TIME - 1) == Some(MAX_TIME - 1)
  {
  }

  /** One turn of the synchronisation loop, as the network lets it end. */
  datatype SyncEvent =
    | Reply(secs: u32, nanos: u32, local: SystemTime)
    | NetworkProblem
    | AddressUnresolved
    | HostLost
    | Fatal

  datatype Worker = Running(offset: i64) | Stopped(offset: i64, error: TimeOracleError)

  function Turn(w: Worker, e: SyncEvent): (w': Worker) {
    if w.Stopped? then w
    else match e
      case Reply(secs, nanos, local) =>
        (match ComputeOffset(secs, nanos, local)
         case Ok(offset) => Running(offset)
         case Err(error) => Stopped(w.offset, error))
      case NetworkProblem => w
      case AddressUnresolved => w
      case HostLost => Stopped(w.offset, HostnameNotFound)
      case Fatal => Stopped(w.offset, GenericNetworkError)
  }

  function Turns(w: Worker, events: seq<SyncEvent>): (w': Worker) {
    if events == [] then w
    else Turn(Turns(w, events[..|events| - 1]), events[|events| - 1])
  }

  /** The events that end the worker: a lost host, a fatal error, or a machine clock before 1970. */
  predicate EndsWorker(e: SyncEvent) {
    e.HostLost? || e.Fatal? || (e.Reply? && e.local < 0)
  }

  function Cause(e: SyncEvent): TimeOracleError
    requires EndsWorker(e)
  {
    if e.HostLost? then HostnameNotFound else if e.Fatal? then GenericNetworkError else TimeWentBackwards
  }

  predicate FailedSync(e: SyncEvent) {
    e.NetworkProblem? || e.AddressUnresolved? || EndsWorker(e)
  }

  /** Whatever happened before, and however syncing fails afterwards, the last NTP reply governs the clock. */
  lemma {:induction false} LastReplyGoverns(w: Worker, before: seq<SyncEvent>, r: SyncEvent, after: seq<SyncEvent>)
    requires Turns(w, before).Running?
    requires r.Reply? && r.local >= 0
    requires forall i :: 0 <= i < |after| ==> FailedSync(after[i])
    ensures Ok(Turns(w, before + [r] + after).offset) == ComputeOffset(r.secs, r.nanos, r.local)
    decreases |after|
  {
    var events := before + [r] + after;
    if after == [] {
      assert events[..|events| - 1] == before;
      WorkerOffsetNeverOverflows(r.secs, r.nanos, r.local);
    } else {
      assert events[..|events| - 1] == before + [r] + after[..|after| - 1];
      LastReplyGoverns(w, before, r, after[..|after| - 1]);
      var last := after[|after| - 1];
      assert events[|events| - 1] == last;
      if last.Reply? { WorkerOffsetNeverOverflows(last.secs, last.nanos, last.local); }
    }
  }

  /** The shared atomic offset with its reader and its background writer. */
  class TimeOracle {
    var offsetNanos: i64

    constructor ()
      ensures offsetNanos == 0
    {
      offsetNanos := 0;
    }

    method TimeNow(local: SystemTime) returns (t: SystemTime)
      ensures var sum := local + offsetNanos;
              var fits := -9_223_372_036_854_775_808_000_000_000 <= sum <= 9_223_372_036_854_775_807_999_999_999;
              t == if fits then sum else local
    {
      var offset := offsetNanos;
      if offset >= 0 {
        t := UnwrapOr(CheckedAddTime(local, offset), local);
      } else {
        t := UnwrapOr(CheckedSubTime(local, UnsignedAbs(offset)), local);
      }
    }

    /** Runs until the events at hand are used up (None) or a turn ends the worker. */
    method StartSyncing(events: seq<SyncEvent>) returns (stopped: Option<TimeOracleError>)
      modifies this
      ensures var w := Turns(Running(old(offsetNanos)), events);
              && offsetNanos == w.offset
              && stopped == if w.Running? then None else Some(w.error)
      ensures stopped == None <==> forall i :: 0 <= i < |events| ==> !EndsWorker(events[i])
      ensures stopped.Some? ==>
                exists i :: 0 <= i < |events| && (forall j :: 0 <= j < i ==> !EndsWorker(events[j])) &&
                            EndsWorker(events[i]) && stopped.value == Cause(events[i])
    {
      ghost var start := Running(offsetNanos);
      stopped := None;
      for i := 0 to |events|
        invariant Turns(start, events[..i]) == Running(offsetNanos)
        invariant stopped == None
        invariant forall j :: 0 <= j < i ==> !EndsWorker(events[j])
      {
        assert events[..i + 1][..i] == events[..i];
        var error: Option<TimeOracleError> := None;
        match events[i] {
          case Reply(secs, nanos, local) =>
            WorkerOffsetNeverOverflows(secs, nanos, local);
            match ComputeOffset(secs, nanos, local) {
              case Ok(offset) => offsetNanos := offset;
              case Err(e) => error := Some(e);
            }
          case NetworkProblem =>
          case AddressUnresolved =>
          case HostLost => error := Some(HostnameNotFound);
          case Fatal => error := Some(GenericNetworkError);
        }
        if error.Some? {
          StoppedForGood(start, events, i + 1);
          return error;
        }
      }
      assert events[..|events|] == events;
    }
  }

  lemma {:induction false} StoppedForGood(w: Worker, events: seq<SyncEvent>, n: nat)
    requires n <= |events|
    requires Turns(w, events[..n]).Stopped?
    ensures Turns(w, events) == Turns(w, events[..n])
    decreases |events|
  {
    if n == |events| {
      assert events[..n] == events;
    } else {
      var shorter := events[..|events| - 1];
      assert shorter[..n] == events[..n];
      StoppedForGood(w, shorter, n);
    }
  }
}
