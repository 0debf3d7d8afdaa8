/**
  * The Go control-plane client: `SetSnapshot` and `Status` run concurrently with one `Run` loop, and the
  * server changes by itself. One step is one critical section, one RPC, or one turn of the loop.
  */
module GoClient {
  import opened Common
  import Lexer

  const I64_MAX: int := 0x7FFF_FFFF_FFFF_FFFF

  // ---- options and retry arithmetic ----

  type i64 = x: int | -I64_MAX - 1 <= x <= I64_MAX

  datatype Options = Options(poll: i64, rpcTimeout: i64, retryMin: i64, retryMax: i64)

  function OrDefault(value: i64, fallback: i64): i64 { if value == 0 then fallback else value }

  /** `NewUDS`, as far as durations (in nanoseconds) are concerned. */
  function Validated(o: Options): Option<Options> {
    if o.poll < 0 || o.rpcTimeout < 0 || o.retryMin < 0 || o.retryMax < 0 then None
    else
      var r := Options(OrDefault(o.poll, 1_000_000_000), OrDefault(o.rpcTimeout, 3_000_000_000),
                       OrDefault(o.retryMin, 200_000_000), OrDefault(o.retryMax, 5_000_000_000));
      if r.retryMin > r.retryMax || r.retryMax > I64_MAX / 2 then None else Some(r)
  }

  predicate OptionsOk(o: Options) { 0 < o.retryMin <= o.retryMax <= I64_MAX / 2 && 0 < o.poll && 0 < o.rpcTimeout }

  lemma ValidatedOk(o: Options)
    requires Validated(o).Some?
    ensures OptionsOk(Validated(o).value)
  {
  }

  function Doubled(retry: int, o: Options): int { if retry >= o.retryMax / 2 then o.retryMax else retry * 2 }

  /** The delay before the next attempt: the backoff plus or minus a fifth, for a random number in [0, 1). */
  function Jittered(retry: int, random: real): int { (retry as real * (0.8 + random * 0.4)).Floor }

  /** The delay is within a fifth of the backoff, up to rounding down. */
  lemma JitterBounded(retry: int, random: real)
    requires 0 <= retry && 0.0 <= random < 1.0
    ensures 4 * retry - 5 < 5 * Jittered(retry, random) <= 6 * retry
  {
    var factor := 0.8 + random * 0.4;
    Scales(retry as real, factor);
    FloorScaled(retry, retry as real * factor);
  }

  lemma FloorScaled(n: int, y: real)
    requires 4.0 * n as real <= 5.0 * y <= 6.0 * n as real
    ensures 4 * n - 5 < 5 * y.Floor <= 6 * n
  {
    var j := y.Floor;
    assert (5 * j) as real <= (6 * n) as real && (4 * n) as real < (5 * j + 5) as real;
  }

  lemma Scales(x: real, factor: real)
    requires 0.0 <= x && 0.8 <= factor <= 1.2
    ensures 4.0 * x <= 5.0 * (x * factor) <= 6.0 * x
  {
    assert x * 0.8 <= x * factor <= x * 1.2;
  }

  /** Backoff stays between its bounds, and neither it nor the jittered delay leaves 64 bits. */
  lemma RetryBounded(retry: int, o: Options, random: real)
    requires OptionsOk(o) && o.retryMin <= retry <= o.retryMax && 0.0 <= random < 1.0
    ensures o.retryMin <= Doubled(retry, o) <= o.retryMax && (retry < o.retryMax / 2 ==> retry * 2 <= I64_MAX)
    ensures 0 <= Jittered(retry, random) <= I64_MAX
  {
    JitterBounded(retry, random);
  }

  // ---- the state behind the mutex ----

  /** A desired snapshot. `clone` is its address: every accepted `SetSnapshot` makes a new clone. */
  datatype Desired = Desired(clone: nat, version: string, contents: nat)

  datatype Failure = Unavailable | DeadlineExceeded | RestartRequired | NotApplied | WrongVersion | OtherFailure

  datatype Status = Status(desired: string, confirmed: string, synced: bool, failure: Option<Failure>)

  datatype Guarded = Guarded(desired: Option<Desired>, status: Status, wake: bool, running: bool, nextClone: nat)

  const Idle := Guarded(None, Status("", "", false, None), false, false, 0)

  function AfterSet(g: Guarded, version: string, contents: nat): Guarded {
    if Lexer.Blank(version) then g
    else if g.desired.Some? && g.desired.value.version == version then g
    else g.(desired := Some(Desired(g.nextClone, version, contents)), nextClone := g.nextClone + 1, wake := true,
         status := Status(version, g.status.confirmed, false, None))
  }

  predicate SetRejected(g: Guarded, version: string, contents: nat) {
    Lexer.Blank(version) || (g.desired.Some? && g.desired.value.version == version
                             && g.desired.value.contents != contents)
  }

  predicate IsCurrent(g: Guarded, d: Desired) { g.desired.Some? && g.desired.value.clone == d.clone }

  function AfterRecord(g: Guarded, d: Desired, failure: Option<Failure>): Guarded {
    if !IsCurrent(g, d) then g
    else
      var confirmed := if failure.None? then d.version else g.status.confirmed;
      g.(status := Status(g.status.desired, confirmed, failure.None?, failure))
  }

  function AfterNotReady(g: Guarded): Guarded {
    g.(status := g.status.(synced := false, failure := Some(Unavailable)))
  }

  function AfterExit(g: Guarded, failure: Option<Failure>): Guarded {
    g.(running := false, status := g.status.(synced := false, failure := failure))
  }

  /** `Client`: each method is one critical section. */
  class Client {
    var desired: Option<Desired>
    var status: Status
    var wake: bool
    var running: bool
    ghost var nextClone: nat

    ghost function Value(): Guarded
      reads this
    {
      Guarded(desired, status, wake, running, nextClone)
    }

    constructor ()
      ensures Value() == Idle
    {
      desired := None;
      status := Status("", "", false, None);
      wake := false;
      running := false;
      nextClone := 0;
    }

    /** `address` is where the clone is allocated. */
    method SetSnapshot(version: string, contents: nat, address: nat) returns (rejected: bool)
      requires address == nextClone
      modifies this
      ensures Value() == AfterSet(old(Value()), version, contents)
      ensures rejected == SetRejected(old(Value()), version, contents)
      ensures Does(Set(version, contents), old(Value()), Value())
    {
      if Lexer.Blank(version) {
        return true;
      }
      if desired.Some? && desired.value.version == version {
        return desired.value.contents != contents;
      }
      desired := Some(Desired(address, version, contents));
      nextClone := nextClone + 1;
      status := Status(version, status.confirmed, false, None);
      wake := true;
      return false;
    }

    method BeginRun() returns (ok: bool)
      modifies this`running
      ensures ok == !old(running) && Value() == old(Value()).(running := true)
      ensures if ok then Does(StartRun, old(Value()), Value()) else Value() == old(Value())
    {
      ok := !running;
      running := true;
    }

    method Record(d: Desired, failure: Option<Failure>) returns (current: bool)
      modifies this`status
      ensures current == IsCurrent(old(Value()), d) && Value() == AfterRecord(old(Value()), d, failure)
      ensures forall s: System, early :: s.g == old(Value()) && s.phase == Finished(d, failure, early) ==>
                                           After(s, Step.Record).g == Value()
                                           && After(s, Step.Record).phase == Recorded(failure, current)
    {
      current := desired.Some? && desired.value.clone == d.clone;
      if current {
        status := Status(status.desired, if failure.None? then d.version else status.confirmed, failure.None?, failure);
      }
    }

    method NotReady()
      modifies this`status
      ensures Value() == AfterNotReady(old(Value())) && Does(ChannelDown, old(Value()), Value())
    {
      status := status.(synced := false, failure := Some(Unavailable));
    }

    method EndRun(failure: Option<Failure>)
      modifies this`running, this`status
      ensures Value() == AfterExit(old(Value()), failure) && Does(Stop(failure), old(Value()), Value())
      ensures forall s: System, random :: s.g == old(Value()) && Enabled(s, NextTurn(random)) && Ends(s, failure) ==>
                                            After(s, NextTurn(random)).g == Value()
    {
      running := false;
      status := status.(synced := false, failure := failure);
    }
  }

  // ---- the loop and its surroundings ----

  /** Where `Run` is. `Finished` holds the result of `reconcile`; `early` marks the nil for an obsolete snapshot. */
  datatype Phase =
    | Stopped
    | AwaitingWake
    | Waiting(reconnected: bool)
    | Sampled(d: Desired)
    | Differs(d: Desired)
    | Applying(d: Desired)
    | Finished(d: Desired, failure: Option<Failure>, early: bool)
    | Recorded(failure: Option<Failure>, current: bool)
    | Crashed

  /** `reports` collects what the server reported during the attempt at hand. */
  datatype System = System(g: Guarded, phase: Phase, options: Options, retry: int, delay: int, server: string,
                           reports: set<string>)

  datatype Step =
    | Set(version: string, contents: nat)
    | ServerChanges(version: string)
    | StartRun
    | Woken
    | ChannelDown
    | ChannelChanged
    | Sample
    | GetAnswered
    | GetFailed(failure: Failure)
    | CheckCurrent
    | ApplyAnswered(applied: bool, restart: bool, active: string)
    | ApplyFailed(failure: Failure, active: string)
    | Record
    | NextTurn(random: real)
    | Stop(reason: Option<Failure>)

  predicate Enabled(s: System, step: Step) {
    match step
    case Set(_, _) => true
    case ServerChanges(_) => true
    case StartRun => s.phase.Stopped? && !s.g.running
    case Woken => s.phase.AwaitingWake? && s.g.wake
    case ChannelDown => s.phase.Waiting?
    case ChannelChanged => s.phase.Waiting?
    case Sample => s.phase.Waiting?
    case GetAnswered => s.phase.Sampled?
    case GetFailed(_) => s.phase.Sampled?
    case CheckCurrent => s.phase.Differs?
    case ApplyAnswered(_, _, _) => s.phase.Applying?
    case ApplyFailed(_, _) => s.phase.Applying?
    case Record => s.phase.Finished?
    case NextTurn(random) => s.phase.Recorded? && 0.0 <= random < 1.0
    case Stop(_) => s.phase.AwaitingWake? || s.phase.Waiting? || s.phase.Recorded?
  }

  predicate Retryable(failure: Option<Failure>) { failure == Some(Unavailable) || failure == Some(DeadlineExceeded) }

  function ApplyOutcome(d: Desired, applied: bool, restart: bool, active: string): Option<Failure> {
    if restart then Some(RestartRequired)
    else if !applied then Some(NotApplied)
    else if active != d.version then Some(WrongVersion)
    else None
  }

  /** This failure, not to be retried and not of an obsolete snapshot, ends the loop. */
  predicate Ends(s: System, failure: Option<Failure>) {
    s.phase == Recorded(failure, true) && failure.Some? && !Retryable(failure)
  }

  function AfterTurn(s: System, random: real): System
    requires s.phase.Recorded?
  {
    if Retryable(s.phase.failure) then
      s.(phase := Waiting(false), delay := Jittered(s.retry, random), retry := Doubled(s.retry, s.options))
    else if s.phase.failure.Some? && s.phase.current then s.(phase := Stopped, g := AfterExit(s.g, s.phase.failure))
    else s.(phase := Waiting(false), delay := s.options.poll, retry := s.options.retryMin)
  }

  function After(s: System, step: Step): System
    requires Enabled(s, step)
  {
    match step
    case Set(version, contents) => s.(g := AfterSet(s.g, version, contents))
    case ServerChanges(version) => s.(server := version)
    case StartRun =>
      s.(g := s.g.(running := true), phase := if s.g.desired.Some? then Waiting(false) else AwaitingWake,
      retry := s.options.retryMin, delay := 0)
    case Woken => s.(g := s.g.(wake := false), phase := Waiting(false))
    case ChannelDown => s.(g := AfterNotReady(s.g), phase := Waiting(true))
    // Down and up again between two looks: noticed, but never seen not ready.
    case ChannelChanged => s.(phase := Waiting(true))
    case Sample =>
      s.(phase := if s.g.desired.Some? then Sampled(s.g.desired.value) else Crashed, reports := {},
      retry := if s.phase.reconnected then s.options.retryMin else s.retry)
    case GetAnswered =>
      s.(reports := s.reports + {s.server},
      phase := if s.server == s.phase.d.version then Finished(s.phase.d, None, false) else Differs(s.phase.d))
    case GetFailed(failure) => s.(phase := Finished(s.phase.d, Some(failure), false))
    case CheckCurrent =>
      s.(phase := if IsCurrent(s.g, s.phase.d) then Applying(s.phase.d) else Finished(s.phase.d, None, true))
    case ApplyAnswered(applied, restart, active) =>
      s.(server := active, reports := s.reports + {active},
      phase := Finished(s.phase.d, ApplyOutcome(s.phase.d, applied, restart, active), false))
    case ApplyFailed(failure, active) => s.(server := active, phase := Finished(s.phase.d, Some(failure), false))
    case Record =>
      s.(g := AfterRecord(s.g, s.phase.d, s.phase.failure),
      phase := Recorded(s.phase.failure, IsCurrent(s.g, s.phase.d)))
    case NextTurn(random) => AfterTurn(s, random)
    case Stop(failure) => s.(phase := Stopped, g := AfterExit(s.g, failure))
  }

  /** What is behind the mutex goes from `before` to `after` wherever this step is taken. */
  ghost predicate Does(step: Step, before: Guarded, after: Guarded) {
    forall s: System :: s.g == before && Enabled(s, step) ==> After(s, step).g == after
  }

  predicate StepAt(states: seq<System>, steps: seq<Step>, i: nat)
    requires i < |steps| < |states|
  {
    Enabled(states[i], steps[i]) && states[i + 1] == After(states[i], steps[i])
  }

  ghost predicate Run(o: Options, states: seq<System>, steps: seq<Step>) {
    && |states| == |steps| + 1 && OptionsOk(o)
    && (exists server :: states[0] == System(Idle, Stopped, o, o.retryMin, 0, server, {}))
    && forall i :: 0 <= i < |steps| ==> StepAt(states, steps, i)
  }

  lemma RunStep(o: Options, states: seq<System>, steps: seq<Step>, i: nat)
    requires Run(o, states, steps) && i < |steps|
    ensures Enabled(states[i], steps[i]) && states[i + 1] == After(states[i], steps[i])
  {
    assert StepAt(states, steps, i);
  }

  // ---- the invariant ----

  predicate GuardedOk(g: Guarded) {
    && (g.desired.Some? ==> g.status.desired == g.desired.value.version && g.desired.value.clone < g.nextClone)
    && (g.desired.None? ==> !g.status.synced && !g.wake)
    && (g.status.synced ==> g.status.confirmed == g.status.desired)
  }

  /** The snapshot an attempt works on was desired, and is still the desired one if it is at the same address. */
  predicate WorksOn(g: Guarded, d: Desired) {
    g.desired.Some? && d.clone <= g.desired.value.clone && (d.clone == g.desired.value.clone ==> g.desired.value == d)
  }

  /** A nil result means the server reported the version, or the snapshot is obsolete for good. */
  predicate PhaseOk(s: System) {
    match s.phase
    case Stopped => true
    case AwaitingWake => true
    case Waiting(_) => s.g.desired.Some?
    case Sampled(d) => WorksOn(s.g, d)
    case Differs(d) => WorksOn(s.g, d)
    case Applying(d) => WorksOn(s.g, d)
    case Finished(d, failure, early) =>
      && WorksOn(s.g, d) && (early ==> failure.None? && !IsCurrent(s.g, d))
      && (failure.None? && !early ==> d.version in s.reports)
    case Recorded(_, _) => s.g.desired.Some?
    case Crashed => false
  }

  predicate RetryOk(s: System) {
    OptionsOk(s.options) && s.options.retryMin <= s.retry <= s.options.retryMax && 0 <= s.delay <= I64_MAX
  }

  predicate Inv(s: System) { GuardedOk(s.g) && PhaseOk(s) && RetryOk(s) }

  /** A new desired snapshot makes every other one obsolete, and keeps an attempt's own only by leaving it alone. */
  lemma SetKeepsWork(g: Guarded, version: string, contents: nat, d: Desired)
    requires GuardedOk(g) && WorksOn(g, d)
    ensures WorksOn(AfterSet(g, version, contents), d)
    ensures (!IsCurrent(g, d) ==> !IsCurrent(AfterSet(g, version, contents), d))
  {
  }

  lemma TurnKeepsRetry(s: System, random: real)
    requires Inv(s) && s.phase.Recorded? && 0.0 <= random < 1.0
    ensures RetryOk(AfterTurn(s, random))
  {
    RetryBounded(s.retry, s.options, random);
  }

  lemma SetKeepsInv(s: System, version: string, contents: nat)
    requires Inv(s)
    ensures Inv(s.(g := AfterSet(s.g, version, contents)))
  {
    if s.phase.Sampled? || s.phase.Differs? || s.phase.Applying? || s.phase.Finished? {
      SetKeepsWork(s.g, version, contents, s.phase.d);
    }
  }

  /** Starting, stopping and waiting. */
  lemma WaitKeepsInv(s: System, step: Step)
    requires Inv(s) && Enabled(s, step)
    requires step.StartRun? || step.Woken? || step.ChannelDown? || step.ChannelChanged? || step.Sample? || step.Stop?
    ensures Inv(After(s, step))
  {
  }

  /** The remote calls of an attempt. */
  lemma CallKeepsInv(s: System, step: Step)
    requires Inv(s) && Enabled(s, step)
    requires step.GetAnswered? || step.GetFailed? || step.CheckCurrent? || step.ApplyAnswered? || step.ApplyFailed?
    ensures Inv(After(s, step))
  {
  }

  lemma RecordKeepsInv(s: System)
    requires Inv(s) && s.phase.Finished?
    ensures Inv(After(s, Record))
  {
  }

  lemma TurnKeepsInv(s: System, random: real)
    requires Inv(s) && s.phase.Recorded? && 0.0 <= random < 1.0
    ensures Inv(AfterTurn(s, random))
  {
    TurnKeepsRetry(s, random);
  }

  lemma StepKeepsInv(s: System, step: Step)
    requires Inv(s) && Enabled(s, step)
    ensures Inv(After(s, step))
  {
    match step
    case Set(version, contents) => SetKeepsInv(s, version, contents);
    case ServerChanges(_) =>
    case Record => RecordKeepsInv(s);
    case NextTurn(random) => TurnKeepsInv(s, random);
    case GetAnswered => CallKeepsInv(s, step);
    case GetFailed(_) => CallKeepsInv(s, step);
    case CheckCurrent => CallKeepsInv(s, step);
    case ApplyAnswered(_, _, _) => CallKeepsInv(s, step);
    case ApplyFailed(_, _) => CallKeepsInv(s, step);
    case _ => WaitKeepsInv(s, step);
  }

  lemma {:induction false} InvOverEveryRun(o: Options, states: seq<System>, steps: seq<Step>, n: nat)
    requires Run(o, states, steps) && n < |states|
    ensures Inv(states[n]) && states[n].options == o
  {
    if n > 0 {
      InvOverEveryRun(o, states, steps, n - 1);
      RunStep(o, states, steps, n - 1);
      StepKeepsInv(states[n - 1], steps[n - 1]);
    }
  }

  // ---- what a caller of Status may rely on ----

  /** The step in which the server tells the attempt its active version. */
  predicate Reports(step: Step) { step.GetAnswered? || step.ApplyAnswered? }

  /** At step `i`, and in no later attempt than the one at hand in state `n`, the server reported `version`. */
  ghost predicate ReportedAt(states: seq<System>, steps: seq<Step>, i: nat, n: nat, version: string) {
    i < n <= |steps| < |states| && Reports(steps[i]) && states[i + 1].server == version
    && forall j :: i < j < n ==> !steps[j].Sample?
  }

  lemma {:induction false} ReportsComeFromServer(o: Options, states: seq<System>, steps: seq<Step>, n: nat,
                                                 version: string) returns (i: nat)
    requires Run(o, states, steps) && n < |states| && version in states[n].reports
    ensures ReportedAt(states, steps, i, n, version)
  {
    if n > 0 {
      RunStep(o, states, steps, n - 1);
      if Reports(steps[n - 1]) && states[n].server == version {
        i := n - 1;
      } else {
        i := ReportsComeFromServer(o, states, steps, n - 1, version);
      }
    }
  }

  /** Whatever the interleaving, `Synced` means that the confirmed version is the desired one. */
  lemma SyncedMeansConfirmed(o: Options, states: seq<System>, steps: seq<Step>, n: nat)
    requires Run(o, states, steps) && n < |states| && states[n].g.status.synced
    ensures states[n].g.desired.Some?
    ensures states[n].g.status.confirmed == states[n].g.status.desired == states[n].g.desired.value.version
  {
    InvOverEveryRun(o, states, steps, n);
  }

  /** Success is recorded only if the server reported that very version during that very attempt. */
  lemma SuccessWasReported(o: Options, states: seq<System>, steps: seq<Step>, n: nat) returns (i: nat)
    requires Run(o, states, steps) && n < |steps| && StepAt(states, steps, n) && steps[n].Record?
    requires IsCurrent(states[n].g, states[n].phase.d) && states[n + 1].g.status.synced
    ensures ReportedAt(states, steps, i, n, states[n + 1].g.status.confirmed)
  {
    InvOverEveryRun(o, states, steps, n);
    i := ReportsComeFromServer(o, states, steps, n, states[n].phase.d.version);
  }

  /** `Synced` comes about in no other way. */
  lemma OnlyRecordSyncs(s: System, step: Step)
    requires Inv(s) && Enabled(s, step) && !s.g.status.synced && After(s, step).g.status.synced
    ensures step.Record? && IsCurrent(s.g, s.phase.d) && s.phase.failure.None?
  {
  }

  /** While it stays, so does the confirmed version, unless success is recorded anew. */
  lemma SyncedStays(s: System, step: Step)
    requires Enabled(s, step) && s.g.status.synced && After(s, step).g.status.synced
    ensures (step.Record? && IsCurrent(s.g, s.phase.d)) || After(s, step).g.status.confirmed == s.g.status.confirmed
  {
  }

  /** Success was recorded at step `m`, and the client has been synced with that version since. */
  ghost predicate SyncedSince(states: seq<System>, steps: seq<Step>, m: nat, n: nat) {
    && m < n < |states| == |steps| + 1 && steps[m].Record? && states[m].phase.Finished?
    && IsCurrent(states[m].g, states[m].phase.d)
    && forall j :: m < j <= n ==>
                     states[j].g.status.synced && states[j].g.status.confirmed == states[n].g.status.confirmed
  }

  /**
    * Whenever the client is synced, the server reported the confirmed version during the attempt whose
    * success has been standing since.
    */
  lemma {:induction false} SyncedWasReported(o: Options, states: seq<System>, steps: seq<Step>, n: nat)
    returns (m: nat, i: nat)
    requires Run(o, states, steps) && n < |states| && states[n].g.status.synced
    ensures SyncedSince(states, steps, m, n) && ReportedAt(states, steps, i, m, states[n].g.status.confirmed)
  {
    RunStep(o, states, steps, n - 1);
    InvOverEveryRun(o, states, steps, n - 1);
    var s, step := states[n - 1], steps[n - 1];
    if step.Record? && IsCurrent(s.g, s.phase.d) {
      m := n - 1;
      i := SuccessWasReported(o, states, steps, m);
    } else {
      if !s.g.status.synced { OnlyRecordSyncs(s, step); }
      SyncedStays(s, step);
      m, i := SyncedWasReported(o, states, steps, n - 1);
    }
  }

  /** The early nil for an obsolete snapshot is never recorded. */
  lemma EarlyNilIsDiscarded(o: Options, states: seq<System>, steps: seq<Step>, n: nat)
    requires Run(o, states, steps) && n < |steps| && StepAt(states, steps, n) && steps[n].Record?
    requires states[n].phase.early
    ensures states[n + 1].g == states[n].g
  {
    InvOverEveryRun(o, states, steps, n);
  }

  /** Backoff stays within its bounds and every delay within 64 bits, and no attempt samples a missing snapshot. */
  lemma RetryAlwaysBounded(o: Options, states: seq<System>, steps: seq<Step>, n: nat)
    requires Run(o, states, steps) && n < |states|
    ensures o.retryMin <= states[n].retry <= o.retryMax <= I64_MAX / 2 && 0 <= states[n].delay <= I64_MAX
    ensures !states[n].phase.Crashed?
  {
    InvOverEveryRun(o, states, steps, n);
  }
}
