/** What the Go client's loop does over time: its backoff, and when it is synced. */
module GoProgress {
  import opened Common
  import opened GoClient
  import Lexer

  // ---- backoff ----

  function Pow2(n: nat): nat { if n == 0 then 1 else 2 * Pow2(n - 1) }

  /** The turn ends an attempt the loop will retry. */
  predicate RetriedTurn(s: System, step: Step) {
    step.NextTurn? && s.phase.Recorded?
    && (s.phase.failure == Some(Unavailable) || s.phase.failure == Some(DeadlineExceeded))
  }

  /** A start, a reconnection, or a turn after anything but a failure to be retried. */
  predicate StartsOver(s: System, step: Step) {
    step.StartRun? || step.NextTurn? || (step.Sample? && s.phase.Waiting? && s.phase.reconnected)
  }

  /** How many failures in a row were retried. */
  function Failures(states: seq<System>, steps: seq<Step>, n: nat): nat
    requires n <= |steps| < |states|
  {
    if n == 0 then 0
    else if RetriedTurn(states[n - 1], steps[n - 1]) then Failures(states, steps, n - 1) + 1
    else if StartsOver(states[n - 1], steps[n - 1]) then 0
    else Failures(states, steps, n - 1)
  }

  /** The smallest backoff doubled so often, cut off at the largest, which an odd one reaches a nanosecond early. */
  function Backoff(o: Options, n: nat): int {
    if n > 0 && o.retryMin * Pow2(n) >= 2 * (o.retryMax / 2) then o.retryMax else o.retryMin * Pow2(n)
  }

  lemma DoubledBackoff(o: Options, n: nat)
    requires OptionsOk(o)
    ensures Doubled(Backoff(o, n), o) == Backoff(o, n + 1)
  {
    var v := o.retryMin * Pow2(n);
    assert o.retryMin * Pow2(n + 1) == 2 * v;
    if n == 0 { assert v == o.retryMin; }
  }

  /** After so many retried failures in a row, whatever else happened, the backoff is the doubled one. */
  lemma {:induction false} BackoffOverEveryRun(o: Options, states: seq<System>, steps: seq<Step>, n: nat)
    requires Run(o, states, steps) && n < |states|
    ensures !states[n].phase.Stopped? ==> states[n].retry == Backoff(o, Failures(states, steps, n))
  {
    if n > 0 {
      BackoffOverEveryRun(o, states, steps, n - 1);
      RunStep(o, states, steps, n - 1);
      InvOverEveryRun(o, states, steps, n - 1);
      assert Backoff(o, 0) == o.retryMin;
      if RetriedTurn(states[n - 1], steps[n - 1]) {
        DoubledBackoff(o, Failures(states, steps, n - 1));
      }
    }
  }

  lemma CutOff(half: int, max: int)
    ensures (if 2 * half >= 2 * (max / 2) then max else 2 * half) == (if 2 * half < max then 2 * half else max)
       <==> 2 * half != max - 1
  {
  }

  /** It is the smallest doubled so often or the largest, whichever is less, unless it would fall one short of that. */
  lemma BackoffIsMin(o: Options, n: nat)
    requires OptionsOk(o)
    ensures var v := o.retryMin * Pow2(n);
            Backoff(o, n) == (if v < o.retryMax then v else o.retryMax) <==> n == 0 || v != o.retryMax - 1
  {
    if n > 0 {
      var half := o.retryMin * Pow2(n - 1);
      assert o.retryMin * Pow2(n) == 2 * half;
      CutOff(half, o.retryMax);
    } else {
      assert o.retryMin * Pow2(0) == o.retryMin;
    }
  }

  /** A smallest backoff of one and a largest of three: the first doubling gives three. */
  lemma OddMaximumIsEarly()
    ensures var o := Options(1, 1, 1, 3); OptionsOk(o) && Doubled(o.retryMin, o) == 3
  {
    assert 3 / 2 == 1;
  }

  // ---- synced ----

  /** Recording makes the client synced with the snapshot of a successful attempt, and not synced otherwise. */
  lemma RecordDecides(o: Options, states: seq<System>, steps: seq<Step>, n: nat)
    requires Run(o, states, steps) && n < |steps| && steps[n] == Record
    ensures states[n].phase.Finished?
    ensures var d, g := states[n].phase.d, states[n + 1].g;
            && (g.desired.Some? && g.desired.value.clone == d.clone ==>
                  && (g.status.synced <==> states[n].phase.failure.None?) && g.status.failure == states[n].phase.failure
                  && (g.status.synced ==> g.status.confirmed == g.status.desired == d.version && g.desired.value == d))
            && (g.desired.Some? && g.desired.value.clone != d.clone ==> g == states[n].g)
  {
    RunStep(o, states, steps, n);
    InvOverEveryRun(o, states, steps, n);
  }

  /** Until it is recorded, the result of an attempt stays what it was. */
  lemma {:induction false} ResultWaits(o: Options, states: seq<System>, steps: seq<Step>, i: nat, n: nat)
    requires Run(o, states, steps) && i <= n < |states| && states[i].phase.Finished?
    requires forall j :: i <= j < n ==> steps[j] != Record
    ensures states[n].phase == states[i].phase
  {
    if i < n {
      ResultWaits(o, states, steps, i, n - 1);
      RunStep(o, states, steps, n - 1);
    }
  }

  /**
    * An answered apply, once recorded with its snapshot still desired, leaves the client synced exactly when the
    * server says it was applied, needs no restart, and is the version asked for.
    */
  lemma ApplySyncsExactly(o: Options, states: seq<System>, steps: seq<Step>, i: nat, n: nat, applied: bool,
                          restart: bool, active: string)
    requires Run(o, states, steps) && i < n < |steps| && steps[i] == ApplyAnswered(applied, restart, active)
    requires steps[n] == Record && forall j :: i < j < n ==> steps[j] != Record
    ensures states[i].phase.Applying?
    ensures IsCurrent(states[n].g, states[i].phase.d) ==>
              (states[n + 1].g.status.synced <==> applied && !restart && active == states[i].phase.d.version)
  {
    RunStep(o, states, steps, i);
    ResultWaits(o, states, steps, i + 1, n);
    RunStep(o, states, steps, n);
  }

  /** And so does an answer that already names the version, without an apply. */
  lemma ReportSyncs(o: Options, states: seq<System>, steps: seq<Step>, i: nat, n: nat)
    requires Run(o, states, steps) && i < n < |steps| && steps[i] == GetAnswered
    requires steps[n] == Record && forall j :: i < j < n ==> steps[j] != Record
    ensures states[i].phase.Sampled?
    ensures states[i].server == states[i].phase.d.version && IsCurrent(states[n].g, states[i].phase.d) ==>
              states[n + 1].g.status.synced && states[n + 1].g.status.confirmed == states[i].server
  {
    RunStep(o, states, steps, i);
    if states[i].server == states[i].phase.d.version {
      ResultWaits(o, states, steps, i + 1, n);
      RunStep(o, states, steps, n);
    }
  }

  // ---- setting ----

  /**
    * A blank version, and the version already desired, change nothing; any other becomes the desired one with its
    * contents, not synced, and is tried by the next attempt.
    */
  lemma SetDecides(o: Options, states: seq<System>, steps: seq<Step>, n: nat)
    requires Run(o, states, steps) && n < |steps| && steps[n].Set?
    ensures var g, h, v := states[n].g, states[n + 1].g, steps[n].version;
            if Lexer.Blank(v) || (g.desired.Some? && g.desired.value.version == v) then states[n + 1] == states[n]
            else && h.desired.Some? && h.desired.value.version == v && h.desired.value.contents == steps[n].contents
                 && !h.status.synced && h.status.desired == v && h.status.confirmed == g.status.confirmed
                 && (g.desired.Some? ==> h.desired.value.clone != g.desired.value.clone)
  {
    RunStep(o, states, steps, n);
    InvOverEveryRun(o, states, steps, n);
  }
}
