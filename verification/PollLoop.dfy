/** The relay's poll loop and its error backoff
    (src/presentation/outbox_relay.py, src/presentation/backoff.py). */
module PollLoop {
  import opened Base
  import opened Backoff

  const ERROR_BACKOFF_MIN: real := 1.0
  const ERROR_BACKOFF_MAX: real := 30.0

  /** One call of the publish use case: what it returned (None: it raised), the random draw
      a backoff would use, and whether a stop was requested while it ran. */
  datatype Poll = Poll(result: Option<nat>, draw: real, stop: bool)

  datatype Pause = BackoffFor(seconds: real) | IntervalFor(seconds: real) | NoPause

  /** Why the loop left: no more polls (the next is still to come), a stop, or an error that
      `isolate` does not catch. */
  datatype Ending = Polling | Stopped | Died

  function ScheduleFor(interval: real): Schedule {
    Schedule(if interval < ERROR_BACKOFF_MIN then ERROR_BACKOFF_MIN else interval, ERROR_BACKOFF_MAX)
  }

  class ErrorBackoff {
    const schedule: Schedule
    var failures: nat

    constructor ForInterval(interval: real)
      ensures schedule == ScheduleFor(interval) && failures == 0
    {
      schedule := ScheduleFor(interval);
      failures := 0;
    }

    method Reset()
      modifies this`failures
      ensures failures == 0
    {
      failures := 0;
    }

    method NextDelay(draw: real) returns (delay: Option<real>)
      modifies this`failures
      ensures failures == old(failures) + 1
      ensures delay == DelayFor(schedule, failures, Some(draw))
    {
      failures := failures + 1;
      delay := DelayFor(schedule, failures, Some(draw));
    }
  }

  /** Consecutive raising polls ending with polls[n - 1], where `before` came before polls[0]. */
  function Streak(before: nat, polls: seq<Poll>, n: nat): (k: nat)
    requires n <= |polls|
    ensures k <= before + n
  {
    if n == 0 then before
    else if polls[n - 1].result.Some? then 0
    else Streak(before, polls, n - 1) + 1
  }

  /** Polls that run: everything up to and including the first during which a stop is requested. */
  function Horizon(polls: seq<Poll>): (h: nat)
    ensures h <= |polls|
    ensures forall i :: 0 <= i < h - 1 ==> !polls[i].stop
    ensures h < |polls| ==> h > 0 && polls[h - 1].stop
  {
    if polls == [] then 0 else if polls[0].stop then 1 else 1 + Horizon(polls[1..])
  }

  /** The pause after poll i, when there is one. */
  ghost predicate PauseOf(before: nat, polls: seq<Poll>, i: nat, interval: real, batchSize: nat, pause: Pause)
    requires i < |polls|
  {
    var poll := polls[i];
    match poll.result
    case None =>
      var delay := DelayFor(ScheduleFor(interval), Streak(before, polls, i + 1), Some(poll.draw));
      delay.Some? && pause == BackoffFor(delay.value)
    case Some(published) =>
      pause == if published < batchSize then IntervalFor(interval) else NoPause
  }

  /** Poll i runs, raises, and ends a streak whose delay is too large for a float. */
  ghost predicate Fatal(before: nat, polls: seq<Poll>, i: nat) {
    i < Horizon(polls) && polls[i].result.None? && Streak(before, polls, i + 1) >= OVERFLOW_ATTEMPTS
  }

  class OutboxRelay {
    const interval: real
    const batchSize: nat
    const backoff: ErrorBackoff

    constructor (interval: real, batchSize: nat)
      ensures this.interval == interval && this.batchSize == batchSize
      ensures Valid() && fresh(backoff) && backoff.failures == 0
    {
      this.interval := interval;
      this.batchSize := batchSize;
      this.backoff := new ErrorBackoff.ForInterval(interval);
    }

    ghost predicate Valid() {
      backoff.schedule == ScheduleFor(interval)
    }

    /** `_run` against a given sequence of poll results. The failure counter belongs to the object:
        a loop that is stopped and started again goes on counting. */
    method Run(polls: seq<Poll>) returns (pauses: seq<Pause>, ending: Ending)
      requires Valid()
      modifies backoff
      ensures |pauses| <= Horizon(polls)
      ensures forall i :: 0 <= i < |pauses| ==> PauseOf(old(backoff.failures), polls, i, interval, batchSize, pauses[i])
      // the loop dies exactly at the first fatal poll
      ensures ending.Died? ==> Fatal(old(backoff.failures), polls, |pauses|)
      ensures forall i: nat :: i < |pauses| || !ending.Died? ==> !Fatal(old(backoff.failures), polls, i)
      // the counter is the number of consecutive raising polls, over all runs of the loop
      ensures backoff.failures ==
                Streak(old(backoff.failures), polls, if ending.Died? then |pauses| + 1 else Horizon(polls))
      ensures ending.Polling? ==> |pauses| == |polls| && (forall i :: 0 <= i < |polls| ==> !polls[i].stop)
      ensures ending.Stopped? ==> Horizon(polls) > 0 && polls[Horizon(polls) - 1].stop
      // a stop during a successful poll skips the pause, a stop during a raising one does not
      ensures ending.Stopped? ==>
                |pauses| == Horizon(polls) - if polls[Horizon(polls) - 1].result.Some? then 1 else 0
    {
      ghost var before := backoff.failures;
      pauses := [];
      var stopped := false;
      var i := 0;
      while i < |polls| && !stopped
        invariant 0 <= i <= Horizon(polls)
        invariant stopped <==> i > 0 && polls[i - 1].stop
        invariant stopped ==> polls[i - 1].result.None?
        invariant |pauses| == i
        invariant backoff.failures == Streak(before, polls, i)
        invariant forall j: nat :: j < i ==> !Fatal(before, polls, j)
        invariant forall j :: 0 <= j < i ==> PauseOf(before, polls, j, interval, batchSize, pauses[j])
        modifies backoff
      {
        var poll := polls[i];
        stopped := poll.stop;
        if poll.result.None? {
          var delay := backoff.NextDelay(poll.draw);
          if delay.None? {
            return pauses, Died;
          }
          pauses := pauses + [BackoffFor(delay.value)];
          i := i + 1;
          continue;
        }
        backoff.Reset();
        if stopped {
          return pauses, Stopped;
        }
        if poll.result.value < batchSize {
          pauses := pauses + [IntervalFor(interval)];
        } else {
          pauses := pauses + [NoPause];
        }
        i := i + 1;
      }
      ending := if stopped then Stopped else Polling;
    }
  }

  /** The streak is k long exactly when the last k polls raised, those before this sequence included. */
  lemma {:induction false} StreakIsConsecutive(before: nat, polls: seq<Poll>, n: nat, k: nat)
    requires n <= |polls|
    ensures Streak(before, polls, n) >= k
            <==> k <= before + n && forall i :: 0 <= i < n && n - k <= i ==> polls[i].result.None?
    decreases n
  {
    if k > 0 && n > 0 && polls[n - 1].result.None? {
      StreakIsConsecutive(before, polls, n - 1, k - 1);
    }
  }

  /** Stopping and starting the loop does not forget failures: two runs count like one. */
  lemma {:induction false} StreakSurvivesRestart(before: nat, first: seq<Poll>, second: seq<Poll>, n: nat)
    requires n <= |second|
    ensures Streak(Streak(before, first, |first|), second, n) == Streak(before, first + second, |first| + n)
    decreases n
  {
    if n > 0 {
      StreakSurvivesRestart(before, first, second, n - 1);
    } else {
      SamePrefix(before, first, first + second, |first|);
    }
  }

  lemma {:induction false} SamePrefix(before: nat, polls: seq<Poll>, longer: seq<Poll>, n: nat)
    requires polls <= longer && n <= |polls|
    ensures Streak(before, polls, n) == Streak(before, longer, n)
  {
    if n > 0 {
      SamePrefix(before, polls, longer, n - 1);
    }
  }

  /** What a relay waits after the k-th raising poll in a row: between half and all of the interval
      (or one second) doubled k - 1 times, or of thirty seconds when that is less. */
  lemma PauseRange(before: nat, polls: seq<Poll>, i: nat, interval: real, batchSize: nat, pause: Pause)
    requires i < |polls| && polls[i].result.None? && IsDraw(polls[i].draw)
    requires PauseOf(before, polls, i, interval, batchSize, pause)
    ensures var k := Streak(before, polls, i + 1);
            var first := ScheduleFor(interval).initial;
            && 1 <= k < OVERFLOW_ATTEMPTS && pause.BackoffFor? && first == (if interval < 1.0 then 1.0 else interval)
            && var whole := Doubled(Schedule(first, 30.0), k);
               whole / 2.0 <= pause.seconds <= whole
  {
    var schedule, k := ScheduleFor(interval), Streak(before, polls, i + 1);
    UnjitteredIsDoubled(schedule, k);
    JitterRange(schedule, k, polls[i].draw);
  }

  /** Polls that all raise. */
  function AllRaising(n: nat): seq<Poll> {
    seq(n, _ => Poll(None, 0.0, false))
  }

  lemma {:induction false} NoStopHorizon(polls: seq<Poll>)
    requires forall poll <- polls :: !poll.stop
    ensures Horizon(polls) == |polls|
  {
    if polls != [] {
      assert polls[0] in polls;
      NoStopHorizon(polls[1..]);
    }
  }

  /** The loop really can die: 1025 raising polls reach the streak at which `Run` must end as `Died`,
      and no smaller number does. */
  lemma TooManyRaises(n: nat)
    ensures Horizon(AllRaising(n)) == n && Streak(0, AllRaising(n), n) == n
    ensures n >= OVERFLOW_ATTEMPTS <==> exists i: nat :: Fatal(0, AllRaising(n), i)
  {
    var polls := AllRaising(n);
    NoStopHorizon(polls);
    forall i: nat | i <= n ensures Streak(0, polls, i) == i {
      StreakIsConsecutive(0, polls, i, i);
    }
    if n >= OVERFLOW_ATTEMPTS {
      assert Streak(0, polls, OVERFLOW_ATTEMPTS) == OVERFLOW_ATTEMPTS;
      assert Fatal(0, polls, OVERFLOW_ATTEMPTS - 1);
    } else {
      forall i: nat ensures !Fatal(0, polls, i) {
        assert i < n ==> Streak(0, polls, i + 1) == i + 1;
      }
    }
  }
}
