/** The background scheduler of the pattern analysis: a gap check against
    the latest completed run, a tick that runs the analysis when the gap has
    elapsed and swallows its failure, and the started/interval-handle state
    behind `start` and `stop`. Timers are abstract handles; the clock is the
    `now` parameter. */
module Scheduler {
  import opened Wrappers
  import opened Narrator
  import opened PatternRun

  const HourMs: nat := 60 * 60 * 1000
  /** The period of the recurring timer */
  const IntervalMs: nat := 24 * HourMs
  /** The minimum time between two completed runs */
  const MinGapMs: nat := 23 * HourMs
  /** The delay of the first check after start */
  const StartupDelayMs: nat := 10_000

  // ---------------------------------------------------------------------------
  // The gap check
  // ---------------------------------------------------------------------------

  /** What the query for the latest completed run gave */
  datatype LastRunLookup =
    | LookupFailed
    | NoCompletedRun
    | LastRun(completedAt: Option<int>)

  /** `run` is a completed run that finished at `t` */
  predicate FinishedAt(run: Run, t: int) {
    run.status == Completed && run.completedAt == Some(t)
  }

  predicate HasFinished(run: Run) {
    run.status == Completed && run.completedAt.Some?
  }

  /** The latest completion time among the completed runs */
  function LatestCompletion(runs: seq<Run>): (r: Option<int>)
    ensures r.None? <==> forall i :: 0 <= i < |runs| ==> !HasFinished(runs[i])
    ensures r.Some? ==> exists i :: 0 <= i < |runs| && FinishedAt(runs[i], r.value)
    ensures r.Some? ==> forall i :: 0 <= i < |runs| && HasFinished(runs[i]) ==> runs[i].completedAt.value <= r.value
  {
    if |runs| == 0 then None
    else
      var rest := LatestCompletion(runs[..|runs| - 1]);
      var last := runs[|runs| - 1];
      if HasFinished(last) && (rest.None? || rest.value <= last.completedAt.value) then
        assert FinishedAt(runs[|runs| - 1], last.completedAt.value);
        last.completedAt
      else
        assert forall i :: 0 <= i < |runs| - 1 ==> runs[i] == runs[..|runs| - 1][i];
        rest
  }

  /** The query for the latest completed run, ordered by completion time:
      it fails only when the database call throws, finds nothing exactly
      when no completed run has a completion time, and otherwise gives the
      latest such time. */
  function LookupLastRun(runs: seq<Run>, lookupFails: bool): (r: LastRunLookup)
    ensures r.LookupFailed? <==> lookupFails
    ensures r.NoCompletedRun? <==> !lookupFails && forall i :: 0 <= i < |runs| ==> !HasFinished(runs[i])
    ensures r.LastRun? ==>
      && r.completedAt.Some?
      && (exists i :: 0 <= i < |runs| && FinishedAt(runs[i], r.completedAt.value))
      && forall i :: 0 <= i < |runs| && HasFinished(runs[i]) ==> runs[i].completedAt.value <= r.completedAt.value
  {
    if lookupFails then LookupFailed
    else match LatestCompletion(runs)
      case None => NoCompletedRun
      case Some(t) => LastRun(Some(t))
  }

  /** Whether an analysis is due at `now` */
  function ShouldRunAnalysis(lookup: LastRunLookup, now: int): (r: bool)
    ensures lookup.LookupFailed? ==> !r
    ensures lookup.NoCompletedRun? ==> r
    ensures lookup.LastRun? && lookup.completedAt.None? ==> r
    ensures lookup.LastRun? && lookup.completedAt.Some? ==> (r <==> lookup.completedAt.value + MinGapMs <= now)
  {
    match lookup
      case LookupFailed => false
      case NoCompletedRun => true
      case LastRun(completedAt) =>
        match completedAt
          case None => true
          case Some(t) => now - t >= MinGapMs
  }

  /** When the lookup succeeds, an analysis is due exactly when no completed
      run finished less than the minimum gap before `now`. */
  lemma GapCheckMeans(runs: seq<Run>, now: int)
    ensures ShouldRunAnalysis(LookupLastRun(runs, false), now) <==>
      forall i :: 0 <= i < |runs| && HasFinished(runs[i]) ==> runs[i].completedAt.value + MinGapMs <= now
  {
    var latest := LatestCompletion(runs);
    if latest.Some? {
      var i :| 0 <= i < |runs| && FinishedAt(runs[i], latest.value);
      assert HasFinished(runs[i]);
    }
  }

  // ---------------------------------------------------------------------------
  // A tick
  // ---------------------------------------------------------------------------

  /** The database after a tick, and whether the analysis was started */
  datatype Tick = Tick(db: Db, ran: bool)

  /** One firing of the timer. The analysis outcome, success or failure, is
      only logged, so a tick always returns normally. */
  function ScheduledRun(db: Db, now: int, llm: Model, lookupFails: bool, faults: Faults): (r: Tick)
    ensures r.ran <==> ShouldRunAnalysis(LookupLastRun(db.runs, lookupFails), now)
    ensures !r.ran ==> r.db == db
    ensures r.ran ==> r.db == RunPatternAnalysis(db, now, llm, faults).db
  {
    if ShouldRunAnalysis(LookupLastRun(db.runs, lookupFails), now) then
      Tick(RunPatternAnalysis(db, now, llm, faults).db, true)
    else
      Tick(db, false)
  }

  /** A tick starts the analysis exactly when the lookup succeeds and no
      completed run finished within the minimum gap. */
  lemma TickRunsIffGapElapsed(db: Db, now: int, llm: Model, lookupFails: bool, faults: Faults)
    ensures ScheduledRun(db, now, llm, lookupFails, faults).ran <==>
      && !lookupFails
      && forall i :: 0 <= i < |db.runs| && HasFinished(db.runs[i]) ==> db.runs[i].completedAt.value + MinGapMs <= now
  {
    GapCheckMeans(db.runs, now);
  }

  /** After a tick whose analysis completed, no tick before the minimum gap
      has elapsed starts another analysis. */
  lemma NoSecondRunWithinGap(db: Db, first: int, second: int, llm: Model, lookupFails: bool,
                             faults: Faults, laterFails: bool, laterFaults: Faults)
    requires ScheduledRun(db, first, llm, lookupFails, faults).ran
    requires Unfaulted(db, first, llm, faults)
    requires second < first + MinGapMs
    ensures !ScheduledRun(ScheduledRun(db, first, llm, lookupFails, faults).db, second, llm, laterFails, laterFaults).ran
  {
    var after := ScheduledRun(db, first, llm, lookupFails, faults).db;
    RunSucceeds(db, first, llm, faults);
    var id := |db.runs|;
    assert HasFinished(after.runs[id]) && after.runs[id].completedAt == Some(first);
    TickRunsIffGapElapsed(after, second, llm, laterFails, laterFaults);
  }

  // ---------------------------------------------------------------------------
  // Start and stop
  // ---------------------------------------------------------------------------

  /** A timer installed by `start` */
  datatype Timer = Timeout(delayMs: nat) | Interval(periodMs: nat)

  datatype SchedulerState = SchedulerState(started: bool, intervalId: Option<nat>)

  const Initial := SchedulerState(false, None)

  /** The state after `start`, and the timers it installed */
  datatype Started = Started(state: SchedulerState, scheduled: seq<Timer>)

  /** The state after `stop`, and the interval it cleared */
  datatype Stopped = Stopped(state: SchedulerState, cleared: Option<nat>)

  /** The flag is set exactly while an interval handle is held */
  predicate Coherent(s: SchedulerState) {
    s.started <==> s.intervalId.Some?
  }

  /** `start`; `handle` is the handle the runtime gives the new interval */
  function Start(s: SchedulerState, handle: nat): (r: Started)
    ensures s.started ==> r == Started(s, [])
    ensures !s.started ==> r.state == SchedulerState(true, Some(handle))
    ensures !s.started ==> r.scheduled == [Timeout(StartupDelayMs), Interval(IntervalMs)]
  {
    if s.started then Started(s, [])
    else Started(SchedulerState(true, Some(handle)), [Timeout(StartupDelayMs), Interval(IntervalMs)])
  }

  function Stop(s: SchedulerState): (r: Stopped)
    ensures s.intervalId.None? ==> r == Stopped(s, None)
    ensures s.intervalId.Some? ==> r == Stopped(Initial, s.intervalId)
  {
    match s.intervalId
      case None => Stopped(s, None)
      case Some(h) => Stopped(SchedulerState(false, None), Some(h))
  }

  /** Starting twice is starting once: the second start installs nothing. */
  lemma StartIdempotent(s: SchedulerState, h1: nat, h2: nat)
    ensures Start(Start(s, h1).state, h2) == Started(Start(s, h1).state, [])
  {
  }

  /** Stopping a freshly started scheduler clears the interval it installed
      and returns to the initial state. */
  lemma StopUndoesStart(h: nat)
    ensures Stop(Start(Initial, h).state) == Stopped(Initial, Some(h))
  {
  }

  lemma StopIdempotent(s: SchedulerState)
    ensures Stop(Stop(s).state) == Stopped(Stop(s).state, None)
  {
  }

  /** A call of `start` or `stop` */
  datatype Command = StartCommand(handle: nat) | StopCommand

  /** The state after a sequence of calls, and the number of intervals
      installed and not cleared */
  datatype Trace = Trace(state: SchedulerState, live: int)

  function IntervalsIn(timers: seq<Timer>): nat {
    if |timers| == 0 then 0
    else IntervalsIn(timers[..|timers| - 1]) + (if timers[|timers| - 1].Interval? then 1 else 0)
  }

  function Replay(commands: seq<Command>): Trace {
    if |commands| == 0 then Trace(Initial, 0)
    else
      var before := Replay(commands[..|commands| - 1]);
      match commands[|commands| - 1]
        case StartCommand(h) =>
          var st := Start(before.state, h);
          Trace(st.state, before.live + IntervalsIn(st.scheduled))
        case StopCommand =>
          var sp := Stop(before.state);
          Trace(sp.state, before.live - (if sp.cleared.Some? then 1 else 0))
  }

  /** Whatever the order of the calls, the flag and the handle agree, and
      exactly one interval is live while the scheduler is started and none
      otherwise: the recurring timer never runs twice over. The one-off
      startup timeout keeps no handle, so `stop` cannot clear it, and live
      here counts intervals only. */
  lemma {:induction false} SingleInterval(commands: seq<Command>)
    ensures Coherent(Replay(commands).state)
    ensures Replay(commands).live == if Replay(commands).state.started then 1 else 0
  {
    if |commands| > 0 {
      SingleInterval(commands[..|commands| - 1]);
      var before := Replay(commands[..|commands| - 1]);
      match commands[|commands| - 1]
        case StartCommand(h) =>
          var installed := [Timeout(StartupDelayMs), Interval(IntervalMs)];
          assert installed[..1] == [Timeout(StartupDelayMs)];
          assert installed[..1][..0] == [];
          assert IntervalsIn(installed[..1]) == 0;
        case StopCommand =>
    }
  }
}
