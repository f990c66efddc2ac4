/** The run record of `runPatternAnalysis`: a run row is created, the notes
    are read newest first, the insights are collected and stored one by one,
    and the run is finalised as completed, or as failed when a step throws.
    The database is a value; each database call that can throw is given its
    outcome through `Faults`. */
module PatternRun {
  import opened Wrappers
  import opened Seqs
  import opened ThemeGrouper
  import opened Timeline
  import opened Narrator
  import opened PatternObserver

  datatype RunStatus = Running | Completed | Failed

  /** A row of the run table */
  datatype Run = Run(
    id: nat,
    status: RunStatus,
    totalNotes: nat,
    themesFound: nat,
    error: Option<string>,
    startedAt: int,
    completedAt: Option<int>)

  /** A row of the insight table: an insight tagged with its run */
  datatype StoredInsight = StoredInsight(runId: nat, insight: Insight)

  datatype Db = Db(notes: seq<Note>, runs: seq<Run>, insights: seq<StoredInsight>)

  /** Storing the insight at position `index` throws `message` */
  datatype InsertFault = InsertFault(index: nat, message: string)

  /** Which database calls throw, and with which message */
  datatype Faults = Faults(
    create: Option<string>,
    readNotes: Option<string>,
    insertInsight: Option<InsertFault>,
    finalise: Option<string>)

  datatype AnalysisResult = AnalysisResult(
    runId: nat,
    status: RunStatus,
    totalNotes: nat,
    themesFound: nat,
    insights: seq<Insight>,
    timeline: seq<TimelineEntry>)

  /** The database after the call, and what the call returned or threw */
  datatype RunReport = RunReport(db: Db, outcome: Result<AnalysisResult>)

  /** Run ids are generated in order (the id of a run is its position) and
      every stored insight belongs to an existing run. */
  ghost predicate Consistent(db: Db) {
    && (forall i :: 0 <= i < |db.runs| ==> db.runs[i].id == i)
    && (forall j :: 0 <= j < |db.insights| ==> db.insights[j].runId < |db.runs|)
  }

  function CreatedKey(n: Note): int {
    n.createdAt
  }

  /** The notes as read: newest first */
  function Snapshot(notes: seq<Note>): (r: seq<Note>)
    ensures multiset(r) == multiset(notes)
    ensures SortedDesc(r, CreatedKey)
  {
    SortDesc(notes, CreatedKey)
  }

  /** The recorded error: the thrown message, or "Unknown error" when it is empty */
  function ErrorText(message: string): (r: string)
    ensures r != ""
    ensures message != "" ==> r == message
  {
    if message == "" then "Unknown error" else message
  }

  function Stamp(runId: nat, ins: seq<Insight>): (r: seq<StoredInsight>)
    ensures |r| == |ins|
    ensures forall i :: 0 <= i < |r| ==> r[i] == StoredInsight(runId, ins[i])
  {
    seq(|ins|, i requires 0 <= i < |ins| => StoredInsight(runId, ins[i]))
  }

  /** The catch block: the run is marked failed with the error text and the
      time, and the error is thrown on. */
  function MarkFailed(db: Db, id: nat, message: string, now: int): RunReport
    requires id < |db.runs|
  {
    var run := db.runs[id].(status := Failed, error := Some(ErrorText(message)), completedAt := Some(now));
    RunReport(db.(runs := db.runs[id := run]), Err(message))
  }

  /** The final update of a successful run */
  function MarkCompleted(db: Db, id: nat, totalNotes: nat, themesFound: nat, now: int): Db
    requires id < |db.runs|
  {
    var run := db.runs[id].(status := Completed, totalNotes := totalNotes, themesFound := themesFound, completedAt := Some(now));
    db.(runs := db.runs[id := run])
  }

  /** The row a new run starts with */
  function NewRun(id: nat, now: int): Run {
    Run(id, Running, 0, 0, None, now, None)
  }

  /** Storing the collected insights one by one under run `id`, then the
      final update; a throw on the way goes to the catch block. With no
      notes this is the early return: nothing to store, zero counts. It
      returns exactly when no insert and not the final update throws; then
      every insight is stored and the run completed, and otherwise a prefix
      is stored and the run failed with the recorded error text. No other
      row changes. */
  function Persist(started: Db, id: nat, totalNotes: nat, insights: seq<Insight>,
                   timeline: seq<TimelineEntry>, faults: Faults, now: int): (r: RunReport)
    requires id < |started.runs|
    ensures r.outcome.Ok? <==>
      faults.finalise.None? && !(faults.insertInsight.Some? && faults.insertInsight.value.index < |insights|)
    ensures r.db.notes == started.notes && |r.db.runs| == |started.runs|
    ensures forall j :: 0 <= j < |started.runs| && j != id ==> r.db.runs[j] == started.runs[j]
    ensures r.outcome.Ok? ==>
      && r.outcome.value == AnalysisResult(id, Completed, totalNotes, |insights|, insights, timeline)
      && r.db.runs[id].status == Completed && r.db.runs[id].themesFound == |insights|
      && r.db.insights == started.insights + Stamp(id, insights)
    ensures r.outcome.Err? ==>
      && r.db.runs[id].status == Failed && r.db.runs[id].error == Some(ErrorText(r.outcome.message))
      && exists k :: 0 <= k <= |insights| && r.db.insights == started.insights + Stamp(id, insights[..k])
  {
    if faults.insertInsight.Some? && faults.insertInsight.value.index < |insights| then
      var fault := faults.insertInsight.value;
      MarkFailed(started.(insights := started.insights + Stamp(id, insights[..fault.index])), id, fault.message, now)
    else
      var persisted := started.(insights := started.insights + Stamp(id, insights));
      assert insights[..|insights|] == insights;
      if faults.finalise.Some? then MarkFailed(persisted, id, faults.finalise.value, now)
      else
        RunReport(MarkCompleted(persisted, id, totalNotes, |insights|, now),
          Ok(AnalysisResult(id, Completed, totalNotes, |insights|, insights, timeline)))
  }

  /** `runPatternAnalysis`: the notes are never changed; when the run row
      cannot be created nothing else happens; a returned result describes
      the new run over every note, with the collected insights and the
      timeline of the notes as read. */
  function RunPatternAnalysis(db: Db, now: int, llm: Model, faults: Faults): (r: RunReport)
    ensures r.db.notes == db.notes
    ensures faults.create.Some? ==> r == RunReport(db, Err(faults.create.value))
    ensures r.outcome.Ok? ==>
      var snapshot := Snapshot(db.notes);
      r.outcome.value == AnalysisResult(|db.runs|, Completed, |db.notes|, |CollectInsights(snapshot, now, llm)|,
                                        CollectInsights(snapshot, now, llm), BuildTimeline(snapshot))
  {
    if faults.create.Some? then RunReport(db, Err(faults.create.value))
    else
      var id := |db.runs|;
      var started := db.(runs := db.runs + [NewRun(id, now)]);
      if faults.readNotes.Some? then MarkFailed(started, id, faults.readNotes.value, now)
      else
        var snapshot := Snapshot(db.notes);
        assert |snapshot| == |db.notes| by {
          assert |multiset(snapshot)| == |multiset(db.notes)|;
        }
        if |snapshot| == 0 then
          assert snapshot == [];
          NoNotesNoInsights(now, llm);
          Persist(started, id, 0, [], [], faults, now)
        else Persist(started, id, |snapshot|, CollectInsights(snapshot, now, llm), BuildTimeline(snapshot), faults, now)
  }

  // ---------------------------------------------------------------------
  // What a call does to the database

  /** The run row after the catch block */
  function FailedRun(id: nat, message: string, now: int): Run {
    Run(id, Failed, 0, 0, Some(ErrorText(message)), now, Some(now))
  }

  /** The run row after the final update */
  function CompletedRun(id: nat, totalNotes: nat, themesFound: nat, now: int): Run {
    Run(id, Completed, totalNotes, themesFound, None, now, Some(now))
  }

  /** The storing phase returns exactly when neither an insert nor the final
      update throws; then every insight is stored and the run completed,
      and otherwise a prefix is stored and the run failed. */
  lemma PersistShape(started: Db, id: nat, totalNotes: nat, insights: seq<Insight>,
                     timeline: seq<TimelineEntry>, faults: Faults, now: int)
    requires id < |started.runs| && started.runs[id] == NewRun(id, now)
    ensures var r := Persist(started, id, totalNotes, insights, timeline, faults, now);
      r.outcome.Ok? <==> faults.finalise.None? && !(faults.insertInsight.Some? && faults.insertInsight.value.index < |insights|)
    ensures var r := Persist(started, id, totalNotes, insights, timeline, faults, now);
      r.outcome.Ok? ==>
        && r.outcome.value == AnalysisResult(id, Completed, totalNotes, |insights|, insights, timeline)
        && r.db == Db(started.notes, started.runs[id := CompletedRun(id, totalNotes, |insights|, now)], started.insights + Stamp(id, insights))
    ensures var r := Persist(started, id, totalNotes, insights, timeline, faults, now);
      r.outcome.Err? ==>
        && r.db.notes == started.notes
        && r.db.runs == started.runs[id := FailedRun(id, r.outcome.message, now)]
        && exists k :: 0 <= k <= |insights| && r.db.insights == started.insights + Stamp(id, insights[..k])
  {
    if faults.insertInsight.Some? && faults.insertInsight.value.index < |insights| {
    } else {
      assert insights[..|insights|] == insights;
    }
  }

  /** The storing phase's failure in terms of the database before the run
      was created */
  lemma PersistFailure(db: Db, id: nat, totalNotes: nat, insights: seq<Insight>,
                       timeline: seq<TimelineEntry>, faults: Faults, now: int)
    requires id == |db.runs|
    ensures var r := Persist(db.(runs := db.runs + [NewRun(id, now)]), id, totalNotes, insights, timeline, faults, now);
      r.outcome.Err? ==>
        && r.db.notes == db.notes
        && r.db.runs == db.runs + [FailedRun(id, r.outcome.message, now)]
        && exists k :: 0 <= k <= |insights| && r.db.insights == db.insights + Stamp(id, insights[..k])
  {
    var started := db.(runs := db.runs + [NewRun(id, now)]);
    PersistShape(started, id, totalNotes, insights, timeline, faults, now);
    var r := Persist(started, id, totalNotes, insights, timeline, faults, now);
    if r.outcome.Err? {
      assert started.runs[id := FailedRun(id, r.outcome.message, now)] == db.runs + [FailedRun(id, r.outcome.message, now)];
    }
  }

  /** Once the notes are read, the call is the storing phase over the
      collected insights (none when there are no notes). */
  lemma RunIsPersist(db: Db, now: int, llm: Model, faults: Faults)
    requires faults.create.None? && faults.readNotes.None?
    ensures RunPatternAnalysis(db, now, llm, faults)
         == Persist(db.(runs := db.runs + [NewRun(|db.runs|, now)]), |db.runs|, |db.notes|,
                    CollectInsights(Snapshot(db.notes), now, llm), BuildTimeline(Snapshot(db.notes)), faults, now)
  {
    var snapshot := Snapshot(db.notes);
    assert |snapshot| == |db.notes| by {
      assert |multiset(snapshot)| == |multiset(db.notes)|;
    }
    if |snapshot| == 0 {
      assert snapshot == [];
      NoNotesNoInsights(now, llm);
      BuildTimelineEmpty(snapshot);
    }
  }

  /** A fault is met when its call is reached: the insert fault only when
      there is an insight at its position. */
  predicate Unfaulted(db: Db, now: int, llm: Model, faults: Faults) {
    && faults.create.None?
    && faults.readNotes.None?
    && faults.finalise.None?
    && (faults.insertInsight.Some? ==>
          faults.insertInsight.value.index >= |CollectInsights(Snapshot(db.notes), now, llm)|)
  }

  /** The call returns exactly when no call it reaches throws, and then the
      run is completed over every note with every collected insight, and
      those insights are stored under the run, in order, after the rows
      already there. */
  lemma RunSucceeds(db: Db, now: int, llm: Model, faults: Faults)
    ensures var r := RunPatternAnalysis(db, now, llm, faults);
      r.outcome.Ok? <==> Unfaulted(db, now, llm, faults)
    ensures var r := RunPatternAnalysis(db, now, llm, faults);
      r.outcome.Ok? ==>
        var id := |db.runs|;
        var ins := CollectInsights(Snapshot(db.notes), now, llm);
        && r.outcome.value == AnalysisResult(id, Completed, |db.notes|, |ins|, ins, BuildTimeline(Snapshot(db.notes)))
        && r.db == Db(db.notes, db.runs + [CompletedRun(id, |db.notes|, |ins|, now)], db.insights + Stamp(id, ins))
  {
    if faults.create.None? && faults.readNotes.None? {
      var id := |db.runs|;
      var started := db.(runs := db.runs + [NewRun(id, now)]);
      RunIsPersist(db, now, llm, faults);
      PersistShape(started, id, |db.notes|, CollectInsights(Snapshot(db.notes), now, llm),
        BuildTimeline(Snapshot(db.notes)), faults, now);
      assert started.runs[id := CompletedRun(id, |db.notes|, |CollectInsights(Snapshot(db.notes), now, llm)|, now)]
          == db.runs + [CompletedRun(id, |db.notes|, |CollectInsights(Snapshot(db.notes), now, llm)|, now)];
    }
  }

  /** A run row that could not be created leaves the database as it was; any
      later failure leaves the new run failed with a non-empty error, the
      thrown message as the call's error, and a prefix of the collected
      insights stored under the run. */
  lemma RunFails(db: Db, now: int, llm: Model, faults: Faults)
    ensures var r := RunPatternAnalysis(db, now, llm, faults);
      faults.create.Some? ==> r == RunReport(db, Err(faults.create.value))
    ensures var r := RunPatternAnalysis(db, now, llm, faults);
      r.outcome.Err? && faults.create.None? ==>
        var id := |db.runs|;
        && r.db.notes == db.notes
        && r.db.runs == db.runs + [FailedRun(id, r.outcome.message, now)]
        && exists k :: 0 <= k <= |CollectInsights(Snapshot(db.notes), now, llm)| &&
             r.db.insights == db.insights + Stamp(id, CollectInsights(Snapshot(db.notes), now, llm)[..k])
  {
    if faults.create.None? {
      if faults.readNotes.Some? {
        ReadFailure(db, now, llm, faults);
      } else {
        StoreFailure(db, now, llm, faults);
      }
    }
  }

  /** A failed read of the notes stores no insight */
  lemma ReadFailure(db: Db, now: int, llm: Model, faults: Faults)
    requires faults.create.None? && faults.readNotes.Some?
    ensures var r := RunPatternAnalysis(db, now, llm, faults);
      var id := |db.runs|;
      && r.outcome.Err?
      && r.db.notes == db.notes
      && r.db.runs == db.runs + [FailedRun(id, r.outcome.message, now)]
      && r.db.insights == db.insights + Stamp(id, CollectInsights(Snapshot(db.notes), now, llm)[..0])
  {
    var id := |db.runs|;
    var r := RunPatternAnalysis(db, now, llm, faults);
    assert Stamp(id, CollectInsights(Snapshot(db.notes), now, llm)[..0]) == [];
    assert (db.runs + [NewRun(id, now)])[id := FailedRun(id, r.outcome.message, now)] == db.runs + [FailedRun(id, r.outcome.message, now)];
  }

  /** A failure while storing keeps the insights stored before it */
  lemma StoreFailure(db: Db, now: int, llm: Model, faults: Faults)
    requires faults.create.None? && faults.readNotes.None?
    ensures var r := RunPatternAnalysis(db, now, llm, faults);
      r.outcome.Err? ==>
        var id := |db.runs|;
        && r.db.notes == db.notes
        && r.db.runs == db.runs + [FailedRun(id, r.outcome.message, now)]
        && exists k :: 0 <= k <= |CollectInsights(Snapshot(db.notes), now, llm)| &&
             r.db.insights == db.insights + Stamp(id, CollectInsights(Snapshot(db.notes), now, llm)[..k])
  {
    var id := |db.runs|;
    var started := db.(runs := db.runs + [NewRun(id, now)]);
    var ins, tl := CollectInsights(Snapshot(db.notes), now, llm), BuildTimeline(Snapshot(db.notes));
    RunIsPersist(db, now, llm, faults);
    var r := Persist(started, id, |db.notes|, ins, tl, faults, now);
    assert r == RunPatternAnalysis(db, now, llm, faults);
    PersistFailure(db, id, |db.notes|, ins, tl, faults, now);
  }

  /** Nothing the call does touches the notes, an earlier run or an earlier
      stored insight; at most one run is added, and it is never left running. */
  lemma RunKeepsHistory(db: Db, now: int, llm: Model, faults: Faults)
    ensures var r := RunPatternAnalysis(db, now, llm, faults);
      && r.db.notes == db.notes
      && |db.runs| <= |r.db.runs| <= |db.runs| + 1
      && r.db.runs[..|db.runs|] == db.runs
      && |db.insights| <= |r.db.insights|
      && r.db.insights[..|db.insights|] == db.insights
      && (|r.db.runs| > |db.runs| ==> r.db.runs[|db.runs|].status != Running)
  {
    var r := RunPatternAnalysis(db, now, llm, faults);
    if faults.create.None? {
      RunSucceeds(db, now, llm, faults);
      RunFails(db, now, llm, faults);
    }
  }

  /** The run moves once from running to a final state */
  predicate ValidTransition(before: Run, after: Run) {
    && before.status == Running
    && after.status != Running
    && after.id == before.id
    && after.startedAt == before.startedAt
    && before.completedAt.None?
    && after.completedAt.Some?
    && (after.error.Some? <==> after.status == Failed)
  }

  lemma RunLifecycle(db: Db, now: int, llm: Model, faults: Faults)
    requires faults.create.None?
    ensures var r := RunPatternAnalysis(db, now, llm, faults);
      |r.db.runs| == |db.runs| + 1 && ValidTransition(NewRun(|db.runs|, now), r.db.runs[|db.runs|])
  {
    RunSucceeds(db, now, llm, faults);
    RunFails(db, now, llm, faults);
  }

  /** Whatever happens after the run row is created, the rows added to the
      insight table are a prefix of the collected insights, under the new run. */
  lemma RunStoresPrefix(db: Db, now: int, llm: Model, faults: Faults)
    requires faults.create.None?
    ensures var r := RunPatternAnalysis(db, now, llm, faults);
      var ins := CollectInsights(Snapshot(db.notes), now, llm);
      exists k :: 0 <= k <= |ins| && r.db.insights == db.insights + Stamp(|db.runs|, ins[..k])
  {
    var r := RunPatternAnalysis(db, now, llm, faults);
    var ins := CollectInsights(Snapshot(db.notes), now, llm);
    RunSucceeds(db, now, llm, faults);
    RunFails(db, now, llm, faults);
    if r.outcome.Ok? {
      assert ins[..|ins|] == ins;
    }
  }

  /** Adding the next run and rows of that run keeps the database consistent */
  lemma ConsistentExtend(db: Db, run: Run, added: seq<StoredInsight>)
    requires Consistent(db)
    requires run.id == |db.runs|
    requires forall j :: 0 <= j < |added| ==> added[j].runId == |db.runs|
    ensures Consistent(Db(db.notes, db.runs + [run], db.insights + added))
  {
  }

  /** The call keeps the database consistent */
  lemma RunConsistent(db: Db, now: int, llm: Model, faults: Faults)
    requires Consistent(db)
    ensures Consistent(RunPatternAnalysis(db, now, llm, faults).db)
  {
    if faults.create.None? {
      var r := RunPatternAnalysis(db, now, llm, faults);
      var id := |db.runs|;
      var ins := CollectInsights(Snapshot(db.notes), now, llm);
      RunSucceeds(db, now, llm, faults);
      RunFails(db, now, llm, faults);
      if r.outcome.Ok? {
        ConsistentExtend(db, CompletedRun(id, |db.notes|, |ins|, now), Stamp(id, ins));
      } else {
        var k :| 0 <= k <= |ins| && r.db.insights == db.insights + Stamp(id, ins[..k]);
        ConsistentExtend(db, FailedRun(id, r.outcome.message, now), Stamp(id, ins[..k]));
      }
    }
  }

  function OfRun(id: nat): StoredInsight -> bool {
    (s: StoredInsight) => s.runId == id
  }

  /** The insights stored under a run */
  function StoredFor(db: Db, id: nat): seq<StoredInsight> {
    Filter(db.insights, OfRun(id))
  }

  /** A completed run's themesFound is the number of insights stored under
      it, and those rows hold the returned insights, in order. */
  lemma ThemesFoundIsStored(db: Db, now: int, llm: Model, faults: Faults)
    requires Consistent(db)
    requires RunPatternAnalysis(db, now, llm, faults).outcome.Ok?
    ensures var r := RunPatternAnalysis(db, now, llm, faults);
      var res := r.outcome.value;
      && StoredFor(r.db, res.runId) == Stamp(res.runId, res.insights)
      && |StoredFor(r.db, res.runId)| == res.themesFound
  {
    RunSucceeds(db, now, llm, faults);
    StoredAfterAppend(db.insights, |db.runs|, CollectInsights(Snapshot(db.notes), now, llm));
  }

  /** Rows appended under a new run id are exactly that run's rows */
  lemma StoredAfterAppend(rows: seq<StoredInsight>, id: nat, ins: seq<Insight>)
    requires forall j :: 0 <= j < |rows| ==> rows[j].runId < id
    ensures Filter(rows + Stamp(id, ins), OfRun(id)) == Stamp(id, ins)
  {
    FilterAppend(rows, Stamp(id, ins), OfRun(id));
    FilterNone(rows, OfRun(id));
    FilterAll(Stamp(id, ins), OfRun(id));
  }
}
