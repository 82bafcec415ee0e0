/**
 * Workflow bookkeeping of `src/persistence/workflow-store.js` over
 * in-memory tables: runs and their steps, each table a sequence of rows in
 * insertion order. Ids, timestamps (a clock that never runs backwards) and
 * the JSON text codec are supplied by the caller.
 */
module WorkflowStore {
  import opened Base
  import opened Json

  datatype RunRow = RunRow(
    id: string,
    tenantId: string,
    workflow: string,
    adapter: string,
    projectId: Option<string>,
    partnerName: Option<string>,
    status: string,
    approvalMode: string,
    inputJson: string,
    goLiveRecommendation: Option<string>,
    blockingReasonsJson: Option<string>,
    outputJson: Option<string>,
    createdAt: nat,
    completedAt: Option<nat>)

  datatype StepRow = StepRow(
    id: string,
    tenantId: string,
    runId: string,
    stepName: string,
    attempt: nat,
    status: string,
    outputJson: Option<string>,
    error: Option<string>,
    startedAt: nat,
    completedAt: Option<nat>)

  datatype Store = Store(runs: seq<RunRow>, steps: seq<StepRow>)

  // ---------------------------------------------------------------------------
  // Runs
  // ---------------------------------------------------------------------------

  /** What `createWorkflowRun` is given. */
  datatype NewRun = NewRun(
    tenantId: string,
    workflow: string,
    adapter: string,
    projectId: Option<string>,
    partnerName: Option<string>,
    approvalMode: string,
    input: Raw)

  /** `createWorkflowRun`: appends a running run with no outcome yet; returns its id and creation time. */
  function CreateWorkflowRun(store: Store, run: NewRun, codec: JsonCodec, id: string, now: nat): (r: (Store, (string, nat)))
    ensures r.0.steps == store.steps
    ensures |r.0.runs| == |store.runs| + 1 && r.0.runs[..|store.runs|] == store.runs
    ensures var row := r.0.runs[|store.runs|];
      row.id == id && row.tenantId == run.tenantId && row.status == "running" &&
      row.inputJson == codec.stringify(run.input) && row.createdAt == now &&
      row.completedAt.None? && row.goLiveRecommendation.None? && row.outputJson.None?
    ensures r.1 == (id, now)
  {
    var row := RunRow(id, run.tenantId, run.workflow, run.adapter, run.projectId, run.partnerName, "running",
                      run.approvalMode, codec.stringify(run.input), None, None, None, now, None);
    (Store(store.runs + [row], store.steps), (id, now))
  }

  /** The outcome `completeWorkflowRun` records; absent parts are `RUndefined` or `None`. */
  datatype RunSummary = RunSummary(status: string, goLiveRecommendation: Option<string>, blockingReasons: Raw, output: Raw)

  function CompletedRun(row: RunRow, summary: RunSummary, codec: JsonCodec, now: nat): RunRow {
    row.(status := summary.status,
         goLiveRecommendation := summary.goLiveRecommendation,
         blockingReasonsJson := Some(codec.stringify(Coalesce(summary.blockingReasons, RArr([])))),
         outputJson := Some(codec.stringify(Coalesce(summary.output, RNull))),
         completedAt := Some(now))
  }

  /**
   * `completeWorkflowRun`: the run with that id gets its status, go-live
   * recommendation, blocking reasons (default `[]`), output (default
   * `null`) and completion time; every other row and field is unchanged.
   */
  function CompleteWorkflowRun(store: Store, runId: string, summary: RunSummary, codec: JsonCodec, now: nat): (r: (Store, nat))
    ensures r.0.steps == store.steps && |r.0.runs| == |store.runs| && r.1 == now
    ensures forall i :: 0 <= i < |store.runs| && store.runs[i].id != runId ==> r.0.runs[i] == store.runs[i]
    ensures forall i :: 0 <= i < |store.runs| && store.runs[i].id == runId ==>
      var row := r.0.runs[i];
      row.status == summary.status && row.goLiveRecommendation == summary.goLiveRecommendation &&
      row.completedAt == Some(now) &&
      row.outputJson == Some(codec.stringify(if Nullish(summary.output) then RNull else summary.output)) &&
      row.blockingReasonsJson ==
        Some(codec.stringify(if Nullish(summary.blockingReasons) then RArr([]) else summary.blockingReasons)) &&
      row.id == store.runs[i].id && row.tenantId == store.runs[i].tenantId &&
      row.inputJson == store.runs[i].inputJson && row.createdAt == store.runs[i].createdAt
  {
    var runs := seq(|store.runs|, i requires 0 <= i < |store.runs| =>
      if store.runs[i].id == runId then CompletedRun(store.runs[i], summary, codec, now) else store.runs[i]);
    (Store(runs, store.steps), now)
  }

  /** A completed run's blocking reasons read back as recorded, or `[]` when none were given. */
  lemma CompletedReasonsReadBack(store: Store, runId: string, summary: RunSummary, codec: JsonCodec, now: nat, i: nat)
    requires i < |store.runs| && store.runs[i].id == runId
    requires RoundTrips(codec, Coalesce(summary.blockingReasons, RArr([])))
    ensures var row := CompleteWorkflowRun(store, runId, summary, codec, now).0.runs[i];
      ParseJson(codec, row.blockingReasonsJson, RArr([])) ==
        (if Nullish(summary.blockingReasons) then RArr([]) else summary.blockingReasons)
  {
  }

  /** `updateWorkflowRunInput`: replaces the input of the run with that id, only within the tenant. */
  function UpdateWorkflowRunInput(store: Store, tenantId: string, runId: string, nextInput: Raw, codec: JsonCodec): (r: Store)
    ensures r.steps == store.steps && |r.runs| == |store.runs|
    ensures forall i :: 0 <= i < |store.runs| ==>
      if store.runs[i].id == runId && store.runs[i].tenantId == tenantId
      then r.runs[i] == store.runs[i].(inputJson := codec.stringify(nextInput))
      else r.runs[i] == store.runs[i]
  {
    var runs := seq(|store.runs|, i requires 0 <= i < |store.runs| =>
      if store.runs[i].id == runId && store.runs[i].tenantId == tenantId
      then store.runs[i].(inputJson := codec.stringify(nextInput)) else store.runs[i]);
    Store(runs, store.steps)
  }

  /** Another tenant cannot change a run's input, whatever id it names. */
  lemma ForeignTenantCannotUpdate(store: Store, tenantId: string, runId: string, nextInput: Raw, codec: JsonCodec)
    requires forall i :: 0 <= i < |store.runs| ==> store.runs[i].tenantId != tenantId
    ensures UpdateWorkflowRunInput(store, tenantId, runId, nextInput, codec) == store
  {
    var r := UpdateWorkflowRunInput(store, tenantId, runId, nextInput, codec);
    assert r.runs == store.runs;
  }

  // ---------------------------------------------------------------------------
  // Listing runs
  // ---------------------------------------------------------------------------

  /** The arguments of `listWorkflowRuns`; a `None` or empty filter is not applied. */
  datatype ListArgs = ListArgs(
    tenantId: Option<string>,
    limit: Option<int>,
    status: Option<string>,
    projectId: Option<string>,
    from: Option<nat>,
    to: Option<nat>)

  predicate Given(filter: Option<string>) {
    filter.Some? && filter.value != ""
  }

  /** The WHERE clause: the tenant, and each given filter. */
  predicate Selected(args: ListArgs, row: RunRow) {
    row.tenantId == args.tenantId.GetOr("default") &&
    (Given(args.status) ==> row.status == args.status.value) &&
    (Given(args.projectId) ==> row.projectId == Some(args.projectId.value)) &&
    (args.from.Some? ==> row.createdAt >= args.from.value) &&
    (args.to.Some? ==> row.createdAt <= args.to.value)
  }

  /** The row count a listing returns at most: the limit (default 50) clamped to 1..200. */
  function PageSize(args: ListArgs): (n: nat)
    ensures 1 <= n <= 200
    ensures args.limit.None? ==> n == 50
    ensures args.limit.Some? && 1 <= args.limit.value <= 200 ==> n == args.limit.value
    ensures args.limit.Some? && args.limit.value < 1 ==> n == 1
    ensures args.limit.Some? && args.limit.value > 200 ==> n == 200
  {
    Clamp(args.limit.GetOr(50), 1, 200)
  }

  /** One listed run; the blocking reasons are read back from their JSON text. */
  datatype RunListing = RunListing(
    id: string,
    workflow: string,
    adapter: string,
    projectId: Option<string>,
    partnerName: Option<string>,
    status: string,
    approvalMode: string,
    goLiveRecommendation: Option<string>,
    blockingReasons: Raw,
    createdAt: nat,
    completedAt: Option<nat>)

  function ToListing(codec: JsonCodec, row: RunRow): RunListing {
    RunListing(row.id, row.workflow, row.adapter, row.projectId, row.partnerName, row.status, row.approvalMode,
               row.goLiveRecommendation, ParseJson(codec, row.blockingReasonsJson, RArr([])), row.createdAt, row.completedAt)
  }

  /** The WHERE clause as a filter over rows. */
  function SelectedBy(args: ListArgs): RunRow -> bool {
    row => Selected(args, row)
  }

  predicate RunEarlier(a: RunRow, b: RunRow) { a.createdAt <= b.createdAt }
  predicate RunLater(a: RunRow, b: RunRow) { a.createdAt >= b.createdAt }

  /** Creation times never decrease along the runs table, as a clock that never runs backwards stamps it. */
  predicate Chronological(runs: seq<RunRow>) {
    OrderedBy(runs, RunEarlier)
  }

  /**
   * `ORDER BY created_at DESC`: the selected rows, newest inserted first.
   * SQLite leaves the order of rows with equal `created_at` unspecified;
   * this model fixes it as newest inserted first.
   */
  function NewestSelected(runs: seq<RunRow>, args: ListArgs): (r: seq<RunRow>)
    ensures forall row :: row in r <==> row in runs && Selected(args, row)
    ensures Chronological(runs) ==> OrderedBy(r, RunLater)
  {
    var kept := Filter(runs, SelectedBy(args));
    assert forall row :: row in runs && Selected(args, row) ==> row in kept by {
      forall row | row in runs && Selected(args, row) ensures row in kept {
        var i :| 0 <= i < |runs| && runs[i] == row;
      }
    }
    ReverseMembers(kept);
    assert Chronological(runs) ==> OrderedBy(kept, RunEarlier) by {
      if Chronological(runs) {
        FilterOrderedBy(runs, SelectedBy(args), RunEarlier);
      }
    }
    Reverse(kept)
  }

  /** Read back to front, the listing is the selected rows in table order and nothing else. */
  lemma NewestSelectedInOrder(runs: seq<RunRow>, args: ListArgs)
    ensures FilterMapped(runs, SelectedBy(args), Id, Reverse(NewestSelected(runs, args)))
  {
    ReverseTwice(Filter(runs, SelectedBy(args)));
    FilterInOrder(runs, SelectedBy(args));
  }

  function ListingOf(codec: JsonCodec): RunRow -> RunListing {
    row => ToListing(codec, row)
  }

  /** `listWorkflowRuns`: the selected runs, newest first, at most `PageSize(args)` of them. */
  function ListWorkflowRuns(store: Store, args: ListArgs, codec: JsonCodec): (r: seq<RunListing>)
    ensures var newest := NewestSelected(store.runs, args);
      |r| == (if |newest| < PageSize(args) then |newest| else PageSize(args)) &&
      forall i :: 0 <= i < |r| ==> r[i] == ToListing(codec, newest[i])
    ensures forall i :: 0 <= i < |r| ==>
      exists row :: row in store.runs && Selected(args, row) && r[i] == ToListing(codec, row)
    ensures Chronological(store.runs) ==> forall i, j :: 0 <= i < j < |r| ==> r[i].createdAt >= r[j].createdAt
  {
    var newest := NewestSelected(store.runs, args);
    var n := if |newest| < PageSize(args) then |newest| else PageSize(args);
    var r := MapSeq(newest[..n], ListingOf(codec));
    assert forall i :: 0 <= i < |r| ==> newest[i] in newest;
    r
  }

  /** No listing shows another tenant's run. */
  lemma ListingStaysInTenant(store: Store, args: ListArgs, codec: JsonCodec, i: nat)
    requires i < |ListWorkflowRuns(store, args, codec)|
    ensures exists row :: (row in store.runs && row.tenantId == args.tenantId.GetOr("default") &&
      ListWorkflowRuns(store, args, codec)[i] == ToListing(codec, row))
  {
  }

  // ---------------------------------------------------------------------------
  // Steps and attempts
  // ---------------------------------------------------------------------------

  /** Rows of one step of one run of one tenant share a key. */
  datatype StepKey = StepKey(tenantId: string, runId: string, stepName: string)

  function KeyOf(row: StepRow): StepKey {
    StepKey(row.tenantId, row.runId, row.stepName)
  }

  /** `MAX(attempt)` over the key's rows, 0 when there are none. */
  function MaxAttempt(steps: seq<StepRow>, key: StepKey): (m: nat)
    ensures forall i :: 0 <= i < |steps| && KeyOf(steps[i]) == key ==> steps[i].attempt <= m
    ensures m == 0 || exists i :: 0 <= i < |steps| && KeyOf(steps[i]) == key && steps[i].attempt == m
    decreases |steps|
  {
    if |steps| == 0 then 0
    else
      var init := steps[..|steps| - 1];
      var last := steps[|steps| - 1];
      var m := MaxAttempt(init, key);
      assert forall i :: 0 <= i < |init| ==> init[i] == steps[i];
      if KeyOf(last) == key && last.attempt > m then last.attempt else m
  }

  /** `getNextStepAttempt`: one past the highest attempt so far, so 1 for a new step. */
  function NextStepAttempt(steps: seq<StepRow>, key: StepKey): (n: nat)
    ensures n >= 1
    ensures forall i :: 0 <= i < |steps| && KeyOf(steps[i]) == key ==> steps[i].attempt < n
    ensures (forall i :: 0 <= i < |steps| ==> KeyOf(steps[i]) != key) ==> n == 1
  {
    MaxAttempt(steps, key) + 1
  }

  /** The step row `createWorkflowStep` inserts: running, not completed. */
  function NewStep(steps: seq<StepRow>, id: string, key: StepKey, now: nat): StepRow {
    StepRow(id, key.tenantId, key.runId, key.stepName, NextStepAttempt(steps, key), "running", None, None, now, None)
  }

  /** `createWorkflowStep`: appends the next attempt of the step; returns its id, start time and attempt. */
  function CreateWorkflowStep(store: Store, tenantId: string, runId: string, stepName: string,
                              id: string, now: nat): (r: (Store, (string, nat, nat)))
    ensures r.0.runs == store.runs
    ensures |r.0.steps| == |store.steps| + 1 && r.0.steps[..|store.steps|] == store.steps
    ensures var row := r.0.steps[|store.steps|];
      row.status == "running" && row.completedAt.None? && row.startedAt == now &&
      KeyOf(row) == StepKey(tenantId, runId, stepName) &&
      row.attempt == NextStepAttempt(store.steps, StepKey(tenantId, runId, stepName))
    ensures r.1 == (id, now, NextStepAttempt(store.steps, StepKey(tenantId, runId, stepName)))
  {
    var key := StepKey(tenantId, runId, stepName);
    var row := NewStep(store.steps, id, key, now);
    (Store(store.runs, store.steps + [row]), (id, now, row.attempt))
  }

  /** The number of rows with the key. */
  function CountKey(steps: seq<StepRow>, key: StepKey): nat
    decreases |steps|
  {
    if |steps| == 0 then 0
    else CountKey(steps[..|steps| - 1], key) + (if KeyOf(steps[|steps| - 1]) == key then 1 else 0)
  }

  /** Every row carries the attempt number `createWorkflowStep` gave it when it was inserted. */
  predicate Numbered(steps: seq<StepRow>)
    decreases |steps|
  {
    |steps| == 0 ||
    (Numbered(steps[..|steps| - 1]) &&
     steps[|steps| - 1].attempt == NextStepAttempt(steps[..|steps| - 1], KeyOf(steps[|steps| - 1])))
  }

  /** Creating a step keeps the numbering. */
  lemma CreateKeepsNumbered(store: Store, tenantId: string, runId: string, stepName: string, id: string, now: nat)
    requires Numbered(store.steps)
    ensures Numbered(CreateWorkflowStep(store, tenantId, runId, stepName, id, now).0.steps)
  {
    var s := CreateWorkflowStep(store, tenantId, runId, stepName, id, now).0.steps;
    assert s[..|s| - 1] == store.steps;
  }

  /** With steps created only through `createWorkflowStep`, a step's attempts are exactly 1..n. */
  lemma {:induction false} AttemptsContiguous(steps: seq<StepRow>, key: StepKey)
    requires Numbered(steps)
    ensures MaxAttempt(steps, key) == CountKey(steps, key)
    decreases |steps|
  {
    if |steps| > 0 {
      var init := steps[..|steps| - 1];
      AttemptsContiguous(init, key);
      var last := steps[|steps| - 1];
      if KeyOf(last) == key {
        assert last.attempt == MaxAttempt(init, key) + 1;
      } else {
        assert MaxAttempt(steps, key) == MaxAttempt(init, key);
      }
    }
  }

  /** The next attempt of a step is one more than the number of its rows. */
  lemma NextAttemptCountsRows(steps: seq<StepRow>, key: StepKey)
    requires Numbered(steps)
    ensures NextStepAttempt(steps, key) == CountKey(steps, key) + 1
  {
    AttemptsContiguous(steps, key);
  }

  /** Under the numbering, a later row of the same step has a higher attempt. */
  predicate AttemptOrder(a: StepRow, b: StepRow) {
    KeyOf(a) == KeyOf(b) ==> a.attempt < b.attempt
  }

  lemma {:induction false} NumberedOrdersAttempts(steps: seq<StepRow>)
    requires Numbered(steps)
    ensures OrderedBy(steps, AttemptOrder)
    decreases |steps|
  {
    if |steps| > 0 {
      var init := steps[..|steps| - 1];
      NumberedOrdersAttempts(init);
      var n := |steps| - 1;
      forall i, j | 0 <= i < j < |steps| ensures AttemptOrder(steps[i], steps[j]) {
        assert steps[i] == init[i];
        if j < n {
          assert steps[j] == init[j];
        }
      }
    }
  }

  /** The row `completeWorkflowStep` leaves: only status, output (default `null`), error and completion time change. */
  function CompletedStep(row: StepRow, status: string, output: Raw, error: Option<string>, codec: JsonCodec, now: nat): StepRow {
    row.(status := status, outputJson := Some(codec.stringify(if output.RUndefined? then RNull else output)),
         error := error, completedAt := Some(now))
  }

  /** `completeWorkflowStep`. */
  function CompleteWorkflowStep(store: Store, stepId: string, status: string, output: Raw, error: Option<string>,
                                codec: JsonCodec, now: nat): (r: Store)
    ensures r.runs == store.runs && |r.steps| == |store.steps|
    ensures forall i :: 0 <= i < |store.steps| && store.steps[i].id != stepId ==> r.steps[i] == store.steps[i]
    ensures forall i :: 0 <= i < |store.steps| && store.steps[i].id == stepId ==>
      r.steps[i].status == status && r.steps[i].error == error && r.steps[i].completedAt == Some(now) &&
      r.steps[i].outputJson == Some(codec.stringify(if output.RUndefined? then RNull else output)) &&
      r.steps[i].id == store.steps[i].id && KeyOf(r.steps[i]) == KeyOf(store.steps[i]) &&
      r.steps[i].attempt == store.steps[i].attempt && r.steps[i].startedAt == store.steps[i].startedAt
  {
    var steps := seq(|store.steps|, i requires 0 <= i < |store.steps| =>
      if store.steps[i].id == stepId then CompletedStep(store.steps[i], status, output, error, codec, now)
      else store.steps[i]);
    Store(store.runs, steps)
  }

  /** Completing a step leaves the attempt numbering intact. */
  lemma {:induction false} CompleteKeepsNumbered(steps: seq<StepRow>, done: seq<StepRow>)
    requires Numbered(steps)
    requires |done| == |steps|
    requires forall i :: 0 <= i < |steps| ==> KeyOf(done[i]) == KeyOf(steps[i]) && done[i].attempt == steps[i].attempt
    ensures Numbered(done)
    decreases |steps|
  {
    if |steps| > 0 {
      var n := |steps| - 1;
      CompleteKeepsNumbered(steps[..n], done[..n]);
      SameAttemptsSameMax(steps[..n], done[..n], KeyOf(steps[n]));
    }
  }

  lemma {:induction false} SameAttemptsSameMax(a: seq<StepRow>, b: seq<StepRow>, key: StepKey)
    requires |a| == |b|
    requires forall i :: 0 <= i < |a| ==> KeyOf(b[i]) == KeyOf(a[i]) && b[i].attempt == a[i].attempt
    ensures MaxAttempt(a, key) == MaxAttempt(b, key)
    decreases |a|
  {
    if |a| > 0 {
      SameAttemptsSameMax(a[..|a| - 1], b[..|b| - 1], key);
    }
  }

  /** Step rows in the store's order. */
  predicate OfRun(tenantId: string, runId: string, row: StepRow) {
    row.tenantId == tenantId && row.runId == runId
  }

  /** The index of the last row with the step name, if any. */
  function LastWithName(rows: seq<StepRow>, name: string): (k: Option<nat>)
    ensures k.Some? ==> (k.value < |rows| && rows[k.value].stepName == name &&
      forall j :: k.value < j < |rows| ==> rows[j].stepName != name)
    ensures k.None? ==> forall j :: 0 <= j < |rows| ==> rows[j].stepName != name
    decreases |rows|
  {
    if |rows| == 0 then None
    else if rows[|rows| - 1].stepName == name then Some(|rows| - 1)
    else LastWithName(rows[..|rows| - 1], name)
  }

  /** For each step name, in insertion order, the later row replaces the earlier. */
  function LatestByName(rows: seq<StepRow>): map<string, StepRow>
    decreases |rows|
  {
    if |rows| == 0 then map[]
    else LatestByName(rows[..|rows| - 1])[rows[|rows| - 1].stepName := rows[|rows| - 1]]
  }

  /** Folding the rows keeps, for every name, exactly the last row carrying it. */
  lemma {:induction false} LatestByNameIsLast(rows: seq<StepRow>, name: string)
    ensures name in LatestByName(rows) <==> LastWithName(rows, name).Some?
    ensures name in LatestByName(rows) ==> LatestByName(rows)[name] == rows[LastWithName(rows, name).value]
    decreases |rows|
  {
    if |rows| > 0 {
      LatestByNameIsLast(rows[..|rows| - 1], name);
    }
  }

  /** The run's step rows in insertion order. */
  function RunSteps(store: Store, tenantId: string, runId: string): seq<StepRow> {
    Filter(store.steps, row => OfRun(tenantId, runId, row))
  }

  /**
   * `getLatestStepStates`: each step name of the run mapped to its last row.
   * Rows are read in insertion order, which is the source's (startedAt,
   * attempt) order when the clock never runs backwards.
   */
  function LatestStepStates(store: Store, tenantId: string, runId: string): (m: map<string, StepRow>)
    ensures forall name :: name in m ==>
      (m[name] in store.steps && m[name].stepName == name && OfRun(tenantId, runId, m[name]))
    ensures forall row :: row in store.steps && OfRun(tenantId, runId, row) ==> row.stepName in m
  {
    var rows := RunSteps(store, tenantId, runId);
    var m := LatestByName(rows);
    forall name | name in m
      ensures m[name] in store.steps && m[name].stepName == name && OfRun(tenantId, runId, m[name])
    {
      LatestByNameIsLast(rows, name);
      assert m[name] in rows;
    }
    forall row | row in store.steps && OfRun(tenantId, runId, row) ensures row.stepName in m {
      var i :| 0 <= i < |store.steps| && store.steps[i] == row;
      assert row in rows;
      LatestByNameIsLast(rows, row.stepName);
    }
    m
  }

  /** With numbered steps, the latest row of a step is its highest attempt. */
  lemma LatestIsHighestAttempt(store: Store, tenantId: string, runId: string, name: string)
    requires Numbered(store.steps)
    requires name in LatestStepStates(store, tenantId, runId)
    ensures forall row :: row in store.steps && OfRun(tenantId, runId, row) && row.stepName == name ==>
      row.attempt <= LatestStepStates(store, tenantId, runId)[name].attempt
  {
    var p := (row: StepRow) => OfRun(tenantId, runId, row);
    var rows := RunSteps(store, tenantId, runId);
    LatestByNameIsLast(rows, name);
    var i := LastWithName(rows, name).value;
    NumberedOrdersAttempts(store.steps);
    FilterOrderedBy(store.steps, p, AttemptOrder);
    forall row | row in store.steps && OfRun(tenantId, runId, row) && row.stepName == name
      ensures row.attempt <= rows[i].attempt
    {
      var k :| 0 <= k < |store.steps| && store.steps[k] == row;
      assert row in rows;
      var j :| 0 <= j < |rows| && rows[j] == row;
      assert j <= i;
      assert AttemptOrder(rows[j], rows[i]) || j == i;
    }
  }
}
