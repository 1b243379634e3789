/**
 * The generation orchestrator and the record store (src/utils/contentService.js).
 *
 * The hosted table `content_generations` is a class holding a map from record id
 * to row; whether a backend call fails is a parameter (`fault`). The inference
 * call is the daemon client of `OllamaService`. The two clock readings of
 * `generateContent` are parameters (`start`, `finish`), and what the orchestrator
 * does is returned as the ordered list of the calls it issues (`Step`), which
 * includes the progress it forwards to the caller's callback.
 */
module ContentService {
  import opened Wrappers
  import O = OllamaService
  import S = SupabaseClient

  // ---------------------------------------------------------------- the record

  datatype Status = Pending | Generating | Completed | Failed

  /** One row of `content_generations`, with the columns the service writes. */
  datatype Row = Row(
    id: nat,
    userId: string,
    modelName: string,
    contentType: string,
    prompt: Option<string>,
    status: Status,
    promptLength: nat,
    metadata: map<string, int>,
    generatedContent: Option<string>,
    generationTimeMs: Option<int>,
    contentLength: Option<nat>,
    errorMessage: Option<string>)

  /** The fields `createContentGeneration` is given. */
  datatype NewGeneration = NewGeneration(model: string, contentType: string, prompt: Option<string>, metadata: Option<map<string, int>>)

  /** The columns an update sets; `None` leaves a column as it is. */
  datatype Patch = Patch(
    status: Option<Status>,
    generatedContent: Option<string>,
    generationTimeMs: Option<int>,
    contentLength: Option<nat>,
    errorMessage: Option<string>)

  /** The row `createContentGeneration` inserts under `id`. */
  function NewRow(id: nat, userId: string, data: NewGeneration): Row {
    Row(id, userId, data.model, data.contentType, data.prompt, Pending,
        if data.prompt.Some? then |data.prompt.value| else 0,
        data.metadata.GetOr(map[]), None, None, None, None)
  }

  /**
   * A new row is `pending`, records the prompt's length (0 without a prompt) and
   * the metadata or `{}`, and has no result columns yet.
   */
  lemma NewRowIsPending(id: nat, userId: string, data: NewGeneration)
    ensures var r := NewRow(id, userId, data);
            && r.id == id && r.userId == userId && r.modelName == data.model
            && r.contentType == data.contentType && r.prompt == data.prompt
            && r.status == Pending
            && r.promptLength == (if data.prompt.Some? then |data.prompt.value| else 0)
            && r.metadata == (if data.metadata.Some? then data.metadata.value else map[])
            && r.generatedContent.None? && r.generationTimeMs.None? && r.contentLength.None? && r.errorMessage.None?
  {
  }

  /** The row after an update: the patched columns take the new values, the others stay. */
  function Apply(row: Row, p: Patch): Row {
    row.(
      status := p.status.GetOr(row.status),
      generatedContent := if p.generatedContent.Some? then p.generatedContent else row.generatedContent,
      generationTimeMs := if p.generationTimeMs.Some? then p.generationTimeMs else row.generationTimeMs,
      contentLength := if p.contentLength.Some? then p.contentLength else row.contentLength,
      errorMessage := if p.errorMessage.Some? then p.errorMessage else row.errorMessage)
  }

  /**
   * An update never touches the identifying columns, the prompt or the metadata;
   * each result column takes the patch's value when the patch has one and keeps
   * its value otherwise.
   */
  lemma ApplyFrame(row: Row, p: Patch)
    ensures var r := Apply(row, p);
            && r.id == row.id && r.userId == row.userId && r.modelName == row.modelName
            && r.contentType == row.contentType && r.prompt == row.prompt
            && r.promptLength == row.promptLength && r.metadata == row.metadata
            && (p.status.Some? ==> r.status == p.status.value) && (p.status.None? ==> r.status == row.status)
            && (p.generatedContent.None? ==> r.generatedContent == row.generatedContent)
            && (p.generationTimeMs.None? ==> r.generationTimeMs == row.generationTimeMs)
            && (p.contentLength.None? ==> r.contentLength == row.contentLength)
            && (p.errorMessage.None? ==> r.errorMessage == row.errorMessage)
  {
  }

  /** Repeating an update changes nothing further. */
  lemma ApplyIdempotent(row: Row, p: Patch)
    ensures Apply(Apply(row, p), p) == Apply(row, p)
  {
  }

  const GeneratingPatch := Patch(Some(Generating), None, None, None, None)

  /** The update that records a result: content, elapsed time and content length. */
  function CompletedPatch(content: string, elapsed: int): Patch {
    Patch(Some(Completed), Some(content), Some(elapsed), Some(|content|), None)
  }

  /** The update that records a failure: the error text and the elapsed time. */
  function FailedPatch(error: string, elapsed: int): Patch {
    Patch(Some(Failed), None, Some(elapsed), None, Some(error))
  }

  /** The error the backend returns when an update selects no row; its text is not modelled. */
  const NoRowError := S.SupabaseError(None)

  // ---------------------------------------------------------------- the store

  /** The table `content_generations`. */
  class GenerationStore {
    var rows: map<nat, Row>
    var nextId: nat

    /** Every row is filed under its own id, and ids are handed out above every used one. */
    ghost predicate Valid()
      reads this
    {
      forall id | id in rows :: id < nextId && rows[id].id == id
    }

    constructor ()
      ensures Valid() && rows == map[] && nextId == 0
    {
      rows := map[];
      nextId := 0;
    }

    /**
     * `createContentGeneration`: a failing insert changes nothing and returns the
     * mapped error; otherwise the new row is filed under a fresh id and returned.
     */
    method CreateContentGeneration(userId: string, data: NewGeneration, fault: Option<S.SupabaseError>) returns (r: Result<Row>)
      requires Valid()
      modifies this
      ensures Valid()
      ensures fault.Some? ==> r == Err(S.HandleSupabaseError(fault, Some("create generation")))
                              && rows == old(rows) && nextId == old(nextId)
      ensures fault.None? ==> old(nextId) !in old(rows)
                              && r == Ok(NewRow(old(nextId), userId, data))
                              && rows == old(rows)[old(nextId) := r.value]
                              && nextId == old(nextId) + 1
    {
      if fault.Some? {
        return Err(S.HandleSupabaseError(fault, Some("create generation")));
      }
      var row := NewRow(nextId, userId, data);
      rows := rows[nextId := row];
      nextId := nextId + 1;
      return Ok(row);
    }

    /**
     * `updateContentGeneration`: the row with that id is patched and returned; a
     * failing call, or an id with no row, changes nothing and returns an error.
     */
    method UpdateContentGeneration(id: nat, patch: Patch, fault: Option<S.SupabaseError>) returns (r: Result<Row>)
      requires Valid()
      modifies this
      ensures Valid() && nextId == old(nextId)
      ensures rows == ApplyUpdate(old(rows), id, patch, fault)
      ensures fault.None? && id in old(rows) ==> r == Ok(rows[id])
      ensures fault.Some? ==> r == Err(S.HandleSupabaseError(fault, Some("update generation")))
      ensures fault.None? && id !in old(rows) ==> r == Err(S.HandleSupabaseError(Some(NoRowError), Some("update generation")))
    {
      if fault.Some? {
        return Err(S.HandleSupabaseError(fault, Some("update generation")));
      }
      if id !in rows {
        return Err(S.HandleSupabaseError(Some(NoRowError), Some("update generation")));
      }
      var row := Apply(rows[id], patch);
      rows := rows[id := row];
      return Ok(row);
    }
  }

  /** The table after one update call. */
  function ApplyUpdate(rows: map<nat, Row>, id: nat, patch: Patch, fault: Option<S.SupabaseError>): map<nat, Row> {
    if fault.None? && id in rows then rows[id := Apply(rows[id], patch)] else rows
  }

  /**
   * An update call keeps the set of rows, patches the selected row when the
   * call succeeds, and leaves every other row (and, on failure, every row) alone.
   */
  lemma ApplyUpdateFrame(rows: map<nat, Row>, id: nat, patch: Patch, fault: Option<S.SupabaseError>)
    ensures var r := ApplyUpdate(rows, id, patch, fault);
            && r.Keys == rows.Keys
            && (fault.None? && id in rows ==> r[id] == Apply(rows[id], patch))
            && (forall k | k in rows && (k != id || fault.Some?) :: r[k] == rows[k])
  {
  }

  // ---------------------------------------------------------------- generateContent

  /** The options of `contentService.generateContent`; `None` is an omitted option. */
  datatype GenerateRequest = GenerateRequest(prompt: Option<string>, model: Option<string>, contentType: Option<string>, saveToDatabase: Option<bool>)

  /** Whether each backend call of the run fails: the insert, and every update. */
  datatype StoreFaults = StoreFaults(create: Option<S.SupabaseError>, update: Option<S.SupabaseError>)

  /** A call the orchestrator issues, in order. */
  datatype Step =
    | InsertCall(userId: string, data: NewGeneration)
    | UpdateCall(id: nat, patch: Patch)
    | Infer(opts: O.GenOptions)
    | Forward(progress: O.Progress)

  /** What `generateContent` resolves to. */
  datatype Outcome =
    | Produced(content: string, model: string, generationRecord: Option<Row>, fallbackUsed: bool)
    | CreateFailed(error: string)
    | GenerationFailed(error: string, modelsAttempted: seq<string>)

  /** The orchestrator's result, the calls it issued and the table afterwards. */
  datatype Run = Run(outcome: Outcome, steps: seq<Step>, rows: map<nat, Row>)

  function ModelOf(req: GenerateRequest): string {
    req.model.GetOr("llama2")
  }

  function SaveOf(req: GenerateRequest): bool {
    req.saveToDatabase.GetOr(true)
  }

  /** The data the record is created from; the metadata holds the start time. */
  function DataOf(req: GenerateRequest, start: int): NewGeneration {
    NewGeneration(ModelOf(req), req.contentType.GetOr("general"), req.prompt, Some(map["startTime" := start]))
  }

  /** The options handed to the fallback call: the model, and always a (wrapping) callback. */
  function OptionsOf(req: GenerateRequest): O.GenOptions {
    O.GenOptions(Some(ModelOf(req)), None, true, None)
  }

  /**
   * The wrapped callback for one progress report: forward it to the caller's
   * callback unchanged and, when saving and the report is `done`, issue the
   * `completed` update with the accumulated text.
   */
  function OnProgress(record: Option<nat>, e: O.Progress, elapsed: int): seq<Step> {
    if record.Some? && e.done then [Forward(e), UpdateCall(record.value, CompletedPatch(e.accumulated, elapsed))]
    else [Forward(e)]
  }

  /** The wrapped callback over all reports, in order. */
  function CallbackSteps(record: Option<nat>, events: seq<O.Progress>, elapsed: int): seq<Step>
    decreases |events|
  {
    if |events| == 0 then []
    else CallbackSteps(record, events[..|events| - 1], elapsed) + OnProgress(record, events[|events| - 1], elapsed)
  }

  /** The table after the update calls among `steps`, each failing with `fault`. */
  function ApplyUpdates(rows: map<nat, Row>, steps: seq<Step>, fault: Option<S.SupabaseError>): map<nat, Row>
    decreases |steps|
  {
    if |steps| == 0 then rows
    else
      var before := ApplyUpdates(rows, steps[..|steps| - 1], fault);
      var last := steps[|steps| - 1];
      if last.UpdateCall? then ApplyUpdate(before, last.id, last.patch, fault) else before
  }

  /** The calls made before the fallback call when saving. */
  function SavedHead(userId: string, data: NewGeneration, id: nat, opts: O.GenOptions): seq<Step> {
    [InsertCall(userId, data), UpdateCall(id, GeneratingPatch), Infer(opts)]
  }

  /**
   * `generateContent`, as a function of the table before the call. With saving,
   * a failed insert returns its error at once; otherwise the record is set to
   * `generating`, the fallback call runs with the wrapped callback (it returns
   * `fallback`: its result and its progress reports), and the run is finished by
   * `Finish`; `streaming` is the client's streaming setting.
   */
  function Lifecycle(rows: map<nat, Row>, nextId: nat, fallback: (O.Fallback, seq<O.Progress>), streaming: bool,
                     userId: string, req: GenerateRequest, start: int, finish: int, faults: StoreFaults): Run
  {
    var save := SaveOf(req);
    var data := DataOf(req, start);
    var opts := OptionsOf(req);
    var elapsed := finish - start;
    if save && faults.create.Some? then
      Run(CreateFailed(S.HandleSupabaseError(faults.create, Some("create generation"))), [InsertCall(userId, data)], rows)
    else
      var record: Option<nat> := if save then Some(nextId) else None;
      var created: Option<Row> := if save then Some(NewRow(nextId, userId, data)) else None;
      var rows1 := if save then rows[nextId := created.value] else rows;
      var head := if save then SavedHead(userId, data, nextId, opts) else [Infer(opts)];
      var during := head + CallbackSteps(record, fallback.1, elapsed);
      Finish(rows1, record, created, streaming, fallback.0, during, elapsed, faults.update)
  }

  /**
   * The end of `generateContent` once the fallback call has returned `fb`: a
   * failure marks the record `failed` and is returned as it is; a success is
   * recorded as `completed` when streaming is off, and returned with the model
   * used, the record and whether a fallback model was used.
   */
  function Finish(rows1: map<nat, Row>, record: Option<nat>, created: Option<Row>, streaming: bool,
                  fb: O.Fallback, during: seq<Step>, elapsed: int, fault: Option<S.SupabaseError>): Run
  {
    match fb
    case AllFailed(error, attempted) =>
      var steps := during + (if record.Some? then [UpdateCall(record.value, FailedPatch(error, elapsed))] else []);
      Run(GenerationFailed(error, attempted), steps, ApplyUpdates(rows1, steps, fault))
    case Used(gen, used, fallbackUsed) =>
      if record.Some? && !streaming then
        var steps := during + [UpdateCall(record.value, CompletedPatch(gen.content, elapsed))];
        var rows2 := ApplyUpdates(rows1, steps, fault);
        Run(Produced(gen.content, used, if fault.None? && record.value in rows2 then Some(rows2[record.value]) else None, fallbackUsed),
            steps, rows2)
      else
        Run(Produced(gen.content, used, created, fallbackUsed), during, ApplyUpdates(rows1, during, fault))
  }

  lemma ApplyUpdatesNext(rows: map<nat, Row>, steps: seq<Step>, s: Step, fault: Option<S.SupabaseError>)
    ensures ApplyUpdates(rows, steps + [s], fault)
            == if s.UpdateCall? then ApplyUpdate(ApplyUpdates(rows, steps, fault), s.id, s.patch, fault)
               else ApplyUpdates(rows, steps, fault)
  {
    assert (steps + [s])[..|steps|] == steps;
  }

  lemma CallbackStepsNext(record: Option<nat>, events: seq<O.Progress>, i: nat, elapsed: int)
    requires i < |events|
    ensures CallbackSteps(record, events[..i + 1], elapsed) == CallbackSteps(record, events[..i], elapsed) + OnProgress(record, events[i], elapsed)
  {
    assert events[..i + 1][..i] == events[..i];
  }

  /**
   * The wrapped callback applied to each progress report in order: forward it,
   * and issue the `completed` update for a `done` report when there is a record.
   */
  method ReplayCallback(store: GenerationStore, record: Option<nat>, events: seq<O.Progress>, elapsed: int,
                        fault: Option<S.SupabaseError>, head: seq<Step>, ghost rows1: map<nat, Row>)
    returns (steps: seq<Step>)
    requires store.Valid() && store.rows == ApplyUpdates(rows1, head, fault)
    modifies store
    ensures store.Valid() && store.nextId == old(store.nextId)
    ensures steps == head + CallbackSteps(record, events, elapsed)
    ensures store.rows == ApplyUpdates(rows1, steps, fault)
  {
    ghost var start := ApplyUpdates(rows1, head, fault);
    var made: seq<Step> := [];
    var i := 0;
    assert events[..0] == [];
    while i < |events|
      invariant 0 <= i <= |events|
      invariant store.Valid() && store.nextId == old(store.nextId)
      invariant made == CallbackSteps(record, events[..i], elapsed)
      invariant store.rows == ApplyUpdates(start, made, fault)
    {
      CallbackStepsNext(record, events, i, elapsed);
      made := ReplayOne(store, record, events[i], elapsed, fault, made, start);
      i := i + 1;
    }
    assert events[..i] == events;
    steps := head + made;
    ApplyUpdatesAppend(rows1, head, made, fault);
  }

  /** The wrapped callback for one report, issuing the `completed` update when it is due. */
  method ReplayOne(store: GenerationStore, record: Option<nat>, e: O.Progress, elapsed: int,
                   fault: Option<S.SupabaseError>, before: seq<Step>, ghost rows1: map<nat, Row>)
    returns (steps: seq<Step>)
    requires store.Valid() && store.rows == ApplyUpdates(rows1, before, fault)
    modifies store
    ensures store.Valid() && store.nextId == old(store.nextId)
    ensures steps == before + OnProgress(record, e, elapsed)
    ensures store.rows == ApplyUpdates(rows1, steps, fault)
  {
    ApplyUpdatesNext(rows1, before, Forward(e), fault);
    steps := before + [Forward(e)];
    if record.Some? && e.done {
      var update := UpdateCall(record.value, CompletedPatch(e.accumulated, elapsed));
      var _ := store.UpdateContentGeneration(record.value, update.patch, fault);
      ApplyUpdatesNext(rows1, steps, update, fault);
      steps := steps + [update];
    }
  }

  /** The end of `generateContent`: the final update, if any, and the result. */
  method FinishRun(store: GenerationStore, record: Option<nat>, created: Option<Row>, streaming: bool,
                   fb: O.Fallback, during: seq<Step>, elapsed: int, fault: Option<S.SupabaseError>, ghost rows1: map<nat, Row>)
    returns (r: Outcome, steps: seq<Step>)
    requires store.Valid() && store.rows == ApplyUpdates(rows1, during, fault)
    requires record.Some? ==> record.value in rows1
    modifies store
    ensures store.Valid()
    ensures var run := Finish(rows1, record, created, streaming, fb, during, elapsed, fault);
            r == run.outcome && steps == run.steps && store.rows == run.rows
  {
    steps := during;
    if fb.AllFailed? {
      if record.Some? {
        var failed := UpdateCall(record.value, FailedPatch(fb.error, elapsed));
        var _ := store.UpdateContentGeneration(record.value, failed.patch, fault);
        ApplyUpdatesNext(rows1, steps, failed, fault);
        steps := steps + [failed];
      } else {
        assert steps + [] == steps;
      }
      return GenerationFailed(fb.error, fb.modelsAttempted), steps;
    }
    if record.Some? && !streaming {
      var completed := UpdateCall(record.value, CompletedPatch(fb.gen.content, elapsed));
      ApplyUpdatesKeys(rows1, during, fault);
      var updated := store.UpdateContentGeneration(record.value, completed.patch, fault);
      ApplyUpdatesNext(rows1, steps, completed, fault);
      steps := steps + [completed];
      return Produced(fb.gen.content, fb.modelUsed, updated.ToOption(), fb.fallbackUsed), steps;
    }
    return Produced(fb.gen.content, fb.modelUsed, created, fb.fallbackUsed), steps;
  }

  /** Updates never add or remove rows. */
  lemma {:induction false} ApplyUpdatesKeys(rows: map<nat, Row>, steps: seq<Step>, fault: Option<S.SupabaseError>)
    ensures ApplyUpdates(rows, steps, fault).Keys == rows.Keys
    decreases |steps|
  {
    if |steps| > 0 {
      ApplyUpdatesKeys(rows, steps[..|steps| - 1], fault);
    }
  }

  /** The start of `generateContent` when saving: insert the record, then mark it `generating`. */
  method StartRecord(store: GenerationStore, userId: string, data: NewGeneration, faults: StoreFaults)
    returns (inserted: Result<Row>, steps: seq<Step>)
    requires store.Valid()
    modifies store
    ensures store.Valid()
    ensures faults.create.Some? ==>
              && inserted == Err(S.HandleSupabaseError(faults.create, Some("create generation")))
              && steps == [InsertCall(userId, data)] && store.rows == old(store.rows)
    ensures faults.create.None? ==>
              && inserted == Ok(NewRow(old(store.nextId), userId, data))
              && store.nextId == old(store.nextId) + 1
              && steps == [InsertCall(userId, data), UpdateCall(old(store.nextId), GeneratingPatch)]
              && store.rows == ApplyUpdates(old(store.rows)[old(store.nextId) := inserted.value], steps, faults.update)
  {
    ghost var rows0 := store.rows;
    ghost var id0 := store.nextId;
    inserted := store.CreateContentGeneration(userId, data, faults.create);
    steps := [InsertCall(userId, data)];
    if inserted.Ok? {
      var _ := store.UpdateContentGeneration(inserted.value.id, GeneratingPatch, faults.update);
      ApplyUpdatesNext(rows0[id0 := inserted.value], [], InsertCall(userId, data), faults.update);
      ApplyUpdatesNext(rows0[id0 := inserted.value], [InsertCall(userId, data)], UpdateCall(id0, GeneratingPatch), faults.update);
      assert [] + [InsertCall(userId, data)] == [InsertCall(userId, data)];
      steps := steps + [UpdateCall(inserted.value.id, GeneratingPatch)];
    }
  }

  /** `generateContent`: the calls in order, with the wrapped callback replayed per report. */
  method GenerateContent(store: GenerationStore, client: O.Client, userId: string, req: GenerateRequest,
                         start: int, finish: int, faults: StoreFaults)
    returns (r: Outcome, steps: seq<Step>)
    requires store.Valid()
    modifies store
    ensures store.Valid()
    ensures var run := Lifecycle(old(store.rows), old(store.nextId), O.FallbackOutcome(client, req.prompt, OptionsOf(req)),
                                 client.cfg.enableStreaming, userId, req, start, finish, faults);
            r == run.outcome && steps == run.steps && store.rows == run.rows
  {
    ghost var rows0 := store.rows;
    ghost var id0 := store.nextId;
    var record, created, failure;
    record, created, steps, failure := BeginRun(store, userId, req, start, faults);
    if failure.Some? {
      return failure.value, steps;
    }
    var fb, events := O.GenerateWithFallback(client, req.prompt, OptionsOf(req));
    r, steps := EndRun(store, record, created, client.cfg.enableStreaming, fb, events, steps, userId, req, start, finish, faults, rows0, id0);
  }

  /**
   * The start of `generateContent`: with saving, insert the record and mark it
   * `generating` (a failed insert ends the run); then issue the fallback call.
   */
  method BeginRun(store: GenerationStore, userId: string, req: GenerateRequest, start: int, faults: StoreFaults)
    returns (record: Option<nat>, created: Option<Row>, steps: seq<Step>, failure: Option<Outcome>)
    requires store.Valid()
    modifies store
    ensures store.Valid()
    ensures SaveOf(req) && faults.create.Some? ==>
              && failure == Some(CreateFailed(S.HandleSupabaseError(faults.create, Some("create generation"))))
              && steps == [InsertCall(userId, DataOf(req, start))] && store.rows == old(store.rows)
    ensures SaveOf(req) && faults.create.None? ==>
              && failure.None? && record == Some(old(store.nextId))
              && created == Some(NewRow(old(store.nextId), userId, DataOf(req, start)))
              && steps == SavedHead(userId, DataOf(req, start), old(store.nextId), OptionsOf(req))
              && store.rows == ApplyUpdates(old(store.rows)[old(store.nextId) := created.value], steps, faults.update)
    ensures !SaveOf(req) ==>
              && failure.None? && record.None? && created.None? && steps == [Infer(OptionsOf(req))]
              && store.rows == old(store.rows) == ApplyUpdates(old(store.rows), steps, faults.update)
  {
    var data := DataOf(req, start);
    var opts := OptionsOf(req);
    ghost var rows0 := store.rows;
    ghost var id0 := store.nextId;
    record, created, steps, failure := None, None, [], None;
    if SaveOf(req) {
      var inserted;
      inserted, steps := StartRecord(store, userId, data, faults);
      if inserted.Err? {
        failure := Some(CreateFailed(inserted.error));
        return;
      }
      created := Some(inserted.value);
      record := Some(inserted.value.id);
    }
    ghost var rows1 := if SaveOf(req) then rows0[id0 := NewRow(id0, userId, data)] else rows0;
    ApplyUpdatesNext(rows1, steps, Infer(opts), faults.update);
    steps := steps + [Infer(opts)];
  }

  /** The rest of `generateContent` once the fallback call has returned `fb` after reporting `events`. */
  method EndRun(store: GenerationStore, record: Option<nat>, created: Option<Row>, streaming: bool,
                fb: O.Fallback, events: seq<O.Progress>, head: seq<Step>,
                userId: string, req: GenerateRequest, start: int, finish: int, faults: StoreFaults,
                ghost rows0: map<nat, Row>, ghost id0: nat)
    returns (r: Outcome, steps: seq<Step>)
    requires store.Valid()
    requires !(SaveOf(req) && faults.create.Some?)
    requires SaveOf(req) ==>
               && record == Some(id0)
               && created == Some(NewRow(id0, userId, DataOf(req, start)))
               && head == SavedHead(userId, DataOf(req, start), id0, OptionsOf(req))
               && store.rows == ApplyUpdates(rows0[id0 := created.value], head, faults.update)
    requires !SaveOf(req) ==>
               && record.None? && created.None? && head == [Infer(OptionsOf(req))]
               && store.rows == ApplyUpdates(rows0, head, faults.update)
    modifies store
    ensures store.Valid()
    ensures var run := Lifecycle(rows0, id0, (fb, events), streaming, userId, req, start, finish, faults);
            r == run.outcome && steps == run.steps && store.rows == run.rows
  {
    ghost var rows1 := if SaveOf(req) then rows0[id0 := created.value] else rows0;
    var elapsed := finish - start;
    steps := ReplayCallback(store, record, events, elapsed, faults.update, head, rows1);
    r, steps := FinishRun(store, record, created, streaming, fb, steps, elapsed, faults.update, rows1);
    if SaveOf(req) {
      LifecycleSaved(rows0, id0, (fb, events), streaming, userId, req, start, finish, faults);
    } else {
      LifecycleUnsaved(rows0, id0, (fb, events), streaming, userId, req, start, finish, faults);
    }
  }

  // ---------------------------------------------------------------- what the lifecycle promises

  lemma {:induction false} ApplyUpdatesAppend(rows: map<nat, Row>, a: seq<Step>, b: seq<Step>, fault: Option<S.SupabaseError>)
    ensures ApplyUpdates(rows, a + b, fault) == ApplyUpdates(ApplyUpdates(rows, a, fault), b, fault)
    decreases |b|
  {
    if |b| == 0 {
      assert a + b == a;
    } else {
      var n := |b| - 1;
      assert (a + b)[..|a + b| - 1] == a + b[..n];
      assert (a + b)[|a + b| - 1] == b[n];
      ApplyUpdatesAppend(rows, a, b[..n], fault);
    }
  }

  /** The progress reports among the calls, in order. */
  function Forwarded(steps: seq<Step>): seq<O.Progress>
    decreases |steps|
  {
    if |steps| == 0 then []
    else Forwarded(steps[..|steps| - 1]) + (if steps[|steps| - 1].Forward? then [steps[|steps| - 1].progress] else [])
  }

  lemma {:induction false} ForwardedAppend(a: seq<Step>, b: seq<Step>)
    ensures Forwarded(a + b) == Forwarded(a) + Forwarded(b)
    decreases |b|
  {
    if |b| == 0 {
      assert a + b == a;
    } else {
      var n := |b| - 1;
      assert (a + b)[..|a + b| - 1] == a + b[..n];
      assert (a + b)[|a + b| - 1] == b[n];
      ForwardedAppend(a, b[..n]);
    }
  }

  lemma ForwardedOne(step: Step)
    ensures Forwarded([step]) == if step.Forward? then [step.progress] else []
  {
    assert [step][..0] == [];
  }

  lemma ForwardedOnProgress(record: Option<nat>, e: O.Progress, elapsed: int)
    ensures Forwarded(OnProgress(record, e, elapsed)) == [e]
  {
    var steps := OnProgress(record, e, elapsed);
    assert steps[..1] == [Forward(e)];
    ForwardedOne(Forward(e));
    if |steps| == 2 {
      assert steps[..|steps| - 1] == [Forward(e)];
    }
  }

  lemma {:induction false} CallbackForwardsAll(record: Option<nat>, events: seq<O.Progress>, elapsed: int)
    ensures Forwarded(CallbackSteps(record, events, elapsed)) == events
    decreases |events|
  {
    if |events| > 0 {
      var n := |events| - 1;
      var init := CallbackSteps(record, events[..n], elapsed);
      var last := OnProgress(record, events[n], elapsed);
      CallbackForwardsAll(record, events[..n], elapsed);
      ForwardedOnProgress(record, events[n], elapsed);
      calc {
        Forwarded(CallbackSteps(record, events, elapsed));
        Forwarded(init + last);
        { ForwardedStep(init, last, events[..n], events[n]); }
        events[..n] + [events[n]];
        { LastSplit(events); }
        events;
      }
    }
  }

  lemma LastSplit<T>(xs: seq<T>)
    requires |xs| > 0
    ensures xs[..|xs| - 1] + [xs[|xs| - 1]] == xs
  {
  }

  lemma ForwardedStep(init: seq<Step>, last: seq<Step>, prev: seq<O.Progress>, e: O.Progress)
    requires Forwarded(init) == prev && Forwarded(last) == [e]
    ensures Forwarded(init + last) == prev + [e]
  {
    ForwardedAppend(init, last);
  }

  /** Without a record the wrapped callback only forwards. */
  lemma {:induction false} CallbackWithoutRecord(events: seq<O.Progress>, elapsed: int)
    ensures forall k | 0 <= k < |CallbackSteps(None, events, elapsed)| :: CallbackSteps(None, events, elapsed)[k].Forward?
    decreases |events|
  {
    if |events| > 0 {
      CallbackWithoutRecord(events[..|events| - 1], elapsed);
    }
  }

  lemma {:induction false} ApplyUpdatesWithoutUpdates(rows: map<nat, Row>, steps: seq<Step>, fault: Option<S.SupabaseError>)
    requires forall k | 0 <= k < |steps| :: !steps[k].UpdateCall?
    ensures ApplyUpdates(rows, steps, fault) == rows
    decreases |steps|
  {
    if |steps| > 0 {
      ApplyUpdatesWithoutUpdates(rows, steps[..|steps| - 1], fault);
    }
  }

  /** Whether some progress report is `done`. */
  ghost predicate AnyDone(events: seq<O.Progress>) {
    exists k | 0 <= k < |events| :: events[k].done
  }

  lemma AnyDoneNext(events: seq<O.Progress>)
    requires |events| > 0
    ensures AnyDone(events) <==> AnyDone(events[..|events| - 1]) || events[|events| - 1].done
  {
    var n := |events| - 1;
    if AnyDone(events) && !events[n].done {
      var k :| 0 <= k < |events| && events[k].done;
      assert events[..n][k].done;
    }
    if AnyDone(events[..n]) {
      var k :| 0 <= k < n && events[..n][k].done;
      assert events[k].done;
    }
  }

  /**
   * The callback's effect on the record: with working updates it ends
   * `completed` exactly when some report was `done`, and keeps its status otherwise.
   */
  lemma {:induction false} CallbackStatus(rows: map<nat, Row>, id: nat, events: seq<O.Progress>, elapsed: int)
    requires id in rows
    ensures var after := ApplyUpdates(rows, CallbackSteps(Some(id), events, elapsed), None);
            && id in after
            && after[id].status == (if AnyDone(events) then Completed else rows[id].status)
    decreases |events|
  {
    if |events| > 0 {
      var n := |events| - 1;
      var init := CallbackSteps(Some(id), events[..n], elapsed);
      var mid := ApplyUpdates(rows, init, None);
      CallbackStatus(rows, id, events[..n], elapsed);
      assert CallbackSteps(Some(id), events, elapsed) == init + OnProgress(Some(id), events[n], elapsed);
      ApplyUpdatesAppend(rows, init, OnProgress(Some(id), events[n], elapsed), None);
      OnProgressStatus(mid, id, events[n], elapsed);
      AnyDoneNext(events);
    }
  }

  lemma OnProgressStatus(rows: map<nat, Row>, id: nat, e: O.Progress, elapsed: int)
    requires id in rows
    ensures var after := ApplyUpdates(rows, OnProgress(Some(id), e, elapsed), None);
            && id in after
            && after[id].status == (if e.done then Completed else rows[id].status)
  {
    var one := [Forward(e)];
    assert ApplyUpdates(rows, one, None) == rows by {
      assert [] + one == one;
      ApplyUpdatesNext(rows, [], Forward(e), None);
    }
    if e.done {
      var u := UpdateCall(id, CompletedPatch(e.accumulated, elapsed));
      assert OnProgress(Some(id), e, elapsed) == one + [u];
      ApplyUpdatesNext(rows, one, u, None);
    } else {
      assert OnProgress(Some(id), e, elapsed) == one;
    }
  }

  /** With saving, a failed insert is returned as it is and nothing else happens. */
  lemma CreateFailureFailsFast(rows: map<nat, Row>, nextId: nat, fallback: (O.Fallback, seq<O.Progress>), streaming: bool,
                               userId: string, req: GenerateRequest, start: int, finish: int, faults: StoreFaults)
    requires SaveOf(req) && faults.create.Some?
    ensures var run := Lifecycle(rows, nextId, fallback, streaming, userId, req, start, finish, faults);
            && run.outcome == CreateFailed(S.HandleSupabaseError(faults.create, Some("create generation")))
            && run.steps == [InsertCall(userId, DataOf(req, start))]
            && run.rows == rows
  {
  }

  /**
   * With saving and a successful insert, the record is created, then set to
   * `generating`, and only then is the fallback call made.
   */
  lemma RecordStartsBeforeInference(rows: map<nat, Row>, nextId: nat, fallback: (O.Fallback, seq<O.Progress>), streaming: bool,
                                    userId: string, req: GenerateRequest, start: int, finish: int, faults: StoreFaults)
    requires SaveOf(req) && faults.create.None?
    ensures var run := Lifecycle(rows, nextId, fallback, streaming, userId, req, start, finish, faults);
            var data := DataOf(req, start);
            && |run.steps| >= 3
            && run.steps[0] == InsertCall(userId, data)
            && run.steps[1] == UpdateCall(nextId, GeneratingPatch)
            && run.steps[2] == Infer(OptionsOf(req))
  {
    var data := DataOf(req, start);
    var created := NewRow(nextId, userId, data);
    var head := SavedHead(userId, data, nextId, OptionsOf(req));
    var cb := CallbackSteps(Some(nextId), fallback.1, finish - start);
    var run := Finish(rows[nextId := created], Some(nextId), Some(created), streaming, fallback.0, head + cb, finish - start, faults.update);
    FinishExtends(rows[nextId := created], Some(nextId), Some(created), streaming, fallback.0, head + cb, finish - start, faults.update);
    assert run.steps[..|head + cb|][..3] == head;
  }

  /**
   * Unless the insert fails, every report the fallback call makes is forwarded
   * to the caller's callback, unchanged and in order, and nothing else is.
   */
  lemma EveryReportForwarded(rows: map<nat, Row>, nextId: nat, fallback: (O.Fallback, seq<O.Progress>), streaming: bool,
                             userId: string, req: GenerateRequest, start: int, finish: int, faults: StoreFaults)
    requires !(SaveOf(req) && faults.create.Some?)
    ensures Forwarded(Lifecycle(rows, nextId, fallback, streaming, userId, req, start, finish, faults).steps) == fallback.1
  {
    var data := DataOf(req, start);
    var opts := OptionsOf(req);
    var record: Option<nat> := if SaveOf(req) then Some(nextId) else None;
    var created: Option<Row> := if SaveOf(req) then Some(NewRow(nextId, userId, data)) else None;
    var rows1 := if SaveOf(req) then rows[nextId := created.value] else rows;
    var head := if SaveOf(req) then SavedHead(userId, data, nextId, opts) else [Infer(opts)];
    var cb := CallbackSteps(record, fallback.1, finish - start);
    CallbackForwardsAll(record, fallback.1, finish - start);
    if SaveOf(req) {
      HeadForwardsNothing(userId, data, nextId, opts);
    } else {
      ForwardedOne(Infer(opts));
    }
    ForwardedStart(head, cb, fallback.1);
    FinishExtends(rows1, record, created, streaming, fallback.0, head + cb, finish - start, faults.update);
  }

  /** The record is created `pending`, with the start time as its metadata. */
  lemma RecordStartsPending(nextId: nat, userId: string, req: GenerateRequest, start: int)
    ensures var row := NewRow(nextId, userId, DataOf(req, start));
            && row.status == Pending && row.modelName == req.model.GetOr("llama2")
            && row.contentType == req.contentType.GetOr("general")
            && row.metadata == map["startTime" := start]
  {
  }

  /** With saving and a successful insert, the run is the saved head, the callback's calls and the finish. */
  lemma LifecycleSaved(rows: map<nat, Row>, nextId: nat, fallback: (O.Fallback, seq<O.Progress>), streaming: bool,
                       userId: string, req: GenerateRequest, start: int, finish: int, faults: StoreFaults)
    requires SaveOf(req) && faults.create.None?
    ensures var data := DataOf(req, start);
            Lifecycle(rows, nextId, fallback, streaming, userId, req, start, finish, faults)
            == Finish(rows[nextId := NewRow(nextId, userId, data)], Some(nextId), Some(NewRow(nextId, userId, data)), streaming,
                      fallback.0, SavedHead(userId, data, nextId, OptionsOf(req)) + CallbackSteps(Some(nextId), fallback.1, finish - start),
                      finish - start, faults.update)
  {
  }

  /** Without saving, the run is the fallback call, the callback's forwards and the finish. */
  lemma LifecycleUnsaved(rows: map<nat, Row>, nextId: nat, fallback: (O.Fallback, seq<O.Progress>), streaming: bool,
                         userId: string, req: GenerateRequest, start: int, finish: int, faults: StoreFaults)
    requires !SaveOf(req)
    ensures Lifecycle(rows, nextId, fallback, streaming, userId, req, start, finish, faults)
            == Finish(rows, None, None, streaming, fallback.0, [Infer(OptionsOf(req))] + CallbackSteps(None, fallback.1, finish - start),
                      finish - start, faults.update)
  {
  }

  lemma HeadForwardsNothing(userId: string, data: NewGeneration, id: nat, opts: O.GenOptions)
    ensures Forwarded(SavedHead(userId, data, id, opts)) == []
  {
    var a, b, c := InsertCall(userId, data), UpdateCall(id, GeneratingPatch), Infer(opts);
    ForwardedOne(a);
    ForwardedOne(b);
    ForwardedOne(c);
    ForwardedAppend([a], [b]);
    ForwardedAppend([a] + [b], [c]);
    assert [a] + [b] + [c] == SavedHead(userId, data, id, opts);
  }

  lemma ForwardedStart(head: seq<Step>, cb: seq<Step>, events: seq<O.Progress>)
    requires Forwarded(head) == [] && Forwarded(cb) == events
    ensures Forwarded(head + cb) == events
  {
    ForwardedAppend(head, cb);
  }

  /** The finish only appends calls to `during`, and forwards no report. */
  lemma FinishExtends(rows1: map<nat, Row>, record: Option<nat>, created: Option<Row>, streaming: bool,
                      fb: O.Fallback, during: seq<Step>, elapsed: int, fault: Option<S.SupabaseError>)
    ensures var run := Finish(rows1, record, created, streaming, fb, during, elapsed, fault);
            && |during| <= |run.steps| && run.steps[..|during|] == during
            && Forwarded(run.steps) == Forwarded(during)
  {
    var run := Finish(rows1, record, created, streaming, fb, during, elapsed, fault);
    if run.steps != during {
      var u := run.steps[|during|];
      assert run.steps == during + [u] && u.UpdateCall?;
      ForwardedAppend(during, [u]);
      ForwardedOne(u);
    }
  }

  /**
   * When every model fails, the record is set to `failed` with the fallback's
   * error and the elapsed time, and the fallback's result is returned unchanged.
   */
  lemma FailureMarksRecordFailed(rows: map<nat, Row>, nextId: nat, fallback: (O.Fallback, seq<O.Progress>), streaming: bool,
                                 userId: string, req: GenerateRequest, start: int, finish: int, faults: StoreFaults)
    requires SaveOf(req) && faults.create.None?
    requires fallback.0.AllFailed?
    ensures var fb := fallback.0;
            var run := Lifecycle(rows, nextId, fallback, streaming, userId, req, start, finish, faults);
            && run.outcome == GenerationFailed(fb.error, fb.modelsAttempted)
            && run.steps[|run.steps| - 1] == UpdateCall(nextId, FailedPatch(fb.error, finish - start))
            && nextId in run.rows
            && (faults.update.None? ==>
                  && run.rows[nextId].status == Failed
                  && run.rows[nextId].errorMessage == Some(fb.error)
                  && run.rows[nextId].generationTimeMs == Some(finish - start))
  {
    var data := DataOf(req, start);
    var opts := OptionsOf(req);
    var rows1 := rows[nextId := NewRow(nextId, userId, data)];
    var during := SavedHead(userId, data, nextId, opts) + CallbackSteps(Some(nextId), fallback.1, finish - start);
    var failed := UpdateCall(nextId, FailedPatch(fallback.0.error, finish - start));
    ApplyUpdatesNext(rows1, during, failed, faults.update);
    ApplyUpdatesKeys(rows1, during, faults.update);
  }

  /**
   * With streaming off, a success is recorded as `completed` with the content,
   * its length and the elapsed time, and the updated row is the record returned.
   */
  lemma UnstreamedSuccessCompletesRecord(rows: map<nat, Row>, nextId: nat, fallback: (O.Fallback, seq<O.Progress>), streaming: bool,
                                         userId: string, req: GenerateRequest, start: int, finish: int, faults: StoreFaults)
    requires SaveOf(req) && faults.create.None? && faults.update.None? && !streaming
    requires fallback.0.Used?
    ensures var fb := fallback.0;
            var run := Lifecycle(rows, nextId, fallback, streaming, userId, req, start, finish, faults);
            && nextId in run.rows
            && run.rows[nextId].status == Completed
            && run.rows[nextId].generatedContent == Some(fb.gen.content)
            && run.rows[nextId].contentLength == Some(|fb.gen.content|)
            && run.rows[nextId].generationTimeMs == Some(finish - start)
            && run.outcome == Produced(fb.gen.content, fb.modelUsed, Some(run.rows[nextId]), fb.fallbackUsed)
  {
    var data := DataOf(req, start);
    var opts := OptionsOf(req);
    var rows1 := rows[nextId := NewRow(nextId, userId, data)];
    var during := SavedHead(userId, data, nextId, opts) + CallbackSteps(Some(nextId), fallback.1, finish - start);
    var completed := UpdateCall(nextId, CompletedPatch(fallback.0.gen.content, finish - start));
    ApplyUpdatesNext(rows1, during, completed, faults.update);
    ApplyUpdatesKeys(rows1, during, faults.update);
  }

  /** Without saving, no backend call is made and no record is returned. */
  lemma NoRecordWithoutSaving(rows: map<nat, Row>, nextId: nat, fallback: (O.Fallback, seq<O.Progress>), streaming: bool,
                              userId: string, req: GenerateRequest, start: int, finish: int, faults: StoreFaults)
    requires !SaveOf(req)
    ensures var run := Lifecycle(rows, nextId, fallback, streaming, userId, req, start, finish, faults);
            && run.rows == rows
            && (forall k | 0 <= k < |run.steps| :: !run.steps[k].InsertCall? && !run.steps[k].UpdateCall?)
            && (run.outcome.Produced? ==> run.outcome.generationRecord.None?)
  {
    var opts := OptionsOf(req);
    var cb := CallbackSteps(None, fallback.1, finish - start);
    CallbackWithoutRecord(fallback.1, finish - start);
    var during := [Infer(opts)] + cb;
    assert forall k | 0 <= k < |during| :: during[k] == Infer(opts) || during[k] == cb[k - 1];
    assert during + [] == during;
    ApplyUpdatesWithoutUpdates(rows, during, faults.update);
  }

  /** The table after the steps of a streamed run that has a record. */
  lemma StreamedRows(rows1: map<nat, Row>, id: nat, userId: string, data: NewGeneration, opts: O.GenOptions,
                     events: seq<O.Progress>, elapsed: int)
    requires id in rows1
    ensures var steps := SavedHead(userId, data, id, opts) + CallbackSteps(Some(id), events, elapsed);
            var after := ApplyUpdates(rows1, steps, None);
            && id in after
            && after[id].status == (if AnyDone(events) then Completed else Generating)
  {
    var a, b, c := InsertCall(userId, data), UpdateCall(id, GeneratingPatch), Infer(opts);
    var head := SavedHead(userId, data, id, opts);
    var cb := CallbackSteps(Some(id), events, elapsed);
    ApplyUpdatesAppend(rows1, head, cb, None);
    assert [] + [a] == [a] && [a] + [b] == [a, b] && [a, b] + [c] == head;
    ApplyUpdatesNext(rows1, [], a, None);
    ApplyUpdatesNext(rows1, [a], b, None);
    ApplyUpdatesNext(rows1, [a, b], c, None);
    CallbackStatus(ApplyUpdates(rows1, head, None), id, events, elapsed);
  }

  /**
   * With streaming on, the record becomes `completed` only through the callback:
   * after a successful call it is `completed` exactly when some forwarded report
   * was `done`, and otherwise it is left `generating`. Since reports are made only
   * for objects with text, a stream whose terminal object has no text succeeds but
   * leaves the record `generating`.
   */
  lemma StreamedRecordCompletesOnlyOnDoneReport(rows: map<nat, Row>, nextId: nat, fallback: (O.Fallback, seq<O.Progress>), streaming: bool,
                                                   userId: string, req: GenerateRequest, start: int, finish: int, faults: StoreFaults)
    requires SaveOf(req) && faults.create.None? && faults.update.None? && streaming
    requires fallback.0.Used?
    ensures var events := fallback.1;
            var run := Lifecycle(rows, nextId, fallback, streaming, userId, req, start, finish, faults);
            && run.outcome.Produced?
            && nextId in run.rows
            && (run.rows[nextId].status == Completed <==> AnyDone(events))
            && ((forall k | 0 <= k < |events| :: !events[k].done) ==> run.rows[nextId].status == Generating)
  {
    var data := DataOf(req, start);
    var opts := OptionsOf(req);
    StreamedRows(rows[nextId := NewRow(nextId, userId, data)], nextId, userId, data, opts, fallback.1, finish - start);
  }

  // ---------------------------------------------------------------- getUserGenerations

  /** The text stored in the `status` column. */
  function StatusName(st: Status): string {
    match st
    case Pending => "pending"
    case Generating => "generating"
    case Completed => "completed"
    case Failed => "failed"
  }

  /** The options of `getUserGenerations`; an omitted or empty filter is `None` or `""`. */
  datatype ListOptions = ListOptions(limit: Option<nat>, offset: Option<nat>, contentType: Option<string>, status: Option<string>)

  /** A filter given as a string applies only when the string is non-empty (truthy). */
  predicate Passes(filter: Option<string>, value: string) {
    filter.None? || filter.value == "" || filter.value == value
  }

  /** The row belongs to the user and passes both filters. */
  predicate Selected(row: Row, userId: string, opts: ListOptions) {
    && row.userId == userId
    && Passes(opts.contentType, row.contentType)
    && Passes(opts.status, StatusName(row.status))
  }

  /** The rows a query selects, in the table's order. */
  function SelectRows(table: seq<Row>, userId: string, opts: ListOptions): (r: seq<Row>)
    ensures |r| <= |table|
    ensures forall row | row in r :: row in table && Selected(row, userId, opts)
    ensures forall row | row in table && Selected(row, userId, opts) :: row in r
    decreases |table|
  {
    if |table| == 0 then []
    else
      var rest := SelectRows(table[..|table| - 1], userId, opts);
      if Selected(table[|table| - 1], userId, opts) then rest + [table[|table| - 1]] else rest
  }

  /** The query keeps each selected row as often as the table holds it, and no other row. */
  lemma {:induction false} SelectRowsCounts(table: seq<Row>, userId: string, opts: ListOptions)
    ensures forall row | Selected(row, userId, opts) :: multiset(SelectRows(table, userId, opts))[row] == multiset(table)[row]
    ensures forall row | !Selected(row, userId, opts) :: multiset(SelectRows(table, userId, opts))[row] == 0
    decreases |table|
  {
    if |table| > 0 {
      var init, last := table[..|table| - 1], table[|table| - 1];
      assert table == init + [last];
      SelectRowsCounts(init, userId, opts);
    }
  }

  /** The query keeps the table's order: selecting distributes over concatenation. */
  lemma {:induction false} SelectRowsAppend(a: seq<Row>, b: seq<Row>, userId: string, opts: ListOptions)
    ensures SelectRows(a + b, userId, opts) == SelectRows(a, userId, opts) + SelectRows(b, userId, opts)
    decreases |b|
  {
    if |b| == 0 {
      assert a + b == a;
    } else {
      var init, last := b[..|b| - 1], b[|b| - 1];
      assert (a + b)[..|a + b| - 1] == a + init && (a + b)[|a + b| - 1] == last;
      SelectRowsAppend(a, init, userId, opts);
    }
  }

  /**
   * `getUserGenerations` over the table as it is ordered by `created_at`, newest
   * first: the selected rows from `offset` (default 0) on, at most `limit`
   * (default 50) of them, i.e. the inclusive range `offset .. offset + limit - 1`.
   * A failing call returns the mapped error.
   */
  function GetUserGenerations(table: seq<Row>, userId: string, opts: ListOptions, fault: Option<S.SupabaseError>): (r: Result<seq<Row>>)
    ensures fault.Some? <==> r.Err?
    ensures fault.Some? ==> r.error == S.HandleSupabaseError(fault, Some("get generations"))
    ensures r.Ok? ==> |r.value| <= opts.limit.GetOr(50)
    ensures r.Ok? ==> forall row | row in r.value :: row in table && Selected(row, userId, opts)
  {
    if fault.Some? then Err(S.HandleSupabaseError(fault, Some("get generations")))
    else
      var selected := SelectRows(table, userId, opts);
      var from := opts.offset.GetOr(0);
      var to := from + opts.limit.GetOr(50);
      var lo := if from <= |selected| then from else |selected|;
      var hi := if to <= |selected| then to else |selected|;
      Ok(selected[lo..hi])
  }

  /**
   * The page is the run of selected rows that starts at `offset`: entry `k` is
   * selected row `offset + k`, and the page is short only at the end of the rows.
   */
  lemma PageIsRange(table: seq<Row>, userId: string, opts: ListOptions)
    ensures var r := GetUserGenerations(table, userId, opts, None);
            var selected := SelectRows(table, userId, opts);
            var from := opts.offset.GetOr(0);
            && r.Ok?
            && (forall k | 0 <= k < |r.value| :: from + k < |selected| && r.value[k] == selected[from + k])
            && (|r.value| < opts.limit.GetOr(50) ==> |r.value| == if from <= |selected| then |selected| - from else 0)
  {
  }

  // ---------------------------------------------------------------- getGenerationStats

  /** The columns the statistics query reads. */
  datatype StatRow = StatRow(contentType: string, status: Status, generationTimeMs: Option<int>)

  /**
   * The statistics computed from the rows: the counts, the sum of the generation
   * times (a missing time counts as 0) from which the average is taken, and the
   * number of rows per content type, in order of first appearance.
   */
  datatype Stats = Stats(total: nat, completed: nat, failed: nat, timeSum: int, breakdown: seq<(string, nat)>)

  function CountStatus(rows: seq<StatRow>, st: Status): (n: nat)
    ensures n <= |rows|
    decreases |rows|
  {
    if |rows| == 0 then 0
    else CountStatus(rows[..|rows| - 1], st) + (if rows[|rows| - 1].status == st then 1 else 0)
  }

  function TimeSum(rows: seq<StatRow>): int
    decreases |rows|
  {
    if |rows| == 0 then 0
    else TimeSum(rows[..|rows| - 1]) + rows[|rows| - 1].generationTimeMs.GetOr(0)
  }

  /** `breakdown[key] = (breakdown[key] || 0) + 1` on an object whose keys keep their insertion order. */
  function Bump(b: seq<(string, nat)>, key: string): seq<(string, nat)>
    decreases |b|
  {
    if |b| == 0 then [(key, 1)]
    else if b[0].0 == key then [(key, b[0].1 + 1)] + b[1..]
    else [b[0]] + Bump(b[1..], key)
  }

  /** The breakdown after visiting `rows` in order. */
  function Breakdown(rows: seq<StatRow>): seq<(string, nat)>
    decreases |rows|
  {
    if |rows| == 0 then [] else Bump(Breakdown(rows[..|rows| - 1]), rows[|rows| - 1].contentType)
  }

  /** The statistics of the fallback path. */
  function StatsOf(rows: seq<StatRow>): Stats {
    Stats(|rows|, CountStatus(rows, Completed), CountStatus(rows, Failed), TimeSum(rows), Breakdown(rows))
  }

  /** The manual reduction: the counts, the time sum, then the breakdown built row by row. */
  method ComputeStats(rows: seq<StatRow>) returns (stats: Stats)
    ensures stats == StatsOf(rows)
  {
    var breakdown: seq<(string, nat)> := [];
    var i := 0;
    while i < |rows|
      invariant 0 <= i <= |rows|
      invariant breakdown == Breakdown(rows[..i])
    {
      assert rows[..i + 1][..i] == rows[..i];
      breakdown := Bump(breakdown, rows[i].contentType);
      i := i + 1;
    }
    assert rows[..i] == rows;
    stats := Stats(|rows|, CountStatus(rows, Completed), CountStatus(rows, Failed), TimeSum(rows), breakdown);
  }

  /** How many of `rows` have the content type `key`. */
  function Occurrences(rows: seq<StatRow>, key: string): nat
    decreases |rows|
  {
    if |rows| == 0 then 0
    else Occurrences(rows[..|rows| - 1], key) + (if rows[|rows| - 1].contentType == key then 1 else 0)
  }

  /** The count stored under `key`, 0 when there is none. */
  function Lookup(b: seq<(string, nat)>, key: string): nat
    decreases |b|
  {
    if |b| == 0 then 0 else if b[0].0 == key then b[0].1 else Lookup(b[1..], key)
  }

  predicate DistinctKeys(b: seq<(string, nat)>) {
    forall i, j | 0 <= i < j < |b| :: b[i].0 != b[j].0
  }

  function Sum(b: seq<(string, nat)>): nat
    decreases |b|
  {
    if |b| == 0 then 0 else b[0].1 + Sum(b[1..])
  }

  /** The content types the breakdown has an entry for. */
  function Keys(b: seq<(string, nat)>): set<string> {
    set i | 0 <= i < |b| :: b[i].0
  }

  /** The content types among the rows. */
  function ContentTypes(rows: seq<StatRow>): set<string> {
    set i | 0 <= i < |rows| :: rows[i].contentType
  }

  predicate Positive(b: seq<(string, nat)>) {
    forall i | 0 <= i < |b| :: b[i].1 >= 1
  }

  lemma {:induction false} BumpLookup(b: seq<(string, nat)>, key: string, other: string)
    ensures Lookup(Bump(b, key), other) == Lookup(b, other) + (if other == key then 1 else 0)
    decreases |b|
  {
    if |b| > 0 && b[0].0 != key {
      BumpLookup(b[1..], key, other);
      assert Bump(b, key)[1..] == Bump(b[1..], key);
    } else if |b| > 0 {
      assert Bump(b, key)[1..] == b[1..];
    }
  }

  lemma {:induction false} BumpSum(b: seq<(string, nat)>, key: string)
    ensures Sum(Bump(b, key)) == Sum(b) + 1
    decreases |b|
  {
    if |b| > 0 && b[0].0 != key {
      BumpSum(b[1..], key);
      assert Bump(b, key)[1..] == Bump(b[1..], key);
    } else if |b| > 0 {
      assert Bump(b, key)[1..] == b[1..];
    } else {
      assert [(key, 1)][1..] == [];
    }
  }

  lemma {:induction false} BumpKeys(b: seq<(string, nat)>, key: string)
    ensures Keys(Bump(b, key)) == Keys(b) + {key}
    ensures Positive(b) ==> Positive(Bump(b, key))
    decreases |b|
  {
    var r := Bump(b, key);
    if |b| > 0 && b[0].0 != key {
      BumpKeys(b[1..], key);
      assert r == [b[0]] + Bump(b[1..], key);
      assert Keys(r) == {b[0].0} + Keys(Bump(b[1..], key)) by {
        forall x | x in Keys(r) ensures x in {b[0].0} + Keys(Bump(b[1..], key)) {
          var i :| 0 <= i < |r| && r[i].0 == x;
          if i > 0 { assert Bump(b[1..], key)[i - 1].0 == x; }
        }
        forall x | x in Keys(Bump(b[1..], key)) ensures x in Keys(r) {
          var i :| 0 <= i < |Bump(b[1..], key)| && Bump(b[1..], key)[i].0 == x;
          assert r[i + 1].0 == x;
        }
        assert r[0].0 == b[0].0;
      }
      assert Keys(b) == {b[0].0} + Keys(b[1..]) by {
        forall x | x in Keys(b) ensures x in {b[0].0} + Keys(b[1..]) {
          var i :| 0 <= i < |b| && b[i].0 == x;
          if i > 0 { assert b[1..][i - 1].0 == x; }
        }
        forall x | x in Keys(b[1..]) ensures x in Keys(b) {
          var i :| 0 <= i < |b[1..]| && b[1..][i].0 == x;
          assert b[i + 1].0 == x;
        }
      }
      if Positive(b) {
        assert Positive(b[1..]) by {
          forall i | 0 <= i < |b[1..]| ensures b[1..][i].1 >= 1 { assert b[1..][i] == b[i + 1]; }
        }
      }
    } else if |b| > 0 {
      assert forall i | 1 <= i < |r| :: r[i] == b[i];
      assert Keys(r) == Keys(b) by {
        forall x | x in Keys(r) ensures x in Keys(b) {
          var i :| 0 <= i < |r| && r[i].0 == x;
          assert b[i].0 == x;
        }
        forall x | x in Keys(b) ensures x in Keys(r) {
          var i :| 0 <= i < |b| && b[i].0 == x;
          assert r[i].0 == x;
        }
      }
    } else {
      assert r[0].0 == key;
    }
  }

  lemma {:induction false} BumpDistinct(b: seq<(string, nat)>, key: string)
    requires DistinctKeys(b)
    ensures DistinctKeys(Bump(b, key))
    decreases |b|
  {
    var r := Bump(b, key);
    if |b| > 0 && b[0].0 != key {
      var tail := b[1..];
      assert DistinctKeys(tail) by {
        forall i, j | 0 <= i < j < |tail| ensures tail[i].0 != tail[j].0 {
          assert tail[i] == b[i + 1] && tail[j] == b[j + 1];
        }
      }
      BumpDistinct(tail, key);
      BumpKeys(tail, key);
      assert r == [b[0]] + Bump(tail, key);
      assert b[0].0 !in Keys(tail) by {
        forall i | 0 <= i < |tail| ensures tail[i].0 != b[0].0 {
          assert tail[i] == b[i + 1];
        }
      }
      forall i, j | 0 <= i < j < |r| ensures r[i].0 != r[j].0 {
        if i == 0 {
          assert r[j].0 == Bump(tail, key)[j - 1].0 && Bump(tail, key)[j - 1].0 in Keys(Bump(tail, key));
        } else {
          assert r[i] == Bump(tail, key)[i - 1] && r[j] == Bump(tail, key)[j - 1];
        }
      }
    } else if |b| > 0 {
      assert forall i | 0 <= i < |r| :: r[i].0 == b[i].0;
    }
  }

  /**
   * The breakdown of the fallback statistics: one entry per content type present,
   * no type twice, every count positive and equal to the number of rows of that
   * type, and the counts add up to the total.
   */
  lemma {:induction false} BreakdownCounts(rows: seq<StatRow>)
    ensures var b := Breakdown(rows);
            && DistinctKeys(b)
            && Positive(b)
            && Keys(b) == ContentTypes(rows)
            && (forall key :: Lookup(b, key) == Occurrences(rows, key))
            && Sum(b) == |rows|
    decreases |rows|
  {
    if |rows| > 0 {
      var n := |rows| - 1;
      var init := rows[..n];
      var key := rows[n].contentType;
      BreakdownCounts(init);
      BumpDistinct(Breakdown(init), key);
      BumpKeys(Breakdown(init), key);
      BumpSum(Breakdown(init), key);
      forall other ensures Lookup(Breakdown(rows), other) == Occurrences(rows, other) {
        BumpLookup(Breakdown(init), key, other);
      }
      assert ContentTypes(rows) == ContentTypes(init) + {key} by {
        forall x | x in ContentTypes(rows) ensures x in ContentTypes(init) + {key} {
          var i :| 0 <= i < |rows| && rows[i].contentType == x;
          if i < n { assert init[i].contentType == x; }
        }
        forall x | x in ContentTypes(init) ensures x in ContentTypes(rows) {
          var i :| 0 <= i < n && init[i].contentType == x;
          assert rows[i].contentType == x;
        }
      }
    }
  }

  /** Completed and failed rows are counted apart, so together they never exceed the total. */
  lemma {:induction false} StatusCountsBounded(rows: seq<StatRow>)
    ensures CountStatus(rows, Completed) + CountStatus(rows, Failed) <= |rows|
    decreases |rows|
  {
    if |rows| > 0 {
      StatusCountsBounded(rows[..|rows| - 1]);
    }
  }

  /** `timeframe === '7d' ? 7 : timeframe === '30d' ? 30 : 90`, with `'30d'` when omitted. */
  function TimeframeDays(timeframe: Option<string>): (days: nat)
    ensures days in {7, 30, 90}
    ensures timeframe.None? ==> days == 30
  {
    var t := timeframe.GetOr("30d");
    if t == "7d" then 7 else if t == "30d" then 30 else 90
  }

  /** What the statistics function answers: an error, a normal result, or a thrown failure. */
  datatype RpcAnswer<V> = RpcData(data: Option<V>) | RpcError(error: S.SupabaseError) | RpcThrew

  /** What the fallback query answers; a thrown failure and a returned error are handled alike. */
  datatype QueryAnswer = QueryRows(rows: seq<StatRow>) | QueryFailed(error: S.SupabaseError)

  /** The data `getGenerationStats` returns: the statistics function's own (`None` is `[]`), or the fallback's. */
  datatype StatsData<V> = Reported(data: Option<V>) | Computed(stats: Stats)

  /**
   * `getGenerationStats`: the statistics function is asked for the user and the
   * timeframe in days; its error is mapped, and only when it throws are the rows
   * of that timeframe queried and reduced by hand.
   */
  method GetGenerationStats<V>(userId: string, timeframe: Option<string>,
                               rpc: (string, nat) -> RpcAnswer<V>, query: (string, nat) -> QueryAnswer)
    returns (r: Result<StatsData<V>>)
    ensures var answer := rpc(userId, TimeframeDays(timeframe));
            && (answer.RpcData? ==> r == Ok(Reported(answer.data)))
            && (answer.RpcError? ==> r == Err(S.HandleSupabaseError(Some(answer.error), Some("get stats"))))
    ensures var answer := query(userId, TimeframeDays(timeframe));
            rpc(userId, TimeframeDays(timeframe)).RpcThrew? ==>
              && (answer.QueryRows? ==> r == Ok(Computed(StatsOf(answer.rows))))
              && (answer.QueryFailed? ==> r == Err(S.HandleSupabaseError(Some(answer.error), Some("get stats"))))
  {
    var days := TimeframeDays(timeframe);
    var answer := rpc(userId, days);
    match answer
    case RpcData(data) => return Ok(Reported(data));
    case RpcError(e) => return Err(S.HandleSupabaseError(Some(e), Some("get stats")));
    case RpcThrew =>
      var fallback := query(userId, days);
      match fallback
      case QueryFailed(e) => return Err(S.HandleSupabaseError(Some(e), Some("get stats")));
      case QueryRows(rows) =>
        var stats := ComputeStats(rows);
        return Ok(Computed(stats));
  }
}
