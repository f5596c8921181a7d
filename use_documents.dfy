/** The document hooks of hooks/use-documents.ts: the upload form, the
    upload-progress state machine with its operation polling loop, and the
    caches refreshed after an upload or a delete. */
module UseDocuments {
  import opened Common

  // ---------------------------------------------------------------------
  // The upload form
  // ---------------------------------------------------------------------

  /** A form field value; the two JSON fields hold the value that is
      serialised (JSON text is not modelled). */
  datatype FormValue =
    | FileValue(file: File)
    | TextValue(text: string)
    | ChunkingJson(config: ChunkingConfig)
    | MetadataJson(entries: seq<CustomMetadata>)

  datatype FormEntry = FormEntry(name: string, value: FormValue)

  /** `formData.get(name)`: the first entry with that name. */
  function Lookup(form: seq<FormEntry>, name: string): Option<FormValue> {
    if form == [] then None
    else if form[0].name == name then Some(form[0].value)
    else Lookup(form[1..], name)
  }

  predicate KnownField(name: string) {
    name == "file" || name == "displayName" || name == "chunkingConfig" || name == "customMetadata"
  }

  /** `uploadDocument`'s form: the file always, first; the display name only
      when it is a non-empty string; the chunking configuration and the
      metadata list whenever they are present. No field appears twice. */
  function UploadForm(file: File, config: Option<UploadConfig>): (form: seq<FormEntry>)
    ensures |form| >= 1 && form[0] == FormEntry("file", FileValue(file))
    ensures Lookup(form, "displayName") ==
              if config.Some? && Truthy(config.value.displayName)
              then Some(TextValue(config.value.displayName.value)) else None
    ensures Lookup(form, "chunkingConfig") ==
              if config.Some? && config.value.chunkingConfig.Some?
              then Some(ChunkingJson(config.value.chunkingConfig.value)) else None
    ensures Lookup(form, "customMetadata") ==
              if config.Some? && config.value.customMetadata.Some?
              then Some(MetadataJson(config.value.customMetadata.value)) else None
    ensures forall i :: 0 <= i < |form| ==> KnownField(form[i].name)
    ensures forall i, j :: 0 <= i < j < |form| ==> form[i].name != form[j].name
  {
    var name := if config.Some? && Truthy(config.value.displayName)
                then [FormEntry("displayName", TextValue(config.value.displayName.value))] else [];
    var chunking := if config.Some? && config.value.chunkingConfig.Some?
                    then [FormEntry("chunkingConfig", ChunkingJson(config.value.chunkingConfig.value))] else [];
    var metadata := if config.Some? && config.value.customMetadata.Some?
                    then [FormEntry("customMetadata", MetadataJson(config.value.customMetadata.value))] else [];
    var head := [FormEntry("file", FileValue(file))];
    var form := head + (name + (chunking + metadata));
    LookupFour(head, name, chunking, metadata, "displayName");
    LookupFour(head, name, chunking, metadata, "chunkingConfig");
    LookupFour(head, name, chunking, metadata, "customMetadata");
    form
  }

  /** The position of each field in the order the form appends them. */
  function FieldRank(name: string): nat {
    if name == "file" then 0
    else if name == "displayName" then 1
    else if name == "chunkingConfig" then 2
    else 3
  }

  /** The fields are appended in a fixed order: the file, the display name,
      the chunking configuration, then the metadata. */
  lemma UploadFormOrder(file: File, config: Option<UploadConfig>)
    ensures var form := UploadForm(file, config);
      forall i, j :: 0 <= i < j < |form| ==> FieldRank(form[i].name) < FieldRank(form[j].name)
  {
  }

  lemma {:induction false} LookupConcat(a: seq<FormEntry>, b: seq<FormEntry>, name: string)
    ensures Lookup(a + b, name) == if Lookup(a, name).Some? then Lookup(a, name) else Lookup(b, name)
  {
    if a != [] {
      assert (a + b)[0] == a[0];
      assert (a + b)[1..] == a[1..] + b;
      LookupConcat(a[1..], b, name);
    } else {
      assert a + b == b;
    }
  }

  lemma LookupFour(a: seq<FormEntry>, b: seq<FormEntry>, c: seq<FormEntry>, d: seq<FormEntry>, name: string)
    ensures Lookup(a + (b + (c + d)), name) ==
              if Lookup(a, name).Some? then Lookup(a, name)
              else if Lookup(b, name).Some? then Lookup(b, name)
              else if Lookup(c, name).Some? then Lookup(c, name)
              else Lookup(d, name)
  {
    LookupConcat(a, b + (c + d), name);
    LookupConcat(b, c + d, name);
    LookupConcat(c, d, name);
  }

  // ---------------------------------------------------------------------
  // Polling an operation until it is done
  // ---------------------------------------------------------------------

  /** How the polling loop stopped: the operation is done, a poll raised,
      or the given responses ran out while the operation was still running. */
  datatype PollEnd = Finished(op: Operation) | PollFailed(failure: Failure) | Unfinished(last: Operation)

  /** The loop `while (!currentOp.done) currentOp = await pollOperation(currentOp.name)`
      over the given poll responses: how it ends and the names it polled. */
  function PollSpec(op: Operation, responses: seq<Result<Operation>>): (PollEnd, seq<string>)
    decreases |responses|
  {
    if op.done then (Finished(op), [])
    else if responses == [] then (Unfinished(op), [])
    else
      match responses[0]
      case Err(f) => (PollFailed(f), [op.name])
      case Ok(next) =>
        var rest := PollSpec(next, responses[1..]);
        (rest.0, [op.name] + rest.1)
  }

  /** The polling loop itself. */
  method PollUntilDone(op: Operation, responses: seq<Result<Operation>>) returns (end: PollEnd, polled: seq<string>)
    ensures end == PollSpec(op, responses).0 && polled == PollSpec(op, responses).1
  {
    var current := op;
    var k := 0;
    polled := [];
    assert responses[0..] == responses;
    while !current.done && k < |responses|
      invariant 0 <= k <= |responses|
      invariant PollSpec(op, responses).0 == PollSpec(current, responses[k..]).0
      invariant PollSpec(op, responses).1 == polled + PollSpec(current, responses[k..]).1
    {
      assert responses[k..][1..] == responses[k + 1..];
      assert responses[k..][0] == responses[k];
      polled := polled + [current.name];
      match responses[k] {
        case Err(f) =>
          return PollFailed(f), polled;
        case Ok(next) =>
          current := next;
      }
      k := k + 1;
    }
    end := if current.done then Finished(current) else Unfinished(current);
  }

  /** Each poll after the first asks for the operation the previous poll
      returned, and that operation was not done. */
  predicate Chained(responses: seq<Result<Operation>>, polled: seq<string>) {
    forall j :: 0 <= j < |responses| && j + 1 < |polled| ==>
      responses[j].Ok? && polled[j + 1] == responses[j].value.name && !responses[j].value.done
  }

  /** What the loop does: no poll when the returned operation is already
      done; otherwise the first poll asks for that operation and each later
      one for the operation the previous poll returned, none of which was
      done; it stops at the first done operation or the first failure. */
  lemma {:induction false} PollShape(op: Operation, responses: seq<Result<Operation>>)
    ensures var end, polled := PollSpec(op, responses).0, PollSpec(op, responses).1;
      && |polled| <= |responses|
      && (polled == [] <==> op.done || responses == [])
      && (op.done ==> end == Finished(op))
      && (polled != [] ==> polled[0] == op.name)
      && Chained(responses, polled)
      && (end.Finished? ==> end.op.done && (polled != [] ==> responses[|polled| - 1] == Ok(end.op)))
      && (end.PollFailed? ==> polled != [] && responses[|polled| - 1] == Err(end.failure))
      && (end.Unfinished? ==> |polled| == |responses| && !end.last.done)
    decreases |responses|
  {
    PollChain(op, responses);
    if !op.done && responses != [] {
      match responses[0] {
        case Ok(next) =>
          PollShape(next, responses[1..]);
        case Err(f) =>
      }
    }
  }

  /** The chain of polled names, on its own. */
  lemma {:induction false} PollChain(op: Operation, responses: seq<Result<Operation>>)
    ensures PollSpec(op, responses).1 != [] ==> PollSpec(op, responses).1[0] == op.name && !op.done
    ensures Chained(responses, PollSpec(op, responses).1)
    decreases |responses|
  {
    if !op.done && responses != [] {
      match responses[0] {
        case Ok(next) =>
          var tail := responses[1..];
          PollChain(next, tail);
          var rest := PollSpec(next, tail).1;
          var polled := PollSpec(op, responses).1;
          assert polled == [op.name] + rest;
          forall j | 0 <= j < |responses| && j + 1 < |polled|
            ensures responses[j].Ok? && polled[j + 1] == responses[j].value.name && !responses[j].value.done
          {
            assert polled[j + 1] == rest[j];
            if j == 0 {
              assert responses[0] == Ok(next) && rest[0] == next.name && !next.done;
            } else {
              assert tail[j - 1] == responses[j];
            }
          }
          assert Chained(responses, polled);
        case Err(f) =>
      }
    }
  }

  // ---------------------------------------------------------------------
  // Upload progress
  // ---------------------------------------------------------------------

  /** The `uploadProgress` state of `useUploadDocument`. */
  datatype Progress = Progress(uploading: bool, polling: bool, operationName: Option<string>, error: Option<string>)

  const Idle: Progress := Progress(false, false, None, None)
  const Starting: Progress := Progress(true, false, None, None)

  function PollingFor(name: string): Progress {
    Progress(false, true, Some(name), None)
  }

  function FailedWith(message: string): Progress {
    Progress(false, false, None, Some(message))
  }

  /** The two flags are never set together. */
  predicate Exclusive(p: Progress) {
    !(p.uploading && p.polling)
  }

  /** `uploading || polling`, which the upload dialog reads as "processing". */
  predicate Processing(p: Progress) {
    p.uploading || p.polling
  }

  /** A query-cache key. */
  type QueryKey = seq<string>

  function DocumentsKey(storeId: string): QueryKey {
    ["documents", storeId]
  }

  const StoresKey: QueryKey := ["stores"]

  /** What `upload` resolves to: the final operation, the error it rethrows,
      or, when the given poll responses ran out first, the last operation
      seen (the source would still be polling). */
  datatype UploadOutcome = Succeeded(op: Operation) | Threw(failure: Failure) | StillPolling(last: Operation)

  /** One run of `upload`: its outcome, every progress value it set, the
      cache keys it invalidated and the operation names it polled. */
  datatype UploadRun = UploadRun(outcome: UploadOutcome, progress: seq<Progress>, invalidated: seq<QueryKey>, polled: seq<string>)

  /** The error thrown for an operation finished with an error. */
  function OperationFailure(op: Operation): Failure
    requires op.error.Some?
  {
    ErrorObject(if op.error.value.message == "" then "Upload failed" else op.error.value.message)
  }

  /** `upload` given what the upload request returned and the poll responses. */
  function UploadSpec(storeId: string, uploaded: Result<Operation>, responses: seq<Result<Operation>>): UploadRun {
    match uploaded
    case Err(f) => UploadRun(Threw(f), [Starting, FailedWith(MessageOr(f, "Upload failed"))], [], [])
    case Ok(op) =>
      var poll := PollSpec(op, responses);
      match poll.0
      case PollFailed(f) =>
        UploadRun(Threw(f), [Starting, PollingFor(op.name), FailedWith(MessageOr(f, "Upload failed"))], [], poll.1)
      case Unfinished(last) =>
        UploadRun(StillPolling(last), [Starting, PollingFor(op.name)], [], poll.1)
      case Finished(final) =>
        if final.error.Some? then
          UploadRun(Threw(OperationFailure(final)),
                    [Starting, PollingFor(op.name), FailedWith(OperationFailure(final).message)], [], poll.1)
        else
          UploadRun(Succeeded(final), [Starting, PollingFor(op.name), Idle], [DocumentsKey(storeId), StoresKey], poll.1)
  }

  /** The progress an upload goes through: it starts uploading; once the
      operation is returned it is polling under that operation's name; the
      flags are never both set; it ends idle with the documents and stores
      caches refreshed on success, and with the error message and nothing
      refreshed on failure. */
  lemma UploadProgressShape(storeId: string, uploaded: Result<Operation>, responses: seq<Result<Operation>>)
    ensures var run := UploadSpec(storeId, uploaded, responses);
      && |run.progress| >= 2
      && run.progress[0] == Starting
      && (uploaded.Ok? ==> run.progress[1] == PollingFor(uploaded.value.name))
      && (forall i :: 0 <= i < |run.progress| ==> Exclusive(run.progress[i]))
      && (run.outcome.Succeeded? ==>
            && run.progress[|run.progress| - 1] == Idle
            && run.invalidated == [DocumentsKey(storeId), StoresKey]
            && run.outcome.op.done && run.outcome.op.error.None?)
      && (run.outcome.Threw? ==>
            && run.progress[|run.progress| - 1] == FailedWith(MessageOr(run.outcome.failure, "Upload failed"))
            && run.invalidated == [])
      && (run.outcome.StillPolling? ==> Processing(run.progress[|run.progress| - 1]) && run.invalidated == [])
  {
    if uploaded.Ok? {
      PollShape(uploaded.value, responses);
    }
  }

  /** An operation that finishes with an error fails with its message, or
      "Upload failed" when that message is empty. */
  lemma OperationErrorMessage(storeId: string, op: Operation, responses: seq<Result<Operation>>)
    requires PollSpec(op, responses).0.Finished?
    requires PollSpec(op, responses).0.op.error.Some?
    ensures var e := PollSpec(op, responses).0.op.error.value;
      UploadSpec(storeId, Ok(op), responses).outcome ==
        Threw(ErrorObject(if e.message == "" then "Upload failed" else e.message))
  {
  }

  /** While an upload runs, every progress value but the last one it sets
      is "processing"; the last one is so only if polling never finished. */
  lemma ProcessingUntilSettled(storeId: string, uploaded: Result<Operation>, responses: seq<Result<Operation>>)
    ensures var run := UploadSpec(storeId, uploaded, responses);
      && (forall i :: 0 <= i < |run.progress| - 1 ==> Processing(run.progress[i]))
      && (Processing(run.progress[|run.progress| - 1]) <==> run.outcome.StillPolling?)
  {
  }

  /** Example: two polls that are not done, then one done with error 13. */
  lemma CorruptFileExample(storeId: string)
    ensures var op := Operation("operations/u1", false, None);
      var responses := [Ok(Operation("operations/u1", false, None)),
                        Ok(Operation("operations/u1", false, None)),
                        Ok(Operation("operations/u1", true, Some(OperationError(13, "corrupt file"))))];
      var run := UploadSpec(storeId, Ok(op), responses);
      && run.outcome == Threw(ErrorObject("corrupt file"))
      && run.progress[|run.progress| - 1] == FailedWith("corrupt file")
      && run.invalidated == []
      && run.polled == ["operations/u1", "operations/u1", "operations/u1"]
  {
    var op := Operation("operations/u1", false, None);
    var done := Operation("operations/u1", true, Some(OperationError(13, "corrupt file")));
    var responses := [Ok(op), Ok(op), Ok(done)];
    assert responses[1..] == [Ok(op), Ok(done)];
    assert responses[1..][1..] == [Ok(done)];
    assert [Ok(done)][1..] == [];
    assert PollSpec(done, []).0 == Finished(done) && PollSpec(done, []).1 == [];
    assert PollSpec(op, [Ok(done)]).0 == Finished(done);
    assert PollSpec(op, [Ok(done)]).1 == [op.name];
    assert PollSpec(op, [Ok(op), Ok(done)]).1 == [op.name, op.name];
  }

  /** Tracks the progress of document uploads; `trace` records every value
      given to `setUploadProgress`, `invalidated` every cache refresh,
      `requests` the upload forms sent and `polled` the operations polled. */
  class UploadTracker {
    var progress: Progress
    var trace: seq<Progress>
    var invalidated: seq<QueryKey>
    var requests: seq<(string, seq<FormEntry>)>
    var polled: seq<string>

    ghost predicate Valid()
      reads this
    {
      Exclusive(progress) && forall i :: 0 <= i < |trace| ==> Exclusive(trace[i])
    }

    constructor ()
      ensures Valid()
      ensures progress == Idle && trace == [] && invalidated == [] && requests == [] && polled == []
    {
      progress := Idle;
      trace := [];
      invalidated := [];
      requests := [];
      polled := [];
    }

    /** `setUploadProgress` */
    method SetProgress(p: Progress)
      requires Valid() && Exclusive(p)
      modifies this
      ensures Valid()
      ensures progress == p && trace == old(trace) + [p]
      ensures invalidated == old(invalidated) && requests == old(requests) && polled == old(polled)
    {
      progress := p;
      trace := trace + [p];
    }

    /** `upload`: `uploaded` is what the upload request returned (or the
        error it raised) and `responses` the successive poll responses. */
    method Upload(storeId: string, file: File, config: Option<UploadConfig>,
                  uploaded: Result<Operation>, responses: seq<Result<Operation>>) returns (outcome: UploadOutcome)
      requires Valid()
      modifies this
      ensures Valid()
      ensures var run := UploadSpec(storeId, uploaded, responses);
        && outcome == run.outcome
        && trace == old(trace) + run.progress
        && progress == run.progress[|run.progress| - 1]
        && invalidated == old(invalidated) + run.invalidated
        && requests == old(requests) + [(storeId, UploadForm(file, config))]
        && polled == old(polled) + run.polled
    {
      SetProgress(Starting);
      requests := requests + [(storeId, UploadForm(file, config))];
      match uploaded {
        case Err(f) =>
          SetProgress(FailedWith(MessageOr(f, "Upload failed")));
          return Threw(f);
        case Ok(op) =>
          SetProgress(PollingFor(op.name));
          var end, names := PollUntilDone(op, responses);
          polled := polled + names;
          match end {
            case PollFailed(f) =>
              SetProgress(FailedWith(MessageOr(f, "Upload failed")));
              outcome := Threw(f);
            case Unfinished(last) =>
              outcome := StillPolling(last);
            case Finished(final) =>
              if final.error.Some? {
                var failure := OperationFailure(final);
                SetProgress(FailedWith(failure.message));
                outcome := Threw(failure);
              } else {
                SetProgress(Idle);
                invalidated := invalidated + [DocumentsKey(storeId), StoresKey];
                outcome := Succeeded(final);
              }
          }
      }
    }

    /** `reset`: back to idle, clearing any error and operation name. */
    method Reset()
      requires Valid()
      modifies this
      ensures Valid()
      ensures progress == Idle && trace == old(trace) + [Idle]
      ensures invalidated == old(invalidated) && requests == old(requests) && polled == old(polled)
    {
      SetProgress(Idle);
    }
  }

  // ---------------------------------------------------------------------
  // Deleting a document
  // ---------------------------------------------------------------------

  /** The cache keys `useDeleteDocument` invalidates once the delete request
      settles: the store's document list and the store list after success,
      nothing after failure. */
  function DeleteInvalidations(storeId: string, deleted: Result<()>): (keys: seq<QueryKey>)
    ensures deleted.Ok? ==> keys == [DocumentsKey(storeId), StoresKey]
    ensures deleted.Err? ==> keys == []
  {
    if deleted.Ok? then [DocumentsKey(storeId), StoresKey] else []
  }
}
