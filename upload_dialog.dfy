/** The upload dialog of components/upload-dialog.tsx: the form it holds,
    how a file is chosen, the configuration it sends, and how opening and
    closing are guarded while an upload is in progress. */
module UploadDialog {
  import opened Common
  import opened UseDocuments

  /** The dialog's state up to the upload hook it uses; `toasts` records
      the notifications it raised. */
  datatype DialogForm = DialogForm(
    open: bool,
    file: Option<File>,
    displayName: string,
    chunkingConfig: ChunkingConfig,
    customMetadata: seq<CustomMetadata>,
    dragging: bool,
    toasts: seq<Toast>)

  const EmptyChunking: ChunkingConfig := ChunkingConfig(None, None)

  const Initial: DialogForm := DialogForm(false, None, "", EmptyChunking, [], false, [])

  const UploadedText := "Document uploaded and processed successfully"

  /** `resetForm` on the dialog's own fields (it also resets the hook). */
  function Cleared(f: DialogForm): (r: DialogForm)
    ensures r.file.None? && r.displayName == "" && r.chunkingConfig == EmptyChunking && r.customMetadata == []
    ensures r.open == f.open && r.dragging == f.dragging && r.toasts == f.toasts
  {
    f.(file := None, displayName := "", chunkingConfig := EmptyChunking, customMetadata := [])
  }

  /** Choosing from a list of files (a drop or the file picker): the first
      file is taken and names the document unless a name was typed. */
  function ChooseFile(f: DialogForm, files: seq<File>): (r: DialogForm)
    ensures files == [] ==> r == f
    ensures files != [] ==>
              && r.file == Some(files[0])
              && r.displayName == (if f.displayName == "" then files[0].name else f.displayName)
              && r == f.(file := r.file, displayName := r.displayName)
  {
    if files == [] then f
    else f.(file := Some(files[0]), displayName := if f.displayName == "" then files[0].name else f.displayName)
  }

  /** A typed name is never replaced by choosing a file. */
  lemma TypedNameKept(f: DialogForm, files: seq<File>)
    requires f.displayName != ""
    ensures ChooseFile(f, files).displayName == f.displayName
  {
  }

  /** The configuration sent with the file. */
  function SubmitConfig(f: DialogForm, file: File): (c: UploadConfig)
    ensures c.displayName == Some(if f.displayName != "" then f.displayName else file.name)
    ensures c.chunkingConfig.Some? <==>
              TruthyInt(f.chunkingConfig.maxTokensPerChunk) || TruthyInt(f.chunkingConfig.maxOverlapTokens)
    ensures c.chunkingConfig.Some? ==> c.chunkingConfig.value == f.chunkingConfig
    ensures c.customMetadata.Some? <==> |f.customMetadata| > 0
    ensures c.customMetadata.Some? ==> c.customMetadata.value == f.customMetadata
  {
    UploadConfig(
      Some(if f.displayName != "" then f.displayName else file.name),
      if TruthyInt(f.chunkingConfig.maxTokensPerChunk) || TruthyInt(f.chunkingConfig.maxOverlapTokens)
      then Some(f.chunkingConfig) else None,
      if |f.customMetadata| > 0 then Some(f.customMetadata) else None)
  }

  /** The form the dialog's upload posts: the file; a display name unless
      both the typed name and the file name are empty; the chunking
      configuration only when one of its fields is set to a non-zero
      number; the metadata only when there is some. */
  lemma SubmittedFormFields(f: DialogForm, file: File)
    ensures var form := UploadForm(file, Some(SubmitConfig(f, file)));
      && form[0] == FormEntry("file", FileValue(file))
      && (Lookup(form, "displayName").Some? <==> f.displayName != "" || file.name != "")
      && (f.displayName != "" ==> Lookup(form, "displayName") == Some(TextValue(f.displayName)))
      && (Lookup(form, "chunkingConfig").Some? <==>
            TruthyInt(f.chunkingConfig.maxTokensPerChunk) || TruthyInt(f.chunkingConfig.maxOverlapTokens))
      && (Lookup(form, "customMetadata").Some? <==> |f.customMetadata| > 0)
  {
  }

  /** The dialog's handler for open and close requests: ignored while the
      upload is processing; otherwise the dialog opens or closes, and
      closing clears the form. The flag says whether the hook is reset. */
  function OpenChange(f: DialogForm, processing: bool, newOpen: bool): (r: (DialogForm, bool))
    ensures processing ==> r == (f, false)
    ensures !processing && newOpen ==> r == (f.(open := true), false)
    ensures !processing && !newOpen ==> r == (Cleared(f).(open := false), true)
  {
    if processing then (f, false)
    else if newOpen then (f.(open := true), false)
    else (Cleared(f).(open := false), true)
  }

  /** What the dialog does once the upload settles: on success a success
      notice, the form cleared and the dialog closed; on failure the error
      notice and the form kept as it was; while still polling, nothing yet. */
  function Settled(f: DialogForm, outcome: UploadOutcome): (r: DialogForm)
    ensures outcome.Succeeded? ==>
              r == Cleared(f).(open := false, toasts := f.toasts + [SuccessToast(UploadedText)])
    ensures outcome.Threw? ==>
              r == f.(toasts := f.toasts + [ErrorToast(MessageOr(outcome.failure, "Failed to upload document"))])
    ensures outcome.StillPolling? ==> r == f
  {
    match outcome
    case Succeeded(_) => Cleared(f).(open := false, toasts := f.toasts + [SuccessToast(UploadedText)])
    case Threw(failure) => f.(toasts := f.toasts + [ErrorToast(MessageOr(failure, "Failed to upload document"))])
    case StillPolling(_) => f
  }

  /** The submit button is disabled without a file or while processing. */
  predicate SubmitDisabled(f: DialogForm, p: Progress) {
    f.file.None? || Processing(p)
  }

  /** The submit button's caption. */
  function SubmitLabel(p: Progress): (s: string)
    ensures p.uploading ==> s == "Uploading..."
    ensures !p.uploading && p.polling ==> s == "Processing..."
    ensures !Processing(p) <==> s == "Upload"
  {
    if p.uploading then "Uploading..." else if p.polling then "Processing..." else "Upload"
  }

  /** Every progress value an upload passes through before it settles
      blocks closing, opening and submitting; once it has settled, the
      dialog responds again. */
  lemma GuardedWhileUploading(f: DialogForm, storeId: string, uploaded: Result<Operation>,
                              responses: seq<Result<Operation>>, newOpen: bool)
    ensures var run := UploadSpec(storeId, uploaded, responses);
      && (forall i :: 0 <= i < |run.progress| - 1 ==>
            OpenChange(f, Processing(run.progress[i]), newOpen) == (f, false) && SubmitDisabled(f, run.progress[i]))
      && (!run.outcome.StillPolling? ==>
            OpenChange(f, Processing(run.progress[|run.progress| - 1]), newOpen) == OpenChange(f, false, newOpen))
  {
    ProcessingUntilSettled(storeId, uploaded, responses);
  }

  /** A failed upload can be retried at once with the same form. */
  lemma FailureKeepsForm(f: DialogForm, failure: Failure)
    ensures var r := Settled(f, Threw(failure));
      r.file == f.file && r.displayName == f.displayName && r.chunkingConfig == f.chunkingConfig
      && r.customMetadata == f.customMetadata && r.open == f.open
  {
  }

  /** The dialog component; `tracker` is its upload hook. */
  class Dialog {
    const storeId: string
    const tracker: UploadTracker
    var open: bool
    var file: Option<File>
    var displayName: string
    var chunkingConfig: ChunkingConfig
    var customMetadata: seq<CustomMetadata>
    var dragging: bool
    var toasts: seq<Toast>

    function Form(): DialogForm
      reads this
    {
      DialogForm(open, file, displayName, chunkingConfig, customMetadata, dragging, toasts)
    }

    ghost predicate Valid()
      reads this, tracker
    {
      tracker.Valid()
    }

    /** `isProcessing` */
    predicate IsProcessing()
      reads this, tracker
    {
      Processing(tracker.progress)
    }

    constructor (storeId: string)
      ensures Valid() && fresh(tracker)
      ensures this.storeId == storeId && Form() == Initial && tracker.progress == Idle
    {
      this.storeId := storeId;
      tracker := new UploadTracker();
      open := false;
      file := None;
      displayName := "";
      chunkingConfig := EmptyChunking;
      customMetadata := [];
      dragging := false;
      toasts := [];
    }

    /** `handleDrop` */
    method Drop(files: seq<File>)
      modifies this
      ensures Form() == ChooseFile(old(Form()).(dragging := false), files)
    {
      dragging := false;
      if files != [] {
        file := Some(files[0]);
        if displayName == "" {
          displayName := files[0].name;
        }
      }
    }

    /** `handleDragOver` */
    method DragOver()
      modifies this
      ensures Form() == old(Form()).(dragging := true)
    {
      dragging := true;
    }

    /** `handleDragLeave` */
    method DragLeave()
      modifies this
      ensures Form() == old(Form()).(dragging := false)
    {
      dragging := false;
    }

    /** `handleFileSelect` */
    method SelectFile(files: seq<File>)
      modifies this
      ensures Form() == ChooseFile(old(Form()), files)
    {
      if files != [] {
        file := Some(files[0]);
        if displayName == "" {
          displayName := files[0].name;
        }
      }
    }

    /** The button that removes the chosen file; the name stays. */
    method ClearFile()
      modifies this
      ensures Form() == old(Form()).(file := None)
    {
      file := None;
    }

    /** The name box, the chunking form and the metadata editor. */
    method Edit(displayName: string, chunkingConfig: ChunkingConfig, customMetadata: seq<CustomMetadata>)
      modifies this
      ensures Form() == old(Form()).(displayName := displayName, chunkingConfig := chunkingConfig,
                                     customMetadata := customMetadata)
    {
      this.displayName := displayName;
      this.chunkingConfig := chunkingConfig;
      this.customMetadata := customMetadata;
    }

    /** The cancel button: disabled while processing; otherwise it closes
        the dialog without clearing the form. */
    method Cancel()
      modifies this
      ensures old(IsProcessing()) ==> Form() == old(Form())
      ensures !old(IsProcessing()) ==> Form() == old(Form()).(open := false)
    {
      if !IsProcessing() {
        open := false;
      }
    }

    /** The dialog's `onOpenChange`. */
    method OnOpenChange(newOpen: bool)
      requires Valid()
      modifies this, tracker
      ensures Valid()
      ensures var r := OpenChange(old(Form()), old(Processing(tracker.progress)), newOpen);
        && Form() == r.0
        && (r.1 ==> tracker.progress == Idle && tracker.trace == old(tracker.trace) + [Idle])
        && (!r.1 ==> tracker.progress == old(tracker.progress) && tracker.trace == old(tracker.trace))
        && tracker.invalidated == old(tracker.invalidated) && tracker.requests == old(tracker.requests)
        && tracker.polled == old(tracker.polled)
    {
      if !Processing(tracker.progress) {
        open := newOpen;
        if !newOpen {
          file := None;
          displayName := "";
          chunkingConfig := EmptyChunking;
          customMetadata := [];
          tracker.Reset();
        }
      }
    }

    /** The submit button, then `handleSubmit`: nothing while the button is
        disabled (no file, or an upload processing); otherwise the upload
        runs with `uploaded` and `responses` as what the server returns, and
        the dialog settles on its outcome (on success the hook is reset too). */
    method HandleSubmit(uploaded: Result<Operation>, responses: seq<Result<Operation>>)
      requires Valid()
      modifies this, tracker
      ensures Valid()
      ensures old(SubmitDisabled(Form(), tracker.progress)) ==>
                && Form() == old(Form()) && tracker.progress == old(tracker.progress)
                && tracker.trace == old(tracker.trace) && tracker.requests == old(tracker.requests)
                && tracker.invalidated == old(tracker.invalidated) && tracker.polled == old(tracker.polled)
      ensures !old(SubmitDisabled(Form(), tracker.progress)) ==>
        var run := UploadSpec(storeId, uploaded, responses);
        && Form() == Settled(old(Form()), run.outcome)
        && tracker.requests == old(tracker.requests) + [(storeId, UploadForm(old(file).value, Some(SubmitConfig(old(Form()), old(file).value))))]
        && tracker.trace == old(tracker.trace) + run.progress + (if run.outcome.Succeeded? then [Idle] else [])
        && tracker.progress == (if run.outcome.Succeeded? then Idle else run.progress[|run.progress| - 1])
        && tracker.invalidated == old(tracker.invalidated) + run.invalidated
        && tracker.polled == old(tracker.polled) + run.polled
    {
      if SubmitDisabled(Form(), tracker.progress) {
        return;
      }
      var chosen := file.value;
      var outcome := tracker.Upload(storeId, chosen, Some(SubmitConfig(Form(), chosen)), uploaded, responses);
      match outcome {
        case Succeeded(_) =>
          toasts := toasts + [SuccessToast(UploadedText)];
          file := None;
          displayName := "";
          chunkingConfig := EmptyChunking;
          customMetadata := [];
          tracker.Reset();
          open := false;
        case Threw(failure) =>
          toasts := toasts + [ErrorToast(MessageOr(failure, "Failed to upload document"))];
        case StillPolling(_) =>
      }
    }
  }
}
