# Gemini file-search console: a verified model of its core logic

This project models the sequential logic of a Next.js console for Gemini
file-search stores. The console uploads documents into a store, lists them,
and offers a chat playground that answers from the store. The model is split
into one Dafny module per source file:

- `ChatRoute` (`chat_route.dfy`) models the chat endpoint. It validates the
  request and maps the transcript to generation contents. It builds the
  store-scoped `fileSearch` tool, and turns the remote chunk stream into
  server-sent-event records framed as `data: <json>` plus a blank line. Text
  records keep arrival order, the last grounding metadata wins, and exactly one
  `done` or `error` record closes the stream. The stream loop is a method
  proved against a specification function.
- `ChatPlayground` (`chat_playground.dfy`) models the playground's transcript
  state machine: the submit guard, the optimistic user turn, the reply, the
  exact rollback on failure, and clearing. There is a pure transition model and
  a `Playground` class whose methods are proved against it.
- `UseDocuments` (`use_documents.dfy`) models the upload hook. It covers:
  - the optional fields of the upload form;
  - the poll-until-done loop, a method proved against `PollSpec`;
  - the `{uploading, polling, operationName, error}` progress machine, as the
    `UploadTracker` class;
  - the cache keys refreshed after an upload or a delete.
- `MetadataEditor` (`metadata_editor.dfy`) models the conversion between
  metadata entries and editor rows, the row edits, and the resync guard. The
  list edits are methods of the `Editor` class.
- `UploadDialog` (`upload_dialog.dfy`) models the upload dialog:
  - the file choice and display-name defaulting;
  - the configuration sent;
  - settling on the upload's outcome;
  - the rule that the dialog cannot be opened or closed while processing.
- `DocumentList`, `StoreCard` and `ChunkingForm` model the display
  derivations: ids from resource names, status captions, badge truncation,
  count totals and badges, size captions, and the chunking fields. `Sizes`
  holds the size caption that the document table and the store cards share.
- `Common` holds the shared records, optional values and thrown errors.
  `Strings` holds JavaScript's `trim`, `split("/").pop()`, `parseInt(s, 10)`
  and integer-to-text conversion, with the facts the other modules rely on.

Remote services and I/O become parameters:
- the generation stream is a finite sequence of chunks and how it ended;
- the operation polls are a finite sequence of responses;
- request outcomes are `Result` values;
- JSON serialisation is an opaque function `toJson`.

An `Option<int>` result of `None` stands for JavaScript's NaN.

The handlers are asynchronous. The chat playground's submit is split at its
`await`, into `Submit` and `Settle`. The upload runs as one step over the
responses it will receive. A finite response sequence that ends before the
operation is done gives the outcome `StillPolling`, where the source would
still be polling.

The batch client in hooks/use-chat.ts reads the chat endpoint's reply as
one JSON document. `ChatRoute.Post`, however, replies with an event stream
on success. hooks/use-chat.ts is not part of this model.

## Model

| member | source | states |
|---|---|---|
| Common.MessageOr | app/api/chat/route.ts:96-97 | An `Error` gives its own message; any other thrown value gives the fallback text. |
| Strings.TrimSpec | components/chat-playground.tsx:49 | The result is the contiguous middle of the input. It neither starts nor ends with white space. It is empty exactly when the input is all white space, and everything dropped is white space. |
| Strings.LastSegment | components/document-list.tsx:52 | The result is a suffix with no '/'. When it is shorter than the input, a '/' stands right before it. |
| Strings.LastSegmentOrWhole | components/document-list.tsx:52 | A name without '/' and a name ending in '/' are returned whole. A name with a '/' that does not end in one gives the non-empty, '/'-free text after its last '/', which is `LastSegment`. |
| Strings.LastSegmentOfPath | components/document-list.tsx:50-53 | For an id without '/', the last segment of prefix + "/" + id is the id. |
| Strings.ParseInt | components/store-card.tsx:45 | NaN exactly when no digits follow the white space and an optional sign. A string of digits reads as its decimal value. |
| Strings.NatToDigits | components/metadata-editor.tsx:32 | Non-empty decimal digits whose value is the number; a leading '0' occurs only in "0" itself. |
| Strings.IntToString | components/metadata-editor.tsx:32 | The canonical decimal text of `String(n)`. A negative number is '-' followed by the digits of its magnitude, with no leading zero. Otherwise it is the number's digits, with a leading '0' only in "0". |
| Strings.ParseIntOfIntToString | components/metadata-editor.tsx:32 | `parseInt` reads the decimal text of every integer back as that integer. |
| ChatRoute.Contents | app/api/chat/route.ts:28-31 | One content per message, in order. Its only part is the message text. "user" stays "user", and every other role becomes "model". |
| ChatRoute.ToolConfig | app/api/chat/route.ts:25-39 | The store names are exactly "fileSearchStores/" + storeId. The metadata filter is present exactly when it is given and non-empty. |
| ChatRoute.Prepare | app/api/chat/route.ts:9-39 | A missing or empty store id gives 400 "storeId is required", before the messages are checked. Missing or empty messages give 400 "messages are required". Otherwise the request carries the mapped contents, the tool config and the model, "gemini-2.5-flash" by default. |
| ChatRoute.PartEventsAreText | app/api/chat/route.ts:66-74 | Every event produced from a part list is a non-empty text event. |
| ChatRoute.TextEventsAreText | app/api/chat/route.ts:61-74 | The chunk loop emits only text events, and none of them has empty text. |
| ChatRoute.RunStream | app/api/chat/route.ts:57-104 | The nested chunk/part loop with its reassigned metadata emits exactly `StreamEvents`: the text events, then the one terminal record. |
| ChatRoute.PartEventsExactly | app/api/chat/route.ts:66-74 | One text event per part with non-empty text, in part order. The part at index k gives the event at the position equal to the number of emitting parts before it. |
| ChatRoute.PartEventsAppend | app/api/chat/route.ts:66-74 | The events of two part lists read in sequence are the events of the first followed by those of the second. |
| ChatRoute.TextEventsFlatten | app/api/chat/route.ts:61-74 | The stream's text events are those of the first candidates' parts, taken in arrival order. |
| ChatRoute.TextEventsAppend | app/api/chat/route.ts:61-74 | Reading more chunks only extends the text already emitted. |
| ChatRoute.TextEventsSnoc | app/api/chat/route.ts:61-74 | One more chunk appends exactly its first candidate's text events. |
| ChatRoute.LastGroundingIsLatest | app/api/chat/route.ts:59-81 | The retained metadata is absent exactly when no chunk carried any. Otherwise it is that of the last chunk carrying some. |
| ChatRoute.MetadataStep | app/api/chat/route.ts:77-81 | A chunk without metadata keeps what was retained; a chunk with metadata replaces it. |
| ChatRoute.ExactlyOneTerminal | app/api/chat/route.ts:84-104 | The stream ends in exactly one terminal record, after all text events. On completion it is `done`, with citations equal to the retained metadata's chunks. On failure it is `error`, with the error message or "Stream error", and no `done` is emitted. |
| ChatRoute.FailureKeepsText | app/api/chat/route.ts:95-104 | A failed stream keeps every text event that was already emitted, the same as a completed one would. |
| ChatRoute.ExampleStream | app/api/chat/route.ts:61-94 | Two text chunks, metadata on the second: two text events, then `done` with that metadata and its chunks. |
| ChatRoute.Frame | app/api/chat/route.ts:68-72 | A record is "data: ", then the payload, then "\n\n". |
| ChatRoute.Payloads | app/api/chat/route.ts:87-101 | One JSON payload per event, in order. |
| ChatRoute.UnframeFrameAll | app/api/chat/route.ts:68-101 | Records whose payloads contain no newline split back into exactly those payloads. |
| ChatRoute.UnframeRecord | app/api/chat/route.ts:68-72 | One record is read off the front of a body, leaving the rest. |
| ChatRoute.Post | app/api/chat/route.ts:5-124 | The remote call is made exactly for a valid request. A body that cannot be parsed, or a failure before the stream exists, gives 500 with its message or "Failed to generate response". An invalid request gives its 400. Otherwise the reply is the framed JSON of the stream's events. |
| ChatRoute.PostStreamReadsBack | app/api/chat/route.ts:56-114 | A streamed reply splits back into the JSON of exactly the stream's events, in order. |
| ChatPlayground.Submit | components/chat-playground.tsx:47-66 | A no-op when the trimmed input is empty or a request is pending. Otherwise the trimmed user turn is appended and the input is cleared. The request carries the new transcript, with the filter only when it is non-empty. |
| ChatPlayground.Settle | components/chat-playground.tsx:60-75 | On success the reply follows the transcript that was sent. On failure, the transcript from before the submit is restored and one error notice is added. The input is not restored, and the store id, model and filter are kept. |
| ChatPlayground.Clear | components/chat-playground.tsx:78-80 | The transcript becomes empty, whatever it held, and nothing else changes. |
| ChatPlayground.ClearButtonVisibility | components/chat-playground.tsx:100-176 | The clear button shows after a submitted turn and is gone after clearing. No user turn of the submitted transcript shows citations, and a successful assistant reply carrying citations shows them as the last turn. |
| ChatPlayground.SendDisabledIsGuard | components/chat-playground.tsx:217 | The send button is disabled exactly when the submit guard refuses, and submitting then changes nothing. |
| ChatPlayground.SubmitThenSuccess | components/chat-playground.tsx:51-68 | A successful turn gives the old transcript, then the user turn, then the reply. |
| ChatPlayground.SubmitThenFailure | components/chat-playground.tsx:51-75 | A failed turn restores the transcript exactly, leaves the input empty and adds one notice. |
| ChatPlayground.SubmitWhilePending | components/chat-playground.tsx:49 | While a request is pending, submitting changes nothing. |
| ChatPlayground.ClearWhilePending | components/chat-playground.tsx:68-80 | Clearing while a request is pending does not stick: the settle step writes back the transcript it captured. |
| ChatPlayground.SubmittedRequestIsValid | components/chat-playground.tsx:61-66 | A request the playground sends for a store passes the endpoint's validation. Its contents end with the user's trimmed text. |
| ChatPlayground.Playground.constructor | components/chat-playground.tsx:34-37 | Empty transcript and input, the default model, and an empty filter. |
| ChatPlayground.Playground.Edit | components/chat-playground.tsx:88-205 | Only the input, model and filter fields change. |
| ChatPlayground.Playground.HandleSubmit | components/chat-playground.tsx:47-66 | The new state and the request sent are those of `Submit`. |
| ChatPlayground.Playground.ReplyArrived | components/chat-playground.tsx:67-75 | The new state is that of `Settle` for the outcome. |
| ChatPlayground.Playground.ClearChat | components/chat-playground.tsx:78-80 | The new state is that of `Clear`. |
| UseDocuments.UploadForm | hooks/use-documents.ts:54-65 | The file always comes first. The display name appears only when non-empty; the chunking config and the metadata whenever present, even an empty list. No field appears twice. |
| UseDocuments.UploadFormOrder | hooks/use-documents.ts:54-65 | The fields come in the order they are appended: file, display name, chunking config, metadata. |
| UseDocuments.PollUntilDone | hooks/use-documents.ts:146-150 | The loop's result and the names it polled are exactly those of `PollSpec`. |
| UseDocuments.PollShape | hooks/use-documents.ts:146-150 | No poll happens for an operation that is already done. The first poll asks for the returned operation. Each later poll asks for the operation the previous poll returned, and none of those was done. The loop stops at the first done operation or the first failure. |
| UseDocuments.UploadProgressShape | hooks/use-documents.ts:135-166 | Progress starts as uploading, then polls under the operation's name, and the flags are never both set. Success ends idle, invalidating ["documents", storeId] then ["stores"]. Failure ends with the error message and nothing invalidated. |
| UseDocuments.OperationErrorMessage | hooks/use-documents.ts:152-154 | A done operation with an error fails with that error's message, or "Upload failed" when the message is empty. |
| UseDocuments.ProcessingUntilSettled | hooks/use-documents.ts:135-166 | Every progress value but the last is "processing". The last is "processing" only when polling has not finished. |
| UseDocuments.CorruptFileExample | hooks/use-documents.ts:146-166 | Two unfinished polls, then one done with "corrupt file": the upload fails with that message after three polls, and nothing is invalidated. |
| UseDocuments.UploadTracker.constructor | hooks/use-documents.ts:118-123 | The progress starts idle, with nothing recorded. |
| UseDocuments.UploadTracker.SetProgress | hooks/use-documents.ts:118-123 | Sets the progress and records it, changing nothing else. |
| UseDocuments.UploadTracker.Upload | hooks/use-documents.ts:125-169 | Sends `UploadForm`. Records exactly the progress values, polls and invalidations of `UploadSpec`, and returns its outcome. The flags stay exclusive. |
| UseDocuments.UploadTracker.Reset | hooks/use-documents.ts:171-173 | The progress becomes idle, clearing any error and operation name. |
| UseDocuments.DeleteInvalidations | hooks/use-documents.ts:107-112 | A successful delete invalidates exactly ["documents", storeId] and ["stores"]; a failed one invalidates nothing. |
| MetadataEditor.HasKeyIsTrimTest | components/metadata-editor.tsx:39 | A row is kept exactly when its trimmed key is non-empty. |
| MetadataEditor.ToRow | components/metadata-editor.tsx:30-34 | The key is kept. The type is number exactly when a numeric value is present. The value is the string value, else `IntToString` of the number (which parses back to it), else "". |
| MetadataEditor.ToMetadataRows | components/metadata-editor.tsx:29-35 | One row per entry, in order. |
| MetadataEditor.ToEntry | components/metadata-editor.tsx:40-45 | A string row gives {key, stringValue: value}. A number row gives {key, numericValue} holding the number its text starts with, or 0. |
| MetadataEditor.EntriesWellFormed | components/metadata-editor.tsx:37-46 | One entry per row with a non-blank key. Every entry has a non-blank key and exactly one value. |
| MetadataEditor.AllRowsKept | components/metadata-editor.tsx:37-46 | When every row has a key, each row gives the entry at its own index. |
| MetadataEditor.NoRowsKept | components/metadata-editor.tsx:38-39 | Rows whose keys are all blank give no entries. |
| MetadataEditor.ToCustomMetadataAppend | components/metadata-editor.tsx:37-46 | Dropping blank rows and mapping the rest preserves order: the conversion distributes over concatenation. |
| MetadataEditor.RowsRoundTrip | components/metadata-editor.tsx:29-46 | Entries with a non-blank key and exactly one value survive the round trip through rows unchanged. This covers string and numeric entries alike. |
| MetadataEditor.EmittedIsStable | components/metadata-editor.tsx:51-63 | A value the editor emits, when passed back in, converts to the same value again. |
| MetadataEditor.Merge | components/metadata-editor.tsx:61 | Every field given in the update replaces the row's own; the others are kept. |
| MetadataEditor.RemoveAt | components/metadata-editor.tsx:71 | Drops exactly the row at the index and keeps the order of the others. An index with no row changes nothing. |
| MetadataEditor.RemoveAtEntries | components/metadata-editor.tsx:70-74 | Removing a row drops exactly that row's entry, if it had one. |
| MetadataEditor.AddedRowInvisible | components/metadata-editor.tsx:66-68 | An added blank row does not change the entries. |
| MetadataEditor.AddedRowHoldsOffResync | components/metadata-editor.tsx:51-57 | After a row is added, the rows hold a blank key, so incoming values are ignored. |
| MetadataEditor.Editor.constructor | components/metadata-editor.tsx:49 | The rows are those of the initial value. |
| MetadataEditor.Editor.ValueChanged | components/metadata-editor.tsx:51-57 | The incoming value replaces the rows exactly when no current row has a blank key. |
| MetadataEditor.Editor.UpdateRow | components/metadata-editor.tsx:59-64 | Only row i changes, by merging the update into it, and the entries of the new rows are emitted. |
| MetadataEditor.Editor.AddRow | components/metadata-editor.tsx:66-68 | One blank string row is appended and nothing is emitted. |
| MetadataEditor.Editor.RemoveRow | components/metadata-editor.tsx:70-74 | The row at the index is removed, and the entries of the remaining rows are emitted. |
| UploadDialog.Cleared | components/upload-dialog.tsx:45-51 | File, name, chunking config and metadata are cleared; the rest is kept. |
| UploadDialog.ChooseFile | components/upload-dialog.tsx:53-83 | No file means no change. Otherwise the first file is taken, and it names the document only when the name is empty. |
| UploadDialog.TypedNameKept | components/upload-dialog.tsx:59-61 | A typed name is never replaced by choosing a file. |
| UploadDialog.SubmitConfig | components/upload-dialog.tsx:93-100 | The display name is the typed name, or else the file's name. The chunking config is sent only when one of its fields is non-zero; the metadata only when there is some. |
| UploadDialog.SubmittedFormFields | components/upload-dialog.tsx:89-101 | The posted form has the file and a display name unless both names are empty. The chunking config is included exactly when a field is set; the metadata exactly when non-empty. |
| UploadDialog.OpenChange | components/upload-dialog.tsx:115-124 | Ignored while processing. Otherwise the dialog opens, or closes with the form cleared and the hook reset. |
| UploadDialog.Settled | components/upload-dialog.tsx:102-109 | Success shows the success notice, clears the form and closes the dialog. Failure shows its message, or "Failed to upload document", and keeps the form. |
| UploadDialog.SubmitLabel | components/upload-dialog.tsx:240-244 | "Uploading..." while uploading, "Processing..." while polling, "Upload" otherwise. |
| UploadDialog.GuardedWhileUploading | components/upload-dialog.tsx:112-124 | At every progress value before the upload settles, open and close requests are ignored and submitting is disabled. Once it settles, the dialog responds again. |
| UploadDialog.FailureKeepsForm | components/upload-dialog.tsx:105-109 | After a failure, the file, name, config, metadata and open state are unchanged. |
| UploadDialog.Dialog.constructor | components/upload-dialog.tsx:36-43 | Closed, an empty form, and an idle hook. |
| UploadDialog.Dialog.Drop | components/upload-dialog.tsx:53-63 | Dragging stops, and the dropped files are chosen as `ChooseFile` says. |
| UploadDialog.Dialog.DragOver | components/upload-dialog.tsx:65-68 | Only the dragging flag is set. |
| UploadDialog.Dialog.DragLeave | components/upload-dialog.tsx:70-73 | Only the dragging flag is cleared. |
| UploadDialog.Dialog.SelectFile | components/upload-dialog.tsx:75-83 | The picked files are chosen as `ChooseFile` says. |
| UploadDialog.Dialog.ClearFile | components/upload-dialog.tsx:164 | Only the file is removed; the name stays. |
| UploadDialog.Dialog.Edit | components/upload-dialog.tsx:196-222 | Only the name, chunking config and metadata change. |
| UploadDialog.Dialog.Cancel | components/upload-dialog.tsx:230-236 | Disabled while an upload is processing, so nothing changes then. Otherwise it closes the dialog without clearing the form. |
| UploadDialog.Dialog.OnOpenChange | components/upload-dialog.tsx:115-124 | The form follows `OpenChange`. The hook is reset exactly when a close is accepted. |
| UploadDialog.Dialog.HandleSubmit | components/upload-dialog.tsx:85-110 | Nothing happens while the submit button is disabled: without a file, or while an upload is processing. Otherwise the upload runs with `SubmitConfig`, the form follows `Settled`, and the hook is reset after success. |
| DocumentList.GetDocId | components/document-list.tsx:50-53 | A name without '/' is its own id. A name with a '/' that does not end in one gives the non-empty, '/'-free text after its last '/'. Any other result is the whole name. |
| DocumentList.DocIdOfName | components/document-list.tsx:50-53 | "fileSearchStores/<store>/documents/<id>" gives `<id>`. |
| DocumentList.StatusOf | components/document-list.tsx:55-95 | The three known states map to Active, Failed and Pending; anything else, absence included, to Unknown. |
| DocumentList.StatusIcon | components/document-list.tsx:55-66 | The check icon shows exactly for "STATE_ACTIVE", the cross exactly for "STATE_FAILED", the spinner exactly for "STATE_PENDING", and the clock for every other state. |
| DocumentList.StatusBadge | components/document-list.tsx:68-95 | The caption is "Active", "Failed" or "Pending" exactly for "STATE_ACTIVE", "STATE_FAILED" or "STATE_PENDING", and "Unknown" for every other state. |
| DocumentList.IconMatchesBadge | components/document-list.tsx:55-95 | Two states get the same icon exactly when they get the same badge. |
| DocumentList.DisplayName | components/document-list.tsx:148 | The display name when it is non-empty, else the document id. |
| DocumentList.BadgeValue | components/document-list.tsx:159 | A non-empty string value, else `IntToString` of the number, 0 included, which parses back to it, else nothing. |
| DocumentList.EntryBadges | components/document-list.tsx:152-161 | One badge per entry, in order, with its key and value. |
| DocumentList.MetadataBadges | components/document-list.tsx:150-169 | No metadata gives no badges. Up to three entries give their badges. More than three give the first three, then "+n more" with n = count - 3. |
| DocumentList.BadgesCountEntries | components/document-list.tsx:152-169 | The badges shown plus the "+n more" count account for every entry. The first badges are those of the first entries. |
| DocumentList.TypeLabel | components/document-list.tsx:181 | The text after the MIME type's last '/', or "—" when there is no type or that text is empty. |
| DocumentList.FormatBytes | components/document-list.tsx:30-38 | "—" exactly for a missing or empty size; otherwise the shared size caption. |
| DocumentList.RenderList | components/document-list.tsx:111-198 | The empty state exactly for no documents. Otherwise one row per document, in order. |
| DocumentList.DeleteTargetsOwnDocument | components/document-list.tsx:139-190 | Each row's delete button targets the id its document's name ends in. |
| DocumentList.DeleteSettled | components/document-list.tsx:100-109 | Success shows "Document deleted"; failure shows its message or "Failed to delete document". The caches refreshed are the delete mutation's. |
| Sizes.Exponent | components/document-list.tsx:36 | The unit index is the largest e with 1024^e not above the size. |
| Sizes.UnitName | components/document-list.tsx:35-37 | Exactly "B", "KB", "MB" and "GB" for indexes 0 to 3, and "undefined" from index 4 on. |
| Sizes.Scale | components/document-list.tsx:32-37 | "0 B" exactly for a size parsing to 0. NaN or a negative size gives "NaN undefined". Any other size is scaled. |
| Sizes.FixedText | components/document-list.tsx:31-37 | A missing size reads "—", zero reads "0 B", and an unreadable size reads "NaN undefined". Only a scaled caption has no fixed text. |
| Sizes.ScaleOfDigits | components/store-card.tsx:21-26 | A size written in digits is shown in the power of 1024 that fits it. The unit is undefined exactly from 1024^4 bytes on. |
| StoreCard.GetStoreId | components/store-card.tsx:38-41 | A name without '/' is its own id. A name with a '/' that does not end in one gives the non-empty, '/'-free text after its last '/'. Any other result is the whole name. |
| StoreCard.StoreIdRoundTrip | components/store-card.tsx:38-41 | The id read off "fileSearchStores/<id>" is the id that the chat endpoint turns back into that name. |
| StoreCard.Count | components/store-card.tsx:45-47 | A missing or empty count reads as 0; any other is parsed. |
| StoreCard.Sum | components/store-card.tsx:48 | The total is active + pending + failed, and NaN when any of them is. |
| StoreCard.BadgeRowShows | components/store-card.tsx:79-98 | Each count's badge shows exactly when that count is above 0, with that count. "Empty" shows exactly when the total is 0. |
| StoreCard.EmptyIffNoCountBadges | components/store-card.tsx:79-98 | With counts that are not negative, "Empty" is shown exactly when no count badge is, and then alone. |
| StoreCard.EmptyIffNoCounts | components/store-card.tsx:45-98 | For counts in digits or absent, the total is a number that is not negative, and "Empty" shows exactly when no count badge does. |
| StoreCard.CountOfDigits | components/store-card.tsx:45-47 | A count in digits, or absent, is a number that is not negative. |
| StoreCard.NegativeCountsShowEmpty | components/store-card.tsx:79-98 | Counts "1" and "-1" show both "1 active" and "Empty". |
| StoreCard.FormatBytes | components/store-card.tsx:19-27 | "0 B" for a missing or empty size, otherwise the shared size caption; never a dash. |
| StoreCard.Card | components/store-card.tsx:44-74 | The link is "/stores/" + id. The title is the display name, or else the id. The card also shows the id, the total, the size and the badges. |
| StoreCard.CardLinksToStore | components/store-card.tsx:51 | A store named "fileSearchStores/<id>" links to "/stores/<id>". |
| ChunkingForm.Displayed | components/chunking-config.tsx:24 | Empty exactly for an absent or zero field; otherwise `IntToString` of the field, which parses back to it. |
| ChunkingForm.Parsed | components/chunking-config.tsx:28-30 | An empty box gives an absent field; digits give their value. |
| ChunkingForm.EditMaxTokens | components/chunking-config.tsx:25-32 | Sets the max-tokens field from the text and keeps the overlap field. |
| ChunkingForm.EditMaxOverlap | components/chunking-config.tsx:46-53 | Sets the overlap field from the text and keeps the max-tokens field. |
| ChunkingForm.DisplayedReadsBack | components/chunking-config.tsx:24-31 | Reading back a shown value keeps every non-zero field and turns 0 into an absent one. |
| ChunkingForm.TypedNumberIsShown | components/chunking-config.tsx:24-53 | Typing the text of a non-zero number shows that same text again. |

## Left out

- The Gemini SDK calls and the `getAI` client in lib/gemini.ts are foreign services, so the chunk stream, the operations and request outcomes are inputs. lib/gemini.ts is not part of this model.
- `fetch`, `FormData`, HTTP headers, `ReadableStream` and `TextEncoder` are I/O plumbing. Bytes on the wire are modelled as characters, and the form as a list of named entries.
- JSON serialisation and parsing are opaque: `ChatRoute.Post` takes the serialiser as a parameter. The framing round trip is proved for payloads without a newline, which holds for JSON text.
- Timers and scheduling are left out: the 3000 ms poll delay and the 5 s document refetch. Only the order of the polls is modelled.
- React Query internals are left out. Invalidation is a recorded list of keys, and `isPending` is the presence of an in-flight request.
- UseDocuments.UploadTracker.Upload: the loop is unbounded in the source. Over a finite list of poll responses that runs out first, the model ends in `StillPolling` instead of waiting forever.
- Sizes.Scale: the scaled number (`toFixed(2)` and `parseFloat`) is floating point and is not modelled. The unit index is the exact integer floor of the base-1024 logarithm, not the rounded `Math.log` quotient.
- MetadataEditor.ToEntry: `parseFloat(value) || 0` is modelled by the integer prefix that `parseInt` reads. Fractions and exponents are not modelled, because numbers are integers here.
- ChunkingForm.Parsed: a NaN from `parseInt` is stored as an absent field. The two render and count the same; they differ only in the JSON text sent (`null` instead of an omitted key), which is opaque here.
- Strings.ParseInt: numbers are unbounded integers, so the precision loss of `parseInt` above 2^53 is not modelled.
- `formatDate` and `toLocaleDateString` are locale and clock dependent, and are not modelled.
- Confidence scores of grounding supports and the `metadata`/`response` records of operations are not modelled; the code here only passes them through.
- The client-side decoder of the event stream, cancellation and the streaming hook do not exist in the files modelled.
- The purely presentational and thin-wrapper files are not part of this model. These are the sidebar, mobile header and home page; the citation display; the create- and delete-store dialogs; hooks/use-stores.ts; hooks/use-chat.ts; and the store and operation API routes.
- Scrolling the transcript to the bottom and the loading spinners are rendering only.
