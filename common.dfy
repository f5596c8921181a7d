/** Shared values of the console: the records of lib/types.ts, the optional
    values and thrown errors of JavaScript, and its truthiness tests. */
module Common {

  /** An optional field or value; `None` is JavaScript's `undefined`. */
  datatype Option<+T> = None | Some(value: T)

  /** What a `catch` clause receives: an `Error` object with its message, or
      any other thrown value. */
  datatype Failure = ErrorObject(message: string) | OtherThrown

  /** The outcome of an awaited call that may throw. */
  datatype Result<+T> = Ok(value: T) | Err(failure: Failure)

  /** A `sonner` notification: `toast.success` or `toast.error` with its text. */
  datatype Toast = SuccessToast(text: string) | ErrorToast(text: string)

  /** `error instanceof Error ? error.message : fallback` */
  function MessageOr(f: Failure, fallback: string): (m: string)
    ensures f.ErrorObject? ==> m == f.message
    ensures f.OtherThrown? ==> m == fallback
  {
    match f
    case ErrorObject(message) => message
    case OtherThrown => fallback
  }

  /** JavaScript truthiness of an optional string: defined and not "". */
  predicate Truthy(s: Option<string>) {
    s.Some? && s.value != ""
  }

  /** JavaScript truthiness of an optional integer: defined and not 0. */
  predicate TruthyInt(n: Option<int>) {
    n.Some? && n.value != 0
  }

  /** A custom metadata entry of a document (lib/types.ts). Numbers are
      modelled as integers. */
  datatype CustomMetadata = CustomMetadata(key: string, stringValue: Option<string>, numericValue: Option<int>)

  datatype RetrievedContext = RetrievedContext(uri: Option<string>, title: Option<string>, text: Option<string>)

  /** One grounding source; a citation of an assistant turn. */
  datatype GroundingChunk = GroundingChunk(retrievedContext: Option<RetrievedContext>)

  datatype Segment = Segment(startIndex: Option<int>, endIndex: Option<int>, text: Option<string>)

  /** A grounding support; its floating-point confidence scores are not modelled. */
  datatype GroundingSupport = GroundingSupport(segment: Option<Segment>, groundingChunkIndices: Option<seq<int>>)

  datatype GroundingMetadata = GroundingMetadata(
    groundingChunks: Option<seq<GroundingChunk>>,
    groundingSupports: Option<seq<GroundingSupport>>)

  datatype OperationError = OperationError(code: int, message: string)

  /** A long-running operation handle. An absent `done` is `false`; the
      opaque `metadata` and `response` records are not modelled. */
  datatype Operation = Operation(name: string, done: bool, error: Option<OperationError>)

  datatype ChunkingConfig = ChunkingConfig(maxTokensPerChunk: Option<int>, maxOverlapTokens: Option<int>)

  datatype UploadConfig = UploadConfig(
    displayName: Option<string>,
    chunkingConfig: Option<ChunkingConfig>,
    customMetadata: Option<seq<CustomMetadata>>)

  /** A transcript turn; the role is "user" or "assistant" on the client,
      but any string can arrive in a request body. */
  datatype ChatMessage = ChatMessage(role: string, content: string, citations: Option<seq<GroundingChunk>>)

  /** The body of a chat request as parsed from JSON. */
  datatype ChatRequest = ChatRequest(
    storeId: Option<string>,
    messages: Option<seq<ChatMessage>>,
    model: Option<string>,
    metadataFilter: Option<string>)

  datatype ChatResponse = ChatResponse(message: ChatMessage, groundingMetadata: Option<GroundingMetadata>)

  /** A file picked by the user; its bytes are not modelled. */
  datatype File = File(name: string, mimeType: string, size: nat)

  datatype FileSearchStore = FileSearchStore(
    name: string,
    displayName: Option<string>,
    activeDocumentsCount: Option<string>,
    pendingDocumentsCount: Option<string>,
    failedDocumentsCount: Option<string>,
    sizeBytes: Option<string>)

  datatype FileSearchDocument = FileSearchDocument(
    name: string,
    displayName: Option<string>,
    customMetadata: Option<seq<CustomMetadata>>,
    state: Option<string>,
    sizeBytes: Option<string>,
    mimeType: Option<string>)
}
