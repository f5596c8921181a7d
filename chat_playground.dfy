/** The chat playground of components/chat-playground.tsx: the transcript,
    the input box and the one request in flight, in the batch variant that
    sends the transcript and appends the whole reply at once. */
module ChatPlayground {
  import opened Common
  import opened Strings
  import ChatRoute

  /** The parameters given to `chat.mutateAsync`. */
  datatype ChatParams = ChatParams(storeId: string, messages: seq<ChatMessage>, model: string, metadataFilter: Option<string>)

  /** What the submit handler holds while its request is in flight: the
      transcript it saw (`messages`) and the one it sent (`newMessages`). */
  datatype InFlight = InFlight(before: seq<ChatMessage>, sent: seq<ChatMessage>)

  /** The component's state; `inFlight` is present exactly while the chat
      mutation is pending, and `toasts` records the error notifications. */
  datatype Session = Session(
    storeId: string,
    messages: seq<ChatMessage>,
    input: string,
    model: string,
    metadataFilter: string,
    inFlight: Option<InFlight>,
    toasts: seq<string>)

  /** The guard of the submit handler. */
  predicate CanSubmit(s: Session) {
    Trim(s.input) != "" && s.inFlight.None?
  }

  /** The user turn built from the input box. */
  function UserTurn(input: string): ChatMessage {
    ChatMessage("user", Trim(input), None)
  }

  /** `handleSubmit` up to its `await`: a no-op unless the guard holds;
      otherwise the user turn is appended, the input cleared, and a request
      carrying the new transcript is started. */
  function Submit(s: Session): (r: (Session, Option<ChatParams>))
    ensures !CanSubmit(s) ==> r == (s, None)
    ensures CanSubmit(s) ==>
              && r.0.messages == s.messages + [UserTurn(s.input)]
              && r.0.input == ""
              && r.0.inFlight == Some(InFlight(s.messages, r.0.messages))
              && r.0 == s.(messages := r.0.messages, input := "", inFlight := r.0.inFlight)
              && r.1.Some?
              && r.1.value.messages == r.0.messages
              && r.1.value.storeId == s.storeId && r.1.value.model == s.model
              && (r.1.value.metadataFilter.Some? <==> s.metadataFilter != "")
              && (r.1.value.metadataFilter.Some? ==> r.1.value.metadataFilter.value == s.metadataFilter)
  {
    if !CanSubmit(s) then (s, None)
    else
      var newMessages := s.messages + [UserTurn(s.input)];
      var filter := if s.metadataFilter == "" then None else Some(s.metadataFilter);
      (s.(messages := newMessages, input := "", inFlight := Some(InFlight(s.messages, newMessages))),
       Some(ChatParams(s.storeId, newMessages, s.model, filter)))
  }

  /** `handleSubmit` after its `await`: on success the reply follows the
      transcript that was sent; on failure the transcript the handler saw is
      put back and the error goes to a notification. The input is left as it is. */
  function Settle(s: Session, outcome: Result<ChatResponse>): (r: Session)
    requires s.inFlight.Some?
    ensures r.inFlight.None? && r.input == s.input
    ensures r == s.(messages := r.messages, inFlight := None, toasts := r.toasts)
    ensures outcome.Ok? ==>
              r.messages == s.inFlight.value.sent + [outcome.value.message] && r.toasts == s.toasts
    ensures outcome.Err? ==>
              && r.messages == s.inFlight.value.before
              && r.toasts == s.toasts + [MessageOr(outcome.failure, "Failed to send message")]
  {
    match outcome
    case Ok(response) =>
      s.(messages := s.inFlight.value.sent + [response.message], inFlight := None)
    case Err(f) =>
      s.(messages := s.inFlight.value.before, inFlight := None,
         toasts := s.toasts + [MessageOr(f, "Failed to send message")])
  }

  /** `clearChat`: the transcript becomes empty, whatever it held. */
  function Clear(s: Session): (r: Session)
    ensures r.messages == [] && r == s.(messages := [])
  {
    s.(messages := [])
  }

  /** The clear button is rendered only for a non-empty transcript. */
  predicate ShowsClearButton(s: Session) {
    |s.messages| > 0
  }

  /** Citations are rendered only under assistant turns that carry them. */
  predicate ShowsCitations(m: ChatMessage) {
    m.role == "assistant" && m.citations.Some?
  }

  /** The clear button appears once a turn is submitted and is gone after
      clearing; no user turn shows citations, and a successful assistant
      reply that carries citations shows them as the last turn. */
  lemma ClearButtonVisibility(s: Session, response: ChatResponse)
    ensures CanSubmit(s) ==> ShowsClearButton(Submit(s).0)
    ensures !ShowsClearButton(Clear(s))
    ensures forall i :: 0 <= i < |Submit(s).0.messages| && Submit(s).0.messages[i].role == "user" ==>
              !ShowsCitations(Submit(s).0.messages[i])
    ensures s.inFlight.Some? && response.message.role == "assistant" && response.message.citations.Some? ==>
              var r := Settle(s, Ok(response));
              |r.messages| > 0 && ShowsCitations(r.messages[|r.messages| - 1])
  {
  }

  /** The send button is disabled exactly when the guard would refuse. */
  predicate SendDisabled(s: Session) {
    Trim(s.input) == "" || s.inFlight.Some?
  }

  lemma SendDisabledIsGuard(s: Session)
    ensures SendDisabled(s) <==> !CanSubmit(s)
    ensures SendDisabled(s) ==> Submit(s) == (s, None)
  {
  }

  /** A successful turn: the transcript is the old one, then the user turn,
      then the reply; the input stays cleared. */
  lemma SubmitThenSuccess(s: Session, response: ChatResponse)
    requires CanSubmit(s)
    ensures var r := Settle(Submit(s).0, Ok(response));
      r.messages == s.messages + [UserTurn(s.input), response.message] && r.input == "" && r.inFlight.None?
  {
  }

  /** A failed turn: the transcript is restored exactly, the user turn is
      gone, the input is not restored and one notification is added. */
  lemma SubmitThenFailure(s: Session, f: Failure)
    requires CanSubmit(s)
    ensures var r := Settle(Submit(s).0, Err(f));
      && r.messages == s.messages && r.input == "" && r.inFlight.None?
      && r.toasts == s.toasts + [MessageOr(f, "Failed to send message")]
  {
  }

  /** While a request is pending, submitting again changes nothing. */
  lemma SubmitWhilePending(s: Session)
    requires s.inFlight.Some?
    ensures Submit(s) == (s, None)
  {
  }

  /** Clearing while a request is in flight does not stick: the handler
      writes back the transcript it captured when the reply arrives. */
  lemma ClearWhilePending(s: Session, response: ChatResponse)
    requires CanSubmit(s)
    ensures Settle(Clear(Submit(s).0), Ok(response)).messages == s.messages + [UserTurn(s.input), response.message]
    ensures Settle(Clear(Submit(s).0), Err(OtherThrown)).messages == s.messages
  {
  }

  /** The request body posted to the chat endpoint. */
  function RequestBody(p: ChatParams): ChatRequest {
    ChatRequest(Some(p.storeId), Some(p.messages), Some(p.model), p.metadataFilter)
  }

  /** A request the playground starts for a store always passes the
      endpoint's validation, and its last content is the user's text. */
  lemma SubmittedRequestIsValid(s: Session)
    requires CanSubmit(s) && s.storeId != ""
    ensures var body := RequestBody(Submit(s).1.value);
      && ChatRoute.Prepare(body).Ready?
      && var cs := ChatRoute.Prepare(body).request.contents;
         |cs| == |s.messages| + 1 && cs[|cs| - 1] == ChatRoute.Content("user", [Trim(s.input)])
  {
    var body := RequestBody(Submit(s).1.value);
    var cs := ChatRoute.Prepare(body).request.contents;
    assert body.messages.value[|s.messages|] == UserTurn(s.input);
    assert cs[|s.messages|].parts == [Trim(s.input)];
  }

  /** The playground component: its state fields and its handlers. */
  class Playground {
    const storeId: string
    var messages: seq<ChatMessage>
    var input: string
    var model: string
    var metadataFilter: string
    var inFlight: Option<InFlight>
    var toasts: seq<string>

    function State(): Session
      reads this
    {
      Session(storeId, messages, input, model, metadataFilter, inFlight, toasts)
    }

    /** `chat.isPending` */
    predicate IsPending()
      reads this
    {
      inFlight.Some?
    }

    constructor (storeId: string)
      ensures State() == Session(storeId, [], "", ChatRoute.DefaultModel, "", None, [])
    {
      this.storeId := storeId;
      messages := [];
      input := "";
      model := ChatRoute.DefaultModel;
      metadataFilter := "";
      inFlight := None;
      toasts := [];
    }

    /** The text box, the model select and the filter box. */
    method Edit(input: string, model: string, metadataFilter: string)
      modifies this
      ensures State() == old(State()).(input := input, model := model, metadataFilter := metadataFilter)
    {
      this.input := input;
      this.model := model;
      this.metadataFilter := metadataFilter;
    }

    method HandleSubmit() returns (params: Option<ChatParams>)
      modifies this
      ensures (State(), params) == Submit(old(State()))
    {
      if Trim(input) == "" || inFlight.Some? {
        return None;
      }
      var userMessage := ChatMessage("user", Trim(input), None);
      var newMessages := messages + [userMessage];
      inFlight := Some(InFlight(messages, newMessages));
      messages := newMessages;
      input := "";
      params := Some(ChatParams(storeId, newMessages, model, if metadataFilter == "" then None else Some(metadataFilter)));
    }

    method ReplyArrived(outcome: Result<ChatResponse>)
      requires IsPending()
      modifies this
      ensures State() == Settle(old(State()), outcome)
    {
      match outcome {
        case Ok(response) =>
          messages := inFlight.value.sent + [response.message];
        case Err(f) =>
          toasts := toasts + [MessageOr(f, "Failed to send message")];
          messages := inFlight.value.before;
      }
      inFlight := None;
    }

    method ClearChat()
      modifies this
      ensures State() == Clear(old(State()))
    {
      messages := [];
    }
  }
}
