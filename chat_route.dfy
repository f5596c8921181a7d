/** The chat endpoint of app/api/chat/route.ts: request validation, the
    generation request it builds, and the server-sent-event records it emits
    while the remote generation stream is read. */
module ChatRoute {
  import opened Common

  const DefaultModel: string := "gemini-2.5-flash"
  const StoreNamePrefix: string := "fileSearchStores/"
  const DataPrefix: string := "data: "

  // ---------------------------------------------------------------------
  // Validation and the generation request
  // ---------------------------------------------------------------------

  /** One generation content: a role and its text parts. */
  datatype Content = Content(role: string, parts: seq<string>)

  /** The `fileSearch` tool configuration. */
  datatype FileSearchConfig = FileSearchConfig(fileSearchStoreNames: seq<string>, metadataFilter: Option<string>)

  /** What is handed to the remote generation call. */
  datatype GenerateRequest = GenerateRequest(model: string, contents: seq<Content>, fileSearch: FileSearchConfig)

  function ToContent(m: ChatMessage): Content {
    Content(if m.role == "user" then "user" else "model", [m.content])
  }

  /** `messages.map(...)`: one content per message, in order, with the
      message text as its only part; "user" stays "user", any other role
      becomes "model". */
  function Contents(ms: seq<ChatMessage>): (cs: seq<Content>)
    ensures |cs| == |ms|
    ensures forall i :: 0 <= i < |ms| ==> cs[i].parts == [ms[i].content]
    ensures forall i :: 0 <= i < |ms| ==> (cs[i].role == "user" <==> ms[i].role == "user")
    ensures forall i :: 0 <= i < |ms| ==> (cs[i].role == "model" <==> ms[i].role != "user")
  {
    if ms == [] then [] else [ToContent(ms[0])] + Contents(ms[1..])
  }

  /** The tool configuration scoped to one store: its full resource name,
      and the metadata filter only when one was given and is not empty. */
  function ToolConfig(storeId: string, metadataFilter: Option<string>): (c: FileSearchConfig)
    ensures c.fileSearchStoreNames == [StoreNamePrefix + storeId]
    ensures c.metadataFilter.Some? <==> Truthy(metadataFilter)
    ensures c.metadataFilter.Some? ==> c.metadataFilter == metadataFilter
  {
    FileSearchConfig([StoreNamePrefix + storeId], if Truthy(metadataFilter) then metadataFilter else None)
  }

  datatype Prepared = Rejected(status: int, error: string) | Ready(request: GenerateRequest)

  /** The checks made before the remote call, and the request it gets.
      A missing store is reported first, whatever the messages are. */
  function Prepare(body: ChatRequest): (p: Prepared)
    ensures !Truthy(body.storeId) ==> p == Rejected(400, "storeId is required")
    ensures Truthy(body.storeId) && (body.messages.None? || body.messages.value == [])
            ==> p == Rejected(400, "messages are required")
    ensures p.Ready? <==> Truthy(body.storeId) && body.messages.Some? && body.messages.value != []
    ensures p.Ready? ==>
              && p.request.contents == Contents(body.messages.value)
              && p.request.fileSearch == ToolConfig(body.storeId.value, body.metadataFilter)
              && p.request.model == (if body.model.Some? then body.model.value else DefaultModel)
  {
    if !Truthy(body.storeId) then Rejected(400, "storeId is required")
    else if body.messages.None? || body.messages.value == [] then Rejected(400, "messages are required")
    else
      var model := if body.model.Some? then body.model.value else DefaultModel;
      Ready(GenerateRequest(model, Contents(body.messages.value), ToolConfig(body.storeId.value, body.metadataFilter)))
  }

  // ---------------------------------------------------------------------
  // The event stream
  // ---------------------------------------------------------------------

  /** A content part of a generation chunk; `text` is absent for the
      executable-code and code-result parts. */
  datatype Part = Part(text: Option<string>)

  /** A candidate; an absent `content` or `parts` is an empty part list. */
  datatype Candidate = Candidate(parts: seq<Part>, groundingMetadata: Option<GroundingMetadata>)

  /** A generation chunk; an absent candidate list is an empty one. */
  datatype Chunk = Chunk(candidates: seq<Candidate>)

  /** How the chunk iteration ended: normally, or by raising. */
  datatype StreamEnd = Completed | Raised(failure: Failure)

  /** A server-sent event of the chat stream. */
  datatype Event =
    | Text(content: string)
    | Done(groundingMetadata: Option<GroundingMetadata>, citations: Option<seq<GroundingChunk>>)
    | Error(message: string)

  /** `chunk.candidates?.[0]?.content?.parts || []` */
  function FirstParts(c: Chunk): seq<Part> {
    if |c.candidates| > 0 then c.candidates[0].parts else []
  }

  /** `chunk.candidates?.[0]?.groundingMetadata` */
  function ChunkMetadata(c: Chunk): Option<GroundingMetadata> {
    if |c.candidates| > 0 then c.candidates[0].groundingMetadata else None
  }

  /** `"text" in part && part.text` */
  predicate Emits(p: Part) {
    p.text.Some? && p.text.value != ""
  }

  /** The text events of a part list, in order. */
  function PartEvents(ps: seq<Part>): seq<Event> {
    if ps == [] then []
    else
      var p := ps[|ps| - 1];
      PartEvents(ps[..|ps| - 1]) + (if Emits(p) then [Text(p.text.value)] else [])
  }

  /** The text events of a chunk sequence, in arrival order. */
  function TextEvents(cs: seq<Chunk>): seq<Event> {
    if cs == [] then [] else TextEvents(cs[..|cs| - 1]) + PartEvents(FirstParts(cs[|cs| - 1]))
  }

  /** Every event of a part list is a text event with non-empty text. */
  lemma {:induction false} PartEventsAreText(ps: seq<Part>)
    ensures forall i :: 0 <= i < |PartEvents(ps)| ==> PartEvents(ps)[i].Text? && PartEvents(ps)[i].content != ""
  {
    if ps != [] {
      PartEventsAreText(ps[..|ps| - 1]);
    }
  }

  /** The chunk loop emits only text events, none of them empty. */
  lemma {:induction false} TextEventsAreText(cs: seq<Chunk>)
    ensures forall i :: 0 <= i < |TextEvents(cs)| ==> TextEvents(cs)[i].Text? && TextEvents(cs)[i].content != ""
  {
    if cs != [] {
      TextEventsAreText(cs[..|cs| - 1]);
      PartEventsAreText(FirstParts(cs[|cs| - 1]));
    }
  }

  /** The grounding metadata retained after reading `cs`. */
  function LastGrounding(cs: seq<Chunk>): Option<GroundingMetadata> {
    if cs == [] then None
    else if ChunkMetadata(cs[|cs| - 1]).Some? then ChunkMetadata(cs[|cs| - 1])
    else LastGrounding(cs[..|cs| - 1])
  }

  /** `groundingMetadata?.groundingChunks` */
  function Citations(g: Option<GroundingMetadata>): Option<seq<GroundingChunk>> {
    if g.Some? then g.value.groundingChunks else None
  }

  /** The one record that closes the stream. */
  function Terminal(g: Option<GroundingMetadata>, end: StreamEnd): Event {
    match end
    case Completed => Done(g, Citations(g))
    case Raised(f) => Error(MessageOr(f, "Stream error"))
  }

  /** Everything the stream emits for the chunks `cs` read before `end`. */
  function StreamEvents(cs: seq<Chunk>, end: StreamEnd): seq<Event> {
    TextEvents(cs) + [Terminal(LastGrounding(cs), end)]
  }

  /** The body of the stream's `start`: the loop over chunks and their parts,
      with the grounding metadata reassigned as chunks carry it. */
  method RunStream(chunks: seq<Chunk>, end: StreamEnd) returns (out: seq<Event>)
    ensures out == StreamEvents(chunks, end)
  {
    var grounding: Option<GroundingMetadata> := None;
    out := [];
    var i := 0;
    while i < |chunks|
      invariant 0 <= i <= |chunks|
      invariant out == TextEvents(chunks[..i])
      invariant grounding == LastGrounding(chunks[..i])
    {
      var parts := FirstParts(chunks[i]);
      var j := 0;
      while j < |parts|
        invariant 0 <= j <= |parts|
        invariant out == TextEvents(chunks[..i]) + PartEvents(parts[..j])
      {
        assert parts[..j + 1][..j] == parts[..j];
        if Emits(parts[j]) {
          out := out + [Text(parts[j].text.value)];
        }
        j := j + 1;
      }
      assert parts[..j] == parts;
      assert chunks[..i + 1][..i] == chunks[..i];
      var chunkMetadata := ChunkMetadata(chunks[i]);
      if chunkMetadata.Some? {
        grounding := chunkMetadata;
      }
      i := i + 1;
    }
    assert chunks[..i] == chunks;
    match end {
      case Completed =>
        out := out + [Done(grounding, Citations(grounding))];
      case Raised(f) =>
        out := out + [Error(MessageOr(f, "Stream error"))];
    }
  }

  /** How many parts of `ps` carry a non-empty text. */
  function CountEmitting(ps: seq<Part>): nat {
    if ps == [] then 0 else CountEmitting(ps[..|ps| - 1]) + (if Emits(ps[|ps| - 1]) then 1 else 0)
  }

  /** Exactly one text event per part with a non-empty text, in the order
      of the parts: the part at index k gives the event whose position is
      the number of emitting parts before it. */
  lemma {:induction false} PartEventsExactly(ps: seq<Part>)
    ensures |PartEvents(ps)| == CountEmitting(ps)
    ensures forall k :: 0 <= k < |ps| && Emits(ps[k]) ==>
              CountEmitting(ps[..k]) < |PartEvents(ps)| &&
              PartEvents(ps)[CountEmitting(ps[..k])] == Text(ps[k].text.value)
  {
    if ps != [] {
      var init := ps[..|ps| - 1];
      PartEventsExactly(init);
      forall k | 0 <= k < |ps| && Emits(ps[k])
        ensures CountEmitting(ps[..k]) < |PartEvents(ps)|
        ensures PartEvents(ps)[CountEmitting(ps[..k])] == Text(ps[k].text.value)
      {
        if k < |ps| - 1 {
          assert ps[..k] == init[..k];
          assert ps[k] == init[k];
        } else {
          assert ps[..k] == init;
        }
      }
    }
  }

  /** The text events of two part lists read one after the other. */
  lemma {:induction false} PartEventsAppend(a: seq<Part>, b: seq<Part>)
    ensures PartEvents(a + b) == PartEvents(a) + PartEvents(b)
  {
    if b == [] {
      assert a + b == a;
    } else {
      assert (a + b)[..|a + b| - 1] == a + b[..|b| - 1];
      PartEventsAppend(a, b[..|b| - 1]);
    }
  }

  /** All parts of the first candidates, in arrival order. */
  function AllParts(cs: seq<Chunk>): seq<Part> {
    if cs == [] then [] else AllParts(cs[..|cs| - 1]) + FirstParts(cs[|cs| - 1])
  }

  /** The text events of a stream are those of all its parts taken in
      arrival order: nothing is reordered or dropped across chunks. */
  lemma {:induction false} TextEventsFlatten(cs: seq<Chunk>)
    ensures TextEvents(cs) == PartEvents(AllParts(cs))
  {
    if cs != [] {
      TextEventsFlatten(cs[..|cs| - 1]);
      PartEventsAppend(AllParts(cs[..|cs| - 1]), FirstParts(cs[|cs| - 1]));
    }
  }

  /** Reading more chunks only extends the text already emitted. */
  lemma TextEventsAppend(a: seq<Chunk>, b: seq<Chunk>)
    ensures TextEvents(a + b) == TextEvents(a) + TextEvents(b)
  {
    TextEventsFlatten(a + b);
    TextEventsFlatten(a);
    TextEventsFlatten(b);
    AllPartsAppend(a, b);
    PartEventsAppend(AllParts(a), AllParts(b));
  }

  lemma {:induction false} AllPartsAppend(a: seq<Chunk>, b: seq<Chunk>)
    ensures AllParts(a + b) == AllParts(a) + AllParts(b)
    decreases |b|
  {
    if b == [] {
      assert a + b == a;
    } else {
      var ab, init, last := a + b, b[..|b| - 1], b[|b| - 1];
      assert ab[..|ab| - 1] == a + init && ab[|ab| - 1] == last;
      AllPartsAppend(a, init);
      var pa, pi, pl := AllParts(a), AllParts(init), FirstParts(last);
      assert AllParts(ab) == (pa + pi) + pl;
      assert AllParts(b) == pi + pl;
      assert (pa + pi) + pl == pa + (pi + pl);
    }
  }

  lemma TextEventsSnoc(cs: seq<Chunk>, c: Chunk)
    ensures TextEvents(cs + [c]) == TextEvents(cs) + PartEvents(FirstParts(c))
  {
    assert (cs + [c])[..|cs|] == cs;
  }

  /** The retained metadata is that of the last chunk carrying any; it is
      absent exactly when no chunk carried metadata. */
  lemma {:induction false} LastGroundingIsLatest(cs: seq<Chunk>)
    ensures LastGrounding(cs).None? <==> (forall k :: 0 <= k < |cs| ==> ChunkMetadata(cs[k]).None?)
    ensures LastGrounding(cs).Some? ==>
              exists k :: 0 <= k < |cs| && ChunkMetadata(cs[k]) == LastGrounding(cs) &&
                (forall j :: k < j < |cs| ==> ChunkMetadata(cs[j]).None?)
  {
    if cs != [] {
      var init := cs[..|cs| - 1];
      LastGroundingIsLatest(init);
      if ChunkMetadata(cs[|cs| - 1]).Some? {
        assert ChunkMetadata(cs[|cs| - 1]) == LastGrounding(cs);
      } else {
        assert forall k :: 0 <= k < |init| ==> cs[k] == init[k];
        if LastGrounding(init).Some? {
          var k :| 0 <= k < |init| && ChunkMetadata(init[k]) == LastGrounding(init) &&
            (forall j :: k < j < |init| ==> ChunkMetadata(init[j]).None?);
          assert ChunkMetadata(cs[k]) == LastGrounding(cs);
        }
      }
    }
  }

  /** A chunk without metadata never clears what was retained; one with
      metadata replaces it. */
  lemma MetadataStep(cs: seq<Chunk>, c: Chunk)
    ensures ChunkMetadata(c).None? ==> LastGrounding(cs + [c]) == LastGrounding(cs)
    ensures ChunkMetadata(c).Some? ==> LastGrounding(cs + [c]) == ChunkMetadata(c)
  {
    assert (cs + [c])[..|cs|] == cs;
  }

  /** Every stream ends with exactly one terminal record, preceded only by
      text records: `done` with the retained metadata and its grounding
      chunks after normal completion, `error` with the failure's message
      (or "Stream error") and no `done` after a raise. */
  lemma ExactlyOneTerminal(cs: seq<Chunk>, end: StreamEnd)
    ensures var es := StreamEvents(cs, end);
      && |es| == |TextEvents(cs)| + 1
      && (forall i :: 0 <= i < |es| - 1 ==> es[i].Text?)
      && !es[|es| - 1].Text?
      && (end.Completed? ==> es[|es| - 1] == Done(LastGrounding(cs), Citations(LastGrounding(cs))))
      && (end.Raised? ==> es[|es| - 1] == Error(MessageOr(end.failure, "Stream error"))
                          && forall i :: 0 <= i < |es| ==> !es[i].Done?)
  {
    var es := StreamEvents(cs, end);
    var ts := TextEvents(cs);
    TextEventsAreText(cs);
    assert forall i :: 0 <= i < |ts| ==> es[i] == ts[i];
  }

  /** A failure keeps the text already emitted: the failed stream and the
      completed one agree on everything before their terminal record. */
  lemma FailureKeepsText(cs: seq<Chunk>, f: Failure)
    ensures StreamEvents(cs, Raised(f))[..|TextEvents(cs)|] == TextEvents(cs)
    ensures StreamEvents(cs, Raised(f))[..|TextEvents(cs)|] == StreamEvents(cs, Completed)[..|TextEvents(cs)|]
  {
  }

  /** Example: two text fragments and metadata on the second chunk. */
  lemma ExampleStream(g: GroundingMetadata)
    ensures StreamEvents([Chunk([Candidate([Part(Some("Refunds are"))], None)]),
                          Chunk([Candidate([Part(Some(" processed within 30 days.")), Part(None)], Some(g))])],
                         Completed)
            == [Text("Refunds are"), Text(" processed within 30 days."), Done(Some(g), g.groundingChunks)]
  {
    var p0 := [Part(Some("Refunds are"))];
    var p1 := [Part(Some(" processed within 30 days.")), Part(None)];
    var c0 := Chunk([Candidate(p0, None)]);
    var c1 := Chunk([Candidate(p1, Some(g))]);
    assert [c0, c1][..1] == [c0];
    assert [c0][..0] == [];
    assert p0[..0] == [];
    assert p1[..1] == [p1[0]];
    assert [p1[0]][..0] == [];
    assert PartEvents(p0) == [Text("Refunds are")];
    assert PartEvents(p1) == [Text(" processed within 30 days.")];
    assert TextEvents([c0]) == [Text("Refunds are")];
    assert LastGrounding([c0, c1]) == Some(g);
  }

  // ---------------------------------------------------------------------
  // Framing
  // ---------------------------------------------------------------------

  /** One record: `data: <json>` followed by a blank line. */
  function Frame(payload: string): (r: string)
    ensures |r| == |DataPrefix| + |payload| + 2
    ensures r[..|DataPrefix|] == DataPrefix
    ensures r[|r| - 2..] == "\n\n"
    ensures r[|DataPrefix|..|r| - 2] == payload
  {
    DataPrefix + payload + "\n\n"
  }

  /** The records of a stream, back to back. */
  function FrameAll(ps: seq<string>): string {
    if ps == [] then [] else Frame(ps[0]) + FrameAll(ps[1..])
  }

  /** The JSON text of each event, in order. */
  function Payloads(es: seq<Event>, toJson: Event -> string): (ps: seq<string>)
    ensures |ps| == |es|
    ensures forall i :: 0 <= i < |es| ==> ps[i] == toJson(es[i])
  {
    if es == [] then [] else [toJson(es[0])] + Payloads(es[1..], toJson)
  }

  /** The index of the first newline of `s`, if any. */
  function FindNewline(s: string): (r: Option<nat>)
    ensures r.None? <==> '\n' !in s
    ensures r.Some? ==> r.value < |s| && s[r.value] == '\n' && '\n' !in s[..r.value]
  {
    if s == [] then None
    else if s[0] == '\n' then Some(0)
    else
      match FindNewline(s[1..])
      case None => None
      case Some(k) => assert s[..k + 1] == [s[0]] + s[1..][..k]; Some(k + 1)
  }

  /** Splits a stream body back into record payloads; `None` when the body
      is not a sequence of complete records. */
  function Unframe(s: string): Option<seq<string>>
    decreases |s|
  {
    if s == [] then Some([])
    else if |s| < |DataPrefix| || s[..|DataPrefix|] != DataPrefix then None
    else
      var rest := s[|DataPrefix|..];
      match FindNewline(rest)
      case None => None
      case Some(k) =>
        if k + 2 <= |rest| && rest[k + 1] == '\n' then
          match Unframe(rest[k + 2..])
          case None => None
          case Some(tail) => Some([rest[..k]] + tail)
        else None
  }

  /** The record boundaries of a framed stream can be recovered: payloads
      without a newline (as JSON text always is) read back exactly. */
  lemma {:induction false} UnframeFrameAll(ps: seq<string>)
    requires forall i :: 0 <= i < |ps| ==> '\n' !in ps[i]
    ensures Unframe(FrameAll(ps)) == Some(ps)
  {
    if ps != [] {
      UnframeFrameAll(ps[1..]);
      UnframeRecord(ps[0], FrameAll(ps[1..]));
      assert [ps[0]] + ps[1..] == ps;
    }
  }

  /** Reading one record off the front of a body. */
  lemma UnframeRecord(p: string, tail: string)
    requires '\n' !in p
    ensures Unframe(Frame(p) + tail) ==
              if Unframe(tail).Some? then Some([p] + Unframe(tail).value) else None
  {
    var s := Frame(p) + tail;
    assert s == DataPrefix + (p + "\n\n" + tail);
    assert s[..|DataPrefix|] == DataPrefix;
    var rest := s[|DataPrefix|..];
    assert rest == p + "\n" + ("\n" + tail);
    NewlineAfter(p, "\n" + tail);
    assert rest[|p| + 2..] == tail;
    assert rest[..|p|] == p;
  }

  lemma {:induction false} NewlineAfter(p: string, rest: string)
    requires '\n' !in p
    ensures FindNewline(p + "\n" + rest) == Some(|p|)
  {
    var s := p + "\n" + rest;
    if p != [] {
      assert s[1..] == p[1..] + "\n" + rest;
      NewlineAfter(p[1..], rest);
    }
  }

  // ---------------------------------------------------------------------
  // The whole request
  // ---------------------------------------------------------------------

  /** An HTTP reply: a JSON error body with a status, or a 200 event stream. */
  datatype Response = JsonError(status: int, error: string) | EventStream(body: string)

  /** What the remote generation call does: fail before a stream exists, or
      deliver chunks and then end. */
  datatype Remote = StartFailed(failure: Failure) | Streaming(chunks: seq<Chunk>, end: StreamEnd)

  /** The request passed to the remote call (if it was made) and the reply. */
  datatype Exchange = Exchange(generated: Option<GenerateRequest>, response: Response)

  /** `POST`: `body` is the parsed request JSON (or the failure parsing it
      raised) and `toJson` the serialisation of events. */
  function Post(body: Result<ChatRequest>, remote: Remote, toJson: Event -> string): (x: Exchange)
    ensures x.generated.Some? <==> body.Ok? && Prepare(body.value).Ready?
    ensures x.generated.Some? ==> x.generated.value == Prepare(body.value).request
    ensures body.Err? ==> x.response == JsonError(500, MessageOr(body.failure, "Failed to generate response"))
    ensures body.Ok? && Prepare(body.value).Rejected? ==>
              x.response == JsonError(400, Prepare(body.value).error)
    ensures x.generated.Some? && remote.StartFailed? ==>
              x.response == JsonError(500, MessageOr(remote.failure, "Failed to generate response"))
    ensures x.response.EventStream? <==> x.generated.Some? && remote.Streaming?
    ensures x.response.EventStream? ==>
              x.response.body == FrameAll(Payloads(StreamEvents(remote.chunks, remote.end), toJson))
  {
    match body
    case Err(f) => Exchange(None, JsonError(500, MessageOr(f, "Failed to generate response")))
    case Ok(req) =>
      match Prepare(req)
      case Rejected(status, error) => Exchange(None, JsonError(status, error))
      case Ready(generate) =>
        match remote
        case StartFailed(f) => Exchange(Some(generate), JsonError(500, MessageOr(f, "Failed to generate response")))
        case Streaming(chunks, end) =>
          Exchange(Some(generate), EventStream(FrameAll(Payloads(StreamEvents(chunks, end), toJson))))
  }

  /** A streamed reply reads back as the JSON of exactly the stream's events. */
  lemma PostStreamReadsBack(body: Result<ChatRequest>, remote: Remote, toJson: Event -> string)
    requires forall e :: '\n' !in toJson(e)
    requires Post(body, remote, toJson).response.EventStream?
    ensures Unframe(Post(body, remote, toJson).response.body)
            == Some(Payloads(StreamEvents(remote.chunks, remote.end), toJson))
  {
    UnframeFrameAll(Payloads(StreamEvents(remote.chunks, remote.end), toJson));
  }
}
