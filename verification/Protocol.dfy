/** The values the orchestration kernel exchanges: assistant rounds, envelopes, actions.
    JSON text is represented by the value it denotes, together with the byte length that
    the source checks; text that does not parse keeps its characters. */
module Protocol {
  import opened Text
  import opened Wrappers

  datatype Segment = Words(text: string) | Face(faceId: nat) | Image(mediaId: string)

  datatype OutgoingMessage = OutgoingMessage(target: Option<string>, segments: seq<Segment>)

  datatype Envelope = Envelope(toSelf: string, messages: seq<OutgoingMessage>)

  datatype Arguments = Json(value: string) | NotJson(text: string)

  datatype ToolCall = ToolCall(id: string, name: string, arguments: Arguments)

  /** `content` of an assistant reply, classified by what `trim` and the JSON parser see. */
  datatype Content =
    | Absent
    | Blank
    | Malformed(text: string)
    | Proposal(envelope: Envelope, bytes: nat)

  datatype AssistantRound = AssistantRound(content: Content, calls: seq<ToolCall>, reasoning: Option<string>)

  datatype Action = Send(message: OutgoingMessage) | Tool(name: string, arguments: string)

  /** SHA-256 of the serialized action, taken as injective. */
  datatype Fingerprint = Fingerprint(of: Action)

  const MAX_CONTENT_BYTES := 64 * 1024
  const MAX_MESSAGES := 16
  const MAX_TO_SELF_BYTES := 2048
  const MAX_SEGMENTS := 32
  const MAX_TEXT_BYTES := 16384

  datatype EnvelopeError = ContentTooLong | NotAnEnvelope | EnvelopeBudget

  function ParseEnvelope(round: AssistantRound): Result<Envelope, EnvelopeError> {
    match round.content
    case Absent => if round.calls != [] then Ok(Envelope("", [])) else Err(NotAnEnvelope)
    case Blank => if round.calls != [] then Ok(Envelope("", [])) else Err(NotAnEnvelope)
    case Malformed(text) => if Utf8Length(text) > MAX_CONTENT_BYTES then Err(ContentTooLong) else Err(NotAnEnvelope)
    case Proposal(envelope, bytes) =>
      if bytes > MAX_CONTENT_BYTES then Err(ContentTooLong)
      else if |envelope.messages| > MAX_MESSAGES || Utf8Length(envelope.toSelf) > MAX_TO_SELF_BYTES then Err(EnvelopeBudget)
      else Ok(envelope)
  }

  /** What is kept of a round once the provider loop no longer needs the reasoning text. */
  function WithoutReasoning(round: AssistantRound): AssistantRound {
    round.(reasoning := None)
  }

  // ---- structural checks made before an action is reviewed ----

  datatype Target = Target(addressLabel: string, account: string, audience: string, transport: string)

  datatype Directory = Directory(targets: map<string, Target>, media: set<string>, faces: set<nat>)

  datatype MessageError =
    | TargetRequired | UnknownTarget | TransportDisabled | SegmentCount | TextLength | UnknownFace | UnknownMedia

  const TRANSPORTS: set<string> := {"terminal", "onebot_simulator", "webui", "napcat"}

  function SegmentError(segment: Segment, directory: Directory): Option<MessageError> {
    match segment
    case Words(text) => if Trim(text) == "" || Utf8Length(text) > MAX_TEXT_BYTES then Some(TextLength) else None
    case Face(faceId) => if faceId !in directory.faces then Some(UnknownFace) else None
    case Image(mediaId) => if mediaId !in directory.media then Some(UnknownMedia) else None
  }

  function FirstSegmentError(segments: seq<Segment>, directory: Directory): (r: Option<MessageError>)
    ensures r.None? <==> forall i | 0 <= i < |segments| :: SegmentError(segments[i], directory).None?
  {
    if segments == [] then None
    else
      var first := SegmentError(segments[0], directory);
      if first.Some? then first
      else
        var rest := FirstSegmentError(segments[1..], directory);
        assert rest.None? ==> forall i | 0 < i < |segments| :: segments[i] == segments[1..][i - 1];
        rest
  }

  function MessageProblem(message: OutgoingMessage, directory: Directory): Option<MessageError> {
    if message.target.None? then Some(TargetRequired)
    else if message.target.value !in directory.targets then Some(UnknownTarget)
    else if directory.targets[message.target.value].transport !in TRANSPORTS then Some(TransportDisabled)
    else if message.segments == [] || |message.segments| > MAX_SEGMENTS then Some(SegmentCount)
    else FirstSegmentError(message.segments, directory)
  }

  /** A message that names its recipient and has content; nothing is ever filled in for it. */
  predicate Explicit(action: Action) {
    action.Send? ==> action.message.target.Some? && 1 <= |action.message.segments| <= MAX_SEGMENTS
  }

  /** A message passes exactly when its target is listed on an enabled transport and every segment resolves. */
  lemma {:induction false} AcceptedExactlyWhenResolved(message: OutgoingMessage, directory: Directory)
    ensures MessageProblem(message, directory).None? <==>
              && message.target.Some?
              && message.target.value in directory.targets
              && directory.targets[message.target.value].transport in TRANSPORTS
              && 1 <= |message.segments| <= MAX_SEGMENTS
              && forall i | 0 <= i < |message.segments| ::
                   match message.segments[i]
                   case Words(text) => Trim(text) != "" && Utf8Length(text) <= MAX_TEXT_BYTES
                   case Face(faceId) => faceId in directory.faces
                   case Image(mediaId) => mediaId in directory.media
  {
    var checked := FirstSegmentError(message.segments, directory);
    assert checked.None? <==> forall i | 0 <= i < |message.segments| :: SegmentError(message.segments[i], directory).None?;
  }
}
