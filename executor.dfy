/** The `Execute` method of every state type in states.go: given the
    conversation's metadata, a state picks the state to execute next and a
    deferred network action, or fails. Actions are values here that record which
    messenger primitive would be called and with what; nothing is sent. */
module StateExecutor {
  import opened Outcomes
  import opened ProtocolStates
  import opened PresentationVerifier

  /** The problem-report code used when the user stopped the protocol. */
  const CodeRejectedError := "rejected"

  /** Top-level key whose presence marks a message as a reply in a thread. */
  const JsonThread := "~thread"

  /** The `@type` values of outbound messages. Their URIs are defined outside
      states.go; only which one is used matters here. */
  datatype MsgType =
    | RequestPresentationMsgType
    | ProposePresentationMsgType
    | PresentationMsgType
    | ProblemReportMsgType
    | AckMsgType

  /** A typed protocol payload supplied by the caller (a request, a proposal or
      a presentation), apart from its `@type`, which is set when it is sent. */
  datatype Payload = Payload(content: string)

  /** The current DIDComm message, seen through the operations states.go uses. */
  datatype Message = Message(
    keys: set<string>,                 // the top-level keys of the message map
    id: string,                        // Msg.ID()
    threadId: Outcome<string>,         // Msg.ThreadID()
    decoded: Outcome<seq<Attachment>>  // Msg.Decode into a Presentation: its attachments
  )

  /** The conversation metadata passed to every `Execute`. */
  datatype MetaData = MetaData(
    msg: Message,
    myDID: string,
    theirDID: string,
    request: Option<Payload>,
    proposePresentation: Option<Payload>,
    presentation: Option<Payload>,
    registry: PresentationParser,      // presentation parsing with keys from registryVDRI
    userCancelled: bool                // the triggering error is a customError
  )

  /** The body of an outbound message. */
  datatype Outbound =
    | Typed(msgType: MsgType, body: Payload)
    | ProblemReport(msgType: MsgType, code: string)
    | Ack(msgType: MsgType)

  /** A deferred action: the messenger call the closure would make. */
  datatype Action =
    | Zero
    | Send(msg: Message, myDID: string, theirDID: string)
    | ReplyTo(msgId: string, out: Outbound)
    | ReplyToNested(threadId: string, out: Outbound, myDID: string, theirDID: string)

  /** The errors `Execute` returns, wrapping foreign errors' texts. */
  datatype Error =
    | NotImplemented(stateName: string)  // "%s: is not implemented yet"
    | CannotExecuteNoOp                  // "cannot execute no-op"
    | NotProvided(payload: string)       // "%s was not provided"
    | ThreadIdFailed(cause: string)      // "threadID: %w"
    | DecodeFailed(cause: string)        // "decode: %w"
    | VerifyFailed(error: VerifyError)   // "verify presentation: %w"

  /** `(state, stateAction, nil)` or `(nil, nil, err)`. */
  datatype Result = Ok(next: State, action: Action) | Err(error: Error)

  /** `canReplyTo`: the message carries a thread reference. */
  predicate CanReplyTo(msg: Message)
  {
    JsonThread in msg.keys
  }

  /** Only the `~thread` key decides whether a message can be replied to:
      adding or removing any other key never changes the answer. */
  lemma CanReplyToReadsOnlyThreadKey(msg: Message, k: string)
    ensures CanReplyTo(msg) <==> JsonThread in msg.keys
    ensures k != JsonThread ==>
      && CanReplyTo(msg.(keys := msg.keys + {k})) == CanReplyTo(msg)
      && CanReplyTo(msg.(keys := msg.keys - {k})) == CanReplyTo(msg)
  {
  }

  /** `forwardInitial`: send the current message itself as a new conversation. */
  function ForwardInitial(md: MetaData): (a: Action)
    ensures a.Send? && a.msg == md.msg && a.myDID == md.myDID && a.theirDID == md.theirDID
  {
    Send(md.msg, md.myDID, md.theirDID)
  }

  function ExecuteStart(): (r: Result)
    ensures r.Err? && r.error == NotImplemented(StartName)
  {
    Err(NotImplemented(StartName))
  }

  /** An empty code ends the conversation silently; any other code is reported
      to the other agent on the message's thread, as `rejected` when the user
      stopped the protocol. */
  function ExecuteAbandoning(code: string, md: MetaData): (r: Result)
    ensures code == "" ==> r == Ok(Done, Zero)
    ensures r.Err? <==> code != "" && md.msg.threadId.Failure?
    ensures r.Err? ==> r.error == ThreadIdFailed(md.msg.threadId.cause)
    ensures r.Ok? ==> r.next == Done
    ensures r.Ok? && code != "" ==>
      && r.action.ReplyToNested?
      && r.action.threadId == md.msg.threadId.value
      && r.action.myDID == md.myDID && r.action.theirDID == md.theirDID
      && r.action.out.ProblemReport? && r.action.out.msgType == ProblemReportMsgType
      && (md.userCancelled ==> r.action.out.code == CodeRejectedError)
      && (!md.userCancelled ==> r.action.out.code == code)
  {
    if code == "" then Ok(Done, Zero)
    else
      var reported := if md.userCancelled then CodeRejectedError else code;
      match md.msg.threadId
      case Failure(cause) => Err(ThreadIdFailed(cause))
      case Success(thId) =>
        Ok(Done, ReplyToNested(thId, ProblemReport(ProblemReportMsgType, reported), md.myDID, md.theirDID))
  }

  function ExecuteDone(): (r: Result)
    ensures r.Ok? && r.next == NoOp && r.action == Zero
  {
    Ok(NoOp, Zero)
  }

  function ExecuteNoOp(): (r: Result)
    ensures r.Err? && r.error == CannotExecuteNoOp
  {
    Err(CannotExecuteNoOp)
  }

  /** The Prover answers a request with a presentation when one was supplied,
      and with a counter-proposal otherwise. */
  function ExecuteRequestReceived(md: MetaData): (r: Result)
    ensures r.Ok? && r.action == Zero
    ensures r.next == PresentationSent <==> md.presentation.Some?
    ensures r.next == ProposalSent <==> md.presentation.None?
  {
    if md.presentation.Some? then Ok(PresentationSent, Zero)
    else Ok(ProposalSent, Zero)
  }

  /** The Verifier's request: sent as a new message when the current one has no
      thread, otherwise a reply carrying the supplied request. */
  function ExecuteRequestSent(md: MetaData): (r: Result)
    ensures r.Ok? ==> r.next == NoOp
    ensures !CanReplyTo(md.msg) ==> r.Ok? && r.action == ForwardInitial(md)
    ensures r.Err? <==> CanReplyTo(md.msg) && md.request.None?
    ensures r.Err? ==> r.error == NotProvided("request")
    ensures r.Ok? && CanReplyTo(md.msg) ==>
      r.action == ReplyTo(md.msg.id, Typed(RequestPresentationMsgType, md.request.value))
  {
    if !CanReplyTo(md.msg) then Ok(NoOp, ForwardInitial(md))
    else if md.request.None? then Err(NotProvided("request"))
    else Ok(NoOp, ReplyTo(md.msg.id, Typed(RequestPresentationMsgType, md.request.value)))
  }

  /** The Prover's presentation, sent as a reply to the current message. */
  function ExecutePresentationSent(md: MetaData): (r: Result)
    ensures r.Err? <==> md.presentation.None?
    ensures r.Err? ==> r.error == NotProvided("presentation")
    ensures r.Ok? ==>
      r.next == NoOp && r.action == ReplyTo(md.msg.id, Typed(PresentationMsgType, md.presentation.value))
  {
    if md.presentation.None? then Err(NotProvided("presentation"))
    else Ok(NoOp, ReplyTo(md.msg.id, Typed(PresentationMsgType, md.presentation.value)))
  }

  /** The Verifier acknowledges a presentation only when the message decodes and
      every attachment decodes and verifies. */
  function ExecutePresentationReceived(md: MetaData, decode: Base64Decoder): (r: Result)
    ensures r.Ok? <==> md.msg.decoded.Success? && AllVerified(decode, md.registry, md.msg.decoded.value)
    ensures r.Ok? ==> r.next == Done && r.action == ReplyTo(md.msg.id, Ack(AckMsgType))
    ensures md.msg.decoded.Failure? ==> r == Err(DecodeFailed(md.msg.decoded.cause))
    ensures r.Err? && md.msg.decoded.Success? ==> r.error.VerifyFailed?
  {
    match md.msg.decoded
    case Failure(cause) => Err(DecodeFailed(cause))
    case Success(atts) =>
      match VerifyPresentation(decode, md.registry, atts)
      case Rejected(e) => Err(VerifyFailed(e))
      case Verified => Ok(Done, ReplyTo(md.msg.id, Ack(AckMsgType)))
  }

  /** The Prover's proposal: sent as a new message when the current one has no
      thread, otherwise a reply carrying the supplied proposal. */
  function ExecuteProposalSent(md: MetaData): (r: Result)
    ensures r.Ok? ==> r.next == NoOp
    ensures !CanReplyTo(md.msg) ==> r.Ok? && r.action == ForwardInitial(md)
    ensures r.Err? <==> CanReplyTo(md.msg) && md.proposePresentation.None?
    ensures r.Err? ==> r.error == NotProvided("propose-presentation")
    ensures r.Ok? && CanReplyTo(md.msg) ==>
      r.action == ReplyTo(md.msg.id, Typed(ProposePresentationMsgType, md.proposePresentation.value))
  {
    if !CanReplyTo(md.msg) then Ok(NoOp, ForwardInitial(md))
    else if md.proposePresentation.None? then Err(NotProvided("propose-presentation"))
    else Ok(NoOp, ReplyTo(md.msg.id, Typed(ProposePresentationMsgType, md.proposePresentation.value)))
  }

  /** The Verifier answers a counter-proposal by requesting again. */
  function ExecuteProposalReceived(): (r: Result)
    ensures r.Ok? && r.next == RequestSent && r.action == Zero
  {
    Ok(RequestSent, Zero)
  }

  /** A measure that every successful `Execute` lowers: executing a state and
      then the follow-up it returns reaches `noop`, or fails, within two
      executions. */
  function Rank(s: State): nat
  {
    match s
    case Start | NoOp => 0
    case Done | RequestSent | ProposalSent | PresentationSent => 1
    case Abandoning(_) | PresentationReceived | ProposalReceived | RequestReceived => 2
  }

  /** The conditions under which `Execute` fails, grouped by kind of error. */
  ghost predicate Fails(s: State, md: MetaData, decode: Base64Decoder)
  {
    // states that cannot be executed
    || s.Start? || s.NoOp?
    // a payload the reply needs was not supplied
    || (s.RequestSent? && CanReplyTo(md.msg) && md.request.None?)
    || (s.ProposalSent? && CanReplyTo(md.msg) && md.proposePresentation.None?)
    || (s.PresentationSent? && md.presentation.None?)
    // the problem report has no thread to go to
    || (s.Abandoning? && s.code != "" && md.msg.threadId.Failure?)
    // the presentation does not decode or does not verify
    || (s.PresentationReceived? &&
        !(md.msg.decoded.Success? && AllVerified(decode, md.registry, md.msg.decoded.value)))
  }

  /** `s.Execute(md)`, dispatched on the state's type. */
  function Execute(s: State, md: MetaData, decode: Base64Decoder): (r: Result)
    ensures r.Err? <==> Fails(s, md, decode)
    ensures r.Ok? && r.next != NoOp ==> CanTransitionTo(s, r.next)
    ensures r.Ok? ==> Rank(r.next) < Rank(s)
    ensures r.Ok? ==> !r.next.Start? && !r.next.Abandoning?
    ensures r.Ok? ==> RoleOf(r.next) == Common || RoleOf(r.next) == RoleOf(s)
    ensures r.Ok? && r.action != Zero ==> r.next == NoOp || r.next == Done
    ensures r.Ok? && r.action.Send? ==> !CanReplyTo(md.msg) && r.action.msg == md.msg
    ensures r.Ok? && r.action.ReplyTo? ==> r.action.msgId == md.msg.id
  {
    match s
    case Start => ExecuteStart()
    case Abandoning(code) => ExecuteAbandoning(code, md)
    case Done => ExecuteDone()
    case NoOp => ExecuteNoOp()
    case RequestSent => ExecuteRequestSent(md)
    case PresentationReceived => ExecutePresentationReceived(md, decode)
    case ProposalReceived => ExecuteProposalReceived()
    case RequestReceived => ExecuteRequestReceived(md)
    case PresentationSent => ExecutePresentationSent(md)
    case ProposalSent => ExecuteProposalSent(md)
  }

  /** Executing a state and then the follow-up it returns, with the same
      metadata, either fails or yields `noop`: no state has more than two
      follow-ups to execute before there is nothing left to do. */
  lemma FollowUpsEndWithinTwoSteps(s: State, md: MetaData, decode: Base64Decoder)
    requires Execute(s, md, decode).Ok? && Execute(s, md, decode).next != NoOp
    ensures var r := Execute(Execute(s, md, decode).next, md, decode);
      r.Ok? ==> r.next == NoOp
  {
  }

  /** The first attachment that fails to decode or to verify is the error
      reported, whatever the attachments after it hold. */
  lemma PresentationReceivedReportsFirstFailure(md: MetaData, decode: Base64Decoder, i: nat)
    requires md.msg.decoded.Success? && i < |md.msg.decoded.value|
    requires AllVerified(decode, md.registry, md.msg.decoded.value[..i])
    requires CheckAttachment(decode, md.registry, md.msg.decoded.value[i]).Rejected?
    ensures ExecutePresentationReceived(md, decode) ==
      Err(VerifyFailed(CheckAttachment(decode, md.registry, md.msg.decoded.value[i]).error))
  {
  }

  /** A request-sent result rewritten as the proposal-sent one would be. */
  function AsProposal(r: Result): Result
  {
    match r
    case Ok(next, ReplyTo(id, Typed(RequestPresentationMsgType, body))) =>
      Ok(next, ReplyTo(id, Typed(ProposePresentationMsgType, body)))
    case Err(NotProvided("request")) => Err(NotProvided("propose-presentation"))
    case _ => r
  }

  /** Proposal-sent behaves as request-sent with the proposal in place of the
      request. */
  lemma ProposalSentMirrorsRequestSent(md: MetaData)
    ensures ExecuteProposalSent(md) == AsProposal(ExecuteRequestSent(md.(request := md.proposePresentation)))
  {
  }
}
