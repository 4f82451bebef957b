# Present-proof protocol states, in Dafny

This project models the state machine of the present-proof protocol in
`pkg/didcomm/protocol/presentproof/states.go`. In that protocol a Verifier
requests a verifiable presentation and a Prover supplies it, possibly after a
counter-proposal. The model covers the ten states and their two operations:

- `CanTransitionTo` is the static allow-list of successor states.
- `Execute` inspects the conversation metadata and returns either a next state
  with a deferred network action, or an error.

Files:

- `outcomes.dfy` (module `Outcomes`): `Option` for Go's nil pointers and
  `Outcome` for Go's `(value, error)` pairs.
- `states.dfy` (module `ProtocolStates`): the `State` datatype and the state
  names. It has one `...CanTransitionTo` function per Go method, each comparing
  names as the Go code does. The dispatching `CanTransitionTo` is proved equal to
  a transition table written per role (Verifier edges, Prover edges, and the
  common edge abandoning → done).
- `verifier.dfy` (module `PresentationVerifier`): `verifyPresentation` as a
  fail-fast recursion over the attachments.
- `executor.dfy` (module `StateExecutor`): the metadata, actions, errors and one
  `Execute...` function per Go method. The dispatching `Execute` states what
  holds across all states:
  - every non-noop successor is one the source state's `CanTransitionTo`
    accepts;
  - a rank strictly decreases;
  - network actions come only with a `noop` or `done` successor;
  - a `Send` happens only when the message has no thread;
  - `Execute` fails exactly under the conditions listed in `Fails`.

Deferred actions are values (`Zero`, `Send`, `ReplyTo`, `ReplyToNested`). Each
records the messenger primitive the Go closure would call, with its target and
message. Foreign operations are parameters or fields:

- the base64 decoder is a `Base64Decoder` parameter;
- presentation parsing with keys from the registry is the `registry` field;
- the message's `ID`, `ThreadID`, `Decode` and top-level keys are fields of
  `Message`;
- "the triggering error is a `customError`" is the `userCancelled` flag.

Facts about the code that the model makes explicit:

- The transition table has two cycles: request-sent ↔ proposal-received and
  proposal-sent ↔ request-received (lemma `ProtocolStates.NegotiationCycles`).
  `Execute` still cannot loop with fixed metadata, because its rank decreases.
- No state's `CanTransitionTo` accepts `noop` (`ProtocolStates.CanTransitionTo`),
  yet done, request-sent, proposal-sent and presentation-sent all return `noop`.
  So a driver must stop on `noop` before it checks legality.
- An abandon code is a plain string, and the empty string means "do not notify
  the other agent". It is not an optional value.
- An attachment that fails base64 decoding is reported as
  `VerifyFailed(DecodeString(_))`, not as `DecodeFailed`: the decode error is
  wrapped inside the verification error. `DecodeFailed` is only for a message
  that does not decode into a presentation.

## Model

| member | source | states |
|---|---|---|
| ProtocolStates.Name | pkg/didcomm/protocol/presentproof/states.go:21-37 | every state's name is one of the ten state-name constants |
| ProtocolStates.NameDeterminesVariant | pkg/didcomm/protocol/presentproof/states.go:21-37 | two states have the same name iff they are the same variant, ignoring the abandon code |
| ProtocolStates.StartCanTransitionTo | pkg/didcomm/protocol/presentproof/states.go:71-82 | start accepts exactly request-sent, proposal-received, proposal-sent and request-received |
| ProtocolStates.AbandoningCanTransitionTo | pkg/didcomm/protocol/presentproof/states.go:97-99 | abandoning accepts only done |
| ProtocolStates.DoneCanTransitionTo | pkg/didcomm/protocol/presentproof/states.go:134-136 | done rejects every candidate |
| ProtocolStates.NoOpCanTransitionTo | pkg/didcomm/protocol/presentproof/states.go:149-151 | noop rejects every candidate |
| ProtocolStates.RequestReceivedCanTransitionTo | pkg/didcomm/protocol/presentproof/states.go:164-168 | request-received accepts exactly presentation-sent, proposal-sent and abandoning |
| ProtocolStates.RequestSentCanTransitionTo | pkg/didcomm/protocol/presentproof/states.go:185-189 | request-sent accepts exactly presentation-received, proposal-received and abandoning |
| ProtocolStates.PresentationSentCanTransitionTo | pkg/didcomm/protocol/presentproof/states.go:219-222 | presentation-sent accepts exactly abandoning and done |
| ProtocolStates.PresentationReceivedCanTransitionTo | pkg/didcomm/protocol/presentproof/states.go:246-249 | presentation-received accepts exactly abandoning and done |
| ProtocolStates.ProposalSentCanTransitionTo | pkg/didcomm/protocol/presentproof/states.go:297-300 | proposal-sent accepts exactly request-received and abandoning |
| ProtocolStates.ProposalReceivedCanTransitionTo | pkg/didcomm/protocol/presentproof/states.go:329-332 | proposal-received accepts exactly request-sent and abandoning |
| ProtocolStates.CanTransitionTo | pkg/didcomm/protocol/presentproof/states.go:54-55 | a transition is allowed iff its pair of names is in the Verifier, Prover or common edge table; nothing accepts noop, and done and noop accept nothing |
| ProtocolStates.RolesNeverMix | pkg/didcomm/protocol/presentproof/states.go:28-36 | an allowed transition never goes from a Verifier state to a Prover state or back |
| ProtocolStates.NegotiationCycles | pkg/didcomm/protocol/presentproof/states.go:164-332 | request-sent ↔ proposal-received and proposal-sent ↔ request-received are allowed both ways |
| PresentationVerifier.VerifyPresentation | pkg/didcomm/protocol/presentproof/states.go:251-268 | succeeds on no attachments; succeeds iff every attachment decodes and verifies; a failure is the failure of some attachment all of whose predecessors passed |
| PresentationVerifier.FirstFailureDecides | pkg/didcomm/protocol/presentproof/states.go:253-265 | when attachment i is the first to fail, its error is the result, whatever comes after it |
| PresentationVerifier.VerifyAppend | pkg/didcomm/protocol/presentproof/states.go:253-267 | verifying a + b is verifying a, then b only if a passed |
| StateExecutor.CanReplyToReadsOnlyThreadKey | pkg/didcomm/protocol/presentproof/states.go:302-305 | `canReplyTo` holds iff the message has a `~thread` key: adding or removing any other key never changes it |
| StateExecutor.ForwardInitial | pkg/didcomm/protocol/presentproof/states.go:191-195 | the action is a `Send` of the current message itself, from my DID to theirs |
| StateExecutor.ExecuteStart | pkg/didcomm/protocol/presentproof/states.go:84-86 | executing start always fails with the not-implemented error, with no state and no action |
| StateExecutor.ExecuteAbandoning | pkg/didcomm/protocol/presentproof/states.go:101-125 | an empty code gives done with the zero action; otherwise it fails iff the thread id cannot be derived, and else gives done with a problem report nested in that thread, from my DID to theirs, coded `rejected` on user cancellation and with the given code otherwise |
| StateExecutor.ExecuteDone | pkg/didcomm/protocol/presentproof/states.go:138-140 | done gives noop with the zero action |
| StateExecutor.ExecuteNoOp | pkg/didcomm/protocol/presentproof/states.go:153-155 | executing noop always fails |
| StateExecutor.ExecuteRequestReceived | pkg/didcomm/protocol/presentproof/states.go:170-176 | never fails and gives the zero action; the successor is presentation-sent iff a presentation is supplied, and proposal-sent iff none is |
| StateExecutor.ExecuteRequestSent | pkg/didcomm/protocol/presentproof/states.go:197-210 | always yields noop; without a thread it sends the current message whether or not a request is supplied; with a thread it fails iff no request is supplied, and else replies to the message id with the request typed as a request-presentation |
| StateExecutor.ExecutePresentationSent | pkg/didcomm/protocol/presentproof/states.go:224-237 | fails iff no presentation is supplied; otherwise gives noop and a reply to the message id with the presentation typed as a presentation |
| StateExecutor.ExecutePresentationReceived | pkg/didcomm/protocol/presentproof/states.go:270-288 | succeeds iff the message decodes and every attachment decodes and verifies, and then gives done with an ack reply to the message id; a message decode failure is a decode error and an attachment failure is a verification error |
| StateExecutor.ExecuteProposalSent | pkg/didcomm/protocol/presentproof/states.go:307-320 | as request-sent, with the proposal and the propose-presentation type |
| StateExecutor.ExecuteProposalReceived | pkg/didcomm/protocol/presentproof/states.go:334-336 | never fails; gives request-sent with the zero action |
| StateExecutor.Execute | pkg/didcomm/protocol/presentproof/states.go:56-58 | fails exactly under the conditions of `Fails`; every successor other than noop is accepted by the state's CanTransitionTo; the rank decreases; never yields start or abandoning; stays within the state's role; actions come only with noop or done; a send only when the message has no thread, and every reply targets the message id |
| StateExecutor.FollowUpsEndWithinTwoSteps | pkg/didcomm/protocol/presentproof/states.go:56-57 | executing a state's follow-up either fails or yields noop |
| StateExecutor.PresentationReceivedReportsFirstFailure | pkg/didcomm/protocol/presentproof/states.go:270-278 | the error of presentation-received is the verification error of the first failing attachment |
| StateExecutor.ProposalSentMirrorsRequestSent | pkg/didcomm/protocol/presentproof/states.go:307-320 | proposal-sent is request-sent with the proposal in place of the request, renaming the message type and the missing-payload error |

## Left out

- The bodies of the deferred actions (`messenger.Send`, `ReplyTo`, `ReplyToNested`, `service.NewDIDCommMsgMap`) are network I/O. They are represented only by the `Action` value naming the primitive, its target and the outbound message.
- The closures read the metadata when they run, not when `Execute` returns. The model fixes the message id, payload and DIDs at `Execute` time. It also leaves out the in-place write of each payload's `Type` field, which happens inside those closures.
- `base64.StdEncoding.DecodeString` is a function parameter, not a model of the base64 alphabet.
- `verifiable.NewPresentation` with the registry's key resolver is an opaque accept/reject function over the decoded bytes, because it is foreign cryptographic verification.
- `Msg.ID`, `Msg.ThreadID` and `Msg.Decode` belong to another package. They are fields of `Message`.
- `errors.As` on `customError` is the `userCancelled` flag.
- The URI values of the message-type constants are defined outside states.go. They are the enum `MsgType`.
- The Go error texts are represented by the `Error` constructors, which keep the wrapped cause but not the formatted string.
- The conversation driver loop, its substitution of `abandoning` with the `internal` or `rejected` code on error, and concurrency between conversations are not in states.go.
