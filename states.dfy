/** The ten states of the present-proof protocol, their names, and the static
    rules saying which state may follow which (the `Name` and `CanTransitionTo`
    methods of each state type in states.go). */
module ProtocolStates {

  // State names (states.go:21-37).
  const StartName := "start"
  const AbandoningName := "abandoning"
  const DoneName := "done"
  const NoopName := "noop"
  const RequestSentName := "request-sent"
  const PresentationReceivedName := "presentation-received"
  const ProposalReceivedName := "proposal-received"
  const RequestReceivedName := "request-received"
  const PresentationSentName := "presentation-sent"
  const ProposalSentName := "proposal-sent"

  const AllNames: set<string> := {
    StartName, AbandoningName, DoneName, NoopName,
    RequestSentName, PresentationReceivedName, ProposalReceivedName,
    RequestReceivedName, PresentationSentName, ProposalSentName
  }

  /** A protocol state. Only `Abandoning` carries data: the problem-report code
      to send to the other agent, where the empty code means "do not notify". */
  datatype State =
    | Start
    | Abandoning(code: string)
    | Done
    | NoOp
      // the Verifier's states
    | RequestSent
    | PresentationReceived
    | ProposalReceived
      // the Prover's states
    | RequestReceived
    | PresentationSent
    | ProposalSent

  /** Which party a state belongs to; the common states belong to both. */
  datatype Role = Common | Verifier | Prover

  function RoleOf(s: State): Role
  {
    match s
    case Start | Abandoning(_) | Done | NoOp => Common
    case RequestSent | PresentationReceived | ProposalReceived => Verifier
    case RequestReceived | PresentationSent | ProposalSent => Prover
  }

  /** Two states are the same variant: equal, or both abandoning with any codes. */
  predicate SameVariant(a: State, b: State)
  {
    (a.Abandoning? && b.Abandoning?) || a == b
  }

  /** The `Name` method of every state type. */
  function Name(s: State): (n: string)
    ensures n in AllNames
  {
    match s
    case Start => StartName
    case Abandoning(_) => AbandoningName
    case Done => DoneName
    case NoOp => NoopName
    case RequestSent => RequestSentName
    case PresentationReceived => PresentationReceivedName
    case ProposalReceived => ProposalReceivedName
    case RequestReceived => RequestReceivedName
    case PresentationSent => PresentationSentName
    case ProposalSent => ProposalSentName
  }

  /** Names tell variants apart: comparing names, as every `CanTransitionTo`
      does, is comparing variants while ignoring the abandon code. */
  lemma NameDeterminesVariant(a: State, b: State)
    ensures Name(a) == Name(b) <==> SameVariant(a, b)
  {
  }

  // The `CanTransitionTo` method of each state type. Each compares the
  // candidate's name, as the Go code does; its contract says which variants
  // are accepted.

  function StartCanTransitionTo(next: State): (ok: bool)
    ensures ok <==> next.RequestSent? || next.ProposalReceived? || next.ProposalSent? || next.RequestReceived?
  {
    var n := Name(next);
    // Verifier
    || n == RequestSentName || n == ProposalReceivedName
    // Prover
    || n == ProposalSentName || n == RequestReceivedName
  }

  function AbandoningCanTransitionTo(next: State): (ok: bool)
    ensures ok <==> next.Done?
  {
    Name(next) == DoneName
  }

  function DoneCanTransitionTo(next: State): (ok: bool)
    ensures !ok
  {
    false
  }

  function NoOpCanTransitionTo(next: State): (ok: bool)
    ensures !ok
  {
    false
  }

  function RequestReceivedCanTransitionTo(next: State): (ok: bool)
    ensures ok <==> next.PresentationSent? || next.ProposalSent? || next.Abandoning?
  {
    var n := Name(next);
    n == PresentationSentName || n == ProposalSentName || n == AbandoningName
  }

  function RequestSentCanTransitionTo(next: State): (ok: bool)
    ensures ok <==> next.PresentationReceived? || next.ProposalReceived? || next.Abandoning?
  {
    var n := Name(next);
    n == PresentationReceivedName || n == ProposalReceivedName || n == AbandoningName
  }

  function PresentationSentCanTransitionTo(next: State): (ok: bool)
    ensures ok <==> next.Abandoning? || next.Done?
  {
    var n := Name(next);
    n == AbandoningName || n == DoneName
  }

  function PresentationReceivedCanTransitionTo(next: State): (ok: bool)
    ensures ok <==> next.Abandoning? || next.Done?
  {
    var n := Name(next);
    n == AbandoningName || n == DoneName
  }

  function ProposalSentCanTransitionTo(next: State): (ok: bool)
    ensures ok <==> next.RequestReceived? || next.Abandoning?
  {
    var n := Name(next);
    n == RequestReceivedName || n == AbandoningName
  }

  function ProposalReceivedCanTransitionTo(next: State): (ok: bool)
    ensures ok <==> next.RequestSent? || next.Abandoning?
  {
    var n := Name(next);
    n == RequestSentName || n == AbandoningName
  }

  // The protocol's transition table written per role, as pairs of names:
  // an independent statement of what the ten methods above decide together.

  const VerifierEdges: set<(string, string)> := {
    (StartName, RequestSentName), (StartName, ProposalReceivedName),
    (RequestSentName, PresentationReceivedName), (RequestSentName, ProposalReceivedName),
    (RequestSentName, AbandoningName),
    (ProposalReceivedName, RequestSentName), (ProposalReceivedName, AbandoningName),
    (PresentationReceivedName, AbandoningName), (PresentationReceivedName, DoneName)
  }

  const ProverEdges: set<(string, string)> := {
    (StartName, ProposalSentName), (StartName, RequestReceivedName),
    (RequestReceivedName, PresentationSentName), (RequestReceivedName, ProposalSentName),
    (RequestReceivedName, AbandoningName),
    (ProposalSentName, RequestReceivedName), (ProposalSentName, AbandoningName),
    (PresentationSentName, AbandoningName), (PresentationSentName, DoneName)
  }

  const CommonEdges: set<(string, string)> := {
    (AbandoningName, DoneName)
  }

  /** `s.CanTransitionTo(next)`, dispatched on the state's type. */
  function CanTransitionTo(s: State, next: State): (ok: bool)
    ensures ok <==> (Name(s), Name(next)) in VerifierEdges + ProverEdges + CommonEdges
    ensures next.NoOp? || s.Done? || s.NoOp? ==> !ok
  {
    match s
    case Start => StartCanTransitionTo(next)
    case Abandoning(_) => AbandoningCanTransitionTo(next)
    case Done => DoneCanTransitionTo(next)
    case NoOp => NoOpCanTransitionTo(next)
    case RequestSent => RequestSentCanTransitionTo(next)
    case PresentationReceived => PresentationReceivedCanTransitionTo(next)
    case ProposalReceived => ProposalReceivedCanTransitionTo(next)
    case RequestReceived => RequestReceivedCanTransitionTo(next)
    case PresentationSent => PresentationSentCanTransitionTo(next)
    case ProposalSent => ProposalSentCanTransitionTo(next)
  }

  /** A Verifier state is never followed by a Prover state nor the other way
      round: the two roles only meet in the common states. */
  lemma RolesNeverMix(s: State, next: State)
    requires CanTransitionTo(s, next)
    ensures RoleOf(s) == Common || RoleOf(next) == Common || RoleOf(s) == RoleOf(next)
  {
  }

  /** The table allows negotiation loops on both sides: a request answered by
      a counter-proposal may be re-issued, and a proposal answered by a request
      may be countered again. */
  lemma NegotiationCycles()
    ensures CanTransitionTo(RequestSent, ProposalReceived) && CanTransitionTo(ProposalReceived, RequestSent)
    ensures CanTransitionTo(ProposalSent, RequestReceived) && CanTransitionTo(RequestReceived, ProposalSent)
  {
  }
}
