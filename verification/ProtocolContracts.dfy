/**
 The enumerations, limits and messages that the two computers share.

 Random identifiers (UUIDs and prompt identifiers) are natural numbers; the world that runs two
 sessions hands out fresh ones.  A payload whose JSON text has no fixed length carries that length
 in UTF-8 bytes.
 */
module ProtocolContracts {
  datatype Intent = ViewRemote | ShareLocal

  datatype Role = NoRole | Viewer | Sharer

  datatype Phase =
    | AwaitingClientHello
    | AwaitingServerHello
    | AwaitingSecureReady
    | AwaitingSecureAcknowledgement
    | AwaitingConsent
    | Connected
    | Closed

  datatype PromptKind = Pairing | Reversal

  datatype PromptMode = WaitingForPeer | EnterVerificationCode | Decision

  datatype Prompt = Prompt(id: nat, kind: PromptKind, mode: PromptMode)

  const MAXIMUM_FRAME_BYTES := 65536
  const MAXIMUM_RECORDS_PER_REQUEST := 5000
  const BATCH_RECORD_COUNT := 10
  const KEEP_ALIVE_INTERVAL_MS := 2000
  const PAIRING_TIMEOUT_MS := 5000
  const CONNECTION_TIMEOUT_MS := 15000

  /** A diagnostic record: what it says, and the length of its JSON text. */
  datatype DiagnosticRecord = DiagnosticRecord(content: nat, bytes: nat)

  /** A WebRTC negotiation message, the length of its JSON text, and whether the receiver's validator takes it. */
  datatype Signal = Signal(content: nat, bytes: nat, acceptable: bool)

  datatype Message =
    | Ready
    | ReadyAcknowledged
    | ConsentDecision(accepted: bool)
    | Ping(pingId: nat)
    | Pong(pingId: nat)
    | ReversalRequest(reversalId: nat)
    | ReversalDecision(reversalId: nat, accepted: bool)
    | Disconnect
    | ProtocolError
    | DiagnosticsRequest(requestId: nat, limit: nat)
    | DiagnosticsBatch(requestId: nat, records: seq<DiagnosticRecord>, complete: bool)
    | MediaSignal(signal: Signal)

  /** What `ProtocolValidator.secureMessage` asks of a decrypted message beyond its shape. */
  predicate Acceptable(message: Message) {
    match message
    case DiagnosticsRequest(_, limit) => 1 <= limit <= MAXIMUM_RECORDS_PER_REQUEST
    case DiagnosticsBatch(_, records, _) => |records| <= BATCH_RECORD_COUNT
    case MediaSignal(signal) => signal.acceptable
    case _ => true
  }

  /** The JSON text of a list of records without its brackets: the texts with a comma between two of them. */
  function RecordsBytes(records: seq<DiagnosticRecord>): nat {
    if records == [] then 0
    else records[0].bytes + (if |records| > 1 then 1 else 0) + RecordsBytes(records[1..])
  }

  /** The length of the JSON text that is encrypted (a UUID has 36 characters, a time stamp 13 digits, a limit at most 4). */
  function PlaintextBytes(message: Message): nat {
    match message
    case Ready => 16
    case ReadyAcknowledged => 29
    case ConsentDecision(accepted) => if accepted then 43 else 44
    case Ping(_) => 86
    case Pong(_) => 63
    case ReversalRequest(_) => 78
    case ReversalDecision(_, accepted) => if accepted then 95 else 96
    case Disconnect => 58
    case ProtocolError => 37
    case DiagnosticsRequest(_, _) => 94
    case DiagnosticsBatch(_, records, complete) => RecordsBytes(records) + (if complete then 108 else 109)
    case MediaSignal(signal) => 33 + signal.bytes
  }
}
