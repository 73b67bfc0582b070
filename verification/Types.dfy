/**
 Identifiers and records exchanged between the coordinator (the "fabric"), the
 decode executors and the wire. Every identifier is a plain number; zero is the
 null identifier.
 */
module Types {

  type byte = bv8

  const NULL: nat := 0
  const TWO32: nat := 0x1_0000_0000
  const TWO64: nat := 0x1_0000_0000_0000_0000

  datatype Option<+T> = None | Some(value: T)

  /** Success, or one of the error codes below. */
  datatype Result<+T> = Ok(value: T) | Err(error: nat) {
    predicate IsFailure() { Err? }
    function PropagateFailure<U>(): Result<U>
      requires Err?
    {
      Err(error)
    }
    function Extract(): T
      requires Ok?
    {
      value
    }
  }

  // Error codes, with the numbers they carry on the wire.
  const ERR_OK: nat := 0
  const ERR_INVALID_ARGUMENT: nat := 1
  const ERR_ALREADY_TERMINAL: nat := 5
  const ERR_UNKNOWN_STATE: nat := 17
  const ERR_DUPLICATE_COMPLETION: nat := 65
  const ERR_SUPERSEDED_BY_RETRY: nat := 69
  const ERR_STATE_DIGEST_MISMATCH: nat := 73
  const ERR_TRANSACTION_CONFLICT: nat := 74
  const ERR_BACKEND: nat := 84
  const ERR_PROTOCOL_MALFORMED: nat := 90
  const ERR_PROTOCOL_OVERSIZED: nat := 91
  const ERR_PROTOCOL_UNKNOWN_VERSION: nat := 93
  const ERR_PROTOCOL_UNKNOWN_TYPE: nat := 94
  const ERR_PROTOCOL_INVALID_FIELD: nat := 95
  const ERR_PERSISTENCE_CORRUPT: nat := 100
  const ERR_PERSISTENCE_CHECKSUM: nat := 101
  const ERR_PERSISTENCE_TRUNCATED: nat := 102
  const ERR_PERSISTENCE_VERSION: nat := 103
  const ERR_PERSISTENCE_INVALID_FIELD: nat := 105
  const ERR_BOUNDED_LENGTH: nat := 112

  // Member outcome kinds. A kind read from the wire may be any byte.
  const STEP_SUCCESS_CONTINUE: nat := 0
  const STEP_SUCCESS_TERMINAL: nat := 1
  const YIELDED: nat := 2
  const RETRYABLE_FAILURE: nat := 3
  const NON_RETRYABLE_FAILURE: nat := 4
  const OUTCOME_CANCELLED: nat := 5
  const OUTCOME_EXPIRED: nat := 6
  const STALE_AUTHORITY_REJECTED: nat := 7

  predicate Succeeded(kind: nat) {
    kind == STEP_SUCCESS_CONTINUE || kind == STEP_SUCCESS_TERMINAL
  }

  datatype StateDescriptor = StateDescriptor(
    id: nat, generation: nat, device: nat, bytesHeld: nat, estimatedGrowth: nat,
    ownerTag: nat, accessVersion: nat)

  datatype CompatibilityKey = CompatibilityKey(
    model: nat, revision: nat, adapter: nat, backend: nat, device: nat, dtype: nat,
    tensorLayout: nat, kvRepresentation: nat, sequenceRequirements: nat, operatorPolicy: nat)
  {
    predicate Valid() { model != NULL && device != NULL }
  }

  datatype DeviceDescriptor = DeviceDescriptor(
    id: nat, backend: nat, name: seq<byte>, computeMajor: nat, computeMinor: nat,
    memoryBytes: nat, supportedDtypes: nat, maxGroups: nat)

  /** What one dispatched sequence asks of an executor. */
  datatype MemberSpec = MemberSpec(
    sequence: nat, attempt: nat, generation: nat, state: StateDescriptor,
    currentLength: nat, generatedTokens: nat, remainingBudget: nat, payload: seq<byte>)

  datatype ExecutionRequest = ExecutionRequest(
    dispatch: nat, epoch: nat, worker: nat, workerBoot: nat,
    key: CompatibilityKey, device: DeviceDescriptor, reservation: nat,
    members: seq<MemberSpec>, groupPayload: seq<byte>, deadlineHint: int)

  datatype MemberOutcome = MemberOutcome(
    sequence: nat, kind: nat, attempt: nat, generation: nat, generated: nat, token: nat,
    terminal: bool, errorCode: nat, errorText: seq<byte>, retryable: bool,
    startedAt: int, finishedAt: int, activeNs: int, kvDelta: nat, kvAfter: nat)

  datatype ExecutionResult = ExecutionResult(
    dispatch: nat, epoch: nat, worker: nat, workerBoot: nat, outcomes: seq<MemberOutcome>)

  /** The complete identity a transition is bound to. */
  datatype Authority = Authority(
    epoch: nat, worker: nat, workerBoot: nat, sequence: nat, state: nat,
    attempt: nat, generation: nat, dispatch: nat)

  datatype PreparedMember = PreparedMember(
    auth: Authority, proposal: nat, pre: nat, post: nat, delta: nat,
    outcome: MemberOutcome, before: nat, after: nat, activeNs: int)

  datatype PreparedDecode = PreparedDecode(
    dispatch: nat, epoch: nat, worker: nat, workerBoot: nat, members: seq<PreparedMember>,
    activeNs: int, groupError: nat, groupErrorText: seq<byte>)

  /** A one-use permission to promote one prepared transition. */
  datatype CommitGrant = CommitGrant(
    grant: nat, proposal: nat, auth: Authority, position: nat, pre: nat, post: nat, delta: nat,
    kind: nat, terminal: bool, token: nat, activeNs: int)

  datatype MemberReceipt = MemberReceipt(
    receipt: nat, grant: nat, proposal: nat, auth: Authority, before: nat, after: nat,
    pre: nat, post: nat, delta: nat, kind: nat, terminal: bool, token: nat,
    activeNs: int, committedAt: int)

  datatype ReceiptDecode = ReceiptDecode(
    dispatch: nat, epoch: nat, worker: nat, workerBoot: nat, receipts: seq<MemberReceipt>,
    groupError: nat, groupErrorText: seq<byte>)

  datatype AbortPrepared = AbortPrepared(proposal: nat, auth: Authority)

  /** The durable record of the last finalised generation of a sequence. */
  datatype AcceptedGeneration = AcceptedGeneration(
    key: nat, auth: Authority, before: nat, after: nat, pre: nat, post: nat, delta: nat,
    terminal: bool, promotionObserved: bool)

  /** A receipt answers a grant: the comparison both sides make. The worker id is not compared. */
  predicate Answers(r: MemberReceipt, g: CommitGrant) {
    && r.grant == g.grant && r.proposal == g.proposal
    && r.auth.(worker := g.auth.worker) == g.auth
    && r.before == g.position && r.pre == g.pre && r.post == g.post
  }
}
