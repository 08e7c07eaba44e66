/** The closed vocabularies of the effect gate: generation states, classifications, close and fatal reasons, drain
    answers, and those of the policy-writer channel. */
module Vocabulary {
  datatype Option<+T> = None | Some(value: T)

  datatype State = Inspecting | Active | Draining | Closed | Invalidated | Held

  datatype Classification = NotForwarded | DeliveredResult | IoAmbiguous

  datatype Verb = Create | Get | Delete

  datatype FrameError = F00 | F01 | F02 | F03 | F04 | F05 | F06 | F07

  datatype CloseReason =
    | NormalDrain
    | Revocation
    | Expiry
    | PeerFailure
    | StorageFailure
    | ObservationFailure
    | ReconciliationRequired

  datatype FatalReason =
    | InvalidFrame(code: FrameError)
    | Direction
    | ChainBroken
    | GenerationMismatch
    | OpeningFrameRequired
    | ChallengeMismatch
    | PeerQualificationMismatch
    | PeerLost
    | PeerChanged
    | ResponseOutOfBounds
    | AnswerLate

  /** The reason an INVALIDATED record carries. */
  datatype Invalidation = ByClose(reason: CloseReason) | ByFatal(fatal: FatalReason) | WriterPeerDeviation

  datatype ChannelEnd = BeforeFirstFrame | Orderly

  datatype DrainAnswer = AnswerPending | AnswerOpen | AnswerHeld

  datatype Maintenance = NotBegun | MaintPending | MaintOpen | MaintHeld | MaintEnded

  datatype SessionEnd = SessionEnded | SessionFatal

  datatype MaintenanceEnd = WriteEnd | BySession(how: SessionEnd)

  datatype AbortReason = WriterChannelLost | WriterPeerDeviated | WriterProtocolFailure | UpstreamTimedOut

  datatype WriteOperation = WriteCreate | WriteUpdate | WriteDelete

  /** A response settles an action's outcome: any status for GET, the success statuses and every 4xx except 408 for a
      mutation; every other mutation response leaves the outcome unknown. */
  predicate OutcomeIsFinal(verb: Verb, status: int) {
    var rejected := 400 <= status <= 499 && status != 408;
    match verb
    case Get => true
    case Create => rejected || status == 201
    case Delete => rejected || status == 200 || status == 202 || status == 404
  }

  /** The statuses that report a policy write as done. */
  predicate IsSuccess(operation: WriteOperation, status: int) {
    match operation
    case WriteCreate => status == 201
    case WriteUpdate => status == 200 || status == 201
    case WriteDelete => status == 200 || status == 202
  }

  predicate WriteOutcomeIsFinal(operation: WriteOperation, status: int) {
    IsSuccess(operation, status) || (400 <= status <= 499 && status != 408)
  }
}
