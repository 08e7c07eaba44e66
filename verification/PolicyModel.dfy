/** The policy gate as a value: a writer channel on top of the effect gate and its journal. One session at a time, one
    maintenance per generation, one outstanding write; a restart rebuilds the writes from the journal alone. */
module PolicyModel {
  import opened Vocabulary
  import opened Journal
  import opened GateModel
  import opened WriteReplay

  // ---------------------------------------------------------------------------------------------- state

  datatype Session = Session(opened_: bool, challenge: Option<string>, nextSequence: int, lastDigest: string,
                             owner: bool)

  const CONNECTED := Session(false, None, 1, ZERO_DIGEST, false)

  /** The one write sent upstream, with what its deferred response needs. */
  datatype PendingWrite = PendingWrite(writeId: nat, operation: WriteOperation, requestDigest: string, sequence: int,
                                       frameDigest: string, rendered: string)

  datatype Policy = Policy(gate: Gate, maintenance: Maintenance, reason: Option<MaintenanceReason>,
                           session: Option<Session>, writes: Writes, pending: Option<PendingWrite>)

  // ---------------------------------------------------------------------------------------------- inputs

  datatype WriteRequest = WriteRequest(writeId: nat, operation: WriteOperation, kind: string, namespace: Option<string>,
                                       name: string, prior: Option<Prior>, body: string)

  /** The policy-kind table as functions: `check` gives the refusal of a write outside it, `render` the exact
      request. */
  datatype PolicyConfig = PolicyConfig(
    base: Config,
    check: WriteRequest -> Option<string>,
    apiVersion: WriteRequest -> string,
    render: WriteRequest -> Option<string>,
    requestDigest: string -> string,
    frameDigest: WriterFrame -> string)

  datatype WriterOperation = MaintenanceStatus | WriteBegin | WriteObject | WriteEndOperation

  datatype WriterRequest = AskMaintenance | AskBegin(expectedGeneration: string) | AskWrite(write: WriteRequest)
    | AskEnd

  datatype WriterResponse =
    | WriterRefused(reason: string)
    | MaintenanceOk(generation: string, gateState: State, maintenance: Maintenance, inFlightActionId: Option<nat>,
                    writes: nat, ambiguousWriteIds: seq<nat>)
    | BeginOk(maintenance: Maintenance, gateState: State, deniedActionIds: set<nat>)
    | WriteOk(writeId: nat, classification: Classification, requestDigest: string, delivered: Option<WriteDetails>)
    | EndOk(gateState: State, writes: nat, ambiguousWriteIds: seq<nat>)

  datatype WriterWay = WriterToGate | GateToWriter

  datatype WriterPayload = WriterAsk(request: WriterRequest) | WriterAnswer(response: WriterResponse)

  datatype WriterFrame = WriterFrame(challenge: string, sequence: int, previousDigest: string, way: WriterWay,
                                     operation: WriterOperation, payload: WriterPayload)

  datatype WriterInput = BadFrame(code: FrameError) | GoodFrame(frame: WriterFrame)

  datatype UpstreamOutcome = OutcomeLost | OutcomeTimeout | OutcomeResponse(response: UpstreamResponse)

  /** `fits`: whether the gate's own response stays inside the schema, which the environment decides. */
  datatype PolicyEvent =
    | Base(event: Event)
    | WConnect
    | WFrame(input: WriterInput, fits: bool)
    | WChannelLost
    | WPeerChanged
    | WUpstream(writeId: nat, outcome: UpstreamOutcome, fits: bool)
    | WAnswerLate

  datatype WriterFatal =
    | Lockstep | WriterInvalidFrame(code: FrameError) | WriterDirection | WriterChainBroken | WriterOpeningRequired
    | WriterChallengeMismatch | WriterPeerChanged | WriterResponseOutOfBounds | WriterAnswerLate

  datatype PolicyOutput =
    | OfBase(output: Output)
    | OfRestart(state: State, maintenance: Maintenance)
    | SessionConnected
    | SessionRefused
    | WriterResponds(frame: WriterFrame)
    | WriteWasForwarded(writeId: nat)
    | SessionOver(how: SessionEnd, maintenance: Maintenance, fatal: Option<WriterFatal>)
    | WriteAnswered(classification: Classification, response: Option<WriterFrame>)
    | WriteNotRelayed
    | Empty

  datatype PolicyOutcome = PolicyHandled(policy: Policy, output: PolicyOutput, drain: Option<DrainAnswer>)
    | PolicyOutside

  /** The largest sequence of the writer frame schema. */
  const MAX_SEQUENCE := 2147483647

  // ---------------------------------------------------------------------------------------------- writes

  predicate AnyAmbiguousWrite(writes: Writes) {
    exists id | id in writes :: writes[id] == WriteDone(IoAmbiguous)
  }

  ghost function Ascending(ids: set<nat>): seq<nat> {
    if ids == {} then [] else [Least(ids)] + Ascending(ids - {Least(ids)})
  }

  ghost function AmbiguousIds(writes: Writes): seq<nat> {
    Ascending(set id | id in writes && writes[id] == WriteDone(IoAmbiguous))
  }

  function WriteCount(writes: Writes): nat {
    if |writes| <= 65535 then |writes| else 65535
  }

  // ---------------------------------------------------------------------------------------------- helpers

  ghost function Told(w: World, p: Policy, record: Record): Policy {
    p.(gate := Journalled(w, p.gate, record))
  }

  predicate Lasts(w: World, p: Policy) {
    LastsNext(w, p.gate.stores)
  }

  /** A waiting maintenance opens only if its record is durable. */
  ghost function OpenIfReady(w: World, p: Policy): Policy {
    if p.maintenance == MaintPending && Fence(p.gate) == AnswerOpen then
      Told(w, p, Record.MaintOpened(p.gate.state)).(maintenance := if Lasts(w, p) then MaintOpen else MaintPending)
    else p
  }

  /** A waiting or open maintenance is held with the fence. */
  ghost function HoldIfHeld(w: World, p: Policy): Policy {
    if (p.maintenance == MaintPending || p.maintenance == MaintOpen) && Fence(p.gate) == AnswerHeld
    then Told(w, p.(maintenance := MaintHeld), Record.MaintWasHeld(p.gate.state))
    else p
  }

  ghost function SettleMaintenance(w: World, p: Policy): Policy {
    HoldIfHeld(w, OpenIfReady(w, p))
  }

  ghost function EndMaintenance(w: World, p: Policy, end: MaintenanceEnd): Policy {
    Told(w, p.(maintenance := MaintEnded, reason := Some(EndedFor(end))),
         Record.MaintWasEnded(end, WriteCount(p.writes), AmbiguousIds(p.writes)))
  }

  /** The gate gives up on the outstanding write: ambiguous, and the generation held whatever the record's result. */
  ghost function AbortPending(w: World, p: Policy, reason: AbortReason): Policy {
    if p.pending.None? then p
    else
      var id := p.pending.value.writeId;
      var told := Told(w, p.(pending := None), Record.WriteTerminal(id, IoAmbiguous, WriteAborted(reason)));
      told.(writes := told.writes[id := WriteDone(IoAmbiguous)], gate := told.gate.(state := Held))
  }

  ghost function EndSession(w: World, p: Policy, how: SessionEnd): Policy {
    var owner := p.session.Some? && p.session.value.owner;
    var over := Told(w, p.(session := None), Record.WriterSessionEnded(how));
    if owner && over.maintenance != MaintEnded then EndMaintenance(w, over, BySession(how)) else over
  }

  function SaysOver(p: Policy, how: SessionEnd, fatal: Option<WriterFatal>): PolicyOutput {
    SessionOver(how, p.maintenance, fatal)
  }

  ghost function FatalWriter(w: World, p: Policy, reason: WriterFatal): (Policy, PolicyOutput) {
    var over := EndSession(w, AbortPending(w, p, WriterProtocolFailure), SessionFatal);
    (over, SaysOver(over, SessionFatal, Some(reason)))
  }

  function AnswerFrame(c: PolicyConfig, s: Session, sequence: int, requestDigest: string, operation: WriterOperation,
                       response: WriterResponse): WriterFrame
  {
    WriterFrame(if s.challenge.Some? then s.challenge.value else "", sequence + 1, requestDigest, GateToWriter,
                operation, WriterAnswer(response))
  }

  /** Frames a response and advances the session's chain; `None` without a session or outside the schema. */
  function FrameResponse(c: PolicyConfig, p: Policy, sequence: int, requestDigest: string, operation: WriterOperation,
                         response: WriterResponse, fits: bool): (Policy, Option<WriterFrame>)
  {
    if p.session.None? || !fits then (p, None)
    else
      var frame := AnswerFrame(c, p.session.value, sequence, requestDigest, operation, response);
      (p.(session := Some(p.session.value.(nextSequence := sequence + 2, lastDigest := c.frameDigest(frame)))),
       Some(frame))
  }

  // ---------------------------------------------------------------------------------------------- restart

  ghost function PolicyRestart(w: World, p: Policy): Policy {
    var (writes, reason) := RebuildWrites(p.gate.stores.entries);
    Policy(SettleDrain(w, RestartWith(w, p.gate, AnyAmbiguousWrite(writes))).0, MaintEnded, Some(reason), None, writes,
           None)
  }

  /** A policy gate around a base gate that has not restarted. */
  function Around(g: Gate): Policy {
    Policy(g, NotBegun, None, None, map[], None)
  }

  /** The process restart: a new process on a journal it scanned. */
  ghost function Reopen(c: PolicyConfig, w: World, s: Stores, untraced: bool): Policy {
    SettleMaintenance(w, PolicyRestart(w, Around(OnStores(c.base, s, untraced))))
  }

  // ---------------------------------------------------------------------------------------------- operations

  ghost function BeginOn(c: PolicyConfig, w: World, p: Policy, expectedGeneration: string): (Policy, WriterResponse) {
    if expectedGeneration != c.base.generation then (p, WriterRefused("GENERATION_MISMATCH"))
    else if p.maintenance == MaintEnded then (p, WriterRefused("MAINTENANCE_ENDED"))
    else if p.maintenance == NotBegun then
      var armed := WithStatus(p.gate.actions, Armed);
      var told := Told(w, p, Record.MaintRequested(c.base.generation));
      if !Lasts(w, p) then (told, WriterRefused("STORAGE_FAILURE"))
      else
        var owned := told.(session := if told.session.Some? then Some(told.session.value.(owner := true)) else None,
                           maintenance := MaintPending);
        var drained := owned.(gate := DrainOn(w, owned.gate).0);
        var settled := SettleMaintenance(w, drained);
        (settled, BeginOk(settled.maintenance, settled.gate.state, DeniedSince(drained.gate, armed)))
    else
      var settled := SettleMaintenance(w, p);
      (settled, BeginOk(settled.maintenance, settled.gate.state, {}))
  }

  /** The refusals of WRITE_OBJECT before its record. */
  function WriteCheck(c: PolicyConfig, p: Policy, request: WriteRequest): Option<string> {
    if p.maintenance != MaintOpen then
      Some(if p.maintenance == MaintHeld then "MAINTENANCE_HELD" else "MAINTENANCE_NOT_OPEN")
    else if request.writeId != |p.writes| + 1 then Some("WRITE_ID_OUT_OF_ORDER")
    else if c.check(request).Some? then c.check(request)
    else if c.render(request).None? then Some("OBJECT_RULE")
    else None
  }

  function WriteRecord(c: PolicyConfig, request: WriteRequest, rendered: string): Record {
    Record.WriteForwarded(request.writeId, request.operation, c.apiVersion(request), request.kind, request.namespace,
                          request.name, c.requestDigest(rendered), request.prior)
  }

  /** `None` when the write was forwarded and its response waits. */
  ghost function WriteOn(c: PolicyConfig, w: World, p: Policy, request: WriteRequest, sequence: int,
                         frameDigest: string)
    : (Policy, Option<WriterResponse>)
  {
    var refusal := WriteCheck(c, p, request);
    if refusal.Some? then (p, Some(WriterRefused(refusal.value)))
    else
      var rendered := c.render(request).value;
      var told := Told(w, p, WriteRecord(c, request, rendered));
      if !Lasts(w, p) then (told, Some(WriterRefused("STORAGE_FAILURE")))
      else
        (told.(writes := told.writes[request.writeId := WriteSent],
               pending := Some(PendingWrite(request.writeId, request.operation, c.requestDigest(rendered), sequence,
                                            frameDigest, rendered))),
         None)
  }

  ghost function EndOn(w: World, p: Policy): (Policy, WriterResponse) {
    if p.maintenance == NotBegun then (p, WriterRefused("MAINTENANCE_NOT_BEGUN"))
    else if p.maintenance == MaintEnded then (p, WriterRefused("MAINTENANCE_ENDED"))
    else
      var told := Told(w, p, Record.MaintWasEnded(WriteEnd, WriteCount(p.writes), AmbiguousIds(p.writes)));
      if !Lasts(w, p) then (told, WriterRefused("STORAGE_FAILURE"))
      else
        (told.(maintenance := MaintEnded, reason := Some(EndedFor(WriteEnd))),
         EndOk(told.gate.state, WriteCount(told.writes), AmbiguousIds(told.writes)))
  }

  ghost function MaintenanceOf(c: PolicyConfig, p: Policy): WriterResponse {
    MaintenanceOk(c.base.generation, p.gate.state, p.maintenance, First(p.gate.actions, Status.Consumed),
                  WriteCount(p.writes), AmbiguousIds(p.writes))
  }

  // ---------------------------------------------------------------------------------------------- writer frames

  function WriterOperationOf(request: WriterRequest): WriterOperation {
    match request
    case AskMaintenance => MaintenanceStatus
    case AskBegin(_) => WriteBegin
    case AskWrite(_) => WriteObject
    case AskEnd => WriteEndOperation
  }

  /** The envelope checks of a session's frame, in order. */
  function WriterCheck(s: Session, f: WriterFrame): Option<WriterFatal> {
    if f.way != WriterToGate || f.sequence % 2 != 1 then Some(WriterDirection)
    else if f.sequence != s.nextSequence || f.previousDigest != s.lastDigest then Some(WriterChainBroken)
    else if !s.opened_ && f.operation != MaintenanceStatus then Some(WriterOpeningRequired)
    else if s.opened_ && s.challenge != Some(f.challenge) then Some(WriterChallengeMismatch)
    else None
  }

  ghost function WriterPerform(c: PolicyConfig, w: World, p: Policy, request: WriterRequest, sequence: int,
                               frameDigest: string)
    : (Policy, Option<WriterResponse>)
  {
    match request
    case AskMaintenance => (p, Some(MaintenanceOf(c, p)))
    case AskBegin(g) => var (begun, response) := BeginOn(c, w, p, g); (begun, Some(response))
    case AskWrite(write) => WriteOn(c, w, p, write, sequence, frameDigest)
    case AskEnd => var (ended, response) := EndOn(w, p); (ended, Some(response))
  }

  /** The operation of a frame that passed, and its framed response unless a write is waiting. */
  ghost function WriterAnswered(c: PolicyConfig, w: World, p: Policy, f: WriterFrame, fits: bool)
    : (Policy, PolicyOutput)
    requires f.payload.WriterAsk?
  {
    var (done, response) := WriterPerform(c, w, p, f.payload.request, f.sequence, c.frameDigest(f));
    if response.None? then (done, WriteWasForwarded(done.pending.value.writeId))
    else
      var (framed, frame) := FrameResponse(c, done, f.sequence, c.frameDigest(f), f.operation, response.value, fits);
      if frame.Some? then (framed, WriterResponds(frame.value)) else FatalWriter(w, framed, WriterResponseOutOfBounds)
  }

  ghost function WriterFrameOn(c: PolicyConfig, w: World, p: Policy, input: WriterInput, fits: bool)
    : (Policy, PolicyOutput)
    requires p.session.Some?
  {
    if p.pending.Some? then FatalWriter(w, p, Lockstep)
    else
      match input
      case BadFrame(code) => FatalWriter(w, p, WriterInvalidFrame(code))
      case GoodFrame(f) =>
        var s := p.session.value;
        var broken := WriterCheck(s, f);
        if broken.Some? then FatalWriter(w, p, broken.value)
        else
          var open := if s.opened_ then p else p.(session := Some(s.(opened_ := true, challenge := Some(f.challenge))));
          if f.sequence >= MAX_SEQUENCE then FatalWriter(w, open, WriterResponseOutOfBounds)
          else if !f.payload.WriterAsk? || WriterOperationOf(f.payload.request) != f.operation then
            FatalWriter(w, open, WriterInvalidFrame(F00))
          else WriterAnswered(c, w, open, f, fits)
  }

  // ---------------------------------------------------------------------------------------------- upstream

  predicate IsHex(c: char) {
    '0' <= c <= '9' || 'a' <= c <= 'f'
  }

  predicate IsDigest(text: string) {
    |text| == 71 && text[..7] == "sha256:" && forall i | 7 <= i < 71 :: IsHex(text[i])
  }

  predicate IsToken(text: string, max: nat, dash: bool) {
    1 <= |text| <= max
    && forall i | 0 <= i < |text| ::
         '0' <= text[i] <= '9' || 'a' <= text[i] <= 'z' || 'A' <= text[i] <= 'Z' || (dash && text[i] == '-')
  }

  /** A response the WRITE_OBJECT answer can carry unchanged. */
  predicate ResponseInSchema(r: UpstreamResponse) {
    && 100 <= r.httpStatus <= 599
    && IsDigest(r.bodyDigest)
    && (r.uid.Some? ==> IsToken(r.uid.value, 128, true))
    && (r.resourceVersion.Some? ==> IsToken(r.resourceVersion.value, 64, false))
  }

  function ClassifyWrite(operation: WriteOperation, outcome: UpstreamOutcome): (Classification, WriteDetails) {
    match outcome
    case OutcomeLost => (IoAmbiguous, WriteLost)
    case OutcomeTimeout => (IoAmbiguous, WriteAborted(UpstreamTimedOut))
    case OutcomeResponse(r) =>
      if !WriteOutcomeIsFinal(operation, r.httpStatus)
        then (IoAmbiguous, WriteReconciliation(r.httpStatus, r.bodyDigest))
      else
        var done := IsSuccess(operation, r.httpStatus);
        (DeliveredResult, WriteDelivered(r.httpStatus, r.bodyDigest, if done then r.uid else None,
                                         if done then r.resourceVersion else None))
  }

  /** The outcome of the outstanding write: recorded first; without a durable record it is ambiguous. */
  ghost function SettleWrite(w: World, p: Policy, outcome: UpstreamOutcome)
    : (Policy, Classification, Option<WriteDetails>)
    requires p.pending.Some?
  {
    var pending := p.pending.value;
    var (decided, details) := ClassifyWrite(pending.operation, outcome);
    var recorded := Lasts(w, p);
    var told := Told(w, p.(pending := None), Record.WriteTerminal(pending.writeId, decided, details));
    var classification := if recorded then decided else IoAmbiguous;
    (told.(writes := told.writes[pending.writeId := WriteDone(classification)],
           gate := if classification == IoAmbiguous then told.gate.(state := Held) else told.gate),
     classification, if recorded && details.WriteDelivered? then Some(details) else None)
  }

  ghost function WriteUpstreamOn(c: PolicyConfig, w: World, p: Policy, writeId: nat, outcome: UpstreamOutcome,
                                 fits: bool)
    : PolicyOutcome
  {
    if outcome.OutcomeResponse? && !ResponseInSchema(outcome.response) then PolicyOutside
    else if p.pending.None? || p.pending.value.writeId != writeId then
      if writeId !in p.writes then PolicyOutside
      else PolicyHandled(Told(w, p, Record.WriteLateUpstream(writeId)), WriteNotRelayed, None)
    else
      var pending := p.pending.value;
      var (settled, classification, delivered) := SettleWrite(w, p, outcome);
      if settled.session.None? then PolicyHandled(settled, WriteAnswered(classification, None), None)
      else
        var response := WriteOk(writeId, classification, pending.requestDigest, delivered);
        var (framed, frame) :=
          FrameResponse(c, settled, pending.sequence, pending.frameDigest, WriteObject, response, fits);
        if frame.Some? then PolicyHandled(framed, WriteAnswered(classification, frame), None)
        else PolicyHandled(FatalWriter(w, framed, WriterResponseOutOfBounds).0, WriteAnswered(classification, None),
                           None)
  }

  // ---------------------------------------------------------------------------------------------- events

  ghost function LoseWriter(w: World, p: Policy): (Policy, PolicyOutput) {
    if p.session.None? then (p, Empty)
    else
      var over := EndSession(w, AbortPending(w, p, WriterChannelLost), SessionEnded);
      (over, SaysOver(over, SessionEnded, None))
  }

  /** The writer no longer holds the session, or an answer came too late: abort, hold urgently, end the session. */
  ghost function DistrustWriter(w: World, p: Policy, abort: AbortReason, reason: Invalidation, fatal: WriterFatal)
    : (Policy, PolicyOutput)
  {
    if p.session.None? then (p, Empty)
    else
      var aborted := AbortPending(w, p, abort);
      var held := aborted.(gate := Urgent(w, aborted.gate, Held, reason).(state := Held));
      var over := EndSession(w, held, SessionFatal);
      (over, SaysOver(over, SessionFatal, Some(fatal)))
  }

  function ConnectWriter(p: Policy): (Policy, PolicyOutput) {
    if p.session.Some? then (p, SessionRefused) else (p.(session := Some(CONNECTED)), SessionConnected)
  }

  ghost function WriterDispatch(c: PolicyConfig, w: World, p: Policy, event: PolicyEvent): PolicyOutcome
    requires !event.Base?
  {
    match event
    case WConnect => var (q, output) := ConnectWriter(p); PolicyHandled(q, output, None)
    case WFrame(input, fits) =>
      if p.session.None? then PolicyOutside
      else var (q, output) := WriterFrameOn(c, w, p, input, fits); PolicyHandled(q, output, None)
    case WChannelLost => var (q, output) := LoseWriter(w, p); PolicyHandled(q, output, None)
    case WPeerChanged =>
      var (q, output) := DistrustWriter(w, p, WriterPeerDeviated, WriterPeerDeviation, WriterPeerChanged);
      PolicyHandled(q, output, None)
    case WUpstream(writeId, outcome, fits) => WriteUpstreamOn(c, w, p, writeId, outcome, fits)
    case WAnswerLate =>
      var (q, output) := DistrustWriter(w, p, WriterProtocolFailure, ByFatal(AnswerLate), WriterAnswerLate);
      PolicyHandled(q, output, None)
  }

  ghost function PolicyDispatch(c: PolicyConfig, w: World, p: Policy, event: PolicyEvent): PolicyOutcome {
    match event
    case Base(GateRestart) =>
      var q := PolicyRestart(w, p); PolicyHandled(q, OfRestart(q.gate.state, q.maintenance), None)
    case Base(e) =>
      (match Handle(c.base, w, p.gate, e)
       case Outside => PolicyOutside
       case Handled(g, output, drain) => PolicyHandled(p.(gate := g), OfBase(output), drain))
    case _ =>
      (match WriterDispatch(c, w, p, event)
       case PolicyOutside => PolicyOutside
       case PolicyHandled(q, output, _) =>
         var (g, answer) := SettleDrain(w, q.gate);
         PolicyHandled(q.(gate := g), output, answer))
  }

  /** Applies one event, then lets the maintenance follow the fence. */
  ghost function PolicyHandle(c: PolicyConfig, w: World, p: Policy, event: PolicyEvent): PolicyOutcome {
    match PolicyDispatch(c, w, p, event)
    case PolicyOutside => PolicyOutside
    case PolicyHandled(q, output, drain) => PolicyHandled(SettleMaintenance(w, q), output, drain)
  }
}
