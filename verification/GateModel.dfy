/** The effect gate of one generation as a value and its events as functions: what each event does to the gate, given
    the environment's storage outcomes. The class in EffectGate.dfy is proved to compute exactly these functions. */
module GateModel {
  import opened Vocabulary
  import opened Journal

  // ---------------------------------------------------------------------------------------------- state

  datatype Stamp = Stamp(executionId: string, actionId: nat)

  datatype Channel = Unopened | Opened | Shut

  datatype Status = Armed | Consumed | Terminal

  /** What ARM_ACTION armed; absent for an action rebuilt from the journal. */
  datatype Target = Target(verb: Verb, manifestDigest: string, uid: Option<string>)

  datatype Action = Action(status: Status, classification: Option<Classification>, after: bool, sealed: bool,
                           armed: Option<Target>, conn: Option<string>, delivered: Option<TerminalDetails>)

  const REBUILT := Action(Armed, None, false, false, None, None, None)

  datatype Connection = Connection(stamp: Option<Stamp>, open: bool, requests: nat, consumed: bool)

  datatype Bound = Bound(executionId: string, runNonce: string)

  datatype MutationKey = CreateOf(manifestDigest: string) | DeleteOf(uid: string)

  type Actions = map<nat, Action>

  type Connections = map<string, Connection>

  /** The gate; `untraced` records that some storage failure left neither a marker, nor a torn entry, nor a durable
      INVALIDATED record (the disclosed residual window). */
  datatype Gate = Gate(
    state: State, drainPending: bool,
    channel: Channel, challenge: Option<string>, nextSequence: int, lastDigest: string,
    bound: Option<Bound>, boundIds: seq<string>, boundNonces: seq<string>, expired: bool,
    actions: Actions, mutationKeys: set<MutationKey>, createdUids: set<(string, string)>,
    backlog: seq<string>, connections: Connections,
    stores: Stores, untraced: bool)

  // ---------------------------------------------------------------------------------------------- inputs

  datatype Run = Run(bindingDigest: string, caseId: string, requestDigest: string, serverCertificateDigest: string,
                     manifests: seq<string>)

  datatype PriorBindings = PriorBindings(executionIds: set<string>, runNonces: set<string>,
                                         manifestDigests: set<string>, manifestIdentities: set<string>)

  /** What A1 compares for an armed action: the request head and the digest of the body. */
  datatype Rendered = Rendered(head: string, bodyDigest: Option<string>)

  /** The resolved configuration. `manifests` maps a manifest digest to its identity; `render` and `template` are the
      request rendering and the template digest of a verb, a manifest and a recorded UID; `digest` is the digest of a
      frame's exact bytes and `ordered` the byte order of text the BIND record lists its members in. */
  datatype Config = Config(
    generation: string, state: State, peerQualificationDigest: string,
    manifests: map<string, string>, runs: map<string, Run>, prior: PriorBindings,
    render: (Verb, string, Option<string>) -> Rendered,
    template: (Verb, string, Option<string>) -> string,
    digest: Frame -> string,
    ordered: seq<string> -> seq<string>)

  datatype BindRequest = BindRequest(executionId: string, bindingDigest: string, reservationDigest: string,
                                     runNonce: string, caseId: string, requestDigest: string,
                                       dispatchGeneration: string,
                                     serverCertificateDigest: string, workerPid: int, workerStartTicks: int,
                                     peerQualificationDigest: string)

  datatype ArmRequest = ArmRequest(executionId: string, actionId: nat, verb: Verb, manifestDigest: string,
                                   requestTemplateDigest: string, recordedUid: Option<string>)

  datatype Operation = GenerationStatus | BindExecution | ArmAction | ActionOutcome | CloseGeneration

  datatype Request =
    | AskStatus
    | AskBind(bind: BindRequest)
    | AskArm(arm: ArmRequest)
    | AskOutcome(executionId: string, actionId: nat)
    | AskClose(reason: CloseReason)

  datatype Refusal =
    | NotActive | DrainIsPending | ActionOutstanding | ExecutionReplay | OtherGeneration | UnknownBinding
    | CertificateDiffers | ManifestReused | WorkerNotObserved | StorageFailed | ExecutionNotBound | ExecutionHasExpired
    | ActionIdOutOfOrder | ManifestOutsideCase | UidRule | UidNotCreated | TemplateMismatch | MutationKeyReused
    | UnknownAction | ActionInFlight

  datatype Response =
    | Refused(refusal: Refusal)
    | StatusOk(state: State, drainPending: bool, boundExecutionId: Option<string>, armedActionId: Option<nat>,
               inFlightActionId: Option<nat>)
    | BindOk(executionId: string, manifestDigests: seq<string>)
    | ArmOk(actionId: nat)
    | OutcomeOk(actionId: nat, classification: Classification, admittedBeforeInvalidation: bool,
                delivered: Option<TerminalDetails>)
    | CloseOk(state: State, deniedActionIds: set<nat>)

  datatype Way = BrokerToGate | GateToBroker

  datatype Payload = Ask(request: Request) | Answer(response: Response)

  /** A frame inside the closed schema. */
  datatype Frame = Frame(generation: string, challenge: string, sequence: int, previousDigest: string, way: Way,
                         operation: Operation, payload: Payload)

  datatype FrameInput = Malformed(code: FrameError) | Decoded(frame: Frame)

  datatype UpstreamResponse = UpstreamResponse(httpStatus: int, bodyDigest: string, uid: Option<string>,
                                               resourceVersion: Option<string>)

  /** One event. The environment decides what it cannot see here: whether the worker a BIND names was observed and
      whether the gate's own response stays inside the schema's bounds. */
  datatype Event =
    | FrameEvent(input: FrameInput, observed: bool, fits: bool)
    | Backlog(conn: string)
    | Accept(conn: string)
    | Disconnect(conn: string)
    | RequestEvent(conn: string, certificate: string, head: string, bodyDigest: Option<string>)
    | Responded(conn: string, response: UpstreamResponse)
    | UpstreamLost(conn: string)
    | UpstreamTimeout(conn: string)
    | DrainRequest
    | Expire
    | ChannelLost
    | SecondChannel
    | PeerHasChanged
    | GateRestart
    | LateAnswer

  datatype ConnectionRefusal =
    | ConnectionClosed | ProtocolViolation | GateNotActive | ExecutionExpired | StampNone | StampMismatch
    | AlreadyConsumed
    | CertificateMismatch | RequestMismatch | JournalFailed

  datatype Output =
    | Nothing
    | Respond(frame: Frame)
    | Fatal(reason: FatalReason)
    | RefusedChannel(inUse: bool)
    | Stamped(stamp: Option<Stamp>)
    | Forward(actionId: nat)
    | CloseConnection(refusal: ConnectionRefusal)
    | Upstreamed(classification: Classification, relayed: bool, aborted: bool)
    | NotRelayed
    | ChannelEnds(end: ChannelEnd)
    | RestartState(state: State)
    | DeniedIds(ids: set<nat>)

  datatype Outcome = Handled(gate: Gate, output: Output, drain: Option<DrainAnswer>) | Outside

  // ---------------------------------------------------------------------------------------------- queries

  predicate Settled(a: Action) {
    a.status == Status.Terminal && a.sealed
  }

  predicate AllSettled(actions: Actions) {
    forall id | id in actions :: Settled(actions[id])
  }

  predicate AnyAmbiguous(actions: Actions) {
    exists id | id in actions :: actions[id].classification == Some(IoAmbiguous)
  }

  function WithStatus(actions: Actions, status: Status): set<nat> {
    set id | id in actions && actions[id].status == status
  }

  ghost function Least(ids: set<nat>): (least: nat)
    requires ids != {}
    ensures least in ids
    ensures forall id | id in ids :: least <= id
  {
    var some :| some in ids;
    var below := set id | id in ids && id < some;
    if below == {} then
      assert forall id | id in ids :: id !in below;
      some
    else
      assert some !in below && below < ids;
      assert forall id | id in ids :: id in below || some <= id;
      Least(below)
  }

  ghost function First(actions: Actions, status: Status): Option<nat> {
    if WithStatus(actions, status) == {} then None else Some(Least(WithStatus(actions, status)))
  }

  predicate InFlight(g: Gate) {
    WithStatus(g.actions, Status.Consumed) != {}
  }

  function Fence(g: Gate): DrainAnswer {
    if g.state == Held then AnswerHeld
    else if !(g.state == State.Closed || g.state == State.Invalidated) || InFlight(g) then AnswerPending
    else AnswerOpen
  }

  predicate IsOrderly(g: Gate) {
    (g.state == State.Closed || g.state == State.Invalidated) && !InFlight(g) && AllSettled(g.actions)
  }

  function StampOf(g: Gate, id: nat): Option<Stamp> {
    if g.bound.Some? then Some(Stamp(g.bound.value.executionId, id)) else None
  }

  /** Of the ids ARMED when an operation started, those that are TERMINAL now. */
  function DeniedSince(g: Gate, armed: set<nat>): set<nat> {
    set id | id in armed && id in g.actions && g.actions[id].status == Status.Terminal
  }

  // ---------------------------------------------------------------------------------------------- replay

  /** What a rebuild accumulates over the journal. */
  datatype Replayed = Replayed(actions: Actions, state: State, torn: bool, inconsistent: bool)

  const NOTHING_REPLAYED := Replayed(map[], Held, false, false)

  function RecordedState(record: Record, before: State): State {
    match record
    case Invalidated(_, state) => state
    case Closed(_, state) => state
    case Drained(state) => state
    case Restarted(state) => state
    case _ => before
  }

  function MarkConsumed(actions: Actions): Actions {
    map id | id in actions :: if actions[id].status == Status.Consumed then actions[id].(after := true) else actions[id]
  }

  function ReplayRecord(q: Replayed, record: Record): Replayed {
    var r := q.(state := RecordedState(record, q.state));
    match record
    case Bind(_, _, _, _, _) => r.(actions := map[])
    case Arm(id, _, _, _, _) => r.(actions := r.actions[id := REBUILT])
    case Consumed(id) =>
      if id in r.actions then r.(actions := r.actions[id := r.actions[id].(status := Status.Consumed, after := false)])
      else r.(inconsistent := true)
    case Invalidated(_, _) => r.(actions := MarkConsumed(r.actions))
    case Expired(_) => r.(actions := MarkConsumed(r.actions))
    case Terminal(id, classification, after, _) =>
      if id in r.actions then
        r.(actions := r.actions[id := r.actions[id].(status := Status.Terminal, classification := Some(classification),
                                                     after := after)])
      else r.(inconsistent := true)
    case Denied(id) =>
      if id in r.actions then
        r.(actions := r.actions[id := r.actions[id].(status := Status.Terminal, classification := Some(NotForwarded))])
      else r.(inconsistent := true)
    case Sealed(id, classification, after) =>
      if id in r.actions then
        r.(actions := r.actions[id := r.actions[id].(status := Status.Terminal, classification := Some(classification),
                                                     sealed := true, after := after && classification != NotForwarded)])
      else r.(inconsistent := true)
    case _ => r
  }

  function ReplayEntry(q: Replayed, entry: Entry): Replayed {
    match entry
    case Torn => q.(torn := true)
    case Rec(record) => ReplayRecord(q, record)
  }

  function Replay(entries: seq<Entry>): Replayed {
    if entries == [] then NOTHING_REPLAYED
    else ReplayEntry(Replay(entries[..|entries| - 1]), entries[|entries| - 1])
  }

  predicate IsClean(actions: Actions) {
    forall id | id in actions :: Settled(actions[id]) && actions[id].classification != Some(IoAmbiguous)
  }

  /** What a restart makes of an action the journal left undecided. */
  function Concluded(a: Action): Action {
    match a.status
    case Consumed => a.(status := Status.Terminal, classification := Some(IoAmbiguous), after := true)
    case Armed => a.(status := Status.Terminal, classification := Some(NotForwarded))
    case Terminal => a
  }

  function Conclude(actions: Actions): Actions {
    map id | id in actions :: Concluded(actions[id])
  }

  function RebuiltState(s: Stores): State {
    var r := Replay(s.entries);
    if s.marker || r.torn || r.inconsistent then Held
    else if IsClean(r.actions) && (r.state == State.Closed || r.state == State.Invalidated) then r.state
    else Held
  }

  /** What a process restart derives from the journal alone. */
  datatype Derived = Derived(bound: Option<Bound>, expired: bool, boundIds: seq<string>, boundNonces: seq<string>)

  function DeriveEntry(d: Derived, entry: Entry): Derived {
    match entry
    case Rec(Bind(executionId, runNonce, _, _, _)) =>
      Derived(Some(Bound(executionId, runNonce)), false, d.boundIds + [executionId], d.boundNonces + [runNonce])
    case Rec(Expired(executionId)) =>
      if d.bound.Some? && d.bound.value.executionId == executionId then d.(expired := true) else d
    case _ => d
  }

  function Derive(entries: seq<Entry>): Derived {
    if entries == [] then Derived(None, false, [], [])
    else DeriveEntry(Derive(entries[..|entries| - 1]), entries[|entries| - 1])
  }

  // ---------------------------------------------------------------------------------------------- connections

  function CloseStamped(connections: Connections, stamp: Option<Stamp>): Connections {
    map c | c in connections ::
      if connections[c].open && stamp.Some? && connections[c].stamp == stamp && !connections[c].consumed
      then connections[c].(open := false) else connections[c]
  }

  function CloseUnconsumed(connections: Connections): Connections {
    map c | c in connections ::
      if connections[c].open && !connections[c].consumed then connections[c].(open := false) else connections[c]
  }

  function CloseAll(connections: Connections): Connections {
    map c | c in connections :: connections[c].(open := false)
  }

  /** A queued connection the C2 flush closes. */
  const FLUSHED := Connection(None, false, 0, false)

  function Flush(connections: Connections, backlog: seq<string>): Connections {
    map c | c in connections.Keys + (set q | q in backlog) ::
      if c in backlog then FLUSHED
      else if connections[c].open && !connections[c].consumed then connections[c].(open := false)
      else connections[c]
  }

  function CloseOne(connections: Connections, conn: string): Connections {
    if conn in connections then connections[conn := connections[conn].(open := false)] else connections
  }

  // ---------------------------------------------------------------------------------------------- journal and marker

  /** Appends without the storage-failure path (its own appends, while it runs). */
  function Quiet(w: World, g: Gate, record: Record): Gate {
    g.(stores := Append(w, g.stores, record))
  }

  /** The in-memory half of a denial: the stamped connections closed, the action NOT_FORWARDED. */
  function Deny(g: Gate, id: nat): Gate
    requires id in g.actions
  {
    g.(connections := CloseStamped(g.connections, StampOf(g, id)),
       actions := g.actions[id := g.actions[id].(status := Status.Terminal, classification := Some(NotForwarded))])
  }

  /** The deny step inside the storage-failure path. */
  ghost function DenyQuietly(w: World, g: Gate): (h: Gate)
    ensures WithStatus(h.actions, Armed) == {}
    ensures h.actions.Keys == g.actions.Keys
    decreases WithStatus(g.actions, Armed)
  {
    var armed := WithStatus(g.actions, Armed);
    if armed == {} then g
    else
      var id := Least(armed);
      var denied := Quiet(w, Deny(g, id), Record.Denied(id));
      assert WithStatus(denied.actions, Armed) == armed - {id};
      DenyQuietly(w, denied)
  }

  /** The one action in flight is marked as admitted before the invalidation. */
  ghost function MarkInFlight(actions: Actions): Actions {
    var first := First(actions, Status.Consumed);
    if first.Some? then actions[first.value := actions[first.value].(after := true)] else actions
  }

  /** The storage-failure path up to its denials: HELD first, then the marker, then the INVALIDATED record. */
  ghost function HoldFirst(w: World, g: Gate): Gate {
    var held := g.(state := Held, actions := MarkInFlight(g.actions), stores := WriteMarker(w, g.stores));
    var lasting := LastsNext(w, held.stores);
    var told := Quiet(w, held, Record.Invalidated(ByClose(CloseReason.StorageFailure), Held));
    told.(untraced := g.untraced || !(told.stores.marker || Replay(told.stores.entries).torn || lasting))
  }

  ghost function FailStorage(w: World, g: Gate): (h: Gate)
    ensures WithStatus(h.actions, Armed) == {}
    ensures h.actions.Keys == g.actions.Keys
  {
    DenyQuietly(w, HoldFirst(w, g))
  }

  /** Appends one record; on a failure the storage-failure path has run by the time it returns. */
  ghost function Journalled(w: World, g: Gate, record: Record): (h: Gate)
    ensures WithStatus(h.actions, Armed) <= WithStatus(g.actions, Armed)
    ensures h.actions.Keys == g.actions.Keys
  {
    if LastsNext(w, g.stores) then Quiet(w, g, record) else FailStorage(w, Quiet(w, g, record))
  }

  ghost function DenyArmed(w: World, g: Gate): (h: Gate)
    ensures WithStatus(h.actions, Armed) == {}
    ensures h.actions.Keys == g.actions.Keys
    decreases WithStatus(g.actions, Armed)
  {
    var armed := WithStatus(g.actions, Armed);
    if armed == {} then g
    else
      var id := Least(armed);
      var denied := Journalled(w, Deny(g, id), Record.Denied(id));
      assert WithStatus(Deny(g, id).actions, Armed) == armed - {id};
      assert WithStatus(denied.actions, Armed) < armed;
      DenyArmed(w, denied)
  }

  ghost function Urgent(w: World, g: Gate, state: State, reason: Invalidation): Gate {
    var toward := if g.state != Held then state else Held;
    var marked := g.(state := toward, actions := MarkInFlight(g.actions));
    DenyArmed(w, Journalled(w, marked, Record.Invalidated(reason, toward)))
  }

  ghost function FatalClose(w: World, g: Gate, reason: FatalReason): Gate {
    Urgent(w, g.(channel := Shut), Held, ByFatal(reason)).(state := Held)
  }

  /** Resolves a waiting drain once the fence is decided. */
  ghost function SettleDrain(w: World, g: Gate): (Gate, Option<DrainAnswer>) {
    if !g.drainPending then (g, None)
    else
      var ready :=
        if g.state == Draining && !InFlight(g)
        then g.(state := if AnyAmbiguous(g.actions) then Held else State.Closed)
        else g;
      if Fence(ready) == AnswerPending then (ready, None)
      else
        var done := Journalled(w, ready.(drainPending := false), Record.Drained(ready.state));
        (done, Some(Fence(done)))
  }

  // ---------------------------------------------------------------------------------------------- restart

  ghost function RestartWith(w: World, g: Gate, floor: bool): Gate {
    var state := if floor then Held else RebuiltState(g.stores);
    var quiet := g.(actions := Conclude(Replay(g.stores.entries).actions), state := state,
                    connections := CloseAll(g.connections), backlog := [], channel := Shut, drainPending := false);
    Journalled(w, quiet, Record.Restarted(state))
  }

  const ZERO_DIGEST := "sha256:0000000000000000000000000000000000000000000000000000000000000000"

  /** A gate on stores that may already hold a journal, not yet restarted. */
  function OnStores(c: Config, s: Stores, untraced: bool): Gate {
    var d := Derive(s.entries);
    Gate(c.state, false, Unopened, None, 1, ZERO_DIGEST, d.bound, d.boundIds, d.boundNonces, d.expired,
         map[], {}, {}, [], map[], s, untraced)
  }

  // ---------------------------------------------------------------------------------------------- connection events

  function FirstIndex(queue: seq<string>, conn: string): (at: nat)
    requires conn in queue
    ensures at < |queue| && queue[at] == conn && conn !in queue[..at]
  {
    if queue[0] == conn then 0 else 1 + FirstIndex(queue[1..], conn)
  }

  ghost function AcceptOn(g: Gate, conn: string): Outcome {
    if conn !in g.backlog then Outside
    else
      var at := FirstIndex(g.backlog, conn);
      var armed := First(g.actions, Armed);
      var stamp := if armed.Some? then StampOf(g, armed.value) else None;
      Handled(g.(backlog := g.backlog[..at] + g.backlog[at + 1..],
                 connections := g.connections[conn := Connection(stamp, true, 0, false)]),
              Stamped(stamp), None)
  }

  function DisconnectOn(g: Gate, conn: string): Outcome {
    if conn !in g.connections || g.connections[conn].requests > 0 then Outside
    else Handled(g.(connections := map c | c in g.connections && c != conn :: g.connections[c]), Nothing, None)
  }

  /** The decision on one request: the armed action it may consume, or the refusal. */
  datatype Admission = Admitted(actionId: nat) | NotAdmitted(refusal: ConnectionRefusal)

  function Admit(c: Config, g: Gate, connection: Connection, certificate: string, head: string,
                 bodyDigest: Option<string>): Admission
  {
    if !connection.open then NotAdmitted(ConnectionClosed)
    else if connection.requests > 1 then NotAdmitted(ProtocolViolation)
    else if g.bound.None? || g.state != Active || g.drainPending || g.channel != Opened then NotAdmitted(GateNotActive)
    else if g.expired then NotAdmitted(ExecutionExpired)
    else if connection.stamp.None? then NotAdmitted(StampNone)
    else if connection.stamp.value.executionId != g.bound.value.executionId then NotAdmitted(StampMismatch)
    else if connection.stamp.value.actionId !in g.actions then NotAdmitted(StampMismatch)
    else
      var id := connection.stamp.value.actionId;
      var action := g.actions[id];
      if action.status != Armed then NotAdmitted(AlreadyConsumed)
      else if g.bound.value.runNonce !in c.runs
              || certificate != c.runs[g.bound.value.runNonce].serverCertificateDigest
              then NotAdmitted(CertificateMismatch)
      else if action.armed.None? || action.armed.value.manifestDigest !in c.manifests then NotAdmitted(RequestMismatch)
      else
        var armed := action.armed.value;
        if c.render(armed.verb, armed.manifestDigest, armed.uid) != Rendered(head, bodyDigest)
          then NotAdmitted(RequestMismatch)
        else Admitted(id)
  }

  /** The consumption's in-memory half, once CONSUMED is durable. */
  function Consume(g: Gate, conn: string, id: nat): Gate
    requires id in g.actions && conn in g.connections
  {
    var connections := g.connections[conn := g.connections[conn].(consumed := true)];
    g.(actions := g.actions[id := g.actions[id].(status := Status.Consumed, conn := Some(conn), after := false)],
       connections := CloseStamped(connections, StampOf(g, id)))
  }

  ghost function RequestOn(c: Config, w: World, g: Gate, conn: string, certificate: string, head: string,
                           bodyDigest: Option<string>): Outcome
  {
    if conn !in g.connections then Outside
    else
      var counted := g.connections[conn].(requests := g.connections[conn].requests + 1);
      var asked := g.(connections := g.connections[conn := counted]);
      match Admit(c, asked, counted, certificate, head, bodyDigest)
      case Admitted(id) =>
        if LastsNext(w, g.stores) then
          Handled(Consume(Quiet(w, asked, Record.Consumed(id)), conn, id), Forward(id), None)
        else
          var failed := Journalled(w, asked, Record.Consumed(id));
          Handled(failed.(connections := CloseOne(failed.connections, conn)), CloseConnection(JournalFailed), None)
      case NotAdmitted(refusal) =>
        Handled(asked.(connections := CloseOne(asked.connections, conn)), CloseConnection(refusal), None)
  }

  // ---------------------------------------------------------------------------------------------- upstream events

  /** The actions forwarded on a connection (only those still in flight, for a timeout). */
  function ForwardedOn(actions: Actions, conn: string, consumedOnly: bool): set<nat> {
    set id | id in actions && actions[id].conn == Some(conn)
             && (if consumedOnly then actions[id].status == Status.Consumed else actions[id].status != Armed)
  }

  function Classify(target: Option<Target>, response: Option<UpstreamResponse>): (Classification, TerminalDetails) {
    match response
    case None => (IoAmbiguous, NoDetails)
    case Some(r) =>
      if target.None? || !OutcomeIsFinal(target.value.verb, r.httpStatus)
      then (IoAmbiguous, Reconciliation(r.httpStatus, r.bodyDigest))
      else (DeliveredResult, Delivered(r.httpStatus, r.bodyDigest, r.uid, r.resourceVersion))
  }

  /** The object an action's durable result created, if it did. */
  function CreatedBy(target: Option<Target>, details: TerminalDetails): set<(string, string)> {
    if target.Some? && target.value.verb == Create && details.Delivered? && details.httpStatus == 201
      && details.observedUid.Some?
    then {(target.value.manifestDigest, details.observedUid.value)}
    else {}
  }

  /** An action's terminal classification in memory; an ambiguous one holds the generation. */
  function Conclusion(g: Gate, id: nat, classification: Classification, delivered: Option<TerminalDetails>): Gate
    requires id in g.actions
  {
    var action := g.actions[id];
    g.(actions := g.actions[id := action.(status := Status.Terminal, classification := Some(classification),
                                          delivered := if delivered.Some? then delivered else action.delivered)],
       state := if classification == IoAmbiguous then Held else g.state)
  }

  ghost function UpstreamOn(w: World, g: Gate, conn: string, response: Option<UpstreamResponse>): Outcome {
    var ids := ForwardedOn(g.actions, conn, false);
    if ids == {} then Outside
    else
      var id := Least(ids);
      var action := g.actions[id];
      if action.status == Status.Terminal then Handled(Journalled(w, g, Record.LateUpstream(id)), NotRelayed, None)
      else
        var (classification, details) := Classify(action.armed, response);
        var recorded := LastsNext(w, g.stores);
        var told := Journalled(w, g, Record.Terminal(id, classification, action.after, details));
        if recorded then
          var settled := Conclusion(told, id, classification, if details.Delivered? then Some(details) else None);
          var remembered := settled.(createdUids := settled.createdUids + CreatedBy(action.armed, details));
          Handled(remembered.(connections := CloseOne(remembered.connections, conn)),
                  Upstreamed(classification, response.Some?, false), None)
        else
          var lost := Conclusion(told, id, IoAmbiguous, None);
          Handled(lost.(connections := CloseOne(lost.connections, conn)), Upstreamed(IoAmbiguous, false, false), None)
  }

  ghost function TimeoutOn(w: World, g: Gate, conn: string): Outcome {
    var ids := ForwardedOn(g.actions, conn, true);
    if ids == {} then Outside
    else
      var id := Least(ids);
      var told := Journalled(w, g, Record.Terminal(id, IoAmbiguous, g.actions[id].after, Aborted));
      var cut := Conclusion(told, id, IoAmbiguous, None);
      Handled(cut.(connections := CloseOne(cut.connections, conn)), Upstreamed(IoAmbiguous, false, true), None)
  }

  // ---------------------------------------------------------------------------------------------- drain and expiry

  ghost function DrainOn(w: World, g: Gate): (Gate, set<nat>, DrainAnswer) {
    var armed := WithStatus(g.actions, Armed);
    var toward := if g.state == Active || g.state == Inspecting then g.(state := Draining) else g;
    var started := if g.drainPending then toward else Journalled(w, toward.(drainPending := true), Record.DrainStarted);
    var (settled, answer) := SettleDrain(w, DenyArmed(w, started));
    (settled, DeniedSince(settled, armed), if answer.Some? then answer.value else AnswerPending)
  }

  ghost function ExpireOn(w: World, g: Gate): (Gate, set<nat>) {
    if g.bound.None? || g.expired then (g, {})
    else
      var armed := WithStatus(g.actions, Armed);
      var marked := g.(expired := true, actions := MarkInFlight(g.actions));
      var denied := DenyArmed(w, Journalled(w, marked, Record.Expired(g.bound.value.executionId)));
      (denied, DeniedSince(denied, armed))
  }

  // ---------------------------------------------------------------------------------------------- frame operations

  /** Every check of BIND_EXECUTION after the peer qualification, in order. */
  function BindCheck(c: Config, g: Gate, p: BindRequest, observed: bool): Option<Refusal> {
    if g.state != Active then Some(NotActive)
    else if !AllSettled(g.actions) then Some(ActionOutstanding)
    else if p.executionId in g.boundIds || p.runNonce in g.boundNonces
            || p.executionId in c.prior.executionIds || p.runNonce in c.prior.runNonces then Some(ExecutionReplay)
    else if p.dispatchGeneration != c.generation then Some(OtherGeneration)
    else if p.runNonce !in c.runs then Some(UnknownBinding)
    else
      var run := c.runs[p.runNonce];
      if run.bindingDigest != p.bindingDigest || run.caseId != p.caseId || run.requestDigest != p.requestDigest
      then Some(UnknownBinding)
      else if p.serverCertificateDigest != run.serverCertificateDigest then Some(CertificateDiffers)
      else if exists d | d in run.manifests ::
                d in c.prior.manifestDigests || (d in c.manifests && c.manifests[d] in c.prior.manifestIdentities)
      then Some(ManifestReused)
      else if !observed then Some(WorkerNotObserved)
      else None
  }

  /** The identities of the listed manifests, in order. */
  function Identities(c: Config, digests: seq<string>): seq<string> {
    if digests == [] then []
    else (if digests[0] in c.manifests then [c.manifests[digests[0]]] else []) + Identities(c, digests[1..])
  }

  function BindRecord(c: Config, p: BindRequest): Record
    requires p.runNonce in c.runs
  {
    var digests := c.ordered(c.runs[p.runNonce].manifests);
    Record.Bind(p.executionId, p.runNonce, p.reservationDigest, digests, c.ordered(Identities(c, digests)))
  }

  /** The in-memory half of a BIND, once its record is durable. */
  function BindIn(g: Gate, p: BindRequest): Gate {
    g.(bound := Some(Bound(p.executionId, p.runNonce)), expired := false, actions := map[], mutationKeys := {},
       createdUids := {}, boundIds := g.boundIds + [p.executionId], boundNonces := g.boundNonces + [p.runNonce])
  }

  ghost function BindOn(c: Config, w: World, g: Gate, p: BindRequest, observed: bool): (Gate, Response) {
    var refusal := BindCheck(c, g, p, observed);
    if refusal.Some? then (g, Refused(refusal.value))
    else
      var record := BindRecord(c, p);
      if LastsNext(w, g.stores) then (BindIn(Quiet(w, g, record), p), BindOk(p.executionId, record.manifestDigests))
      else (Journalled(w, g, record), Refused(StorageFailed))
  }

  function KeyOf(verb: Verb, manifestDigest: string, uid: Option<string>): set<MutationKey> {
    match verb
    case Create => {CreateOf(manifestDigest)}
    case Delete => if uid.Some? then {DeleteOf(uid.value)} else {}
    case Get => {}
  }

  /** Every check of ARM_ACTION, in order. */
  function ArmCheck(c: Config, g: Gate, p: ArmRequest): Option<Refusal> {
    if g.state != Active then Some(if g.state == Draining then DrainIsPending else NotActive)
    else if g.bound.None? || g.bound.value.executionId != p.executionId then Some(ExecutionNotBound)
    else if g.expired then Some(ExecutionHasExpired)
    else if !AllSettled(g.actions) then Some(ActionOutstanding)
    else if p.actionId != |g.actions| + 1 then Some(ActionIdOutOfOrder)
    else if g.bound.value.runNonce !in c.runs || p.manifestDigest !in c.runs[g.bound.value.runNonce].manifests
            || p.manifestDigest !in c.manifests then Some(ManifestOutsideCase)
    else if (p.verb == Delete) != p.recordedUid.Some? then Some(UidRule)
    else if p.verb == Delete && (p.manifestDigest, p.recordedUid.value) !in g.createdUids then Some(UidNotCreated)
    else if p.requestTemplateDigest != c.template(p.verb, p.manifestDigest, p.recordedUid) then Some(TemplateMismatch)
    else if KeyOf(p.verb, p.manifestDigest, p.recordedUid) * g.mutationKeys != {} then Some(MutationKeyReused)
    else None
  }

  /** The C2 flush before ARM is journalled. */
  function Flushed(g: Gate): Gate {
    g.(connections := Flush(g.connections, g.backlog), backlog := [])
  }

  /** The in-memory half of an ARM, once its record is durable. */
  function ArmIn(g: Gate, p: ArmRequest): Gate {
    g.(mutationKeys := g.mutationKeys + KeyOf(p.verb, p.manifestDigest, p.recordedUid),
       actions := g.actions[p.actionId := Action(Armed, None, false, false,
                                                 Some(Target(p.verb, p.manifestDigest, p.recordedUid)), None, None)])
  }

  function ArmRecord(c: Config, p: ArmRequest): Record {
    Record.Arm(p.actionId, p.verb, p.manifestDigest, p.recordedUid, c.template(p.verb, p.manifestDigest, p.recordedUid))
  }

  ghost function ArmOn(c: Config, w: World, g: Gate, p: ArmRequest): (Gate, Response) {
    var refusal := ArmCheck(c, g, p);
    if refusal.Some? then (g, Refused(refusal.value))
    else if LastsNext(w, g.stores) then (ArmIn(Quiet(w, Flushed(g), ArmRecord(c, p)), p), ArmOk(p.actionId))
    else (Journalled(w, Flushed(g), ArmRecord(c, p)), Refused(StorageFailed))
  }

  /** The in-memory half of a seal: the action can no longer be consumed and its classification is frozen. */
  function Freeze(g: Gate, id: nat): Gate
    requires id in g.actions
  {
    var action := g.actions[id];
    match action.status
    case Armed => Deny(g, id)
    case Consumed =>
      var cut := g.(connections := if action.conn.Some? then CloseOne(g.connections, action.conn.value)
                    else g.connections);
      Conclusion(cut, id, IoAmbiguous, None)
    case Terminal => g
  }

  function OutcomeOf(g: Gate, id: nat): Response
    requires id in g.actions
  {
    var action := g.actions[id];
    var classification := if action.classification.Some? then action.classification.value else IoAmbiguous;
    OutcomeOk(id, classification, action.after && classification != NotForwarded,
              if classification == DeliveredResult then action.delivered else None)
  }

  ghost function OutcomeOn(w: World, g: Gate, executionId: string, id: nat): (Gate, Response) {
    if g.bound.None? || g.bound.value.executionId != executionId then (g, Refused(ExecutionNotBound))
    else if id !in g.actions then (g, Refused(UnknownAction))
    else if g.actions[id].sealed then (g, OutcomeOf(g, id))
    else
      var frozen := Freeze(g, id);
      var action := frozen.actions[id];
      var classification := if action.classification.Some? then action.classification.value else IoAmbiguous;
      var record := Record.Sealed(id, classification, action.after);
      if LastsNext(w, g.stores) then
        var told := Quiet(w, frozen, record);
        var sealed := told.(actions := told.actions[id := action.(sealed := true)]);
        (sealed, OutcomeOf(sealed, id))
      else (Journalled(w, frozen, record), Refused(StorageFailed))
  }

  ghost function CloseOn(w: World, g: Gate, reason: CloseReason): (Gate, Response) {
    var armed := WithStatus(g.actions, Armed);
    if g.state == State.Closed || g.state == State.Invalidated || g.state == Held then
      var told :=
        if reason == ReconciliationRequired && g.state != Held
        then Journalled(w, g.(state := Held), Record.Invalidated(ByClose(reason), Held)) else g;
      var denied := DenyArmed(w, told);
      (denied, CloseOk(denied.state, DeniedSince(denied, armed)))
    else if reason == NormalDrain then
      if InFlight(g) then (g, Refused(ActionInFlight))
      else
        var state := if AnyAmbiguous(g.actions) then Held else State.Closed;
        var denied := DenyArmed(w, Journalled(w, g.(state := state), Record.Closed(reason, state)));
        (denied, CloseOk(denied.state, DeniedSince(denied, armed)))
    else
      var closed := Urgent(w, g, if reason == ReconciliationRequired then Held else State.Invalidated, ByClose(reason));
      (closed, CloseOk(closed.state, DeniedSince(closed, armed)))
  }

  ghost function StatusOf(g: Gate): Response {
    StatusOk(g.state, g.drainPending, if g.bound.Some? then Some(g.bound.value.executionId) else None,
             First(g.actions, Armed), First(g.actions, Status.Consumed))
  }

  // ---------------------------------------------------------------------------------------------- frames

  function OperationOf(request: Request): Operation {
    match request
    case AskStatus => GenerationStatus
    case AskBind(_) => BindExecution
    case AskArm(_) => ArmAction
    case AskOutcome(_, _) => ActionOutcome
    case AskClose(_) => CloseGeneration
  }

  /** The envelope checks, in order; the first that fails is fatal. */
  function EnvelopeCheck(c: Config, g: Gate, f: Frame): Option<FatalReason> {
    if f.way != BrokerToGate || f.sequence < 1 || f.sequence % 2 != 1 then Some(Direction)
    else if f.sequence != g.nextSequence || f.previousDigest != g.lastDigest then Some(ChainBroken)
    else if f.generation != c.generation then Some(GenerationMismatch)
    else if g.channel == Unopened && f.operation != GenerationStatus then Some(OpeningFrameRequired)
    else if g.channel != Unopened && g.challenge != Some(f.challenge) then Some(ChallengeMismatch)
    else None
  }

  /** An operation's result; `None` when it closed the channel fatally. */
  ghost function Perform(c: Config, w: World, g: Gate, request: Request, observed: bool): (Gate, Option<Response>) {
    match request
    case AskStatus => (g, Some(StatusOf(g)))
    case AskBind(p) =>
      if p.peerQualificationDigest != c.peerQualificationDigest then (FatalClose(w, g, PeerQualificationMismatch), None)
      else var (bound, response) := BindOn(c, w, g, p, observed); (bound, Some(response))
    case AskArm(p) => var (armed, response) := ArmOn(c, w, g, p); (armed, Some(response))
    case AskOutcome(executionId, id) =>
      var (sealed, response) := OutcomeOn(w, g, executionId, id); (sealed, Some(response))
    case AskClose(reason) => var (closed, response) := CloseOn(w, g, reason); (closed, Some(response))
  }

  function ResponseFrame(c: Config, challenge: string, f: Frame, response: Response): Frame {
    Frame(c.generation, challenge, f.sequence + 1, c.digest(f), GateToBroker, f.operation, Answer(response))
  }

  /** A frame whose envelope passed: the opening, the operation, the response. */
  ghost function CheckedFrame(c: Config, w: World, g: Gate, f: Frame, observed: bool, fits: bool): (Gate, Output) {
    var open := if g.channel == Unopened then g.(channel := Opened, challenge := Some(f.challenge)) else g;
    if !f.payload.Ask? || OperationOf(f.payload.request) != f.operation then
      (FatalClose(w, open, InvalidFrame(F00)), Fatal(InvalidFrame(F00)))
    else
      var (after, response) := Perform(c, w, open, f.payload.request, observed);
      if response.None? then (after, Fatal(PeerQualificationMismatch))
      else if !fits then (FatalClose(w, after, ResponseOutOfBounds), Fatal(ResponseOutOfBounds))
      else
        var reply := ResponseFrame(c, f.challenge, f, response.value);
        (after.(nextSequence := f.sequence + 2, lastDigest := c.digest(reply)), Respond(reply))
  }

  ghost function FrameOn(c: Config, w: World, g: Gate, input: FrameInput, observed: bool, fits: bool): (Gate, Output) {
    if g.channel == Shut then (g, RefusedChannel(false))
    else
      match input
      case Malformed(code) => (FatalClose(w, g, InvalidFrame(code)), Fatal(InvalidFrame(code)))
      case Decoded(f) =>
        var broken := EnvelopeCheck(c, g, f);
        if broken.Some? then (FatalClose(w, g, broken.value), Fatal(broken.value))
        else CheckedFrame(c, w, g, f, observed, fits)
  }

  // ---------------------------------------------------------------------------------------------- events

  ghost function LoseChannel(w: World, g: Gate): (Gate, Output) {
    match g.channel
    case Unopened =>
      (Journalled(w, g.(channel := Shut), Record.ChannelEnded(BeforeFirstFrame)), ChannelEnds(BeforeFirstFrame))
    case Shut => (g, Nothing)
    case Opened =>
      if IsOrderly(g) then (Journalled(w, g.(channel := Shut), Record.ChannelEnded(Orderly)), ChannelEnds(Orderly))
      else (FatalClose(w, g, PeerLost), Fatal(PeerLost))
  }

  ghost function Dispatch(c: Config, w: World, g: Gate, event: Event): Outcome {
    match event
    case FrameEvent(input, observed, fits) =>
      var (h, output) := FrameOn(c, w, g, input, observed, fits); Handled(h, output, None)
    case Backlog(conn) => Handled(g.(backlog := g.backlog + [conn]), Nothing, None)
    case Accept(conn) => AcceptOn(g, conn)
    case Disconnect(conn) => DisconnectOn(g, conn)
    case RequestEvent(conn, certificate, head, bodyDigest) => RequestOn(c, w, g, conn, certificate, head, bodyDigest)
    case Responded(conn, response) => UpstreamOn(w, g, conn, Some(response))
    case UpstreamLost(conn) => UpstreamOn(w, g, conn, None)
    case UpstreamTimeout(conn) => TimeoutOn(w, g, conn)
    case DrainRequest => var (h, denied, answer) := DrainOn(w, g); Handled(h, DeniedIds(denied), Some(answer))
    case Expire => var (h, denied) := ExpireOn(w, g); Handled(h, DeniedIds(denied), None)
    case ChannelLost => var (h, output) := LoseChannel(w, g); Handled(h, output, None)
    case SecondChannel =>
      if g.channel == Unopened then Outside else Handled(g, RefusedChannel(g.channel == Opened), None)
    case PeerHasChanged =>
      if g.channel == Opened then Handled(FatalClose(w, g, PeerChanged), Fatal(PeerChanged), None)
        else Handled(g, Nothing, None)
    case GateRestart => var h := RestartWith(w, g, false); Handled(h, RestartState(h.state), None)
    case LateAnswer =>
      if g.channel == Opened then Handled(FatalClose(w, g, AnswerLate), Fatal(AnswerLate), None) else Outside
  }

  /** Applies one event, then settles a drain that still waits for its fence. */
  ghost function Handle(c: Config, w: World, g: Gate, event: Event): Outcome {
    match Dispatch(c, w, g, event)
    case Outside => Outside
    case Handled(h, output, drain) =>
      var (settled, answer) := SettleDrain(w, h);
      Handled(settled, output, if answer.Some? then answer else drain)
  }
}
