/** The broker's side of the gate channel and its composition with the gate: whenever no frame is in flight both sides
    hold the same next sequence and last digest, whatever happened at the gate while one was, and the broker accepts
    every response that is not fatal. */
module Lockstep {
  import opened Vocabulary
  import opened Journal
  import opened GateModel

  // ---------------------------------------------------------------------------------------------- the client

  datatype Pending = Pending(operation: Operation, sequence: int, executionId: Option<string>, actionId: Option<nat>)

  datatype Client = Client(generation: string, challenge: string, nextSequence: int, lastDigest: string,
                           pending: Option<Pending>, opened_: bool, over: bool)

  datatype ChannelEnding =
    | HasEnded | IsOutstanding | MustOpen | OutsideSchema(code: FrameError) | Unsolicited | BadReply(code: FrameError)
    | WrongDirection
    | WrongSequence | WrongChain | WrongGeneration | WrongChallenge | WrongOperation | WrongAnswer

  datatype Asked = Asks(client: Client, frame: Frame) | AskFails(client: Client, ending: ChannelEnding)

  datatype Received = Receives(client: Client, response: Response) | ReceiveFails(client: Client, ending: ChannelEnding)

  function FreshClient(generation: string, challenge: string): Client {
    Client(generation, challenge, 1, ZERO_DIGEST, None, false, false)
  }

  function ExecutionOf(r: Request): Option<string> {
    match r
    case AskBind(p) => Some(p.executionId)
    case AskArm(p) => Some(p.executionId)
    case AskOutcome(e, _) => Some(e)
    case _ => None
  }

  function ActionOf(r: Request): Option<nat> {
    match r
    case AskArm(p) => Some(p.actionId)
    case AskOutcome(_, id) => Some(id)
    case _ => None
  }

  function RequestFrame(k: Client, r: Request): Frame {
    Frame(k.generation, k.challenge, k.nextSequence, k.lastDigest, BrokerToGate, OperationOf(r), Ask(r))
  }

  /** One request; `refusal` is the frame check's code when the request is outside the schema. */
  function AskOn(digest: Frame -> string, k: Client, r: Request, refusal: Option<FrameError>): Asked {
    if k.over then AskFails(k, HasEnded)
    else if k.pending.Some? then AskFails(k.(over := true), IsOutstanding)
    else if !k.opened_ && OperationOf(r) != GenerationStatus then AskFails(k.(over := true), MustOpen)
    else if refusal.Some? then AskFails(k.(over := true), OutsideSchema(refusal.value))
    else
      var f := RequestFrame(k, r);
      var sent := Pending(OperationOf(r), k.nextSequence, ExecutionOf(r), ActionOf(r));
      Asks(k.(lastDigest := digest(f), pending := Some(sent), opened_ := true), f)
  }

  /** An OK answer repeats its request's execution and action ids where it carries them. */
  predicate AnswersPending(p: Pending, r: Response) {
    match r
    case BindOk(e, _) => p.executionId.Some? ==> e == p.executionId.value
    case ArmOk(id) => p.actionId.Some? ==> id == p.actionId.value
    case OutcomeOk(id, _, _, _) => p.actionId.Some? ==> id == p.actionId.value
    case _ => true
  }

  function CheckReply(k: Client, p: Pending, f: Frame): Option<ChannelEnding> {
    if f.way != GateToBroker then Some(WrongDirection)
    else if f.sequence != p.sequence + 1 then Some(WrongSequence)
    else if f.previousDigest != k.lastDigest then Some(WrongChain)
    else if f.generation != k.generation then Some(WrongGeneration)
    else if f.challenge != k.challenge then Some(WrongChallenge)
    else if f.operation != p.operation then Some(WrongOperation)
    else if !f.payload.Answer? || !AnswersPending(p, f.payload.response) then Some(WrongAnswer)
    else None
  }

  function ReceiveOn(digest: Frame -> string, k: Client, input: FrameInput): Received {
    if k.over then ReceiveFails(k, HasEnded)
    else if k.pending.None? then ReceiveFails(k.(over := true), Unsolicited)
    else if input.Malformed? then ReceiveFails(k.(over := true), BadReply(input.code))
    else
      var wrong := CheckReply(k, k.pending.value, input.frame);
      if wrong.Some? then ReceiveFails(k.(over := true), wrong.value)
      else
        Receives(k.(lastDigest := digest(input.frame), nextSequence := input.frame.sequence + 1, pending := None),
                 input.frame.payload.response)
  }

  predicate ExchangedAt(digest: Frame -> string, generation: string, challenge: string, frames: seq<Frame>, i: nat)
    requires i < |frames|
  {
    var f := frames[i];
    && f.sequence == i + 1 && f.previousDigest == (if i == 0 then ZERO_DIGEST else digest(frames[i - 1]))
    && f.generation == generation && f.challenge == challenge
    && (if i % 2 == 0 then f.way == BrokerToGate && f.payload.Ask? && f.operation == OperationOf(f.payload.request)
        else f.way == GateToBroker && f.operation == frames[i - 1].operation && f.payload.Answer?)
    && (i == 0 ==> f.operation == GenerationStatus)
  }

  /** A request at the even positions and its answer at the odd ones, on one unbroken chain of one channel. */
  ghost predicate Exchanged(digest: Frame -> string, generation: string, challenge: string, frames: seq<Frame>) {
    forall i | 0 <= i < |frames| :: ExchangedAt(digest, generation, challenge, frames, i)
  }

  /** What the client knows is what the frames it exchanged say. */
  ghost predicate Knows(digest: Frame -> string, k: Client, frames: seq<Frame>) {
    && Exchanged(digest, k.generation, k.challenge, frames)
    && (!k.over ==>
          && k.lastDigest == (if frames == [] then ZERO_DIGEST else digest(frames[|frames| - 1]))
          && (k.opened_ <==> frames != [])
          && (k.pending.Some? <==> |frames| % 2 == 1) && k.nextSequence == if k.pending.Some? then |frames|
          else |frames| + 1)
    && (!k.over && k.pending.Some? ==>
          var f := frames[|frames| - 1];
          f.payload.Ask?
            && k.pending.value
              == Pending(f.operation, |frames|, ExecutionOf(f.payload.request), ActionOf(f.payload.request)))
  }

  lemma ExchangedOnward(digest: Frame -> string, k: Client, frames: seq<Frame>, f: Frame)
    requires Exchanged(digest, k.generation, k.challenge, frames)
    requires ExchangedAt(digest, k.generation, k.challenge, frames + [f], |frames|)
    ensures Exchanged(digest, k.generation, k.challenge, frames + [f])
  {
    forall i | 0 <= i < |frames + [f]|
      ensures ExchangedAt(digest, k.generation, k.challenge, frames + [f], i)
    {
      if i < |frames| { assert ExchangedAt(digest, k.generation, k.challenge, frames, i); }
    }
  }

  lemma AskKnows(digest: Frame -> string, k: Client, frames: seq<Frame>, r: Request, refusal: Option<FrameError>)
    requires Knows(digest, k, frames)
    ensures match AskOn(digest, k, r, refusal)
            case Asks(after, f) => Knows(digest, after, frames + [f]) && f.payload == Ask(r)
            case AskFails(after, _) => Knows(digest, after, frames)
  {
    var asked := AskOn(digest, k, r, refusal);
    if asked.Asks? { ExchangedOnward(digest, k, frames, asked.frame); }
  }

  lemma ReceiveKnows(digest: Frame -> string, k: Client, frames: seq<Frame>, input: FrameInput)
    requires Knows(digest, k, frames)
    ensures match ReceiveOn(digest, k, input)
            case Receives(after, r) =>
              input.Decoded? && Knows(digest, after, frames + [input.frame]) && input.frame.payload == Answer(r)
            case ReceiveFails(after, _) => Knows(digest, after, frames)
  {
    if ReceiveOn(digest, k, input).Receives? { ExchangedOnward(digest, k, frames, input.frame); }
  }

  lemma LastAt(digest: Frame -> string, k: Client, frames: seq<Frame>)
    requires Knows(digest, k, frames) && frames != []
    ensures frames[|frames| - 1].sequence == |frames|
  {
    assert ExchangedAt(digest, k.generation, k.challenge, frames, |frames| - 1);
  }

  /** The client as the object it is, with the frames it has exchanged. */
  class I05Client {
    const digest: Frame -> string
    const generation: string
    const challenge: string
    var nextSequence: int
    var lastDigest: string
    var pending: Option<Pending>
    var opened_: bool
    var over: bool
    ghost var frames: seq<Frame>

    ghost function View(): Client
      reads this
    {
      Client(generation, challenge, nextSequence, lastDigest, pending, opened_, over)
    }

    ghost predicate Valid()
      reads this
    {
      Knows(digest, View(), frames)
    }

    constructor (of: Frame -> string, gateGeneration: string, freshChallenge: string)
      ensures digest == of && View() == FreshClient(gateGeneration, freshChallenge) && Valid() && frames == []
    {
      digest, generation, challenge := of, gateGeneration, freshChallenge;
      nextSequence, lastDigest, pending, opened_, over := 1, ZERO_DIGEST, None, false, false;
      frames := [];
    }

    method SendRequest(r: Request, refusal: Option<FrameError>)
      returns (frame: Option<Frame>, ending: Option<ChannelEnding>)
      requires Valid()
      modifies this
      ensures Valid() && frames == (if frame.Some? then old(frames) + [frame.value] else old(frames))
      ensures frame.Some? ==> frame.value.payload == Ask(r) && frame.value.sequence == |frames|
      ensures frame.None? ==> over
      ensures match AskOn(digest, old(View()), r, refusal)
              case Asks(k, f) => View() == k && frame == Some(f) && ending == None
              case AskFails(k, e) => View() == k && frame == None && ending == Some(e)
    {
      hide Knows;
      AskKnows(digest, View(), frames, r, refusal);
      if over { return None, Some(HasEnded); }
      if pending.Some? { over := true; return None, Some(IsOutstanding); }
      if !opened_ && OperationOf(r) != GenerationStatus { over := true; return None, Some(MustOpen); }
      if refusal.Some? { over := true; return None, Some(OutsideSchema(refusal.value)); }
      var f := Frame(generation, challenge, nextSequence, lastDigest, BrokerToGate, OperationOf(r), Ask(r));
      LastAt(digest, AskOn(digest, View(), r, refusal).client, frames + [f]);
      lastDigest := digest(f);
      pending := Some(Pending(OperationOf(r), nextSequence, ExecutionOf(r), ActionOf(r)));
      opened_ := true;
      frames := frames + [f];
      return Some(f), None;
    }

    method ReceiveReply(input: FrameInput) returns (response: Option<Response>, ending: Option<ChannelEnding>)
      requires Valid()
      modifies this
      ensures Valid()
              && frames == (if response.Some? && input.Decoded? then old(frames) + [input.frame] else old(frames))
      ensures response.Some? ==>
                input.Decoded? && input.frame.payload == Answer(response.value) && input.frame.sequence == |frames|
      ensures response.None? ==> over
      ensures match ReceiveOn(digest, old(View()), input)
              case Receives(k, r) => View() == k && response == Some(r) && ending == None
              case ReceiveFails(k, e) => View() == k && response == None && ending == Some(e)
    {
      hide Knows;
      ReceiveKnows(digest, View(), frames, input);
      if over { return None, Some(HasEnded); }
      if pending.None? { over := true; return None, Some(Unsolicited); }
      if input.Malformed? { over := true; return None, Some(BadReply(input.code)); }
      var p, f := pending.value, input.frame;
      var wrong := CheckFrame(p, f);
      if wrong.Some? { over := true; return None, wrong; }
      LastAt(digest, ReceiveOn(digest, View(), input).client, frames + [f]);
      lastDigest, nextSequence, pending := digest(f), f.sequence + 1, None;
      frames := frames + [f];
      return Some(f.payload.response), None;
    }

    method CheckFrame(p: Pending, f: Frame) returns (wrong: Option<ChannelEnding>)
      ensures wrong == CheckReply(View(), p, f)
    {
      if f.way != GateToBroker { return Some(WrongDirection); }
      if f.sequence != p.sequence + 1 { return Some(WrongSequence); }
      if f.previousDigest != lastDigest { return Some(WrongChain); }
      if f.generation != generation { return Some(WrongGeneration); }
      if f.challenge != challenge { return Some(WrongChallenge); }
      if f.operation != p.operation { return Some(WrongOperation); }
      if !f.payload.Answer? || !AnswersPending(p, f.payload.response) { return Some(WrongAnswer); }
      return None;
    }
  }

  // --------------------------------------------------------------------------------------- what leaves the chain alone

  /** The channel's chain is where it was; the channel itself may have been shut. */
  predicate ChainStays(g: Gate, h: Gate) {
    && h.nextSequence == g.nextSequence && h.lastDigest == g.lastDigest && h.challenge == g.challenge
    && (h.channel == g.channel || h.channel == Shut)
  }

  lemma {:induction false} DenyQuietlyChain(w: World, g: Gate)
    ensures ChainStays(g, DenyQuietly(w, g)) && DenyQuietly(w, g).channel == g.channel
    decreases WithStatus(g.actions, Armed)
  {
    var armed := WithStatus(g.actions, Armed);
    if armed != {} {
      var id := Least(armed);
      var told := Quiet(w, Deny(g, id), Record.Denied(id));
      assert WithStatus(told.actions, Armed) == armed - {id};
      DenyQuietlyChain(w, told);
    }
  }

  lemma JournalledChain(w: World, g: Gate, record: Record)
    ensures ChainStays(g, Journalled(w, g, record)) && Journalled(w, g, record).channel == g.channel
  {
    hide DenyQuietly;
    DenyQuietlyChain(w, HoldFirst(w, Quiet(w, g, record)));
  }

  lemma {:induction false} DenyArmedChain(w: World, g: Gate)
    ensures ChainStays(g, DenyArmed(w, g)) && DenyArmed(w, g).channel == g.channel
    decreases WithStatus(g.actions, Armed)
  {
    hide Journalled;
    var armed := WithStatus(g.actions, Armed);
    if armed != {} {
      var id := Least(armed);
      var told := Journalled(w, Deny(g, id), Record.Denied(id));
      assert WithStatus(Deny(g, id).actions, Armed) == armed - {id};
      assert WithStatus(told.actions, Armed) < armed;
      JournalledChain(w, Deny(g, id), Record.Denied(id));
      DenyArmedChain(w, told);
    }
  }

  lemma UrgentChain(w: World, g: Gate, state: State, reason: Invalidation)
    ensures ChainStays(g, Urgent(w, g, state, reason)) && Urgent(w, g, state, reason).channel == g.channel
  {
    hide Journalled, DenyArmed, MarkInFlight;
    var toward := if g.state != Held then state else Held;
    var marked := g.(state := toward, actions := MarkInFlight(g.actions));
    JournalledChain(w, marked, Record.Invalidated(reason, toward));
    DenyArmedChain(w, Journalled(w, marked, Record.Invalidated(reason, toward)));
  }

  lemma FatalChain(w: World, g: Gate, reason: FatalReason)
    ensures ChainStays(g, FatalClose(w, g, reason)) && FatalClose(w, g, reason).channel == Shut
  {
    hide Urgent;
    UrgentChain(w, g.(channel := Shut), Held, ByFatal(reason));
  }

  lemma SettleDrainChain(w: World, g: Gate)
    ensures ChainStays(g, SettleDrain(w, g).0) && SettleDrain(w, g).0.channel == g.channel
  {
    hide Journalled;
    var ready := if g.state == Draining && !InFlight(g)
      then g.(state := if AnyAmbiguous(g.actions) then Held else State.Closed) else g;
    JournalledChain(w, ready.(drainPending := false), Record.Drained(ready.state));
  }

  lemma DrainChain(w: World, g: Gate)
    ensures ChainStays(g, DrainOn(w, g).0)
  {
    hide Journalled, DenyArmed, SettleDrain;
    var toward := if g.state == Active || g.state == Inspecting then g.(state := Draining) else g;
    JournalledChain(w, toward.(drainPending := true), Record.DrainStarted);
    var started := if g.drainPending then toward else Journalled(w, toward.(drainPending := true), Record.DrainStarted);
    DenyArmedChain(w, started);
    SettleDrainChain(w, DenyArmed(w, started));
  }

  lemma ExpireChain(w: World, g: Gate)
    ensures ChainStays(g, ExpireOn(w, g).0)
  {
    hide Journalled, DenyArmed, MarkInFlight;
    if g.bound.Some? {
      var marked := g.(expired := true, actions := MarkInFlight(g.actions));
      JournalledChain(w, marked, Record.Expired(g.bound.value.executionId));
      DenyArmedChain(w, Journalled(w, marked, Record.Expired(g.bound.value.executionId)));
    }
  }

  lemma RequestChain(c: Config, w: World, g: Gate, conn: string, certificate: string, head: string,
                     bodyDigest: Option<string>)
    ensures var o := RequestOn(c, w, g, conn, certificate, head, bodyDigest); o.Handled? ==> ChainStays(g, o.gate)
  {
    hide Journalled, Admit;
    if conn in g.connections {
      var asked :=
          g.(connections := g.connections[conn := g.connections[conn].(requests := g.connections[conn].requests + 1)]);
      forall id
        ensures ChainStays(asked, Journalled(w, asked, Record.Consumed(id)))
      {
        JournalledChain(w, asked, Record.Consumed(id));
      }
    }
  }

  lemma ConclusionChain(g: Gate, id: nat, classification: Classification, delivered: Option<TerminalDetails>)
    requires id in g.actions
    ensures ChainStays(g, Conclusion(g, id, classification, delivered))
  {
  }

  lemma ForwardedAreKnown(actions: Actions, conn: string)
    ensures forall id | id in ForwardedOn(actions, conn, false) :: id in actions
  {
  }

  lemma LandedChain(g: Gate, told: Gate, conn: string, created: set<(string, string)>)
    requires ChainStays(g, told)
    ensures ChainStays(g, told.(connections := CloseOne(told.connections, conn)))
    ensures var remembered := told.(createdUids := told.createdUids + created);
            ChainStays(g, remembered.(connections := CloseOne(remembered.connections, conn)))
  {
    hide CloseOne;
  }

  lemma ChainOn(g: Gate, h: Gate, k: Gate)
    requires ChainStays(g, h) && ChainStays(h, k)
    ensures ChainStays(g, k)
  {
  }

  lemma UpstreamChain(w: World, g: Gate, conn: string, response: Option<UpstreamResponse>)
    ensures var o := UpstreamOn(w, g, conn, response); o.Handled? ==> ChainStays(g, o.gate)
  {
    hide Journalled, Classify, Conclusion, CreatedBy, CloseOne, ForwardedOn, ChainStays;
    ForwardedAreKnown(g.actions, conn);
    var ids := ForwardedOn(g.actions, conn, false);
    if ids != {} {
      var id := Least(ids);
      var (classification, details) := Classify(g.actions[id].armed, response);
      var told := Journalled(w, g, Record.Terminal(id, classification, g.actions[id].after, details));
      JournalledChain(w, g, Record.LateUpstream(id));
      JournalledChain(w, g, Record.Terminal(id, classification, g.actions[id].after, details));
      var delivered := if details.Delivered? then Some(details) else None;
      ConclusionChain(told, id, classification, delivered);
      ConclusionChain(told, id, IoAmbiguous, None);
      ChainOn(g, told, Conclusion(told, id, classification, delivered));
      ChainOn(g, told, Conclusion(told, id, IoAmbiguous, None));
      LandedChain(g, Conclusion(told, id, classification, delivered), conn, CreatedBy(g.actions[id].armed, details));
      LandedChain(g, Conclusion(told, id, IoAmbiguous, None), conn, {});
    }
  }

  lemma TimeoutChain(w: World, g: Gate, conn: string)
    ensures var o := TimeoutOn(w, g, conn); o.Handled? ==> ChainStays(g, o.gate)
  {
    hide Journalled;
    forall record
      ensures ChainStays(g, Journalled(w, g, record))
    {
      JournalledChain(w, g, record);
    }
  }

  lemma LoseChannelChain(w: World, g: Gate)
    ensures ChainStays(g, LoseChannel(w, g).0)
  {
    hide Journalled, FatalClose, IsOrderly;
    FatalChain(w, g, PeerLost);
    JournalledChain(w, g.(channel := Shut), Record.ChannelEnded(BeforeFirstFrame));
    JournalledChain(w, g.(channel := Shut), Record.ChannelEnded(Orderly));
  }

  lemma RestartChain(w: World, g: Gate, floor: bool)
    ensures ChainStays(g, RestartWith(w, g, floor))
  {
    hide Journalled, Replay, RebuiltState, Conclude, CloseAll;
    var state := if floor then Held else RebuiltState(g.stores);
    var quiet := g.(actions := Conclude(Replay(g.stores.entries).actions), state := state,
                    connections := CloseAll(g.connections), backlog := [], channel := Shut, drainPending := false);
    JournalledChain(w, quiet, Record.Restarted(state));
  }

  lemma DispatchKeepsChain(c: Config, w: World, g: Gate, event: Event)
    requires !event.FrameEvent?
    ensures var o := Dispatch(c, w, g, event); o.Handled? ==> ChainStays(g, o.gate)
  {
    hide RequestOn, UpstreamOn, TimeoutOn, DrainOn, ExpireOn, LoseChannel, FatalClose, RestartWith;
    match event
    case RequestEvent(conn, certificate, head, bodyDigest) =>
      RequestChain(c, w, g, conn, certificate, head, bodyDigest);
    case Responded(conn, response) => UpstreamChain(w, g, conn, Some(response));
    case UpstreamLost(conn) => UpstreamChain(w, g, conn, None);
    case UpstreamTimeout(conn) => TimeoutChain(w, g, conn);
    case DrainRequest => DrainChain(w, g);
    case Expire => ExpireChain(w, g);
    case ChannelLost => LoseChannelChain(w, g);
    case PeerHasChanged => FatalChain(w, g, PeerChanged);
    case GateRestart => RestartChain(w, g, false);
    case LateAnswer => FatalChain(w, g, AnswerLate);
    case _ =>
  }

  /** Every event but a frame leaves the chain where it is. */
  lemma EventKeepsChain(c: Config, w: World, g: Gate, event: Event)
    requires !event.FrameEvent?
    ensures var o := Handle(c, w, g, event); o.Handled? ==> ChainStays(g, o.gate)
  {
    hide Dispatch, SettleDrain;
    DispatchKeepsChain(c, w, g, event);
    var o := Dispatch(c, w, g, event);
    if o.Handled? { SettleDrainChain(w, o.gate); }
  }

  // ---------------------------------------------------------------------------------------------- what a frame does

  lemma BindCheckRuns(c: Config, g: Gate, p: BindRequest, observed: bool)
    requires BindCheck(c, g, p, observed).None?
    ensures p.runNonce in c.runs && BindRecord(c, p).Bind?
  {
  }

  lemma BindChain(c: Config, w: World, g: Gate, p: BindRequest, observed: bool)
    ensures var (h, r) := BindOn(c, w, g, p, observed);
            ChainStays(g, h) && h.channel == g.channel && (r.BindOk? ==> r.executionId == p.executionId)
              && (r.BindOk? || r.Refused?)
  {
    hide Journalled, BindCheck, BindRecord;
    if BindCheck(c, g, p, observed).None? {
      BindCheckRuns(c, g, p, observed);
      JournalledChain(w, g, BindRecord(c, p));
    }
  }

  lemma ArmChain(c: Config, w: World, g: Gate, p: ArmRequest)
    ensures var (h, r) := ArmOn(c, w, g, p);
            ChainStays(g, h) && h.channel == g.channel && (r.ArmOk? ==> r.actionId == p.actionId)
              && (r.ArmOk? || r.Refused?)
  {
    hide Journalled, ArmCheck;
    JournalledChain(w, Flushed(g), ArmRecord(c, p));
  }

  lemma FreezeChain(g: Gate, id: nat)
    requires id in g.actions
    ensures ChainStays(g, Freeze(g, id)) && Freeze(g, id).channel == g.channel && id in Freeze(g, id).actions
  {
  }

  lemma OutcomeChain(w: World, g: Gate, executionId: string, id: nat)
    ensures var (h, r) := OutcomeOn(w, g, executionId, id);
            ChainStays(g, h) && h.channel == g.channel && (r.OutcomeOk? ==> r.actionId == id)
              && (r.OutcomeOk? || r.Refused?)
  {
    hide Journalled, Freeze;
    if id in g.actions {
      var frozen := Freeze(g, id);
      FreezeChain(g, id);
      var action := frozen.actions[id];
      var classification := if action.classification.Some? then action.classification.value else IoAmbiguous;
      JournalledChain(w, frozen, Record.Sealed(id, classification, action.after));
    }
  }

  lemma CloseChain(w: World, g: Gate, reason: CloseReason)
    ensures var (h, r) := CloseOn(w, g, reason);
            ChainStays(g, h) && h.channel == g.channel && (r.CloseOk? || r.Refused?)
  {
    hide Journalled, DenyArmed, Urgent, DeniedSince, AnyAmbiguous, InFlight;
    var state := if AnyAmbiguous(g.actions) then Held else State.Closed;
    var held := g.(state := Held);
    var shut := g.(state := state);
    JournalledChain(w, held, Record.Invalidated(ByClose(reason), Held));
    JournalledChain(w, shut, Record.Closed(reason, state));
    DenyArmedChain(w, g);
    DenyArmedChain(w, Journalled(w, held, Record.Invalidated(ByClose(reason), Held)));
    DenyArmedChain(w, Journalled(w, shut, Record.Closed(reason, state)));
    UrgentChain(w, g, if reason == ReconciliationRequired then Held else State.Invalidated, ByClose(reason));
  }

  lemma StatusAnswers(g: Gate)
    ensures StatusOf(g).StatusOk?
  {
  }

  /** An operation answers its own request and leaves the chain to the frame. */
  lemma PerformAnswers(c: Config, w: World, g: Gate, r: Request, observed: bool)
    ensures var (h, response) := Perform(c, w, g, r, observed);
            && ChainStays(g, h)
            && (response.None? <==> r.AskBind? && r.bind.peerQualificationDigest != c.peerQualificationDigest)
            && (response.Some? ==>
                  h.channel == g.channel
                  && AnswersPending(Pending(OperationOf(r), 0, ExecutionOf(r), ActionOf(r)), response.value))
  {
    hide BindOn, ArmOn, OutcomeOn, CloseOn, FatalClose, StatusOf;
    match r
    case AskStatus => StatusAnswers(g);
    case AskBind(p) =>
      BindChain(c, w, g, p, observed);
      FatalChain(w, g, PeerQualificationMismatch);
    case AskArm(p) => ArmChain(c, w, g, p);
    case AskOutcome(e, id) => OutcomeChain(w, g, e, id);
    case AskClose(reason) => CloseChain(w, g, reason);
  }

  // ---------------------------------------------------------------------------------------------- in step

  /** Both sides idle at the same place of the same channel. */
  predicate InStep(c: Config, k: Client, g: Gate) {
    && k.generation == c.generation && !k.over && k.pending.None?
    && k.nextSequence == g.nextSequence && k.lastDigest == g.lastDigest && k.nextSequence >= 1
    && k.nextSequence % 2 == 1
    && (if k.opened_ then g.channel == Opened && g.challenge == Some(k.challenge) else g.channel == Unopened)
  }

  /** A client's frame always passes the gate's envelope. */
  lemma EnvelopePasses(c: Config, k: Client, g: Gate, r: Request)
    requires InStep(c, k, g) && (k.opened_ || OperationOf(r) == GenerationStatus)
    ensures EnvelopeCheck(c, g, RequestFrame(k, r)).None?
  {
  }

  lemma FatalPerform(c: Config, w: World, g: Gate, r: Request, observed: bool)
    requires r.AskBind? && r.bind.peerQualificationDigest != c.peerQualificationDigest
    ensures Perform(c, w, g, r, observed).0 == FatalClose(w, g, PeerQualificationMismatch)
  {
    hide FatalClose;
  }

  /** One exchange: the gate answers fatally only for a foreign peer qualification or a response outside the schema;
      otherwise the client accepts the response and both sides are in step again. */
  lemma ExchangeKeepsStep(c: Config, w: World, k: Client, g: Gate, r: Request, observed: bool, fits: bool)
    requires InStep(c, k, g) && AskOn(c.digest, k, r, None).Asks?
    ensures var asked := AskOn(c.digest, k, r, None);
            var (h, output) := FrameOn(c, w, g, Decoded(asked.frame), observed, fits);
            match output
            case Respond(reply) =>
              (match ReceiveOn(c.digest, asked.client, Decoded(reply))
               case Receives(after, response) => InStep(c, after, h) && reply.payload == Answer(response)
               case ReceiveFails(_, _) => false)
            case Fatal(PeerQualificationMismatch) =>
              r.AskBind? && r.bind.peerQualificationDigest != c.peerQualificationDigest && h.channel == Shut
            case Fatal(ResponseOutOfBounds) => !fits && h.channel == Shut
            case _ => false
  {
    hide Perform, FatalClose, EnvelopeCheck;
    var asked := AskOn(c.digest, k, r, None);
    var f := asked.frame;
    EnvelopePasses(c, k, g, r);
    var open := if g.channel == Unopened then g.(channel := Opened, challenge := Some(f.challenge)) else g;
    PerformAnswers(c, w, open, r, observed);
    var (done, response) := Perform(c, w, open, r, observed);
    FatalChain(w, open, PeerQualificationMismatch);
    FatalChain(w, done, ResponseOutOfBounds);
    if response.None? { FatalPerform(c, w, open, r, observed); }
  }

  // ---------------------------------------------------------------------------------------------- runs

  /** One client, one gate, and the frame on its way from the one to the other. */
  datatype Link = Link(client: Client, gate: Gate, request: Option<Frame>, reply: Option<Frame>)

  /** The client sends a request, the gate handles the one in flight, the client receives the reply; anything else may
      happen at the gate between any two of these. */
  datatype Turn =
    | Sends(request: Request, refusal: Option<FrameError>)
    | Delivers(observed: bool, fits: bool)
    | Gets
    | Happens(event: Event)

  ghost function TurnOn(c: Config, w: World, l: Link, t: Turn): Link {
    match t
    case Happens(event) => var o := Handle(c, w, l.gate, event); if o.Handled? then l.(gate := o.gate) else l
    case Sends(r, refusal) =>
      var asked := AskOn(c.digest, l.client, r, refusal);
      if asked.Asks? then l.(client := asked.client, request := Some(asked.frame)) else l.(client := asked.client)
    case Delivers(observed, fits) =>
      if l.request.None? then l
      else
        var (h, output) := FrameOn(c, w, l.gate, Decoded(l.request.value), observed, fits);
        Link(l.client, SettleDrain(w, h).0, None, if output.Respond? then Some(output.frame) else l.reply)
    case Gets =>
      if l.reply.None? then l
        else l.(client := ReceiveOn(c.digest, l.client, Decoded(l.reply.value)).client, reply := None)
  }

  ghost function TurnsOn(c: Config, w: World, l: Link, ts: seq<Turn>): Link {
    if ts == [] then l else TurnOn(c, w, TurnsOn(c, w, l, ts[..|ts| - 1]), ts[|ts| - 1])
  }

  /** The client sent this request from a place where both were in step. */
  ghost predicate Awaited(c: Config, k: Client, g: Gate, f: Frame) {
    exists before: Client, r: Request :: InStep(c, before, g) && AskOn(c.digest, before, r, None) == Asks(k, f)
  }

  /** The client accepts this reply, and both are in step once it has. */
  predicate Accepted(c: Config, k: Client, g: Gate, f: Frame) {
    var got := ReceiveOn(c.digest, k, Decoded(f));
    got.Receives? && f.payload == Answer(got.response) && InStep(c, got.client, g)
  }

  /** Idle in step; or one frame in flight, which the other side will take. */
  ghost predicate Linked(c: Config, l: Link) {
    || (l.request.None? && l.reply.None? && InStep(c, l.client, l.gate))
    || (l.request.Some? && l.reply.None? && Awaited(c, l.client, l.gate, l.request.value))
    || (l.request.None? && l.reply.Some? && Accepted(c, l.client, l.gate, l.reply.value))
  }

  ghost predicate Ended(l: Link) {
    l.client.over || l.gate.channel == Shut
  }

  lemma StepStays(c: Config, k: Client, g: Gate, h: Gate)
    requires InStep(c, k, g) && ChainStays(g, h) && h.channel != Shut
    ensures InStep(c, k, h)
  {
  }

  lemma LinkStays(c: Config, l: Link, h: Gate)
    requires Linked(c, l) && ChainStays(l.gate, h) && h.channel != Shut
    ensures Linked(c, l.(gate := h))
  {
    hide InStep, ChainStays, AskOn, ReceiveOn;
    if l.request.Some? {
      var before: Client, r: Request :| InStep(c, before, l.gate)
        && AskOn(c.digest, before, r, None) == Asks(l.client, l.request.value);
      StepStays(c, before, l.gate, h);
    } else if l.reply.Some? {
      StepStays(c, ReceiveOn(c.digest, l.client, Decoded(l.reply.value)).client, l.gate, h);
    } else {
      StepStays(c, l.client, l.gate, h);
    }
  }

  /** A request with a frame already in flight ends the client. */
  lemma AskWhileBusy(c: Config, l: Link, r: Request, refusal: Option<FrameError>)
    requires Linked(c, l) && (l.request.Some? || l.reply.Some?) && !Ended(l)
    ensures AskOn(c.digest, l.client, r, refusal).AskFails? && AskOn(c.digest, l.client, r, refusal).client.over
  {
  }

  lemma AsksWithoutRefusal(digest: Frame -> string, k: Client, r: Request, refusal: Option<FrameError>)
    requires AskOn(digest, k, r, refusal).Asks?
    ensures AskOn(digest, k, r, None) == AskOn(digest, k, r, refusal)
  {
  }

  lemma FailedAsk(digest: Frame -> string, k: Client, r: Request, refusal: Option<FrameError>)
    requires AskOn(digest, k, r, refusal).AskFails?
    ensures AskOn(digest, k, r, refusal).client.over
  {
  }

  lemma SendKeeps(c: Config, w: World, l: Link, t: Turn)
    requires Linked(c, l) && !Ended(l) && t.Sends?
    ensures Linked(c, TurnOn(c, w, l, t)) || Ended(TurnOn(c, w, l, t))
  {
    hide InStep, AskOn;
    if l.request.Some? || l.reply.Some? {
      AskWhileBusy(c, l, t.request, t.refusal);
    } else {
      var asked := AskOn(c.digest, l.client, t.request, t.refusal);
      if asked.Asks? {
        AsksWithoutRefusal(c.digest, l.client, t.request, t.refusal);
      } else {
        FailedAsk(c.digest, l.client, t.request, t.refusal);
      }
    }
  }

  lemma DeliveryKeeps(c: Config, w: World, l: Link, t: Turn)
    requires Linked(c, l) && !Ended(l) && t.Delivers?
    ensures Linked(c, TurnOn(c, w, l, t)) || Ended(TurnOn(c, w, l, t))
  {
    hide InStep, AskOn, FrameOn, SettleDrain, ReceiveOn, ChainStays;
    if l.request.Some? {
      var before: Client, r: Request :| InStep(c, before, l.gate)
        && AskOn(c.digest, before, r, None) == Asks(l.client, l.request.value);
      ExchangeKeepsStep(c, w, before, l.gate, r, t.observed, t.fits);
      var (h, output) := FrameOn(c, w, l.gate, Decoded(l.request.value), t.observed, t.fits);
      SettleDrainChain(w, h);
      if output.Respond? && h.channel != Shut {
        LinkStays(c, Link(l.client, h, None, Some(output.frame)), SettleDrain(w, h).0);
      }
    }
  }

  lemma EventKeepsLink(c: Config, w: World, l: Link, t: Turn)
    requires Linked(c, l) && !Ended(l) && t.Happens? && !t.event.FrameEvent?
    ensures Linked(c, TurnOn(c, w, l, t)) || Ended(TurnOn(c, w, l, t))
  {
    hide Linked, ChainStays, Handle;
    EventKeepsChain(c, w, l.gate, t.event);
    var o := Handle(c, w, l.gate, t.event);
    if o.Handled? && o.gate.channel != Shut { LinkStays(c, l, o.gate); }
  }

  lemma ShutDelivers(c: Config, w: World, g: Gate, input: FrameInput, observed: bool, fits: bool)
    requires g.channel == Shut
    ensures FrameOn(c, w, g, input, observed, fits).0 == g
  {
  }

  lemma EndStays(c: Config, w: World, l: Link, t: Turn)
    requires Ended(l) && (t.Happens? ==> !t.event.FrameEvent?)
    ensures Ended(TurnOn(c, w, l, t))
  {
    hide SettleDrain, Handle, FrameOn, CheckReply;
    if t.Happens? { EventKeepsChain(c, w, l.gate, t.event); }
    if t.Delivers? && l.request.Some? {
      SettleDrainChain(w, FrameOn(c, w, l.gate, Decoded(l.request.value), t.observed, t.fits).0);
      if l.gate.channel == Shut { ShutDelivers(c, w, l.gate, Decoded(l.request.value), t.observed, t.fits); }
    }
  }

  lemma GettingKeeps(c: Config, w: World, l: Link)
    requires Linked(c, l)
    ensures Linked(c, TurnOn(c, w, l, Gets))
  {
    hide InStep, AskOn, ReceiveOn;
  }

  lemma TurnKeeps(c: Config, w: World, l: Link, t: Turn)
    requires (Linked(c, l) || Ended(l)) && (t.Happens? ==> !t.event.FrameEvent?)
    ensures Linked(c, TurnOn(c, w, l, t)) || Ended(TurnOn(c, w, l, t))
  {
    hide Linked, Ended, TurnOn;
    if Ended(l) {
      EndStays(c, w, l, t);
    } else {
      match t
      case Sends(_, _) => SendKeeps(c, w, l, t);
      case Delivers(_, _) => DeliveryKeeps(c, w, l, t);
      case Gets => GettingKeeps(c, w, l);
      case Happens(_) => EventKeepsLink(c, w, l, t);
    }
  }

  lemma FreshLinked(c: Config, challenge: string, s: Stores)
    ensures Linked(c, Link(FreshClient(c.generation, challenge), OnStores(c, s, false), None, None))
  {
  }

  lemma AwaitedPasses(c: Config, l: Link)
    requires Linked(c, l) && l.request.Some?
    ensures EnvelopeCheck(c, l.gate, l.request.value).None?
  {
    hide InStep, EnvelopeCheck;
    var before: Client, r: Request :| InStep(c, before, l.gate)
      && AskOn(c.digest, before, r, None) == Asks(l.client, l.request.value);
    EnvelopePasses(c, before, l.gate, r);
  }

  /** From a fresh client and a fresh gate of the same generation, over any turns: while the channel lasts on both
      sides, they hold the same next sequence and last digest with nothing outstanding, or one frame is in flight that
      the other side will take: the gate passes its envelope, the client accepts it and both are in step again. */
  lemma {:induction false} AlwaysInStep(c: Config, w: World, challenge: string, s: Stores, ts: seq<Turn>)
    requires forall t | t in ts :: t.Happens? ==> !t.event.FrameEvent?
    ensures var l := TurnsOn(c, w, Link(FreshClient(c.generation, challenge), OnStores(c, s, false), None, None), ts);
            && (Linked(c, l) || Ended(l))
            && (!Ended(l) && l.request.Some? ==> EnvelopeCheck(c, l.gate, l.request.value).None?)
  {
    hide TurnOn, Linked, EnvelopeCheck;
    var first := Link(FreshClient(c.generation, challenge), OnStores(c, s, false), None, None);
    if ts == [] {
      FreshLinked(c, challenge, s);
    } else {
      AlwaysInStep(c, w, challenge, s, ts[..|ts| - 1]);
      TurnKeeps(c, w, TurnsOn(c, w, first, ts[..|ts| - 1]), ts[|ts| - 1]);
    }
    var l := TurnsOn(c, w, first, ts);
    if !Ended(l) && l.request.Some? { AwaitedPasses(c, l); }
  }
}
