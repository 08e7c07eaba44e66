/** The effect gate as the object it is: fields updated in place by its events. Every method is proved to take the gate,
    seen as a value, exactly where the functions of GateModel say. */
module EffectGate {
  import opened Vocabulary
  import opened Journal
  import opened GateModel
  import opened GateInvariant
  import opened GateEvents
  import opened GateRestart
  import opened GateSteps
  import opened Ordered

  lemma IsArmed(actions: Actions, id: nat)
    requires id in actions && actions[id].status == Armed
    ensures id in WithStatus(actions, Armed)
  {
  }

  lemma FirstOfRest(ids: seq<nat>, i: nat, armed: set<nat>)
    requires Ascends(ids) && i < |ids| && ids[i] in armed && forall id | id in armed :: id in ids[i..]
    ensures ids[i] == Least(armed)
  {
  }

  lemma DenyArmedStep(w: World, g: Gate)
    requires WithStatus(g.actions, Armed) != {}
    ensures var id := Least(WithStatus(g.actions, Armed));
            var told := Journalled(w, Deny(g, id), Record.Denied(id));
            DenyArmed(w, g) == DenyArmed(w, told)
              && WithStatus(told.actions, Armed) <= WithStatus(g.actions, Armed) - {id}
  {
    hide Journalled;
    var id := Least(WithStatus(g.actions, Armed));
    assert WithStatus(Deny(g, id).actions, Armed) == WithStatus(g.actions, Armed) - {id};
  }

  lemma DenyQuietlyStep(w: World, g: Gate)
    requires WithStatus(g.actions, Armed) != {}
    ensures var id := Least(WithStatus(g.actions, Armed));
            var told := Quiet(w, Deny(g, id), Record.Denied(id));
            DenyQuietly(w, g) == DenyQuietly(w, told)
              && WithStatus(told.actions, Armed) <= WithStatus(g.actions, Armed) - {id}
  {
  }

  lemma AfterDenial(after: Actions, before: Actions, ids: seq<nat>, i: nat)
    requires i < |ids| && forall id | id in WithStatus(before, Armed) :: id in ids[i..]
    requires WithStatus(after, Armed) <= WithStatus(before, Armed) - {ids[i]}
    ensures forall id | id in WithStatus(after, Armed) :: id in ids[i + 1..]
  {
    assert ids[i..] == [ids[i]] + ids[i + 1..];
  }

  lemma NotArmed(actions: Actions, id: nat)
    requires !(id in actions && actions[id].status == Armed)
    ensures id !in WithStatus(actions, Armed)
  {
  }

  /** The loop of a rebuild over the journal. */
  method ReplayJournal(entries: seq<Entry>) returns (found: Actions, recorded: State, torn: bool, inconsistent: bool)
    ensures Replayed(found, recorded, torn, inconsistent) == Replay(entries)
  {
    hide Derive, AccountOf, MarkConsumed;
    found, recorded, torn, inconsistent := map[], Held, false, false;
    for i := 0 to |entries|
      invariant Replayed(found, recorded, torn, inconsistent) == Replay(entries[..i])
    {
      assert entries[..i + 1][..i] == entries[..i];
      if entries[i].Torn? {
        torn := true;
      } else {
        var record := entries[i].record;
        recorded := RecordedState(record, recorded);
        match record {
          case Bind(_, _, _, _, _) => found := map[];
          case Arm(id, _, _, _, _) => found := found[id := REBUILT];
          case Consumed(id) =>
            if id in found {
              found := found[id := found[id].(status := Status.Consumed, after := false)];
            } else {
              inconsistent := true;
            }
          case Invalidated(_, _) => found := MarkConsumed(found);
          case Expired(_) => found := MarkConsumed(found);
          case Terminal(id, classification, after, _) =>
            if id in found {
              found := found[id := found[id].(status := Status.Terminal, classification := Some(classification),
                                              after := after)];
            } else { inconsistent := true; }
          case Denied(id) =>
            if id in found {
              found := found[id := found[id].(status := Status.Terminal, classification := Some(NotForwarded))];
            } else { inconsistent := true; }
          case Sealed(id, classification, after) =>
            if id in found {
              found := found[id := found[id].(status := Status.Terminal, classification := Some(classification),
                                              sealed := true, after := after && classification != NotForwarded)];
            } else { inconsistent := true; }
          case _ =>
        }
      }
    }
    assert entries[..|entries|] == entries;
  }

  lemma RestartEnds(w: World, g: Gate, floor: bool)
    requires Sound(g)
    ensures var h := RestartWith(w, g, floor);
            && Sound(h) && h.state != Active && h.channel == Shut
            && (g.state != Held ==> h.state == Held || h.state == g.state)
            && h.actions.Keys == g.actions.Keys
            && forall id | id in h.actions :: h.actions[id].status == Status.Terminal
  {
    hide Sound, RestartWith, Restartable, Replay;
    SelfRestartable(g);
    RestartKeeps(w, g, g, floor);
    RestartRebuildsMemory(w, g, g, floor);
  }

  lemma BindsRecord(c: Config, g: Gate, p: BindRequest, observed: bool)
    requires BindCheck(c, g, p, observed).None?
    ensures p.runNonce in c.runs && BindRecord(c, p).Bind?
  {
  }

  method FlushLoop(connections: Connections, backlog: seq<string>) returns (flushed: Connections)
    ensures flushed == Flush(connections, backlog)
  {
    flushed := CloseUnconsumed(connections);
    for i := 0 to |backlog|
      invariant flushed.Keys == connections.Keys + (set q | q in backlog[..i])
      invariant forall c | c in flushed ::
                  flushed[c] == if c in backlog[..i] then FLUSHED else CloseUnconsumed(connections)[c]
    {
      flushed := flushed[backlog[i] := FLUSHED];
    }
    assert backlog[..|backlog|] == backlog;
  }

  /** Only a drain request answers the drain itself. */
  lemma OnlyDrainAnswers(c: Config, w: World, g: Gate, event: Event)
    requires !event.DrainRequest?
    ensures var o := Dispatch(c, w, g, event); o.Handled? ==> o.drain == None
  {
    hide FrameOn, Journalled, Consume, Conclusion, DrainOn, ExpireOn, LoseChannel, FatalClose, RestartWith, Admit;
  }

  lemma OnwardOfKept(g: Gate, h: Gate)
    requires Kept(g, h)
    ensures Onward(g, h)
  {
    hide Sound, Onward, Traced, ForwardedIn, WritesIn, BindsIn;
  }

  lemma HandlesGateRestart(c: Config, w: World, g: Gate)
    requires !RestartWith(w, g, false).drainPending
    ensures var o := Handle(c, w, g, GateRestart);
            o.Handled? && o.gate == RestartWith(w, g, false) && !o.output.Forward?
  {
    hide RestartWith;
  }

  /** Every event keeps the invariant; what a forward needs and adds. */
  lemma HandleKeepsSound(c: Config, w: World, g: Gate, event: Event)
    requires Sound(g)
    ensures var o := Handle(c, w, g, event);
            o.Handled? ==>
              && Sound(o.gate) && (!event.GateRestart? ==> Onward(g, o.gate))
              && (o.output.Forward? ==>
                    && g.state == Active && g.channel == Opened && !g.drainPending && g.bound.Some? && !g.expired
                    && ForwardedIn(o.gate) == ForwardedIn(g) + [(g.bound.value.executionId, o.output.actionId)])
    ensures Onward(g, g)
  {
    hide Sound, Onward, Handle, RestartWith, Restartable, ForwardedIn, WritesIn, BindsStep, Traced;
    KeptRefl(g);
    OnwardOfKept(g, g);
    if event.GateRestart? {
      SelfRestartable(g);
      RestartKeeps(w, g, g, false);
      HandlesGateRestart(c, w, g);
    } else {
      HandleStepped(c, w, g, event);
    }
  }

  class EffectGate {
    const config: Config
    const world: World
    var state: State
    var drainPending: bool
    var channel: Channel
    var challenge: Option<string>
    var nextSequence: int
    var lastDigest: string
    var bound: Option<Bound>
    var boundIds: seq<string>
    var boundNonces: seq<string>
    var expired: bool
    var actions: Actions
    var mutationKeys: set<MutationKey>
    var createdUids: set<(string, string)>
    var backlog: seq<string>
    var connections: Connections
    var stores: Stores
    var failing: bool
    ghost var untraced: bool

    /** The gate as a value. */
    ghost function View(): Gate
      reads this
    {
      Gate(state, drainPending, channel, challenge, nextSequence, lastDigest, bound, boundIds, boundNonces, expired,
           actions, mutationKeys, createdUids, backlog, connections, stores, untraced)
    }

    /** A gate on stores that may already hold a journal, not yet restarted. */
    constructor (c: Config, w: World, s: Stores, ghost lost: bool)
      ensures config == c && world == w && !failing && View() == OnStores(c, s, lost)
    {
      config, world := c, w;
      state, drainPending, channel, challenge, nextSequence, lastDigest := c.state, false, Unopened, None, 1,
        ZERO_DIGEST;
      actions, mutationKeys, createdUids, backlog, connections := map[], {}, {}, [], map[];
      stores, failing, untraced := s, false, lost;
      var derived := Derive(s.entries);
      bound, boundIds, boundNonces, expired := derived.bound, derived.boundIds, derived.boundNonces, derived.expired;
    }

    // -------------------------------------------------------------------------------------------- queries

    method FirstWith(status: Status) returns (first: Option<nat>)
      ensures first == First(actions, status)
    {
      var ids := InOrder(actions.Keys);
      for i := 0 to |ids|
        invariant forall k | 0 <= k < i :: actions[ids[k]].status != status
      {
        if actions[ids[i]].status == status {
          assert ids[i] in WithStatus(actions, status);
          return Some(ids[i]);
        }
      }
      assert forall id | id in actions :: exists k :: 0 <= k < |ids| && ids[k] == id;
      assert WithStatus(actions, status) == {};
      return None;
    }

    method ArmedIds() returns (armed: seq<nat>)
      ensures Ascends(armed) && (forall id :: id in armed <==> id in WithStatus(actions, Armed))
    {
      armed := InOrder(WithStatus(actions, Armed));
    }

    // -------------------------------------------------------------------------------------------- journal and marker

    /** Appends one record; when the write fails the storage-failure path has run by the time this returns. */
    method Tell(record: Record) returns (durable: bool)
      modifies this
      ensures failing == old(failing) && durable == LastsNext(world, old(stores))
      ensures View() == if failing then Quiet(world, old(View()), record) else Journalled(world, old(View()), record)
      ensures durable ==> View() == Quiet(world, old(View()), record)
      decreases if failing then 0 else 1, 1
    {
      durable := LastsNext(world, stores);
      stores := Append(world, stores, record);
      if !durable { StorageFailure(); }
    }

    method StorageFailure()
      modifies this
      ensures failing == old(failing)
      ensures View() == if failing then old(View()) else FailStorage(world, old(View()))
      decreases if failing then 0 else 1, 0
    {
      hide DenyQuietly, HoldFirst, Journalled, Quiet;
      if failing { return; }
      failing := true;
      HoldAndTell();
      DenyEveryArmed();
      failing := false;
    }

    /** HELD in memory first, then the marker, then the INVALIDATED record, whatever either comes to. */
    method HoldAndTell()
      requires failing
      modifies this
      ensures failing && View() == HoldFirst(world, old(View()))
      decreases 0, 2
    {
      hide DenyQuietly, Journalled, Append, WriteMarker, MarkInFlight, Replay;
      state := Held;
      MarkInFlightAfterInvalidation();
      stores := WriteMarker(world, stores);
      var told := Tell(Record.Invalidated(ByClose(CloseReason.StorageFailure), Held));
      untraced := untraced || !(stores.marker || Replay(stores.entries).torn || told);
    }

    method MarkInFlightAfterInvalidation()
      modifies this
      ensures failing == old(failing) && View() == old(View()).(actions := MarkInFlight(old(actions)))
    {
      var first := FirstWith(Status.Consumed);
      if first.Some? { actions := actions[first.value := actions[first.value].(after := true)]; }
    }

    /** What denying every armed action comes to from a gate on, within the storage-failure path or outside it. */
    ghost function Denying(g: Gate): Gate
      reads this
    {
      if failing then DenyQuietly(world, g) else DenyArmed(world, g)
    }

    /** The deny step for each action still ARMED: its connections first, then the action, then the record. */
    method DenyEveryArmed()
      modifies this
      ensures failing == old(failing)
      ensures View() == old(Denying(View()))
      decreases if failing then 0 else 1, 2
    {
      hide DenyQuietly, DenyArmed, Journalled, Quiet, CloseStamped, WithStatus;
      var armed := ArmedIds();
      for i := 0 to |armed|
        invariant failing == old(failing) && Denying(View()) == old(Denying(View()))
        invariant forall id | id in WithStatus(actions, Armed) :: id in armed[i..]
      {
        var id := armed[i];
        if id in actions && actions[id].status == Armed {
          ghost var g := View();
          IsArmed(actions, id);
          FirstOfRest(armed, i, WithStatus(actions, Armed));
          connections := CloseStamped(connections, StampOfAction(id));
          actions := actions[id := actions[id].(status := Status.Terminal, classification := Some(NotForwarded))];
          assert View() == Deny(g, id);
          var _ := Tell(Record.Denied(id));
          DenyArmedStep(world, g);
          DenyQuietlyStep(world, g);
          AfterDenial(actions, g.actions, armed, i);
        } else {
          assert !(id in WithStatus(actions, Armed)) by { NotArmed(actions, id); }
        }
      }
      assert WithStatus(actions, Armed) == {};
      NothingArmed(world, View());
    }

    function StampOfAction(id: nat): Option<Stamp>
      reads this
    {
      if bound.Some? then Some(Stamp(bound.value.executionId, id)) else None
    }

    /** The fence question, from the gate's own state. */
    function FenceNow(): (answer: DrainAnswer)
      reads this
      ensures answer == Fence(View())
    {
      if state == Held then AnswerHeld
      else if !(state == State.Closed || state == State.Invalidated) || WithStatus(actions, Status.Consumed) != {}
        then AnswerPending
      else AnswerOpen
    }

    // -------------------------------------------------------------------------------------------- closes

    /** Close in memory first, record the invalidation, deny what is armed. */
    method CloseUrgently(target: State, reason: Invalidation)
      requires !failing
      modifies this
      ensures !failing && View() == Urgent(world, old(View()), target, reason)
    {
      hide Journalled, DenyArmed, MarkInFlight;
      if state != Held { state := target; }
      MarkInFlightAfterInvalidation();
      var _ := Tell(Record.Invalidated(reason, state));
      DenyEveryArmed();
    }

    method CloseFatally(reason: FatalReason) returns (output: Output)
      requires !failing
      modifies this
      ensures !failing && View() == FatalClose(world, old(View()), reason) && output == Fatal(reason)
    {
      hide Urgent;
      channel := Shut;
      CloseUrgently(Held, ByFatal(reason));
      state := Held;
      output := Fatal(reason);
    }

    method TrySettleDrain() returns (answer: Option<DrainAnswer>)
      requires !failing
      modifies this
      ensures !failing && (View(), answer) == SettleDrain(world, old(View()))
    {
      hide Journalled;
      if !drainPending { return None; }
      if state == Draining && WithStatus(actions, Status.Consumed) == {} {
        state := if AnyAmbiguous(actions) then Held else State.Closed;
      }
      if FenceNow() == AnswerPending { return None; }
      drainPending := false;
      var _ := Tell(Record.Drained(state));
      answer := Some(FenceNow());
    }

    // -------------------------------------------------------------------------------------------- restart

    /** The actions and the state, from the journal and the marker alone. */
    method Rebuild() returns (rebuilt: State)
      modifies this
      ensures failing == old(failing) && rebuilt == RebuiltState(stores)
      ensures View() == old(View()).(actions := Conclude(Replay(stores.entries).actions))
    {
      hide Replay, IsClean, Conclude;
      var found, recorded, torn, inconsistent := ReplayJournal(stores.entries);
      var clean := IsClean(found);
      actions := Conclude(found);
      if stores.marker || torn || inconsistent { return Held; }
      rebuilt := if clean && (recorded == State.Closed || recorded == State.Invalidated) then recorded else Held;
    }

    /** Deny-first: no channel, stamps, connections or pending drain. */
    method Quiesce(floor: bool)
      modifies this
      ensures failing == old(failing) && View() == Quieted(old(View()), floor)
    {
      hide Replay, Conclude, CloseAll, RebuiltState;
      var rebuilt := Rebuild();
      state := if floor then Held else rebuilt;
      connections := CloseAll(connections);
      backlog, channel, drainPending := [], Shut, false;
    }

    method Restart(floor: bool) returns (output: Output)
      requires !failing
      modifies this
      ensures !failing && View() == RestartWith(world, old(View()), floor) && output == RestartState(state)
      ensures old(Sound(View())) ==>
                && Sound(View()) && state != Active && channel == Shut
                && (old(state) != Held ==> state == Held || state == old(state))
                && actions.Keys == old(actions).Keys
                && forall id | id in actions :: actions[id].status == Status.Terminal
    {
      hide Journalled, RestartWith, Quieted, Sound;
      if Sound(View()) { RestartEnds(world, View(), floor); }
      RestartIs(world, View(), floor);
      Quiesce(floor);
      var _ := Tell(Record.Restarted(state));
      output := RestartState(state);
    }

    // -------------------------------------------------------------------------------------------- connections

    /** What an event came to, against its specification. */
    ghost predicate Did(o: Outcome, before: Gate, output: Option<Output>)
      reads this
    {
      match o
      case Outside => output.None? && View() == before
      case Handled(g, out, _) => output == Some(out) && View() == g
    }

    method OnAccept(conn: string) returns (output: Option<Output>)
      modifies this
      ensures failing == old(failing) && Did(AcceptOn(old(View()), conn), old(View()), output)
    {
      if conn !in backlog { return None; }
      var at := FirstIndex(backlog, conn);
      backlog := backlog[..at] + backlog[at + 1..];
      var armed := FirstWith(Armed);
      var stamp := if armed.Some? then StampOfAction(armed.value) else None;
      connections := connections[conn := Connection(stamp, true, 0, false)];
      output := Some(Stamped(stamp));
    }

    method OnDisconnect(conn: string) returns (output: Option<Output>)
      modifies this
      ensures failing == old(failing) && Did(DisconnectOn(old(View()), conn), old(View()), output)
    {
      if conn !in connections || connections[conn].requests > 0 { return None; }
      connections := map c | c in connections && c != conn :: connections[c];
      output := Some(Nothing);
    }

    /** The decision on one request. */
    function Admits(connection: Connection, certificate: string, head: string, bodyDigest: Option<string>)
      : (r: Admission)
      reads this
      ensures r == Admit(config, View(), connection, certificate, head, bodyDigest)
    {
      if !connection.open then NotAdmitted(ConnectionClosed)
      else if connection.requests > 1 then NotAdmitted(ProtocolViolation)
      else if bound.None? || state != Active || drainPending || channel != Opened then NotAdmitted(GateNotActive)
      else if expired then NotAdmitted(ExecutionExpired)
      else if connection.stamp.None? then NotAdmitted(StampNone)
      else if connection.stamp.value.executionId != bound.value.executionId then NotAdmitted(StampMismatch)
      else if connection.stamp.value.actionId !in actions then NotAdmitted(StampMismatch)
      else
        var id := connection.stamp.value.actionId;
        if actions[id].status != Armed then NotAdmitted(AlreadyConsumed)
        else if bound.value.runNonce !in config.runs
                || certificate != config.runs[bound.value.runNonce].serverCertificateDigest
                then NotAdmitted(CertificateMismatch)
        else if actions[id].armed.None? || actions[id].armed.value.manifestDigest !in config.manifests
          then NotAdmitted(RequestMismatch)
        else
          var armed := actions[id].armed.value;
          if config.render(armed.verb, armed.manifestDigest, armed.uid) != Rendered(head, bodyDigest)
            then NotAdmitted(RequestMismatch)
          else Admitted(id)
    }

    method OnRequest(conn: string, certificate: string, head: string, bodyDigest: Option<string>)
      returns (output: Option<Output>)
      requires !failing
      modifies this
      ensures !failing
              && Did(RequestOn(config, world, old(View()), conn, certificate, head, bodyDigest), old(View()), output)
    {
      hide Admit, FailStorage, CloseStamped, Consume, Append, CloseOne;
      if conn !in connections { return None; }
      connections := connections[conn := connections[conn].(requests := connections[conn].requests + 1)];
      var refusal: ConnectionRefusal;
      match Admits(connections[conn], certificate, head, bodyDigest) {
        case Admitted(id) =>
          var recorded := Tell(Record.Consumed(id));
          if recorded {
            ConsumeAction(conn, id);
            return Some(Forward(id));
          }
          refusal := JournalFailed;
        case NotAdmitted(why) =>
          refusal := why;
      }
      connections := CloseOne(connections, conn);
      output := Some(CloseConnection(refusal));
    }

    method ConsumeAction(conn: string, id: nat)
      requires id in actions && conn in connections
      modifies this
      ensures failing == old(failing) && View() == Consume(old(View()), conn, id)
    {
      actions := actions[id := actions[id].(status := Status.Consumed, conn := Some(conn), after := false)];
      connections := connections[conn := connections[conn].(consumed := true)];
      connections := CloseStamped(connections, StampOfAction(id));
    }

    // -------------------------------------------------------------------------------------------- upstream

    method ForwardedFirst(conn: string, consumedOnly: bool) returns (id: Option<nat>)
      ensures var ids := ForwardedOn(actions, conn, consumedOnly); id == if ids == {} then None else Some(Least(ids))
      ensures id.Some? ==> id.value in actions
    {
      var ids := InOrder(ForwardedOn(actions, conn, consumedOnly));
      if ids == [] { return None; }
      assert ids[0] in ForwardedOn(actions, conn, consumedOnly);
      id := Some(ids[0]);
    }

    method ConcludeAction(id: nat, classification: Classification, delivered: Option<TerminalDetails>)
      requires id in actions
      modifies this
      ensures failing == old(failing) && View() == Conclusion(old(View()), id, classification, delivered)
    {
      actions := actions[id := actions[id].(status := Status.Terminal, classification := Some(classification))];
      if delivered.Some? { actions := actions[id := actions[id].(delivered := delivered)]; }
      if classification == IoAmbiguous { state := Held; }
    }

    method OnUpstream(conn: string, response: Option<UpstreamResponse>) returns (output: Option<Output>)
      requires !failing
      modifies this
      ensures !failing && Did(UpstreamOn(world, old(View()), conn, response), old(View()), output)
    {
      hide Journalled, Conclusion, Classify, CreatedBy, CloseOne, ForwardedOn;
      var found := ForwardedFirst(conn, false);
      if found.None? { return None; }
      var id := found.value;
      var action := actions[id];
      if action.status == Status.Terminal {
        var _ := Tell(Record.LateUpstream(id));
        return Some(NotRelayed);
      }
      var (decided, details) := Classify(action.armed, response);
      var recorded := Tell(Record.Terminal(id, decided, action.after, details));
      var classification := if recorded then decided else IoAmbiguous;
      ConcludeAction(id, classification, if recorded && details.Delivered? then Some(details) else None);
      if recorded { createdUids := createdUids + CreatedBy(action.armed, details); }
      connections := CloseOne(connections, conn);
      output := Some(Upstreamed(classification, recorded && response.Some?, false));
    }

    method OnTimeout(conn: string) returns (output: Option<Output>)
      requires !failing
      modifies this
      ensures !failing && Did(TimeoutOn(world, old(View()), conn), old(View()), output)
    {
      hide Journalled, Conclusion;
      var found := ForwardedFirst(conn, true);
      if found.None? { return None; }
      var id := found.value;
      var _ := Tell(Record.Terminal(id, IoAmbiguous, actions[id].after, Aborted));
      ConcludeAction(id, IoAmbiguous, None);
      connections := CloseOne(connections, conn);
      output := Some(Upstreamed(IoAmbiguous, false, true));
    }

    // -------------------------------------------------------------------------------------------- drain and expiry

    function DeniedFrom(armed: set<nat>): (ids: set<nat>)
      reads this
      ensures ids == DeniedSince(View(), armed)
    {
      set id | id in armed && id in actions && actions[id].status == Status.Terminal
    }

    method OnDrain() returns (denied: set<nat>, answer: DrainAnswer)
      requires !failing
      modifies this
      ensures !failing && (View(), denied, answer) == DrainOn(world, old(View()))
    {
      hide Journalled, DenyArmed, SettleDrain, DeniedSince;
      var armed := WithStatus(actions, Armed);
      if state == Active || state == Inspecting { state := Draining; }
      if !drainPending {
        drainPending := true;
        var _ := Tell(Record.DrainStarted);
      }
      DenyEveryArmed();
      var settled := TrySettleDrain();
      denied := DeniedFrom(armed);
      answer := if settled.Some? then settled.value else AnswerPending;
    }

    method OnExpire() returns (denied: set<nat>)
      requires !failing
      modifies this
      ensures !failing && (View(), denied) == ExpireOn(world, old(View()))
    {
      hide Journalled, DenyArmed, DeniedSince, MarkInFlight;
      if bound.None? || expired { return {}; }
      var armed := WithStatus(actions, Armed);
      expired := true;
      MarkInFlightAfterInvalidation();
      var _ := Tell(Record.Expired(bound.value.executionId));
      DenyEveryArmed();
      denied := DeniedFrom(armed);
    }

    // -------------------------------------------------------------------------------------------- frame operations

    /** The checks of BIND_EXECUTION after the peer qualification, in order. */
    method CheckBind(p: BindRequest, observed: bool) returns (refusal: Option<Refusal>)
      ensures refusal == BindCheck(config, View(), p, observed)
    {
      if state != Active { return Some(NotActive); }
      if !AllSettled(actions) { return Some(ActionOutstanding); }
      if p.executionId in boundIds || p.runNonce in boundNonces
         || p.executionId in config.prior.executionIds || p.runNonce in config.prior.runNonces {
        return Some(ExecutionReplay);
      }
      if p.dispatchGeneration != config.generation { return Some(OtherGeneration); }
      if p.runNonce !in config.runs { return Some(UnknownBinding); }
      var run := config.runs[p.runNonce];
      if run.bindingDigest != p.bindingDigest || run.caseId != p.caseId || run.requestDigest != p.requestDigest {
        return Some(UnknownBinding);
      }
      if p.serverCertificateDigest != run.serverCertificateDigest { return Some(CertificateDiffers); }
      var reused := ReusesManifest(run.manifests);
      if reused { return Some(ManifestReused); }
      if !observed { return Some(WorkerNotObserved); }
      refusal := None;
    }

    /** A new execution starts with no actions, keys or created objects. */
    method ForgetExecution()
      modifies this
      ensures failing == old(failing)
      ensures View() == old(View()).(expired := false, actions := map[], mutationKeys := {}, createdUids := {})
    {
      expired := false;
      actions, mutationKeys, createdUids := map[], {}, {};
    }

    method BindExecution(p: BindRequest)
      modifies this
      ensures failing == old(failing) && View() == BindIn(old(View()), p)
    {
      ForgetExecution();
      bound := Some(Bound(p.executionId, p.runNonce));
      boundIds := boundIds + [p.executionId];
      boundNonces := boundNonces + [p.runNonce];
    }

    method OnBind(p: BindRequest, observed: bool) returns (response: Response)
      requires !failing
      modifies this
      ensures !failing && (View(), response) == BindOn(config, world, old(View()), p, observed)
    {
      hide Journalled, Quiet, BindRecord, BindIn, BindCheck;
      var refusal := CheckBind(p, observed);
      if refusal.Some? { return Refused(refusal.value); }
      BindsRecord(config, View(), p, observed);
      var record := BindRecord(config, p);
      var recorded := Tell(record);
      if !recorded { return Refused(StorageFailed); }
      BindExecution(p);
      response := BindOk(p.executionId, record.manifestDigests);
    }

    /** Whether an earlier generation bound one of the manifests, by its digest or its identity. */
    method ReusesManifest(manifests: seq<string>) returns (reused: bool)
      ensures reused <==> exists d | d in manifests ::
                d in config.prior.manifestDigests
                || (d in config.manifests && config.manifests[d] in config.prior.manifestIdentities)
    {
      for i := 0 to |manifests|
        invariant forall d | d in manifests[..i] ::
          d !in config.prior.manifestDigests
          && !(d in config.manifests && config.manifests[d] in config.prior.manifestIdentities)
      {
        var d := manifests[i];
        if d in config.prior.manifestDigests
          || (d in config.manifests && config.manifests[d] in config.prior.manifestIdentities) {
          return true;
        }
      }
      reused := false;
    }

    /** The checks of ARM_ACTION, in order. */
    method CheckArm(p: ArmRequest) returns (refusal: Option<Refusal>)
      ensures refusal == ArmCheck(config, View(), p)
    {
      if state != Active { return Some(if state == Draining then DrainIsPending else NotActive); }
      if bound.None? || bound.value.executionId != p.executionId { return Some(ExecutionNotBound); }
      if expired { return Some(ExecutionHasExpired); }
      if !AllSettled(actions) { return Some(ActionOutstanding); }
      if p.actionId != |actions| + 1 { return Some(ActionIdOutOfOrder); }
      if bound.value.runNonce !in config.runs || p.manifestDigest !in config.runs[bound.value.runNonce].manifests
         || p.manifestDigest !in config.manifests {
        return Some(ManifestOutsideCase);
      }
      if (p.verb == Delete) != p.recordedUid.Some? { return Some(UidRule); }
      if p.verb == Delete && (p.manifestDigest, p.recordedUid.value) !in createdUids { return Some(UidNotCreated); }
      if p.requestTemplateDigest != config.template(p.verb, p.manifestDigest, p.recordedUid) {
        return Some(TemplateMismatch);
      }
      if KeyOf(p.verb, p.manifestDigest, p.recordedUid) * mutationKeys != {} { return Some(MutationKeyReused); }
      refusal := None;
    }

    /** Every unconsumed connection and every queued one is closed before ARM is journalled. */
    method FlushConnections()
      modifies this
      ensures failing == old(failing) && View() == Flushed(old(View()))
    {
      hide Flush;
      connections := FlushLoop(connections, backlog);
      backlog := [];
    }

    method OnArm(p: ArmRequest) returns (response: Response)
      requires !failing
      modifies this
      ensures !failing && (View(), response) == ArmOn(config, world, old(View()), p)
    {
      hide ArmCheck, FailStorage, Append, Flush, KeyOf;
      var refusal := CheckArm(p);
      if refusal.Some? { return Refused(refusal.value); }
      FlushConnections();
      var recorded := Tell(ArmRecord(config, p));
      if !recorded { return Refused(StorageFailed); }
      mutationKeys := mutationKeys + KeyOf(p.verb, p.manifestDigest, p.recordedUid);
      actions := actions[p.actionId := Action(Armed, None, false, false,
                                              Some(Target(p.verb, p.manifestDigest, p.recordedUid)), None, None)];
      response := ArmOk(p.actionId);
    }

    /** The first half of a seal: the action can no longer be consumed and its classification is frozen. */
    method FreezeAction(id: nat)
      requires id in actions
      modifies this
      ensures failing == old(failing) && View() == Freeze(old(View()), id)
    {
      hide CloseStamped;
      match actions[id].status {
        case Armed =>
          connections := CloseStamped(connections, StampOfAction(id));
          actions := actions[id := actions[id].(status := Status.Terminal, classification := Some(NotForwarded))];
        case Consumed =>
          if actions[id].conn.Some? { connections := CloseOne(connections, actions[id].conn.value); }
          ConcludeAction(id, IoAmbiguous, None);
        case Terminal =>
      }
    }

    method OnOutcome(executionId: string, id: nat) returns (response: Response)
      requires !failing
      modifies this
      ensures !failing && (View(), response) == OutcomeOn(world, old(View()), executionId, id)
    {
      hide Freeze, FailStorage, Append;
      if bound.None? || bound.value.executionId != executionId { return Refused(ExecutionNotBound); }
      if id !in actions { return Refused(UnknownAction); }
      if !actions[id].sealed {
        GateEvents.FreezeFrame(View(), id);
        FreezeAction(id);
        var action := actions[id];
        var classification := if action.classification.Some? then action.classification.value else IoAmbiguous;
        var recorded := Tell(Record.Sealed(id, classification, action.after));
        if !recorded { return Refused(StorageFailed); }
        actions := actions[id := action.(sealed := true)];
      }
      var action := actions[id];
      var classification := if action.classification.Some? then action.classification.value else IoAmbiguous;
      response := OutcomeOk(id, classification, action.after && classification != NotForwarded,
                            if classification == DeliveredResult then action.delivered else None);
    }

    method OnClose(reason: CloseReason) returns (response: Response)
      requires !failing
      modifies this
      ensures !failing && (View(), response) == CloseOn(world, old(View()), reason)
    {
      hide Journalled, DenyArmed, Urgent, DeniedSince, AnyAmbiguous;
      var armed := WithStatus(actions, Armed);
      if state == State.Closed || state == State.Invalidated || state == Held {
        if reason == ReconciliationRequired && state != Held {
          state := Held;
          var _ := Tell(Record.Invalidated(ByClose(reason), Held));
        }
        DenyEveryArmed();
      } else if reason == NormalDrain {
        if WithStatus(actions, Status.Consumed) != {} { return Refused(ActionInFlight); }
        state := if AnyAmbiguous(actions) then Held else State.Closed;
        var _ := Tell(Record.Closed(reason, state));
        DenyEveryArmed();
      } else {
        CloseUrgently(if reason == ReconciliationRequired then Held else State.Invalidated, ByClose(reason));
      }
      response := CloseOk(state, DeniedFrom(armed));
    }

    // -------------------------------------------------------------------------------------------- frames

    method StatusNow() returns (response: Response)
      ensures response == StatusOf(View())
    {
      var armed := FirstWith(Armed);
      var inFlight := FirstWith(Status.Consumed);
      response := StatusOk(state, drainPending, if bound.Some? then Some(bound.value.executionId) else None, armed,
                           inFlight);
    }

    method DoRequest(request: Request, observed: bool) returns (response: Option<Response>)
      requires !failing
      modifies this
      ensures !failing && (View(), response) == Perform(config, world, old(View()), request, observed)
    {
      hide StatusOf, BindOn, ArmOn, OutcomeOn, CloseOn, FatalClose;
      match request {
        case AskStatus => var status := StatusNow(); response := Some(status);
        case AskBind(p) =>
          if p.peerQualificationDigest != config.peerQualificationDigest {
            var _ := CloseFatally(PeerQualificationMismatch);
            return None;
          }
          var bind := OnBind(p, observed);
          response := Some(bind);
        case AskArm(p) => var arm := OnArm(p); response := Some(arm);
        case AskOutcome(executionId, id) => var outcome := OnOutcome(executionId, id); response := Some(outcome);
        case AskClose(reason) => var close := OnClose(reason); response := Some(close);
      }
    }

    method CheckEnvelope(f: Frame) returns (broken: Option<FatalReason>)
      ensures broken == EnvelopeCheck(config, View(), f)
    {
      if f.way != BrokerToGate || f.sequence < 1 || f.sequence % 2 != 1 { return Some(Direction); }
      if f.sequence != nextSequence || f.previousDigest != lastDigest { return Some(ChainBroken); }
      if f.generation != config.generation { return Some(GenerationMismatch); }
      if channel == Unopened {
        if f.operation != GenerationStatus { return Some(OpeningFrameRequired); }
      } else if challenge != Some(f.challenge) {
        return Some(ChallengeMismatch);
      }
      broken := None;
    }

    /** A frame whose envelope passed. */
    method OnCheckedFrame(f: Frame, observed: bool, fits: bool) returns (output: Output)
      requires !failing
      modifies this
      ensures !failing && (View(), output) == CheckedFrame(config, world, old(View()), f, observed, fits)
    {
      hide Perform, FatalClose, ResponseFrame;
      if channel == Unopened { channel, challenge := Opened, Some(f.challenge); }
      if !f.payload.Ask? || OperationOf(f.payload.request) != f.operation {
        output := CloseFatally(InvalidFrame(F00));
        return;
      }
      var response := DoRequest(f.payload.request, observed);
      if response.None? { return Fatal(PeerQualificationMismatch); }
      if !fits {
        output := CloseFatally(ResponseOutOfBounds);
        return;
      }
      var reply := ResponseFrame(config, f.challenge, f, response.value);
      nextSequence, lastDigest := f.sequence + 2, config.digest(reply);
      output := Respond(reply);
    }

    method OnFrame(input: FrameInput, observed: bool, fits: bool) returns (output: Output)
      requires !failing
      modifies this
      ensures !failing && (View(), output) == FrameOn(config, world, old(View()), input, observed, fits)
    {
      hide CheckedFrame, FatalClose, EnvelopeCheck;
      if channel == Shut { return RefusedChannel(false); }
      if input.Malformed? {
        output := CloseFatally(InvalidFrame(input.code));
        return;
      }
      var broken := CheckEnvelope(input.frame);
      if broken.Some? {
        output := CloseFatally(broken.value);
      } else {
        output := OnCheckedFrame(input.frame, observed, fits);
      }
    }

    // -------------------------------------------------------------------------------------------- events

    function Orderly(): (orderly: bool)
      reads this
      ensures orderly == IsOrderly(View())
    {
      (state == State.Closed || state == State.Invalidated) && WithStatus(actions, Status.Consumed) == {}
        && AllSettled(actions)
    }

    method OnChannelLost() returns (output: Output)
      requires !failing
      modifies this
      ensures !failing && (View(), output) == LoseChannel(world, old(View()))
    {
      hide Journalled, FatalClose, IsOrderly;
      match channel {
        case Unopened =>
          channel := Shut;
          var _ := Tell(Record.ChannelEnded(BeforeFirstFrame));
          output := ChannelEnds(BeforeFirstFrame);
        case Shut => output := Nothing;
        case Opened =>
          if Orderly() {
            channel := Shut;
            var _ := Tell(Record.ChannelEnded(ChannelEnd.Orderly));
            output := ChannelEnds(ChannelEnd.Orderly);
          } else {
            output := CloseFatally(PeerLost);
          }
      }
    }

    /** Applies one event; `None` outside the event's preconditions. */
    method Apply(event: Event) returns (output: Option<Output>, drain: Option<DrainAnswer>)
      requires !failing
      modifies this
      ensures !failing && Did(Dispatch(config, world, old(View()), event), old(View()), output)
      ensures Dispatch(config, world, old(View()), event).Handled? ==>
                drain == Dispatch(config, world, old(View()), event).drain
    {
      hide FrameOn, AcceptOn, DisconnectOn, RequestOn, UpstreamOn, TimeoutOn, DrainOn, ExpireOn, LoseChannel,
           FatalClose, RestartWith;
      if !event.DrainRequest? { OnlyDrainAnswers(config, world, View(), event); }
      drain := None;
      match event {
        case FrameEvent(input, observed, fits) => var o := OnFrame(input, observed, fits); output := Some(o);
        case Backlog(conn) => backlog, output := backlog + [conn], Some(Nothing);
        case Accept(conn) => output := OnAccept(conn);
        case Disconnect(conn) => output := OnDisconnect(conn);
        case RequestEvent(conn, certificate, head, bodyDigest) =>
          output := OnRequest(conn, certificate, head, bodyDigest);
        case Responded(conn, response) => output := OnUpstream(conn, Some(response));
        case UpstreamLost(conn) => output := OnUpstream(conn, None);
        case UpstreamTimeout(conn) => output := OnTimeout(conn);
        case DrainRequest => var denied, answer := OnDrain(); output, drain := Some(DeniedIds(denied)), Some(answer);
        case Expire => var denied := OnExpire(); output := Some(DeniedIds(denied));
        case ChannelLost => var o := OnChannelLost(); output := Some(o);
        case SecondChannel => output := if channel == Unopened then None else Some(RefusedChannel(channel == Opened));
        case PeerHasChanged =>
          if channel == Opened {
            var o := CloseFatally(PeerChanged); output := Some(o);
          } else {
            output := Some(Nothing);
          }
        case GateRestart => var o := Restart(false); output := Some(o);
        case LateAnswer =>
          if channel == Opened { var o := CloseFatally(AnswerLate); output := Some(o); } else { output := None; }
      }
    }

    /** Applies one event, then settles a drain that still waits for its fence. */
    method HandleEvent(event: Event) returns (output: Option<Output>, drain: Option<DrainAnswer>)
      requires !failing
      modifies this
      ensures !failing && Did(Handle(config, world, old(View()), event), old(View()), output)
      ensures Handle(config, world, old(View()), event).Handled? ==>
                drain == Handle(config, world, old(View()), event).drain
      ensures old(Sound(View())) ==> Sound(View()) && (!event.GateRestart? ==> Onward(old(View()), View()))
      ensures old(Sound(View())) && output.Some? && output.value.Forward? ==>
                && old(state) == Active && old(channel) == Opened && !old(drainPending) && old(bound).Some?
                && !old(expired)
                && ForwardedIn(View())
                  == old(ForwardedIn(View())) + [(old(bound).value.executionId, output.value.actionId)]
    {
      hide Dispatch, SettleDrain, Sound, Onward, ForwardedIn;
      ghost var before := View();
      if Sound(before) { HandleKeepsSound(config, world, before, event); }
      output, drain := Apply(event);
      if output.Some? {
        var answer := TrySettleDrain();
        if answer.Some? { drain := answer; }
      }
    }
  }
}
