/** The policy gate as the object it is: an owned effect gate and the writer channel's fields, updated in place. Every
    method is proved to take the pair, seen as a value, exactly where the functions of PolicyModel say; the ghost trace
    ties the object to the lives of its generation, so that what is proved about all lives is a fact about the object
    after every event. */
module PolicyGate {
  import opened Vocabulary
  import opened Journal
  import opened GateModel
  import opened WriteReplay
  import opened PolicyModel
  import opened PolicyInvariant
  import opened PolicyRuns
  import opened Drift
  import opened Resting
  import opened Lives
  import opened Agreement
  import opened LifeLaws
  import opened EffectGate
  import opened Ordered

  lemma OpeningIsLife(c: PolicyConfig, w: World, lives: seq<Happening>, s: Stores, lost: bool)
    requires RunTo(c, w, Born(c), lives) == Down(s, lost)
    ensures var q := Reopen(c, w, s, lost);
            && RunTo(c, w, Born(c), lives + [Opens]) == Up(q) && Asleep(q)
            && Forwards(c, w, Born(c), lives + [Opens]) == Forwards(c, w, Born(c), lives)
            && q.gate.actions == Conclude(Replay(s.entries).actions) && q.writes == RebuildWrites(s.entries).0
            && (q.gate.state == Held <==> Firm(s) || !LastsNext(w, s))
            && (Unparted(c, w, Born(c), lives) ==> Unparted(c, w, Born(c), lives + [Opens]) && PolicySound(q))
  {
    hide Reopen, Born, PolicySound, Firm, Fenced, PolicyTraced, Readable, Conclude, Replay, RebuildWrites, Derive,
         Alike, PolicyRestart, IdleStores;
    assert (lives + [Opens])[..|lives|] == lives;
    BornSane(c);
    AlwaysSane(c, w, Born(c), lives);
    OpensRested(c, w, s, lost);
    OpensHeldExactly(c, w, s, lost);
    if Unparted(c, w, Born(c), lives) { AlwaysSound(c, w, lives + [Opens]); }
  }

  lemma {:induction false} InOrderIsAscending(ids: seq<nat>, all: set<nat>)
    requires Ascends(ids) && forall id :: id in ids <==> id in all
    ensures ids == Ascending(all)
    decreases |ids|
  {
    if ids == [] {
      assert all == {};
    } else {
      assert ids[0] in all;
      assert ids[0] == Least(all);
      assert ids == [ids[0]] + ids[1..];
      assert forall id | id in ids[1..] :: id != ids[0];
      InOrderIsAscending(ids[1..], all - {ids[0]});
    }
  }

  /** The loop of a rebuild of the writes over the journal. */
  method RebuildLoop(journal: seq<Entry>) returns (writes: Writes, reason: MaintenanceReason)
    ensures (writes, reason) == RebuildWrites(journal)
  {
    var found: Writes, begun, ended: Option<MaintenanceEnd> := map[], false, None;
    for i := 0 to |journal|
      invariant var q := ReplayWrites(journal[..i]); q.writes == found && q.begun == begun && q.ended == ended
    {
      assert journal[..i + 1][..i] == journal[..i];
      match journal[i] {
        case Rec(WriteForwarded(id, _, _, _, _, _, _, _)) => found := found[id := WriteSent];
        case Rec(WriteTerminal(id, classification, _)) => found := found[id := WriteDone(classification)];
        case Rec(MaintRequested(_)) => begun := true;
        case Rec(MaintWasEnded(end, _, _)) => ended := Some(end);
        case _ =>
      }
    }
    assert journal[..|journal|] == journal;
    writes := ConcludeWrites(found);
    reason := if !begun then GenerationRebuilt else if ended.Some? then EndedFor(ended.value) else RestartedGate;
  }

  lemma WriterPerformPends(c: PolicyConfig, w: World, p: Policy, request: WriterRequest, sequence: int,
                           frameDigest: string)
    ensures var (q, response) := WriterPerform(c, w, p, request, sequence, frameDigest);
            response.None? ==> q.pending.Some?
  {
    hide Journalled, BeginOn, EndOn, MaintenanceOf;
  }

  /** An opened maintenance has its fence open, and an outstanding write excludes every effect action still to be
      decided. */
  ghost predicate Excludes(p: Policy) {
    && (p.maintenance == MaintOpen ==>
          && Fence(p.gate) == AnswerOpen && (p.gate.state == State.Closed || p.gate.state == State.Invalidated)
          && !InFlight(p.gate))
    && (p.pending.Some? ==>
          && p.session.Some? && p.session.value.owner && p.session.value.opened_
          && NoneUndecided(p.gate.actions) && p.gate.state != Active)
  }

  lemma EventIsLife(c: PolicyConfig, w: World, lives: seq<Happening>, p: Policy, event: PolicyEvent)
    requires RunTo(c, w, Born(c), lives) == Up(p)
    ensures var (q, more) := (Next(c, w, p, event), lives + [Occurs(event)]);
            && RunTo(c, w, Born(c), more) == Up(q) && Excludes(q) && Distinct(Forwards(c, w, Born(c), more))
            && Forwards(c, w, Born(c), more) == Forwards(c, w, Born(c), lives) + ForwardOf(c, w, p, event)
            && (Inert(Up(p)) ==> Inert(Up(q)) && ForwardOf(c, w, p, event) == [])
            && OutcomesStay(p.gate, q.gate) && WritesKept(p.writes, q.writes)
            && (Unparted(c, w, Born(c), lives) ==>
                  && Unparted(c, w, Born(c), more) && PolicySound(q) && Fenced(q) && WritesStay(p.writes, q.writes)
                  && (p.gate.state == Held ==>
                        (q.gate.state == Held <==> (event == Base(GateRestart) ==> HeldAgain(w, p)))))
  {
    hide Next, ForwardOf, Born, PolicySound, Fenced, PolicyTraced, HeldAgain, OutcomesStay, WritesKept, WritesStay,
         Distinct, Inert, Sane;
    var more := lives + [Occurs(event)];
    assert more[..|lives|] == lives;
    MaintenanceExcludesEffects(c, w, more);
    ForwardedAtMostOnce(c, w, more);
    BornSane(c);
    AlwaysSane(c, w, Born(c), lives);
    StaysSane(c, w, Up(p), Occurs(event));
    OutcomesAreFrozen(c, w, lives, [Occurs(event)]);
    DecidedWritesStay(c, w, lives, [Occurs(event)]);
    if Unparted(c, w, Born(c), lives) {
      AlwaysSound(c, w, lives);
      AlwaysSound(c, w, more);
      if p.gate.state == Held { HeldEvent(c, w, p, event); }
    }
  }

  /** What the object shows after an event is the next policy gate of its life. */
  lemma Lived(c: PolicyConfig, w: World, p: Policy, event: PolicyEvent, q: Policy, output: Option<PolicyOutput>)
    requires var o := PolicyHandle(c, w, p, event); if o.PolicyHandled? then q == o.policy else q == p
    ensures Next(c, w, p, event) == q
  {
    hide PolicyHandle;
  }

  class PolicyGate {
    const config: PolicyConfig
    const gate: EffectGate
    var maintenance: Maintenance
    var reason: Option<MaintenanceReason>
    var session: Option<Session>
    var writes: Writes
    var pending: Option<PendingWrite>
    /** Everything that has happened to the generation. */
    ghost var trace: seq<Happening>

    ghost function View(): Policy
      reads this, gate
    {
      Policy(gate.View(), maintenance, reason, session, writes, pending)
    }

    ghost predicate Ready()
      reads this, gate
    {
      gate.config == config.base && !gate.failing
    }

    /** The process is where the trace of its generation leads. */
    ghost predicate Valid()
      reads this, gate
    {
      Ready() && Up(View()) == RunTo(config, gate.world, Born(config), trace)
    }

    /** No process of the trace ended with a file other than its mirror. */
    ghost predicate Trusted()
      reads this, gate
    {
      Valid() && Unparted(config, gate.world, Born(config), trace)
    }

    /** What the generation has forwarded, over all its processes. */
    ghost function Forwarded(): seq<(string, nat)>
      reads this, gate
    {
      Forwards(config, gate.world, Born(config), trace)
    }

    /** A policy gate around a base gate that has not restarted; on empty stores, a new generation's. */
    constructor (c: PolicyConfig, g: EffectGate)
      requires g.config == c.base && !g.failing
      ensures config == c && gate == g && Ready() && View() == Around(g.View()) && trace == []
      ensures g.View() == OnStores(c.base, NO_STORES, false) ==> Trusted()
    {
      config, gate := c, g;
      maintenance, reason, session, writes, pending := NotBegun, None, None, map[], None;
      trace := [];
    }

    /** Opens a generation on what the processes of `lives` left: the restart, then the maintenance follows the
        fence. */
    method Open(ghost lives: seq<Happening>)
      requires Ready() && RunTo(config, gate.world, Born(config), lives) == Down(gate.stores, gate.untraced)
      requires View() == Around(OnStores(config.base, gate.stores, gate.untraced))
      modifies this, gate
      ensures Valid() && trace == lives + [Opens] && Asleep(View())
      ensures Forwarded() == Forwards(config, gate.world, Born(config), lives)
      ensures gate.actions == old(Conclude(Replay(gate.stores.entries).actions))
              && writes == old(RebuildWrites(gate.stores.entries).0)
      ensures gate.state == Held <==> old(Firm(gate.stores) || !LastsNext(gate.world, gate.stores))
      ensures Unparted(config, gate.world, Born(config), lives) ==> Trusted() && PolicySound(View())
    {
      hide PolicyRestart, SettleMaintenance, RunTo, Forwards, Born, Unparted, PolicySound, Firm, OnStores, Conclude,
           Replay, RebuildWrites;
      ghost var (s, lost) := (gate.stores, gate.untraced);
      OpeningIsLife(config, gate.world, lives, s, lost);
      Restart();
      Settle();
      trace := lives + [Opens];
    }

    // -------------------------------------------------------------------------------------------- helpers

    /** The ids of the ambiguous writes, in order. */
    method AmbiguousWrites() returns (ids: seq<nat>)
      ensures ids == AmbiguousIds(writes)
    {
      var ambiguous := set id | id in writes && writes[id] == WriteDone(IoAmbiguous);
      ids := InOrder(ambiguous);
      InOrderIsAscending(ids, ambiguous);
    }

    /** The maintenance follows the fence: opened if its record lasts, held with it. */
    method Settle()
      requires Ready()
      modifies this, gate
      ensures Ready() && View() == SettleMaintenance(gate.world, old(View()))
    {
      hide Journalled, Fence;
      if maintenance == MaintPending && gate.FenceNow() == AnswerOpen {
        var opened_ := gate.Tell(Record.MaintOpened(gate.state));
        if opened_ { maintenance := MaintOpen; }
      }
      assert View() == OpenIfReady(gate.world, old(View()));
      if (maintenance == MaintPending || maintenance == MaintOpen) && gate.FenceNow() == AnswerHeld {
        maintenance := MaintHeld;
        var _ := gate.Tell(Record.MaintWasHeld(gate.state));
      }
    }

    method EndTheMaintenance(end: MaintenanceEnd)
      requires Ready()
      modifies this, gate
      ensures Ready() && View() == EndMaintenance(gate.world, old(View()), end)
    {
      hide Journalled, AmbiguousIds;
      maintenance, reason := MaintEnded, Some(EndedFor(end));
      var ids := AmbiguousWrites();
      var _ := gate.Tell(Record.MaintWasEnded(end, WriteCount(writes), ids));
    }

    /** Gives up on the outstanding write: the record first, then memory, then the hold. */
    method AbortOutstanding(why: AbortReason)
      requires Ready()
      modifies this, gate
      ensures Ready() && View() == AbortPending(gate.world, old(View()), why)
    {
      hide Journalled;
      if pending.None? { return; }
      var id := pending.value.writeId;
      pending := None;
      var _ := gate.Tell(Record.WriteTerminal(id, IoAmbiguous, WriteAborted(why)));
      writes := writes[id := WriteDone(IoAmbiguous)];
      gate.state := Held;
    }

    method EndTheSession(how: SessionEnd, fatal: Option<WriterFatal>) returns (output: PolicyOutput)
      requires Ready()
      modifies this, gate
      ensures Ready() && View() == EndSession(gate.world, old(View()), how) && output == SaysOver(View(), how, fatal)
    {
      hide Journalled, EndMaintenance;
      var owner := session.Some? && session.value.owner;
      session := None;
      var _ := gate.Tell(Record.WriterSessionEnded(how));
      if owner && maintenance != MaintEnded { EndTheMaintenance(BySession(how)); }
      output := SessionOver(how, maintenance, fatal);
    }

    method FailWriter(why: WriterFatal) returns (output: PolicyOutput)
      requires Ready()
      modifies this, gate
      ensures Ready() && (View(), output) == FatalWriter(gate.world, old(View()), why)
    {
      hide AbortPending, EndSession;
      AbortOutstanding(WriterProtocolFailure);
      output := EndTheSession(SessionFatal, Some(why));
    }

    method Frame(sequence: int, requestDigest: string, operation: WriterOperation, response: WriterResponse, fits: bool)
      returns (frame: Option<WriterFrame>)
      requires Ready()
      modifies this
      ensures Ready()
      ensures (View(), frame) == FrameResponse(config, old(View()), sequence, requestDigest, operation, response, fits)
    {
      if session.None? || !fits { return None; }
      var answer := AnswerFrame(config, session.value, sequence, requestDigest, operation, response);
      session := Some(session.value.(nextSequence := sequence + 2, lastDigest := config.frameDigest(answer)));
      frame := Some(answer);
    }

    // -------------------------------------------------------------------------------------------- restart

    /** The restart with the writer channel: the outstanding write dropped, the writes and the reason rebuilt from the
        journal, the base restart with a floor when a write is ambiguous, no session. */
    method Restart()
      requires Ready()
      modifies this, gate
      ensures Ready() && View() == PolicyRestart(gate.world, old(View()))
    {
      hide RestartWith, SettleDrain, RebuildWrites;
      pending := None;
      var rebuilt, why := RebuildLoop(gate.stores.entries);
      writes, maintenance, reason := rebuilt, MaintEnded, Some(why);
      var _ := gate.Restart(AnyAmbiguousWrite(rebuilt));
      var _ := gate.TrySettleDrain();
      session := None;
    }

    // -------------------------------------------------------------------------------------------- operations

    method Begin(expectedGeneration: string) returns (response: WriterResponse)
      requires Ready()
      modifies this, gate
      ensures Ready() && (View(), response) == BeginOn(config, gate.world, old(View()), expectedGeneration)
    {
      hide Journalled, DrainOn, SettleMaintenance, DeniedSince;
      if expectedGeneration != config.base.generation { return WriterRefused("GENERATION_MISMATCH"); }
      if maintenance == MaintEnded { return WriterRefused("MAINTENANCE_ENDED"); }
      var denied: set<nat> := {};
      if maintenance == NotBegun {
        var armed := WithStatus(gate.actions, Armed);
        var requested := gate.Tell(Record.MaintRequested(config.base.generation));
        if !requested { return WriterRefused("STORAGE_FAILURE"); }
        if session.Some? { session := Some(session.value.(owner := true)); }
        maintenance := MaintPending;
        var _, _ := gate.OnDrain();
        denied := gate.DeniedFrom(armed);
      }
      Settle();
      response := BeginOk(maintenance, gate.state, denied);
    }

    method CheckWrite(request: WriteRequest) returns (refusal: Option<string>)
      ensures refusal == WriteCheck(config, View(), request)
    {
      if maintenance != MaintOpen {
        return Some(if maintenance == MaintHeld then "MAINTENANCE_HELD" else "MAINTENANCE_NOT_OPEN");
      }
      if request.writeId != |writes| + 1 { return Some("WRITE_ID_OUT_OF_ORDER"); }
      if config.check(request).Some? { return config.check(request); }
      if config.render(request).None? { return Some("OBJECT_RULE"); }
      refusal := None;
    }

    /** `None` when the write was forwarded and its response waits. */
    method Write(request: WriteRequest, sequence: int, frameDigest: string) returns (response: Option<WriterResponse>)
      requires Ready()
      modifies this, gate
      ensures Ready() && (View(), response) == WriteOn(config, gate.world, old(View()), request, sequence, frameDigest)
    {
      hide Journalled;
      var refusal := CheckWrite(request);
      if refusal.Some? { return Some(WriterRefused(refusal.value)); }
      var rendered := config.render(request).value;
      var forwarded := gate.Tell(WriteRecord(config, request, rendered));
      if !forwarded { return Some(WriterRefused("STORAGE_FAILURE")); }
      writes := writes[request.writeId := WriteSent];
      pending := Some(PendingWrite(request.writeId, request.operation, config.requestDigest(rendered), sequence,
                                   frameDigest, rendered));
      response := None;
    }

    method End() returns (response: WriterResponse)
      requires Ready()
      modifies this, gate
      ensures Ready() && (View(), response) == EndOn(gate.world, old(View()))
    {
      hide Journalled, AmbiguousIds;
      if maintenance == NotBegun { return WriterRefused("MAINTENANCE_NOT_BEGUN"); }
      if maintenance == MaintEnded { return WriterRefused("MAINTENANCE_ENDED"); }
      var ids := AmbiguousWrites();
      var ended := gate.Tell(Record.MaintWasEnded(WriteEnd, WriteCount(writes), ids));
      if !ended { return WriterRefused("STORAGE_FAILURE"); }
      maintenance, reason := MaintEnded, Some(EndedFor(WriteEnd));
      response := EndOk(gate.state, WriteCount(writes), ids);
    }

    method Answer() returns (response: WriterResponse)
      ensures response == MaintenanceOf(config, View())
    {
      var inFlight := gate.FirstWith(Status.Consumed);
      var ids := AmbiguousWrites();
      response := MaintenanceOk(config.base.generation, gate.state, maintenance, inFlight, WriteCount(writes), ids);
    }

    // -------------------------------------------------------------------------------------------- frames

    method Do(request: WriterRequest, sequence: int, frameDigest: string) returns (response: Option<WriterResponse>)
      requires Ready()
      modifies this, gate
      ensures Ready()
              && (View(), response) == WriterPerform(config, gate.world, old(View()), request, sequence, frameDigest)
    {
      hide MaintenanceOf, BeginOn, WriteOn, EndOn;
      match request {
        case AskMaintenance => var status := Answer(); response := Some(status);
        case AskBegin(g) => var begun := Begin(g); response := Some(begun);
        case AskWrite(write) => response := Write(write, sequence, frameDigest);
        case AskEnd => var ended := End(); response := Some(ended);
      }
    }

    /** One writer frame of the current session: lockstep first, then the frame, then the envelope, then the
        operation. */
    method OnFrame(input: WriterInput, fits: bool) returns (output: PolicyOutput)
      requires Ready() && session.Some?
      modifies this, gate
      ensures Ready() && (View(), output) == WriterFrameOn(config, gate.world, old(View()), input, fits)
    {
      hide FatalWriter, WriterPerform, FrameResponse, WriterCheck;
      if pending.Some? { output := FailWriter(Lockstep); return; }
      if input.BadFrame? { output := FailWriter(WriterInvalidFrame(input.code)); return; }
      var f := input.frame;
      var broken := WriterCheck(session.value, f);
      if broken.Some? { output := FailWriter(broken.value); return; }
      if !session.value.opened_ { session := Some(session.value.(opened_ := true, challenge := Some(f.challenge))); }
      if f.sequence >= MAX_SEQUENCE { output := FailWriter(WriterResponseOutOfBounds); return; }
      if !f.payload.WriterAsk? || WriterOperationOf(f.payload.request) != f.operation {
        output := FailWriter(WriterInvalidFrame(F00));
        return;
      }
      output := OnRequest(f, fits);
    }

    method OnRequest(f: WriterFrame, fits: bool) returns (output: PolicyOutput)
      requires Ready() && f.payload.WriterAsk?
      modifies this, gate
      ensures Ready() && (View(), output) == WriterAnswered(config, gate.world, old(View()), f, fits)
    {
      hide FatalWriter, WriterPerform, FrameResponse;
      var digest := config.frameDigest(f);
      WriterPerformPends(config, gate.world, View(), f.payload.request, f.sequence, digest);
      var response := Do(f.payload.request, f.sequence, digest);
      if response.None? { return WriteWasForwarded(pending.value.writeId); }
      var frame := Frame(f.sequence, digest, f.operation, response.value, fits);
      if frame.Some? {
        output := WriterResponds(frame.value);
      } else {
        output := FailWriter(WriterResponseOutOfBounds);
      }
    }

    // -------------------------------------------------------------------------------------------- other events

    method SettleOutstanding(outcome: UpstreamOutcome)
      returns (classification: Classification, delivered: Option<WriteDetails>)
      requires Ready() && pending.Some?
      modifies this, gate
      ensures Ready() && (View(), classification, delivered) == SettleWrite(gate.world, old(View()), outcome)
    {
      hide Journalled, ClassifyWrite;
      var id := pending.value.writeId;
      var (decided, details) := ClassifyWrite(pending.value.operation, outcome);
      pending := None;
      var recorded := gate.Tell(Record.WriteTerminal(id, decided, details));
      classification := if recorded then decided else IoAmbiguous;
      delivered := if recorded && details.WriteDelivered? then Some(details) else None;
      writes := writes[id := WriteDone(classification)];
      if classification == IoAmbiguous { gate.state := Held; }
    }

    /** What an event came to, against its specification. */
    ghost predicate Did(o: PolicyOutcome, before: Policy, output: Option<PolicyOutput>)
      reads this, gate
    {
      match o
      case PolicyOutside => output.None? && View() == before
      case PolicyHandled(p, out, _) => output == Some(out) && View() == p
    }

    method OnUpstream(writeId: nat, outcome: UpstreamOutcome, fits: bool) returns (output: Option<PolicyOutput>)
      requires Ready()
      modifies this, gate
      ensures Ready()
              && Did(WriteUpstreamOn(config, gate.world, old(View()), writeId, outcome, fits), old(View()), output)
    {
      hide FatalWriter, FrameResponse, SettleWrite, Journalled, ResponseInSchema;
      if outcome.OutcomeResponse? && !ResponseInSchema(outcome.response) { return None; }
      if pending.None? || pending.value.writeId != writeId {
        if writeId !in writes { return None; }
        var _ := gate.Tell(Record.WriteLateUpstream(writeId));
        return Some(WriteNotRelayed);
      }
      var sent := pending.value;
      var classification, delivered := SettleOutstanding(outcome);
      if session.None? { return Some(WriteAnswered(classification, None)); }
      var response := WriteOk(writeId, classification, sent.requestDigest, delivered);
      var frame := Frame(sent.sequence, sent.frameDigest, WriteObject, response, fits);
      if frame.Some? { return Some(WriteAnswered(classification, frame)); }
      var _ := FailWriter(WriterResponseOutOfBounds);
      output := Some(WriteAnswered(classification, None));
    }

    method OnConnect() returns (output: PolicyOutput)
      requires Ready()
      modifies this
      ensures Ready() && (View(), output) == ConnectWriter(old(View()))
    {
      if session.Some? { return SessionRefused; }
      session := Some(CONNECTED);
      output := SessionConnected;
    }

    method OnChannelLost() returns (output: PolicyOutput)
      requires Ready()
      modifies this, gate
      ensures Ready() && (View(), output) == LoseWriter(gate.world, old(View()))
    {
      hide AbortPending, EndSession;
      if session.None? { return Empty; }
      AbortOutstanding(WriterChannelLost);
      output := EndTheSession(SessionEnded, None);
    }

    method Distrust(abort: AbortReason, why: Invalidation, fatal: WriterFatal) returns (output: PolicyOutput)
      requires Ready()
      modifies this, gate
      ensures Ready() && (View(), output) == DistrustWriter(gate.world, old(View()), abort, why, fatal)
    {
      hide AbortPending, EndSession, Urgent;
      if session.None? { return Empty; }
      AbortOutstanding(abort);
      gate.CloseUrgently(Held, why);
      gate.state := Held;
      output := EndTheSession(SessionFatal, Some(fatal));
    }

    method OnWriterEvent(event: PolicyEvent) returns (output: Option<PolicyOutput>)
      requires Ready() && !event.Base?
      modifies this, gate
      ensures Ready() && Did(WriterDispatch(config, gate.world, old(View()), event), old(View()), output)
    {
      hide WriterFrameOn, LoseWriter, DistrustWriter, WriteUpstreamOn, ConnectWriter;
      var out: PolicyOutput;
      match event {
        case WConnect => out := OnConnect();
        case WFrame(input, fits) =>
          if session.None? { return None; }
          out := OnFrame(input, fits);
        case WChannelLost => out := OnChannelLost();
        case WPeerChanged => out := Distrust(WriterPeerDeviated, WriterPeerDeviation, WriterPeerChanged);
        case WUpstream(writeId, outcome, fits) =>
          output := OnUpstream(writeId, outcome, fits);
          return;
        case WAnswerLate => out := Distrust(WriterProtocolFailure, ByFatal(AnswerLate), WriterAnswerLate);
      }
      output := Some(out);
    }

    method Apply(event: PolicyEvent) returns (output: Option<PolicyOutput>, drain: Option<DrainAnswer>)
      requires Ready()
      modifies this, gate
      ensures Ready() && Did(PolicyDispatch(config, gate.world, old(View()), event), old(View()), output)
      ensures var o := PolicyDispatch(config, gate.world, old(View()), event); o.PolicyHandled? ==> drain == o.drain
    {
      hide WriterDispatch, PolicyRestart, Handle, SettleDrain;
      drain := None;
      if event == Base(GateRestart) {
        Restart();
        output := Some(OfRestart(gate.state, maintenance));
      } else if event.Base? {
        var out, answer := gate.HandleEvent(event.event);
        if out.Some? { output, drain := Some(OfBase(out.value)), answer; } else { output := None; }
      } else {
        output := OnWriterEvent(event);
        if output.Some? { drain := gate.TrySettleDrain(); }
      }
    }

    /** Applies one event, then lets the maintenance follow the fence. */
    method HandleEvent(event: PolicyEvent) returns (output: Option<PolicyOutput>, drain: Option<DrainAnswer>)
      requires Valid()
      modifies this, gate
      ensures Did(PolicyHandle(config, gate.world, old(View()), event), old(View()), output)
      ensures var o := PolicyHandle(config, gate.world, old(View()), event); o.PolicyHandled? ==> drain == o.drain
      ensures Valid() && trace == old(trace) + [Occurs(event)] && Excludes(View()) && Distinct(Forwarded())
      ensures Forwarded() == old(Forwarded()) + ForwardOf(config, gate.world, old(View()), event)
      ensures old(Inert(Up(View()))) ==> Inert(Up(View())) && Forwarded() == old(Forwarded())
      ensures OutcomesStay(old(View()).gate, View().gate) && WritesKept(old(writes), writes)
      ensures old(Trusted()) ==>
                && Trusted() && PolicySound(View()) && Fenced(View()) && WritesStay(old(writes), writes)
                && (old(gate.state) == Held ==>
                      (gate.state == Held <==> (event == Base(GateRestart) ==> HeldAgain(gate.world, old(View())))))
    {
      hide PolicyDispatch, SettleMaintenance, RunTo, Forwards, Born, Unparted, PolicySound, Fenced, Inert, Excludes,
           ForwardOf, HeldAgain, OutcomesStay, WritesKept, WritesStay, Distinct;
      ghost var (before, lives) := (View(), trace);
      EventIsLife(config, gate.world, lives, before, event);
      output, drain := Apply(event);
      if output.Some? { Settle(); }
      trace := lives + [Occurs(event)];
      Lived(config, gate.world, before, event, View(), output);
    }
  }
}
