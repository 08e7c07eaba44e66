/** Every event of the policy gate keeps its invariant. */
module PolicySteps {
  import opened Vocabulary
  import opened Journal
  import opened GateModel
  import opened WriteReplay
  import opened GateInvariant
  import opened GateStorage
  import opened GateEvents
  import opened PolicyModel
  import opened PolicyInvariant

  lemma SoundAfter(p: Policy, q: Policy)
    requires PolicyMoved(p, q)
    ensures PolicySound(q)
  {
  }

  // ---------------------------------------------------------------------------------------------- maintenance

  lemma OpenedKeeps(p: Policy)
    requires PolicySound(p) && p.maintenance == MaintPending && Fence(p.gate) == AnswerOpen
    ensures PolicyMoved(p, p.(maintenance := MaintOpen))
  {
    hide Sound, Onward, Traced, WritesIn;
    KeptRefl(p.gate);
  }

  lemma MaintenanceHeldKeeps(p: Policy)
    requires PolicySound(p) && Underway(p) && Fence(p.gate) == AnswerHeld
    ensures PolicyMoved(p, p.(maintenance := MaintHeld))
  {
    hide Sound, Onward, Traced, WritesIn;
    KeptRefl(p.gate);
  }

  /** An append that lasts changes nothing but the stores. */
  lemma DurableTold(w: World, p: Policy, record: Record)
    requires Lasts(w, p)
    ensures Told(w, p, record) == p.(gate := Quiet(w, p.gate, record))
            && Fence(Told(w, p, record).gate) == Fence(p.gate)
  {
  }

  lemma FenceKnown(p: Policy)
    requires PolicySound(p)
    ensures p.maintenance == MaintOpen ==> Fence(p.gate) != AnswerPending
    ensures p.maintenance == MaintHeld ==> Fence(p.gate) == AnswerHeld
    ensures Underway(p) ==> p.gate.state != Active
  {
  }

  lemma ToldFrame(w: World, p: Policy, record: Record)
    ensures Told(w, p, record) == p.(gate := Told(w, p, record).gate)
  {
  }

  lemma FailedTold(w: World, p: Policy, record: Record)
    requires PolicySound(p) && !Lasts(w, p) && Fits(p.gate, record)
    ensures Told(w, p, record).gate.state == Held && Fence(Told(w, p, record).gate) == AnswerHeld
  {
    hide PolicySound, Sound, Journalled, Filed, Fileable, Fits;
    SoundPolicy(p);
    SoundFiled(p.gate);
    FitsFileable(p.gate, record);
    FailedKept(w, p.gate, record);
  }

  lemma OpenIfReadyKeeps(w: World, p: Policy)
    requires PolicySound(p)
    ensures var q := OpenIfReady(w, p);
            PolicyMoved(p, q) && (q.maintenance == MaintPending ==> Fence(q.gate) != AnswerOpen)
  {
    hide PolicySound, PolicyMoved, Told, Fence;
    PolicyRefl(p);
    if p.maintenance == MaintPending && Fence(p.gate) == AnswerOpen {
      var record := Record.MaintOpened(p.gate.state);
      var told := Told(w, p, record);
      FenceKnown(p);
      ToldKeeps(w, p, record);
      ToldFrame(w, p, record);
      if Lasts(w, p) {
        DurableTold(w, p, record);
        SoundAfter(p, told);
        OpenedKeeps(told);
        PolicyComposes(p, told, told.(maintenance := MaintOpen));
      } else {
        FailedTold(w, p, record);
      }
    }
  }

  /** Whatever the event did, the maintenance ends in agreement with the fence. */
  lemma SettleMaintenanceKeeps(w: World, p: Policy)
    requires PolicySound(p)
    ensures PolicyMoved(p, SettleMaintenance(w, p)) && Fenced(SettleMaintenance(w, p))
  {
    hide PolicySound, PolicyMoved, Told, OpenIfReady, Fence;
    var q := OpenIfReady(w, p);
    OpenIfReadyKeeps(w, p);
    SoundAfter(p, q);
    FenceKnown(q);
    if (q.maintenance == MaintPending || q.maintenance == MaintOpen) && Fence(q.gate) == AnswerHeld {
      var record := Record.MaintWasHeld(q.gate.state);
      var held := q.(maintenance := MaintHeld);
      MaintenanceHeldKeeps(q);
      PolicyComposes(p, q, held);
      SoundAfter(q, held);
      ToldKeeps(w, held, record);
      ToldFrame(w, held, record);
      PolicyComposes(p, held, Told(w, held, record));
      SoundAfter(held, Told(w, held, record));
      FenceKnown(Told(w, held, record));
    }
  }

  // ---------------------------------------------------------------------------------------------- ends

  lemma EndMaintenanceKeeps(w: World, p: Policy, end: MaintenanceEnd)
    requires PolicySound(p) && p.pending.None? && p.maintenance != NotBegun
    ensures PolicyMoved(p, EndMaintenance(w, p, end)) && EndMaintenance(w, p, end).maintenance == MaintEnded
  {
    hide Sound, Onward, Traced, Journalled, AmbiguousIds, Fence, WithStatus, ForwardedIn, BindsIn;
    var record := Record.MaintWasEnded(end, WriteCount(p.writes), AmbiguousIds(p.writes));
    WriteRecordKept(w, p.gate, record);
    OnwardSays(p.gate, Journalled(w, p.gate, record));
  }

  lemma SessionGoneKeeps(p: Policy)
    requires PolicySound(p) && !Underway(p)
    ensures PolicyMoved(p, p.(session := None))
  {
    hide Sound, Onward, Traced, WritesIn;
    KeptRefl(p.gate);
  }

  lemma OwnersKnown(p: Policy)
    requires PolicySound(p)
    ensures (Underway(p) ==> p.session.Some? && p.session.value.owner)
    ensures (p.session.Some? && p.session.value.owner ==> p.maintenance != NotBegun)
  {
  }

  lemma EndMaintenanceFrame(w: World, p: Policy, end: MaintenanceEnd)
    ensures EndMaintenance(w, p, end)
            == p.(maintenance := MaintEnded, reason := Some(EndedFor(end)), gate := EndMaintenance(w, p, end).gate)
  {
  }

  /** Dropping the session first or last comes to the same. */
  lemma EndSessionIs(w: World, p: Policy, how: SessionEnd)
    ensures var told := Told(w, p, Record.WriterSessionEnded(how));
            var owner := p.session.Some? && p.session.value.owner;
            var ended := if owner && told.maintenance != MaintEnded then EndMaintenance(w, told, BySession(how))
              else told;
            EndSession(w, p, how) == ended.(session := None)
  {
  }

  lemma EndSessionKeeps(w: World, p: Policy, how: SessionEnd)
    requires PolicySound(p) && p.pending.None?
    ensures var q := EndSession(w, p, how); PolicyMoved(p, q) && q.session.None? && !Underway(q)
  {
    hide PolicySound, PolicyMoved, Told;
    var told := Told(w, p, Record.WriterSessionEnded(how));
    ToldKeeps(w, p, Record.WriterSessionEnded(how));
    ToldFrame(w, p, Record.WriterSessionEnded(how));
    SoundAfter(p, told);
    OwnersKnown(told);
    var owner := p.session.Some? && p.session.value.owner;
    var ended := if owner && told.maintenance != MaintEnded then EndMaintenance(w, told, BySession(how)) else told;
    if owner && told.maintenance != MaintEnded {
      EndMaintenanceKeeps(w, told, BySession(how));
      EndMaintenanceFrame(w, told, BySession(how));
      PolicyComposes(p, told, ended);
    }
    SoundAfter(p, ended);
    SessionGoneKeeps(ended);
    PolicyComposes(p, ended, ended.(session := None));
    EndSessionIs(w, p, how);
  }

  // ---------------------------------------------------------------------------------------------- writes

  /** The outstanding write concluded: as decided if its record lasts, else ambiguous; an ambiguous one holds. */
  ghost function ConcludeWrite(w: World, p: Policy, decided: Classification, details: WriteDetails): Policy
    requires p.pending.Some?
  {
    var id := p.pending.value.writeId;
    var classification := if Lasts(w, p) then decided else IoAmbiguous;
    var told := Told(w, p.(pending := None), Record.WriteTerminal(id, decided, details));
    told.(writes := told.writes[id := WriteDone(classification)],
          gate := if classification == IoAmbiguous then told.gate.(state := Held) else told.gate)
  }

  lemma ConcludedRebuilt(q: WritesReplayed, writes: Writes, id: nat, decided: Classification, lasts: bool,
                         details: WriteDetails)
    requires WritesMatch(q, writes) && id in writes && writes[id] == WriteSent
    requires forall other | other in writes && writes[other] == WriteSent :: other == id
    ensures var after := if lasts then ReplayWrite(q, Rec(Record.WriteTerminal(id, decided, details))) else q;
            WritesMatch(after, writes[id := WriteDone(if lasts then decided else IoAmbiguous)])
  {
    assert id in ConcludeWrites(writes) && id in ConcludeWrites(q.writes);
    assert ConcludeWrites(q.writes)[id] == WriteDone(IoAmbiguous);
    forall other | other in writes
      ensures other in q.writes && ConcludedWrite(q.writes[other]) == ConcludedWrite(writes[other])
    {
      assert other in ConcludeWrites(writes);
      assert ConcludeWrites(q.writes)[other] == ConcludeWrites(writes)[other];
    }
    assert q.writes.Keys == ConcludeWrites(q.writes).Keys == writes.Keys;
  }

  /** In the file the write is outstanding still, or decided as the record says. */
  lemma ConcludedWritten(q: WritesReplayed, writes: Writes, id: nat, decided: Classification, lasts: bool,
                         details: WriteDetails)
    requires Written(q, writes) && id in writes && writes[id] == WriteSent
    ensures var done := writes[id := WriteDone(if lasts then decided else IoAmbiguous)];
            && Written(ReplayWrite(q, Rec(Record.WriteTerminal(id, decided, details))), done)
            && (!lasts ==> Written(q, done))
  {
  }

  lemma ConcludeGate(w: World, p: Policy, decided: Classification, details: WriteDetails)
    requires PolicySound(p) && p.pending.Some?
    ensures var g := ConcludeWrite(w, p, decided, details).gate;
            && Sound(g) && Onward(p.gate, g) && ForwardedIn(g) == ForwardedIn(p.gate) && BindsIn(g) == BindsIn(p.gate)
            && WritesIn(g)
              == (if Lasts(w, p)
                  then ReplayWrite(WritesIn(p.gate),
                                   Rec(Record.WriteTerminal(p.pending.value.writeId, decided, details)))
                               else WritesIn(p.gate))
            && ((!Lasts(w, p) && FileWritesIn(g) == FileWritesIn(p.gate))
                || FileWritesIn(g) == ReplayWrite(FileWritesIn(p.gate),
                                                  Rec(Record.WriteTerminal(p.pending.value.writeId, decided, details))))
            && (!Lasts(w, p) || decided == IoAmbiguous ==> g.state == Held)
            && (Lasts(w, p) && decided != IoAmbiguous ==> (Traced(p.gate) ==> Traced(g)) && g.state == p.gate.state)
  {
    hide Sound, Onward, Traced, Journalled, Fence;
    var record := Record.WriteTerminal(p.pending.value.writeId, decided, details);
    var told := Journalled(w, p.gate, record);
    WriteRecordKept(w, p.gate, record);
    HeldMoved(told);
    OnwardComposes(p.gate, told, told.(state := Held));
  }

  lemma ConcludeFrame(w: World, p: Policy, decided: Classification, details: WriteDetails)
    requires p.pending.Some?
    ensures var q := ConcludeWrite(w, p, decided, details);
            var done := WriteDone(if Lasts(w, p) then decided else IoAmbiguous);
            q == p.(pending := None, gate := q.gate, writes := p.writes[p.pending.value.writeId := done])
  {
  }

  lemma ConcludeWriteKeeps(w: World, p: Policy, decided: Classification, details: WriteDetails)
    requires PolicySound(p) && p.pending.Some?
    ensures PolicyMoved(p, ConcludeWrite(w, p, decided, details))
  {
    hide Sound, Onward, Traced, WritesIn, FileWritesIn, ForwardedIn, BindsIn, Fence, WithStatus, Told, NoneUndecided,
         Written, WritesMatch, ReplayWrite;
    var q := ConcludeWrite(w, p, decided, details);
    var id := p.pending.value.writeId;
    ConcludeGate(w, p, decided, details);
    ConcludeFrame(w, p, decided, details);
    ConcludedRebuilt(WritesIn(p.gate), p.writes, id, decided, Lasts(w, p), details);
    ConcludedWritten(FileWritesIn(p.gate), p.writes, id, decided, Lasts(w, p), details);
    OnwardSays(p.gate, q.gate);
    StillNoneArmed(p.gate, q.gate);
    if p.maintenance == MaintOpen { FenceStays(p.gate, q.gate); }
    assert q.writes.Keys == p.writes.Keys;
    assert |q.writes| == |q.writes.Keys| == |p.writes|;
    if q.writes[id] == WriteDone(IoAmbiguous) { assert AnyAmbiguousWrite(q.writes); }
    if AnyAmbiguousWrite(p.writes) {
      var other :| other in p.writes && p.writes[other] == WriteDone(IoAmbiguous);
      assert q.writes[other] == WriteDone(IoAmbiguous);
    }
  }

  lemma AbortPendingKeeps(w: World, p: Policy, reason: AbortReason)
    requires PolicySound(p)
    ensures var q := AbortPending(w, p, reason); PolicyMoved(p, q) && q.pending.None? && q.session == p.session
  {
    hide PolicySound, PolicyMoved, Told;
    PolicyRefl(p);
    if p.pending.Some? {
      ConcludeWriteKeeps(w, p, IoAmbiguous, WriteAborted(reason));
      ConcludeFrame(w, p, IoAmbiguous, WriteAborted(reason));
    }
  }

  // ---------------------------------------------------------------------------------------------- operations

  /** A durable MAINT_REQUESTED followed by the drain. */
  ghost function Drained(w: World, p: Policy, record: Record): Policy
    requires p.session.Some?
  {
    p.(session := Some(p.session.value.(owner := true)), maintenance := MaintPending,
       gate := DrainOn(w, Journalled(w, p.gate, record)).0)
  }

  lemma DrainedKeeps(w: World, p: Policy, record: Record)
    requires PolicySound(p) && p.maintenance == NotBegun && p.session.Some? && p.session.value.opened_
    requires record.MaintRequested? && Lasts(w, p)
    ensures PolicyMoved(p, Drained(w, p, record))
  {
    hide Sound, Onward, Traced, Journalled, DrainOn, ForwardedIn, BindsIn, Fence, WithStatus, NoneUndecided;
    var told := Journalled(w, p.gate, record);
    WriteRecordKept(w, p.gate, record);
    DrainKept(w, told);
    OnwardComposes(p.gate, told, DrainOn(w, told).0);
    OnwardSays(p.gate, DrainOn(w, told).0);
  }

  lemma SentRebuilt(q: WritesReplayed, writes: Writes, id: nat, record: Record)
    requires WritesMatch(q, writes) && record.WriteForwarded? && record.writeId == id == |writes| + 1
    ensures WritesMatch(ReplayWrite(q, Rec(record)), writes[id := WriteSent])
  {
    assert q.writes.Keys == ConcludeWrites(q.writes).Keys == writes.Keys;
    assert |q.writes| == |q.writes.Keys| == |writes|;
    forall other | other in writes
      ensures ConcludedWrite(q.writes[other]) == ConcludedWrite(writes[other])
    {
      assert ConcludeWrites(q.writes)[other] == ConcludeWrites(writes)[other];
    }
  }

  /** With the maintenance open nothing is armed or in flight. */
  lemma OpenMeansDecided(p: Policy)
    requires PolicySound(p) && Fenced(p) && p.maintenance == MaintOpen
    ensures NoneUndecided(p.gate.actions) && p.gate.state != Held
  {
    forall id | id in p.gate.actions
      ensures p.gate.actions[id].status == Status.Terminal
    {
      assert id !in WithStatus(p.gate.actions, Armed) && id !in WithStatus(p.gate.actions, Status.Consumed);
    }
  }

  /** A policy record the gate may try: one about no write, or a new write's, which a held gate never tries. */
  predicate MayTell(p: Policy, record: Record) {
    || record.MaintRequested? || record.MaintWasEnded?
    || (record.WriteForwarded? && p.gate.state != Held && record.writeId == |p.writes| + 1)
  }

  lemma WriteIdsRun(p: Policy)
    requires WritesShaped(p)
    ensures |p.writes| + 1 !in p.writes
  {
  }

  lemma ToldWritten(p: Policy, record: Record)
    requires PolicySound(p) && MayTell(p, record)
    ensures Written(ReplayWrite(FileWritesIn(p.gate), Rec(record)), p.writes)
  {
    hide Sound, ReplayWrites;
    if record.WriteForwarded? {
      UnpartedUnlessHeld(p.gate);
      SentRebuilt(WritesIn(p.gate), p.writes, record.writeId, record);
      WriteIdsRun(p);
    }
  }

  /** A policy record that failed: the generation is held and nothing else changed. */
  lemma FailedToldKeeps(w: World, p: Policy, record: Record)
    requires PolicySound(p) && !Lasts(w, p) && MayTell(p, record)
    ensures PolicyMoved(p, Told(w, p, record))
  {
    hide PolicySound, Sound, Onward, Traced, Journalled, ForwardedIn, WritesIn, FileWritesIn, BindsIn, Written,
         ReplayWrite, PolicyOnward, PolicyTraced;
    SoundPolicy(p);
    PolicyWritten(p);
    ToldWritten(p, record);
    WriteRecordKept(w, p.gate, record);
    GateMoves(p, Journalled(w, p.gate, record));
  }

  lemma SettleMaintenanceFrame(w: World, p: Policy)
    ensures var q := SettleMaintenance(w, p); q == p.(gate := q.gate, maintenance := q.maintenance)
  {
    hide Journalled;
  }

  lemma BeginKeeps(c: PolicyConfig, w: World, p: Policy, expectedGeneration: string)
    requires PolicySound(p) && p.session.Some? && p.session.value.opened_
    ensures var q := BeginOn(c, w, p, expectedGeneration).0; PolicyMoved(p, q) && q.pending == p.pending
  {
    hide PolicySound, PolicyMoved, SettleMaintenance, Journalled, DrainOn, DeniedSince;
    PolicyRefl(p);
    var record := Record.MaintRequested(c.base.generation);
    if expectedGeneration == c.base.generation && p.maintenance != MaintEnded {
      if p.maintenance == NotBegun {
        if Lasts(w, p) {
          var drained := Drained(w, p, record);
          DrainedKeeps(w, p, record);
          SoundAfter(p, drained);
          SettleMaintenanceKeeps(w, drained);
          SettleMaintenanceFrame(w, drained);
          PolicyComposes(p, drained, SettleMaintenance(w, drained));
        } else {
          FailedToldKeeps(w, p, record);
        }
      } else {
        SettleMaintenanceKeeps(w, p);
        SettleMaintenanceFrame(w, p);
      }
    }
  }

  /** The policy gate once WRITE_FORWARDED is durable. */
  function Sent(p: Policy, g: Gate, pending: PendingWrite): Policy {
    p.(gate := g, writes := p.writes[pending.writeId := WriteSent], pending := Some(pending))
  }

  lemma SentShaped(p: Policy, g: Gate, pending: PendingWrite)
    requires WritesShaped(p) && p.pending.None? && p.gate.state != Held && pending.writeId == |p.writes| + 1
             && g.state == p.gate.state
    ensures WritesShaped(Sent(p, g, pending)) && !AnyAmbiguousWrite(p.writes)
    ensures forall id | id in p.writes :: id != pending.writeId
  {
    assert Sent(p, g, pending).writes.Keys == p.writes.Keys + {pending.writeId};
  }

  lemma SentKeeps(p: Policy, g: Gate, pending: PendingWrite, record: Record)
    requires PolicySound(p) && Fenced(p) && p.maintenance == MaintOpen && p.pending.None?
             && pending.writeId == |p.writes| + 1
    requires record.WriteForwarded? && record.writeId == pending.writeId
    requires Sound(g) && Onward(p.gate, g) && ForwardedIn(g) == ForwardedIn(p.gate) && BindsIn(g) == BindsIn(p.gate)
             && (Traced(p.gate) ==> Traced(g))
    requires g == p.gate.(stores := g.stores) && WritesIn(g) == ReplayWrite(WritesIn(p.gate), Rec(record))
    ensures PolicyMoved(p, Sent(p, g, pending))
  {
    hide Sound, Onward, Traced, ForwardedIn, BindsIn, WritesIn, FileWritesIn, Written, WritesMatch, ReplayWrite;
    OpenMeansDecided(p);
    SentShaped(p, g, pending);
    SentRebuilt(WritesIn(p.gate), p.writes, pending.writeId, record);
    UnpartedUnlessHeld(g);
    MatchedWritten(WritesIn(g), Sent(p, g, pending).writes);
  }

  lemma WriteKeeps(c: PolicyConfig, w: World, p: Policy, request: WriteRequest, sequence: int, frameDigest: string)
    requires PolicySound(p) && Fenced(p) && p.pending.None?
    ensures PolicyMoved(p, WriteOn(c, w, p, request, sequence, frameDigest).0)
  {
    hide PolicySound, PolicyMoved, Journalled;
    PolicyRefl(p);
    if WriteCheck(c, p, request).None? {
      if Lasts(w, p) {
        var rendered := c.render(request).value;
        var pending :=
          PendingWrite(request.writeId, request.operation, c.requestDigest(rendered), sequence, frameDigest, rendered);
        SoundPolicy(p);
        WriteRecordKept(w, p.gate, WriteRecord(c, request, rendered));
        SentKeeps(p, Journalled(w, p.gate, WriteRecord(c, request, rendered)), pending,
                  WriteRecord(c, request, rendered));
      } else {
        OpenMeansDecided(p);
        assert MayTell(p, WriteRecord(c, request, c.render(request).value));
        FailedToldKeeps(w, p, WriteRecord(c, request, c.render(request).value));
      }
    }
  }

  lemma EndKeeps(w: World, p: Policy)
    requires PolicySound(p) && p.pending.None?
    ensures PolicyMoved(p, EndOn(w, p).0)
  {
    hide PolicySound, PolicyMoved, Journalled, AmbiguousIds;
    PolicyRefl(p);
    if p.maintenance != NotBegun && p.maintenance != MaintEnded {
      var record := Record.MaintWasEnded(WriteEnd, WriteCount(p.writes), AmbiguousIds(p.writes));
      if Lasts(w, p) { EndMaintenanceKeeps(w, p, WriteEnd); } else { FailedToldKeeps(w, p, record); }
    }
  }

  // ---------------------------------------------------------------------------------------------- frames

  lemma FatalWriterKeeps(w: World, p: Policy, reason: WriterFatal)
    requires PolicySound(p)
    ensures PolicyMoved(p, FatalWriter(w, p, reason).0)
  {
    hide PolicySound, PolicyMoved, AbortPending, EndSession;
    var aborted := AbortPending(w, p, WriterProtocolFailure);
    AbortPendingKeeps(w, p, WriterProtocolFailure);
    SoundAfter(p, aborted);
    EndSessionKeeps(w, aborted, SessionFatal);
    PolicyComposes(p, aborted, EndSession(w, aborted, SessionFatal));
  }

  /** A session's chain position and its opening. */
  lemma ReframedKeeps(p: Policy, session: Session)
    requires PolicySound(p) && p.session.Some?
    requires session.owner == p.session.value.owner && (p.session.value.opened_ ==> session.opened_)
    ensures PolicyMoved(p, p.(session := Some(session)))
  {
    hide Sound, Onward, Traced, WritesIn;
    KeptRefl(p.gate);
  }

  lemma FrameResponseKeeps(c: PolicyConfig, p: Policy, sequence: int, requestDigest: string, operation: WriterOperation,
                           response: WriterResponse, fits: bool)
    requires PolicySound(p)
    ensures PolicyMoved(p, FrameResponse(c, p, sequence, requestDigest, operation, response, fits).0)
  {
    hide PolicySound, PolicyMoved;
    PolicyRefl(p);
    var q := FrameResponse(c, p, sequence, requestDigest, operation, response, fits).0;
    if p.session.Some? && fits { ReframedKeeps(p, q.session.value); }
  }

  lemma WriterPerformKeeps(c: PolicyConfig, w: World, p: Policy, request: WriterRequest, sequence: int,
                           frameDigest: string)
    requires PolicySound(p) && Fenced(p) && p.pending.None? && p.session.Some? && p.session.value.opened_
    ensures PolicyMoved(p, WriterPerform(c, w, p, request, sequence, frameDigest).0)
  {
    hide PolicySound, PolicyMoved, BeginOn, WriteOn, EndOn, MaintenanceOf, Fenced;
    match request
    case AskMaintenance => PolicyRefl(p);
    case AskBegin(g) => BeginKeeps(c, w, p, g);
    case AskWrite(write) => WriteKeeps(c, w, p, write, sequence, frameDigest);
    case AskEnd => EndKeeps(w, p);
  }

  lemma OpenedFrameKeeps(c: PolicyConfig, w: World, p: Policy, f: WriterFrame, fits: bool)
    requires PolicySound(p) && Fenced(p) && p.session.Some? && p.pending.None? && WriterCheck(p.session.value, f).None?
    ensures PolicyMoved(p, WriterFrameOn(c, w, p, GoodFrame(f), fits).0)
  {
    hide PolicySound, PolicyMoved, FatalWriter, WriterPerform, FrameResponse;
    var s := p.session.value;
    var open := if s.opened_ then p else p.(session := Some(s.(opened_ := true, challenge := Some(f.challenge))));
    if s.opened_ { PolicyRefl(p); } else { ReframedKeeps(p, open.session.value); }
    SoundAfter(p, open);
    if f.sequence >= MAX_SEQUENCE {
      FatalWriterKeeps(w, open, WriterResponseOutOfBounds);
      PolicyComposes(p, open, FatalWriter(w, open, WriterResponseOutOfBounds).0);
    } else if !f.payload.WriterAsk? || WriterOperationOf(f.payload.request) != f.operation {
      FatalWriterKeeps(w, open, WriterInvalidFrame(F00));
      PolicyComposes(p, open, FatalWriter(w, open, WriterInvalidFrame(F00)).0);
    } else {
      var (done, response) := WriterPerform(c, w, open, f.payload.request, f.sequence, c.frameDigest(f));
      WriterPerformKeeps(c, w, open, f.payload.request, f.sequence, c.frameDigest(f));
      PolicyComposes(p, open, done);
      SoundAfter(p, done);
      if response.Some? {
        var framed := FrameResponse(c, done, f.sequence, c.frameDigest(f), f.operation, response.value, fits).0;
        FrameResponseKeeps(c, done, f.sequence, c.frameDigest(f), f.operation, response.value, fits);
        PolicyComposes(p, done, framed);
        SoundAfter(p, framed);
        FatalWriterKeeps(w, framed, WriterResponseOutOfBounds);
        PolicyComposes(p, framed, FatalWriter(w, framed, WriterResponseOutOfBounds).0);
      }
    }
  }

  lemma WriterFrameKeeps(c: PolicyConfig, w: World, p: Policy, input: WriterInput, fits: bool)
    requires PolicySound(p) && Fenced(p) && p.session.Some?
    ensures PolicyMoved(p, WriterFrameOn(c, w, p, input, fits).0)
  {
    hide PolicySound, PolicyMoved, FatalWriter, WriterPerform, FrameResponse;
    if p.pending.Some? {
      FatalWriterKeeps(w, p, Lockstep);
    } else {
      match input
      case BadFrame(code) => FatalWriterKeeps(w, p, WriterInvalidFrame(code));
      case GoodFrame(f) =>
        var broken := WriterCheck(p.session.value, f);
        if broken.Some? { FatalWriterKeeps(w, p, broken.value); }
        else { OpenedFrameKeeps(c, w, p, f, fits); }
    }
  }

  // ---------------------------------------------------------------------------------------------- other writer events

  /** The outcome of a write; with one outstanding there is always a session to answer. */
  lemma WriteUpstreamKeeps(c: PolicyConfig, w: World, p: Policy, writeId: nat, outcome: UpstreamOutcome, fits: bool)
    requires PolicySound(p)
    ensures var o := WriteUpstreamOn(c, w, p, writeId, outcome, fits); o.PolicyHandled? ==> PolicyMoved(p, o.policy)
  {
    hide PolicySound, PolicyMoved, FatalWriter, FrameResponse, Told, ResponseInSchema, ClassifyWrite;
    var o := WriteUpstreamOn(c, w, p, writeId, outcome, fits);
    if o.PolicyHandled? {
      if p.pending.None? || p.pending.value.writeId != writeId {
        ToldKeeps(w, p, Record.WriteLateUpstream(writeId));
      } else {
        var pending := p.pending.value;
        var (decided, details) := ClassifyWrite(pending.operation, outcome);
        var (settled, classification, delivered) := SettleWrite(w, p, outcome);
        assert settled == ConcludeWrite(w, p, decided, details);
        ConcludeWriteKeeps(w, p, decided, details);
        SoundAfter(p, settled);
        var response := WriteOk(writeId, classification, pending.requestDigest, delivered);
        var framed := FrameResponse(c, settled, pending.sequence, pending.frameDigest, WriteObject, response, fits).0;
        FrameResponseKeeps(c, settled, pending.sequence, pending.frameDigest, WriteObject, response, fits);
        PolicyComposes(p, settled, framed);
        SoundAfter(p, framed);
        FatalWriterKeeps(w, framed, WriterResponseOutOfBounds);
        PolicyComposes(p, framed, FatalWriter(w, framed, WriterResponseOutOfBounds).0);
      }
    }
  }

  lemma LoseWriterKeeps(w: World, p: Policy)
    requires PolicySound(p)
    ensures PolicyMoved(p, LoseWriter(w, p).0)
  {
    hide PolicySound, PolicyMoved, AbortPending, EndSession;
    PolicyRefl(p);
    var aborted := AbortPending(w, p, WriterChannelLost);
    AbortPendingKeeps(w, p, WriterChannelLost);
    SoundAfter(p, aborted);
    EndSessionKeeps(w, aborted, SessionEnded);
    PolicyComposes(p, aborted, EndSession(w, aborted, SessionEnded));
  }

  lemma DistrustWriterKeeps(w: World, p: Policy, abort: AbortReason, reason: Invalidation, fatal: WriterFatal)
    requires PolicySound(p)
    ensures PolicyMoved(p, DistrustWriter(w, p, abort, reason, fatal).0)
  {
    hide PolicySound, PolicyMoved, AbortPending, EndSession, Urgent, Kept;
    PolicyRefl(p);
    if p.session.Some? {
      var aborted := AbortPending(w, p, abort);
      AbortPendingKeeps(w, p, abort);
      SoundAfter(p, aborted);
      SoundPolicy(aborted);
      UrgentKept(w, aborted.gate, Held, reason);
      var held := aborted.(gate := Urgent(w, aborted.gate, Held, reason));
      GateKeeps(aborted, held.gate);
      PolicyComposes(p, aborted, held);
      SoundAfter(p, held);
      EndSessionKeeps(w, held, SessionFatal);
      PolicyComposes(p, held, EndSession(w, held, SessionFatal));
    }
  }

  lemma ConnectKeeps(p: Policy)
    requires PolicySound(p)
    ensures PolicyMoved(p, ConnectWriter(p).0)
  {
    hide Sound, Onward, Traced, WritesIn;
    KeptRefl(p.gate);
  }

  lemma WriterDispatchKeeps(c: PolicyConfig, w: World, p: Policy, event: PolicyEvent)
    requires PolicySound(p) && Fenced(p) && !event.Base?
    ensures var o := WriterDispatch(c, w, p, event); o.PolicyHandled? ==> PolicyMoved(p, o.policy)
  {
    hide PolicySound, PolicyMoved, Fenced, WriterFrameOn, LoseWriter, DistrustWriter, WriteUpstreamOn, ConnectWriter;
    match event
    case WConnect => ConnectKeeps(p);
    case WFrame(input, fits) => if p.session.Some? { WriterFrameKeeps(c, w, p, input, fits); }
    case WChannelLost => LoseWriterKeeps(w, p);
    case WPeerChanged => DistrustWriterKeeps(w, p, WriterPeerDeviated, WriterPeerDeviation, WriterPeerChanged);
    case WUpstream(writeId, outcome, fits) => WriteUpstreamKeeps(c, w, p, writeId, outcome, fits);
    case WAnswerLate => DistrustWriterKeeps(w, p, WriterProtocolFailure, ByFatal(AnswerLate), WriterAnswerLate);
  }
}
