/** The way of one policy write: for every configuration and every write its policy table admits, the life in which a
    writer connects, its maintenance drains the generation and opens, and the write is forwarded. */
module OneWrite {
  import opened Vocabulary
  import opened Journal
  import opened GateModel
  import opened WriteReplay
  import opened GateRestart
  import opened PolicyModel
  import opened PolicyRuns
  import opened Lives
  import opened Windows
  import opened OneEffect

  /** The policy table admits the first write of an ACTIVE generation. */
  predicate Admitted(c: PolicyConfig, write: WriteRequest) {
    c.base.state == Active && write.writeId == 1 && c.check(write).None? && c.render(write).Some?
  }

  /** The next frame of the session. */
  function Writing(challenge: string, p: Policy, request: WriterRequest): PolicyEvent
    requires p.session.Some?
  {
    var s := p.session.value;
    WFrame(GoodFrame(WriterFrame(challenge, s.nextSequence, s.lastDigest, WriterToGate, WriterOperationOf(request),
                                 WriterAsk(request))), true)
  }

  /** A session in step with its writer, before its opening frame or after. */
  predicate InSession(challenge: string, p: Policy) {
    && p.session.Some? && p.pending.None?
    && 1 <= p.session.value.nextSequence < MAX_SEQUENCE && p.session.value.nextSequence % 2 == 1
    && (p.session.value.opened_ ==> p.session.value.challenge == Some(challenge))
  }

  function OpenedBy(challenge: string, p: Policy): Policy
    requires p.session.Some?
  {
    if p.session.value.opened_ then p
    else p.(session := Some(p.session.value.(opened_ := true, challenge := Some(challenge))))
  }

  /** What the operation does. */
  ghost function Performed(c: PolicyConfig, w: World, challenge: string, p: Policy, request: WriterRequest)
    : (Policy, Option<WriterResponse>)
    requires p.session.Some?
  {
    WriterPerform(c, w, OpenedBy(challenge, p), request, p.session.value.nextSequence,
                  c.frameDigest(Writing(challenge, p, request).input.frame))
  }

  /** A frame in step with the session is answered for by its operation. */
  lemma FrameInStep(c: PolicyConfig, w: World, challenge: string, p: Policy, request: WriterRequest)
    requires InSession(challenge, p) && (p.session.value.opened_ || request == AskMaintenance)
    ensures var (event, d) := (Writing(challenge, p, request),
                               WriterDispatch(c, w, p, Writing(challenge, p, request)));
            && d.PolicyHandled?
            && d.policy == WriterAnswered(c, w, OpenedBy(challenge, p), event.input.frame, true).0
  {
    hide WriterAnswered, FatalWriter;
  }

  lemma AnsweredBy(c: PolicyConfig, w: World, challenge: string, p: Policy, request: WriterRequest)
    requires InSession(challenge, p)
    requires Performed(c, w, challenge, p, request).1.Some? ==> Performed(c, w, challenge, p, request).0.session.Some?
    ensures var event := Writing(challenge, p, request);
            var (q, (done, response)) := (WriterAnswered(c, w, OpenedBy(challenge, p), event.input.frame, true).0,
                                          Performed(c, w, challenge, p, request));
            && q.gate == done.gate && q.maintenance == done.maintenance && q.writes == done.writes
            && q.pending == done.pending
            && (response.Some? ==>
                  && q.session.Some? && q.session.value.nextSequence == p.session.value.nextSequence + 2
                  && q.session.value.opened_ == done.session.value.opened_
                  && q.session.value.challenge == done.session.value.challenge)
  {
    hide WriterPerform, FatalWriter;
  }

  /** Where no drain waits and the maintenance agrees with the fence, an event is what its dispatch does. */
  lemma WriterOnly(c: PolicyConfig, w: World, p: Policy, event: PolicyEvent)
    requires !event.Base?
    requires var d := WriterDispatch(c, w, p, event);
             d.PolicyHandled? && !d.policy.gate.drainPending && (d.policy.maintenance == NotBegun
               || (d.policy.maintenance == MaintOpen && d.policy.gate.state == State.Closed))
    ensures Next(c, w, p, event) == WriterDispatch(c, w, p, event).policy
  {
    hide WriterDispatch;
  }

  // ---------------------------------------------------------------------------------------------- the steps

  function Step(c: PolicyConfig, challenge: string, write: WriteRequest, k: nat, p: Policy): PolicyEvent {
    if k == 0 || p.session.None? then WConnect
    else if k == 1 then Writing(challenge, p, AskMaintenance)
    else if k == 2 then Writing(challenge, p, AskBegin(c.base.generation))
    else Writing(challenge, p, AskWrite(write))
  }

  ghost function Arrived(c: PolicyConfig, w: World, challenge: string, write: WriteRequest, k: nat): Policy {
    if k == 0 then Fresh(c)
    else
      var p := Arrived(c, w, challenge, write, k - 1);
      Next(c, w, p, Step(c, challenge, write, k - 1, p))
  }

  ghost function Course(c: PolicyConfig, w: World, challenge: string, write: WriteRequest, k: nat): seq<Happening> {
    if k == 0 then []
    else
      Course(c, w, challenge, write, k - 1)
      + [Occurs(Step(c, challenge, write, k - 1, Arrived(c, w, challenge, write, k - 1)))]
  }

  lemma {:induction false} CourseLeads(c: PolicyConfig, w: World, challenge: string, write: WriteRequest, k: nat)
    ensures RunTo(c, w, Born(c), Course(c, w, challenge, write, k)) == Up(Arrived(c, w, challenge, write, k))
  {
    hide Next, Step, Fresh;
    if k > 0 {
      CourseLeads(c, w, challenge, write, k - 1);
      RunsTo(c, w, Born(c), Course(c, w, challenge, write, k - 1),
             Occurs(Step(c, challenge, write, k - 1, Arrived(c, w, challenge, write, k - 1))));
    }
  }

  /** What the generation is until the maintenance begins. */
  predicate Unbegun(p: Policy) {
    && p.gate.state == Active && p.gate.actions == map[] && !p.gate.drainPending && p.gate.stores.appends == 0
    && p.maintenance == NotBegun && p.writes == map[]
  }

  lemma FreshIs(c: PolicyConfig, write: WriteRequest)
    requires Admitted(c, write)
    ensures Unbegun(Fresh(c)) && Fresh(c).session.None? && Fresh(c).pending.None?
  {
  }

  lemma Greets(c: PolicyConfig, w: World, challenge: string, write: WriteRequest)
    requires Admitted(c, write)
    ensures var p := Arrived(c, w, challenge, write, 2);
            && Unbegun(p) && InSession(challenge, p) && p.session.value.opened_ && p.session.value.nextSequence == 3
  {
    hide Next, MaintenanceOf, Admitted;
    var p := Fresh(c);
    assert Arrived(c, w, challenge, write, 0) == p;
    assert Unbegun(p) by { FreshIs(c, write); }
    WriterOnly(c, w, p, WConnect);
    var q := Arrived(c, w, challenge, write, 1);
    assert q == p.(session := Some(CONNECTED));
    FrameInStep(c, w, challenge, q, AskMaintenance);
    AnsweredBy(c, w, challenge, q, AskMaintenance);
    WriterOnly(c, w, q, Writing(challenge, q, AskMaintenance));
    assert Arrived(c, w, challenge, write, 2) == Next(c, w, q, Writing(challenge, q, AskMaintenance));
  }

  lemma LastingTells(w: World, g: Gate, record: Record)
    requires LastsNext(w, g.stores)
    ensures Journalled(w, g, record) == Quiet(w, g, record)
  {
  }

  /** A drain of a generation without actions. */
  lemma DrainsEmpty(w: World, g: Gate)
    requires g.state == Active && g.actions == map[] && !g.drainPending
    requires w.append(g.stores.appends) == Durable && w.append(g.stores.appends + 1) == Durable
    ensures var h := DrainOn(w, g).0;
            && h.state == State.Closed && h.actions == map[] && !h.drainPending
            && h.stores.appends == g.stores.appends + 2
  {
    hide Journalled, DenyArmed;
    var none: set<nat> := WithStatus(g.actions, Armed);
    assert none == {} && WithStatus(g.actions, Status.Consumed) == {};
    var toward := g.(state := Draining, drainPending := true);
    LastingTells(w, toward, Record.DrainStarted);
    var started := Quiet(w, toward, Record.DrainStarted);
    NothingArmed(w, started);
    var ready := started.(state := State.Closed, drainPending := false);
    LastingTells(w, ready, Record.Drained(State.Closed));
  }

  lemma BeginsNow(c: PolicyConfig, w: World, p: Policy)
    requires Unbegun(p) && p.session.Some? && LastsTo(w, 4)
    ensures var q := BeginOn(c, w, p, c.base.generation).0;
            && q.gate.state == State.Closed && q.gate.actions == map[] && !q.gate.drainPending
            && q.gate.stores.appends == 4 && q.maintenance == MaintOpen && q.writes == map[] && q.pending == p.pending
            && q.session == Some(p.session.value.(owner := true))
  {
    hide Journalled, DrainOn;
    var record := Record.MaintRequested(c.base.generation);
    LastingTells(w, p.gate, record);
    var told := Quiet(w, p.gate, record);
    DrainsEmpty(w, told);
    var drained := DrainOn(w, told).0;
    assert WithStatus(drained.actions, Status.Consumed) == {};
    LastingTells(w, drained, Record.MaintOpened(drained.state));
  }

  lemma Begins(c: PolicyConfig, w: World, challenge: string, write: WriteRequest)
    requires Admitted(c, write) && LastsTo(w, 4)
    ensures var p := Arrived(c, w, challenge, write, 3);
            && p.gate.state == State.Closed && !p.gate.drainPending && p.gate.stores.appends == 4
            && p.maintenance == MaintOpen && p.writes == map[] && InSession(challenge, p) && p.session.value.opened_
  {
    hide Next, BeginOn, Admitted;
    Greets(c, w, challenge, write);
    var p := Arrived(c, w, challenge, write, 2);
    var request := AskBegin(c.base.generation);
    BeginsNow(c, w, p);
    FrameInStep(c, w, challenge, p, request);
    AnsweredBy(c, w, challenge, p, request);
    WriterOnly(c, w, p, Writing(challenge, p, request));
    assert Arrived(c, w, challenge, write, 3) == Next(c, w, p, Writing(challenge, p, request));
  }

  /** The write gets through: with its five records lasting it is the outstanding one. */
  lemma WriteGetsThrough(c: PolicyConfig, w: World, challenge: string, write: WriteRequest)
    requires Admitted(c, write) && LastsTo(w, 5)
    ensures var (hs, p) := (Course(c, w, challenge, write, 4), Arrived(c, w, challenge, write, 4));
            && RunTo(c, w, Born(c), hs) == Up(p) && p.gate.stores.appends == 5 && p.writes == map[1 := WriteSent]
            && p.pending.Some? && p.pending.value.writeId == 1 && p.pending.value.operation == write.operation
  {
    hide Next, Journalled, Fresh;
    Begins(c, w, challenge, write);
    var p := Arrived(c, w, challenge, write, 3);
    var request := AskWrite(write);
    LastingTells(w, p.gate, WriteRecord(c, write, c.render(write).value));
    FrameInStep(c, w, challenge, p, request);
    AnsweredBy(c, w, challenge, p, request);
    WriterOnly(c, w, p, Writing(challenge, p, request));
    CourseLeads(c, w, challenge, write, 4);
    assert Arrived(c, w, challenge, write, 4) == Next(c, w, p, Writing(challenge, p, request));
  }

  /** Its answer is final, and the WRITE_TERMINAL append fails and leaves its record: memory calls the write ambiguous,
      and the next process reads the delivered result. */
  lemma UnrevokedWrite(c: PolicyConfig, w: World, challenge: string, write: WriteRequest, response: UpstreamResponse)
    requires Admitted(c, write) && LastsTo(w, 5) && Unrevoked(w, 5) && ResponseInSchema(response)
    requires WriteOutcomeIsFinal(write.operation, response.httpStatus)
    ensures var answered := Course(c, w, challenge, write, 4) + [Occurs(WUpstream(1, OutcomeResponse(response), true))];
            var (before, after) := (WritesOf(RunTo(c, w, Born(c), answered)),
                                    WritesOf(RunTo(c, w, Born(c), answered + [Stops] + [Opens])));
            && 1 in before && before[1] == WriteDone(IoAmbiguous) && 1 in after
            && after[1] == WriteDone(DeliveredResult)
  {
    hide RunTo, Born, Course, Arrived, Admitted, WritesOf, ResponseInSchema;
    WriteGetsThrough(c, w, challenge, write);
    WriteKeptExactly(c, w, Course(c, w, challenge, write, 4), OutcomeResponse(response), true);
  }
}
