/** The way of one effect: for every configuration that lists a run and a manifest no earlier generation used, the life
    in which the channel opens, the execution is bound, an action armed, a connection stamped and its request
    forwarded. */
module OneEffect {
  import opened Vocabulary
  import opened Journal
  import opened GateModel
  import opened GateInvariant
  import opened GateRestart
  import opened PolicyModel
  import opened PolicyInvariant
  import opened PolicyRuns
  import opened Drift
  import opened Resting
  import opened Lives
  import opened Windows

  /** What a broker and its worker want. */
  datatype Order = Order(executionId: string, runNonce: string, verb: Verb, manifestDigest: string, challenge: string,
                         conn: string)

  /** The configuration lists it and no earlier generation used it. */
  predicate Orderable(c: Config, o: Order) {
    && c.state == Active && o.runNonce in c.runs && o.verb != Delete
    && o.manifestDigest in c.runs[o.runNonce].manifests && o.manifestDigest in c.manifests
    && o.executionId !in c.prior.executionIds && o.runNonce !in c.prior.runNonces
    && forall d | d in c.runs[o.runNonce].manifests ::
         d !in c.prior.manifestDigests && (d in c.manifests ==> c.manifests[d] !in c.prior.manifestIdentities)
  }

  /** The first `n` appends last. */
  ghost predicate LastsTo(w: World, n: nat) {
    forall k: nat | k < n :: w.append(k) == Durable
  }

  function BindOf(c: Config, o: Order): BindRequest
    requires o.runNonce in c.runs
  {
    var run := c.runs[o.runNonce];
    BindRequest(o.executionId, run.bindingDigest, "", o.runNonce, run.caseId, run.requestDigest, c.generation,
                run.serverCertificateDigest, 0, 0, c.peerQualificationDigest)
  }

  function ArmOf(c: Config, o: Order): ArmRequest {
    ArmRequest(o.executionId, 1, o.verb, o.manifestDigest, c.template(o.verb, o.manifestDigest, None), None)
  }

  /** The next frame of the channel. */
  function Asking(c: Config, o: Order, g: Gate, request: Request): Event {
    FrameEvent(Decoded(Frame(c.generation, o.challenge, g.nextSequence, g.lastDigest, BrokerToGate,
                             OperationOf(request), Ask(request))), true, true)
  }

  /** The event that takes the gate one step further. */
  function Move(c: Config, o: Order, k: nat, g: Gate): Event
    requires o.runNonce in c.runs
  {
    match k
    case 0 => Asking(c, o, g, AskStatus)
    case 1 => Asking(c, o, g, AskBind(BindOf(c, o)))
    case 2 => Asking(c, o, g, AskArm(ArmOf(c, o)))
    case 3 => Backlog(o.conn)
    case 4 => Accept(o.conn)
    case _ =>
      var rendered := c.render(o.verb, o.manifestDigest, None);
      RequestEvent(o.conn, c.runs[o.runNonce].serverCertificateDigest, rendered.head, rendered.bodyDigest)
  }

  ghost function Reached(c: PolicyConfig, w: World, o: Order, k: nat): Policy
    requires o.runNonce in c.base.runs
  {
    if k == 0 then Fresh(c)
    else
      var p := Reached(c, w, o, k - 1);
      Next(c, w, p, Base(Move(c.base, o, k - 1, p.gate)))
  }

  ghost function Way(c: PolicyConfig, w: World, o: Order, k: nat): seq<Happening>
    requires o.runNonce in c.base.runs
  {
    if k == 0 then []
    else Way(c, w, o, k - 1) + [Occurs(Base(Move(c.base, o, k - 1, Reached(c, w, o, k - 1).gate)))]
  }

  lemma {:induction false} WayLeads(c: PolicyConfig, w: World, o: Order, k: nat)
    requires o.runNonce in c.base.runs
    ensures RunTo(c, w, Born(c), Way(c, w, o, k)) == Up(Reached(c, w, o, k))
  {
    hide Next, Move, Fresh;
    if k > 0 {
      WayLeads(c, w, o, k - 1);
      RunsTo(c, w, Born(c), Way(c, w, o, k - 1), Occurs(Base(Move(c.base, o, k - 1, Reached(c, w, o, k - 1).gate))));
    }
  }

  // ---------------------------------------------------------------------------------------------- the steps

  /** What stays so all the way: ACTIVE, the channel open, the chain in step, no drain, no maintenance. */
  predicate OnWay(c: Config, o: Order, p: Policy, appends: nat) {
    && p.gate.state == Active && !p.gate.drainPending && p.gate.channel == Opened
    && p.gate.challenge == Some(o.challenge) && p.gate.nextSequence >= 1 && p.gate.nextSequence % 2 == 1
    && !p.gate.expired && p.gate.stores.appends == appends && p.maintenance == NotBegun
  }

  /** Where neither a drain nor a maintenance waits, an event is what its dispatch does. */
  lemma DispatchOnly(c: PolicyConfig, w: World, p: Policy, event: Event)
    requires event != GateRestart && p.maintenance == NotBegun
    requires var d := Dispatch(c.base, w, p.gate, event); d.Handled? && !d.gate.drainPending
    ensures Next(c, w, p, Base(event)) == p.(gate := Dispatch(c.base, w, p.gate, event).gate)
    ensures ForwardOf(c, w, p, Base(event)) == (
      var d := Dispatch(c.base, w, p.gate, event);
      if d.output.Forward? then [(if p.gate.bound.Some? then p.gate.bound.value.executionId else "", d.output.actionId)]
      else [])
  {
    hide Dispatch;
  }

  /** A frame in step with the channel, whose operation answers. */
  lemma AsksOn(c: PolicyConfig, w: World, o: Order, p: Policy, appends: nat, request: Request)
    requires OnWay(c.base, o, p, appends)
    requires var (after, response) := Perform(c.base, w, p.gate, request, true);
             response.Some? && !after.drainPending
    ensures var (event, after) := (Asking(c.base, o, p.gate, request), Perform(c.base, w, p.gate, request, true).0);
            var q := Next(c, w, p, Base(event));
            && q == p.(gate := after.(nextSequence := p.gate.nextSequence + 2, lastDigest := q.gate.lastDigest))
  {
    hide Perform, Next;
    DispatchOnly(c, w, p, Asking(c.base, o, p.gate, request));
  }

  lemma OpensUp(c: PolicyConfig, w: World, o: Order)
    requires Orderable(c.base, o)
    ensures var p := Reached(c, w, o, 1);
            OnWay(c.base, o, p, 0) && p.gate.actions == map[] && p.gate.boundIds == [] && p.gate.boundNonces == []
            && p.gate.backlog == [] && p.gate.connections == map[] && !p.gate.stores.parted
  {
    hide StatusOf, FatalClose, Next;
    var p := Fresh(c);
    assert Reached(c, w, o, 0) == p;
    var event := Asking(c.base, o, p.gate, AskStatus);
    DispatchOnly(c, w, p, event);
  }

  lemma Binds(c: PolicyConfig, w: World, o: Order)
    requires Orderable(c.base, o) && LastsTo(w, 2)
    ensures var p := Reached(c, w, o, 2);
            OnWay(c.base, o, p, 1) && p.gate.actions == map[] && p.gate.mutationKeys == {} && !p.gate.stores.parted
            && p.gate.bound == Some(Bound(o.executionId, o.runNonce)) && p.gate.backlog == []
            && p.gate.connections == map[]
  {
    hide Next, BindRecord, Asking, FailStorage;
    OpensUp(c, w, o);
    var p := Reached(c, w, o, 1);
    var request := AskBind(BindOf(c.base, o));
    assert BindCheck(c.base, p.gate, BindOf(c.base, o), true).None?;
    AsksOn(c, w, o, p, 0, request);
    assert Reached(c, w, o, 2) == Next(c, w, p, Base(Asking(c.base, o, p.gate, request)));
  }

  lemma ArmPasses(c: Config, o: Order, g: Gate)
    requires Orderable(c, o) && g.state == Active && g.bound == Some(Bound(o.executionId, o.runNonce)) && !g.expired
    requires g.actions == map[] && g.mutationKeys == {}
    ensures ArmCheck(c, g, ArmOf(c, o)).None?
  {
  }

  lemma OrderedRun(c: Config, o: Order)
    requires Orderable(c, o)
    ensures o.runNonce in c.runs
  {
  }

  lemma Arms(c: PolicyConfig, w: World, o: Order)
    requires Orderable(c.base, o) && LastsTo(w, 2)
    ensures var p := Reached(c, w, o, 3);
            OnWay(c.base, o, p, 2) && p.gate.bound == Some(Bound(o.executionId, o.runNonce)) && !p.gate.stores.parted
            && p.gate.actions == map[1 := Action(Armed, None, false, false,
                                                 Some(Target(o.verb, o.manifestDigest, None)), None, None)]
            && p.gate.backlog == [] && p.gate.connections == map[]
  {
    hide Next, Asking, ArmCheck, Journalled, ArmRecord, Orderable;
    assert o.runNonce in c.base.runs by { OrderedRun(c.base, o); }
    Binds(c, w, o);
    var p := Reached(c, w, o, 2);
    ArmPasses(c.base, o, p.gate);
    assert Flush(p.gate.connections, []) == map[];
    AsksOn(c, w, o, p, 1, AskArm(ArmOf(c.base, o)));
    assert Reached(c, w, o, 3) == Next(c, w, p, Base(Asking(c.base, o, p.gate, AskArm(ArmOf(c.base, o)))));
  }

  lemma Stamps(c: PolicyConfig, w: World, o: Order)
    requires Orderable(c.base, o) && LastsTo(w, 2)
    ensures var (p, q) := (Reached(c, w, o, 3), Reached(c, w, o, 5));
            q == p.(gate := p.gate.(connections := map[o.conn := Connection(Some(Stamp(o.executionId, 1)), true, 0,
                                                                            false)]))
  {
    hide Next;
    Arms(c, w, o);
    var p := Reached(c, w, o, 3);
    DispatchOnly(c, w, p, Backlog(o.conn));
    var queued := Reached(c, w, o, 4);
    assert queued == p.(gate := p.gate.(backlog := [o.conn])) by { assert [] + [o.conn] == [o.conn]; }
    assert WithStatus(p.gate.actions, Armed) == {1};
    assert First(p.gate.actions, Armed) == Some(1);
    assert queued.gate.backlog[..0] + queued.gate.backlog[1..] == [];
    DispatchOnly(c, w, queued, Accept(o.conn));
    assert Reached(c, w, o, 5) == Next(c, w, queued, Base(Accept(o.conn)));
  }

  /** The request is admitted on the stamped connection. */
  lemma Admits(c: Config, w: World, o: Order, p: Policy)
    requires Orderable(c, o) && OnWay(c, o, p, 2) && w.append(2) == Durable
    requires p.gate.bound == Some(Bound(o.executionId, o.runNonce)) && !p.gate.stores.parted
    requires p.gate.actions == map[1 := Action(Armed, None, false, false, Some(Target(o.verb, o.manifestDigest, None)),
                                               None, None)]
    requires p.gate.connections == map[o.conn := Connection(Some(Stamp(o.executionId, 1)), true, 0, false)]
    ensures var d := Dispatch(c, w, p.gate, Move(c, o, 5, p.gate));
            && d.Handled? && d.output == Forward(1) && !d.gate.drainPending && !d.gate.stores.parted
            && d.gate.stores.appends == 3
            && d.gate.actions == map[1 := Action(Status.Consumed, None, false, false,
                                                 Some(Target(o.verb, o.manifestDigest, None)), Some(o.conn), None)]
  {
    hide Journalled, CloseStamped;
  }

  lemma NoneForwarded(c: Config, w: World, o: Order, k: nat, g: Gate)
    requires Orderable(c, o) && k < 5
    ensures var d := Dispatch(c, w, g, Move(c, o, k, g)); d.Handled? ==> !d.output.Forward?
  {
    hide FrameOn, First, FirstIndex;
    var event := Move(c, o, k, g);
    if event.FrameEvent? { FrameWanders(c, w, g, event.input, event.observed, event.fits); }
  }

  lemma NoForward(c: PolicyConfig, w: World, p: Policy, event: Event)
    requires event != GateRestart
    requires var d := Dispatch(c.base, w, p.gate, event); d.Handled? ==> !d.output.Forward?
    ensures ForwardOf(c, w, p, Base(event)) == []
  {
    hide Dispatch, SettleDrain, SettleMaintenance;
  }

  lemma MovesOn(c: Config, o: Order, k: nat, g: Gate)
    requires o.runNonce in c.runs
    ensures Move(c, o, k, g) != GateRestart
  {
  }

  lemma {:induction false} NothingYet(c: PolicyConfig, w: World, o: Order, k: nat)
    requires Orderable(c.base, o) && k <= 5
    ensures Forwards(c, w, Born(c), Way(c, w, o, k)) == []
  {
    hide Next, Move, Fresh, Dispatch, Orderable, ForwardOf;
    if k > 0 {
      assert o.runNonce in c.base.runs by { OrderedRun(c.base, o); }
      NothingYet(c, w, o, k - 1);
      WayLeads(c, w, o, k - 1);
      var p := Reached(c, w, o, k - 1);
      var event := Move(c.base, o, k - 1, p.gate);
      NoneForwarded(c.base, w, o, k - 1, p.gate);
      assert event != GateRestart by { MovesOn(c.base, o, k - 1, p.gate); }
      NoForward(c, w, p, event);
      assert Way(c, w, o, k)[..|Way(c, w, o, k - 1)|] == Way(c, w, o, k - 1);
    }
  }

  lemma Requested(c: PolicyConfig, w: World, o: Order)
    requires Orderable(c.base, o) && LastsTo(w, 3)
    ensures var (p, q) := (Reached(c, w, o, 5), Reached(c, w, o, 6));
            && ForwardOf(c, w, p, Base(Move(c.base, o, 5, p.gate))) == [(o.executionId, 1)]
            && !q.gate.stores.parted && q.gate.stores.appends == 3
            && q.gate.actions == map[1 := Action(Status.Consumed, None, false, false,
                                                 Some(Target(o.verb, o.manifestDigest, None)), Some(o.conn), None)]
  {
    hide Next, Move, Dispatch, Orderable, Fresh, ForwardOf;
    assert o.runNonce in c.base.runs by { OrderedRun(c.base, o); }
    Arms(c, w, o);
    Stamps(c, w, o);
    var p := Reached(c, w, o, 5);
    var event := Move(c.base, o, 5, p.gate);
    Admits(c.base, w, o, p);
    assert event != GateRestart by { MovesOn(c.base, o, 5, p.gate); }
    DispatchOnly(c, w, p, event);
  }

  lemma FollowsOn(c: PolicyConfig, w: World, hs: seq<Happening>, h: Happening)
    ensures RunTo(c, w, Born(c), hs + [h]) == NextLife(c, w, RunTo(c, w, Born(c), hs), h)
    ensures Forwards(c, w, Born(c), hs + [h])
            == Forwards(c, w, Born(c), hs) + ForwardAt(c, w, RunTo(c, w, Born(c), hs), h)
  {
    hide NextLife, ForwardAt;
    assert (hs + [h])[..|hs|] == hs;
  }

  /** The effect gets through: with BIND, ARM and CONSUMED lasting it is forwarded, once, and left in flight. */
  lemma EffectGetsThrough(c: PolicyConfig, w: World, o: Order)
    requires Orderable(c.base, o) && LastsTo(w, 3)
    ensures var (hs, p) := (Way(c, w, o, 6), Reached(c, w, o, 6));
            && RunTo(c, w, Born(c), hs) == Up(p) && Forwards(c, w, Born(c), hs) == [(o.executionId, 1)]
            && !p.gate.stores.parted && p.gate.stores.appends == 3
            && ForwardedOn(p.gate.actions, o.conn, false) == {1} && p.gate.actions[1].status == Status.Consumed
            && p.gate.actions[1].armed == Some(Target(o.verb, o.manifestDigest, None))
  {
    hide Next, Move, Reached, Orderable, ForwardOf, RunTo, Forwards, Born, LastsTo;
    assert o.runNonce in c.base.runs by { OrderedRun(c.base, o); }
    Requested(c, w, o);
    WayLeads(c, w, o, 5);
    WayLeads(c, w, o, 6);
    NothingYet(c, w, o, 5);
    FollowsOn(c, w, Way(c, w, o, 5), Occurs(Base(Move(c.base, o, 5, Reached(c, w, o, 5).gate))));
  }

  // --------------------------------------------------------------------------------------- the same effect in a window

  lemma LastMove(c: Config, o: Order, g: Gate)
    requires o.runNonce in c.runs
    ensures Move(c, o, 5, g).RequestEvent?
  {
  }

  lemma ActiveIsSane(c: PolicyConfig, w: World, hs: seq<Happening>)
    requires var y := RunTo(c, w, Born(c), hs); y.Up? && y.policy.gate.state == Active
    ensures PolicySound(RunTo(c, w, Born(c), hs).policy) && Fenced(RunTo(c, w, Born(c), hs).policy)
  {
    hide RunTo, Born, Sane, PolicySound, Fenced;
    BornSane(c);
    AlwaysSane(c, w, Born(c), hs);
    SaneIs(RunTo(c, w, Born(c), hs).policy);
  }

  /** Where the request comes. */
  lemma BeforeRequest(c: PolicyConfig, w: World, o: Order)
    requires Orderable(c.base, o) && LastsTo(w, 2)
    ensures var (hs, p) := (Way(c, w, o, 5), Reached(c, w, o, 5));
            && RunTo(c, w, Born(c), hs) == Up(p) && Forwards(c, w, Born(c), hs) == [] && PolicySound(p) && Fenced(p)
            && AccountOf(p.gate.stores.entries).forwarded == [] && !p.gate.stores.parted && p.gate.stores.appends == 2
            && ForwardOf(c, LastIs(2, Durable), p, Base(Move(c.base, o, 5, p.gate))) == [(o.executionId, 1)]
  {
    hide Next, Move, Dispatch, Orderable, Fresh, ForwardOf, PolicySound, Fenced, AccountOf, Way, RunTo, Forwards, Born;
    assert o.runNonce in c.base.runs by { OrderedRun(c.base, o); }
    Arms(c, w, o);
    Stamps(c, w, o);
    WayLeads(c, w, o, 5);
    NothingYet(c, w, o, 5);
    var p := Reached(c, w, o, 5);
    var event := Move(c.base, o, 5, p.gate);
    Admits(c.base, LastIs(2, Durable), o, p);
    assert event != GateRestart by { LastMove(c.base, o, p.gate); }
    DispatchOnly(c, LastIs(2, Durable), p, event);
    ActiveIsSane(c, w, Way(c, w, o, 5));
    ForwardedAtMostOnce(c, w, Way(c, w, o, 5));
  }

  lemma StopReads(p: Policy)
    ensures var y := Down(Reread(p.gate.stores), p.gate.untraced); JournalOf(y) == FileOf(y)
  {
  }

  /** The request comes, the CONSUMED append fails and leaves its record: nothing is ever forwarded, and the file says
      that it was. */
  lemma UnrevokedEffect(c: PolicyConfig, o: Order)
    requires Orderable(c.base, o)
    ensures var w := LastIs(2, Failed(true));
            var hs := Way(c, w, o, 6) + [Stops];
            && Forwards(c, w, Born(c), hs) == []
            && AccountOf(FileOf(RunTo(c, w, Born(c), hs))).forwarded == [(o.executionId, 1)]
  {
    hide Next, Move, Orderable, Reached, ForwardOf, PolicySound, Fenced, AccountOf, Born, Reread;
    var w := LastIs(2, Failed(true));
    assert o.runNonce in c.base.runs by { OrderedRun(c.base, o); }
    BeforeRequest(c, w, o);
    var (p, first) := (Reached(c, w, o, 5), Way(c, w, o, 5));
    var event := Move(c.base, o, 5, p.gate);
    assert event.RequestEvent? by { LastMove(c.base, o, p.gate); }
    UnrevokedForward(c, p, event);
    assert [] + [(o.executionId, 1)] == [(o.executionId, 1)];
    FollowsOn(c, w, first, Occurs(Base(event)));
    FollowsOn(c, w, first + [Occurs(Base(event))], Stops);
    StopReads(NextLife(c, w, Up(p), Occurs(Base(event))).policy);
  }

  /** The storage-failure path denies the one action armed. */
  lemma OneDenied(w: World, g: Gate, a: Action)
    requires g.actions == map[1 := a] && a.status == Armed
    ensures FailStorage(w, g).actions == map[1 := a.(status := Status.Terminal, classification := Some(NotForwarded))]
  {
    hide Replay, Append, WriteMarker, CloseStamped;
    assert WithStatus(g.actions, Status.Consumed) == {} && WithStatus(g.actions, Armed) == {1};
    var held := HoldFirst(w, g);
    assert held.actions == g.actions;
    var denied := Quiet(w, Deny(held, 1), Record.Denied(1));
    assert denied.actions == map[1 := a.(status := Status.Terminal, classification := Some(NotForwarded))];
    assert WithStatus(denied.actions, Armed) == {};
    assert Least(WithStatus(held.actions, Armed)) == 1;
    NothingArmed(w, denied);
  }

  /** What a request leaves whose CONSUMED append answers torn and leaves its record. */
  lemma RequestDenied(c: Config, o: Order, p: Policy)
    requires Orderable(c, o) && OnWay(c, o, p, 2) && !p.gate.stores.parted
    requires p.gate.bound == Some(Bound(o.executionId, o.runNonce))
    requires p.gate.actions == map[1 := Action(Armed, None, false, false, Some(Target(o.verb, o.manifestDigest, None)),
                                               None, None)]
    requires p.gate.connections == map[o.conn := Connection(Some(Stamp(o.executionId, 1)), true, 0, false)]
    ensures var d := Dispatch(c, LastIs(2, Failed(true)), p.gate, Move(c, o, 5, p.gate));
            && d.Handled? && 2 < d.gate.stores.appends
            && d.gate.stores.file == p.gate.stores.entries + [Rec(Record.Consumed(1))]
            && 1 in d.gate.actions && d.gate.actions[1].status == Status.Terminal
            && d.gate.actions[1].classification == Some(NotForwarded)
  {
    hide FailStorage, CloseStamped, Still;
    var w := LastIs(2, Failed(true));
    var counted := p.gate.connections[o.conn].(requests := 1);
    var asked := p.gate.(connections := p.gate.connections[o.conn := counted]);
    UnrevokedAppend(2, asked, Record.Consumed(1));
    OneDenied(w, Quiet(w, asked, Record.Consumed(1)), p.gate.actions[1]);
  }

  lemma ReplaysArmed(p: Policy, id: nat)
    requires PolicySound(p) && id in p.gate.actions
    ensures id in Replay(p.gate.stores.entries).actions
  {
  }

  lemma ConsumedReplay(entries: seq<Entry>, id: nat)
    requires id in Replay(entries).actions
    ensures var actions := Conclude(Replay(entries + [Rec(Record.Consumed(id))]).actions);
            id in actions && actions[id].classification == Some(IoAmbiguous)
  {
    hide Replay;
    Folded(entries, Rec(Record.Consumed(id)));
  }

  /** The same request: memory calls the action not forwarded, and the next process calls it ambiguous. */
  lemma UnrevokedDenial(c: PolicyConfig, o: Order)
    requires Orderable(c.base, o)
    ensures var w := LastIs(2, Failed(true));
            var hs := Way(c, w, o, 6);
            var (before, after) := (GateOf(c, RunTo(c, w, Born(c), hs)),
                                    GateOf(c, RunTo(c, w, Born(c), hs + [Stops] + [Opens])));
            && 1 in before.actions && before.actions[1].classification == Some(NotForwarded)
            && 1 in after.actions && after.actions[1].classification == Some(IoAmbiguous)
  {
    hide Next, Move, Dispatch, Orderable, Fresh, ForwardOf, PolicySound, Fenced, AccountOf, Way, RunTo, Forwards, Born,
         Replay, Conclude, Rested, Derive, IdleStores, PolicyRestart, Reopen;
    var w := LastIs(2, Failed(true));
    assert o.runNonce in c.base.runs by { OrderedRun(c.base, o); }
    BeforeRequest(c, w, o);
    Arms(c, w, o);
    Stamps(c, w, o);
    var (p, hs) := (Reached(c, w, o, 5), Way(c, w, o, 6));
    var event := Move(c.base, o, 5, p.gate);
    RequestDenied(c.base, o, p);
    assert event != GateRestart by { MovesOn(c.base, o, 5, p.gate); }
    RestStill(c, w, p, event);
    var q := Reached(c, w, o, 6);
    WayLeads(c, w, o, 6);
    RunsTo(c, w, Born(c), hs, Stops);
    RunsTo(c, w, Born(c), hs + [Stops], Opens);
    OpensRested(c, w, Reread(q.gate.stores), q.gate.untraced);
    ReplaysArmed(p, 1);
    ConsumedReplay(p.gate.stores.entries, 1);
  }

  /** The effect gets through, its answer is final, and the TERMINAL append fails and leaves its record: memory calls
      the outcome ambiguous, and the next process reads the delivered result. */
  lemma UnrevokedOutcome(c: PolicyConfig, w: World, o: Order, response: UpstreamResponse)
    requires Orderable(c.base, o) && LastsTo(w, 3) && Unrevoked(w, 3) && OutcomeIsFinal(o.verb, response.httpStatus)
    ensures var answered := Way(c, w, o, 6) + [Occurs(Base(Responded(o.conn, response)))];
            var (before, after) := (GateOf(c, RunTo(c, w, Born(c), answered)),
                                    GateOf(c, RunTo(c, w, Born(c), answered + [Stops] + [Opens])));
            && 1 in before.actions && before.actions[1].classification == Some(IoAmbiguous)
            && 1 in after.actions && after.actions[1].classification == Some(DeliveredResult)
  {
    hide RunTo, Born, Forwards, Way, Reached, Orderable, GateOf;
    assert o.runNonce in c.base.runs by { OrderedRun(c.base, o); }
    EffectGetsThrough(c, w, o);
    OutcomeKeptExactly(c, w, Way(c, w, o, 6), o.conn, response, 1);
  }
}
