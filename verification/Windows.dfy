/** Lives that show where the code lets go of what it held: the residual window its documentation admits, the same
    window opened by a file that parted from its mirror, a CONSUMED record nothing was forwarded for, and exactly when
    an outcome not yet sealed is one in memory and another in the file. */
module Windows {
  import opened Vocabulary
  import opened Journal
  import opened GateModel
  import opened WriteReplay
  import opened Lawful
  import opened GateInvariant
  import opened GateRestart
  import opened PolicyModel
  import opened PolicyInvariant
  import opened PolicyRuns
  import opened Recovery
  import opened Resting
  import opened Lives
  import opened Agreement
  import opened LifeLaws

  // ---------------------------------------------------------------------------------------------- the residual window

  /** The third append fails, torn or not, and leaves nothing; the fourth fails and leaves nothing; no marker can be
      written. */
  function Failing(torn: bool): World {
    World((n: nat) => if n == 2 then Failed(torn) else if n == 3 then Failed(false) else Durable,
          (n: nat) => NothingLeft, (n: nat) => false)
  }

  const DRAIN := Occurs(Base(DrainRequest))
  const LOSE := Occurs(Base(ChannelLost))
  const RESTART := Occurs(Base(GateRestart))

  const DRAINED_JOURNAL := [Rec(Record.DrainStarted), Rec(Record.Drained(State.Closed))]

  lemma DrainedJournal()
    ensures Replay(DRAINED_JOURNAL) == Replayed(map[], State.Closed, false, false)
    ensures ReplayWrites(DRAINED_JOURNAL) == NO_WRITES && JournalOk(DRAINED_JOURNAL)
  {
    var first := [Rec(Record.DrainStarted)];
    Folded([], Rec(Record.DrainStarted));
    Folded(first, Rec(Record.Drained(State.Closed)));
    assert [] + first == first && first + [Rec(Record.Drained(State.Closed))] == DRAINED_JOURNAL;
    assert IsLawful(first) by { assert first[..0] == []; }
    assert DRAINED_JOURNAL[..1] == first;
  }

  /** The state of a generation without actions. */
  predicate Barren(p: Policy, state: State, entries: seq<Entry>, file: seq<Entry>, appends: nat) {
    && p.gate.state == state && p.gate.actions == map[] && !p.gate.drainPending && !p.gate.stores.marker
    && p.gate.stores.entries == entries && p.gate.stores.file == file && p.gate.stores.appends == appends
    && p.maintenance == NotBegun
  }

  lemma IdleDrains(c: PolicyConfig, torn: bool)
    requires c.base.state == Active
    ensures var p := Next(c, Failing(torn), Fresh(c), Base(DrainRequest));
            Barren(p, State.Closed, DRAINED_JOURNAL, DRAINED_JOURNAL, 2) && p.gate.channel == Unopened
              && !p.gate.untraced
            && !p.gate.stores.parted
  {
    var g := Fresh(c).gate;
    var none: set<nat> := WithStatus(g.actions, Armed);
    assert none == {} && WithStatus(g.actions, Status.Consumed) == {};
  }

  lemma LosesChannel(g: Gate, torn: bool)
    requires g.stores.entries == DRAINED_JOURNAL && g.stores.file == DRAINED_JOURNAL && g.stores.appends == 2
             && !g.stores.marker
    requires g.actions == map[] && !g.untraced && !g.stores.parted
    ensures var h := Journalled(Failing(torn), g, Record.ChannelEnded(BeforeFirstFrame));
            && h.state == Held && h.actions == map[] && !h.stores.marker && h.drainPending == g.drainPending
            && h.stores.entries == DRAINED_JOURNAL + (if torn then [Torn] else []) && h.stores.file == DRAINED_JOURNAL
            && h.stores.appends == 4 && h.stores.parted == torn && h.untraced == !torn
  {
    hide Replay;
    DrainedJournal();
    Folded(DRAINED_JOURNAL, Torn);
    assert DRAINED_JOURNAL + [] == DRAINED_JOURNAL && DRAINED_JOURNAL + [Torn] + [] == DRAINED_JOURNAL + [Torn];
    var none: Actions := map[];
    assert WithStatus(none, Armed) == {} && WithStatus(none, Status.Consumed) == {};
  }

  lemma IdleLoses(c: PolicyConfig, p: Policy, torn: bool)
    requires Barren(p, State.Closed, DRAINED_JOURNAL, DRAINED_JOURNAL, 2) && p.gate.channel == Unopened
             && !p.gate.untraced
    requires !p.gate.stores.parted
    ensures var q := Next(c, Failing(torn), p, Base(ChannelLost));
            && Barren(q, Held, DRAINED_JOURNAL + (if torn then [Torn] else []), DRAINED_JOURNAL, 4)
            && q.gate.untraced == !torn && q.gate.stores.parted == torn
  {
    hide Replay, Journalled, Failing;
    LosesChannel(p.gate.(channel := Shut), torn);
    var lost := Journalled(Failing(torn), p.gate.(channel := Shut), Record.ChannelEnded(BeforeFirstFrame));
    assert Handle(c.base, Failing(torn), p.gate, ChannelLost).gate == lost;
  }

  lemma RestartsClosed(w: World, k: Policy)
    requires k.gate.stores.entries == DRAINED_JOURNAL && !k.gate.stores.marker && LastsNext(w, k.gate.stores)
    ensures PolicyRestart(w, k).gate.state == State.Closed && PolicyRestart(w, k).maintenance == MaintEnded
  {
    hide FailStorage, Replay, ReplayWrites, Restartable;
    DrainedJournal();
    PolicyRestartIs(w, k);
    assert RebuildWrites(DRAINED_JOURNAL).0 == map[];
    LastingRestart(w, k.gate, false);
  }

  /** A process that opens on the drained journal, with no marker and its RESTARTED record lasting, comes up CLOSED. */
  lemma OpensClosed(c: PolicyConfig, w: World, s: Stores, untraced: bool)
    requires s.entries == DRAINED_JOURNAL && !s.marker && LastsNext(w, s) && !s.parted
    ensures Reopen(c, w, s, untraced).gate.state == State.Closed
  {
    hide Replay, ReplayWrites, JournalOk, Reopen, Firm, Recovered, Carried, PolicyTraced, PolicyRestart, OnStores;
    DrainedJournal();
    OpeningIs(c, w, s, untraced);
    RestartsClosed(w, Around(OnStores(c.base, s, untraced)));
  }

  lemma RunsTo(c: PolicyConfig, w: World, y: System, hs: seq<Happening>, h: Happening)
    ensures RunTo(c, w, y, hs + [h]) == NextLife(c, w, RunTo(c, w, y, hs), h)
  {
    assert (hs + [h])[..|hs|] == hs;
  }

  lemma DrainsAndLoses(c: PolicyConfig, torn: bool)
    requires c.base.state == Active
    ensures var y := RunTo(c, Failing(torn), Born(c), [DRAIN, LOSE]);
            && y.Up? && Barren(y.policy, Held, DRAINED_JOURNAL + (if torn then [Torn] else []), DRAINED_JOURNAL, 4)
            && y.policy.gate.untraced == !torn && y.policy.gate.stores.parted == torn
  {
    hide Next, Fresh, Barren;
    IdleDrains(c, torn);
    IdleLoses(c, Next(c, Failing(torn), Fresh(c), Base(DrainRequest)), torn);
    RunsTo(c, Failing(torn), Born(c), [], DRAIN);
    RunsTo(c, Failing(torn), Born(c), [DRAIN], LOSE);
    assert [] + [DRAIN] == [DRAIN] && [DRAIN] + [LOSE] == [DRAIN, LOSE];
  }

  lemma RestartStays(c: PolicyConfig, w: World, p: Policy)
    requires PolicyRestart(w, p).gate.state == State.Closed && PolicyRestart(w, p).maintenance == MaintEnded
    ensures GateOf(c, NextLife(c, w, Up(p), RESTART)).state == State.Closed
  {
    hide PolicyRestart;
  }

  lemma StopsAndOpens(c: PolicyConfig, w: World, p: Policy)
    requires p.gate.stores.file == DRAINED_JOURNAL && !p.gate.stores.marker && LastsNext(w, p.gate.stores)
    ensures GateOf(c, NextLife(c, w, NextLife(c, w, Up(p), Stops), Opens)).state == State.Closed
  {
    hide Reopen, Next;
    OpensClosed(c, w, Reread(p.gate.stores), p.gate.untraced);
  }

  /** The residual window is real: with the marker and the INVALIDATED record both failing cleanly, a generation that
      was HELD comes up CLOSED, after a restart in the same process and in a new one. */
  lemma ResidualWindow(c: PolicyConfig)
    requires c.base.state == Active
    ensures HeldNow(RunTo(c, Failing(false), Born(c), [DRAIN, LOSE]))
            && UntracedIn(RunTo(c, Failing(false), Born(c), [DRAIN, LOSE]))
    ensures GateOf(c, RunTo(c, Failing(false), Born(c), [DRAIN, LOSE] + [RESTART])).state == State.Closed
    ensures GateOf(c, RunTo(c, Failing(false), Born(c), [DRAIN, LOSE] + [Stops] + [Opens])).state == State.Closed
  {
    hide Next, Born, Replay, Firm, Reopen, Recovered, NextLife, PolicyRestart, SettleMaintenance;
    var w := Failing(false);
    DrainsAndLoses(c, false);
    var y := RunTo(c, w, Born(c), [DRAIN, LOSE]);
    RunsTo(c, w, Born(c), [DRAIN, LOSE], RESTART);
    RunsTo(c, w, Born(c), [DRAIN, LOSE], Stops);
    RunsTo(c, w, Born(c), [DRAIN, LOSE] + [Stops], Opens);
    assert DRAINED_JOURNAL + [] == DRAINED_JOURNAL;
    RestartsClosed(w, y.policy);
    RestartStays(c, w, y.policy);
    StopsAndOpens(c, w, y.policy);
  }

  /** The same hold with a torn append in place of the clean one: memory has the torn entry as its evidence and a
      restart in the process stays HELD, but nothing of it reached the file, so a new process comes up CLOSED. */
  lemma UnmeasuredWindow(c: PolicyConfig)
    requires c.base.state == Active
    ensures HeldNow(RunTo(c, Failing(true), Born(c), [DRAIN, LOSE]))
            && !UntracedIn(RunTo(c, Failing(true), Born(c), [DRAIN, LOSE]))
    ensures !UntracedIn(RunTo(c, Failing(true), Born(c), [DRAIN, LOSE] + [Stops]))
    ensures GateOf(c, RunTo(c, Failing(true), Born(c), [DRAIN, LOSE] + [Stops] + [Opens])).state == State.Closed
  {
    hide Next, Born, Replay, Firm, Reopen, Recovered;
    var w := Failing(true);
    DrainsAndLoses(c, true);
    var y := RunTo(c, w, Born(c), [DRAIN, LOSE]);
    RunsTo(c, w, Born(c), [DRAIN, LOSE], Stops);
    RunsTo(c, w, Born(c), [DRAIN, LOSE] + [Stops], Opens);
    StopsAndOpens(c, w, y.policy);
  }

  // -------------------------------------------------------------------------------- a record committed and not revoked

  /** Every append lasts up to the `n`-th, which answers `answer` and leaves its record; from then on nothing lasts or
      is left. */
  function LastIs(n: nat, answer: Appended): World {
    World((k: nat) => if k < n then Durable else if k == n then answer else Failed(false), (k: nat) => RecordLeft,
          (k: nat) => false)
  }

  ghost predicate Dead(w: World, n: nat) {
    forall k: nat | n <= k :: w.append(k) == Failed(false)
  }

  /** Nothing was recorded and nothing terminal changed. */
  predicate Still(g: Gate, h: Gate) {
    && h.stores.entries == g.stores.entries && h.stores.file == g.stores.file && g.stores.appends <= h.stores.appends
    && forall id | id in g.actions && g.actions[id].status == Status.Terminal ::
      id in h.actions && h.actions[id] == g.actions[id]
  }

  lemma QuietStill(w: World, g: Gate, record: Record)
    requires Dead(w, g.stores.appends)
    ensures Still(g, Quiet(w, g, record))
  {
    assert g.stores.entries + [] == g.stores.entries && g.stores.file + [] == g.stores.file;
  }

  lemma {:induction false} DenyStill(w: World, g: Gate)
    requires Dead(w, g.stores.appends)
    ensures Still(g, DenyQuietly(w, g))
    decreases WithStatus(g.actions, Armed)
  {
    var armed := WithStatus(g.actions, Armed);
    if armed != {} {
      var id := Least(armed);
      var denied := Quiet(w, Deny(g, id), Record.Denied(id));
      QuietStill(w, Deny(g, id), Record.Denied(id));
      assert WithStatus(denied.actions, Armed) == armed - {id};
      DenyStill(w, denied);
    }
  }

  lemma FailStill(w: World, g: Gate)
    requires Dead(w, g.stores.appends)
    ensures Still(g, FailStorage(w, g))
  {
    hide DenyQuietly, Replay;
    var held := g.(state := Held, actions := MarkInFlight(g.actions), stores := WriteMarker(w, g.stores));
    QuietStill(w, held, Record.Invalidated(ByClose(CloseReason.StorageFailure), Held));
    DenyStill(w, HoldFirst(w, g));
  }

  lemma JournalledStill(w: World, g: Gate, record: Record)
    requires Dead(w, g.stores.appends)
    ensures Still(g, Journalled(w, g, record))
  {
    hide FailStorage;
    QuietStill(w, g, record);
    FailStill(w, Quiet(w, g, record));
  }

  lemma DrainStill(w: World, g: Gate)
    requires Dead(w, g.stores.appends)
    ensures Still(g, SettleDrain(w, g).0)
  {
    hide Journalled, AnyAmbiguous, InFlight, Fence;
    var ready := g.(state := if AnyAmbiguous(g.actions) then Held else State.Closed);
    JournalledStill(w, g.(drainPending := false), Record.Drained(g.state));
    JournalledStill(w, ready.(drainPending := false), Record.Drained(ready.state));
  }

  lemma MaintenanceStill(w: World, p: Policy)
    requires Dead(w, p.gate.stores.appends)
    ensures Still(p.gate, SettleMaintenance(w, p).gate)
  {
    hide Journalled, Fence;
    JournalledStill(w, p.gate, Record.MaintOpened(p.gate.state));
    var open := OpenIfReady(w, p);
    assert Still(p.gate, open.gate);
    JournalledStill(w, open.gate, Record.MaintWasHeld(open.gate.state));
  }

  /** The rest of an event once storage is dead. */
  lemma RestStill(c: PolicyConfig, w: World, p: Policy, event: Event)
    requires event != GateRestart && Dispatch(c.base, w, p.gate, event).Handled?
    requires Dead(w, Dispatch(c.base, w, p.gate, event).gate.stores.appends)
    ensures Still(Dispatch(c.base, w, p.gate, event).gate, Next(c, w, p, Base(event)).gate)
    ensures ForwardOf(c, w, p, Base(event)) != [] <==> Dispatch(c.base, w, p.gate, event).output.Forward?
  {
    hide Dispatch, SettleDrain, SettleMaintenance;
    var g := Dispatch(c.base, w, p.gate, event).gate;
    DrainStill(w, g);
    MaintenanceStill(w, p.(gate := SettleDrain(w, g).0));
  }

  /** An append that answers torn and leaves its record, on the path that fails storage. */
  lemma UnrevokedAppend(n: nat, g: Gate, record: Record)
    requires g.stores.appends == n && !g.stores.parted
    ensures var h := Journalled(LastIs(n, Failed(true)), g, record);
            && h.stores.file == g.stores.entries + [Rec(record)] && n < h.stores.appends
            && Still(Quiet(LastIs(n, Failed(true)), g, record), h)
  {
    hide FailStorage;
    FailStill(LastIs(n, Failed(true)), Quiet(LastIs(n, Failed(true)), g, record));
  }

  /** What the two answers to the CONSUMED append leave behind. */
  lemma RequestRecords(c: Config, g: Gate, request: Event)
    requires request.RequestEvent? && !g.stores.parted
    requires var o := Dispatch(c, LastIs(g.stores.appends, Durable), g, request); o.Handled? && o.output.Forward?
    ensures var n := g.stores.appends;
            var (lasted, failed) := (Dispatch(c, LastIs(n, Durable), g, request),
                                     Dispatch(c, LastIs(n, Failed(true)), g, request));
            && failed.Handled? && !failed.output.Forward? && n < lasted.gate.stores.appends
            && n < failed.gate.stores.appends
            && failed.gate.stores.file == lasted.gate.stores.entries
  {
    hide Journalled, Admit, Still;
    var n := g.stores.appends;
    var counted := g.connections[request.conn].(requests := g.connections[request.conn].requests + 1);
    var asked := g.(connections := g.connections[request.conn := counted]);
    var admission := Admit(c, asked, counted, request.certificate, request.head, request.bodyDigest);
    UnrevokedAppend(n, asked, Record.Consumed(admission.actionId));
  }

  lemma ForwardsWhen(c: PolicyConfig, w: World, p: Policy, event: Event)
    requires ForwardOf(c, w, p, Base(event)) != [] && event != GateRestart
    ensures Dispatch(c.base, w, p.gate, event).Handled? && Dispatch(c.base, w, p.gate, event).output.Forward?
  {
    hide Dispatch, SettleDrain, SettleMaintenance;
  }

  /** The effect a request would be forwarded for, recorded and not revoked: nothing is forwarded, and the file says it
      was. */
  lemma UnrevokedForward(c: PolicyConfig, p: Policy, request: Event)
    requires PolicySound(p) && Fenced(p) && !p.gate.stores.parted && request.RequestEvent?
    requires ForwardOf(c, LastIs(p.gate.stores.appends, Durable), p, Base(request)) != []
    ensures var n := p.gate.stores.appends;
            var effect := ForwardOf(c, LastIs(n, Durable), p, Base(request));
            var w := LastIs(n, Failed(true));
            var failed := NextLife(c, w, Up(p), Occurs(Base(request)));
            && ForwardAt(c, w, Up(p), Occurs(Base(request))) == []
            && ForwardedBy(NextLife(c, w, failed, Stops)) == ForwardedBy(Up(p)) + effect
  {
    hide PolicySound, Fenced, PolicyTraced, Next, ForwardOf, Carried, AccountOf, Dispatch, Stopped;
    var n := p.gate.stores.appends;
    var (v, w) := (LastIs(n, Durable), LastIs(n, Failed(true)));
    ForwardsWhen(c, v, p, request);
    RequestRecords(c.base, p.gate, request);
    RestStill(c, v, p, request);
    RestStill(c, w, p, request);
    NextIsCarried(c, v, p, Base(request));
  }

  /** Every effect an event forwards: a process that dies on its way out of that event leaves it in the journal and
      forwards nothing. */
  lemma CutForward(c: PolicyConfig, w: World, p: Policy, event: PolicyEvent, marked: bool)
    requires PolicySound(p) && Fenced(p) && !Next(c, w, p, event).gate.stores.parted
    requires !p.gate.stores.parted
    ensures var kept := |Next(c, w, p, event).gate.stores.file|;
            && ForwardAt(c, w, Up(p), Dies(event, kept, marked)) == []
            && ForwardedBy(NextLife(c, w, Up(p), Dies(event, kept, marked)))
              == ForwardedBy(Up(p)) + ForwardOf(c, w, p, event)
  {
    hide PolicySound, Fenced, PolicyTraced, Next, ForwardOf, Carried, AccountOf, Stopped;
    NextIsCarried(c, w, p, event);
    var file := Next(c, w, p, event).gate.stores.file;
    assert file[..|file|] == file;
  }

  // ------------------------------------------------------------------------------------------- an outcome the file has

  /** The append answered torn and left its record: committed, and not revoked. */
  predicate Unrevoked(w: World, n: nat) {
    w.append(n) == Failed(true) && w.left(n) == RecordLeft
  }

  function Answered(action: Action, response: UpstreamResponse, id: nat): Record {
    var (classification, details) := Classify(action.armed, Some(response));
    Record.Terminal(id, classification, action.after, details)
  }

  lemma QuietFile(w: World, g: Gate, record: Record)
    ensures Quiet(w, g, record).stores.file == g.stores.file + Left(w, g.stores.appends, record)
  {
  }

  lemma ToldIdles(w: World, g: Gate, record: Record)
    requires Unarmed(g)
    ensures var h := Journalled(w, g, record);
            Unarmed(h) && IdleBeyond(g.stores.file + Left(w, g.stores.appends, record), h.stores.file, false)
  {
    hide Append, FailStorage, IdleBeyond;
    var told := Quiet(w, g, record);
    assert told.stores.file == g.stores.file + Left(w, g.stores.appends, record) by { QuietFile(w, g, record); }
    SameIdle(told.stores.file, false);
    if !LastsNext(w, g.stores) {
      FailStorageIdles(w, told);
      AnyIdle(told.stores.file, FailStorage(w, told).stores.file, told.state == Held);
    }
  }

  lemma ConclusionUnarmed(g: Gate, id: nat, classification: Classification, delivered: Option<TerminalDetails>)
    requires Unarmed(g) && id in g.actions
    ensures Unarmed(Conclusion(g, id, classification, delivered))
  {
    var h := Conclusion(g, id, classification, delivered);
    forall other | other in h.actions
      ensures h.actions[other].status != Armed
    {
      assert other !in WithStatus(g.actions, Armed);
    }
  }

  /** What an answer to the action in flight makes of memory and file. */
  lemma ResponseLeaves(c: Config, w: World, g: Gate, conn: string, response: UpstreamResponse, id: nat)
    requires Unarmed(g) && ForwardedOn(g.actions, conn, false) == {id} && g.actions[id].status == Status.Consumed
    ensures var o := Dispatch(c, w, g, Responded(conn, response));
            var record := Answered(g.actions[id], response, id);
            && o.Handled? && Unarmed(o.gate) && id in o.gate.actions && o.gate.actions[id].status == Status.Terminal
            && o.gate.actions[id].classification
               == Some(if LastsNext(w, g.stores) then record.classification else IoAmbiguous)
            && IdleBeyond(g.stores.file + Left(w, g.stores.appends, record), o.gate.stores.file, false)
  {
    hide Journalled, Classify, IdleBeyond, Left, CloseOne;
    assert Least({id}) == id;
    var record := Answered(g.actions[id], response, id);
    ToldIdles(w, g, record);
    var told := Journalled(w, g, record);
    forall classification, delivered
      ensures Unarmed(Conclusion(told, id, classification, delivered))
    {
      ConclusionUnarmed(told, id, classification, delivered);
    }
  }

  /** The rest of an event once nothing is armed. */
  lemma RestIdles(c: PolicyConfig, w: World, p: Policy, event: Event)
    requires event != GateRestart
    requires Dispatch(c.base, w, p.gate, event).Handled? && Unarmed(Dispatch(c.base, w, p.gate, event).gate)
    ensures Idles(Dispatch(c.base, w, p.gate, event).gate, Next(c, w, p, Base(event)).gate)
  {
    hide Dispatch, SettleDrain, SettleMaintenance, Idles;
    var g := Dispatch(c.base, w, p.gate, event).gate;
    SettleDrainIdles(w, g);
    var settled := SettleDrain(w, g).0;
    IdlesUnarmed(g, settled);
    SettleMaintenanceIdles(w, p.(gate := settled));
    IdlesOn(g, settled, SettleMaintenance(w, p.(gate := settled)).gate);
  }

  lemma InFlightAlone(g: Gate, id: nat)
    requires Sound(g) && id in g.actions && g.actions[id].status == Status.Consumed
    ensures Unarmed(g)
    ensures var r := Replay(g.stores.entries); id in r.actions && r.actions[id].status == Status.Consumed
  {
    assert Linked(g.actions[id], Replay(g.stores.entries).actions[id]);
    forall other | other in g.actions
      ensures g.actions[other].status != Armed
    {
      assert other < |g.actions| ==> Settled(g.actions[other]);
    }
  }

  /** What a file with an answer to the action in flight, or without, says of it. */
  lemma AnsweredReplay(w: World, file: seq<Entry>, n: nat, record: Record, id: nat)
    requires record.Terminal? && record.actionId == id && id in Replay(file).actions
    requires Replay(file).actions[id].status == Status.Consumed
    ensures var actions := Conclude(Replay(file + Left(w, n, record)).actions);
            && id in actions
            && actions[id].classification
               == Some(if w.append(n) == Durable || Unrevoked(w, n) then record.classification else IoAmbiguous)
  {
    hide Replay;
    Folded(file, Rec(record));
    Folded(file, Torn);
    assert file + [] == file;
  }

  lemma FlightIsSound(c: PolicyConfig, w: World, hs: seq<Happening>, id: nat)
    requires var y := RunTo(c, w, Born(c), hs);
             y.Up? && id in y.policy.gate.actions && y.policy.gate.actions[id].status == Status.Consumed
    ensures PolicySound(RunTo(c, w, Born(c), hs).policy) && Fenced(RunTo(c, w, Born(c), hs).policy)
  {
    hide PolicySound, Fenced, Readable, Alike, Born, RunTo;
    BornSane(c);
    AlwaysSane(c, w, Born(c), hs);
  }

  /** The process after the answer, in memory and in its file. */
  lemma AnswerLeaves(c: PolicyConfig, w: World, p: Policy, conn: string, response: UpstreamResponse, id: nat)
    requires PolicySound(p) && !p.gate.stores.parted
    requires ForwardedOn(p.gate.actions, conn, false) == {id} && p.gate.actions[id].status == Status.Consumed
    ensures var (q, n) := (Next(c, w, p, Base(Responded(conn, response))), p.gate.stores.appends);
            var record := Answered(p.gate.actions[id], response, id);
            && id in q.gate.actions && q.gate.actions[id].status == Status.Terminal
            && q.gate.actions[id].classification
               == Some(if w.append(n) == Durable then record.classification else IoAmbiguous)
            && Conclude(Replay(q.gate.stores.file).actions)
               == Conclude(Replay(p.gate.stores.entries + Left(w, n, record)).actions)
  {
    hide PolicySound, Next, Dispatch, Replay, Answered, IdleBeyond, Conclude, Left, Unarmed, Alike;
    var (g, n, event) := (p.gate, p.gate.stores.appends, Responded(conn, response));
    var record := Answered(g.actions[id], response, id);
    SoundPolicy(p);
    InFlightAlone(g, id);
    ResponseLeaves(c.base, w, g, conn, response, id);
    RestIdles(c, w, p, event);
    var (d, q) := (Dispatch(c.base, w, g, event).gate, Next(c, w, p, Base(event)).gate);
    IdleComposes(g.stores.file + Left(w, n, record), d.stores.file, q.stores.file, false, d.state == Held);
    IdleAlike(g.stores.file + Left(w, n, record), q.stores.file, false);
    AlikeIs(g.stores.file + Left(w, n, record), q.stores.file);
  }

  /** An answer, over any life: the process that read it and the next one call its outcome by the same name if and only
      if the TERMINAL append was not one that failed and left its record, of an outcome that is not ambiguous. Memory
      then calls it ambiguous, and the next process reads the recorded one. */
  lemma OutcomeKeptExactly(c: PolicyConfig, w: World, hs: seq<Happening>, conn: string, response: UpstreamResponse,
                           id: nat)
    requires var y := RunTo(c, w, Born(c), hs);
             && y.Up? && !y.policy.gate.stores.parted && ForwardedOn(y.policy.gate.actions, conn, false) == {id}
             && y.policy.gate.actions[id].status == Status.Consumed
    ensures var g := RunTo(c, w, Born(c), hs).policy.gate;
            var (n, decided) := (g.stores.appends, Classify(g.actions[id].armed, Some(response)).0);
            var answered := hs + [Occurs(Base(Responded(conn, response)))];
            var (before, after) := (GateOf(c, RunTo(c, w, Born(c), answered)),
                                    GateOf(c, RunTo(c, w, Born(c), answered + [Stops] + [Opens])));
            && id in before.actions && before.actions[id].status == Status.Terminal && id in after.actions
            && (after.actions[id].classification == before.actions[id].classification
                <==> !(Unrevoked(w, n) && decided != IoAmbiguous))
            && (Unrevoked(w, n) ==> before.actions[id].classification == Some(IoAmbiguous)
                                    && after.actions[id].classification == Some(decided))
  {
    hide PolicySound, Fenced, Next, Replay, Reopen, Classify, Born, RunTo, Conclude, Left, Rested, Derive,
         RebuildWrites, IdleStores, PolicyRestart, Alike;
    var p := RunTo(c, w, Born(c), hs).policy;
    var (n, event) := (p.gate.stores.appends, Base(Responded(conn, response)));
    var answered := hs + [Occurs(event)];
    FlightIsSound(c, w, hs, id);
    AnswerLeaves(c, w, p, conn, response, id);
    SoundPolicy(p);
    InFlightAlone(p.gate, id);
    AnsweredReplay(w, p.gate.stores.entries, n, Answered(p.gate.actions[id], response, id), id);
    RunsTo(c, w, Born(c), hs, Occurs(event));
    RunsTo(c, w, Born(c), answered, Stops);
    RunsTo(c, w, Born(c), answered + [Stops], Opens);
    var q := Next(c, w, p, event);
    OpensRested(c, w, Reread(q.gate.stores), q.gate.untraced);
  }

  // ------------------------------------------------------------------------------------------ a write the file decides

  lemma ToldsIdle(w: World, p: Policy, record: Record)
    requires Unarmed(p.gate) && IsIdle(record) && RecordedState(record, Held) == Held
    ensures Idles(p.gate, Told(w, p, record).gate)
  {
    hide Idles, Journalled, IsIdle, RecordedState;
    JournalledIdles(w, p.gate, record);
  }

  lemma EndSessionIdles(w: World, p: Policy, how: SessionEnd)
    requires Unarmed(p.gate)
    ensures Idles(p.gate, EndSession(w, p, how).gate) && EndSession(w, p, how).writes == p.writes
  {
    hide Idles, Journalled, AmbiguousIds;
    var over := Told(w, p.(session := None), Record.WriterSessionEnded(how));
    ToldsIdle(w, p.(session := None), Record.WriterSessionEnded(how));
    IdlesUnarmed(p.gate, over.gate);
    var ended := over.(maintenance := MaintEnded, reason := Some(EndedFor(BySession(how))));
    var record := Record.MaintWasEnded(BySession(how), WriteCount(over.writes), AmbiguousIds(over.writes));
    ToldsIdle(w, ended, record);
    IdlesOn(p.gate, over.gate, Told(w, ended, record).gate);
  }

  function Decision(p: Policy, outcome: UpstreamOutcome): Record
    requires p.pending.Some?
  {
    var (decided, details) := ClassifyWrite(p.pending.value.operation, outcome);
    Record.WriteTerminal(p.pending.value.writeId, decided, details)
  }

  lemma SettlesWrite(w: World, p: Policy, outcome: UpstreamOutcome)
    requires Unarmed(p.gate) && p.pending.Some?
    ensures var (record, q) := (Decision(p, outcome), SettleWrite(w, p, outcome).0);
            && Unarmed(q.gate) && q.pending.None? && q.session == p.session
            && q.writes == p.writes[record.writeId
                                    := WriteDone(if Lasts(w, p) then record.classification else IoAmbiguous)]
            && IdleBeyond(p.gate.stores.file + Left(w, p.gate.stores.appends, record), q.gate.stores.file, false)
  {
    hide Journalled, ClassifyWrite, IdleBeyond, Left;
    ToldIdles(w, p.gate, Decision(p, outcome));
  }

  lemma StaysIdle(x: seq<Entry>, g: Gate, h: Gate)
    requires IdleBeyond(x, g.stores.file, false) && Idles(g, h)
    ensures IdleBeyond(x, h.stores.file, false) && Unarmed(h)
  {
    hide IsIdle, RecordedState;
    IdleComposes(x, g.stores.file, h.stores.file, false, g.state == Held);
  }

  /** What the answer to the outstanding write makes of memory and file. */
  lemma DecisionLeaves(c: PolicyConfig, w: World, p: Policy, outcome: UpstreamOutcome, fits: bool)
    requires Unarmed(p.gate) && p.pending.Some?
    requires outcome.OutcomeResponse? ==> ResponseInSchema(outcome.response)
    ensures var (record, o) := (Decision(p, outcome), WriteUpstreamOn(c, w, p, p.pending.value.writeId, outcome, fits));
            && o.PolicyHandled? && Unarmed(o.policy.gate)
            && o.policy.writes == p.writes[record.writeId
                                           := WriteDone(if Lasts(w, p) then record.classification else IoAmbiguous)]
            && IdleBeyond(p.gate.stores.file + Left(w, p.gate.stores.appends, record), o.policy.gate.stores.file, false)
  {
    hide SettleWrite, EndSession, IdleBeyond, Left, ResponseInSchema, ClassifyWrite, Lasts, Idles;
    var x := p.gate.stores.file + Left(w, p.gate.stores.appends, Decision(p, outcome));
    SettlesWrite(w, p, outcome);
    var settled := SettleWrite(w, p, outcome).0;
    EndSessionIdles(w, settled, SessionFatal);
    StaysIdle(x, settled.gate, EndSession(w, settled, SessionFatal).gate);
  }

  lemma MaintenanceWrites(w: World, p: Policy)
    ensures SettleMaintenance(w, p).writes == p.writes
  {
    hide Journalled, Fence;
  }

  lemma RestOfWrite(c: PolicyConfig, w: World, p: Policy, event: PolicyEvent, x: seq<Entry>)
    requires !event.Base?
    requires var o := WriterDispatch(c, w, p, event);
             o.PolicyHandled? && Unarmed(o.policy.gate) && IdleBeyond(x, o.policy.gate.stores.file, false)
    ensures var (o, q) := (WriterDispatch(c, w, p, event), Next(c, w, p, event));
            q.writes == o.policy.writes && IdleBeyond(x, q.gate.stores.file, false)
  {
    hide WriterDispatch, SettleDrain, SettleMaintenance, Idles, IdleBeyond;
    var q := WriterDispatch(c, w, p, event).policy;
    SettleDrainIdles(w, q.gate);
    var settled := q.(gate := SettleDrain(w, q.gate).0);
    StaysIdle(x, q.gate, settled.gate);
    SettleMaintenanceIdles(w, settled);
    StaysIdle(x, settled.gate, SettleMaintenance(w, settled).gate);
    MaintenanceWrites(w, settled);
  }

  lemma PendingIsSound(c: PolicyConfig, w: World, hs: seq<Happening>)
    requires var y := RunTo(c, w, Born(c), hs); y.Up? && y.policy.pending.Some?
    ensures PolicySound(RunTo(c, w, Born(c), hs).policy) && Unarmed(RunTo(c, w, Born(c), hs).policy.gate)
  {
    hide Sound, Fenced, Readable, Alike, Born, RunTo, WritesFiled, WritesRebuilt;
    BornSane(c);
    AlwaysSane(c, w, Born(c), hs);
  }

  lemma DecidedReplay(w: World, file: seq<Entry>, n: nat, record: Record)
    requires record.WriteTerminal? && record.writeId in ReplayWrites(file).writes
    requires ReplayWrites(file).writes[record.writeId] == WriteSent
    ensures var writes := RebuildWrites(file + Left(w, n, record)).0;
            && record.writeId in writes
            && writes[record.writeId]
               == WriteDone(if w.append(n) == Durable || Unrevoked(w, n) then record.classification else IoAmbiguous)
  {
    hide ReplayWrites;
    Folded(file, Rec(record));
    Folded(file, Torn);
    assert file + [] == file;
  }

  lemma PendingIsSent(p: Policy)
    requires PolicySound(p) && p.pending.Some?
    ensures var id := p.pending.value.writeId;
            id in ReplayWrites(p.gate.stores.file).writes && ReplayWrites(p.gate.stores.file).writes[id] == WriteSent
  {
    hide Sound, WritesRebuilt, SessionShaped, ReplayWrites;
  }

  /** An answer to the outstanding write, over any life: the process that read it and the next one classify the write
      alike if and only if the WRITE_TERMINAL append was not one that failed and left its record, of an outcome that is
      not ambiguous. */
  lemma WriteKeptExactly(c: PolicyConfig, w: World, hs: seq<Happening>, outcome: UpstreamOutcome, fits: bool)
    requires var y := RunTo(c, w, Born(c), hs); y.Up? && y.policy.pending.Some?
    requires outcome.OutcomeResponse? ==> ResponseInSchema(outcome.response)
    ensures var p := RunTo(c, w, Born(c), hs).policy;
            var (n, id) := (p.gate.stores.appends, p.pending.value.writeId);
            var decided := ClassifyWrite(p.pending.value.operation, outcome).0;
            var answered := hs + [Occurs(WUpstream(id, outcome, fits))];
            var (before, after) := (WritesOf(RunTo(c, w, Born(c), answered)),
                                    WritesOf(RunTo(c, w, Born(c), answered + [Stops] + [Opens])));
            && id in before && before[id].WriteDone? && id in after
            && (after[id] == before[id] <==> !(Unrevoked(w, n) && decided != IoAmbiguous))
            && (Unrevoked(w, n) ==> before[id] == WriteDone(IoAmbiguous) && after[id] == WriteDone(decided))
  {
    hide PolicySound, Next, Reopen, ClassifyWrite, Born, RunTo, Left, Rested, RebuildWrites, IdleStores, PolicyRestart,
         Alike, WriteUpstreamOn, IdleBeyond, Unarmed, Replay, Derive, Conclude, ResponseInSchema;
    var p := RunTo(c, w, Born(c), hs).policy;
    var (n, id, record) := (p.gate.stores.appends, p.pending.value.writeId, Decision(p, outcome));
    var event := WUpstream(id, outcome, fits);
    var (q, x) := (Next(c, w, p, event), p.gate.stores.file + Left(w, n, record));
    PendingIsSound(c, w, hs);
    DecisionLeaves(c, w, p, outcome, fits);
    RestOfWrite(c, w, p, event, x);
    PendingIsSent(p);
    DecidedReplay(w, p.gate.stores.file, n, record);
    IdleAlike(x, q.gate.stores.file, false);
    AlikeIs(x, q.gate.stores.file);
    var answered := hs + [Occurs(event)];
    RunsTo(c, w, Born(c), hs, Occurs(event));
    RunsTo(c, w, Born(c), answered, Stops);
    RunsTo(c, w, Born(c), answered + [Stops], Opens);
    OpensRested(c, w, Reread(q.gate.stores), q.gate.untraced);
  }
}
