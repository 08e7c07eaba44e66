/** A process that came up on what its predecessors left, whatever the file holds: it binds, arms, forwards and
    concludes nothing and decides no write, so its mirror and its file go on saying of the executions, the actions and
    the writes what the file said when it opened. */
module Resting {
  import opened Vocabulary
  import opened Journal
  import opened GateModel
  import opened WriteReplay
  import opened Lawful
  import opened GateInvariant
  import opened GateRestart
  import opened PolicyModel
  import opened PolicyRuns
  import opened Drift

  // ---------------------------------------------------------------------------------------------- idle entries

  /** Records that say nothing about an execution, an action or a write. */
  predicate IsIdle(record: Record) {
    record.DrainStarted? || record.Drained? || record.Expired? || record.Restarted? || record.Invalidated?
    || record.WriterSessionEnded? || record.WriteLateUpstream? || record.MaintOpened? || record.MaintWasHeld?
    || record.MaintWasEnded?
  }

  /** Longer by idle records and torn entries only, which record no state but HELD if the gate was `held`. */
  predicate IdleBeyond(x: seq<Entry>, y: seq<Entry>, held: bool) {
    x <= y
    && forall i | |x| <= i < |y| && y[i].Rec? ::
         IsIdle(y[i].record) && (held ==> RecordedState(y[i].record, Held) == Held)
  }

  /** Two journals that say the same of the executions, the actions and the writes. */
  ghost predicate Alike(x: seq<Entry>, y: seq<Entry>) {
    && Conclude(Replay(x).actions) == Conclude(Replay(y).actions)
    && IsClean(Replay(x).actions) == IsClean(Replay(y).actions)
    && Replay(x).inconsistent == Replay(y).inconsistent && Derive(x).boundIds == Derive(y).boundIds
    && ReplayWrites(x).writes == ReplayWrites(y).writes && ReplayWrites(x).lawful == ReplayWrites(y).lawful
    && AccountOf(x) == AccountOf(y) && Quench(x).clean == Quench(y).clean
  }

  lemma MarkedAlike(actions: Actions)
    ensures Conclude(MarkConsumed(actions)) == Conclude(actions)
    ensures IsClean(MarkConsumed(actions)) == IsClean(actions)
  {
    assert forall id | id in actions :: Settled(MarkConsumed(actions)[id]) == Settled(actions[id]);
    if IsClean(MarkConsumed(actions)) {
      forall id | id in actions
        ensures Settled(actions[id]) && actions[id].classification != Some(IoAmbiguous)
      {
        assert id in MarkConsumed(actions);
      }
    }
  }

  lemma IdleEntry(r: Replayed, d: Derived, v: WritesReplayed, a: Account, q: Quenched, entry: Entry)
    requires entry.Rec? ==> IsIdle(entry.record)
    ensures var t := ReplayEntry(r, entry);
            && Conclude(t.actions) == Conclude(r.actions) && IsClean(t.actions) == IsClean(r.actions)
            && t.inconsistent == r.inconsistent
    ensures DeriveEntry(d, entry).boundIds == d.boundIds && AccountEntry(a, entry) == a
    ensures ReplayWrite(v, entry).writes == v.writes && ReplayWrite(v, entry).lawful == v.lawful
    ensures QuenchEntry(q, entry).clean == q.clean
  {
    hide Conclude, IsClean, MarkConsumed;
    MarkedAlike(r.actions);
  }

  lemma {:induction false} IdleAlike(x: seq<Entry>, y: seq<Entry>, held: bool)
    requires IdleBeyond(x, y, held)
    ensures Alike(x, y)
    decreases |y|
  {
    hide Conclude, IsClean, ReplayEntry, DeriveEntry, ReplayWrite, AccountEntry, QuenchEntry, IsIdle;
    if x != y {
      var before, last := y[..|y| - 1], y[|y| - 1];
      IdleAlike(x, before, held);
      IdleEntry(Replay(before), Derive(before), ReplayWrites(before), AccountOf(before), Quench(before), last);
    }
  }

  lemma IdleComposes(x: seq<Entry>, y: seq<Entry>, z: seq<Entry>, held: bool, more: bool)
    requires IdleBeyond(x, y, held) && IdleBeyond(y, z, more) && (held ==> more)
    ensures IdleBeyond(x, z, held)
  {
    hide IsIdle, RecordedState;
    forall i | |x| <= i < |z| && z[i].Rec?
      ensures IsIdle(z[i].record) && (held ==> RecordedState(z[i].record, Held) == Held)
    {
      if i < |y| { assert z[i] == y[i]; }
    }
  }

  lemma IdleCut(x: seq<Entry>, y: seq<Entry>, held: bool, n: nat)
    requires IdleBeyond(x, y, held) && |x| <= n <= |y|
    ensures IdleBeyond(x, y[..n], held)
  {
  }

  // ----------------------------------------------------------------------------------------- a gate with nothing armed

  predicate Unarmed(g: Gate) {
    WithStatus(g.actions, Armed) == {}
  }

  predicate IdleStores(s: Stores, t: Stores, held: bool) {
    IdleBeyond(s.entries, t.entries, held) && IdleBeyond(s.file, t.file, held) && (s.marker ==> t.marker)
  }

  /** What an idle append makes of a gate with nothing armed, whatever its failure triggers: no TERMINAL action changes
      and only idle entries are added. */
  predicate Idles(g: Gate, h: Gate) {
    && Unarmed(h) && h.actions.Keys == g.actions.Keys && h.boundIds == g.boundIds && h.channel == g.channel
    && (forall id | id in g.actions && g.actions[id].status == Status.Terminal :: h.actions[id] == g.actions[id])
    && IdleStores(g.stores, h.stores, g.state == Held) && (g.state == Held ==> h.state == Held)
    && (MayRecord(g.state) ==> MayRecord(h.state))
  }

  lemma IdlesOn(g: Gate, h: Gate, k: Gate)
    requires Idles(g, h) && Idles(h, k)
    ensures Idles(g, k)
  {
    hide IdleBeyond;
    IdleComposes(g.stores.entries, h.stores.entries, k.stores.entries, g.state == Held, h.state == Held);
    IdleComposes(g.stores.file, h.stores.file, k.stores.file, g.state == Held, h.state == Held);
  }

  lemma AddedIdle(x: seq<Entry>, added: seq<Entry>, record: Record, held: bool)
    requires IsIdle(record) && (held ==> RecordedState(record, Held) == Held)
    requires added == [] || added == [Rec(record)] || added == [Torn]
    ensures IdleBeyond(x, x + added, held)
  {
  }

  lemma SameIdle(x: seq<Entry>, held: bool)
    ensures IdleBeyond(x, x, held)
  {
  }

  /** A step that leaves the stores and what is TERMINAL alone. */
  lemma StillIdles(g: Gate, h: Gate)
    requires Unarmed(h) && h.stores == g.stores && h.actions.Keys == g.actions.Keys && h.boundIds == g.boundIds
    requires forall id | id in g.actions && g.actions[id].status == Status.Terminal :: h.actions[id] == g.actions[id]
    requires h.channel == g.channel
             && (h.state == g.state || (g.state != Held && MayRecord(h.state)) || h.state == Held)
    ensures Idles(g, h)
  {
  }

  lemma QuietIdles(w: World, g: Gate, record: Record)
    requires Unarmed(g) && IsIdle(record) && (g.state == Held ==> RecordedState(record, Held) == Held)
    ensures Idles(g, Quiet(w, g, record))
  {
    hide IdleBeyond, IsIdle, RecordedState;
    AddedIdle(g.stores.entries, Added(w.append(g.stores.appends), record), record, g.state == Held);
    AddedIdle(g.stores.file, Left(w, g.stores.appends, record), record, g.state == Held);
  }

  lemma MarkerIdles(w: World, g: Gate)
    requires Unarmed(g)
    ensures Idles(g, g.(state := Held, actions := MarkInFlight(g.actions), stores := WriteMarker(w, g.stores)))
  {
    hide IdleBeyond;
    SameIdle(g.stores.entries, g.state == Held);
    SameIdle(g.stores.file, g.state == Held);
    assert MarkInFlight(g.actions).Keys == g.actions.Keys;
    assert forall id | id in g.actions :: MarkInFlight(g.actions)[id].status == g.actions[id].status;
    assert WithStatus(MarkInFlight(g.actions), Armed) == WithStatus(g.actions, Armed);
  }

  lemma IdlesUnarmed(g: Gate, h: Gate)
    requires Idles(g, h)
    ensures Unarmed(h)
  {
  }

  lemma FailStorageIdles(w: World, g: Gate)
    requires Unarmed(g)
    ensures Idles(g, FailStorage(w, g))
  {
    hide Replay, Append, WriteMarker, MarkInFlight, Idles, DenyQuietly;
    var held := g.(state := Held, actions := MarkInFlight(g.actions), stores := WriteMarker(w, g.stores));
    var record := Record.Invalidated(ByClose(CloseReason.StorageFailure), Held);
    MarkerIdles(w, g);
    IdlesUnarmed(g, held);
    QuietIdles(w, held, record);
    IdlesOn(g, held, Quiet(w, held, record));
    StillIdles(Quiet(w, held, record), HoldFirst(w, g));
    IdlesOn(g, Quiet(w, held, record), HoldFirst(w, g));
    NothingArmed(w, HoldFirst(w, g));
  }

  lemma JournalledIdles(w: World, g: Gate, record: Record)
    requires Unarmed(g) && IsIdle(record) && (g.state == Held ==> RecordedState(record, Held) == Held)
    ensures Idles(g, Journalled(w, g, record))
  {
    hide Idles, FailStorage, IsIdle, RecordedState, Append;
    var told := Quiet(w, g, record);
    QuietIdles(w, g, record);
    if !LastsNext(w, g.stores) {
      FailStorageIdles(w, told);
      IdlesOn(g, told, FailStorage(w, told));
    }
  }

  lemma SettleDrainIdles(w: World, g: Gate)
    requires Unarmed(g)
    ensures Idles(g, SettleDrain(w, g).0)
  {
    hide Idles, Journalled, AnyAmbiguous, InFlight;
    StillIdles(g, g);
    var ready :=
      if g.state == Draining && !InFlight(g) then g.(state := if AnyAmbiguous(g.actions) then Held else State.Closed)
      else g;
    StillIdles(g, ready);
    var settling := ready.(drainPending := false);
    StillIdles(ready, settling);
    IdlesOn(g, ready, settling);
    JournalledIdles(w, settling, Record.Drained(ready.state));
    IdlesOn(g, settling, Journalled(w, settling, Record.Drained(ready.state)));
  }

  lemma SettleMaintenanceIdles(w: World, p: Policy)
    requires Unarmed(p.gate)
    ensures Idles(p.gate, SettleMaintenance(w, p).gate)
  {
    hide Idles, Journalled, Fence;
    StillIdles(p.gate, p.gate);
    JournalledIdles(w, p.gate, Record.MaintOpened(p.gate.state));
    var open := OpenIfReady(w, p);
    IdlesUnarmed(p.gate, open.gate);
    JournalledIdles(w, open.gate, Record.MaintWasHeld(open.gate.state));
    IdlesOn(p.gate, open.gate, Journalled(w, open.gate, Record.MaintWasHeld(open.gate.state)));
  }

  // ---------------------------------------------------------------------------------------------- a gate at rest

  /** A gate whose channel is shut and that has nothing armed, in flight or forwarded on a connection. */
  predicate Dozing(g: Gate) {
    && MayRecord(g.state) && g.channel == Shut
    && forall id | id in g.actions :: g.actions[id].status == Status.Terminal && g.actions[id].conn.None?
  }

  /** What every event but a restart makes of a gate at rest. */
  predicate Dozes(g: Gate, h: Gate) {
    && Dozing(h) && h.actions == g.actions && h.boundIds == g.boundIds
    && IdleStores(g.stores, h.stores, g.state == Held) && (g.state == Held ==> h.state == Held)
  }

  lemma DozesByIdling(g: Gate, h: Gate)
    requires Dozing(g) && Idles(g, h)
    ensures Dozes(g, h)
  {
    hide IdleStores;
    assert h.actions == g.actions;
  }

  lemma DozesOn(g: Gate, h: Gate, k: Gate)
    requires Dozes(g, h) && Dozes(h, k)
    ensures Dozes(g, k)
  {
    hide IdleBeyond, Dozing;
    IdleComposes(g.stores.entries, h.stores.entries, k.stores.entries, g.state == Held, h.state == Held);
    IdleComposes(g.stores.file, h.stores.file, k.stores.file, g.state == Held, h.state == Held);
  }

  /** A step that leaves the stores alone, and the actions. */
  lemma StillDozes(g: Gate, h: Gate)
    requires Dozing(g) && h.stores == g.stores && h.actions == g.actions && h.boundIds == g.boundIds
    requires h.channel == g.channel && (h.state == g.state || h.state == Held)
    ensures Dozes(g, h)
  {
  }

  lemma NoneInDoubt(g: Gate)
    requires Dozing(g)
    ensures Unarmed(g) && MarkInFlight(g.actions) == g.actions
  {
    assert WithStatus(g.actions, Status.Consumed) == {};
  }

  lemma DozesDoze(g: Gate, h: Gate)
    requires Dozes(g, h)
    ensures Dozing(h) && h.actions == g.actions
  {
  }

  lemma JournalledDozes(w: World, g: Gate, record: Record)
    requires Dozing(g) && IsIdle(record) && (g.state == Held ==> RecordedState(record, Held) == Held)
    ensures Dozes(g, Journalled(w, g, record))
  {
    hide Dozes, Dozing, Idles, Journalled, IsIdle, RecordedState;
    NoneInDoubt(g);
    JournalledIdles(w, g, record);
    DozesByIdling(g, Journalled(w, g, record));
  }

  lemma SettleDrainDozes(w: World, g: Gate)
    requires Dozing(g)
    ensures Dozes(g, SettleDrain(w, g).0)
  {
    hide Dozes, Dozing, Idles, SettleDrain;
    NoneInDoubt(g);
    SettleDrainIdles(w, g);
    DozesByIdling(g, SettleDrain(w, g).0);
  }

  lemma DrainDozes(w: World, g: Gate)
    requires Dozing(g)
    ensures Dozes(g, DrainOn(w, g).0)
  {
    hide Dozes, Journalled, SettleDrain, DeniedSince, DenyArmed;
    StillDozes(g, g);
    var waiting := g.(drainPending := true);
    StillDozes(g, waiting);
    JournalledDozes(w, waiting, Record.DrainStarted);
    DozesOn(g, waiting, Journalled(w, waiting, Record.DrainStarted));
    var started := if g.drainPending then g else Journalled(w, waiting, Record.DrainStarted);
    DozesDoze(g, started);
    NoneInDoubt(started);
    NothingArmed(w, started);
    SettleDrainDozes(w, started);
    DozesOn(g, started, SettleDrain(w, started).0);
  }

  lemma ExpireDozes(w: World, g: Gate)
    requires Dozing(g)
    ensures Dozes(g, ExpireOn(w, g).0)
  {
    hide Dozes, Journalled, DeniedSince, DenyArmed, MarkInFlight;
    StillDozes(g, g);
    NoneInDoubt(g);
    if g.bound.Some? {
      var over := g.(expired := true);
      var record := Record.Expired(g.bound.value.executionId);
      StillDozes(g, over);
      JournalledDozes(w, over, record);
      DozesOn(g, over, Journalled(w, over, record));
      DozesDoze(g, Journalled(w, over, record));
      NoneInDoubt(Journalled(w, over, record));
      NothingArmed(w, Journalled(w, over, record));
    }
  }

  lemma UrgentDozes(w: World, g: Gate, reason: Invalidation)
    requires Dozing(g)
    ensures Dozes(g, Urgent(w, g, Held, reason).(state := Held))
  {
    hide Dozes, Journalled, DenyArmed, MarkInFlight;
    NoneInDoubt(g);
    var held := g.(state := Held);
    var told := Journalled(w, held, Record.Invalidated(reason, Held));
    StillDozes(g, held);
    JournalledDozes(w, held, Record.Invalidated(reason, Held));
    DozesDoze(held, told);
    DozesOn(g, held, told);
    NoneInDoubt(told);
    NothingArmed(w, told);
    StillDozes(told, told.(state := Held));
    DozesOn(g, told, told.(state := Held));
  }

  lemma RequestDozes(c: Config, w: World, g: Gate, conn: string, certificate: string, head: string,
                     bodyDigest: Option<string>)
    requires Dozing(g)
    ensures var o := RequestOn(c, w, g, conn, certificate, head, bodyDigest); o.Handled? ==> Dozes(g, o.gate)
  {
    hide Dozes, Journalled, CloseOne;
    var o := RequestOn(c, w, g, conn, certificate, head, bodyDigest);
    if o.Handled? { StillDozes(g, o.gate); }
  }

  lemma NoneForwarded(g: Gate, conn: string, consumedOnly: bool)
    requires Dozing(g)
    ensures ForwardedOn(g.actions, conn, consumedOnly) == {}
  {
  }

  lemma DozingShut(g: Gate)
    requires Dozing(g)
    ensures g.channel == Shut
  {
  }

  /** Every event but a restart, of a gate at rest. */
  lemma DispatchDozes(c: Config, w: World, g: Gate, event: Event)
    requires Dozing(g) && event != GateRestart
    ensures var o := Dispatch(c, w, g, event); o.Handled? ==> Dozes(g, o.gate)
  {
    hide Dozes, RequestOn, DrainOn, ExpireOn, ForwardedOn, Dozing;
    var o := Dispatch(c, w, g, event);
    assert g.channel == Shut by { DozingShut(g); }
    StillDozes(g, g);
    match event {
      case RequestEvent(conn, certificate, head, bodyDigest) =>
        RequestDozes(c, w, g, conn, certificate, head, bodyDigest);
      case Responded(conn, _) => NoneForwarded(g, conn, false);
      case UpstreamLost(conn) => NoneForwarded(g, conn, false);
      case UpstreamTimeout(conn) => NoneForwarded(g, conn, true);
      case DrainRequest => DrainDozes(w, g);
      case Expire => ExpireDozes(w, g);
      case Backlog(_) => StillDozes(g, o.gate);
      case Accept(_) => if o.Handled? { StillDozes(g, o.gate); }
      case Disconnect(_) => if o.Handled? { StillDozes(g, o.gate); }
      case _ =>
    }
  }

  lemma HandleDozes(c: Config, w: World, g: Gate, event: Event)
    requires Dozing(g) && event != GateRestart
    ensures var o := Handle(c, w, g, event); o.Handled? ==> Dozes(g, o.gate)
  {
    hide Dozes, Dozing, Dispatch, SettleDrain;
    DispatchDozes(c, w, g, event);
    var o := Dispatch(c, w, g, event);
    if o.Handled? {
      DozesDoze(g, o.gate);
      SettleDrainDozes(w, o.gate);
      DozesOn(g, o.gate, SettleDrain(w, o.gate).0);
    }
  }

  // --------------------------------------------------------------------------------------------- a policy gate at rest

  /** Asleep, on a gate at rest. */
  predicate AtRest(p: Policy) {
    Asleep(p) && Dozing(p.gate)
  }

  predicate Rests(p: Policy, q: Policy) {
    AtRest(q) && Dozes(p.gate, q.gate) && q.writes == p.writes
  }

  lemma RestsOn(p: Policy, q: Policy, r: Policy)
    requires Rests(p, q) && Rests(q, r)
    ensures Rests(p, r)
  {
    hide Dozes, Dozing;
    DozesOn(p.gate, q.gate, r.gate);
  }

  /** A change of the session alone. */
  lemma SessionRests(p: Policy, session: Option<Session>)
    requires AtRest(p)
    ensures Rests(p, p.(session := session))
  {
    StillDozes(p.gate, p.gate);
  }

  lemma GateRests(p: Policy, g: Gate)
    requires AtRest(p) && Dozes(p.gate, g)
    ensures Rests(p, p.(gate := g))
  {
    hide IdleStores;
  }

  lemma ToldRests(w: World, p: Policy, record: Record)
    requires AtRest(p) && IsIdle(record) && RecordedState(record, Held) == Held
    ensures Rests(p, Told(w, p, record))
  {
    hide Dozes, Dozing, Journalled, IsIdle, RecordedState, Rests;
    JournalledDozes(w, p.gate, record);
    GateRests(p, Journalled(w, p.gate, record));
  }

  lemma EndSessionRests(w: World, p: Policy, how: SessionEnd)
    requires AtRest(p)
    ensures Rests(p, EndSession(w, p, how))
  {
    hide Dozing, Rests, Journalled, EndMaintenance;
    var gone := p.(session := None);
    SessionRests(p, None);
    ToldRests(w, gone, Record.WriterSessionEnded(how));
    RestsOn(p, gone, Told(w, gone, Record.WriterSessionEnded(how)));
  }

  lemma FatalRests(w: World, p: Policy, reason: WriterFatal)
    requires AtRest(p)
    ensures Rests(p, FatalWriter(w, p, reason).0)
  {
    hide Dozing, Rests, EndSession;
    EndSessionRests(w, p, SessionFatal);
  }

  lemma PerformRests(c: PolicyConfig, w: World, p: Policy, request: WriterRequest, sequence: int, frameDigest: string)
    requires AtRest(p)
    ensures var (q, response) := WriterPerform(c, w, p, request, sequence, frameDigest); q == p && response.Some?
  {
    hide Dozing, MaintenanceOf;
  }

  lemma FramedRests(c: PolicyConfig, w: World, p: Policy, f: WriterFrame, response: WriterResponse, fits: bool)
    requires AtRest(p)
    ensures Rests(p, FrameResponse(c, p, f.sequence, c.frameDigest(f), f.operation, response, fits).0)
  {
    hide Rests, Dozing;
    SessionRests(p, p.session);
    SessionRests(p, FrameResponse(c, p, f.sequence, c.frameDigest(f), f.operation, response, fits).0.session);
  }

  lemma RestsRest(p: Policy, q: Policy)
    requires Rests(p, q)
    ensures AtRest(q)
  {
  }

  lemma AnsweredRests(c: PolicyConfig, w: World, p: Policy, f: WriterFrame, fits: bool)
    requires AtRest(p) && f.payload.WriterAsk?
    ensures Rests(p, WriterAnswered(c, w, p, f, fits).0)
  {
    hide Rests, AtRest, WriterPerform, FrameResponse, FatalWriter;
    PerformRests(c, w, p, f.payload.request, f.sequence, c.frameDigest(f));
    var response := WriterPerform(c, w, p, f.payload.request, f.sequence, c.frameDigest(f)).1.value;
    var framed := FrameResponse(c, p, f.sequence, c.frameDigest(f), f.operation, response, fits).0;
    FramedRests(c, w, p, f, response, fits);
    RestsRest(p, framed);
    FatalRests(w, framed, WriterResponseOutOfBounds);
    RestsOn(p, framed, FatalWriter(w, framed, WriterResponseOutOfBounds).0);
  }

  lemma FrameRests(c: PolicyConfig, w: World, p: Policy, input: WriterInput, fits: bool)
    requires AtRest(p) && p.session.Some?
    ensures Rests(p, WriterFrameOn(c, w, p, input, fits).0)
  {
    hide Rests, WriterAnswered, FatalWriter, Dozing;
    forall reason
      ensures Rests(p, FatalWriter(w, p, reason).0)
    {
      FatalRests(w, p, reason);
    }
    if input.GoodFrame? {
      var (s, f) := (p.session.value, input.frame);
      var open := if s.opened_ then p else p.(session := Some(s.(opened_ := true, challenge := Some(f.challenge))));
      SessionRests(p, open.session);
      forall reason
        ensures Rests(p, FatalWriter(w, open, reason).0)
      {
        FatalRests(w, open, reason);
        RestsOn(p, open, FatalWriter(w, open, reason).0);
      }
      if f.payload.WriterAsk? {
        AnsweredRests(c, w, open, f, fits);
        RestsOn(p, open, WriterAnswered(c, w, open, f, fits).0);
      }
    }
  }

  lemma DistrustRests(w: World, p: Policy, abort: AbortReason, reason: Invalidation, fatal: WriterFatal)
    requires AtRest(p)
    ensures Rests(p, DistrustWriter(w, p, abort, reason, fatal).0)
  {
    hide Rests, EndSession, Urgent, Dozing;
    SessionRests(p, p.session);
    var held := p.(gate := Urgent(w, p.gate, Held, reason).(state := Held));
    UrgentDozes(w, p.gate, reason);
    GateRests(p, held.gate);
    RestsRest(p, held);
    EndSessionRests(w, held, SessionFatal);
    RestsOn(p, held, EndSession(w, held, SessionFatal));
  }

  lemma WriterRests(c: PolicyConfig, w: World, p: Policy, event: PolicyEvent)
    requires AtRest(p) && !event.Base?
    ensures var o := WriterDispatch(c, w, p, event); o.PolicyHandled? ==> Rests(p, o.policy)
  {
    hide Rests, WriterFrameOn, DistrustWriter, EndSession, Dozing, Journalled, ResponseInSchema;
    SessionRests(p, p.session);
    match event
    case WConnect => SessionRests(p, Some(CONNECTED));
    case WFrame(input, fits) => if p.session.Some? { FrameRests(c, w, p, input, fits); }
    case WChannelLost => EndSessionRests(w, p, SessionEnded);
    case WPeerChanged => DistrustRests(w, p, WriterPeerDeviated, WriterPeerDeviation, WriterPeerChanged);
    case WUpstream(writeId, outcome, fits) => ToldRests(w, p, Record.WriteLateUpstream(writeId));
    case WAnswerLate => DistrustRests(w, p, WriterProtocolFailure, ByFatal(AnswerLate), WriterAnswerLate);
  }

  lemma SettledRests(w: World, p: Policy)
    requires AtRest(p)
    ensures SettleMaintenance(w, p) == p
  {
    hide Dozing, Journalled, Fence;
  }

  lemma AtRestIs(p: Policy)
    requires AtRest(p)
    ensures Asleep(p) && Dozing(p.gate)
  {
  }

  /** Every event but a restart, of a policy gate at rest. */
  lemma HandleRests(c: PolicyConfig, w: World, p: Policy, event: PolicyEvent)
    requires AtRest(p) && event != Base(GateRestart)
    ensures Rests(p, Next(c, w, p, event))
  {
    hide Rests, AtRest, Dozes, Dozing, Handle, WriterDispatch, SettleDrain, SettleMaintenance, PolicyRestart;
    SessionRests(p, p.session);
    if event.Base? {
      assert Dozing(p.gate) by { AtRestIs(p); }
      HandleDozes(c.base, w, p.gate, event.event);
      var o := Handle(c.base, w, p.gate, event.event);
      if o.Handled? {
        GateRests(p, o.gate);
        RestsRest(p, p.(gate := o.gate));
        SettledRests(w, p.(gate := o.gate));
      }
    } else {
      WriterRests(c, w, p, event);
      var o := WriterDispatch(c, w, p, event);
      if o.PolicyHandled? {
        RestsRest(p, o.policy);
        AtRestIs(o.policy);
        SettleDrainDozes(w, o.policy.gate);
        var q := o.policy.(gate := SettleDrain(w, o.policy.gate).0);
        GateRests(o.policy, q.gate);
        RestsOn(p, o.policy, q);
        RestsRest(p, q);
        SettledRests(w, q);
      }
    }
  }

  // ------------------------------------------------------------------------------------------- what a restart rebuilds

  lemma {:induction false} ReplayedAlone(entries: seq<Entry>)
    ensures forall id | id in Replay(entries).actions :: Replay(entries).actions[id].conn.None?
  {
    if entries != [] {
      ReplayedAlone(entries[..|entries| - 1]);
    }
  }

  /** Every restart ends at rest, whatever it runs on: on its journal a RESTARTED record in the state it came up in. */
  lemma RestartRests(w: World, k: Policy)
    ensures var (q, floor) := (PolicyRestart(w, k), AnyAmbiguousWrite(RebuildWrites(k.gate.stores.entries).0));
            && AtRest(q) && q.writes == RebuildWrites(k.gate.stores.entries).0
            && Dozing(Quieted(k.gate, floor)) && Dozes(Quieted(k.gate, floor), q.gate)
  {
    hide Replay, RebuildWrites, Journalled, RestartWith, Dozes, SettleDrain, Fence;
    var floor := AnyAmbiguousWrite(RebuildWrites(k.gate.stores.entries).0);
    var quiet := Quieted(k.gate, floor);
    ReplayedAlone(k.gate.stores.entries);
    RestartIs(w, k.gate, floor);
    JournalledDozes(w, quiet, Record.Restarted(quiet.state));
    PolicyRestartIs(w, k);
    RestartSleeps(w, k);
    DozesDoze(quiet, PolicyRestart(w, k).gate);
  }

  /** At rest with a mirror and a file that say the same, and memory what they rebuild. */
  ghost predicate Rested(p: Policy) {
    && AtRest(p) && Alike(p.gate.stores.entries, p.gate.stores.file)
    && p.gate.actions == Conclude(Replay(p.gate.stores.entries).actions)
    && p.gate.boundIds == Derive(p.gate.stores.entries).boundIds
    && p.writes == RebuildWrites(p.gate.stores.entries).0
  }

  /** The same executions, actions and writes in memory, in the mirror and in the file. */
  ghost predicate Unmoved(p: Policy, q: Policy) {
    && Rested(q) && q.gate.actions == p.gate.actions && q.gate.boundIds == p.gate.boundIds && q.writes == p.writes
    && IdleStores(p.gate.stores, q.gate.stores, false)
  }

  lemma AlikeOn(x: seq<Entry>, y: seq<Entry>, u: seq<Entry>, v: seq<Entry>)
    requires Alike(x, y) && Alike(x, u) && Alike(y, v)
    ensures Alike(u, v)
  {
    hide Replay, Conclude, IsClean, Derive, ReplayWrites, AccountOf, Quench;
  }

  lemma AnyIdle(x: seq<Entry>, y: seq<Entry>, held: bool)
    requires IdleBeyond(x, y, held)
    ensures IdleBeyond(x, y, false)
  {
  }

  lemma StoresIdle(s: Stores, t: Stores, held: bool)
    requires IdleStores(s, t, held)
    ensures IdleStores(s, t, false) && Alike(s.entries, t.entries) && Alike(s.file, t.file)
  {
    hide IdleBeyond, Alike;
    AnyIdle(s.entries, t.entries, held);
    AnyIdle(s.file, t.file, held);
    IdleAlike(s.entries, t.entries, held);
    IdleAlike(s.file, t.file, held);
  }

  lemma RestedOn(p: Policy, q: Policy)
    requires Rested(p) && Rests(p, q)
    ensures Unmoved(p, q)
  {
    hide Dozing, IdleBeyond, IdleStores, Replay, Conclude, IsClean, Derive, ReplayWrites, AccountOf, Quench;
    var (s, t) := (p.gate.stores, q.gate.stores);
    StoresIdle(s, t, p.gate.state == Held);
    AlikeOn(s.entries, s.file, t.entries, t.file);
  }

  /** A restart of a process at rest, or on stores whose mirror and file say the same. */
  lemma RestartRested(w: World, k: Policy)
    requires Alike(k.gate.stores.entries, k.gate.stores.file)
    requires k.gate.boundIds == Derive(k.gate.stores.entries).boundIds
    ensures var (s, q) := (k.gate.stores, PolicyRestart(w, k));
            && Rested(q) && q.gate.actions == Conclude(Replay(s.entries).actions) && q.gate.boundIds == k.gate.boundIds
            && q.writes == RebuildWrites(s.entries).0 && IdleStores(s, q.gate.stores, false)
  {
    hide Dozing, IdleBeyond, IdleStores, Replay, Conclude, IsClean, Derive, ReplayWrites, AccountOf, Quench,
         PolicyRestart, AtRest, RebuiltState;
    var (s, t) := (k.gate.stores, PolicyRestart(w, k).gate.stores);
    RestartRests(w, k);
    var floor := AnyAmbiguousWrite(RebuildWrites(s.entries).0);
    StoresIdle(s, t, Quieted(k.gate, floor).state == Held);
    AlikeOn(s.entries, s.file, t.entries, t.file);
  }

  /** Every event of a process that came up on a file: nothing moves. */
  lemma NothingMoves(c: PolicyConfig, w: World, p: Policy, event: PolicyEvent)
    requires Rested(p)
    ensures Unmoved(p, Next(c, w, p, event))
  {
    hide Alike, AtRest, Conclude, Replay, Derive, RebuildWrites, PolicyHandle, PolicyRestart, SettleMaintenance,
         Rests, IdleStores;
    if event == Base(GateRestart) {
      RestartRested(w, p);
      HandlesRestart(c, w, p);
      SettledRests(w, PolicyRestart(w, p));
    } else {
      HandleRests(c, w, p, event);
      RestedOn(p, Next(c, w, p, event));
    }
  }

  /** A new process on a file comes up at rest. */
  lemma OpensRested(c: PolicyConfig, w: World, s: Stores, untraced: bool)
    requires !s.parted
    ensures var q := Reopen(c, w, s, untraced);
            && Rested(q) && q == PolicyRestart(w, Around(OnStores(c.base, s, untraced)))
            && q.gate.actions == Conclude(Replay(s.entries).actions)
            && q.gate.boundIds == Derive(s.entries).boundIds && q.writes == RebuildWrites(s.entries).0
            && IdleStores(s, q.gate.stores, false)
  {
    hide AtRest, Conclude, Replay, Derive, RebuildWrites, PolicyRestart, SettleMaintenance, IdleStores;
    var k := Around(OnStores(c.base, s, untraced));
    RestartRested(w, k);
    SettledRests(w, PolicyRestart(w, k));
  }
}
