/** Every event of the effect gate keeps the invariant, leaves evidence of a hold, and never reverts: HELD stays HELD, a
    generation that is not ACTIVE never becomes it, a shut channel stays shut, settled actions stay as they are, and
    nothing is accounted as forwarded but by the one event that forwards. */
module GateEvents {
  import opened Vocabulary
  import opened Journal
  import opened GateModel
  import opened WriteReplay
  import opened Lawful
  import opened GateInvariant
  import opened GateStorage
  import opened GateRecords

  /** What no event but a restart reverts; settled actions are frozen while the execution stays bound, and once the
      generation is not ACTIVE no action is armed or consumed any more. */
  ghost predicate Onward(g: Gate, h: Gate) {
    && (g.state == Held ==> h.state == Held)
    && (g.state != Active ==> h.state != Active)
    && (g.state == State.Closed || g.state == State.Invalidated ==> h.state == g.state || h.state == Held)
    && (g.state != Active ==>
          forall id | id in h.actions && h.actions[id].status != Status.Terminal ::
            id in g.actions && g.actions[id].status == h.actions[id].status)
    && (g.channel == Shut ==> h.channel == Shut)
    && (g.untraced ==> h.untraced)
    && Longer(g.stores, h.stores) && (g.state == Held ==> Muted(g, h.stores.entries)) && Outlasts(g, h.stores.file)
    && g.boundIds <= h.boundIds
    && (h.boundIds == g.boundIds ==>
          forall id | id in g.actions && Settled(g.actions[id]) :: id in h.actions && h.actions[id] == g.actions[id])
  }

  ghost function ForwardedIn(g: Gate): seq<(string, nat)> {
    AccountOf(g.stores.entries).forwarded
  }

  ghost function WritesIn(g: Gate): WritesReplayed {
    ReplayWrites(g.stores.entries)
  }

  ghost function FileWritesIn(g: Gate): WritesReplayed {
    ReplayWrites(g.stores.file)
  }

  ghost function BindsIn(g: Gate): seq<Record> {
    AccountOf(g.stores.entries).binds
  }

  /** Everything an event keeps except the evidence, which a hold may still owe. */
  ghost predicate Moved(g: Gate, h: Gate) {
    Sound(h) && Onward(g, h) && ForwardedIn(h) == ForwardedIn(g) && WritesIn(h) == WritesIn(g)
    && FileWritesIn(h) == FileWritesIn(g) && BindsIn(h) == BindsIn(g)
  }

  ghost predicate Kept(g: Gate, h: Gate) {
    Moved(g, h) && (Traced(g) ==> Traced(h))
  }

  /** What an event that may bind keeps. */
  ghost predicate Carries(g: Gate, h: Gate) {
    Sound(h) && Onward(g, h) && ForwardedIn(h) == ForwardedIn(g) && WritesIn(h) == WritesIn(g)
    && FileWritesIn(h) == FileWritesIn(g) && (Traced(g) ==> Traced(h))
  }

  /** The journal's BIND records stay, or grow by one that passed every check. */
  ghost predicate BindsStep(c: Config, g: Gate, h: Gate) {
    || BindsIn(h) == BindsIn(g)
    || exists p: BindRequest, observed: bool ::
         BindCheck(c, g, p, observed).None? && p.runNonce in c.runs && BindsIn(h) == BindsIn(g) + [BindRecord(c, p)]
  }

  lemma OnwardComposes(f: Gate, g: Gate, h: Gate)
    requires Onward(f, g) && Onward(g, h)
    ensures Onward(f, h)
  {
    hide Outlasts, Muted;
    OutlastsComposes(f, g, h.stores.file);
    if f.state == Held { MutedComposes(f, g, h); }
  }

  lemma OnwardSays(g: Gate, h: Gate)
    requires Onward(g, h)
    ensures (g.state == Held ==> h.state == Held) && (g.state != Active ==> h.state != Active)
            && (g.channel == Shut ==> h.channel == Shut)
  {
  }

  lemma MovedComposes(f: Gate, g: Gate, h: Gate)
    requires Moved(f, g) && Moved(g, h)
    ensures Moved(f, h)
  {
    hide Sound, Onward;
    OnwardComposes(f, g, h);
  }

  lemma KeptComposes(f: Gate, g: Gate, h: Gate)
    requires Kept(f, g) && Kept(g, h)
    ensures Kept(f, h)
  {
    hide Moved, Traced;
    MovedComposes(f, g, h);
  }

  lemma OnwardOfAftermath(g: Gate, h: Gate)
    requires Aftermath(g, h)
    ensures Onward(g, h) && ForwardedIn(h) == ForwardedIn(g) && WritesIn(h) == WritesIn(g) && BindsIn(h) == BindsIn(g)
    ensures FileWritesIn(h) == FileWritesIn(g)
  {
    hide Outlasts, Muted, AccountOf, ReplayWrites;
  }

  // ---------------------------------------------------------------------------------------------- appends

  lemma KeptOfAftermath(g: Gate, h: Gate)
    requires Sound(h) && Aftermath(g, h) && (Traced(g) ==> Traced(h))
    ensures Kept(g, h)
  {
    hide Sound, Onward, Aftermath, Traced, ForwardedIn, WritesIn, FileWritesIn, BindsIn;
    OnwardOfAftermath(g, h);
  }

  lemma JournalledKept(w: World, g: Gate, record: Record)
    requires Sound(g) && Fits(g, record)
    ensures Kept(g, Journalled(w, g, record))
  {
    hide Sound, Onward, Aftermath, Traced, Kept, Fits, Journalled;
    JournalledKeeps(w, g, record);
    KeptOfAftermath(g, Journalled(w, g, record));
  }

  lemma FailedKept(w: World, g: Gate, record: Record)
    requires Sound(g) && !LastsNext(w, g.stores) && Fileable(g, record) && !IsWriteRecord(record)
    ensures var h := Journalled(w, g, record); Kept(g, h) && h.state == Held && Traced(h) && Aftermath(g, h)
  {
    hide Sound, Onward, Aftermath, Kept, Journalled, Fileable;
    FailedAppendKeeps(w, g, record);
    KeptOfAftermath(g, Journalled(w, g, record));
  }

  lemma DenyArmedKept(w: World, g: Gate)
    requires Sound(g)
    ensures var h := DenyArmed(w, g);
            Kept(g, h) && (g.state == Held ==> h.state == Held) && (g.state != Active ==> h.state != Active)
  {
    hide Sound, Onward, Aftermath, Traced, DenyArmed;
    DenyArmedKeeps(w, g);
    KeptOfAftermath(g, DenyArmed(w, g));
    OnwardSays(g, DenyArmed(w, g));
  }

  /** A record of the state the gate is in: the evidence of a hold, or the storage-failure path's. */
  lemma StateRecordKept(w: World, f: Gate, g: Gate, record: Record)
    requires Moved(f, g) && Fits(g, record) && RecordedState(record, Active) == g.state
    requires record.Invalidated? || record.Closed? || record.Drained? || record.Restarted?
    ensures var h := Journalled(w, g, record);
            Kept(f, h) && Traced(h) && (g.state == Held ==> h.state == Held)
              && (g.state != Active ==> h.state != Active)
  {
    hide Sound, Onward, Aftermath, Fits, Journalled;
    var h := Journalled(w, g, record);
    JournalledKeeps(w, g, record);
    OnwardOfAftermath(g, h);
    OnwardComposes(f, g, h);
    OnwardSays(g, h);
    if LastsNext(w, g.stores) {
      assert Replay(h.stores.entries).state == g.state == h.state;
    }
  }

  lemma WriteFileable(w: World, g: Gate, record: Record)
    requires Filed(g) && IsWriteRecord(record)
    ensures Fileable(g, record) && Filed(Quiet(w, g, record))
  {
    hide Filed, Fileable, AccountOf, AccountRecord;
    SparedFileable(g, record);
    SparedFolds(Derive(g.stores.file), AccountOf(g.stores.file), Quench(g.stores.file), record);
    SparedFolds(Derive(g.stores.file), AccountOf(g.stores.entries), Quench(g.stores.file), record);
    FiledForwards(g);
    FiledQuiet(w, g, record);
  }

  lemma WrittenSound(w: World, g: Gate, record: Record)
    requires Sound(g) && IsWriteRecord(record)
    ensures var h := Quiet(w, g, record);
            && Coherent(h) && (LastsNext(w, g.stores) ==> Sound(h))
            && ForwardedIn(h) == ForwardedIn(g) && BindsIn(h) == BindsIn(g)
            && (LastsNext(w, g.stores) && Traced(g) ==> Traced(h))
            && WritesIn(h) == (if LastsNext(w, g.stores) then ReplayWrite(WritesIn(g), Rec(record)) else WritesIn(g))
  {
    hide SoundOn, IsLawful, Filed, Replay, Derive, AccountOf, Quench, ReplayWrites;
    var s, h := g.stores.entries, Quiet(w, g, record);
    var t := h.stores.entries;
    AppendedFolds(w, g.stores, record);
    LawfulAppended(w, g.stores, record);
    LastingParts(w, g.stores, record);
    WriteFileable(w, g, record);
    if !LastsNext(w, g.stores) { TearingKeeps(g, Replay(s), Derive(s), AccountOf(s)); }
    SameCore(g, h, Replay(t), Derive(t), AccountOf(t));
  }

  lemma TornWrites(q: WritesReplayed)
    ensures ReplayWrite(q, Torn) == q
  {
  }

  lemma WrittenFile(w: World, g: Gate, record: Record)
    ensures var (x, y) := (FileWritesIn(g), FileWritesIn(Quiet(w, g, record)));
            (!LastsNext(w, g.stores) && y == x) || y == ReplayWrite(x, Rec(record))
  {
    hide ReplayWrites, ReplayWrite;
    LeftFolds(w, g.stores, record);
    Folded(g.stores.file, Torn);
    Folded(g.stores.file, Rec(record));
    assert ReplayWrite(ReplayWrites(g.stores.file), Torn)
           == ReplayWrites(g.stores.file) by { TornWrites(ReplayWrites(g.stores.file)); }
  }

  lemma WrittenOnward(w: World, g: Gate, record: Record)
    requires IsWriteRecord(record) && Filed(g) && (record.WriteForwarded? ==> g.state != Held)
    ensures Onward(g, Quiet(w, g, record))
  {
    hide Filed, Fileable, Outlasts;
    WriteFileable(w, g, record);
    QuietOutlasts(w, g, record);
  }

  /** A record of the policy channel: the base gate keeps everything, and the rebuilt writes follow the record. */
  lemma WriteRecordKept(w: World, g: Gate, record: Record)
    requires Sound(g) && IsWriteRecord(record) && (record.WriteForwarded? ==> g.state != Held)
    ensures var h := Journalled(w, g, record);
            && Sound(h) && Onward(g, h) && ForwardedIn(h) == ForwardedIn(g) && BindsIn(h) == BindsIn(g)
            && (Traced(g) ==> Traced(h))
            && WritesIn(h) == (if LastsNext(w, g.stores) then ReplayWrite(WritesIn(g), Rec(record)) else WritesIn(g))
            && (if LastsNext(w, g.stores) then h == g.(stores := h.stores) else h.state == Held && Traced(h))
            && ((!LastsNext(w, g.stores) && FileWritesIn(h) == FileWritesIn(g))
                || FileWritesIn(h) == ReplayWrite(FileWritesIn(g), Rec(record)))
  {
    hide Coherent, Sound, Onward, FailStorage, ForwardedIn, WritesIn, FileWritesIn, BindsIn, Aftermath;
    var told := Quiet(w, g, record);
    SoundFiled(g);
    WrittenSound(w, g, record);
    WrittenOnward(w, g, record);
    WrittenFile(w, g, record);
    if !LastsNext(w, g.stores) {
      StorageFailureKeeps(w, told);
      OnwardOfAftermath(told, FailStorage(w, told));
      OnwardComposes(g, told, FailStorage(w, told));
    }
  }

  // ---------------------------------------------------------------------------------------------- moves

  /** Fields the invariant does not read. */
  lemma ReshutKept(g: Gate, channel: Channel, challenge: Option<string>, drainPending: bool, sequence: int,
                   digest: string)
    requires Sound(g) && (g.channel == Shut ==> channel == Shut)
    ensures Kept(g,
                 g.(channel := channel, challenge := challenge, drainPending := drainPending, nextSequence := sequence,
                       lastDigest := digest))
  {
    hide SoundOn;
    var h := g.(channel := channel, challenge := challenge, drainPending := drainPending, nextSequence := sequence,
                lastDigest := digest);
    var s := g.stores.entries;
    SameCore(g, h, Replay(s), Derive(s), AccountOf(s));
  }

  lemma MarkedOnward(g: Gate)
    ensures var h := g.(actions := MarkConsumed(g.actions));
            Onward(g, h)
            && forall id | id in h.actions && h.actions[id].status == Status.Consumed :: h.actions[id].after
  {
    hide Muted;
    NothingMuted(g);
  }

  lemma MarkedFiled(g: Gate)
    requires Filed(g)
    ensures Filed(g.(actions := MarkConsumed(g.actions)))
  {
    hide Filed;
    FiledLess(g, g.(actions := MarkConsumed(g.actions)));
  }

  lemma MarkedMoved(g: Gate)
    requires Sound(g)
    ensures var h := g.(actions := MarkInFlight(g.actions));
            Kept(g, h) && forall id | id in h.actions && h.actions[id].status == Status.Consumed :: h.actions[id].after
  {
    hide SoundOn, IsLawful, Quench, Onward, MarkConsumed, MarkInFlight, Filed;
    MarkedOnward(g);
    MarkedFiled(g);
    var s := g.stores.entries;
    MarkingKeeps(g, Replay(s), Derive(s), AccountOf(s));
  }

  lemma HeldMoved(g: Gate)
    requires Sound(g)
    ensures Moved(g, g.(state := Held))
  {
    hide SoundOn;
    var s := g.stores.entries;
    HoldingKeeps(g, Replay(s), Derive(s), AccountOf(s));
  }

  lemma LeftMoved(g: Gate, state: State)
    requires Sound(g)
    requires g.state == Active || g.state == Inspecting || g.state == Draining
    requires state == Draining || state == State.Closed || state == State.Invalidated
    requires forall id | id in g.actions && g.actions[id].status == Status.Consumed ::
               state != State.Closed && (state == State.Invalidated ==> g.actions[id].after)
    ensures Kept(g, g.(state := state))
  {
    hide SoundOn;
    var s := g.stores.entries;
    LeavingKeeps(g, Replay(s), Derive(s), AccountOf(s), state);
  }

  lemma ReconnectedKept(g: Gate, connections: Connections, backlog: seq<string>)
    requires Sound(g)
    requires StampsCurrent(g.(connections := connections, backlog := backlog))
    ensures Kept(g, g.(connections := connections, backlog := backlog))
  {
    ReconnectingKeeps(g, connections, backlog);
  }

  lemma ClosedOneKept(g: Gate, conn: string)
    requires Sound(g)
    ensures Kept(g, g.(connections := CloseOne(g.connections, conn)))
  {
    ReconnectedKept(g, CloseOne(g.connections, conn), g.backlog);
  }

  // ---------------------------------------------------------------------------------------------- urgent closes

  lemma UrgentKept(w: World, g: Gate, state: State, reason: Invalidation)
    requires Sound(g)
    requires state == Held
             || (state == State.Invalidated && (g.state == Active || g.state == Inspecting || g.state == Draining))
    ensures var h := Urgent(w, g, state, reason);
            Kept(g, h) && Traced(h) && h.state != Active && (state == Held ==> h.state == Held)
  {
    hide Sound, Onward, Traced, Journalled, DenyArmed;
    var toward := if g.state != Held then state else Held;
    var marked := g.(actions := MarkInFlight(g.actions));
    var moved := marked.(state := toward);
    var told := Journalled(w, moved, Record.Invalidated(reason, toward));
    MarkedMoved(g);
    if toward == Held { HeldMoved(marked); } else { LeftMoved(marked, toward); }
    MovedComposes(g, marked, moved);
    StateRecordKept(w, g, moved, Record.Invalidated(reason, toward));
    DenyArmedKept(w, told);
    KeptComposes(g, told, DenyArmed(w, told));
  }

  lemma FatalKept(w: World, g: Gate, reason: FatalReason)
    requires Sound(g)
    ensures var h := FatalClose(w, g, reason); Kept(g, h) && Traced(h) && h.state == Held && h.channel == Shut
  {
    hide Sound, Onward, Traced, Urgent;
    var shut := g.(channel := Shut);
    ReshutKept(g, Shut, g.challenge, g.drainPending, g.nextSequence, g.lastDigest);
    UrgentKept(w, shut, Held, ByFatal(reason));
    KeptComposes(g, shut, Urgent(w, shut, Held, ByFatal(reason)));
    OnwardSays(shut, Urgent(w, shut, Held, ByFatal(reason)));
  }

  // ---------------------------------------------------------------------------------------------- drain, expiry

  /** A DRAINING generation with nothing in flight closes: an ambiguous action would have held it. */
  lemma SettledKept(g: Gate)
    requires Sound(g) && g.state == Draining && !InFlight(g)
    ensures !AnyAmbiguous(g.actions) && Kept(g, g.(state := State.Closed))
  {
    assert forall id | id in g.actions :: id !in WithStatus(g.actions, Status.Consumed);
    LeftMoved(g, State.Closed);
  }

  lemma KeptRefl(g: Gate)
    requires Sound(g)
    ensures Kept(g, g)
  {
  }

  lemma DecidedKept(w: World, f: Gate, g: Gate)
    requires Kept(f, g) && Fence(g) != AnswerPending
    ensures Kept(f, Journalled(w, g.(drainPending := false), Record.Drained(g.state)))
    ensures Journalled(w, g.(drainPending := false), Record.Drained(g.state)).state != Active
  {
    hide Sound, Onward, Traced, Journalled;
    var done := g.(drainPending := false);
    ReshutKept(g, g.channel, g.challenge, false, g.nextSequence, g.lastDigest);
    MovedComposes(f, g, done);
    StateRecordKept(w, f, done, Record.Drained(g.state));
  }

  lemma SettleDrainKept(w: World, g: Gate)
    requires Sound(g)
    ensures Kept(g, SettleDrain(w, g).0)
    ensures g.state != Active ==> SettleDrain(w, g).0.state != Active
  {
    hide Sound, Onward, Traced, Journalled, AnyAmbiguous;
    KeptRefl(g);
    if g.drainPending {
      if g.state == Draining && !InFlight(g) {
        SettledKept(g);
        DecidedKept(w, g, g.(state := State.Closed));
      } else if Fence(g) != AnswerPending {
        DecidedKept(w, g, g);
      }
    }
  }

  lemma StartedKept(w: World, f: Gate, g: Gate)
    requires Kept(f, g) && g.state != Active
    ensures var h := Journalled(w, g.(drainPending := true), Record.DrainStarted); Kept(f, h) && h.state != Active
  {
    hide Sound, Onward, Traced, Journalled;
    var pending := g.(drainPending := true);
    ReshutKept(g, g.channel, g.challenge, true, g.nextSequence, g.lastDigest);
    JournalledKept(w, pending, Record.DrainStarted);
    KeptComposes(f, g, pending);
    KeptComposes(f, pending, Journalled(w, pending, Record.DrainStarted));
    OnwardSays(pending, Journalled(w, pending, Record.DrainStarted));
  }

  lemma StillNoneArmed(g: Gate, h: Gate)
    requires Onward(g, h) && g.state != Active && WithStatus(g.actions, Armed) == {}
    ensures WithStatus(h.actions, Armed) == {}
  {
    assert forall id | id in h.actions && h.actions[id].status == Armed :: id in WithStatus(g.actions, Armed);
  }

  lemma DrainedKept(w: World, f: Gate, g: Gate)
    requires Kept(f, g) && g.state != Active
    ensures var h := SettleDrain(w, DenyArmed(w, g)).0;
            Kept(f, h) && h.state != Active && WithStatus(h.actions, Armed) == {}
  {
    hide Sound, Onward, Traced, SettleDrain;
    var denied := DenyArmed(w, g);
    DenyArmedKept(w, g);
    KeptComposes(f, g, denied);
    SettleDrainKept(w, denied);
    KeptComposes(f, denied, SettleDrain(w, denied).0);
    StillNoneArmed(denied, SettleDrain(w, denied).0);
  }

  /** A drain request ends ACTIVE for good. */
  lemma DrainKept(w: World, g: Gate)
    requires Sound(g)
    ensures var h := DrainOn(w, g).0; Kept(g, h) && h.state != Active && WithStatus(h.actions, Armed) == {}
  {
    hide Sound, Onward, Traced, Journalled, DenyArmed, SettleDrain, WithStatus, DeniedSince;
    var toward := if g.state == Active || g.state == Inspecting then g.(state := Draining) else g;
    if g.state == Active || g.state == Inspecting { LeftMoved(g, Draining); } else { KeptRefl(g); }
    StartedKept(w, g, toward);
    DrainedKept(w, g,
                if g.drainPending then toward else Journalled(w, toward.(drainPending := true), Record.DrainStarted));
  }

  lemma ExpiringKept(g: Gate)
    requires Sound(g)
    ensures Kept(g, g.(expired := true))
  {
    hide SoundOn;
    var s := g.stores.entries;
    SameCore(g, g.(expired := true), Replay(s), Derive(s), AccountOf(s));
  }

  lemma ExpireKept(w: World, g: Gate)
    requires Sound(g)
    ensures Kept(g, ExpireOn(w, g).0)
  {
    hide Sound, Onward, Traced, Journalled, DenyArmed;
    KeptRefl(g);
    if g.bound.Some? && !g.expired {
      var marked := g.(actions := MarkInFlight(g.actions));
      var expired := marked.(expired := true);
      var record := Record.Expired(g.bound.value.executionId);
      MarkedMoved(g);
      ExpiringKept(marked);
      KeptComposes(g, marked, expired);
      JournalledKept(w, expired, record);
      KeptComposes(g, expired, Journalled(w, expired, record));
      DenyArmedKept(w, Journalled(w, expired, record));
      KeptComposes(g, Journalled(w, expired, record), DenyArmed(w, Journalled(w, expired, record)));
    }
  }

  // ---------------------------------------------------------------------------------------------- connections

  lemma AcceptKept(g: Gate, conn: string)
    requires Sound(g) && conn in g.backlog
    ensures AcceptOn(g, conn).Handled? && Kept(g, AcceptOn(g, conn).gate)
  {
    var h := AcceptOn(g, conn).gate;
    ReconnectedKept(g, h.connections, h.backlog);
  }

  lemma DisconnectKept(g: Gate, conn: string)
    requires Sound(g) && DisconnectOn(g, conn).Handled?
    ensures Kept(g, DisconnectOn(g, conn).gate)
  {
    var h := DisconnectOn(g, conn).gate;
    ReconnectedKept(g, h.connections, h.backlog);
  }

  /** The request counted on its connection. */
  function Asked(g: Gate, conn: string): Gate
    requires conn in g.connections
  {
    g.(connections := g.connections[conn := g.connections[conn].(requests := g.connections[conn].requests + 1)])
  }

  lemma AskedKept(g: Gate, conn: string)
    requires Sound(g) && conn in g.connections
    ensures Kept(g, Asked(g, conn))
  {
    var h := Asked(g, conn);
    ReconnectedKept(g, h.connections, h.backlog);
  }

  /** The one event that forwards: its account grows by exactly the bound execution and the action forwarded. */
  lemma ForwardedKept(w: World, g: Gate, conn: string, id: nat)
    requires Sound(g) && g.state == Active && g.channel == Opened && g.bound.Some? && LastsNext(w, g.stores)
    requires id in g.actions && g.actions[id].status == Armed && conn in g.connections
             && g.connections[conn].requests >= 1
    ensures var h := Consume(Quiet(w, g, Record.Consumed(id)), conn, id);
            && Sound(h) && Onward(g, h) && Traced(h) && WritesIn(h) == WritesIn(g) && BindsIn(h) == BindsIn(g)
            && FileWritesIn(h) == FileWritesIn(g)
            && ForwardedIn(h) == ForwardedIn(g) + [(g.bound.value.executionId, id)]
  {
    hide SoundOn, IsLawful, RecordLawful, Filed, Outlasts, Fileable, Replay, Derive, AccountOf;
    var s := g.stores.entries;
    var h := Consume(Quiet(w, g, Record.Consumed(id)), conn, id);
    var t := h.stores.entries;
    AppendedFolds(w, g.stores, Record.Consumed(id));
    LawfulAppended(w, g.stores, Record.Consumed(id));
    ConsumedFileable(g, id);
    QuietOutlasts(w, g, Record.Consumed(id));
    QuietFileWrites(w, g, Record.Consumed(id));
    ConsumingKeeps(g, Replay(s), Derive(s), AccountOf(s), conn, id);
    SameCore(Consume(g, conn, id), h, Replay(t), Derive(t), AccountOf(t));
    FiledUnparted(h);
  }

  lemma KeptSound(g: Gate, h: Gate)
    requires Kept(g, h)
    ensures Sound(h)
  {
  }

  lemma RequestKept(c: Config, w: World, g: Gate, conn: string, certificate: string, head: string,
                    bodyDigest: Option<string>)
    requires Sound(g) && conn in g.connections
    ensures var o := RequestOn(c, w, g, conn, certificate, head, bodyDigest);
            && o.Handled? && Sound(o.gate) && Onward(g, o.gate) && (Traced(g) ==> Traced(o.gate))
            && WritesIn(o.gate) == WritesIn(g) && FileWritesIn(o.gate) == FileWritesIn(g)
            && BindsIn(o.gate) == BindsIn(g)
            && (o.output.Forward? ==>
                  && g.state == Active && g.channel == Opened && !g.drainPending && g.bound.Some? && !g.expired
                  && ForwardedIn(o.gate) == ForwardedIn(g) + [(g.bound.value.executionId, o.output.actionId)])
            && (!o.output.Forward? ==> ForwardedIn(o.gate) == ForwardedIn(g))
  {
    hide Sound, Onward, Traced, Journalled, Consume, ForwardedIn, WritesIn, FileWritesIn, BindsIn;
    var asked := Asked(g, conn);
    AskedKept(g, conn);
    match Admit(c, asked, asked.connections[conn], certificate, head, bodyDigest)
    case Admitted(id) =>
      var record := Record.Consumed(id);
      if LastsNext(w, g.stores) {
        ForwardedKept(w, asked, conn, id);
        OnwardComposes(g, asked, Consume(Quiet(w, asked, record), conn, id));
      } else {
        var failed := Journalled(w, asked, record);
        KeptSound(g, asked);
        ConsumedFileable(asked, id);
        FailedKept(w, asked, record);
        KeptComposes(g, asked, failed);
        ClosedOneKept(failed, conn);
        KeptComposes(g, failed, failed.(connections := CloseOne(failed.connections, conn)));
      }
    case NotAdmitted(_) =>
      ClosedOneKept(asked, conn);
      KeptComposes(g, asked, asked.(connections := CloseOne(asked.connections, conn)));
  }

  // ---------------------------------------------------------------------------------------------- upstream

  /** Of the actions that are not the one concluded, an ambiguous one stays ambiguous. */
  lemma LandedEvidence(g: Gate, h: Gate, r: Replayed, id: nat)
    requires ReplayLinked(g, r) && id in g.actions && g.actions[id].status == Status.Consumed
    requires id in h.actions && h.actions == g.actions[id := h.actions[id]]
    ensures AnyAmbiguous(g.actions) ==> AnyAmbiguous(h.actions)
    ensures h.actions[id].classification == Some(IoAmbiguous) ==> AnyAmbiguous(h.actions)
  {
    assert Linked(g.actions[id], r.actions[id]);
    if other :| other in g.actions && g.actions[other].classification == Some(IoAmbiguous) {
      assert h.actions[other].classification == Some(IoAmbiguous);
    }
  }

  lemma SparedQuiet(w: World, g: Gate, record: Record)
    requires Filed(g) && Spares(g, record) && !IsWriteRecord(record)
    ensures Fileable(g, record) && Filed(Quiet(w, g, record)) && Outlasts(g, Quiet(w, g, record).stores.file)
    ensures FileWritesIn(Quiet(w, g, record)) == FileWritesIn(g)
  {
    hide Filed, Fileable, AccountOf, AccountRecord, Spares, Outlasts;
    SparesNone(g, record);
    SparedFileable(g, record);
    SparedFolds(Derive(g.stores.file), AccountOf(g.stores.file), Quench(g.stores.file), record);
    SparedFolds(Derive(g.stores.file), AccountOf(g.stores.entries), Quench(g.stores.file), record);
    FiledForwards(g);
    FiledQuiet(w, g, record);
    QuietOutlasts(w, g, record);
    QuietFileWrites(w, g, record);
  }

  lemma LandedFiled(w: World, g: Gate, id: nat, cls: Classification, details: TerminalDetails)
    requires Filed(g) && id in g.actions && g.actions[id].status == Status.Consumed && !g.actions[id].sealed
    ensures var told := Quiet(w, g, Record.Terminal(id, cls, g.actions[id].after, details));
            && Filed(Landed(told, id, cls, details)) && Outlasts(g, told.stores.file)
            && FileWritesIn(told) == FileWritesIn(g)
  {
    hide Filed, Outlasts, AccountOf;
    var told := Quiet(w, g, Record.Terminal(id, cls, g.actions[id].after, details));
    SparedQuiet(w, g, Record.Terminal(id, cls, g.actions[id].after, details));
    FiledLess(told, Landed(told, id, cls, details));
  }

  lemma SoundLinked(g: Gate, id: nat)
    requires Sound(g) && id in g.actions
    ensures id in Replay(g.stores.entries).actions && Linked(g.actions[id], Replay(g.stores.entries).actions[id])
  {
  }

  lemma InFlightUnsealed(g: Gate, id: nat)
    requires Sound(g) && id in g.actions && g.actions[id].status != Status.Terminal
    ensures !g.actions[id].sealed
  {
    SoundLinked(g, id);
  }

  lemma LandedSound(w: World, g: Gate, id: nat, cls: Classification, details: TerminalDetails)
    requires Sound(g) && LastsNext(w, g.stores) && MayConclude(cls, details)
    requires id in g.actions && g.actions[id].status == Status.Consumed
    ensures var h := Landed(Quiet(w, g, Record.Terminal(id, cls, g.actions[id].after, details)), id, cls, details);
            Sound(h) && ForwardedIn(h) == ForwardedIn(g) && WritesIn(h) == WritesIn(g) && BindsIn(h) == BindsIn(g)
              && FileWritesIn(h) == FileWritesIn(g) && Outlasts(g, h.stores.file) && (Traced(g) ==> Traced(h))
  {
    hide ReplayLinked, Shaped, StampsCurrent, AccountAgrees, IsLawful, RecordLawful, Replay, Derive, AccountOf,
         ReplayWrites, Quench, Filed, Outlasts;
    InFlightUnsealed(g, id);
    var s := g.stores.entries;
    var record := Record.Terminal(id, cls, g.actions[id].after, details);
    var h := Landed(Quiet(w, g, record), id, cls, details);
    var t := h.stores.entries;
    AppendedFolds(w, g.stores, record);
    LawfulAppended(w, g.stores, record);
    LandingKeeps(g, Replay(s), Derive(s), AccountOf(s), id, cls, details);
    SameCore(Landed(g, id, cls, details), h, Replay(t), Derive(t), AccountOf(t));
    LandedEvidence(g, h, Replay(s), id);
    LandedFiled(w, g, id, cls, details);
    LastingParts(w, g.stores, record);
  }

  lemma LandedKept(w: World, g: Gate, id: nat, cls: Classification, details: TerminalDetails)
    requires Sound(g) && LastsNext(w, g.stores) && MayConclude(cls, details)
    requires id in g.actions && g.actions[id].status == Status.Consumed
    ensures Kept(g, Landed(Quiet(w, g, Record.Terminal(id, cls, g.actions[id].after, details)), id, cls, details))
  {
    hide Sound, Outlasts, ForwardedIn, WritesIn, FileWritesIn, BindsIn, Traced;
    LandedSound(w, g, id, cls, details);
  }

  lemma GivenUpFiled(g: Gate, id: nat)
    requires Filed(g) && id in g.actions && g.actions[id].status == Status.Consumed && !g.actions[id].sealed
    ensures Filed(Conclusion(g, id, IoAmbiguous, None))
  {
    hide Filed, AccountOf;
    FiledLess(g, Conclusion(g, id, IoAmbiguous, None));
  }

  /** Giving an action up needs no record: the restart would conclude the same. */
  lemma GivenUpKept(g: Gate, id: nat)
    requires Sound(g) && id in g.actions && g.actions[id].status == Status.Consumed
    ensures var h := Conclusion(g, id, IoAmbiguous, None); Kept(g, h) && h.state == Held && Traced(h)
  {
    hide SoundOn, IsLawful, Muted, Quench, Filed, Outlasts, Replay, Derive, AccountOf;
    InFlightUnsealed(g, id);
    NothingMuted(g);
    NothingOutlasts(g);
    var s := g.stores.entries;
    GivenUpFiled(g, id);
    GivingUpKeeps(g, Replay(s), Derive(s), AccountOf(s), id);
  }

  /** A TERMINAL record that failed: the action is ambiguous and the generation held. */
  lemma LostKept(w: World, g: Gate, id: nat, record: Record)
    requires Sound(g) && !LastsNext(w, g.stores) && id in g.actions && g.actions[id].status == Status.Consumed
    requires record.Terminal? && record.actionId == id
    ensures var told := Journalled(w, g, record); id in told.actions && Kept(g, Conclusion(told, id, IoAmbiguous, None))
  {
    hide Sound, Onward, Traced, Journalled, Conclusion, ForwardedIn, WritesIn, FileWritesIn, BindsIn;
    var told := Journalled(w, g, record);
    InFlightUnsealed(g, id);
    SoundFiled(g);
    SparedFileable(g, record);
    FailedKept(w, g, record);
    assert Later(g.actions[id], told.actions[id]);
    GivenUpKept(told, id);
    KeptComposes(g, told, Conclusion(told, id, IoAmbiguous, None));
  }

  lemma UpstreamKept(w: World, g: Gate, conn: string, response: Option<UpstreamResponse>)
    requires Sound(g)
    ensures var o := UpstreamOn(w, g, conn, response); o.Handled? ==> Kept(g, o.gate) && !o.output.Forward?
  {
    hide Sound, Onward, Traced, Conclusion, FailStorage, ForwardedIn, WritesIn, FileWritesIn, BindsIn, Moved;
    var o := UpstreamOn(w, g, conn, response);
    if o.Handled? {
      var id := Least(ForwardedOn(g.actions, conn, false));
      var action := g.actions[id];
      if action.status == Status.Terminal {
        JournalledKept(w, g, Record.LateUpstream(id));
      } else {
        var (cls, details) := Classify(action.armed, response);
        var record := Record.Terminal(id, cls, action.after, details);
        var h := if LastsNext(w, g.stores) then Landed(Quiet(w, g, record), id, cls, details)
                 else Conclusion(Journalled(w, g, record), id, IoAmbiguous, None);
        if LastsNext(w, g.stores) { LandedKept(w, g, id, cls, details); } else { LostKept(w, g, id, record); }
        KeptSound(g, h);
        ClosedOneKept(h, conn);
        KeptComposes(g, h, h.(connections := CloseOne(h.connections, conn)));
      }
    }
  }

  lemma TimeoutKept(w: World, g: Gate, conn: string)
    requires Sound(g)
    ensures var o := TimeoutOn(w, g, conn); o.Handled? ==> Kept(g, o.gate) && !o.output.Forward?
  {
    hide Sound, Onward, Traced, FailStorage, ForwardedIn, WritesIn, FileWritesIn, BindsIn, Moved;
    var o := TimeoutOn(w, g, conn);
    if o.Handled? {
      var id := Least(ForwardedOn(g.actions, conn, true));
      var record := Record.Terminal(id, IoAmbiguous, g.actions[id].after, Aborted);
      var h := Conclusion(Journalled(w, g, record), id, IoAmbiguous, None);
      if LastsNext(w, g.stores) {
        LandedKept(w, g, id, IoAmbiguous, Aborted);
        assert h == Landed(Quiet(w, g, record), id, IoAmbiguous, Aborted);
      } else { LostKept(w, g, id, record); }
      KeptSound(g, h);
      ClosedOneKept(h, conn);
      KeptComposes(g, h, h.(connections := CloseOne(h.connections, conn)));
    }
  }

  // ---------------------------------------------------------------------------------------------- frame operations

  lemma BoundKept(c: Config, w: World, g: Gate, p: BindRequest)
    requires Sound(g) && LastsNext(w, g.stores) && g.state == Active && AllSettled(g.actions)
    requires p.executionId !in g.boundIds && p.runNonce in c.runs
    ensures var h := BindIn(Quiet(w, g, BindRecord(c, p)), p);
            Carries(g, h) && BindsIn(h) == BindsIn(g) + [BindRecord(c, p)]
  {
    hide SoundOn, Filed, Fileable, Outlasts, Replay, Derive, AccountOf, Quench, ReplayWrites, IsLawful;
    var s := g.stores.entries;
    var h := BindIn(Quiet(w, g, BindRecord(c, p)), p);
    var t := h.stores.entries;
    AppendedFolds(w, g.stores, BindRecord(c, p));
    LawfulAppended(w, g.stores, BindRecord(c, p));
    BindFileable(c, g, p);
    QuietOutlasts(w, g, BindRecord(c, p));
    QuietFileWrites(w, g, BindRecord(c, p));
    BindingKeeps(c, g, Replay(s), Derive(s), AccountOf(s), p);
    SameCore(BindIn(g, p), h, Replay(t), Derive(t), AccountOf(t));
    FiledUnparted(h);
  }

  lemma BindsOne(c: Config, p: BindRequest)
    requires p.runNonce in c.runs
    ensures BindRecord(c, p).Bind?
  {
  }

  lemma BindKept(c: Config, w: World, g: Gate, p: BindRequest, observed: bool)
    requires Sound(g)
    ensures var h := BindOn(c, w, g, p, observed).0; Carries(g, h) && BindsStep(c, g, h)
  {
    hide Sound, Onward, Traced, Journalled, BindIn, BindRecord, ForwardedIn, WritesIn, FileWritesIn, BindsIn;
    if BindCheck(c, g, p, observed).Some? {
      KeptRefl(g);
    } else if LastsNext(w, g.stores) {
      BoundKept(c, w, g, p);
    } else {
      BindFileable(c, g, p);
      assert BindRecord(c, p).Bind? by { BindsOne(c, p); }
      FailedKept(w, g, BindRecord(c, p));
    }
  }

  lemma FlushedKept(g: Gate)
    requires Sound(g)
    ensures Kept(g, Flushed(g))
    ensures forall k | k in Flushed(g).connections ::
              Flushed(g).connections[k].open ==> Flushed(g).connections[k].consumed
  {
    FlushStamps(g);
    ReconnectedKept(g, Flushed(g).connections, []);
  }

  lemma FreshId(g: Gate, p: ArmRequest)
    requires Sound(g) && MayArm(g, p)
    ensures p.actionId !in g.actions
  {
    hide ReplayLinked, StampsCurrent, AccountAgrees, DerivationAgrees;
  }

  lemma ArmedSound(c: Config, w: World, g: Gate, p: ArmRequest)
    requires Sound(g) && LastsNext(w, g.stores) && MayArm(g, p)
    requires forall k | k in g.connections :: g.connections[k].open ==> g.connections[k].consumed
    ensures var h := ArmIn(Quiet(w, g, ArmRecord(c, p)), p);
            Sound(h) && ForwardedIn(h) == ForwardedIn(g) && WritesIn(h) == WritesIn(g) && BindsIn(h) == BindsIn(g)
            && FileWritesIn(h) == FileWritesIn(g) && Outlasts(g, h.stores.file)
  {
    hide SoundOn, IsLawful, RecordLawful, Filed, Fileable, Outlasts, Replay, Derive, AccountOf, Quench, ReplayWrites,
         KeyOf;
    FreshId(g, p);
    var s := g.stores.entries;
    var h := ArmIn(Quiet(w, g, ArmRecord(c, p)), p);
    var t := h.stores.entries;
    AppendedFolds(w, g.stores, ArmRecord(c, p));
    LawfulAppended(w, g.stores, ArmRecord(c, p));
    ArmFileable(g, c, p);
    QuietOutlasts(w, g, ArmRecord(c, p));
    QuietFileWrites(w, g, ArmRecord(c, p));
    ArmingKeeps(g, Replay(s), Derive(s), AccountOf(s), c, p);
    SameCore(ArmIn(g, p), h, Replay(t), Derive(t), AccountOf(t));
    FiledUnparted(h);
  }

  lemma ArmedKept(c: Config, w: World, g: Gate, p: ArmRequest)
    requires Sound(g) && LastsNext(w, g.stores) && MayArm(g, p)
    requires forall k | k in g.connections :: g.connections[k].open ==> g.connections[k].consumed
    ensures Kept(g, ArmIn(Quiet(w, g, ArmRecord(c, p)), p))
  {
    hide Sound, Outlasts, ForwardedIn, WritesIn, FileWritesIn, BindsIn, ArmRecord;
    ArmedSound(c, w, g, p);
    FreshId(g, p);
  }

  lemma ArmsOne(c: Config, p: ArmRequest)
    ensures ArmRecord(c, p).Arm?
  {
  }

  lemma ArmKept(c: Config, w: World, g: Gate, p: ArmRequest)
    requires Sound(g)
    ensures Kept(g, ArmOn(c, w, g, p).0)
  {
    hide Sound, Onward, Traced, Journalled, ArmIn, ArmRecord, Flush, ForwardedIn, WritesIn, FileWritesIn, BindsIn;
    KeptRefl(g);
    if ArmCheck(c, g, p).None? {
      var flushed := Flushed(g);
      FlushedKept(g);
      if LastsNext(w, g.stores) {
        ArmedKept(c, w, flushed, p);
        KeptComposes(g, flushed, ArmIn(Quiet(w, flushed, ArmRecord(c, p)), p));
      } else {
        KeptSound(g, flushed);
        FreshId(flushed, p);
        ArmFileable(flushed, c, p);
        assert ArmRecord(c, p).Arm? by { ArmsOne(c, p); }
        FailedKept(w, flushed, ArmRecord(c, p));
        KeptComposes(g, flushed, Journalled(w, flushed, ArmRecord(c, p)));
      }
    }
  }

  lemma FrozenKept(g: Gate, id: nat)
    requires Sound(g) && id in g.actions && !g.actions[id].sealed
    ensures var h := Freeze(g, id);
            Kept(g, h) && id in h.actions && h.actions[id].status == Status.Terminal
              && h.actions[id].classification.Some?
  {
    hide SoundOn, Onward;
    var action := g.actions[id];
    assert Linked(action, Replay(g.stores.entries).actions[id]) by { SoundLinked(g, id); }
    match action.status
    case Armed =>
      DenyKeeps(g, id);
      AftermathOfDeny(g, id);
      KeptOfAftermath(g, Deny(g, id));
    case Consumed =>
      var cut := g.(connections := if action.conn.Some? then CloseOne(g.connections, action.conn.value)
                    else g.connections);
      if action.conn.Some? { ClosedOneKept(g, action.conn.value); } else { KeptRefl(g); }
      GivenUpKept(cut, id);
      KeptComposes(g, cut, Conclusion(cut, id, IoAmbiguous, None));
    case Terminal => KeptRefl(g);
  }

  lemma DeniedClean(g: Gate, id: nat)
    requires Sound(g) && id in g.actions
    ensures g.actions[id].classification == Some(NotForwarded) ==> !g.actions[id].after
  {
    SoundLinked(g, id);
  }

  lemma SealedFiled(w: World, g: Gate, id: nat)
    requires Filed(g) && LastsNext(w, g.stores) && id in g.actions && !g.actions[id].sealed
    requires g.actions[id].status == Status.Terminal && g.actions[id].classification.Some?
    requires g.actions[id].classification == Some(NotForwarded) ==> !g.actions[id].after
    ensures var told := Quiet(w, g, SealRecord(g, id));
            && Filed(Sealing(told, id)) && Outlasts(g, told.stores.file) && FileWritesIn(told) == FileWritesIn(g)
  {
    hide Replay, Derive, AccountOf, Quench, ReplayWrites, Outlasts;
    SparedQuiet(w, g, SealRecord(g, id));
    LeftFolds(w, g.stores, SealRecord(g, id));
    Folded(g.stores.file, Rec(SealRecord(g, id)));
  }

  lemma SealedSound(w: World, g: Gate, id: nat)
    requires Sound(g) && LastsNext(w, g.stores) && id in g.actions && !g.actions[id].sealed
    requires g.actions[id].status == Status.Terminal && g.actions[id].classification.Some?
    ensures var h := Sealing(Quiet(w, g, SealRecord(g, id)), id);
            Sound(h) && ForwardedIn(h) == ForwardedIn(g) && WritesIn(h) == WritesIn(g) && BindsIn(h) == BindsIn(g)
              && FileWritesIn(h) == FileWritesIn(g) && Outlasts(g, h.stores.file) && (Traced(g) ==> Traced(h))
  {
    hide SoundOn, IsLawful, RecordLawful, Filed, Outlasts, Replay, Derive, AccountOf, Quench, ReplayWrites, Linked;
    DeniedClean(g, id);
    var s := g.stores.entries;
    var h := Sealing(Quiet(w, g, SealRecord(g, id)), id);
    var t := h.stores.entries;
    AppendedFolds(w, g.stores, SealRecord(g, id));
    LawfulAppended(w, g.stores, SealRecord(g, id));
    SealingKeeps(g, Replay(s), Derive(s), AccountOf(s), id);
    SameCore(Sealing(g, id), h, Replay(t), Derive(t), AccountOf(t));
    SealedFiled(w, g, id);
    LastingParts(w, g.stores, SealRecord(g, id));
    if other :| other in g.actions && g.actions[other].classification == Some(IoAmbiguous) {
      assert h.actions[other].classification == Some(IoAmbiguous);
    }
  }

  lemma SealedKept(w: World, g: Gate, id: nat)
    requires Sound(g) && LastsNext(w, g.stores) && id in g.actions && !g.actions[id].sealed
    requires g.actions[id].status == Status.Terminal && g.actions[id].classification.Some?
    ensures Kept(g, Sealing(Quiet(w, g, SealRecord(g, id)), id))
  {
    hide Sound, Outlasts, ForwardedIn, WritesIn, FileWritesIn, BindsIn, Traced;
    SealedSound(w, g, id);
  }

  lemma FreezeFrame(g: Gate, id: nat)
    requires id in g.actions
    ensures var h := Freeze(g, id);
            id in h.actions && h.actions[id].sealed == g.actions[id].sealed && h.stores == g.stores
  {
  }

  lemma OutcomeKept(w: World, g: Gate, executionId: string, id: nat)
    requires Sound(g)
    ensures Kept(g, OutcomeOn(w, g, executionId, id).0)
  {
    hide Sound, Onward, Traced, Journalled, Freeze, ForwardedIn, WritesIn, FileWritesIn, BindsIn, Moved;
    KeptRefl(g);
    if g.bound.Some? && g.bound.value.executionId == executionId && id in g.actions && !g.actions[id].sealed {
      var frozen := Freeze(g, id);
      FrozenKept(g, id);
      KeptSound(g, frozen);
      assert !frozen.actions[id].sealed && frozen.stores == g.stores by { FreezeFrame(g, id); }
      if LastsNext(w, g.stores) {
        SealedKept(w, frozen, id);
        KeptComposes(g, frozen, Sealing(Quiet(w, frozen, SealRecord(frozen, id)), id));
      } else {
        SoundFiled(frozen);
        SparedFileable(frozen, SealRecord(frozen, id));
        FailedKept(w, frozen, SealRecord(frozen, id));
        KeptComposes(g, frozen, Journalled(w, frozen, SealRecord(frozen, id)));
      }
    }
  }

  lemma ReconciledKept(w: World, g: Gate, reason: CloseReason)
    requires Sound(g) && (g.state == State.Closed || g.state == State.Invalidated)
    ensures Kept(g, Journalled(w, g.(state := Held), Record.Invalidated(ByClose(reason), Held)))
  {
    hide ReplayLinked, StampsCurrent, AccountAgrees, Onward, Traced, Journalled;
    HeldMoved(g);
    StateRecordKept(w, g, g.(state := Held), Record.Invalidated(ByClose(reason), Held));
  }

  lemma NormallyClosedKept(w: World, g: Gate)
    requires Sound(g) && !InFlight(g) && (g.state == Active || g.state == Inspecting || g.state == Draining)
    ensures !AnyAmbiguous(g.actions)
    ensures Kept(g, Journalled(w, g.(state := State.Closed), Record.Closed(NormalDrain, State.Closed)))
  {
    hide ReplayLinked, StampsCurrent, AccountAgrees, Onward, Traced, Journalled;
    assert forall id | id in g.actions :: id !in WithStatus(g.actions, Status.Consumed);
    LeftMoved(g, State.Closed);
    StateRecordKept(w, g, g.(state := State.Closed), Record.Closed(NormalDrain, State.Closed));
  }

  lemma CloseKept(w: World, g: Gate, reason: CloseReason)
    requires Sound(g)
    ensures Kept(g, CloseOn(w, g, reason).0)
  {
    hide Sound, Onward, Traced, Journalled, DenyArmed, Urgent, ForwardedIn, WritesIn, FileWritesIn, BindsIn, Moved,
         InFlight, AnyAmbiguous;
    KeptRefl(g);
    if g.state == State.Closed || g.state == State.Invalidated || g.state == Held {
      var told :=
        if reason == ReconciliationRequired && g.state != Held
        then Journalled(w, g.(state := Held), Record.Invalidated(ByClose(reason), Held)) else g;
      if reason == ReconciliationRequired && g.state != Held { ReconciledKept(w, g, reason); }
      KeptSound(g, told);
      DenyArmedKept(w, told);
      KeptComposes(g, told, DenyArmed(w, told));
    } else if reason == NormalDrain {
      if !InFlight(g) {
        NormallyClosedKept(w, g);
        var told := Journalled(w, g.(state := State.Closed), Record.Closed(reason, State.Closed));
        KeptSound(g, told);
        DenyArmedKept(w, told);
        KeptComposes(g, told, DenyArmed(w, told));
      }
    } else {
      UrgentKept(w, g, if reason == ReconciliationRequired then Held else State.Invalidated, ByClose(reason));
    }
  }
}
