/** What every operation keeps of any gate whatever, sound or not: a generation that is not ACTIVE stays so, a shut
    channel stays shut, and only BIND_EXECUTION adds a BIND record, to the journal or to its file. A process that came
    up on a file its predecessor left is such a gate, whatever the file holds. */
module Drift {
  import opened Vocabulary
  import opened Journal
  import opened GateModel
  import opened WriteReplay
  import opened GateInvariant
  import opened GateEvents
  import opened PolicyModel

  /** The BIND records a scan of the file would find. */
  ghost function FileBinds(g: Gate): seq<Record> {
    AccountOf(g.stores.file).binds
  }

  ghost predicate Drifts(g: Gate, h: Gate) {
    && (g.state != Active ==> h.state != Active) && (g.channel == Shut ==> h.channel == Shut)
    && BindsIn(h) == BindsIn(g) && FileBinds(h) == FileBinds(g)
  }

  /** The BIND records of journal and file stay, or both grow by one that passed every check, or the file alone does and
      the generation is held. */
  ghost predicate BindsBoth(c: Config, g: Gate, h: Gate) {
    || (BindsIn(h) == BindsIn(g) && FileBinds(h) == FileBinds(g))
    || exists p: BindRequest, observed: bool ::
         && BindCheck(c, g, p, observed).None? && p.runNonce in c.runs
         && FileBinds(h) == FileBinds(g) + [BindRecord(c, p)]
         && (BindsIn(h) == BindsIn(g) + [BindRecord(c, p)] || (BindsIn(h) == BindsIn(g) && h.state == Held))
  }

  // ---------------------------------------------------------------------------------------------- appends

  lemma AddedBinds(entries: seq<Entry>, added: seq<Entry>, record: Record)
    requires !record.Bind? && (added == [] || added == [Rec(record)] || added == [Torn])
    ensures AccountOf(entries + added).binds == AccountOf(entries).binds
  {
    hide AccountOf;
    if added == [] {
      assert entries + added == entries;
    } else {
      Folded(entries, added[0]);
      assert added == [added[0]];
    }
  }

  lemma AppendBinds(w: World, s: Stores, record: Record)
    requires !record.Bind?
    ensures AccountOf(Append(w, s, record).entries).binds == AccountOf(s.entries).binds
    ensures AccountOf(Append(w, s, record).file).binds == AccountOf(s.file).binds
  {
    hide AccountOf;
    AddedBinds(s.entries, Added(w.append(s.appends), record), record);
    AddedBinds(s.file, Left(w, s.appends, record), record);
  }

  lemma QuietDrifts(w: World, g: Gate, record: Record)
    requires !record.Bind?
    ensures Drifts(g, Quiet(w, g, record))
  {
    hide AccountOf;
    AppendBinds(w, g.stores, record);
  }

  lemma {:induction false} DenyQuietlyDrifts(w: World, g: Gate)
    ensures Drifts(g, DenyQuietly(w, g)) && DenyQuietly(w, g).state == g.state
    decreases WithStatus(g.actions, Armed)
  {
    hide AccountOf;
    var armed := WithStatus(g.actions, Armed);
    if armed != {} {
      var id := Least(armed);
      var told := Quiet(w, Deny(g, id), Record.Denied(id));
      assert WithStatus(told.actions, Armed) == armed - {id};
      QuietDrifts(w, Deny(g, id), Record.Denied(id));
      DenyQuietlyDrifts(w, told);
    }
  }

  /** The storage-failure path appends no BIND record, whichever append it runs for. */
  lemma FailStorageDrifts(w: World, g: Gate)
    ensures Drifts(g, FailStorage(w, g)) && FailStorage(w, g).state == Held
  {
    hide AccountOf, DenyQuietly, Replay, MarkInFlight;
    var held := g.(state := Held, actions := MarkInFlight(g.actions), stores := WriteMarker(w, g.stores));
    QuietDrifts(w, held, Record.Invalidated(ByClose(CloseReason.StorageFailure), Held));
    DenyQuietlyDrifts(w, HoldFirst(w, g));
  }

  lemma JournalledDrifts(w: World, g: Gate, record: Record)
    requires !record.Bind?
    ensures Drifts(g, Journalled(w, g, record))
    ensures g.state == Held ==> Journalled(w, g, record).state == Held
  {
    hide AccountOf, FailStorage;
    QuietDrifts(w, g, record);
    FailStorageDrifts(w, Quiet(w, g, record));
  }

  lemma {:induction false} DenyArmedDrifts(w: World, g: Gate)
    ensures Drifts(g, DenyArmed(w, g)) && (g.state == Held ==> DenyArmed(w, g).state == Held)
    decreases WithStatus(g.actions, Armed)
  {
    hide AccountOf, Journalled;
    var armed := WithStatus(g.actions, Armed);
    if armed != {} {
      var id := Least(armed);
      var told := Journalled(w, Deny(g, id), Record.Denied(id));
      assert WithStatus(Deny(g, id).actions, Armed) == armed - {id};
      assert WithStatus(told.actions, Armed) < armed;
      JournalledDrifts(w, Deny(g, id), Record.Denied(id));
      DenyArmedDrifts(w, told);
    }
  }

  // ---------------------------------------------------------------------------------------------- closes and drains

  lemma UrgentDrifts(w: World, g: Gate, state: State, reason: Invalidation)
    requires state != Active
    ensures Drifts(g, Urgent(w, g, state, reason)) && (g.state == Held ==> Urgent(w, g, state, reason).state == Held)
  {
    hide AccountOf, Journalled, DenyArmed, MarkInFlight;
    var toward := if g.state != Held then state else Held;
    var marked := g.(state := toward, actions := MarkInFlight(g.actions));
    JournalledDrifts(w, marked, Record.Invalidated(reason, toward));
    DenyArmedDrifts(w, Journalled(w, marked, Record.Invalidated(reason, toward)));
  }

  lemma FatalDrifts(w: World, g: Gate, reason: FatalReason)
    ensures Drifts(g, FatalClose(w, g, reason)) && FatalClose(w, g, reason).state == Held
  {
    hide AccountOf, Urgent;
    UrgentDrifts(w, g.(channel := Shut), Held, ByFatal(reason));
  }

  lemma SettleDrainDrifts(w: World, g: Gate)
    ensures Drifts(g, SettleDrain(w, g).0) && (g.state == Held ==> SettleDrain(w, g).0.state == Held)
  {
    hide AccountOf, Journalled, AnyAmbiguous;
    var ready :=
      if g.state == Draining && !InFlight(g) then g.(state := if AnyAmbiguous(g.actions) then Held else State.Closed)
        else g;
    JournalledDrifts(w, ready.(drainPending := false), Record.Drained(ready.state));
  }

  lemma DrainDrifts(w: World, g: Gate)
    ensures Drifts(g, DrainOn(w, g).0)
  {
    hide AccountOf, Journalled, DenyArmed, SettleDrain, DeniedSince;
    var toward := if g.state == Active || g.state == Inspecting then g.(state := Draining) else g;
    JournalledDrifts(w, toward.(drainPending := true), Record.DrainStarted);
    var started := if g.drainPending then toward else Journalled(w, toward.(drainPending := true), Record.DrainStarted);
    DenyArmedDrifts(w, started);
    SettleDrainDrifts(w, DenyArmed(w, started));
  }

  lemma ExpireDrifts(w: World, g: Gate)
    ensures Drifts(g, ExpireOn(w, g).0)
  {
    hide AccountOf, Journalled, DenyArmed, MarkInFlight, DeniedSince;
    if g.bound.Some? {
      var marked := g.(expired := true, actions := MarkInFlight(g.actions));
      JournalledDrifts(w, marked, Record.Expired(g.bound.value.executionId));
      DenyArmedDrifts(w, Journalled(w, marked, Record.Expired(g.bound.value.executionId)));
    }
  }

  // ------------------------------------------------------------------------------------------ connections and upstream

  lemma AdmitsActive(c: Config, g: Gate, connection: Connection, certificate: string, head: string,
                     bodyDigest: Option<string>)
    ensures Admit(c, g, connection, certificate, head, bodyDigest).Admitted? ==>
              g.state == Active && g.channel == Opened
  {
  }

  lemma RequestDrifts(c: Config, w: World, g: Gate, conn: string, certificate: string, head: string,
                      bodyDigest: Option<string>)
    ensures var o := RequestOn(c, w, g, conn, certificate, head, bodyDigest);
            o.Handled? ==> Drifts(g, o.gate) && (g.state != Active || g.channel == Shut ==> !o.output.Forward?)
  {
    hide AccountOf, Journalled, CloseStamped, Admit;
    if conn in g.connections {
      var asked :=
          g.(connections := g.connections[conn := g.connections[conn].(requests := g.connections[conn].requests + 1)]);
      AdmitsActive(c, asked, asked.connections[conn], certificate, head, bodyDigest);
      forall id
        ensures Drifts(asked, Journalled(w, asked, Record.Consumed(id)))
                && Drifts(asked, Quiet(w, asked, Record.Consumed(id)))
      {
        JournalledDrifts(w, asked, Record.Consumed(id));
        QuietDrifts(w, asked, Record.Consumed(id));
      }
    }
  }

  lemma DriftsOn(g: Gate, h: Gate, k: Gate)
    requires Drifts(g, h) && Drifts(h, k)
    ensures Drifts(g, k)
  {
  }

  lemma ConclusionDrifts(g: Gate, id: nat, classification: Classification, delivered: Option<TerminalDetails>)
    requires id in g.actions
    ensures Drifts(g, Conclusion(g, id, classification, delivered))
  {
    hide AccountOf;
  }

  lemma ForwardedAreActions(actions: Actions, conn: string, consumedOnly: bool)
    ensures forall id | id in ForwardedOn(actions, conn, consumedOnly) :: id in actions
  {
  }

  lemma LandedDrifts(g: Gate, told: Gate, conn: string, created: set<(string, string)>)
    requires Drifts(g, told)
    ensures Drifts(g, told.(connections := CloseOne(told.connections, conn)))
    ensures var remembered := told.(createdUids := told.createdUids + created);
            Drifts(g, remembered.(connections := CloseOne(remembered.connections, conn)))
  {
    hide CloseOne, AccountOf;
  }

  lemma UpstreamDrifts(w: World, g: Gate, conn: string, response: Option<UpstreamResponse>)
    ensures var o := UpstreamOn(w, g, conn, response); o.Handled? ==> Drifts(g, o.gate) && !o.output.Forward?
  {
    hide AccountOf, Drifts, Journalled, Classify, Conclusion, CreatedBy, CloseOne, ForwardedOn;
    ForwardedAreActions(g.actions, conn, false);
    var ids := ForwardedOn(g.actions, conn, false);
    if ids != {} {
      var id := Least(ids);
      var (classification, details) := Classify(g.actions[id].armed, response);
      var told := Journalled(w, g, Record.Terminal(id, classification, g.actions[id].after, details));
      JournalledDrifts(w, g, Record.LateUpstream(id));
      JournalledDrifts(w, g, Record.Terminal(id, classification, g.actions[id].after, details));
      var delivered := if details.Delivered? then Some(details) else None;
      ConclusionDrifts(told, id, classification, delivered);
      ConclusionDrifts(told, id, IoAmbiguous, None);
      DriftsOn(g, told, Conclusion(told, id, classification, delivered));
      DriftsOn(g, told, Conclusion(told, id, IoAmbiguous, None));
      LandedDrifts(g, Conclusion(told, id, classification, delivered), conn, CreatedBy(g.actions[id].armed, details));
      LandedDrifts(g, Conclusion(told, id, IoAmbiguous, None), conn, {});
    }
  }

  lemma TimeoutDrifts(w: World, g: Gate, conn: string)
    ensures var o := TimeoutOn(w, g, conn); o.Handled? ==> Drifts(g, o.gate) && !o.output.Forward?
  {
    hide AccountOf, Journalled, Conclusion, CloseOne, ForwardedOn;
    ForwardedAreActions(g.actions, conn, true);
    var ids := ForwardedOn(g.actions, conn, true);
    if ids != {} {
      var id := Least(ids);
      var record := Record.Terminal(id, IoAmbiguous, g.actions[id].after, Aborted);
      JournalledDrifts(w, g, record);
      ConclusionDrifts(Journalled(w, g, record), id, IoAmbiguous, None);
    }
  }

  lemma LoseChannelDrifts(w: World, g: Gate)
    ensures Drifts(g, LoseChannel(w, g).0)
  {
    hide AccountOf, Journalled, FatalClose, IsOrderly;
    FatalDrifts(w, g, PeerLost);
    JournalledDrifts(w, g.(channel := Shut), Record.ChannelEnded(BeforeFirstFrame));
    JournalledDrifts(w, g.(channel := Shut), Record.ChannelEnded(Orderly));
  }

  lemma {:induction false} DenyPending(w: World, g: Gate)
    ensures DenyQuietly(w, g).drainPending == g.drainPending
    decreases WithStatus(g.actions, Armed)
  {
    var armed := WithStatus(g.actions, Armed);
    if armed != {} {
      var told := Quiet(w, Deny(g, Least(armed)), Record.Denied(Least(armed)));
      assert WithStatus(told.actions, Armed) == armed - {Least(armed)};
      DenyPending(w, told);
    }
  }

  lemma QuietPending(w: World, g: Gate, record: Record)
    ensures Journalled(w, g, record).drainPending == g.drainPending
  {
    hide DenyQuietly;
    DenyPending(w, HoldFirst(w, Quiet(w, g, record)));
  }

  /** A restart is never ACTIVE and shuts the channel, whatever journal it runs on. */
  lemma RestartDrifts(w: World, g: Gate, floor: bool)
    ensures var h := RestartWith(w, g, floor); Drifts(g, h) && h.state != Active && h.channel == Shut && !h.drainPending
  {
    hide AccountOf, Replay, Conclude, CloseAll, FailStorage, IsClean;
    var state := if floor then Held else RebuiltState(g.stores);
    var quiet := g.(actions := Conclude(Replay(g.stores.entries).actions), state := state,
                    connections := CloseAll(g.connections), backlog := [], channel := Shut, drainPending := false);
    JournalledDrifts(w, quiet, Record.Restarted(state));
    QuietPending(w, quiet, Record.Restarted(state));
  }

  // ---------------------------------------------------------------------------------------------- frames

  lemma BindRecorded(w: World, s: Stores, record: Record)
    requires record.Bind?
    ensures var t := Append(w, s, record);
            && AccountOf(t.entries).binds == AccountOf(s.entries).binds + (if LastsNext(w, s) then [record] else [])
            && (AccountOf(t.file).binds == AccountOf(s.file).binds
                || AccountOf(t.file).binds == AccountOf(s.file).binds + [record])
            && (LastsNext(w, s) ==> AccountOf(t.file).binds == AccountOf(s.file).binds + [record])
  {
    hide AccountOf;
    Folded(s.entries, Rec(record));
    Folded(s.entries, Torn);
    Folded(s.file, Rec(record));
    Folded(s.file, Torn);
    assert s.entries + [] == s.entries && s.file + [] == s.file;
  }

  lemma {:induction false} DenyQuietlyChannel(w: World, g: Gate)
    ensures DenyQuietly(w, g).channel == g.channel
    decreases WithStatus(g.actions, Armed)
  {
    var armed := WithStatus(g.actions, Armed);
    if armed != {} {
      var told := Quiet(w, Deny(g, Least(armed)), Record.Denied(Least(armed)));
      assert WithStatus(told.actions, Armed) == armed - {Least(armed)};
      DenyQuietlyChannel(w, told);
    }
  }

  lemma FailStorageChannel(w: World, g: Gate)
    ensures FailStorage(w, g).channel == g.channel
  {
    hide DenyQuietly;
    DenyQuietlyChannel(w, HoldFirst(w, g));
  }

  /** BIND_EXECUTION, the one operation that binds. */
  lemma BindDrifts(c: Config, w: World, g: Gate, p: BindRequest, observed: bool)
    ensures var h := BindOn(c, w, g, p, observed).0;
            BindsBoth(c, g, h) && (g.state != Active ==> h == g) && h.channel == g.channel
              && (g.state == Held ==> h.state == Held)
  {
    hide FailStorage, AccountOf;
    if BindCheck(c, g, p, observed).None? {
      var record := BindRecord(c, p);
      var told := Quiet(w, g, record);
      BindRecorded(w, g.stores, record);
      if !LastsNext(w, g.stores) {
        FailStorageDrifts(w, told);
        FailStorageChannel(w, told);
      }
    }
  }

  lemma ArmDrifts(c: Config, w: World, g: Gate, p: ArmRequest)
    ensures Drifts(g, ArmOn(c, w, g, p).0)
  {
    hide AccountOf, Journalled, ArmCheck, Flush;
    JournalledDrifts(w, Flushed(g), ArmRecord(c, p));
    QuietDrifts(w, Flushed(g), ArmRecord(c, p));
  }

  lemma FreezeDrifts(g: Gate, id: nat)
    requires id in g.actions
    ensures Drifts(g, Freeze(g, id)) && id in Freeze(g, id).actions
  {
    hide AccountOf, CloseStamped;
  }

  lemma OutcomeDrifts(w: World, g: Gate, executionId: string, id: nat)
    ensures Drifts(g, OutcomeOn(w, g, executionId, id).0)
  {
    hide AccountOf, Journalled, Freeze;
    if id in g.actions {
      var frozen := Freeze(g, id);
      FreezeDrifts(g, id);
      var action := frozen.actions[id];
      var classification := if action.classification.Some? then action.classification.value else IoAmbiguous;
      JournalledDrifts(w, frozen, Record.Sealed(id, classification, action.after));
      QuietDrifts(w, frozen, Record.Sealed(id, classification, action.after));
    }
  }

  lemma CloseDrifts(w: World, g: Gate, reason: CloseReason)
    ensures Drifts(g, CloseOn(w, g, reason).0)
  {
    hide AccountOf, Journalled, DenyArmed, Urgent, DeniedSince, AnyAmbiguous, InFlight;
    var state := if AnyAmbiguous(g.actions) then Held else State.Closed;
    var held := g.(state := Held);
    var shut := g.(state := state);
    JournalledDrifts(w, held, Record.Invalidated(ByClose(reason), Held));
    JournalledDrifts(w, shut, Record.Closed(reason, state));
    DenyArmedDrifts(w, g);
    DenyArmedDrifts(w, Journalled(w, held, Record.Invalidated(ByClose(reason), Held)));
    DenyArmedDrifts(w, Journalled(w, shut, Record.Closed(reason, state)));
    UrgentDrifts(w, g, if reason == ReconciliationRequired then Held else State.Invalidated, ByClose(reason));
  }

  // ---------------------------------------------------------------------------------------------- events

  /** What an event keeps of any gate. */
  ghost predicate Wanders(c: Config, g: Gate, h: Gate) {
    (g.state != Active ==> h.state != Active) && (g.channel == Shut ==> h.channel == Shut) && BindsBoth(c, g, h)
  }

  lemma WandersByDrifting(c: Config, g: Gate, h: Gate)
    requires Drifts(g, h)
    ensures Wanders(c, g, h)
  {
  }

  lemma WandersOn(c: Config, g: Gate, h: Gate, k: Gate)
    requires Wanders(c, g, h) && Drifts(h, k) && (h.state == Held ==> k.state == Held)
    ensures Wanders(c, g, k)
  {
    hide BindCheck, BindRecord, BindsIn, FileBinds;
  }

  lemma SelfDrifts(g: Gate)
    ensures Drifts(g, g)
  {
  }

  lemma BindWanders(c: Config, w: World, g: Gate, p: BindRequest, observed: bool)
    ensures Wanders(c, g, BindOn(c, w, g, p, observed).0)
  {
    hide BindOn, BindsBoth;
    BindDrifts(c, w, g, p, observed);
  }

  lemma PerformWanders(c: Config, w: World, g: Gate, r: Request, observed: bool)
    ensures Wanders(c, g, Perform(c, w, g, r, observed).0)
  {
    hide Drifts, Wanders, BindOn, ArmOn, OutcomeOn, CloseOn, FatalClose, StatusOf;
    SelfDrifts(g);
    WandersByDrifting(c, g, g);
    match r
    case AskStatus =>
    case AskBind(p) =>
      BindWanders(c, w, g, p, observed);
      FatalDrifts(w, g, PeerQualificationMismatch);
      WandersByDrifting(c, g, FatalClose(w, g, PeerQualificationMismatch));
    case AskArm(p) => ArmDrifts(c, w, g, p); WandersByDrifting(c, g, ArmOn(c, w, g, p).0);
    case AskOutcome(e, id) => OutcomeDrifts(w, g, e, id); WandersByDrifting(c, g, OutcomeOn(w, g, e, id).0);
    case AskClose(reason) => CloseDrifts(w, g, reason); WandersByDrifting(c, g, CloseOn(w, g, reason).0);
  }

  /** Opening the channel and moving the chain change nothing the checks of BIND_EXECUTION read. */
  lemma WandersFrom(c: Config, g: Gate, open: Gate, h: Gate)
    requires open == g.(channel := open.channel, challenge := open.challenge) && open.channel != Shut
             && g.channel != Shut
    requires Wanders(c, open, h)
    ensures Wanders(c, g, h)
  {
    hide BindRecord;
    if !(BindsIn(h) == BindsIn(g) && FileBinds(h) == FileBinds(g)) {
      var p, observed :|
        && BindCheck(c, open, p, observed).None? && p.runNonce in c.runs
        && FileBinds(h) == FileBinds(open) + [BindRecord(c, p)]
        && (BindsIn(h) == BindsIn(open) + [BindRecord(c, p)] || (BindsIn(h) == BindsIn(open) && h.state == Held));
      assert BindCheck(c, g, p, observed).None?;
    }
  }

  lemma ChainDrifts(g: Gate, sequence: int, digest: string)
    ensures Drifts(g, g.(nextSequence := sequence, lastDigest := digest))
  {
  }

  lemma CheckedWanders(c: Config, w: World, g: Gate, f: Frame, observed: bool, fits: bool)
    requires g.channel != Shut
    ensures Wanders(c, g, CheckedFrame(c, w, g, f, observed, fits).0)
    ensures !CheckedFrame(c, w, g, f, observed, fits).1.Forward?
  {
    hide Drifts, Wanders, Perform, FatalClose;
    var open := if g.channel == Unopened then g.(channel := Opened, challenge := Some(f.challenge)) else g;
    FatalDrifts(w, open, InvalidFrame(F00));
    WandersByDrifting(c, open, FatalClose(w, open, InvalidFrame(F00)));
    WandersFrom(c, g, open, FatalClose(w, open, InvalidFrame(F00)));
    if f.payload.Ask? {
      var after := Perform(c, w, open, f.payload.request, observed).0;
      PerformWanders(c, w, open, f.payload.request, observed);
      WandersFrom(c, g, open, after);
      FatalDrifts(w, after, ResponseOutOfBounds);
      WandersOn(c, g, after, FatalClose(w, after, ResponseOutOfBounds));
      forall sequence, digest
        ensures Wanders(c, g, after.(nextSequence := sequence, lastDigest := digest))
      {
        ChainDrifts(after, sequence, digest);
        WandersOn(c, g, after, after.(nextSequence := sequence, lastDigest := digest));
      }
    }
  }

  lemma FrameWanders(c: Config, w: World, g: Gate, input: FrameInput, observed: bool, fits: bool)
    ensures Wanders(c, g, FrameOn(c, w, g, input, observed, fits).0)
    ensures !FrameOn(c, w, g, input, observed, fits).1.Forward?
  {
    hide Drifts, Wanders, CheckedFrame, FatalClose;
    SelfDrifts(g);
    WandersByDrifting(c, g, g);
    if g.channel != Shut {
      forall reason
        ensures Wanders(c, g, FatalClose(w, g, reason))
      {
        FatalDrifts(w, g, reason);
        WandersByDrifting(c, g, FatalClose(w, g, reason));
      }
      if input.Decoded? { CheckedWanders(c, w, g, input.frame, observed, fits); }
    }
  }

  lemma ConnectingDrifts(g: Gate, backlog: seq<string>, connections: Connections)
    ensures Drifts(g, g.(backlog := backlog, connections := connections))
  {
  }

  lemma LosesOnly(w: World, g: Gate)
    ensures !LoseChannel(w, g).1.Forward?
  {
    hide Journalled, FatalClose, IsOrderly;
  }

  lemma DispatchWanders(c: Config, w: World, g: Gate, event: Event)
    ensures var o := Dispatch(c, w, g, event);
            o.Handled? ==> Wanders(c, g, o.gate) && (Stopped(g) ==> !o.output.Forward?)
  {
    hide Drifts, Wanders, FrameOn, RequestOn, UpstreamOn, TimeoutOn, DrainOn, ExpireOn, LoseChannel, FatalClose,
         RestartWith;
    var o := Dispatch(c, w, g, event);
    SelfDrifts(g);
    match event {
      case FrameEvent(input, observed, fits) => FrameWanders(c, w, g, input, observed, fits);
      case Backlog(conn) => ConnectingDrifts(g, g.backlog + [conn], g.connections);
      case Accept(conn) => if o.Handled? { ConnectingDrifts(g, o.gate.backlog, o.gate.connections); }
      case Disconnect(conn) => if o.Handled? { ConnectingDrifts(g, o.gate.backlog, o.gate.connections); }
      case RequestEvent(conn, certificate, head, bodyDigest) =>
        RequestDrifts(c, w, g, conn, certificate, head, bodyDigest);
      case Responded(conn, response) => UpstreamDrifts(w, g, conn, Some(response));
      case UpstreamLost(conn) => UpstreamDrifts(w, g, conn, None);
      case UpstreamTimeout(conn) => TimeoutDrifts(w, g, conn);
      case DrainRequest => DrainDrifts(w, g);
      case Expire => ExpireDrifts(w, g);
      case ChannelLost => LoseChannelDrifts(w, g); LosesOnly(w, g);
      case PeerHasChanged => FatalDrifts(w, g, PeerChanged);
      case GateRestart => RestartDrifts(w, g, false);
      case LateAnswer => FatalDrifts(w, g, AnswerLate);
      case SecondChannel =>
    }
    if o.Handled? && !event.FrameEvent? { WandersByDrifting(c, g, o.gate); }
  }

  /** Every event of every gate. */
  lemma HandleWanders(c: Config, w: World, g: Gate, event: Event)
    ensures var o := Handle(c, w, g, event);
            o.Handled? ==> Wanders(c, g, o.gate) && (Stopped(g) ==> !o.output.Forward?)
  {
    hide Drifts, Wanders, Dispatch, SettleDrain;
    DispatchWanders(c, w, g, event);
    var o := Dispatch(c, w, g, event);
    if o.Handled? {
      SettleDrainDrifts(w, o.gate);
      WandersOn(c, g, o.gate, SettleDrain(w, o.gate).0);
    }
  }

  // ---------------------------------------------------------------------------------------------- the policy gate

  /** What the writer's operations keep of any policy gate: besides the gate, an ended maintenance stays ended and, once
      ended with nothing outstanding, nothing is ever outstanding again. */
  ghost predicate PolicyDrifts(p: Policy, q: Policy) {
    && Drifts(p.gate, q.gate)
    && (p.maintenance == MaintEnded ==> q.maintenance == MaintEnded)
    && (p.maintenance == MaintEnded && p.pending.None? ==> q.pending.None?)
  }

  lemma PolicyDriftsOn(p: Policy, q: Policy, r: Policy)
    requires PolicyDrifts(p, q) && PolicyDrifts(q, r)
    ensures PolicyDrifts(p, r)
  {
    hide BindsIn, FileBinds;
  }

  lemma PolicySelfDrifts(p: Policy)
    ensures PolicyDrifts(p, p)
  {
  }

  lemma ToldDrifts(w: World, p: Policy, record: Record)
    requires !record.Bind?
    ensures PolicyDrifts(p, Told(w, p, record))
  {
    hide Drifts, Journalled;
    JournalledDrifts(w, p.gate, record);
  }

  /** A change of the session or of what the drift does not read. */
  lemma RestDrifts(p: Policy, q: Policy)
    requires q.gate == p.gate && (p.maintenance == MaintEnded ==> q.maintenance == MaintEnded && q.pending == p.pending)
    ensures PolicyDrifts(p, q)
  {
    SelfDrifts(p.gate);
  }

  lemma HeldDrifts(g: Gate)
    ensures Drifts(g, g.(state := Held))
  {
  }

  lemma SettleMaintenanceDrifts(w: World, p: Policy)
    ensures PolicyDrifts(p, SettleMaintenance(w, p))
  {
    hide Drifts, Journalled, Fence;
    var open := OpenIfReady(w, p);
    SelfDrifts(p.gate);
    JournalledDrifts(w, p.gate, Record.MaintOpened(p.gate.state));
    SelfDrifts(open.gate);
    JournalledDrifts(w, open.gate, Record.MaintWasHeld(open.gate.state));
    PolicyDriftsOn(p, open, HoldIfHeld(w, open));
  }

  lemma EndMaintenanceDrifts(w: World, p: Policy, end: MaintenanceEnd)
    ensures PolicyDrifts(p, EndMaintenance(w, p, end))
  {
    hide Drifts, Journalled, AmbiguousIds;
    JournalledDrifts(w, p.gate, Record.MaintWasEnded(end, WriteCount(p.writes), AmbiguousIds(p.writes)));
  }

  lemma AbortPendingDrifts(w: World, p: Policy, reason: AbortReason)
    ensures PolicyDrifts(p, AbortPending(w, p, reason))
  {
    hide Drifts, Journalled;
    PolicySelfDrifts(p);
    if p.pending.Some? {
      var record := Record.WriteTerminal(p.pending.value.writeId, IoAmbiguous, WriteAborted(reason));
      JournalledDrifts(w, p.gate, record);
      HeldDrifts(Journalled(w, p.gate, record));
      DriftsOn(p.gate, Journalled(w, p.gate, record), Journalled(w, p.gate, record).(state := Held));
    }
  }

  lemma EndSessionDrifts(w: World, p: Policy, how: SessionEnd)
    ensures PolicyDrifts(p, EndSession(w, p, how))
  {
    hide PolicyDrifts, Told, EndMaintenance;
    var gone := p.(session := None);
    var over := Told(w, gone, Record.WriterSessionEnded(how));
    RestDrifts(p, gone);
    ToldDrifts(w, gone, Record.WriterSessionEnded(how));
    PolicyDriftsOn(p, gone, over);
    EndMaintenanceDrifts(w, over, BySession(how));
    PolicyDriftsOn(p, over, EndMaintenance(w, over, BySession(how)));
  }

  lemma FatalWriterDrifts(w: World, p: Policy, reason: WriterFatal)
    ensures PolicyDrifts(p, FatalWriter(w, p, reason).0)
  {
    hide PolicyDrifts, AbortPending, EndSession;
    var aborted := AbortPending(w, p, WriterProtocolFailure);
    AbortPendingDrifts(w, p, WriterProtocolFailure);
    EndSessionDrifts(w, aborted, SessionFatal);
    PolicyDriftsOn(p, aborted, EndSession(w, aborted, SessionFatal));
  }

  lemma BeginDrifts(c: PolicyConfig, w: World, p: Policy, expectedGeneration: string)
    ensures PolicyDrifts(p, BeginOn(c, w, p, expectedGeneration).0)
  {
    hide Drifts, Journalled, DrainOn, SettleMaintenance, DeniedSince;
    PolicySelfDrifts(p);
    if expectedGeneration == c.base.generation && p.maintenance == NotBegun {
      var record := Record.MaintRequested(c.base.generation);
      var told := Told(w, p, record);
      JournalledDrifts(w, p.gate, record);
      DrainDrifts(w, told.gate);
      DriftsOn(p.gate, told.gate, DrainOn(w, told.gate).0);
      var owned := told.(session := if told.session.Some? then Some(told.session.value.(owner := true)) else None,
                         maintenance := MaintPending);
      var drained := owned.(gate := DrainOn(w, owned.gate).0);
      SettleMaintenanceDrifts(w, drained);
      DriftsOn(p.gate, drained.gate, SettleMaintenance(w, drained).gate);
    }
    SettleMaintenanceDrifts(w, p);
  }

  lemma WriteDrifts(c: PolicyConfig, w: World, p: Policy, request: WriteRequest, sequence: int, frameDigest: string)
    ensures PolicyDrifts(p, WriteOn(c, w, p, request, sequence, frameDigest).0)
    ensures p.maintenance == MaintEnded ==> WriteOn(c, w, p, request, sequence, frameDigest).1.Some?
  {
    hide Drifts, Journalled;
    PolicySelfDrifts(p);
    if WriteCheck(c, p, request).None? {
      JournalledDrifts(w, p.gate, WriteRecord(c, request, c.render(request).value));
    }
  }

  lemma EndDrifts(w: World, p: Policy)
    ensures PolicyDrifts(p, EndOn(w, p).0)
  {
    hide Drifts, Journalled, AmbiguousIds;
    PolicySelfDrifts(p);
    JournalledDrifts(w, p.gate, Record.MaintWasEnded(WriteEnd, WriteCount(p.writes), AmbiguousIds(p.writes)));
  }

  lemma WriterPerformDrifts(c: PolicyConfig, w: World, p: Policy, request: WriterRequest, sequence: int,
                            frameDigest: string)
    ensures var (q, response) := WriterPerform(c, w, p, request, sequence, frameDigest);
            PolicyDrifts(p, q) && (p.maintenance == MaintEnded ==> response.Some?)
  {
    hide PolicyDrifts, BeginOn, WriteOn, EndOn, MaintenanceOf;
    PolicySelfDrifts(p);
    match request
    case AskMaintenance =>
    case AskBegin(g) => BeginDrifts(c, w, p, g);
    case AskWrite(write) => WriteDrifts(c, w, p, write, sequence, frameDigest);
    case AskEnd => EndDrifts(w, p);
  }

  lemma FrameResponseDrifts(c: PolicyConfig, p: Policy, sequence: int, requestDigest: string,
                            operation: WriterOperation, response: WriterResponse, fits: bool)
    ensures PolicyDrifts(p, FrameResponse(c, p, sequence, requestDigest, operation, response, fits).0)
  {
    RestDrifts(p, FrameResponse(c, p, sequence, requestDigest, operation, response, fits).0);
  }

  lemma FatalWriterSays(w: World, p: Policy, reason: WriterFatal)
    ensures FatalWriter(w, p, reason).1.SessionOver?
  {
  }

  lemma WriterAnsweredDrifts(c: PolicyConfig, w: World, p: Policy, f: WriterFrame, fits: bool)
    requires f.payload.WriterAsk?
    ensures var (q, output) := WriterAnswered(c, w, p, f, fits);
            PolicyDrifts(p, q) && (p.maintenance == MaintEnded ==> !output.WriteWasForwarded?) && !output.OfBase?
  {
    hide PolicyDrifts, WriterPerform, FrameResponse, FatalWriter;
    WriterPerformDrifts(c, w, p, f.payload.request, f.sequence, c.frameDigest(f));
    var (done, response) := WriterPerform(c, w, p, f.payload.request, f.sequence, c.frameDigest(f));
    if response.Some? {
      var framed := FrameResponse(c, done, f.sequence, c.frameDigest(f), f.operation, response.value, fits).0;
      FrameResponseDrifts(c, done, f.sequence, c.frameDigest(f), f.operation, response.value, fits);
      PolicyDriftsOn(p, done, framed);
      FatalWriterDrifts(w, framed, WriterResponseOutOfBounds);
      FatalWriterSays(w, framed, WriterResponseOutOfBounds);
      PolicyDriftsOn(p, framed, FatalWriter(w, framed, WriterResponseOutOfBounds).0);
    }
  }

  lemma WriterFrameDrifts(c: PolicyConfig, w: World, p: Policy, input: WriterInput, fits: bool)
    requires p.session.Some?
    ensures var (q, output) := WriterFrameOn(c, w, p, input, fits);
            PolicyDrifts(p, q) && (p.maintenance == MaintEnded ==> !output.WriteWasForwarded?) && !output.OfBase?
  {
    hide PolicyDrifts, WriterAnswered, FatalWriter;
    forall reason
      ensures PolicyDrifts(p, FatalWriter(w, p, reason).0) && FatalWriter(w, p, reason).1.SessionOver?
    {
      FatalWriterDrifts(w, p, reason);
      FatalWriterSays(w, p, reason);
    }
    if input.GoodFrame? {
      var (s, f) := (p.session.value, input.frame);
      var open := if s.opened_ then p else p.(session := Some(s.(opened_ := true, challenge := Some(f.challenge))));
      RestDrifts(p, open);
      forall reason
        ensures PolicyDrifts(p, FatalWriter(w, open, reason).0) && FatalWriter(w, open, reason).1.SessionOver?
      {
        FatalWriterDrifts(w, open, reason);
        FatalWriterSays(w, open, reason);
        PolicyDriftsOn(p, open, FatalWriter(w, open, reason).0);
      }
      if f.payload.WriterAsk? {
        WriterAnsweredDrifts(c, w, open, f, fits);
        PolicyDriftsOn(p, open, WriterAnswered(c, w, open, f, fits).0);
      }
    }
  }

  lemma SettleWriteDrifts(w: World, p: Policy, outcome: UpstreamOutcome)
    requires p.pending.Some?
    ensures PolicyDrifts(p, SettleWrite(w, p, outcome).0)
  {
    hide Drifts, Journalled, ClassifyWrite;
    var (decided, details) := ClassifyWrite(p.pending.value.operation, outcome);
    var record := Record.WriteTerminal(p.pending.value.writeId, decided, details);
    JournalledDrifts(w, p.gate, record);
    HeldDrifts(Journalled(w, p.gate, record));
    DriftsOn(p.gate, Journalled(w, p.gate, record), Journalled(w, p.gate, record).(state := Held));
  }

  lemma WriteUpstreamDrifts(c: PolicyConfig, w: World, p: Policy, writeId: nat, outcome: UpstreamOutcome, fits: bool)
    ensures var o := WriteUpstreamOn(c, w, p, writeId, outcome, fits);
            o.PolicyHandled? ==> PolicyDrifts(p, o.policy) && !o.output.WriteWasForwarded? && !o.output.OfBase?
  {
    hide PolicyDrifts, SettleWrite, FrameResponse, FatalWriter, ResponseInSchema, Told;
    ToldDrifts(w, p, Record.WriteLateUpstream(writeId));
    if p.pending.Some? {
      var (settled, classification, delivered) := SettleWrite(w, p, outcome);
      var pending := p.pending.value;
      SettleWriteDrifts(w, p, outcome);
      var response := WriteOk(writeId, classification, pending.requestDigest, delivered);
      var framed := FrameResponse(c, settled, pending.sequence, pending.frameDigest, WriteObject, response, fits).0;
      FrameResponseDrifts(c, settled, pending.sequence, pending.frameDigest, WriteObject, response, fits);
      PolicyDriftsOn(p, settled, framed);
      FatalWriterDrifts(w, framed, WriterResponseOutOfBounds);
      PolicyDriftsOn(p, framed, FatalWriter(w, framed, WriterResponseOutOfBounds).0);
    }
  }

  lemma LoseWriterDrifts(w: World, p: Policy)
    ensures PolicyDrifts(p, LoseWriter(w, p).0)
  {
    hide PolicyDrifts, AbortPending, EndSession;
    PolicySelfDrifts(p);
    var aborted := AbortPending(w, p, WriterChannelLost);
    AbortPendingDrifts(w, p, WriterChannelLost);
    EndSessionDrifts(w, aborted, SessionEnded);
    PolicyDriftsOn(p, aborted, EndSession(w, aborted, SessionEnded));
  }

  lemma GateDrifts(p: Policy, g: Gate)
    requires Drifts(p.gate, g)
    ensures PolicyDrifts(p, p.(gate := g))
  {
  }

  lemma DistrustDrifts(w: World, p: Policy, abort: AbortReason, reason: Invalidation, fatal: WriterFatal)
    ensures PolicyDrifts(p, DistrustWriter(w, p, abort, reason, fatal).0)
  {
    hide Drifts, PolicyDrifts, AbortPending, EndSession, Urgent;
    PolicySelfDrifts(p);
    var aborted := AbortPending(w, p, abort);
    var held := aborted.(gate := Urgent(w, aborted.gate, Held, reason).(state := Held));
    AbortPendingDrifts(w, p, abort);
    UrgentDrifts(w, aborted.gate, Held, reason);
    HeldDrifts(Urgent(w, aborted.gate, Held, reason));
    DriftsOn(aborted.gate, Urgent(w, aborted.gate, Held, reason), held.gate);
    GateDrifts(aborted, held.gate);
    PolicyDriftsOn(p, aborted, held);
    EndSessionDrifts(w, held, SessionFatal);
    PolicyDriftsOn(p, held, EndSession(w, held, SessionFatal));
  }

  lemma LoseWriterSays(w: World, p: Policy)
    ensures LoseWriter(w, p).1.SessionOver? || LoseWriter(w, p).1.Empty?
  {
  }

  lemma DistrustSays(w: World, p: Policy, abort: AbortReason, reason: Invalidation, fatal: WriterFatal)
    ensures var o := DistrustWriter(w, p, abort, reason, fatal).1; o.SessionOver? || o.Empty?
  {
  }

  lemma WriterDispatchDrifts(c: PolicyConfig, w: World, p: Policy, event: PolicyEvent)
    requires !event.Base?
    ensures var o := WriterDispatch(c, w, p, event);
            o.PolicyHandled? ==>
              PolicyDrifts(p, o.policy) && !o.output.OfBase?
                && (p.maintenance == MaintEnded ==> !o.output.WriteWasForwarded?)
  {
    hide PolicyDrifts, WriterFrameOn, LoseWriter, DistrustWriter, WriteUpstreamOn;
    match event
    case WConnect => RestDrifts(p, ConnectWriter(p).0);
    case WFrame(input, fits) => if p.session.Some? { WriterFrameDrifts(c, w, p, input, fits); }
    case WChannelLost => LoseWriterDrifts(w, p); LoseWriterSays(w, p);
    case WPeerChanged =>
      DistrustDrifts(w, p, WriterPeerDeviated, WriterPeerDeviation, WriterPeerChanged);
      DistrustSays(w, p, WriterPeerDeviated, WriterPeerDeviation, WriterPeerChanged);
    case WUpstream(writeId, outcome, fits) => WriteUpstreamDrifts(c, w, p, writeId, outcome, fits);
    case WAnswerLate =>
      DistrustDrifts(w, p, WriterProtocolFailure, ByFatal(AnswerLate), WriterAnswerLate);
      DistrustSays(w, p, WriterProtocolFailure, ByFatal(AnswerLate), WriterAnswerLate);
  }

  // ------------------------------------------------------------------------------------------- a restarted policy gate

  /** What a restarted policy gate is for good: not ACTIVE, the channel shut, the maintenance ended, nothing
      outstanding. */
  predicate Asleep(p: Policy) {
    p.gate.state != Active && p.gate.channel == Shut && p.maintenance == MaintEnded && p.pending.None?
  }

  /** A restart on any journal puts the policy gate to sleep. */
  lemma RestartSleeps(w: World, p: Policy)
    ensures Asleep(PolicyRestart(w, p)) && Drifts(p.gate, PolicyRestart(w, p).gate)
  {
    hide Drifts, RestartWith, RebuildWrites;
    RestartDrifts(w, p.gate, AnyAmbiguousWrite(RebuildWrites(p.gate.stores.entries).0));
  }

  lemma PolicyDriftSays(p: Policy, q: Policy)
    requires PolicyDrifts(p, q)
    ensures Drifts(p.gate, q.gate) && (Asleep(p) ==> Asleep(q))
  {
  }

  lemma PolicyDispatchWanders(c: PolicyConfig, w: World, p: Policy, event: PolicyEvent)
    ensures var o := PolicyDispatch(c, w, p, event);
            o.PolicyHandled? ==>
              && Wanders(c.base, p.gate, o.policy.gate)
              && (Asleep(p) ==> Asleep(o.policy) && !o.output.WriteWasForwarded?)
              && (Stopped(p.gate) ==> !(o.output.OfBase? && o.output.output.Forward?))
  {
    hide Drifts, PolicyDrifts, PolicyRestart, Handle, WriterDispatch, SettleDrain, BindsBoth;
    if event == Base(GateRestart) {
      RestartSleeps(w, p);
      WandersByDrifting(c.base, p.gate, PolicyRestart(w, p).gate);
    } else if event.Base? {
      HandleWanders(c.base, w, p.gate, event.event);
    } else {
      WriterDispatchDrifts(c, w, p, event);
      var o := WriterDispatch(c, w, p, event);
      if o.PolicyHandled? {
        PolicyDriftSays(p, o.policy);
        var g := SettleDrain(w, o.policy.gate).0;
        SettleDrainDrifts(w, o.policy.gate);
        GateDrifts(o.policy, g);
        PolicyDriftSays(o.policy, o.policy.(gate := g));
        DriftsOn(p.gate, o.policy.gate, g);
        WandersByDrifting(c.base, p.gate, g);
      }
    }
  }

  lemma SettlesHeld(w: World, p: Policy)
    ensures p.gate.state == Held ==> SettleMaintenance(w, p).gate.state == Held
  {
    hide Drifts, Journalled, Fence;
    JournalledDrifts(w, p.gate, Record.MaintOpened(p.gate.state));
    var open := OpenIfReady(w, p);
    JournalledDrifts(w, open.gate, Record.MaintWasHeld(open.gate.state));
  }

  /** Every event of every policy gate: what it keeps of the gate, and that a sleeping one sleeps on and forwards
      nothing. */
  lemma PolicyWanders(c: PolicyConfig, w: World, p: Policy, event: PolicyEvent)
    ensures var o := PolicyHandle(c, w, p, event);
            o.PolicyHandled? ==>
              && Wanders(c.base, p.gate, o.policy.gate)
              && (Asleep(p) ==> Asleep(o.policy) && !o.output.WriteWasForwarded?)
              && (Stopped(p.gate) ==> !(o.output.OfBase? && o.output.output.Forward?))
  {
    hide Drifts, PolicyDrifts, Wanders, SettleMaintenance, PolicyDispatch;
    PolicyDispatchWanders(c, w, p, event);
    var o := PolicyDispatch(c, w, p, event);
    if o.PolicyHandled? {
      SettleMaintenanceDrifts(w, o.policy);
      SettlesHeld(w, o.policy);
      PolicyDriftSays(o.policy, SettleMaintenance(w, o.policy));
      WandersOn(c.base, p.gate, o.policy.gate, SettleMaintenance(w, o.policy).gate);
    }
  }
}
