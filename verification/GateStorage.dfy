/** The storage-failure path: what a journal append, with the recursive path a failed one runs, keeps of the gate. */
module GateStorage {
  import opened Vocabulary
  import opened Journal
  import opened GateModel
  import opened WriteReplay
  import opened Lawful
  import opened GateInvariant

  ghost predicate HasEvidence(g: Gate) {
    Evidence(g, Replay(g.stores.entries))
  }

  /** What appends, denials and marks may do to one action: deny it while ARMED, mark it while CONSUMED. */
  predicate Later(m: Action, n: Action) {
    && n.armed == m.armed && n.conn == m.conn && n.delivered == m.delivered && n.sealed == m.sealed
    && match m.status
       case Terminal => n == m
       case Consumed => n == m.(after := n.after)
       case Armed => n == m || n == m.(status := Status.Terminal, classification := Some(NotForwarded))
  }

  /** An entry a held gate may append: no state but HELD, no execution, no action armed, no write forwarded, and no
      conclusion but of an action in flight. */
  predicate Mute(g: Gate, entry: Entry) {
    entry.Rec? ==>
      && RecordedState(entry.record, Held) == Held && !entry.record.Bind? && !entry.record.Arm?
      && !entry.record.WriteForwarded?
      && (entry.record.Terminal? ==>
            entry.record.actionId in g.actions && g.actions[entry.record.actionId].status == Status.Consumed)
  }

  ghost predicate Muted(g: Gate, later: seq<Entry>) {
    forall i | |g.stores.entries| <= i < |later| :: Mute(g, later[i])
  }

  /** What appends, with whatever their failures trigger, may do to a gate: hold it, deny what is armed, close
      connections, extend the journal by records that account for nothing, write the marker; nothing else. */
  ghost predicate Aftermath(g: Gate, h: Gate) {
    && h == g.(state := h.state, actions := h.actions, connections := h.connections, stores := h.stores,
               untraced := h.untraced)
    && (h.state == g.state || h.state == Held)
    && (g.untraced ==> h.untraced)
    && Longer(g.stores, h.stores) && (g.state == Held ==> Muted(g, h.stores.entries))
    && AccountOf(h.stores.entries) == AccountOf(g.stores.entries)
    && ReplayWrites(h.stores.entries) == ReplayWrites(g.stores.entries)
    && ReplayWrites(h.stores.file) == ReplayWrites(g.stores.file) && Outlasts(g, h.stores.file)
    && h.actions.Keys == g.actions.Keys
    && (forall id | id in g.actions :: Later(g.actions[id], h.actions[id]))
    && h.connections.Keys == g.connections.Keys
    && (forall c | c in g.connections ::
          h.connections[c] == g.connections[c].(open := h.connections[c].open)
            && (h.connections[c].open ==> g.connections[c].open))
  }

  lemma AftermathReflexive(g: Gate)
    ensures Aftermath(g, g)
  {
  }

  lemma NothingMuted(g: Gate)
    ensures Muted(g, g.stores.entries)
  {
  }

  lemma MutedComposes(f: Gate, g: Gate, h: Gate)
    requires Muted(f, g.stores.entries) && Muted(g, h.stores.entries) && g.stores.entries <= h.stores.entries
    requires forall id | id in g.actions && g.actions[id].status == Status.Consumed ::
               id in f.actions && f.actions[id].status == Status.Consumed
    ensures Muted(f, h.stores.entries)
  {
    forall i | |f.stores.entries| <= i < |h.stores.entries|
      ensures Mute(f, h.stores.entries[i])
    {
      if i < |g.stores.entries| {
        assert h.stores.entries[i] == g.stores.entries[i];
      } else {
        assert Mute(g, h.stores.entries[i]);
      }
    }
  }

  lemma AftermathComposes(f: Gate, g: Gate, h: Gate)
    requires Aftermath(f, g) && Aftermath(g, h)
    ensures Aftermath(f, h)
  {
    hide Muted, Outlasts;
    if f.state == Held { MutedComposes(f, g, h); }
    assert forall id | id in f.actions && Settled(f.actions[id]) :: Later(f.actions[id], g.actions[id]);
    OutlastsComposes(f, g, h.stores.file);
  }

  lemma QuietMutes(w: World, g: Gate, record: Record)
    requires Fits(g, record) || !LastsNext(w, g.stores)
    ensures g.state == Held ==> Muted(g, Quiet(w, g, record).stores.entries)
  {
    hide AccountOf, ReplayWrites, Derive, Quench;
    AppendedFolds(w, g.stores, record);
  }

  lemma QuietAccounts(w: World, g: Gate, record: Record)
    requires Fits(g, record) || !LastsNext(w, g.stores)
    ensures var h := Quiet(w, g, record);
            && AccountOf(h.stores.entries) == AccountOf(g.stores.entries)
            && ReplayWrites(h.stores.entries) == ReplayWrites(g.stores.entries)
  {
    hide Replay, Derive, Quench, AccountOf, ReplayWrites;
    AppendedFolds(w, g.stores, record);
    if Fits(g, record) { FitsNoAccount(g, AccountOf(g.stores.entries), record); }
  }

  /** A record of the base gate leaves the file's writes alone. */
  lemma QuietFileWrites(w: World, g: Gate, record: Record)
    requires !IsWriteRecord(record)
    ensures ReplayWrites(Quiet(w, g, record).stores.file) == ReplayWrites(g.stores.file)
  {
    hide ReplayWrites;
    LeftFolds(w, g.stores, record);
    Folded(g.stores.file, Torn);
    Folded(g.stores.file, Rec(record));
  }

  lemma AftermathOfQuiet(w: World, g: Gate, record: Record)
    requires Fits(g, record) || !LastsNext(w, g.stores)
    requires Filed(g) && Fileable(g, record) && !IsWriteRecord(record)
    ensures Aftermath(g, Quiet(w, g, record))
  {
    hide Replay, AccountOf, ReplayWrites, Fits, Muted, Outlasts, Filed, Fileable;
    QuietMutes(w, g, record);
    QuietAccounts(w, g, record);
    QuietFileWrites(w, g, record);
    QuietOutlasts(w, g, record);
  }

  lemma FiledForwards(g: Gate)
    requires Filed(g)
    ensures AccountOf(g.stores.entries).forwarded <= AccountOf(g.stores.file).forwarded
  {
  }

  lemma FitsFileable(g: Gate, record: Record)
    requires Filed(g) && Fits(g, record)
    ensures Fileable(g, record) && !IsWriteRecord(record)
    ensures AccountRecord(AccountOf(g.stores.entries), record).forwarded
            <= AccountRecord(AccountOf(g.stores.file), record).forwarded
  {
    hide Replay, Derive, AccountOf, Quench, Filed, Fileable, Spares, AccountRecord;
    FitsSpares(g, record);
    SparedFileable(g, record);
    SparesNone(g, record);
    SparedFolds(Derive(g.stores.file), AccountOf(g.stores.file), Quench(g.stores.file), record);
    SparedFolds(Derive(g.stores.file), AccountOf(g.stores.entries), Quench(g.stores.file), record);
    FiledForwards(g);
  }

  lemma FiledFits(w: World, g: Gate, record: Record)
    requires Filed(g) && Fits(g, record)
    ensures Filed(Quiet(w, g, record))
  {
    hide Filed, Fileable, Fits, AccountRecord;
    FitsFileable(g, record);
    FiledQuiet(w, g, record);
  }

  lemma AftermathOfFitting(w: World, g: Gate, record: Record)
    requires Filed(g) && Fits(g, record)
    ensures Aftermath(g, Quiet(w, g, record))
  {
    hide Filed, Fileable, Fits, AccountRecord, Aftermath;
    FitsFileable(g, record);
    AftermathOfQuiet(w, g, record);
  }

  /** Only an append that fails torn parts a file from its mirror. */
  lemma LastingParts(w: World, s: Stores, record: Record)
    ensures LastsNext(w, s) ==> Append(w, s, record).parted == s.parted
  {
  }

  /** An append that runs no failure path: one that lasts, or one of a held gate. */
  lemma QuietKeeps(w: World, g: Gate, record: Record)
    requires Sound(g) && Fits(g, record) && (LastsNext(w, g.stores) || g.state == Held)
    ensures Sound(Quiet(w, g, record))
    ensures g.state == Held && HasEvidence(g) ==> HasEvidence(Quiet(w, g, record))
    ensures LastsNext(w, g.stores) ==>
              Replay(Quiet(w, g, record).stores.entries) == ReplayRecord(Replay(g.stores.entries), record)
  {
    hide IsLawful, RecordLawful, Filed;
    AppendedFolds(w, g.stores, record);
    LawfulAppended(w, g.stores, record);
    LastingParts(w, g.stores, record);
    FiledFits(w, g, record);
    var s, h := g.stores.entries, Quiet(w, g, record);
    var t := h.stores.entries;
    if LastsNext(w, g.stores) {
      FitLawful(g, Replay(s), record);
      FittingKeeps(g, Replay(s), Derive(s), AccountOf(s), record);
    } else {
      TearingKeeps(g, Replay(s), Derive(s), AccountOf(s));
    }
    SameCore(g, h, Replay(t), Derive(t), AccountOf(t));
  }

  lemma AftermathOfDeny(g: Gate, id: nat)
    requires id in g.actions && g.actions[id].status == Armed
    ensures Aftermath(g, Deny(g, id))
  {
  }

  lemma DenyKeeps(g: Gate, id: nat)
    requires Sound(g) && id in g.actions && g.actions[id].status == Armed
    ensures Sound(Deny(g, id)) && Fits(Deny(g, id), Record.Denied(id))
    ensures (HasEvidence(g) ==> HasEvidence(Deny(g, id))) && (Traced(g) ==> Traced(Deny(g, id)))
  {
    hide Filed;
    var s := g.stores.entries;
    assert Linked(g.actions[id], Replay(s).actions[id]);
    FiledLess(g, Deny(g, id));
    DenyingKeeps(g, Replay(s), Derive(s), AccountOf(s), id);
  }

  lemma SoundCoherent(g: Gate)
    requires Sound(g)
    ensures Coherent(g)
  {
  }

  lemma SoundFiled(g: Gate)
    requires Sound(g)
    ensures Filed(g)
  {
  }

  lemma {:induction false} DenyQuietlyKeeps(w: World, g: Gate)
    requires Sound(g) && g.state == Held
    ensures Sound(DenyQuietly(w, g)) && Aftermath(g, DenyQuietly(w, g))
    ensures DenyQuietly(w, g).untraced == g.untraced && DenyQuietly(w, g).state == Held
    ensures HasEvidence(g) ==> HasEvidence(DenyQuietly(w, g))
    decreases WithStatus(g.actions, Armed)
  {
    hide Sound, Aftermath, HasEvidence, Fits, Filed;
    var armed := WithStatus(g.actions, Armed);
    AftermathReflexive(g);
    if armed != {} {
      var id := Least(armed);
      var denied := Deny(g, id);
      var told := Quiet(w, denied, Record.Denied(id));
      DenyKeeps(g, id);
      QuietKeeps(w, denied, Record.Denied(id));
      assert WithStatus(told.actions, Armed) == armed - {id};
      DenyQuietlyKeeps(w, told);
      AftermathOfDeny(g, id);
      SoundFiled(denied);
      AftermathOfFitting(w, denied, Record.Denied(id));
      AftermathComposes(g, denied, told);
      AftermathComposes(g, told, DenyQuietly(w, g));
    }
  }

  /** HELD, marked and with the marker attempted: what the storage-failure path holds before it appends. */
  ghost function HeldFirst(w: World, g: Gate): Gate {
    g.(state := Held, actions := MarkInFlight(g.actions), stores := WriteMarker(w, g.stores))
  }

  lemma AftermathOfHolding(w: World, g: Gate)
    ensures Aftermath(g, HeldFirst(w, g))
  {
  }

  lemma HeldFirstFiled(w: World, g: Gate)
    requires Filed(g) && MarkInFlight(g.actions) == MarkConsumed(g.actions)
    ensures Filed(HeldFirst(w, g))
  {
    hide Filed;
    FiledLess(g, HeldFirst(w, g));
  }

  lemma HeldFirstFits(w: World, g: Gate)
    requires MarkInFlight(g.actions) == MarkConsumed(g.actions)
    ensures Fits(HeldFirst(w, g), Record.Invalidated(ByClose(CloseReason.StorageFailure), Held))
  {
  }

  lemma HoldingFirstKeeps(w: World, g: Gate)
    requires Coherent(g)
    ensures Sound(HeldFirst(w, g))
    ensures Fits(HeldFirst(w, g), Record.Invalidated(ByClose(CloseReason.StorageFailure), Held))
  {
    hide SoundOn, Filed, Fits, MarkInFlight, MarkConsumed, IsLawful, Replay, Derive, AccountOf, Quench;
    var s := g.stores.entries;
    var (r, d, a) := (Replay(s), Derive(s), AccountOf(s));
    var marked := g.(actions := MarkConsumed(g.actions));
    MarkingKeeps(g, r, d, a);
    HoldingKeeps(marked, r, d, a);
    SameCore(marked.(state := Held), HeldFirst(w, g), r, d, a);
    HeldFirstFiled(w, g);
    HeldFirstFits(w, g);
  }

  lemma NotingKeeps(g: Gate, untraced: bool)
    requires Sound(g) && (g.untraced ==> untraced)
    ensures Sound(g.(untraced := untraced)) && Aftermath(g, g.(untraced := untraced))
  {
    hide SoundOn;
    var s := g.stores.entries;
    SameCore(g, g.(untraced := untraced), Replay(s), Derive(s), AccountOf(s));
  }

  /** The storage-failure path keeps everything and leaves evidence, or notes that it left none. */
  lemma StorageFailureKeeps(w: World, g: Gate)
    requires Coherent(g)
    ensures Sound(FailStorage(w, g)) && Aftermath(g, FailStorage(w, g))
    ensures FailStorage(w, g).state == Held
    ensures FailStorage(w, g).untraced || HasEvidence(FailStorage(w, g))
  {
    hide Coherent, Sound, Fits, Aftermath, DenyQuietly;
    var held := HeldFirst(w, g);
    var record := Record.Invalidated(ByClose(CloseReason.StorageFailure), Held);
    var told := Quiet(w, held, record);
    var traced := told.stores.marker || Replay(told.stores.entries).torn || LastsNext(w, held.stores);
    HoldingFirstKeeps(w, g);
    QuietKeeps(w, held, record);
    NotingKeeps(told, g.untraced || !traced);
    DenyQuietlyKeeps(w, told.(untraced := g.untraced || !traced));
    AftermathOfHolding(w, g);
    SoundFiled(held);
    AftermathOfFitting(w, held, record);
    AftermathComposes(g, held, told);
    AftermathComposes(g, told, told.(untraced := g.untraced || !traced));
    AftermathComposes(g, told.(untraced := g.untraced || !traced), FailStorage(w, g));
  }

  lemma FailedQuietKeeps(w: World, g: Gate, record: Record)
    requires Sound(g) && !LastsNext(w, g.stores) && Fileable(g, record)
    ensures Coherent(Quiet(w, g, record))
  {
    hide IsLawful, RecordLawful, Filed, Fileable;
    FiledQuiet(w, g, record);
    AppendedFolds(w, g.stores, record);
    LawfulAppended(w, g.stores, record);
    var s, t := g.stores.entries, Quiet(w, g, record).stores.entries;
    TearingKeeps(g, Replay(s), Derive(s), AccountOf(s));
    SameCore(g, Quiet(w, g, record), Replay(t), Derive(t), AccountOf(t));
  }

  /** A failed append, of any record the file may get, ends HELD with everything kept. */
  lemma FailedAppendKeeps(w: World, g: Gate, record: Record)
    requires Sound(g) && !LastsNext(w, g.stores) && Fileable(g, record) && !IsWriteRecord(record)
    ensures var h := Journalled(w, g, record);
            Sound(h) && Aftermath(g, h) && h.state == Held && (h.untraced || HasEvidence(h))
  {
    hide Coherent, Fileable, Aftermath, FailStorage, HasEvidence, Filed;
    SoundCoherent(g);
    SoundFiled(g);
    var failed := Quiet(w, g, record);
    FailedQuietKeeps(w, g, record);
    StorageFailureKeeps(w, failed);
    AftermathOfQuiet(w, g, record);
    AftermathComposes(g, failed, FailStorage(w, failed));
  }

  /** Appending a fitting record keeps everything, whatever the storage does. */
  lemma JournalledKeeps(w: World, g: Gate, record: Record)
    requires Sound(g) && Fits(g, record)
    ensures var h := Journalled(w, g, record);
            Sound(h) && Aftermath(g, h) && (Traced(g) ==> Traced(h))
    ensures LastsNext(w, g.stores) ==>
              Journalled(w, g, record).state == g.state
              && Replay(Journalled(w, g, record).stores.entries) == ReplayRecord(Replay(g.stores.entries), record)
    ensures !LastsNext(w, g.stores) ==> Traced(Journalled(w, g, record))
  {
    hide Coherent, Filed, Fileable, Aftermath, FailStorage;
    SoundCoherent(g);
    SoundFiled(g);
    if LastsNext(w, g.stores) {
      QuietKeeps(w, g, record);
      AftermathOfFitting(w, g, record);
    } else {
      FitsFileable(g, record);
      FailedAppendKeeps(w, g, record);
    }
  }

  lemma {:induction false} DenyArmedKeeps(w: World, g: Gate)
    requires Sound(g)
    ensures Sound(DenyArmed(w, g)) && Aftermath(g, DenyArmed(w, g))
    ensures Traced(g) ==> Traced(DenyArmed(w, g))
    ensures WithStatus(DenyArmed(w, g).actions, Armed) == {}
    decreases WithStatus(g.actions, Armed)
  {
    hide Sound, Aftermath, Traced, Fits, Journalled;
    var armed := WithStatus(g.actions, Armed);
    AftermathReflexive(g);
    if armed != {} {
      var id := Least(armed);
      var denied := Deny(g, id);
      var told := Journalled(w, denied, Record.Denied(id));
      DenyKeeps(g, id);
      JournalledKeeps(w, denied, Record.Denied(id));
      assert WithStatus(denied.actions, Armed) == armed - {id};
      assert WithStatus(told.actions, Armed) < armed;
      DenyArmedKeeps(w, told);
      AftermathOfDeny(g, id);
      AftermathComposes(g, denied, told);
      AftermathComposes(g, told, DenyArmed(w, g));
    }
  }
}
