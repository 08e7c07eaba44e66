/** What a journal cut inside an event still says of the writes and of a hold. */
module Cuts {
  import opened Vocabulary
  import opened Journal
  import opened GateModel
  import opened WriteReplay
  import opened Lawful
  import opened GateInvariant
  import opened GateStorage
  import opened GateRestart
  import opened PolicyModel
  import opened PolicyInvariant
  import opened PolicyRuns
  import opened Recovery

  // ---------------------------------------------------------------------------------------------- writes

  lemma {:induction false} WritesAlong(entries: seq<Entry>, n: nat, id: nat)
    requires ReplayWrites(entries).lawful && n <= |entries| && id in ReplayWrites(entries[..n]).writes
    ensures ReplayWrites(entries[..n]).lawful && id in ReplayWrites(entries).writes
    ensures ReplayWrites(entries[..n]).writes[id].WriteDone? ==>
              ReplayWrites(entries).writes[id] == ReplayWrites(entries[..n]).writes[id]
  {
    if n == |entries| {
      assert entries[..n] == entries;
    } else {
      assert entries[..|entries| - 1][..n] == entries[..n];
      WritesAlong(entries[..|entries| - 1], n, id);
      var before := ReplayWrites(entries[..|entries| - 1]);
      LawfulWrites(entries[..|entries| - 1]);
    }
  }

  lemma CutLawful(entries: seq<Entry>, n: nat)
    requires ReplayWrites(entries).lawful && n <= |entries|
    ensures ReplayWrites(entries[..n]).lawful
    decreases |entries|
  {
    if n == |entries| {
      assert entries[..n] == entries;
    } else {
      CutLawful(entries[..|entries| - 1], n);
      assert entries[..|entries| - 1][..n] == entries[..n];
    }
  }

  /** A write decided alike before and after is rebuilt so from every cut between. */
  lemma DecidedWriteCut(p: Policy, q: Policy, n: nat, id: nat)
    requires PolicySound(p) && PolicySound(q) && p.gate.stores.entries <= q.gate.stores.entries
    requires |p.gate.stores.entries| <= n <= |q.gate.stores.entries|
    requires id in p.writes && p.writes[id] != WriteSent && id in q.writes && q.writes[id] == p.writes[id]
    ensures var writes := RebuildWrites(q.gate.stores.entries[..n]).0; id in writes && writes[id] == p.writes[id]
  {
    hide Sound, WritesShaped, SessionShaped, ReplayWrites;
    var entries, from := q.gate.stores.entries, |p.gate.stores.entries|;
    var cut := entries[..n];
    assert entries[..from] == p.gate.stores.entries && cut[..from] == p.gate.stores.entries;
    assert id in ConcludeWrites(p.writes) && id in ConcludeWrites(q.writes);
    CutLawful(entries, n);
    WritesAlong(cut, from, id);
    WritesAlong(entries, n, id);
    assert ConcludeWrites(ReplayWrites(cut).writes)[id] == p.writes[id];
  }

  lemma SentWriteCut(p: Policy, q: Policy, n: nat, id: nat)
    requires PolicySound(p) && PolicySound(q) && p.gate.stores.entries <= q.gate.stores.entries
    requires |p.gate.stores.entries| <= n <= |q.gate.stores.entries| && id in p.writes
    ensures id in RebuildWrites(q.gate.stores.entries[..n]).0
  {
    hide Sound, WritesShaped, SessionShaped, ReplayWrites;
    var entries, from := q.gate.stores.entries, |p.gate.stores.entries|;
    var cut := entries[..n];
    assert entries[..from] == p.gate.stores.entries && cut[..from] == p.gate.stores.entries;
    assert id in ConcludeWrites(p.writes);
    CutLawful(entries, n);
    WritesAlong(cut, from, id);
  }

  /** Every cut between keeps the writes decided before. */
  lemma DecidedCut(p: Policy, q: Policy, n: nat)
    requires PolicySound(p) && PolicySound(q) && p.gate.stores.entries <= q.gate.stores.entries
    requires |p.gate.stores.entries| <= n <= |q.gate.stores.entries| && WritesStay(p.writes, q.writes)
    ensures WritesStay(p.writes, RebuildWrites(q.gate.stores.entries[..n]).0)
  {
    hide PolicySound, RebuildWrites, ConcludeWrites, ReplayWrites;
    forall id | id in p.writes
      ensures var writes := RebuildWrites(q.gate.stores.entries[..n]).0;
              id in writes && (p.writes[id] != WriteSent ==> writes[id] == p.writes[id])
    {
      if p.writes[id] != WriteSent { DecidedWriteCut(p, q, n, id); } else { SentWriteCut(p, q, n, id); }
    }
  }

  // ---------------------------------------------------------------------------------------------- a hold

  /** The action is one a restart concludes as ambiguous. */
  predicate AmbiguousIn(r: Replayed, id: nat) {
    id in r.actions && Concluded(r.actions[id]).classification == Some(IoAmbiguous)
  }

  lemma MutedByRecord(g: Gate, r: Replayed, record: Record, id: nat)
    requires WellReplayed(r) && RecordLawful(r, record) && Mute(g, Rec(record))
    requires AmbiguousIn(r, id) && id in g.actions && g.actions[id].status == Status.Terminal
    ensures AmbiguousIn(ReplayRecord(r, record), id)
  {
    assert 1 <= id <= |r.actions| && Plausible(r.actions[id]);
  }

  lemma TornAmbiguous(r: Replayed, id: nat)
    requires AmbiguousIn(r, id)
    ensures AmbiguousIn(r.(torn := true), id)
  {
  }

  /** Under what a held gate appends, an action ambiguous in memory stays ambiguous in the journal. */
  lemma {:induction false} AmbiguousAlong(g: Gate, entries: seq<Entry>, id: nat)
    requires g.stores.entries <= entries && Muted(g, entries) && IsLawful(entries)
    requires AmbiguousIn(Replay(g.stores.entries), id) && id in g.actions && g.actions[id].status == Status.Terminal
    ensures AmbiguousIn(Replay(entries), id)
    decreases |entries|
  {
    hide RecordLawful, ReplayRecord, WellReplayed, AmbiguousIn, Mute;
    if entries != g.stores.entries {
      var before, last := entries[..|entries| - 1], entries[|entries| - 1];
      assert Mute(g, last);
      assert Muted(g, before) by { assert forall i | 0 <= i < |before| :: before[i] == entries[i]; }
      AmbiguousAlong(g, before, id);
      LawfulReplays(before);
      if last.Rec? { MutedByRecord(g, Replay(before), last.record, id); } else { TornAmbiguous(Replay(before), id); }
    }
  }

  /** A torn entry stays, and so does the state HELD under what a held gate appends. */
  lemma {:induction false} HeldAlong(g: Gate, entries: seq<Entry>)
    requires g.stores.entries <= entries && Muted(g, entries)
    ensures Replay(g.stores.entries).torn ==> Replay(entries).torn
    ensures Replay(g.stores.entries).state == Held ==> Replay(entries).state == Held
    decreases |entries|
  {
    if entries != g.stores.entries {
      var before, last := entries[..|entries| - 1], entries[|entries| - 1];
      assert Mute(g, last);
      assert Muted(g, before) by { assert forall i | 0 <= i < |before| :: before[i] == entries[i]; }
      HeldAlong(g, before);
    }
  }

  lemma AmbiguousNotClean(r: Replayed, id: nat)
    requires AmbiguousIn(r, id)
    ensures !IsClean(r.actions)
  {
  }

  lemma AmbiguousInMemory(g: Gate, id: nat)
    requires Sound(g) && id in g.actions && g.actions[id].classification == Some(IoAmbiguous)
    ensures g.actions[id].status == Status.Terminal && AmbiguousIn(Replay(g.stores.entries), id)
  {
    assert Linked(g.actions[id], Replay(g.stores.entries).actions[id]);
  }

  lemma FirmFacts(p: Policy, q: Policy, n: nat)
    requires PolicySound(p) && PolicySound(q) && PolicyOnward(p, q) && p.gate.state == Held
    requires |p.gate.stores.entries| <= n <= |q.gate.stores.entries|
    ensures p.gate.stores.entries <= q.gate.stores.entries[..n] && Muted(p.gate, q.gate.stores.entries[..n])
    ensures p.gate.stores.entries <= q.gate.stores.entries && IsLawful(q.gate.stores.entries[..n]) && Sound(p.gate)
    ensures forall id | id in p.writes && p.writes[id] == WriteDone(IoAmbiguous) ::
              id in q.writes && q.writes[id] == p.writes[id]
  {
    hide IsLawful, SoundOn, Mute, WritesShaped, WritesRebuilt, SessionShaped;
    LawfulPrefix(q.gate.stores.entries, n);
  }

  lemma TracedIs(p: Policy)
    requires PolicyTraced(p) && !AnyAmbiguousWrite(p.writes) && p.gate.state == Held && !p.gate.untraced
    ensures p.gate.stores.marker || Replay(p.gate.stores.entries).torn || Replay(p.gate.stores.entries).state == Held
            || AnyAmbiguous(p.gate.actions)
  {
  }

  lemma FirmIs(s: Stores)
    ensures || s.marker || Replay(s.entries).torn || Replay(s.entries).state == Held
            || !IsClean(Replay(s.entries).actions) || AnyAmbiguousWrite(RebuildWrites(s.entries).0)
            ==> Firm(s)
  {
  }

  /** A hold with evidence is firm in every cut of what the held gate appends. */
  lemma FirmCut(p: Policy, q: Policy, s: Stores, n: nat)
    requires PolicySound(p) && PolicySound(q) && PolicyOnward(p, q) && PolicyTraced(p)
    requires p.gate.state == Held && !p.gate.untraced
    requires |p.gate.stores.entries| <= n <= |q.gate.stores.entries| && s.entries == q.gate.stores.entries[..n]
    requires p.gate.stores.marker ==> s.marker
    ensures Firm(s)
  {
    hide PolicySound, Sound, PolicyTraced, IsLawful, Replay, RebuildWrites, IsClean, Firm, AmbiguousIn, Mute;
    var g, entries := p.gate, s.entries;
    FirmFacts(p, q, n);
    if AnyAmbiguousWrite(p.writes) {
      var id :| id in p.writes && p.writes[id] == WriteDone(IoAmbiguous);
      DecidedWriteCut(p, q, n, id);
    } else {
      TracedIs(p);
      HeldAlong(g, entries);
      if AnyAmbiguous(g.actions) {
        var id :| id in g.actions && g.actions[id].classification == Some(IoAmbiguous);
        AmbiguousInMemory(g, id);
        AmbiguousAlong(g, entries, id);
        AmbiguousNotClean(Replay(entries), id);
      }
    }
    FirmIs(s);
  }

  // ---------------------------------------------------------------------------------------------- a restart

  /** An entry after which a journal is firm. */
  predicate HoldsOn(entry: Entry) {
    entry.Torn? || RecordedState(entry.record, Active) == Held
  }

  lemma FirmEnding(s: Stores)
    requires s.entries != [] && HoldsOn(s.entries[|s.entries| - 1])
    ensures Firm(s)
  {
    FirmIs(s);
  }

  lemma NoneArmed(k: Gate, floor: bool)
    ensures WithStatus(Quieted(k, floor).actions, Armed) == {}
            && WithStatus(Quieted(k, floor).actions, Status.Consumed) == {}
  {
    hide Replay;
  }

  /** Longer only by entries that keep it firm. */
  predicate FirmOn(s: Stores, t: Stores) {
    Longer(s, t) && forall i | |s.entries| <= i < |t.entries| :: HoldsOn(t.entries[i])
  }

  lemma FirmOnComposes(s: Stores, t: Stores, u: Stores)
    requires FirmOn(s, t) && FirmOn(t, u)
    ensures FirmOn(s, u)
  {
    forall i | |s.entries| <= i < |u.entries|
      ensures HoldsOn(u.entries[i])
    {
      if i < |t.entries| { assert u.entries[i] == t.entries[i]; }
    }
  }

  lemma FirmAppend(w: World, s: Stores, record: Record)
    requires RecordedState(record, Active) == Held
    ensures FirmOn(s, Append(w, s, record))
  {
  }

  lemma FirmMarker(w: World, s: Stores)
    ensures FirmOn(s, WriteMarker(w, s))
  {
  }

  lemma FirmHolding(w: World, g: Gate)
    ensures FirmOn(g.stores, HoldFirst(w, g).stores) && HoldFirst(w, g).actions == MarkInFlight(g.actions)
  {
    hide FirmOn, Append, WriteMarker, Replay, MarkInFlight;
    FirmMarker(w, g.stores);
    FirmAppend(w, WriteMarker(w, g.stores), Record.Invalidated(ByClose(CloseReason.StorageFailure), Held));
    FirmOnComposes(g.stores, WriteMarker(w, g.stores), HoldFirst(w, g).stores);
  }

  lemma QuietedStores(k: Gate, floor: bool)
    ensures Quieted(k, floor).stores == k.stores
  {
  }

  lemma FailedAppend(w: World, s: Stores, record: Record)
    requires !LastsNext(w, s)
    ensures FirmOn(s, Append(w, s, record))
  {
  }

  /** Everything a restart appends keeps the journal firm, but a lasting RESTARTED record in another state than HELD. */
  lemma RestartEntries(w: World, k: Gate, floor: bool)
    requires Quieted(k, floor).state == Held || !LastsNext(w, k.stores)
    ensures FirmOn(k.stores, RestartWith(w, k, floor).stores)
  {
    hide FirmOn, Append, Replay, Quieted, DenyQuietly, HoldFirst, RestartWith;
    var q := Quieted(k, floor);
    RestartIs(w, k, floor);
    NoneArmed(k, floor);
    QuietedStores(k, floor);
    if q.state == Held { FirmAppend(w, q.stores, Record.Restarted(Held)); }
    else { FailedAppend(w, q.stores, Record.Restarted(q.state)); }
    var told := Quiet(w, q, Record.Restarted(q.state));
    FirmHolding(w, told);
    FirmOnComposes(q.stores, told.stores, HoldFirst(w, told).stores);
    assert MarkInFlight(told.actions) == told.actions;
    NothingArmed(w, HoldFirst(w, told));
  }

  /** A firm journal is firm in every cut of what a restart on it appends. */
  lemma FirmRestart(w: World, k: Policy, s: Stores, n: nat)
    requires Firm(k.gate.stores) && (k.gate.stores.marker ==> s.marker)
    requires var t := PolicyRestart(w, k).gate.stores.entries;
             |k.gate.stores.entries| <= n <= |t| && s.entries == t[..n]
    ensures Firm(s)
  {
    hide Replay, RebuildWrites, RestartWith, PolicyRestart, HoldsOn;
    var floor := AnyAmbiguousWrite(RebuildWrites(k.gate.stores.entries).0);
    PolicyRestartIs(w, k);
    RestartEntries(w, k.gate, floor);
    if n > |k.gate.stores.entries| {
      FirmEnding(s);
    } else {
      assert s.entries == k.gate.stores.entries;
    }
  }

  // ---------------------------------------------------------------------------------------------- exactly when firm

  /** An action that holds a restart. */
  predicate InDoubt(a: Action) {
    !Settled(a) || a.classification == Some(IoAmbiguous)
  }

  /** The entry seals the action as something else than ambiguous. */
  predicate Resolves(entry: Entry, id: nat) {
    entry.Rec? && entry.record.Sealed? && entry.record.actionId == id && entry.record.classification != IoAmbiguous
  }

  predicate WriteInDoubt(e: WriteEntry) {
    e == WriteSent || e == WriteDone(IoAmbiguous)
  }

  /** The entry decides the write as something else than ambiguous. */
  predicate Decides(entry: Entry, id: nat) {
    entry.Rec? && entry.record.WriteTerminal? && entry.record.writeId == id
    && entry.record.classification != IoAmbiguous
  }

  predicate ActionLeft(actions: Actions, kept: seq<Entry>) {
    exists id | id in actions :: InDoubt(actions[id]) && forall e | e in kept :: !Resolves(e, id)
  }

  predicate WriteLeft(writes: Writes, kept: seq<Entry>) {
    exists id | id in writes :: WriteInDoubt(writes[id]) && forall e | e in kept :: !Decides(e, id)
  }

  /** What the memory of a process, the marker it leaves and the entries kept of what it was adding say of a hold: a
      marker, a torn entry or a last recorded state HELD before; a torn entry or a record of the state HELD among those
      kept; an action not settled or ambiguous, and none kept that seals it otherwise; or a write outstanding or
      ambiguous, and none kept that decides it otherwise. */
  predicate Holding(p: Policy, marker: bool, kept: seq<Entry>) {
    || marker || Replay(p.gate.stores.entries).torn || Replay(p.gate.stores.entries).state == Held
    || (exists e | e in kept :: HoldsOn(e)) || ActionLeft(p.gate.actions, kept) || WriteLeft(p.writes, kept)
  }

  lemma DoubtByRecord(g: Gate, r: Replayed, record: Record, id: nat)
    requires WellReplayed(r) && RecordLawful(r, record) && Mute(g, Rec(record))
    ensures var t := ReplayRecord(r, record);
            && t.actions.Keys == r.actions.Keys
            && (id in r.actions ==>
                  (InDoubt(t.actions[id]) <==> InDoubt(r.actions[id]) && !Resolves(Rec(record), id)))
  {
    if id in r.actions { assert Plausible(r.actions[id]); }
  }

  lemma Among(kept: seq<Entry>)
    requires kept != []
    ensures forall e :: e in kept <==> e in kept[..|kept| - 1] || e == kept[|kept| - 1]
  {
    assert kept == kept[..|kept| - 1] + [kept[|kept| - 1]];
  }

  lemma LawfulParts(base: seq<Entry>, kept: seq<Entry>)
    requires IsLawful(base + kept) && kept != []
    ensures var before := base + kept[..|kept| - 1];
            && base + kept == before + [kept[|kept| - 1]] && IsLawful(before) && WellReplayed(Replay(before))
            && (kept[|kept| - 1].Rec? ==> RecordLawful(Replay(before), kept[|kept| - 1].record))
  {
    hide RecordLawful, Replay, WellReplayed;
    var all := base + kept;
    assert all[..|all| - 1] == base + kept[..|kept| - 1];
    LawfulReplays(base + kept[..|kept| - 1]);
  }

  /** Along what a held gate appends, an action is in doubt until a kept entry resolves it. */
  lemma {:induction false} DoubtAlong(g: Gate, base: seq<Entry>, kept: seq<Entry>, id: nat)
    requires IsLawful(base + kept) && forall e | e in kept :: Mute(g, e)
    ensures var (r, t) := (Replay(base), Replay(base + kept));
            && t.actions.Keys == r.actions.Keys
            && (id in r.actions ==>
                  (InDoubt(t.actions[id]) <==> InDoubt(r.actions[id]) && forall e | e in kept :: !Resolves(e, id)))
  {
    hide RecordLawful, ReplayRecord, WellReplayed, Mute, InDoubt, IsLawful;
    if kept == [] {
      assert base + kept == base;
    } else {
      var before, last := base + kept[..|kept| - 1], kept[|kept| - 1];
      Among(kept);
      LawfulParts(base, kept);
      DoubtAlong(g, base, kept[..|kept| - 1], id);
      Folded(before, last);
      if last.Rec? { DoubtByRecord(g, Replay(before), last.record, id); }
    }
  }

  lemma StateByEntry(g: Gate, r: Replayed, entry: Entry)
    requires Mute(g, entry)
    ensures var t := ReplayEntry(r, entry); t.torn || t.state == Held <==> r.torn || r.state == Held || HoldsOn(entry)
  {
  }

  /** Along what a held gate appends: the torn flag and the recorded state. */
  lemma {:induction false} StateAlong(g: Gate, base: seq<Entry>, kept: seq<Entry>)
    requires forall e | e in kept :: Mute(g, e)
    ensures var (r, t) := (Replay(base), Replay(base + kept));
            (t.torn || t.state == Held) <==> (r.torn || r.state == Held || exists e | e in kept :: HoldsOn(e))
  {
    hide Mute, HoldsOn, ReplayEntry;
    if kept == [] {
      assert base + kept == base;
    } else {
      var before, last := base + kept[..|kept| - 1], kept[|kept| - 1];
      Among(kept);
      StateAlong(g, base, kept[..|kept| - 1]);
      assert base + kept == before + [last];
      Folded(before, last);
      StateByEntry(g, Replay(before), last);
    }
  }

  lemma WriteDoubtByEntry(g: Gate, q: WritesReplayed, entry: Entry, id: nat)
    requires Mute(g, entry) && ReplayWrite(q, entry).lawful
    ensures var t := ReplayWrite(q, entry);
            && q.lawful && t.writes.Keys == q.writes.Keys
            && (id in q.writes ==> (WriteInDoubt(t.writes[id]) <==> WriteInDoubt(q.writes[id]) && !Decides(entry, id)))
  {
  }

  lemma {:induction false} WriteDoubtAlong(g: Gate, base: seq<Entry>, kept: seq<Entry>, id: nat)
    requires ReplayWrites(base + kept).lawful && forall e | e in kept :: Mute(g, e)
    ensures var (q, t) := (ReplayWrites(base), ReplayWrites(base + kept));
            && t.writes.Keys == q.writes.Keys
            && (id in q.writes ==>
                  (WriteInDoubt(t.writes[id])
                   <==> WriteInDoubt(q.writes[id]) && forall e | e in kept :: !Decides(e, id)))
  {
    hide Mute, Decides, WriteInDoubt, ReplayWrite;
    if kept == [] {
      assert base + kept == base;
    } else {
      var before, last := base + kept[..|kept| - 1], kept[|kept| - 1];
      Among(kept);
      assert base + kept == before + [last];
      Folded(before, last);
      WriteDoubtByEntry(g, ReplayWrites(before), last, id);
      WriteDoubtAlong(g, base, kept[..|kept| - 1], id);
    }
  }

  lemma ActionDoubts(p: Policy, kept: seq<Entry>)
    requires PolicySound(p) && IsLawful(p.gate.stores.entries + kept) && forall e | e in kept :: Mute(p.gate, e)
    ensures !IsClean(Replay(p.gate.stores.entries + kept).actions) <==> ActionLeft(p.gate.actions, kept)
  {
    hide IsLawful, Mute, Resolves, Shaped, StampsCurrent, AccountAgrees, DerivationAgrees, Filed, Replay, Quelled,
         WritesShaped, WritesRebuilt, WritesFiled, SessionShaped, Derive, AccountOf;
    var (g, base) := (p.gate, p.gate.stores.entries);
    var (r, t) := (Replay(base), Replay(base + kept));
    forall id | id in t.actions || id in g.actions
      ensures id in t.actions && id in g.actions
      ensures InDoubt(t.actions[id]) <==> InDoubt(g.actions[id]) && forall e | e in kept :: !Resolves(e, id)
    {
      DoubtAlong(g, base, kept, id);
      assert Linked(g.actions[id], r.actions[id]);
    }
  }

  lemma ConcludedInDoubt(writes: Writes)
    ensures AnyAmbiguousWrite(ConcludeWrites(writes)) <==> exists id | id in writes :: WriteInDoubt(writes[id])
  {
    forall id | id in writes
      ensures WriteInDoubt(writes[id]) <==> ConcludeWrites(writes)[id] == WriteDone(IoAmbiguous)
    {
    }
    if id :| id in writes && WriteInDoubt(writes[id]) { assert id in ConcludeWrites(writes); }
  }

  lemma MatchedDoubts(q: WritesReplayed, writes: Writes, id: nat)
    requires WritesMatch(q, writes)
    ensures id in q.writes <==> id in writes
    ensures id in writes ==> (WriteInDoubt(q.writes[id]) <==> WriteInDoubt(writes[id]))
  {
    assert id in ConcludeWrites(q.writes) <==> id in ConcludeWrites(writes);
    if id in writes { assert ConcludeWrites(q.writes)[id] == ConcludeWrites(writes)[id]; }
  }

  lemma WriteDoubts(p: Policy, kept: seq<Entry>)
    requires PolicySound(p) && ReplayWrites(p.gate.stores.entries + kept).lawful
    requires forall e | e in kept :: Mute(p.gate, e)
    ensures AnyAmbiguousWrite(RebuildWrites(p.gate.stores.entries + kept).0) <==> WriteLeft(p.writes, kept)
  {
    hide Mute, Decides, Sound, WritesMatch, ReplayWrites, WritesFiled, SessionShaped, WritesShaped, ConcludeWrites,
         AnyAmbiguousWrite, WriteInDoubt;
    var base := p.gate.stores.entries;
    var (q, t) := (ReplayWrites(base), ReplayWrites(base + kept));
    forall id | id in t.writes || id in p.writes
      ensures id in t.writes && id in p.writes
      ensures WriteInDoubt(t.writes[id]) <==> WriteInDoubt(p.writes[id]) && forall e | e in kept :: !Decides(e, id)
    {
      WriteDoubtAlong(p.gate, base, kept, id);
      MatchedDoubts(q, p.writes, id);
    }
    ConcludedInDoubt(t.writes);
  }

  /** What a held gate leaves, cut after any of the entries it adds, is firm if and only if memory, the marker and the
      entries kept say so. */
  lemma FirmExactly(p: Policy, s: Stores, kept: seq<Entry>)
    requires PolicySound(p) && s.entries == p.gate.stores.entries + kept && JournalOk(s.entries)
    requires forall e | e in kept :: Mute(p.gate, e)
    ensures Firm(s) <==> Holding(p, s.marker, kept)
  {
    hide PolicySound, Mute, IsLawful, Replay, RebuildWrites, IsClean, ActionLeft, WriteLeft, HoldsOn, AccountOf, Quench,
         ReplayWrites, AnyAmbiguousWrite;
    ActionDoubts(p, kept);
    WriteDoubts(p, kept);
    StateAlong(p.gate, p.gate.stores.entries, kept);
    LawfulReplays(s.entries);
  }

  lemma QuietedFirm(k: Policy)
    ensures Quieted(k.gate, AnyAmbiguousWrite(RebuildWrites(k.gate.stores.entries).0)).state == Held
            <==> Firm(k.gate.stores)
  {
    hide Replay, RebuildWrites;
  }

  /** An entry that records another state than HELD and nothing else. */
  lemma HoldingByMarker(p: Policy, before: bool, after: bool, state: State)
    requires !Holding(p, before, []) && state != Held
    ensures Holding(p, after, [Rec(Record.Restarted(state))]) <==> after
  {
    hide Replay, InDoubt, WriteInDoubt;
    var kept := [Rec(Record.Restarted(state))];
    assert forall e | e in kept :: e == kept[0];
  }

  lemma RestartedFirm(k: Policy, s: Stores, state: State)
    requires !Firm(k.gate.stores) && s.entries == k.gate.stores.entries + [Rec(Record.Restarted(state))]
    requires state == State.Closed || state == State.Invalidated
    ensures Firm(s) <==> s.marker
  {
    hide Replay, ReplayWrites;
    Folded(k.gate.stores.entries, Rec(Record.Restarted(state)));
  }

  lemma RestartStays(w: World, p: Policy)
    ensures p.gate.stores.entries <= PolicyRestart(w, p).gate.stores.entries
  {
    hide Replay, RebuildWrites, PolicyRestart, RestartWith, Quieted, FailStorage;
    var floor := AnyAmbiguousWrite(RebuildWrites(p.gate.stores.entries).0);
    PolicyRestartIs(w, p);
    if Quieted(p.gate, floor).state == Held || !LastsNext(w, p.gate.stores) {
      RestartEntries(w, p.gate, floor);
    } else {
      LastingRestart(w, p.gate, floor);
      QuietedStores(p.gate, floor);
    }
  }

  lemma HoldingEnd(p: Policy, s: Stores, kept: seq<Entry>)
    requires s.entries != [] && HoldsOn(s.entries[|s.entries| - 1]) && kept != []
             && kept[|kept| - 1] == s.entries[|s.entries| - 1]
    ensures Firm(s) && Holding(p, s.marker, kept)
  {
    hide Replay, ActionLeft, WriteLeft, HoldsOn, Firm;
    FirmEnding(s);
    assert kept[|kept| - 1] in kept;
  }

  lemma QuietedStates(k: Gate, floor: bool)
    ensures var state := Quieted(k, floor).state;
            state == Held || state == State.Closed || state == State.Invalidated
  {
    hide Replay;
  }

  /** The same of a restart. */
  lemma FirmRestartExactly(w: World, p: Policy, s: Stores, n: nat)
    requires PolicySound(p)
    requires var t := PolicyRestart(w, p).gate.stores.entries;
             |p.gate.stores.entries| <= n <= |t| && s.entries == t[..n]
    ensures Firm(s) <==> Holding(p, s.marker, s.entries[|p.gate.stores.entries|..])
  {
    hide PolicySound, Replay, RebuildWrites, RestartWith, PolicyRestart, HoldsOn, Holding, Firm, JournalOk, Mute,
         Quieted;
    var (g, base) := (p.gate, p.gate.stores.entries);
    var (floor, t) := (AnyAmbiguousWrite(RebuildWrites(base).0), PolicyRestart(w, p).gate.stores.entries);
    var kept := s.entries[|base|..];
    SoundJournal(p);
    PolicyRestartIs(w, p);
    QuietedFirm(p);
    if n == |base| {
      RestartStays(w, p);
      assert s.entries == base && kept == [];
      FirmExactly(p, s, []);
    } else if Quieted(g, floor).state == Held || !LastsNext(w, g.stores) {
      RestartEntries(w, g, floor);
      HoldingEnd(p, s, kept);
    } else {
      var record := Record.Restarted(Quieted(g, floor).state);
      LastingRestart(w, g, floor);
      QuietedStores(g, floor);
      QuietedStates(g, floor);
      assert t == base + [Rec(record)] && kept == [Rec(record)];
      assert base + [] == base;
      FirmExactly(p, g.stores, []);
      HoldingByMarker(p, g.stores.marker, s.marker, Quieted(g, floor).state);
      RestartedFirm(p, s, Quieted(g, floor).state);
    }
  }
}
