/** What can be recovered from a journal alone. Every prefix of a sound generation's journal is a journal from which a
    new process comes up sound. */
module Recovery {
  import opened Vocabulary
  import opened Journal
  import opened GateModel
  import opened WriteReplay
  import opened Lawful
  import opened GateInvariant
  import opened GateRestart
  import opened PolicyModel
  import opened PolicyInvariant

  /** A journal as every run leaves it: lawful, every record justified, nothing forwarded after a stop, the writes in
      order. */
  ghost predicate JournalOk(entries: seq<Entry>) {
    IsLawful(entries) && AccountOf(entries).sound && Quench(entries).clean && ReplayWrites(entries).lawful
  }

  lemma SoundJournal(p: Policy)
    requires PolicySound(p)
    ensures JournalOk(p.gate.stores.entries)
  {
  }

  lemma {:induction false} FoldsPrefix(entries: seq<Entry>, n: nat)
    requires AccountOf(entries).sound && Quench(entries).clean && ReplayWrites(entries).lawful && n <= |entries|
    ensures AccountOf(entries[..n]).sound && Quench(entries[..n]).clean && ReplayWrites(entries[..n]).lawful
  {
    if n == |entries| {
      assert entries[..n] == entries;
    } else {
      FoldsPrefix(entries[..|entries| - 1], n);
      assert entries[..|entries| - 1][..n] == entries[..n];
    }
  }

  /** A prefix of a good journal is one. */
  lemma PrefixOk(entries: seq<Entry>, n: nat)
    requires JournalOk(entries) && n <= |entries|
    ensures JournalOk(entries[..n])
  {
    hide IsLawful, AccountOf, Quench, ReplayWrites;
    LawfulPrefix(entries, n);
    FoldsPrefix(entries, n);
  }

  // ---------------------------------------------------------------------------------------------- the base gate

  /** What the account of a journal, its replay and its derivation agree on. */
  predicate Accounted(a: Account, r: Replayed, d: Derived) {
    && a.execution == (if d.bound.Some? then Some(d.bound.value.executionId) else None)
    && a.executions == d.boundIds
    && a.arms.Keys == r.actions.Keys
    && (a.execution.Some? ==> a.execution.value in a.executions)
    && (a.execution.None? ==> r.actions.Keys == {})
    && (forall p | p in a.forwarded ::
          p.0 in a.executions && (a.execution == Some(p.0) ==> p.1 in r.actions && r.actions[p.1].status != Armed))
  }

  /** A record that binds and arms nothing leaves the actions, none of them armed again. */
  lemma MarkedStatuses(actions: Actions)
    ensures MarkConsumed(actions).Keys == actions.Keys
    ensures forall id | id in actions :: MarkConsumed(actions)[id].status == actions[id].status
  {
  }

  lemma OtherStatuses(r: Replayed, record: Record)
    requires RecordLawful(r, record) && !record.Bind? && !record.Arm?
    ensures var s := ReplayRecord(r, record);
            s.actions.Keys == r.actions.Keys
            && forall id | id in r.actions && r.actions[id].status != Armed :: s.actions[id].status != Armed
    ensures record.Consumed? ==> ReplayRecord(r, record).actions[record.actionId].status != Armed
  {
    hide MarkConsumed;
    MarkedStatuses(r.actions);
  }

  lemma OtherFolds(a: Account, d: Derived, record: Record)
    requires !record.Bind? && !record.Arm?
    ensures var b := AccountRecord(a, record);
            b.execution == a.execution && b.executions == a.executions && b.arms == a.arms
            && (!record.Consumed? ==> b.forwarded == a.forwarded)
    ensures var e := DeriveEntry(d, Rec(record)); e.bound == d.bound && e.boundIds == d.boundIds
  {
  }

  lemma OtherAccounted(a: Account, r: Replayed, d: Derived, record: Record)
    requires Accounted(a, r, d) && RecordLawful(r, record) && !record.Bind? && !record.Arm? && !record.Consumed?
    ensures Accounted(AccountRecord(a, record), ReplayRecord(r, record), DeriveEntry(d, Rec(record)))
  {
    hide RecordLawful, ReplayRecord, AccountRecord, DeriveEntry;
    OtherStatuses(r, record);
    OtherFolds(a, d, record);
  }

  lemma ConsumedAccounted(a: Account, r: Replayed, d: Derived, id: nat)
    requires var record := Record.Consumed(id);
             Accounted(a, r, d) && RecordLawful(r, record) && AccountRecord(a, record).sound
    ensures var record := Record.Consumed(id);
            Accounted(AccountRecord(a, record), ReplayRecord(r, record), DeriveEntry(d, Rec(record)))
  {
    hide RecordLawful, ReplayRecord, DeriveEntry;
    OtherStatuses(r, Record.Consumed(id));
    OtherFolds(a, d, Record.Consumed(id));
  }

  lemma BoundAccounted(a: Account, r: Replayed, d: Derived, record: Record)
    requires Accounted(a, r, d) && record.Bind? && AccountRecord(a, record).sound
    ensures Accounted(AccountRecord(a, record), ReplayRecord(r, record), DeriveEntry(d, Rec(record)))
  {
  }

  lemma ArmedAccounted(a: Account, r: Replayed, d: Derived, record: Record)
    requires Accounted(a, r, d) && record.Arm? && RecordLawful(r, record) && AccountRecord(a, record).sound
    ensures Accounted(AccountRecord(a, record), ReplayRecord(r, record), DeriveEntry(d, Rec(record)))
  {
    assert record.actionId !in r.actions;
  }

  lemma RecordAccounted(a: Account, r: Replayed, d: Derived, record: Record)
    requires Accounted(a, r, d) && RecordLawful(r, record) && AccountRecord(a, record).sound
    ensures Accounted(AccountRecord(a, record), ReplayRecord(r, record), DeriveEntry(d, Rec(record)))
  {
    hide Accounted, RecordLawful, ReplayRecord, AccountRecord, DeriveEntry;
    match record
    case Bind(_, _, _, _, _) => BoundAccounted(a, r, d, record);
    case Arm(_, _, _, _, _) => ArmedAccounted(a, r, d, record);
    case Consumed(id) => ConsumedAccounted(a, r, d, id);
    case _ => OtherAccounted(a, r, d, record);
  }

  lemma SoundBefore(a: Account, entry: Entry)
    requires AccountEntry(a, entry).sound
    ensures a.sound
  {
  }

  lemma TornAccounted(a: Account, r: Replayed, d: Derived)
    requires Accounted(a, r, d)
    ensures Accounted(AccountEntry(a, Torn), ReplayEntry(r, Torn), DeriveEntry(d, Torn))
  {
  }

  lemma {:induction false} LawfulAccounted(entries: seq<Entry>)
    requires IsLawful(entries) && AccountOf(entries).sound
    ensures Accounted(AccountOf(entries), Replay(entries), Derive(entries))
  {
    hide RecordLawful, ReplayRecord, AccountRecord, DeriveEntry;
    if entries != [] {
      var before, last := entries[..|entries| - 1], entries[|entries| - 1];
      assert AccountOf(before).sound by { SoundBefore(AccountOf(before), last); }
      LawfulAccounted(before);
      if last.Rec? { RecordAccounted(AccountOf(before), Replay(before), Derive(before), last.record); }
      else { TornAccounted(AccountOf(before), Replay(before), Derive(before)); }
    }
  }

  /** What a new process rebuilds from the journal, held. */
  ghost function Recovered(c: PolicyConfig, s: Stores, untraced: bool): Policy {
    var (writes, reason) := RebuildWrites(s.entries);
    Policy(Quieted(OnStores(c.base, s, untraced), true), MaintEnded, Some(reason), None, writes, None)
  }

  lemma RecoveredLinked(r: Replayed)
    requires WellReplayed(r)
    ensures forall id | id in r.actions :: Linked(Conclude(r.actions)[id], r.actions[id])
    ensures Conclude(r.actions).Keys == r.actions.Keys && |Conclude(r.actions)| == |r.actions|
  {
    assert Conclude(r.actions).Keys == r.actions.Keys;
    assert |Conclude(r.actions)| == |Conclude(r.actions).Keys| && |r.actions.Keys| == |r.actions|;
    forall id | id in r.actions
      ensures Linked(Conclude(r.actions)[id], r.actions[id])
    {
      assert Plausible(r.actions[id]);
    }
  }

  lemma RecoveredOn(g: Gate, r: Replayed, d: Derived, a: Account)
    requires WellReplayed(r) && Accounted(a, r, d) && a.sound && g.actions == Conclude(r.actions) && g.state == Held
    requires forall id | id in r.actions :: Linked(Conclude(r.actions)[id], r.actions[id])
    requires |g.actions| == |r.actions| && g.connections == map[]
    requires g.bound == d.bound && g.boundIds == d.boundIds && g.boundNonces == d.boundNonces && g.expired == d.expired
    ensures SoundOn(g, r, d, a)
  {
    hide Linked;
    assert g.actions.Keys == r.actions.Keys;
    forall id | id in g.actions
      ensures 1 <= id <= |g.actions| && (id < |g.actions| ==> Settled(g.actions[id])) && g.actions[id].armed.None?
      ensures g.actions[id].status == Status.Terminal
    {
      assert Plausible(r.actions[id]);
    }
  }

  /** A good journal recovers to a sound gate. */
  lemma RecoversSound(c: Config, s: Stores, untraced: bool)
    requires JournalOk(s.entries) && !s.parted
    ensures Sound(Quieted(OnStores(c, s, untraced), true))
    ensures Restartable(Quieted(OnStores(c, s, untraced), true), OnStores(c, s, untraced))
  {
    hide IsLawful, Linked, Filed;
    var (a, r, d) := (AccountOf(s.entries), Replay(s.entries), Derive(s.entries));
    var g := Quieted(OnStores(c, s, untraced), true);
    LawfulReplays(s.entries);
    LawfulAccounted(s.entries);
    RecoveredLinked(r);
    assert SoundOn(g, r, d, a) by { RecoveredOn(g, r, d, a); }
    FiledUnparted(g);
  }

  // ---------------------------------------------------------------------------------------------- the policy gate

  lemma {:induction false} LawfulWrites(entries: seq<Entry>)
    requires ReplayWrites(entries).lawful
    ensures forall id | id in ReplayWrites(entries).writes :: 1 <= id <= |ReplayWrites(entries).writes|
  {
    if entries != [] {
      var before := ReplayWrites(entries[..|entries| - 1]);
      LawfulWrites(entries[..|entries| - 1]);
      var after := ReplayWrites(entries);
      assert after.writes.Keys == before.writes.Keys || after.writes.Keys == before.writes.Keys + {|before.writes| + 1};
    }
  }

  lemma OkWrites(entries: seq<Entry>)
    requires JournalOk(entries)
    ensures ReplayWrites(entries).lawful
  {
  }

  /** A good journal recovers to a sound policy gate, which is one the new process may restart on. */
  lemma Recovers(c: PolicyConfig, s: Stores, untraced: bool)
    requires JournalOk(s.entries) && !s.parted
    ensures PolicySound(Recovered(c, s, untraced))
    ensures Restartable(Recovered(c, s, untraced).gate, OnStores(c.base, s, untraced))
  {
    hide Sound, JournalOk, Restartable;
    RecoversSound(c.base, s, untraced);
    assert ReplayWrites(s.entries).lawful by { OkWrites(s.entries); }
    LawfulWrites(s.entries);
    var p := Recovered(c, s, untraced);
    assert p.writes.Keys == ReplayWrites(s.entries).writes.Keys;
    assert |p.writes| == |p.writes.Keys| == |ReplayWrites(s.entries).writes|;
  }
}
