/** What a journal says by itself: every record is one the records before it allow. It holds of every prefix of a lawful
    journal, so a journal cut anywhere is as good as a whole one. */
module Lawful {
  import opened Vocabulary
  import opened Journal
  import opened GateModel

  /** The states a journal may record. */
  predicate MayRecord(state: State) {
    state == State.Closed || state == State.Invalidated || state == Held
  }

  /** A record after a journal that replays to `r`: an action is armed under the next id once all others are settled,
      consumed while armed, concluded while in flight, denied while never forwarded, and sealed once, as what a restart
      would conclude. */
  predicate RecordLawful(r: Replayed, record: Record) {
    match record
    case Arm(id, _, _, _, _) => id == |r.actions| + 1 && AllSettled(r.actions)
    case Consumed(id) => id in r.actions && r.actions[id].status == Armed
    case Terminal(id, classification, _, _) =>
      id in r.actions && r.actions[id].status == Status.Consumed && classification != NotForwarded
    case Denied(id) =>
      id in r.actions && Concluded(r.actions[id]).classification == Some(NotForwarded) && !r.actions[id].after
    case Sealed(id, classification, _) =>
      id in r.actions && !r.actions[id].sealed && Concluded(r.actions[id]).classification == Some(classification)
    case _ => MayRecord(RecordedState(record, Held))
  }

  predicate IsLawful(entries: seq<Entry>) {
    if entries == [] then true
    else
      var (before, last) := (entries[..|entries| - 1], entries[|entries| - 1]);
      IsLawful(before) && (last.Rec? ==> RecordLawful(Replay(before), last.record))
  }

  lemma {:induction false} LawfulPrefix(entries: seq<Entry>, n: nat)
    requires IsLawful(entries) && n <= |entries|
    ensures IsLawful(entries[..n])
  {
    hide RecordLawful;
    if n == |entries| {
      assert entries[..n] == entries;
    } else {
      LawfulPrefix(entries[..|entries| - 1], n);
      assert entries[..|entries| - 1][..n] == entries[..n];
    }
  }

  lemma LawfulAppended(w: World, s: Stores, record: Record)
    ensures IsLawful(Append(w, s, record).entries)
            <==> IsLawful(s.entries) && (LastsNext(w, s) ==> RecordLawful(Replay(s.entries), record))
  {
    hide RecordLawful, Replay;
    var t := Append(w, s, record).entries;
    if t == s.entries + [] { assert t == s.entries; } else { assert t[..|t| - 1] == s.entries; }
  }

  // ---------------------------------------------------------------------------------- what a lawful journal replays to

  /** An action as a lawful journal replays it. */
  predicate Plausible(j: Action) {
    && (j.sealed ==> j.status == Status.Terminal)
    && (j.status == Status.Terminal <==> j.classification.Some?)
    && (j.classification == Some(NotForwarded) ==> !j.after)
    && (j.status == Armed ==> !j.after)
    && j.armed.None?
  }

  /** Ids run from 1 and only the last action may be unsettled. */
  predicate WellReplayed(r: Replayed) {
    && !r.inconsistent && MayRecord(r.state)
    && (forall id | id in r.actions ::
          1 <= id <= |r.actions| && Plausible(r.actions[id]) && (id < |r.actions| ==> Settled(r.actions[id])))
  }

  lemma MarkedWell(r: Replayed, state: State)
    requires WellReplayed(r) && MayRecord(state)
    ensures WellReplayed(r.(state := state, actions := MarkConsumed(r.actions)))
  {
    assert MarkConsumed(r.actions).Keys == r.actions.Keys;
    assert |MarkConsumed(r.actions)| == |MarkConsumed(r.actions).Keys| == |r.actions|;
  }

  lemma ArmedWell(r: Replayed, id: nat)
    requires WellReplayed(r) && id == |r.actions| + 1 && AllSettled(r.actions)
    ensures WellReplayed(r.(actions := r.actions[id := REBUILT]))
  {
    assert r.actions[id := REBUILT].Keys == r.actions.Keys + {id};
  }

  lemma ChangedWell(r: Replayed, id: nat, j: Action)
    requires WellReplayed(r) && id in r.actions && Plausible(j) && (id < |r.actions| ==> Settled(j))
    ensures WellReplayed(r.(actions := r.actions[id := j]))
  {
    assert r.actions[id := j].Keys == r.actions.Keys;
  }

  lemma StateWell(r: Replayed)
    requires WellReplayed(r)
    ensures MayRecord(r.state)
  {
  }

  lemma NoneWell(r: Replayed)
    requires WellReplayed(r)
    ensures WellReplayed(r.(actions := map[]))
  {
  }

  lemma OneWell(r: Replayed, id: nat)
    requires WellReplayed(r) && id in r.actions
    ensures Plausible(r.actions[id]) && (id < |r.actions| ==> Settled(r.actions[id]))
  {
  }

  lemma RestatedWell(r: Replayed, state: State)
    requires WellReplayed(r) && MayRecord(state)
    ensures WellReplayed(r.(state := state))
  {
  }

  lemma RecordWell(r: Replayed, record: Record)
    requires WellReplayed(r) && RecordLawful(r, record)
    ensures WellReplayed(ReplayRecord(r, record))
  {
    hide WellReplayed;
    assert MayRecord(r.state) by { StateWell(r); }
    match record
    case Bind(_, _, _, _, _) => NoneWell(r);
    case Arm(id, _, _, _, _) => ArmedWell(r, id);
    case Consumed(id) => OneWell(r, id); ChangedWell(r, id, ReplayRecord(r, record).actions[id]);
    case Terminal(id, _, _, _) => OneWell(r, id); ChangedWell(r, id, ReplayRecord(r, record).actions[id]);
    case Denied(id) => OneWell(r, id); ChangedWell(r, id, ReplayRecord(r, record).actions[id]);
    case Sealed(id, _, _) => OneWell(r, id); ChangedWell(r, id, ReplayRecord(r, record).actions[id]);
    case Invalidated(_, state) => MarkedWell(r, state);
    case Expired(_) => MarkedWell(r, r.state);
    case _ => RestatedWell(r, RecordedState(record, r.state));
  }

  /** A lawful journal replays to actions in order, each of them plausible. */
  lemma {:induction false} LawfulReplays(entries: seq<Entry>)
    requires IsLawful(entries)
    ensures WellReplayed(Replay(entries))
  {
    hide RecordLawful, ReplayRecord;
    if entries != [] {
      var before, last := entries[..|entries| - 1], entries[|entries| - 1];
      LawfulReplays(before);
      if last.Rec? { RecordWell(Replay(before), last.record); }
    }
  }
}
