/** Restarts: what GATE_RESTART and a process restart rebuild from the journal alone, and what the last-known gate in
    memory says about it. */
module GateRestart {
  import opened Vocabulary
  import opened Journal
  import opened GateModel
  import opened WriteReplay
  import opened GateInvariant
  import opened GateStorage

  /** `h` is what a restart rebuilds before it journals RESTARTED. */
  predicate Rebuilt(g: Gate, h: Gate, r: Replayed, d: Derived) {
    && h.actions == Conclude(r.actions)
    && (h.state == Held || (h.state == r.state && r.state != Held && IsClean(r.actions)))
    && h.bound == g.bound && h.boundIds == g.boundIds && h.boundNonces == g.boundNonces && (d.expired ==> h.expired)
    && (forall c | c in h.connections ::
          !h.connections[c].open && (h.connections[c].consumed ==> h.connections[c].requests >= 1))
  }

  lemma RebuiltLinked(g: Gate, h: Gate, r: Replayed, d: Derived)
    requires ReplayLinked(g, r) && Rebuilt(g, h, r, d)
    ensures ReplayLinked(h, r)
  {
    forall id | id in h.actions
      ensures Linked(h.actions[id], r.actions[id])
    {
      assert Linked(g.actions[id], r.actions[id]);
    }
  }

  lemma RebuiltShaped(g: Gate, h: Gate, r: Replayed, d: Derived)
    requires ReplayLinked(g, r) && Shaped(g) && Rebuilt(g, h, r, d)
    ensures Shaped(h)
  {
    assert h.actions.Keys == g.actions.Keys;
    assert |h.actions| == |h.actions.Keys| == |g.actions|;
    forall id | id in h.actions
      ensures 1 <= id <= |h.actions| && (id < |h.actions| ==> Settled(h.actions[id]))
      ensures h.actions[id].classification == Some(IoAmbiguous) ==> h.state == Held
    {
      assert Linked(g.actions[id], r.actions[id]);
    }
  }

  lemma RebuiltForgets(g: Gate, h: Gate, r: Replayed, d: Derived)
    requires ReplayLinked(g, r) && Rebuilt(g, h, r, d)
    requires forall id | id in r.actions :: r.actions[id].armed.None?
    ensures h.actions.Keys == r.actions.Keys == g.actions.Keys && h.state != Active
    ensures forall id | id in h.actions :: h.actions[id].status == Status.Terminal && h.actions[id].armed.None?
  {
    hide Linked, IsClean;
    assert h.actions.Keys == r.actions.Keys;
  }

  lemma RebuiltAccount(g: Gate, h: Gate, r: Replayed, d: Derived, a: Account)
    requires ReplayLinked(g, r) && AccountAgrees(g, r, a) && Rebuilt(g, h, r, d)
    requires forall id | id in r.actions :: r.actions[id].armed.None?
    ensures AccountAgrees(h, r, a)
  {
    hide ReplayLinked, Conclude, IsClean;
    RebuiltForgets(g, h, r, d);
  }

  /** A replay remembers no targets, connections or results. */
  lemma {:induction false} ReplayForgets(entries: seq<Entry>)
    ensures forall id | id in Replay(entries).actions :: Replay(entries).actions[id].armed.None?
  {
    if entries != [] {
      ReplayForgets(entries[..|entries| - 1]);
    }
  }

  lemma RebuiltKeeps(g: Gate, h: Gate, d: Derived, a: Account)
    requires var r := Replay(g.stores.entries); SoundOn(g, r, d, a) && Rebuilt(g, h, r, d)
    ensures SoundOn(h, Replay(g.stores.entries), d, a)
  {
    hide ReplayLinked, Shaped, AccountAgrees;
    var r := Replay(g.stores.entries);
    RebuiltLinked(g, h, r, d);
    RebuiltShaped(g, h, r, d);
    ReplayForgets(g.stores.entries);
    RebuiltAccount(g, h, r, d, a);
  }

  /** The state a restart comes to, before its own record: HELD, or the one memory held too. */
  lemma RebuiltStateKnown(g: Gate)
    requires Sound(g)
    ensures var st := RebuiltState(g.stores); var r := Replay(g.stores.entries);
            && (st == Held || (st == r.state && r.state != Held && IsClean(r.actions)))
            && (g.state != Held ==> st == Held || st == g.state)
  {
  }

  /** Evidence holds through a restart. */
  lemma EvidenceHolds(g: Gate)
    requires Sound(g) && HasEvidence(g)
    ensures RebuiltState(g.stores) == Held
  {
    var r := Replay(g.stores.entries);
    if id :| id in g.actions && g.actions[id].classification == Some(IoAmbiguous) {
      assert Linked(g.actions[id], r.actions[id]);
      assert !(Settled(r.actions[id]) && r.actions[id].classification != Some(IoAmbiguous));
    }
  }

  lemma CleanAlike(g: Gate, r: Replayed)
    requires ReplayLinked(g, r)
    ensures IsClean(g.actions) <==> IsClean(r.actions)
  {
    forall id | id in g.actions
      ensures Settled(g.actions[id]) && g.actions[id].classification != Some(IoAmbiguous)
              <==> Settled(r.actions[id]) && r.actions[id].classification != Some(IoAmbiguous)
    {
      assert Linked(g.actions[id], r.actions[id]);
    }
  }

  // ---------------------------------------------------------------------------------------------- the restart

  /** `k` is a gate a restart may run on after `g`: `g` itself, or a new process's gate on the stores `g` left. */
  ghost predicate Restartable(g: Gate, k: Gate) {
    && k.stores == g.stores && k.untraced == g.untraced
    && k.bound == g.bound && k.boundIds == g.boundIds && k.boundNonces == g.boundNonces
    && (Derive(g.stores.entries).expired ==> k.expired)
    && (forall c | c in k.connections :: k.connections[c].consumed ==> k.connections[c].requests >= 1)
  }

  lemma SelfRestartable(g: Gate)
    requires Sound(g)
    ensures Restartable(g, g)
  {
  }

  /** What a restart rebuilds, before RESTARTED is journalled. */
  ghost function Quieted(k: Gate, floor: bool): Gate {
    k.(actions := Conclude(Replay(k.stores.entries).actions), state := if floor then Held else RebuiltState(k.stores),
       connections := CloseAll(k.connections), backlog := [], channel := Shut, drainPending := false)
  }

  lemma LinkedStates(g: Gate)
    requires Sound(g)
    ensures var st := Replay(g.stores.entries).state; st == Held || st == State.Closed || st == State.Invalidated
  {
  }

  /** A settled action is rebuilt as it was, and no other is rebuilt settled. */
  lemma QuietedSettled(g: Gate, k: Gate, floor: bool)
    requires Sound(g) && Restartable(g, k)
    ensures Quieted(k, floor).actions.Keys == g.actions.Keys
    ensures forall id | id in g.actions ::
              var (m, n) := (g.actions[id], Quieted(k, floor).actions[id]);
              (Settled(m) <==> Settled(n)) && (Settled(m) ==> SealedAlike(m, n))
  {
    hide Shaped, StampsCurrent, AccountAgrees, DerivationAgrees, Filed, Replay, Derive, AccountOf;
    var r := Replay(g.stores.entries);
    forall id | id in g.actions
      ensures var (m, n) := (g.actions[id], Quieted(k, floor).actions[id]);
              (Settled(m) <==> Settled(n)) && (Settled(m) ==> SealedAlike(m, n))
    {
      assert Linked(g.actions[id], r.actions[id]);
    }
  }

  lemma QuietedFiled(g: Gate, k: Gate, floor: bool)
    requires Sound(g) && Restartable(g, k)
    ensures Filed(Quieted(k, floor))
  {
    hide Coherent, Filed, Replay, AccountOf, Conclude, Settled;
    QuietedSettled(g, k, floor);
    SoundFiled(g);
    FiledLess(g, Quieted(k, floor));
  }

  lemma {:induction false} TornIn(entries: seq<Entry>)
    requires Torn in entries
    ensures Replay(entries).torn
  {
    var before, last := entries[..|entries| - 1], entries[|entries| - 1];
    if last != Torn {
      assert Torn in before;
      TornIn(before);
    }
  }

  /** A file other than its mirror leaves the mirror torn, so every restart on the mirror is HELD. */
  lemma PartedHolds(s: Stores)
    requires s.parted
    ensures RebuiltState(s) == Held
  {
    TornIn(s.entries);
  }

  lemma QuietedSound(g: Gate, k: Gate, floor: bool)
    requires Sound(g) && Restartable(g, k)
    ensures Sound(Quieted(k, floor)) && Fits(Quieted(k, floor), Record.Restarted(Quieted(k, floor).state))
  {
    hide SoundOn, Shaped, StampsCurrent, AccountAgrees, RebuiltState, Filed;
    var s := g.stores.entries;
    QuietedFiled(g, k, floor);
    if g.stores.parted { PartedHolds(k.stores); }
    RebuiltStateKnown(g);
    RebuiltKeeps(g, Quieted(k, floor), Derive(s), AccountOf(s));
    LinkedStates(g);
  }

  /** The journalling of RESTARTED after a rebuild. */
  lemma RestartedKeeps(w: World, g: Gate, k: Gate, floor: bool)
    requires Sound(g) && Restartable(g, k)
    ensures var (q, h) := (Quieted(k, floor), RestartWith(w, k, floor));
            Sound(h) && Aftermath(q, h) && Traced(h) && (q.state == Held ==> h.state == Held)
  {
    hide Sound, Fits, RebuiltState, Journalled;
    var q, h := Quieted(k, floor), RestartWith(w, k, floor);
    QuietedSound(g, k, floor);
    JournalledKeeps(w, q, Record.Restarted(q.state));
    if LastsNext(w, q.stores) {
      assert Replay(h.stores.entries).state == q.state == h.state;
    }
  }

  /** Every rebuilt action is TERMINAL, so no append changes it. */
  lemma RestartedActions(w: World, g: Gate, k: Gate, floor: bool)
    requires Sound(g) && Restartable(g, k)
    ensures RestartWith(w, k, floor).actions == Conclude(Replay(g.stores.entries).actions)
  {
    hide Sound, RestartWith, Traced;
    var q, h := Quieted(k, floor), RestartWith(w, k, floor);
    RestartedKeeps(w, g, k, floor);
    forall id | id in q.actions
      ensures h.actions[id] == q.actions[id]
    {
      assert Later(q.actions[id], h.actions[id]);
    }
  }

  lemma RestartOutlasts(w: World, g: Gate, k: Gate, floor: bool)
    requires Sound(g) && Restartable(g, k)
    ensures Outlasts(g, RestartWith(w, k, floor).stores.file)
  {
    hide Sound, RestartWith, RebuiltState, Traced, Outlasts, Replay, Conclude, Settled;
    var q, h := Quieted(k, floor), RestartWith(w, k, floor);
    RestartedKeeps(w, g, k, floor);
    QuietedSettled(g, k, floor);
    assert Outlasts(g, q.stores.file) by { NothingOutlasts(g); }
    OutlastsComposes(g, q, h.stores.file);
  }

  /** A restart keeps the invariant, leaves evidence of a hold and is final: not ACTIVE, the channel shut. It comes up
      HELD or in the state memory was in; a hold with evidence, or with a floor, stays. */
  lemma RestartKeeps(w: World, g: Gate, k: Gate, floor: bool)
    requires Sound(g) && Restartable(g, k)
    ensures var h := RestartWith(w, k, floor);
            && Sound(h) && Traced(h) && h.channel == Shut && h.state != Active && !h.drainPending
            && (g.state != Held ==> h.state == Held || h.state == g.state)
            && (floor || (g.state == Held && HasEvidence(g)) ==> h.state == Held)
            && (g.untraced ==> h.untraced) && Longer(g.stores, h.stores)
            && AccountOf(h.stores.entries) == AccountOf(g.stores.entries) && h.boundIds == g.boundIds
            && ReplayWrites(h.stores.entries) == ReplayWrites(g.stores.entries)
            && ReplayWrites(h.stores.file) == ReplayWrites(g.stores.file) && Outlasts(g, h.stores.file)
  {
    hide Sound, RestartWith, HasEvidence, RebuiltState, Traced, Outlasts;
    RestartOutlasts(w, g, k, floor);
    RestartedKeeps(w, g, k, floor);
    LinkedStates(g);
    RebuiltStateKnown(g);
    if HasEvidence(g) { EvidenceHolds(g); }
  }

  /** The journal rebuilds memory: after a restart the same actions exist, with the same seals; a TERMINAL action keeps
      its classification, a CONSUMED one is IO_AMBIGUOUS and an ARMED one NOT_FORWARDED; the flag of a settled action is
      unchanged, and the `inconsistent` case never arises. */
  lemma RestartRebuildsMemory(w: World, g: Gate, k: Gate, floor: bool)
    requires Sound(g) && Restartable(g, k)
    ensures !Replay(g.stores.entries).inconsistent
    ensures RestartWith(w, k, floor).actions.Keys == g.actions.Keys
    ensures forall id | id in g.actions ::
              var (m, n) := (g.actions[id], RestartWith(w, k, floor).actions[id]);
              && n.status == Status.Terminal && n.sealed == m.sealed
              && n.classification == (match m.status
                                      case Terminal => m.classification
                                      case Consumed => Some(IoAmbiguous)
                                      case Armed => Some(NotForwarded))
              && (m.status == Status.Consumed ==> n.after) && (Settled(m) ==> n.after == m.after)
  {
    hide RestartWith, Shaped, StampsCurrent, AccountAgrees, DerivationAgrees, Restartable;
    RestartedActions(w, g, k, floor);
    var r := Replay(g.stores.entries);
    forall id | id in g.actions
      ensures Linked(g.actions[id], r.actions[id]) && Conclude(r.actions)[id] == Concluded(r.actions[id])
    {
    }
  }

  // ---------------------------------------------------------------------------------------------- a second restart

  lemma NothingArmed(w: World, g: Gate)
    requires WithStatus(g.actions, Armed) == {}
    ensures DenyArmed(w, g) == g && DenyQuietly(w, g) == g
  {
  }

  lemma RestartIs(w: World, k: Gate, floor: bool)
    ensures RestartWith(w, k, floor) == Journalled(w, Quieted(k, floor), Record.Restarted(Quieted(k, floor).state))
  {
  }

  /** A restart whose RESTARTED record lasts. */
  lemma LastingRestart(w: World, k: Gate, floor: bool)
    requires LastsNext(w, k.stores)
    ensures RestartWith(w, k, floor) == Quiet(w, Quieted(k, floor), Record.Restarted(Quieted(k, floor).state))
  {
  }

  /** The replay after a lasting RESTARTED record is the one before it, in the state recorded. */
  lemma RestartedReplay(w: World, k: Gate, floor: bool)
    requires LastsNext(w, k.stores)
    ensures var h := RestartWith(w, k, floor); Replay(h.stores.entries) == Replay(k.stores.entries).(state := h.state)
    ensures RestartWith(w, k, floor).stores.marker == k.stores.marker
  {
    hide Replay, RebuiltState;
    LastingRestart(w, k, floor);
    AppendedFolds(w, k.stores, Record.Restarted(Quieted(k, floor).state));
  }

  /** A restart right after a restart adds its own RESTARTED record and changes nothing else, when both records last. */
  lemma SecondBaseRestart(w: World, k: Gate, floor: bool)
    requires LastsNext(w, k.stores) && LastsNext(w, RestartWith(w, k, floor).stores)
    ensures var h := RestartWith(w, k, floor);
            RestartWith(w, h, floor) == h.(stores := Append(w, h.stores, Record.Restarted(h.state)))
  {
    hide Replay, RestartWith, Append;
    var h := RestartWith(w, k, floor);
    LastingRestart(w, k, floor);
    RestartedReplay(w, k, floor);
    assert CloseAll(CloseAll(k.connections)) == CloseAll(k.connections);
    assert Quieted(h, floor) == h;
    LastingRestart(w, h, floor);
  }
}
