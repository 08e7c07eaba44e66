/** What every event of the policy gate keeps: the writes the journal rebuilds, who owns a maintenance, and how the
    maintenance, the fence, the outstanding write and the effect actions exclude each other. */
module PolicyInvariant {
  import opened Vocabulary
  import opened Journal
  import opened GateModel
  import opened WriteReplay
  import opened GateInvariant
  import opened GateEvents
  import opened PolicyModel

  predicate Underway(p: Policy) {
    p.maintenance == MaintPending || p.maintenance == MaintOpen || p.maintenance == MaintHeld
  }

  predicate NoneUndecided(actions: Actions) {
    forall id | id in actions :: actions[id].status == Status.Terminal
  }

  /** Write ids run from 1, only the outstanding write is undecided, and an ambiguous write holds the generation. */
  predicate WritesShaped(p: Policy) {
    && (forall id | id in p.writes ::
          && 1 <= id <= |p.writes|
          && (p.writes[id] == WriteSent ==> p.pending.Some? && p.pending.value.writeId == id)
          && (p.writes[id] == WriteDone(IoAmbiguous) ==> p.gate.state == Held))
    && (p.pending.Some? ==> p.pending.value.writeId in p.writes && p.writes[p.pending.value.writeId] == WriteSent)
  }

  /** The journal's writes are lawful and the ones in memory, the outstanding one counted as ambiguous. */
  predicate WritesMatch(q: WritesReplayed, writes: Writes) {
    && q.lawful && ConcludeWrites(q.writes) == ConcludeWrites(writes)
    && (forall id | id in writes && writes[id] == WriteSent :: id in q.writes && q.writes[id] == WriteSent)
  }

  ghost predicate WritesRebuilt(p: Policy) {
    WritesMatch(WritesIn(p.gate), p.writes)
  }

  /** The file's writes are lawful and hold every one in memory: an outstanding one outstanding, and one decided without
      doubt as it was decided. */
  predicate Written(q: WritesReplayed, writes: Writes) {
    && q.lawful
    && forall id | id in writes ::
         && id in q.writes && (writes[id] == WriteSent ==> q.writes[id] == WriteSent)
         && (writes[id].WriteDone? && writes[id] != WriteDone(IoAmbiguous) ==> q.writes[id] == writes[id])
  }

  ghost predicate WritesFiled(p: Policy) {
    Written(FileWritesIn(p.gate), p.writes)
  }

  /** Where the file is the mirror, the one follows from the other. */
  lemma MatchedWritten(q: WritesReplayed, writes: Writes)
    requires WritesMatch(q, writes)
    ensures Written(q, writes)
  {
    assert ConcludeWrites(q.writes).Keys == q.writes.Keys && ConcludeWrites(writes).Keys == writes.Keys;
    forall id | id in writes
      ensures id in q.writes && ConcludedWrite(q.writes[id]) == ConcludedWrite(writes[id])
    {
      assert ConcludeWrites(q.writes)[id] == ConcludeWrites(writes)[id];
    }
  }

  /** A maintenance under way belongs to the current, opened session; the generation is drained of armed actions and
      never ACTIVE again; an open maintenance has its fence open, or just held; an outstanding write has an open or held
      maintenance and no effect action undecided beside it. */
  predicate SessionShaped(p: Policy) {
    && (Underway(p) ==> p.session.Some? && p.session.value.owner && p.session.value.opened_)
    && (p.session.Some? && p.session.value.owner ==> p.maintenance != NotBegun)
    && (p.maintenance != NotBegun ==> p.gate.state != Active)
    && (Underway(p) ==> WithStatus(p.gate.actions, Armed) == {})
    && (p.maintenance == MaintOpen ==> Fence(p.gate) != AnswerPending)
    && (p.maintenance == MaintHeld ==> p.gate.state == Held)
    && (p.pending.Some? ==> (p.maintenance == MaintOpen || p.maintenance == MaintHeld) && NoneUndecided(p.gate.actions))
  }

  ghost predicate PolicySound(p: Policy) {
    Sound(p.gate) && WritesShaped(p) && WritesRebuilt(p) && WritesFiled(p) && SessionShaped(p)
  }

  /** A held generation has left evidence in its gate or in an ambiguous write. */
  ghost predicate PolicyTraced(p: Policy) {
    Traced(p.gate) || AnyAmbiguousWrite(p.writes)
  }

  /** The maintenance agrees with the fence, as every handled event leaves it. */
  predicate Fenced(p: Policy) {
    && (p.maintenance == MaintOpen ==> Fence(p.gate) == AnswerOpen)
    && (p.maintenance == MaintPending ==> Fence(p.gate) == AnswerPending)
    && (p.maintenance == MaintHeld ==> Fence(p.gate) == AnswerHeld)
  }

  /** What no event but a restart reverts on the policy side. */
  ghost predicate PolicyOnward(p: Policy, q: Policy) {
    && Onward(p.gate, q.gate)
    && (p.maintenance != NotBegun ==> q.maintenance != NotBegun)
    && (p.maintenance == MaintEnded ==> q.maintenance == MaintEnded)
    && (forall id | id in p.writes :: id in q.writes && (p.writes[id] != WriteSent ==> q.writes[id] == p.writes[id]))
  }

  ghost predicate PolicyMoved(p: Policy, q: Policy) {
    && PolicySound(q) && PolicyOnward(p, q) && (PolicyTraced(p) ==> PolicyTraced(q))
    && ForwardedIn(q.gate) == ForwardedIn(p.gate) && BindsIn(q.gate) == BindsIn(p.gate)
  }

  lemma PolicyRefl(p: Policy)
    requires PolicySound(p)
    ensures PolicyMoved(p, p)
  {
  }

  lemma PolicyOnwardComposes(p: Policy, q: Policy, r: Policy)
    requires PolicyOnward(p, q) && PolicyOnward(q, r)
    ensures PolicyOnward(p, r)
  {
    hide Onward;
    OnwardComposes(p.gate, q.gate, r.gate);
  }

  lemma PolicyComposes(p: Policy, q: Policy, r: Policy)
    requires PolicyMoved(p, q) && PolicyMoved(q, r)
    ensures PolicyMoved(p, r)
  {
    hide PolicySound, PolicyOnward, PolicyTraced, ForwardedIn, BindsIn;
    PolicyOnwardComposes(p, q, r);
  }

  // ---------------------------------------------------------------------------------------------- gate steps

  lemma FenceStays(g: Gate, h: Gate)
    requires Onward(g, h) && Fence(g) != AnswerPending
    ensures Fence(h) != AnswerPending
  {
    assert forall id | id in h.actions && h.actions[id].status == Status.Consumed ::
             id in WithStatus(g.actions, Status.Consumed);
  }

  lemma NoneUndecidedStays(g: Gate, h: Gate)
    requires Onward(g, h) && g.state != Active && NoneUndecided(g.actions)
    ensures NoneUndecided(h.actions)
  {
  }

  /** A step of the base gate that writes none of the policy records. */
  lemma GateMoves(p: Policy, g: Gate)
    requires PolicySound(p) && Sound(g) && Onward(p.gate, g) && WritesIn(g) == WritesIn(p.gate)
             && Written(FileWritesIn(g), p.writes) && (Traced(p.gate) ==> Traced(g))
    ensures PolicySound(p.(gate := g)) && PolicyOnward(p, p.(gate := g))
            && (PolicyTraced(p) ==> PolicyTraced(p.(gate := g)))
  {
    hide Sound, Traced, Fence, WritesIn, FileWritesIn, Onward, Written;
    OnwardSays(p.gate, g);
    if p.maintenance == MaintOpen { FenceStays(p.gate, g); }
    if Underway(p) { StillNoneArmed(p.gate, g); }
    if p.pending.Some? { NoneUndecidedStays(p.gate, g); }
  }

  lemma SoundPolicy(p: Policy)
    requires PolicySound(p)
    ensures Sound(p.gate)
  {
  }

  lemma PolicyWritten(p: Policy)
    requires PolicySound(p)
    ensures Written(FileWritesIn(p.gate), p.writes)
  {
  }

  /** A gate that is not HELD has a file that is its mirror. */
  lemma UnpartedUnlessHeld(g: Gate)
    requires Sound(g) && g.state != Held
    ensures !g.stores.parted && FileWritesIn(g) == WritesIn(g)
  {
  }

  lemma GateKeeps(p: Policy, g: Gate)
    requires PolicySound(p) && Kept(p.gate, g)
    ensures PolicyMoved(p, p.(gate := g))
  {
    hide PolicySound, PolicyOnward, PolicyTraced, Sound, Onward, Traced, ForwardedIn, WritesIn, FileWritesIn, BindsIn;
    SoundPolicy(p);
    PolicyWritten(p);
    GateMoves(p, g);
  }

  /** A bystander record of the policy channel. */
  lemma ToldKeeps(w: World, p: Policy, record: Record)
    requires PolicySound(p) && IsBystander(record) && (IsStop(record) ==> p.gate.state != Active)
    ensures PolicyMoved(p, Told(w, p, record))
  {
    hide PolicySound, PolicyMoved, Sound, Kept, Journalled;
    SoundPolicy(p);
    JournalledKept(w, p.gate, record);
    GateKeeps(p, Journalled(w, p.gate, record));
  }
}
