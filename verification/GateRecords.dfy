/** The records that change what the gate accounts for (CONSUMED, TERMINAL, SEALED, ARM and BIND): each, once durable,
    keeps the invariant together with the change to memory that follows it. */
module GateRecords {
  import opened Vocabulary
  import opened Journal
  import opened GateModel
  import opened Lawful
  import opened GateInvariant
  import opened GateStorage

  /** A change that touches only the connections and the backlog. */
  lemma ReconnectingKeeps(g: Gate, connections: Connections, backlog: seq<string>)
    requires Sound(g)
    requires StampsCurrent(g.(connections := connections, backlog := backlog))
    ensures var h := g.(connections := connections, backlog := backlog);
            Sound(h) && (Traced(g) ==> Traced(h)) && (HasEvidence(g) ==> HasEvidence(h))
  {
  }

  // ---------------------------------------------------------------------------------------------- CONSUMED

  lemma ConsumeLinked(g: Gate, r: Replayed, conn: string, id: nat)
    requires ReplayLinked(g, r) && id in g.actions && g.actions[id].status == Armed && conn in g.connections
    ensures ReplayLinked(Consume(g, conn, id), ReplayRecord(r, Record.Consumed(id)))
  {
  }

  lemma ConsumeShaped(g: Gate, conn: string, id: nat)
    requires Shaped(g) && g.state == Active && id in g.actions && conn in g.connections
    requires g.actions[id].status == Armed && g.actions[id].classification.None?
    ensures Shaped(Consume(g, conn, id))
  {
    assert Consume(g, conn, id).actions.Keys == g.actions.Keys;
  }

  /** Every other open connection stamped with the consumed action is closed, and no other action was ARMED. */
  lemma ConsumeStamps(g: Gate, conn: string, id: nat)
    requires Shaped(g) && StampsCurrent(g) && id in g.actions && g.actions[id].status == Armed
    requires conn in g.connections && g.connections[conn].requests >= 1
    ensures StampsCurrent(Consume(g, conn, id))
  {
    forall c | c in g.connections && g.connections[c].open && !g.connections[c].consumed && g.connections[c].stamp.Some?
      ensures g.connections[c].stamp == StampOf(g, id)
    {
      assert g.connections[c].stamp.value.actionId == |g.actions| == id;
    }
  }

  lemma ConsumeAccount(g: Gate, r: Replayed, a: Account, conn: string, id: nat)
    requires ReplayLinked(g, r) && AccountAgrees(g, r, a) && g.bound.Some?
    requires id in g.actions && g.actions[id].status == Armed && conn in g.connections
    ensures AccountAgrees(Consume(g, conn, id), ReplayRecord(r, Record.Consumed(id)),
                          AccountRecord(a, Record.Consumed(id)))
    ensures AccountRecord(a, Record.Consumed(id)).forwarded == a.forwarded + [(g.bound.value.executionId, id)]
  {
    assert Linked(g.actions[id], r.actions[id]);
  }

  lemma ConsumingKeeps(g: Gate, r: Replayed, d: Derived, a: Account, conn: string, id: nat)
    requires SoundOn(g, r, d, a) && g.state == Active && g.bound.Some?
    requires id in g.actions && g.actions[id].status == Armed && conn in g.connections
             && g.connections[conn].requests >= 1
    ensures var rec := Record.Consumed(id);
            SoundOn(Consume(g, conn, id), ReplayRecord(r, rec), DeriveEntry(d, Rec(rec)), AccountRecord(a, rec))
            && RecordLawful(r, rec)
    ensures AccountRecord(a, Record.Consumed(id)).forwarded == a.forwarded + [(g.bound.value.executionId, id)]
  {
    assert Linked(g.actions[id], r.actions[id]);
    ConsumeLinked(g, r, conn, id);
    ConsumeShaped(g, conn, id);
    ConsumeStamps(g, conn, id);
    ConsumeAccount(g, r, a, conn, id);
  }

  /** The file of an ACTIVE gate may get the record of its forward, whatever its append answers. */
  lemma ConsumedFileable(g: Gate, id: nat)
    requires Sound(g) && g.state == Active && g.channel == Opened && g.bound.Some?
    requires id in g.actions && g.actions[id].status == Armed
    ensures Fileable(g, Record.Consumed(id))
  {
    hide Shaped, StampsCurrent, IsLawful, Replay, Derive, AccountOf, Quench;
    assert Linked(g.actions[id], Replay(g.stores.entries).actions[id]);
  }

  // ---------------------------------------------------------------------------------------------- TERMINAL

  /** An action's terminal classification with what it created. */
  function Landed(g: Gate, id: nat, classification: Classification, details: TerminalDetails): Gate
    requires id in g.actions
  {
    var settled := Conclusion(g, id, classification, if details.Delivered? then Some(details) else None);
    settled.(createdUids := settled.createdUids + CreatedBy(g.actions[id].armed, details))
  }

  /** What a TERMINAL record may say of an action in flight. */
  predicate MayConclude(classification: Classification, details: TerminalDetails) {
    classification == DeliveredResult || (classification == IoAmbiguous && !details.Delivered?)
  }

  lemma LandLinked(g: Gate, r: Replayed, id: nat, cls: Classification, details: TerminalDetails)
    requires ReplayLinked(g, r) && id in g.actions && g.actions[id].status == Status.Consumed
             && MayConclude(cls, details)
    ensures ReplayLinked(Landed(g, id, cls, details),
                         ReplayRecord(r, Record.Terminal(id, cls, g.actions[id].after, details)))
  {
    assert Linked(g.actions[id], r.actions[id]);
  }

  lemma LandShaped(g: Gate, id: nat, cls: Classification, details: TerminalDetails)
    requires Shaped(g) && id in g.actions && g.actions[id].status == Status.Consumed && MayConclude(cls, details)
    ensures Shaped(Landed(g, id, cls, details))
  {
    assert Landed(g, id, cls, details).actions.Keys == g.actions.Keys;
  }

  lemma LandStamps(g: Gate, id: nat, cls: Classification, details: TerminalDetails)
    requires StampsCurrent(g) && id in g.actions && g.actions[id].status == Status.Consumed
    ensures StampsCurrent(Landed(g, id, cls, details))
  {
  }

  lemma LandAccount(g: Gate, r: Replayed, a: Account, id: nat, cls: Classification, details: TerminalDetails)
    requires AccountAgrees(g, r, a) && id in g.actions && g.actions[id].status == Status.Consumed
             && MayConclude(cls, details)
    ensures var rec := Record.Terminal(id, cls, g.actions[id].after, details);
            AccountAgrees(Landed(g, id, cls, details), ReplayRecord(r, rec), AccountRecord(a, rec))
            && AccountRecord(a, rec).forwarded == a.forwarded
  {
  }

  lemma LandingKeeps(g: Gate, r: Replayed, d: Derived, a: Account, id: nat, cls: Classification,
                     details: TerminalDetails)
    requires SoundOn(g, r, d, a) && id in g.actions && g.actions[id].status == Status.Consumed
             && MayConclude(cls, details)
    ensures var rec := Record.Terminal(id, cls, g.actions[id].after, details);
            SoundOn(Landed(g, id, cls, details), ReplayRecord(r, rec), DeriveEntry(d, Rec(rec)), AccountRecord(a, rec))
            && AccountRecord(a, rec).forwarded == a.forwarded && RecordLawful(r, rec)
  {
    assert Linked(g.actions[id], r.actions[id]);
    hide ReplayLinked, Shaped, StampsCurrent, AccountAgrees;
    LandLinked(g, r, id, cls, details);
    LandShaped(g, id, cls, details);
    LandStamps(g, id, cls, details);
    LandAccount(g, r, a, id, cls, details);
  }

  // ---------------------------------------------------------------------------------------------- SEALED

  function Sealing(g: Gate, id: nat): Gate
    requires id in g.actions
  {
    g.(actions := g.actions[id := g.actions[id].(sealed := true)])
  }

  function SealRecord(g: Gate, id: nat): Record
    requires id in g.actions && g.actions[id].classification.Some?
  {
    Record.Sealed(id, g.actions[id].classification.value, g.actions[id].after)
  }

  lemma SealLinked(g: Gate, r: Replayed, id: nat)
    requires ReplayLinked(g, r) && id in g.actions && g.actions[id].status == Status.Terminal
             && g.actions[id].classification.Some?
    ensures ReplayLinked(Sealing(g, id), ReplayRecord(r, SealRecord(g, id)))
  {
    assert Linked(g.actions[id], r.actions[id]);
  }

  lemma SealShaped(g: Gate, id: nat)
    requires Shaped(g) && id in g.actions && g.actions[id].status == Status.Terminal
    ensures Shaped(Sealing(g, id))
  {
    assert Sealing(g, id).actions.Keys == g.actions.Keys;
  }

  lemma SealStamps(g: Gate, id: nat)
    requires StampsCurrent(g) && id in g.actions && g.actions[id].status == Status.Terminal
    ensures StampsCurrent(Sealing(g, id))
  {
  }

  lemma SealAccount(g: Gate, r: Replayed, a: Account, id: nat)
    requires AccountAgrees(g, r, a) && id in g.actions && g.actions[id].status == Status.Terminal
             && g.actions[id].classification.Some?
    ensures AccountAgrees(Sealing(g, id), ReplayRecord(r, SealRecord(g, id)), a)
  {
  }

  lemma SealLawful(g: Gate, r: Replayed, id: nat)
    requires ReplayLinked(g, r) && id in g.actions && g.actions[id].status == Status.Terminal
    requires g.actions[id].classification.Some? && !g.actions[id].sealed
    ensures RecordLawful(r, SealRecord(g, id))
  {
    assert Linked(g.actions[id], r.actions[id]);
  }

  lemma SealingKeeps(g: Gate, r: Replayed, d: Derived, a: Account, id: nat)
    requires SoundOn(g, r, d, a) && id in g.actions && g.actions[id].status == Status.Terminal
    requires g.actions[id].classification.Some? && !g.actions[id].sealed
    ensures var rec := SealRecord(g, id);
            SoundOn(Sealing(g, id), ReplayRecord(r, rec), DeriveEntry(d, Rec(rec)), AccountRecord(a, rec))
            && AccountRecord(a, rec) == a && RecordLawful(r, rec)
  {
    hide ReplayLinked, Shaped, StampsCurrent, AccountAgrees, RecordLawful;
    SealLawful(g, r, id);
    SealLinked(g, r, id);
    SealShaped(g, id);
    SealAccount(g, r, a, id);
    SealStamps(g, id);
  }

  // ---------------------------------------------------------------------------------------------- ARM

  lemma FlushStamps(g: Gate)
    requires StampsCurrent(g)
    ensures StampsCurrent(Flushed(g))
    ensures forall c | c in Flushed(g).connections ::
              Flushed(g).connections[c].open ==> Flushed(g).connections[c].consumed
  {
  }

  predicate MayArm(g: Gate, p: ArmRequest) {
    && g.state == Active && g.bound.Some? && AllSettled(g.actions) && p.actionId == |g.actions| + 1
    && KeyOf(p.verb, p.manifestDigest, p.recordedUid) * g.mutationKeys == {}
    && (p.verb == Delete ==> p.recordedUid.Some? && (p.manifestDigest, p.recordedUid.value) in g.createdUids)
  }

  lemma ArmLinked(g: Gate, r: Replayed, c: Config, p: ArmRequest)
    requires ReplayLinked(g, r)
    ensures ReplayLinked(ArmIn(g, p), ReplayRecord(r, ArmRecord(c, p)))
  {
  }

  lemma ArmShaped(g: Gate, p: ArmRequest)
    requires Shaped(g) && MayArm(g, p)
    ensures Shaped(ArmIn(g, p)) && p.actionId !in g.actions
  {
    hide KeyOf;
    var h := ArmIn(g, p);
    assert h.actions.Keys == g.actions.Keys + {p.actionId};
    forall id | id in h.actions
      ensures 1 <= id <= |h.actions| && (id < |h.actions| ==> Settled(h.actions[id]))
    {
      if id != p.actionId { assert id in g.actions; }
    }
  }

  lemma ArmAccount(g: Gate, r: Replayed, a: Account, c: Config, p: ArmRequest)
    requires AccountAgrees(g, r, a) && MayArm(g, p) && p.actionId !in g.actions
    ensures AccountAgrees(ArmIn(g, p), ReplayRecord(r, ArmRecord(c, p)), AccountRecord(a, ArmRecord(c, p)))
  {
  }

  lemma ArmLawful(g: Gate, r: Replayed, c: Config, p: ArmRequest)
    requires ReplayLinked(g, r) && MayArm(g, p)
    ensures RecordLawful(r, ArmRecord(c, p))
  {
    assert |r.actions| == |r.actions.Keys| == |g.actions|;
    forall id | id in r.actions
      ensures Settled(r.actions[id])
    {
      assert Linked(g.actions[id], r.actions[id]);
    }
  }

  lemma ArmingKeeps(g: Gate, r: Replayed, d: Derived, a: Account, c: Config, p: ArmRequest)
    requires SoundOn(g, r, d, a) && MayArm(g, p)
    requires forall k | k in g.connections :: g.connections[k].open ==> g.connections[k].consumed
    ensures var rec := ArmRecord(c, p);
            SoundOn(ArmIn(g, p), ReplayRecord(r, rec), DeriveEntry(d, Rec(rec)), AccountRecord(a, rec))
            && AccountRecord(a, rec).forwarded == a.forwarded && RecordLawful(r, rec)
  {
    ArmLawful(g, r, c, p);
    ArmLinked(g, r, c, p);
    ArmShaped(g, p);
    ArmAccount(g, r, a, c, p);
    assert StampsCurrent(ArmIn(g, p));
  }

  lemma ArmFileable(g: Gate, c: Config, p: ArmRequest)
    requires Sound(g) && MayArm(g, p) && p.actionId !in g.actions
    ensures Fileable(g, ArmRecord(c, p))
  {
    hide Shaped, StampsCurrent, IsLawful, Replay, Derive, AccountOf, Quench, KeyOf;
  }

  // ---------------------------------------------------------------------------------------------- BIND

  lemma BindAccount(c: Config, g: Gate, r: Replayed, a: Account, p: BindRequest)
    requires AccountAgrees(g, r, a) && p.executionId !in g.boundIds && p.runNonce in c.runs
    ensures AccountAgrees(BindIn(g, p), ReplayRecord(r, BindRecord(c, p)), AccountRecord(a, BindRecord(c, p)))
  {
  }

  lemma BindingKeeps(c: Config, g: Gate, r: Replayed, d: Derived, a: Account, p: BindRequest)
    requires SoundOn(g, r, d, a) && AllSettled(g.actions) && p.executionId !in g.boundIds && p.runNonce in c.runs
    ensures var rec := BindRecord(c, p);
            SoundOn(BindIn(g, p), ReplayRecord(r, rec), DeriveEntry(d, Rec(rec)), AccountRecord(a, rec))
            && AccountRecord(a, rec).forwarded == a.forwarded
  {
    BindAccount(c, g, r, a, p);
    assert forall id | id in g.actions :: g.actions[id].status != Armed;
    assert StampsCurrent(BindIn(g, p));
  }

  lemma BindFileable(c: Config, g: Gate, p: BindRequest)
    requires Sound(g) && g.state == Active && AllSettled(g.actions)
    requires p.executionId !in g.boundIds && p.runNonce in c.runs
    ensures Fileable(g, BindRecord(c, p))
  {
    hide Shaped, StampsCurrent, IsLawful, Replay, Derive, AccountOf, Quench, Identities;
  }
}
