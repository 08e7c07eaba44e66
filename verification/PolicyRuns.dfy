/** What one event and one restart of the policy gate and its effect gate keep, under any pattern of storage failures,
    and exactly when a restart comes up HELD. */
module PolicyRuns {
  import opened Vocabulary
  import opened Journal
  import opened GateModel
  import opened WriteReplay
  import opened Lawful
  import opened GateInvariant
  import opened GateStorage
  import opened GateEvents
  import opened GateSteps
  import opened GateRestart
  import opened PolicyModel
  import opened PolicyInvariant
  import opened PolicySteps
  import opened Drift

  // ---------------------------------------------------------------------------------------------- one event

  lemma ActiveNotBegun(p: Policy)
    requires PolicySound(p) && p.gate.state == Active
    ensures p.maintenance == NotBegun
  {
  }

  /** No writer event answers with a base output. */
  lemma WriterOutputs(c: PolicyConfig, w: World, p: Policy, event: PolicyEvent)
    requires !event.Base?
    ensures var o := WriterDispatch(c, w, p, event); o.PolicyHandled? ==> !o.output.OfBase?
  {
    hide AbortPending, EndSession, WriterPerform, FrameResponse, SettleWrite, Told, Urgent;
  }

  lemma DispatchKeeps(c: PolicyConfig, w: World, p: Policy, event: PolicyEvent)
    requires PolicySound(p) && Fenced(p) && event != Base(GateRestart)
    ensures var o := PolicyDispatch(c, w, p, event);
            o.PolicyHandled? ==>
              && PolicySound(o.policy) && PolicyOnward(p, o.policy) && (PolicyTraced(p) ==> PolicyTraced(o.policy))
              && BindsStep(c.base, p.gate, o.policy.gate)
              && (if o.output.OfBase? && o.output.output.Forward? then
                    && p.gate.state == Active && p.gate.channel == Opened && p.gate.bound.Some?
                    && p.maintenance == NotBegun
                    && ForwardedIn(o.policy.gate)
                       == ForwardedIn(p.gate) + [(p.gate.bound.value.executionId, o.output.output.actionId)]
                  else ForwardedIn(o.policy.gate) == ForwardedIn(p.gate))
  {
    hide PolicySound, PolicyOnward, PolicyTraced, Fenced, ForwardedIn, WritesIn, BindsIn, BindCheck, BindRecord, Handle,
         WriterDispatch, SettleDrain, Sound, Onward, Traced;
    SoundPolicy(p);
    if event.Base? {
      HandleStepped(c.base, w, p.gate, event.event);
      var o := Handle(c.base, w, p.gate, event.event);
      if o.Handled? {
        PolicyWritten(p);
        GateMoves(p, o.gate);
        if o.output.Forward? { ActiveNotBegun(p); }
      }
    } else {
      WriterDispatchKeeps(c, w, p, event);
      var o := WriterDispatch(c, w, p, event);
      if o.PolicyHandled? {
        SoundPolicy(o.policy);
        SettleDrainKept(w, o.policy.gate);
        GateKeeps(o.policy, SettleDrain(w, o.policy.gate).0);
        PolicyOnwardComposes(p, o.policy, o.policy.(gate := SettleDrain(w, o.policy.gate).0));
        WriterOutputs(c, w, p, event);
      }
    }
  }

  /** Every event but GATE_RESTART keeps the invariant, ends with the maintenance in agreement with the fence, reverts
      nothing, and forwards only from an ACTIVE generation with an open channel, accounted for exactly once. */
  lemma HandleKeeps(c: PolicyConfig, w: World, p: Policy, event: PolicyEvent)
    requires PolicySound(p) && Fenced(p) && event != Base(GateRestart)
    ensures var o := PolicyHandle(c, w, p, event);
            o.PolicyHandled? ==>
              && PolicySound(o.policy) && Fenced(o.policy) && PolicyOnward(p, o.policy)
              && (PolicyTraced(p) ==> PolicyTraced(o.policy)) && BindsStep(c.base, p.gate, o.policy.gate)
              && (if o.output.OfBase? && o.output.output.Forward? then
                    && p.gate.state == Active && p.gate.channel == Opened && p.gate.bound.Some?
                    && p.maintenance == NotBegun
                    && ForwardedIn(o.policy.gate)
                       == ForwardedIn(p.gate) + [(p.gate.bound.value.executionId, o.output.output.actionId)]
                  else ForwardedIn(o.policy.gate) == ForwardedIn(p.gate))
  {
    hide PolicySound, PolicyOnward, PolicyTraced, Fenced, SettleMaintenance, ForwardedIn, BindsIn, BindCheck,
         BindRecord;
    DispatchKeeps(c, w, p, event);
    var o := PolicyDispatch(c, w, p, event);
    if o.PolicyHandled? {
      SettleMaintenanceKeeps(w, o.policy);
      PolicyOnwardComposes(p, o.policy, SettleMaintenance(w, o.policy));
    }
  }

  // ---------------------------------------------------------------------------------------------- restarts

  lemma ConcludedTwice(writes: Writes)
    ensures ConcludeWrites(ConcludeWrites(writes)) == ConcludeWrites(writes)
  {
  }

  ghost function UpTo(n: nat): (ids: set<nat>)
    ensures |ids| == n && forall id: nat :: id in ids <==> 1 <= id <= n
  {
    if n == 0 then {} else UpTo(n - 1) + {n}
  }

  lemma {:induction false} SubsetSize(a: set<nat>, b: set<nat>)
    requires a <= b
    ensures |a| <= |b|
  {
    if x :| x in a {
      SubsetSize(a - {x}, b - {x});
    }
  }

  lemma {:induction false} SameSize(a: set<nat>, b: set<nat>)
    requires a <= b && |a| == |b|
    ensures a == b
  {
    if x :| x in b && x !in a {
      SubsetSize(a, b - {x});
    }
  }

  /** The writes a restart rebuilds: the same ids; a decided write unchanged, the outstanding one ambiguous. */
  lemma RestartRebuildsWrites(p: Policy)
    requires PolicySound(p)
    ensures RebuildWrites(p.gate.stores.entries).0 == ConcludeWrites(p.writes)
    ensures forall id | id in p.writes ::
              ConcludeWrites(p.writes)[id]
              == if p.pending.Some? && p.pending.value.writeId == id then WriteDone(IoAmbiguous) else p.writes[id]
    ensures forall id: nat :: id in p.writes <==> 1 <= id <= |p.writes|
  {
    assert p.writes.Keys <= UpTo(|p.writes|);
    SameSize(p.writes.Keys, UpTo(|p.writes|));
  }

  /** A settled action keeps its outcome while its execution stays bound. */
  predicate OutcomesStay(g: Gate, h: Gate) {
    && g.boundIds <= h.boundIds
    && (h.boundIds == g.boundIds ==>
          forall id | id in g.actions && Settled(g.actions[id]) ::
            && id in h.actions && Settled(h.actions[id])
            && h.actions[id].classification == g.actions[id].classification
            && h.actions[id].after == g.actions[id].after)
  }

  lemma RestartKeepsOutcomes(w: World, g: Gate, k: Gate, floor: bool)
    requires Sound(g) && Restartable(g, k)
    ensures OutcomesStay(g, RestartWith(w, k, floor))
  {
    hide Sound, Restartable, RestartWith;
    RestartRebuildsMemory(w, g, k, floor);
    RestartKeeps(w, g, k, floor);
  }

  lemma TracedEvidence(g: Gate)
    requires Traced(g) && g.state == Held && !g.untraced
    ensures HasEvidence(g)
  {
  }

  lemma RestartShape(w: World, p: Policy, k: Policy)
    requires PolicySound(p) && Restartable(p.gate, k.gate)
    requires !RestartWith(w, k.gate, AnyAmbiguousWrite(ConcludeWrites(p.writes))).drainPending
    ensures PolicyRestart(w, k)
            == Policy(RestartWith(w, k.gate, AnyAmbiguousWrite(ConcludeWrites(p.writes))), MaintEnded,
                      Some(RebuildWrites(p.gate.stores.entries).1), None, ConcludeWrites(p.writes), None)
  {
    hide Sound, RestartWith, RebuildWrites, Written;
    RestartRebuildsWrites(p);
  }

  lemma ConcludedFiled(q: WritesReplayed, writes: Writes)
    requires Written(q, writes)
    ensures Written(q, ConcludeWrites(writes))
  {
  }

  /** What a policy restart makes of a gate `k` it may run on after `p`. */
  lemma PolicyRestartKeeps(w: World, p: Policy, k: Policy)
    requires PolicySound(p) && Restartable(p.gate, k.gate)
    ensures var q := PolicyRestart(w, k);
            && PolicySound(q) && Fenced(q) && PolicyTraced(q)
            && q.gate.channel == Shut && q.gate.state != Active && q.maintenance == MaintEnded && q.session.None?
            && q.writes == ConcludeWrites(p.writes)
            && ForwardedIn(q.gate) == ForwardedIn(p.gate) && BindsIn(q.gate) == BindsIn(p.gate)
            && Longer(p.gate.stores, q.gate.stores) && Outlasts(p.gate, q.gate.stores.file)
            && (p.gate.untraced ==> q.gate.untraced) && OutcomesStay(p.gate, q.gate)
            && (p.gate.state == Held && PolicyTraced(p) && !p.gate.untraced ==> q.gate.state == Held)
  {
    hide Sound, RestartWith, Shaped, RebuildWrites, HasEvidence, OutcomesStay, Outlasts, Restartable, ReplayWrites,
         AccountOf, Written, PolicyRestart;
    var writes := ConcludeWrites(p.writes);
    var floor := AnyAmbiguousWrite(writes);
    ConcludedFiled(FileWritesIn(p.gate), p.writes);
    RestartRebuildsWrites(p);
    RestartKeeps(w, p.gate, k.gate, floor);
    RestartKeepsOutcomes(w, p.gate, k.gate, floor);
    RestartShape(w, p, k);
    ConcludedTwice(p.writes);
    assert writes.Keys == p.writes.Keys;
    assert |writes| == |writes.Keys| == |p.writes|;
    if AnyAmbiguousWrite(p.writes) {
      var id :| id in p.writes && p.writes[id] == WriteDone(IoAmbiguous);
      assert writes[id] == WriteDone(IoAmbiguous);
    } else if p.gate.state == Held && PolicyTraced(p) && !p.gate.untraced {
      TracedEvidence(p.gate);
    }
  }

  /** A journal and marker on which a restart comes up HELD whatever becomes of its own record: a marker, a torn entry,
      a record of an action it does not know, no last recorded state or one that neither closes nor invalidates, an
      action not settled or ambiguous, or a write not decided or ambiguous. */
  predicate Firm(s: Stores) {
    var r := Replay(s.entries);
    || s.marker || r.torn || r.inconsistent || !(r.state == State.Closed || r.state == State.Invalidated)
    || !IsClean(r.actions) || AnyAmbiguousWrite(RebuildWrites(s.entries).0)
  }

  lemma PolicyRestartIs(w: World, k: Policy)
    ensures PolicyRestart(w, k).gate
            == RestartWith(w, k.gate, AnyAmbiguousWrite(RebuildWrites(k.gate.stores.entries).0))
  {
    hide RebuildWrites, Replay, RebuiltState, Conclude, CloseAll, FailStorage;
    var floor := AnyAmbiguousWrite(RebuildWrites(k.gate.stores.entries).0);
    RestartIs(w, k.gate, floor);
    QuietPending(w, Quieted(k.gate, floor), Record.Restarted(Quieted(k.gate, floor).state));
  }

  /** Exactly when a restart comes up HELD, on any journal: when it is firm, or RESTARTED does not last. */
  lemma JournalRestartExactly(w: World, k: Policy)
    ensures PolicyRestart(w, k).gate.state == Held <==> Firm(k.gate.stores) || !LastsNext(w, k.gate.stores)
  {
    hide RebuildWrites, Replay, FailStorage, PolicyRestart;
    PolicyRestartIs(w, k);
    var floor := AnyAmbiguousWrite(RebuildWrites(k.gate.stores.entries).0);
    var q := Quieted(k.gate, floor);
    RestartIs(w, k.gate, floor);
    FailStorageDrifts(w, Quiet(w, q, Record.Restarted(q.state)));
  }

  /** What memory says of the same: a marker, a torn entry, a last recorded state HELD or none, an action not settled or
      ambiguous, a write ambiguous or outstanding, or a RESTARTED record that does not last. */
  predicate HeldAgain(w: World, p: Policy) {
    || p.gate.stores.marker || Replay(p.gate.stores.entries).torn || Replay(p.gate.stores.entries).state == Held
    || !IsClean(p.gate.actions) || AnyAmbiguousWrite(ConcludeWrites(p.writes)) || !LastsNext(w, p.gate.stores)
  }

  lemma FirmInMemory(p: Policy)
    requires PolicySound(p)
    ensures Firm(p.gate.stores) <==>
              || p.gate.stores.marker || Replay(p.gate.stores.entries).torn
              || Replay(p.gate.stores.entries).state == Held
              || !IsClean(p.gate.actions) || AnyAmbiguousWrite(ConcludeWrites(p.writes))
  {
    hide Shaped, StampsCurrent, AccountAgrees, DerivationAgrees, IsLawful, RebuildWrites, ConcludeWrites;
    CleanAlike(p.gate, Replay(p.gate.stores.entries));
    RestartRebuildsWrites(p);
  }

  /** Exactly when a restart comes up HELD, told from the gate before it. */
  lemma RestartHeldExactly(w: World, p: Policy, k: Policy)
    requires PolicySound(p) && Restartable(p.gate, k.gate)
    ensures PolicyRestart(w, k).gate.state == Held <==> HeldAgain(w, p)
  {
    hide PolicySound, PolicyRestart, Firm, Replay, ConcludeWrites;
    JournalRestartExactly(w, k);
    FirmInMemory(p);
  }

  /** A restart right after a restart adds its own RESTARTED record and changes nothing else, when both records last. */
  lemma SecondRestartChangesNothing(w: World, p: Policy)
    requires LastsNext(w, p.gate.stores) && LastsNext(w, PolicyRestart(w, p).gate.stores)
    ensures var q := PolicyRestart(w, p);
            PolicyRestart(w, q)
            == q.(gate := q.gate.(stores := Append(w, q.gate.stores, Record.Restarted(q.gate.state))))
  {
    hide Replay, ReplayWrites, ConcludeWrites, RestartWith, Append;
    var q := PolicyRestart(w, p);
    var floor := AnyAmbiguousWrite(RebuildWrites(p.gate.stores.entries).0);
    PolicyRestartIs(w, p);
    LastingRestart(w, p.gate, floor);
    AppendedFolds(w, p.gate.stores, Record.Restarted(Quieted(p.gate, floor).state));
    assert RebuildWrites(q.gate.stores.entries) == RebuildWrites(p.gate.stores.entries);
    PolicyRestartIs(w, q);
    SecondBaseRestart(w, p.gate, floor);
  }

  // ---------------------------------------------------------------------------------------------- what is carried on

  /** A fresh generation: empty stores, no marker. */
  function Fresh(c: PolicyConfig): Policy {
    Around(OnStores(c.base, NO_STORES, false))
  }

  /** An event outside its preconditions changes nothing. */
  ghost function Next(c: PolicyConfig, w: World, p: Policy, event: PolicyEvent): Policy {
    var o := PolicyHandle(c, w, p, event);
    if o.PolicyHandled? then o.policy else p
  }

  /** The effect the event forwards, if any, with the execution it was bound to. */
  ghost function ForwardOf(c: PolicyConfig, w: World, p: Policy, event: PolicyEvent): seq<(string, nat)> {
    var o := PolicyHandle(c, w, p, event);
    if o.PolicyHandled? && o.output.OfBase? && o.output.output.Forward?
    then [(if p.gate.bound.Some? then p.gate.bound.value.executionId else "", o.output.output.actionId)] else []
  }

  lemma OutcomesStayComposes(f: Gate, g: Gate, h: Gate)
    requires OutcomesStay(f, g) && OutcomesStay(g, h)
    ensures OutcomesStay(f, h)
  {
  }

  /** A decided write keeps its classification, and no write is forgotten. */
  predicate WritesStay(x: Writes, y: Writes) {
    forall id | id in x :: id in y && (x[id] != WriteSent ==> y[id] == x[id])
  }

  /** What one event, restarts included, keeps. */
  ghost predicate Carried(p: Policy, q: Policy) {
    && PolicySound(q) && Fenced(q) && (PolicyTraced(p) ==> PolicyTraced(q))
    && (p.gate.untraced ==> q.gate.untraced)
    && (Stopped(p.gate) ==> Stopped(q.gate))
    && (p.maintenance != NotBegun ==> q.maintenance != NotBegun)
    && Longer(p.gate.stores, q.gate.stores) && Outlasts(p.gate, q.gate.stores.file)
    && OutcomesStay(p.gate, q.gate) && WritesStay(p.writes, q.writes)
    && (p.gate.state == Held && PolicyTraced(p) ==> q.gate.state == Held || q.gate.untraced)
  }

  lemma RestartIsCarried(c: PolicyConfig, w: World, p: Policy, k: Policy)
    requires PolicySound(p) && Restartable(p.gate, k.gate)
    ensures var q := SettleMaintenance(w, PolicyRestart(w, k));
            q == PolicyRestart(w, k) && Carried(p, q) && ForwardedIn(q.gate) == ForwardedIn(p.gate)
              && BindsIn(q.gate) == BindsIn(p.gate)
  {
    hide PolicySound, PolicyTraced, PolicyRestart, ForwardedIn, BindsIn, Fence, OutcomesStay, Outlasts;
    PolicyRestartKeeps(w, p, k);
  }

  lemma OnwardCarried(p: Policy, q: Policy)
    requires PolicySound(q) && Fenced(q) && PolicyOnward(p, q) && (PolicyTraced(p) ==> PolicyTraced(q))
    ensures Carried(p, q)
  {
    hide PolicySound, PolicyTraced, Fenced;
  }

  lemma HandlesRestart(c: PolicyConfig, w: World, p: Policy)
    ensures var o := PolicyHandle(c, w, p, Base(GateRestart));
            o.PolicyHandled? && o.policy == SettleMaintenance(w, PolicyRestart(w, p)) && !o.output.OfBase?
  {
  }

  lemma SelfCarried(p: Policy)
    requires PolicySound(p) && Fenced(p)
    ensures Carried(p, p)
  {
  }

  /** One event. */
  lemma NextIsCarried(c: PolicyConfig, w: World, p: Policy, event: PolicyEvent)
    requires PolicySound(p) && Fenced(p)
    ensures Carried(p, Next(c, w, p, event))
    ensures ForwardedIn(Next(c, w, p, event).gate) == ForwardedIn(p.gate) + ForwardOf(c, w, p, event)
    ensures ForwardOf(c, w, p, event) != [] ==> !Stopped(p.gate) && p.maintenance == NotBegun
  {
    hide PolicySound, PolicyTraced, Fenced, Carried, PolicyHandle, ForwardedIn, BindsIn, SettleMaintenance,
         PolicyRestart;
    SoundPolicy(p);
    if event == Base(GateRestart) {
      SelfRestartable(p.gate);
      RestartIsCarried(c, w, p, p);
      HandlesRestart(c, w, p);
    } else {
      HandleKeeps(c, w, p, event);
      var o := PolicyHandle(c, w, p, event);
      if o.PolicyHandled? { OnwardCarried(p, o.policy); } else { SelfCarried(p); }
    }
  }

  lemma FreshSound(c: PolicyConfig)
    ensures var p := Fresh(c); PolicySound(p) && Fenced(p) && PolicyTraced(p) && ForwardedIn(p.gate) == []
  {
  }

  lemma NoStaleStamp(c: Config, w: World, g: Gate, conn: string, certificate: string, head: string,
                     bodyDigest: Option<string>)
    requires Sound(g)
    ensures var o := RequestOn(c, w, g, conn, certificate, head, bodyDigest);
            o.Handled? ==> o.output != CloseConnection(StampMismatch) && o.output != CloseConnection(AlreadyConsumed)
  {
    hide Journalled, Consume, ReplayLinked, Shaped, AccountAgrees;
  }
}
