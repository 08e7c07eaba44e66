/** What every event of the effect gate keeps: the link between the gate in memory and what its journal replays to,
    the evidence a held generation leaves, the connection stamps, and the account of what was armed, forwarded and
    created. */
module GateInvariant {
  import opened Vocabulary
  import opened Journal
  import opened GateModel
  import opened WriteReplay
  import opened Lawful

  // ---------------------------------------------------------------------------------------------- the account

  /** What the journal says was armed, created, mutated and forwarded: `arms`, `created` and `keys` since the last BIND,
      `forwarded`, `executions` and `binds` over the whole journal. `sound` when every ARM, CONSUMED and BIND record so
      far was justified by the records before it. */
  datatype Account = Account(execution: Option<string>, arms: map<nat, Target>, created: set<(string, string)>,
                             keys: set<MutationKey>, forwarded: seq<(string, nat)>, executions: seq<string>,
                             binds: seq<Record>, sound: bool)

  const NO_ACCOUNT := Account(None, map[], {}, {}, [], [], [], true)

  /** An ARM record is justified: a fresh action id, an unused mutation key, and for a DELETE a UID this execution
      created. */
  predicate ArmJustified(a: Account, id: nat, verb: Verb, manifestDigest: string, uid: Option<string>) {
    && a.execution.Some?
    && id !in a.arms
    && KeyOf(verb, manifestDigest, uid) * a.keys == {}
    && (verb == Delete ==> uid.Some? && (manifestDigest, uid.value) in a.created)
  }

  /** A CONSUMED record is justified: its action is armed in the current execution and was never forwarded before. */
  predicate ForwardJustified(a: Account, id: nat) {
    a.execution.Some? && id in a.arms && (a.execution.value, id) !in a.forwarded
  }

  function AccountRecord(a: Account, record: Record): Account {
    match record
    case Bind(e, _, _, _, _) =>
      a.(execution := Some(e), arms := map[], created := {}, keys := {}, executions := a.executions + [e],
         binds := a.binds + [record], sound := a.sound && e !in a.executions)
    case Arm(id, verb, manifestDigest, uid, _) =>
      a.(arms := a.arms[id := Target(verb, manifestDigest, uid)], keys := a.keys + KeyOf(verb, manifestDigest, uid),
         sound := a.sound && ArmJustified(a, id, verb, manifestDigest, uid))
    case Consumed(id) =>
      a.(forwarded := if a.execution.Some? then a.forwarded + [(a.execution.value, id)] else a.forwarded,
         sound := a.sound && ForwardJustified(a, id))
    case Terminal(id, _, _, details) =>
      a.(created := a.created + CreatedBy(if id in a.arms then Some(a.arms[id]) else None, details))
    case _ => a
  }

  function AccountEntry(a: Account, entry: Entry): Account {
    match entry
    case Torn => a
    case Rec(record) => AccountRecord(a, record)
  }

  function AccountOf(entries: seq<Entry>): Account {
    if entries == [] then NO_ACCOUNT
    else AccountEntry(AccountOf(entries[..|entries| - 1]), entries[|entries| - 1])
  }

  // ---------------------------------------------------------------------------------------------- stops

  /** Records after which nothing may be forwarded: a drain, a close, an invalidation, a channel end, a restart, an
      opened or held maintenance. */
  predicate IsStop(record: Record) {
    record.DrainStarted? || record.Drained? || record.Closed? || record.Invalidated? || record.ChannelEnded?
      || record.Restarted?
    || record.MaintOpened? || record.MaintWasHeld?
  }

  /** Whether the journal holds a stop, and whether no CONSUMED record follows one. */
  datatype Quenched = Quenched(stopped: bool, clean: bool)

  function QuenchEntry(q: Quenched, entry: Entry): Quenched {
    match entry
    case Torn => q
    case Rec(record) => Quenched(q.stopped || IsStop(record), q.clean && !(record.Consumed? && q.stopped))
  }

  function Quench(entries: seq<Entry>): Quenched {
    if entries == [] then Quenched(false, true)
    else QuenchEntry(Quench(entries[..|entries| - 1]), entries[|entries| - 1])
  }

  /** A gate that can no longer forward: not ACTIVE, or its channel shut. */
  predicate Stopped(g: Gate) {
    g.state != Active || g.channel == Shut
  }

  ghost predicate Quelled(g: Gate) {
    Quench(g.stores.entries).clean && (Quench(g.stores.entries).stopped ==> Stopped(g))
  }

  // ---------------------------------------------------------------------------------------------- the invariant

  /** An action in memory and the one its journal replays to: the same seal, the same classification once both are
      concluded as a restart would, and the same status while the action is undecided. */
  predicate Linked(m: Action, j: Action) {
    && m.sealed == j.sealed
    && (j.sealed ==> j.status == Status.Terminal)
    && Concluded(m).classification == Concluded(j).classification
    && (m.status == Status.Terminal ==> m.classification.Some?)
    && (m.classification == Some(NotForwarded) ==> !m.after)
    && (m.status != Status.Terminal ==> j.status == m.status && !m.sealed && m.classification.None?)
    && (j.status == Status.Terminal ==> j.after == m.after)
    && (j.status == Armed ==> !m.after && !j.after)
    && (j.status == Status.Consumed && m.status == Status.Consumed && j.after ==> m.after)
  }

  predicate ReplayLinked(g: Gate, r: Replayed) {
    && !r.inconsistent
    && r.actions.Keys == g.actions.Keys
    && (forall id | id in g.actions :: Linked(g.actions[id], r.actions[id]))
    && (r.state == Held || r.state == State.Closed || r.state == State.Invalidated)
    && (r.state == Held || r.state == g.state || g.state == Held)
  }

  /** Action ids run from 1 and only the last action may be unsettled; an ambiguous action holds the generation, and a
      closed or invalidated generation has nothing in flight, or only what was admitted before. */
  predicate Shaped(g: Gate) {
    forall id | id in g.actions ::
      var m := g.actions[id];
      && 1 <= id <= |g.actions|
      && (id < |g.actions| ==> Settled(m))
      && (m.classification == Some(IoAmbiguous) ==> g.state == Held)
      && (m.status == Status.Consumed ==> g.state != State.Closed && (g.state == State.Invalidated ==> m.after))
  }

  /** Every open, unconsumed, stamped connection carries the stamp of an ARMED action of the bound execution. */
  predicate StampsCurrent(g: Gate) {
    forall c | c in g.connections ::
      var k := g.connections[c];
      && (k.consumed ==> k.requests >= 1)
      && (k.open && !k.consumed && k.stamp.Some? ==>
            && g.bound.Some? && k.stamp.value.executionId == g.bound.value.executionId
            && k.stamp.value.actionId in g.actions && g.actions[k.stamp.value.actionId].status == Armed)
  }

  predicate DerivationAgrees(g: Gate, d: Derived) {
    d.bound == g.bound && d.boundIds == g.boundIds && d.boundNonces == g.boundNonces && (d.expired ==> g.expired)
  }

  predicate AccountAgrees(g: Gate, r: Replayed, a: Account) {
    && a.sound
    && a.execution == (if g.bound.Some? then Some(g.bound.value.executionId) else None)
    && a.executions == g.boundIds
    && a.arms.Keys == g.actions.Keys == r.actions.Keys
    && (g.state == Active ==> a.keys == g.mutationKeys && a.created == g.createdUids)
    && (a.execution.Some? ==> a.execution.value in a.executions)
    && (a.execution.None? ==> g.actions.Keys == {})
    && (forall p | p in a.forwarded ::
          p.0 in a.executions && (a.execution == Some(p.0) ==> p.1 in r.actions && r.actions[p.1].status != Armed))
    && (forall id | id in g.actions ::
          && (g.actions[id].status != Status.Terminal ==> g.actions[id].armed.Some?)
          && (g.actions[id].armed.Some? ==> g.actions[id].armed.value == a.arms[id]))
  }

  predicate SoundOn(g: Gate, r: Replayed, d: Derived, a: Account) {
    ReplayLinked(g, r) && Shaped(g) && StampsCurrent(g) && DerivationAgrees(g, d) && AccountAgrees(g, r, a)
  }

  predicate SealedAlike(m: Action, j: Action) {
    Settled(j) && j.classification == m.classification && j.after == m.after
  }

  /** What the file keeps of memory, whatever the appends left in it: every record of it was justified, nothing was
      consumed after a stop, all that was forwarded is in it, and a sealed action is sealed alike, unless the file alone
      holds a later BIND, which needed all actions settled. */
  predicate FiledOn(ids: seq<string>, actions: Actions, r: Replayed, d: Derived, a: Account, q: Quenched,
                    forwarded: seq<(string, nat)>) {
    && !r.inconsistent && MayRecord(r.state) && a.sound && q.clean && forwarded <= a.forwarded
    && ids <= d.boundIds
    && if d.boundIds != ids then AllSettled(actions)
       else forall id | id in actions ::
           id in r.actions && (Settled(actions[id]) ==> SealedAlike(actions[id], r.actions[id]))
  }

  ghost predicate Filed(g: Gate) {
    var f := g.stores.file;
    FiledOn(g.boundIds, g.actions, Replay(f), Derive(f), AccountOf(f), Quench(f), AccountOf(g.stores.entries).forwarded)
  }

  /** Everything but that a file other than its mirror holds the generation, which a failing append may still owe. */
  ghost predicate Coherent(g: Gate) {
    SoundOn(g, Replay(g.stores.entries), Derive(g.stores.entries), AccountOf(g.stores.entries)) && Quelled(g)
    && IsLawful(g.stores.entries) && Filed(g)
  }

  ghost predicate Sound(g: Gate) {
    Coherent(g) && (g.stores.parted ==> g.state == Held)
  }

  /** What in the stores or in memory keeps a held generation held through a restart. */
  predicate Evidence(g: Gate, r: Replayed) {
    g.stores.marker || r.torn || r.state == Held || AnyAmbiguous(g.actions)
  }

  /** A held generation has left evidence, unless a storage failure fell into the residual window. */
  ghost predicate Traced(g: Gate) {
    g.state == Held ==> g.untraced || Evidence(g, Replay(g.stores.entries))
  }

  // ---------------------------------------------------------------------------------------------- folds

  lemma Folded(entries: seq<Entry>, entry: Entry)
    ensures Replay(entries + [entry]) == ReplayEntry(Replay(entries), entry)
    ensures Derive(entries + [entry]) == DeriveEntry(Derive(entries), entry)
    ensures AccountOf(entries + [entry]) == AccountEntry(AccountOf(entries), entry)
    ensures ReplayWrites(entries + [entry]) == ReplayWrite(ReplayWrites(entries), entry)
    ensures Quench(entries + [entry]) == QuenchEntry(Quench(entries), entry)
  {
    assert (entries + [entry])[..|entries|] == entries;
  }

  /** After an append the replay is the old one, the old one torn, or the old one with the record applied. */
  lemma AppendedFolds(w: World, s: Stores, record: Record)
    ensures var t := Append(w, s, record);
            var (r, d, a) := (Replay(s.entries), Derive(s.entries), AccountOf(s.entries));
            var (r', d', a') := (Replay(t.entries), Derive(t.entries), AccountOf(t.entries));
            && t.marker == s.marker
            && (LastsNext(w, s) ==>
                  r' == ReplayRecord(r, record) && d' == DeriveEntry(d, Rec(record)) && a' == AccountRecord(a, record))
            && (!LastsNext(w, s) ==> d' == d && a' == a && (r' == r || r' == r.(torn := true)))
    ensures ReplayWrites(Append(w, s, record).entries)
            == if LastsNext(w, s) then ReplayWrite(ReplayWrites(s.entries), Rec(record)) else ReplayWrites(s.entries)
    ensures Quench(Append(w, s, record).entries)
            == if LastsNext(w, s) then QuenchEntry(Quench(s.entries), Rec(record)) else Quench(s.entries)
  {
    Folded(s.entries, Rec(record));
    Folded(s.entries, Torn);
    assert s.entries + [] == s.entries;
  }

  // ---------------------------------------------------------------------------------------------- the file

  /** The file may get this record. */
  ghost predicate Fileable(g: Gate, record: Record) {
    var f := g.stores.file;
    FiledOn(g.boundIds, g.actions, ReplayRecord(Replay(f), record), DeriveEntry(Derive(f), Rec(record)),
            AccountRecord(AccountOf(f), record), QuenchEntry(Quench(f), Rec(record)),
            AccountOf(g.stores.entries).forwarded)
  }

  /** A file that is its mirror keeps what the mirror keeps. */
  lemma FiledUnparted(g: Gate)
    requires SoundOn(g, Replay(g.stores.entries), Derive(g.stores.entries), AccountOf(g.stores.entries)) && Quelled(g)
    requires !g.stores.parted
    ensures Filed(g)
  {
    hide Shaped, StampsCurrent, Replay, Derive, AccountOf, Quench;
    var r := Replay(g.stores.entries);
    forall id | id in g.actions
      ensures id in r.actions && (Settled(g.actions[id]) ==> SealedAlike(g.actions[id], r.actions[id]))
    {
      assert Linked(g.actions[id], r.actions[id]);
    }
  }

  /** Memory may forget seals, as long as it makes none. */
  lemma FiledLess(g: Gate, h: Gate)
    requires Filed(g) && h.boundIds == g.boundIds && h.stores.file == g.stores.file
    requires AccountOf(h.stores.entries).forwarded == AccountOf(g.stores.entries).forwarded
    requires h.actions.Keys == g.actions.Keys
    requires forall id | id in g.actions ::
               && (Settled(g.actions[id]) <==> Settled(h.actions[id]))
               && (Settled(g.actions[id]) ==>
                     h.actions[id].classification == g.actions[id].classification
                     && h.actions[id].after == g.actions[id].after)
    ensures Filed(h)
  {
    hide Replay, Derive, AccountOf, Quench;
  }

  /** Records the gate may try whatever its file holds: they arm, consume and bind nothing and conclude no sealed
      action. */
  predicate Spares(g: Gate, record: Record) {
    match record
    case Bind(_, _, _, _, _) => false
    case Arm(_, _, _, _, _) => false
    case Consumed(_) => false
    case Terminal(id, _, _, _) => id in g.actions && !g.actions[id].sealed
    case Denied(id) => id in g.actions && !g.actions[id].sealed
    case Sealed(id, _, _) => id in g.actions && !g.actions[id].sealed
    case _ => MayRecord(RecordedState(record, Held))
  }

  lemma SparedReplay(g: Gate, r: Replayed, record: Record)
    requires Spares(g, record) && !r.inconsistent && MayRecord(r.state)
    requires forall id | id in g.actions ::
               id in r.actions && (Settled(g.actions[id]) ==> SealedAlike(g.actions[id], r.actions[id]))
    ensures var s := ReplayRecord(r, record);
            && !s.inconsistent && MayRecord(s.state)
            && forall id | id in g.actions ::
                 id in s.actions && (Settled(g.actions[id]) ==> SealedAlike(g.actions[id], s.actions[id]))
  {
  }

  lemma SparedBound(g: Gate, r: Replayed, record: Record)
    requires Spares(g, record) && !r.inconsistent && MayRecord(r.state) && AllSettled(g.actions)
    ensures var s := ReplayRecord(r, record); !s.inconsistent && MayRecord(s.state)
  {
  }

  lemma SparedFolds(d: Derived, a: Account, q: Quenched, record: Record)
    requires !record.Bind? && !record.Arm? && !record.Consumed?
    ensures DeriveEntry(d, Rec(record)).boundIds == d.boundIds
    ensures AccountRecord(a, record).sound == a.sound && AccountRecord(a, record).forwarded == a.forwarded
    ensures QuenchEntry(q, Rec(record)).clean == q.clean
  {
  }

  lemma SparesNone(g: Gate, record: Record)
    requires Spares(g, record)
    ensures !record.Bind? && !record.Arm? && !record.Consumed?
  {
  }

  lemma SparedFileable(g: Gate, record: Record)
    requires Filed(g) && Spares(g, record)
    ensures Fileable(g, record)
  {
    hide Replay, Derive, AccountOf, Quench, ReplayRecord, DeriveEntry, AccountRecord, QuenchEntry, Spares;
    var f := g.stores.file;
    assert !record.Bind? && !record.Arm? && !record.Consumed? by { SparesNone(g, record); }
    SparedFolds(Derive(f), AccountOf(f), Quench(f), record);
    if Derive(f).boundIds == g.boundIds {
      SparedReplay(g, Replay(f), record);
    } else {
      SparedBound(g, Replay(f), record);
    }
  }

  /** What an append leaves in the file: nothing, a torn entry or the record. */
  lemma LeftFolds(w: World, s: Stores, record: Record)
    ensures var (f, h) := (s.file, Append(w, s, record).file);
            || h == f || h == f + [Torn] || h == f + [Rec(record)]
    ensures LastsNext(w, s) ==> Append(w, s, record).file == s.file + [Rec(record)]
  {
    assert s.file + [] == s.file;
  }

  /** The file after an append of a record it may get. */
  lemma FiledQuiet(w: World, g: Gate, record: Record)
    requires Filed(g) && Fileable(g, record)
    requires LastsNext(w, g.stores) ==>
               AccountRecord(AccountOf(g.stores.entries), record).forwarded
               <= AccountRecord(AccountOf(g.stores.file), record).forwarded
    ensures Filed(Quiet(w, g, record))
  {
    hide Replay, Derive, AccountOf, Quench, ReplayRecord, AccountRecord;
    var f := g.stores.file;
    LeftFolds(w, g.stores, record);
    AppendedFolds(w, g.stores, record);
    Folded(f, Torn);
    Folded(f, Rec(record));
  }

  // ---------------------------------------------------------------------------------------------- what a cut keeps

  /** The settled actions of memory are settled alike in what a journal replays to, unless it binds a later
      execution. */
  predicate Outlives(g: Gate, r: Replayed, d: Derived) {
    && g.boundIds <= d.boundIds
    && (d.boundIds == g.boundIds ==>
          forall id | id in g.actions && Settled(g.actions[id]) ::
            id in r.actions && SealedAlike(g.actions[id], r.actions[id]))
  }

  /** Every cut of the file past what it was keeps the settled actions. */
  ghost predicate Outlasts(g: Gate, file: seq<Entry>) {
    forall n | |g.stores.file| < n <= |file| :: Outlives(g, Replay(file[..n]), Derive(file[..n]))
  }

  lemma NothingOutlasts(g: Gate)
    ensures Outlasts(g, g.stores.file)
  {
  }

  lemma FiledOutlives(g: Gate, r: Replayed, d: Derived, a: Account, q: Quenched, forwarded: seq<(string, nat)>)
    requires FiledOn(g.boundIds, g.actions, r, d, a, q, forwarded)
    ensures Outlives(g, r, d)
  {
  }

  lemma OutlivesTorn(g: Gate, r: Replayed, d: Derived)
    requires Outlives(g, r, d)
    ensures Outlives(g, ReplayEntry(r, Torn), DeriveEntry(d, Torn))
  {
  }

  lemma QuietOutlasts(w: World, g: Gate, record: Record)
    requires Filed(g) && Fileable(g, record)
    ensures Outlasts(g, Quiet(w, g, record).stores.file)
  {
    hide Replay, Derive, AccountOf, Quench, ReplayRecord, AccountRecord, Outlives, FiledOn;
    var (f, h) := (g.stores.file, Quiet(w, g, record).stores.file);
    LeftFolds(w, g.stores, record);
    forall n | |f| < n <= |h|
      ensures Outlives(g, Replay(h[..n]), Derive(h[..n]))
    {
      assert h[..n] == h;
      var own := AccountOf(g.stores.entries).forwarded;
      if h == f + [Torn] {
        Folded(f, Torn);
        FiledOutlives(g, Replay(f), Derive(f), AccountOf(f), Quench(f), own);
        OutlivesTorn(g, Replay(f), Derive(f));
      } else {
        Folded(f, Rec(record));
        FiledOutlives(g, ReplayRecord(Replay(f), record), DeriveEntry(Derive(f), Rec(record)),
                      AccountRecord(AccountOf(f), record), QuenchEntry(Quench(f), Rec(record)), own);
      }
    }
  }

  /** What outlives a gate outlives the ones before it. */
  lemma OutlastsComposes(f: Gate, g: Gate, file: seq<Entry>)
    requires Outlasts(f, g.stores.file) && Outlasts(g, file) && f.stores.file <= g.stores.file <= file
    requires f.boundIds <= g.boundIds
    requires g.boundIds == f.boundIds ==>
               forall id | id in f.actions && Settled(f.actions[id]) ::
                 id in g.actions && SealedAlike(f.actions[id], g.actions[id])
    ensures Outlasts(f, file)
  {
    hide Replay, Derive;
    forall n | |f.stores.file| < n <= |file|
      ensures Outlives(f, Replay(file[..n]), Derive(file[..n]))
    {
      if n <= |g.stores.file| {
        assert file[..n] == g.stores.file[..n];
      } else {
        assert Outlives(g, Replay(file[..n]), Derive(file[..n]));
      }
    }
  }

  // ---------------------------------------------------------------------------------------------- small steps

  lemma MarksEveryConsumed(g: Gate)
    requires Shaped(g)
    ensures MarkInFlight(g.actions) == MarkConsumed(g.actions)
  {
    var consumed := WithStatus(g.actions, Status.Consumed);
    if consumed == {} {
      assert forall id | id in g.actions :: id !in consumed;
      assert MarkConsumed(g.actions) == g.actions;
    } else {
      var id := Least(consumed);
      assert forall j | j in g.actions && g.actions[j].status == Status.Consumed :: j in consumed && j == |g.actions|;
      assert MarkConsumed(g.actions) == g.actions[id := g.actions[id].(after := true)];
    }
  }

  /** The invariant reads only these members of the gate. */
  lemma SameCore(g: Gate, h: Gate, r: Replayed, d: Derived, a: Account)
    requires SoundOn(g, r, d, a)
    requires h.state == g.state && h.bound == g.bound && h.boundIds == g.boundIds && h.boundNonces == g.boundNonces
    requires h.actions == g.actions && h.mutationKeys == g.mutationKeys && h.createdUids == g.createdUids
    requires h.connections == g.connections && (g.expired ==> h.expired)
    ensures SoundOn(h, r, d, a)
  {
  }

  // Marking what is in flight as admitted before an invalidation.

  lemma MarkLinked(g: Gate, r: Replayed)
    requires ReplayLinked(g, r)
    ensures ReplayLinked(g.(actions := MarkConsumed(g.actions)), r)
  {
  }

  lemma MarkShaped(g: Gate)
    requires Shaped(g)
    ensures Shaped(g.(actions := MarkConsumed(g.actions)))
  {
    assert MarkConsumed(g.actions).Keys == g.actions.Keys;
  }

  lemma MarkStamps(g: Gate)
    requires StampsCurrent(g)
    ensures StampsCurrent(g.(actions := MarkConsumed(g.actions)))
  {
  }

  lemma MarkAccount(g: Gate, r: Replayed, a: Account)
    requires AccountAgrees(g, r, a)
    ensures AccountAgrees(g.(actions := MarkConsumed(g.actions)), r, a)
  {
  }

  lemma MarkAmbiguous(actions: Actions)
    ensures AnyAmbiguous(actions) ==> AnyAmbiguous(MarkConsumed(actions))
  {
    if id :| id in actions && actions[id].classification == Some(IoAmbiguous) {
      assert MarkConsumed(actions)[id].classification == Some(IoAmbiguous);
    }
  }

  lemma MarkingKeeps(g: Gate, r: Replayed, d: Derived, a: Account)
    requires SoundOn(g, r, d, a)
    ensures MarkInFlight(g.actions) == MarkConsumed(g.actions)
    ensures SoundOn(g.(actions := MarkConsumed(g.actions)), r, d, a)
    ensures AnyAmbiguous(g.actions) ==> AnyAmbiguous(MarkConsumed(g.actions))
  {
    MarksEveryConsumed(g);
    MarkLinked(g, r);
    MarkShaped(g);
    MarkStamps(g);
    MarkAccount(g, r, a);
    MarkAmbiguous(g.actions);
  }

  // State changes.

  lemma HoldingKeeps(g: Gate, r: Replayed, d: Derived, a: Account)
    requires SoundOn(g, r, d, a)
    ensures SoundOn(g.(state := Held), r, d, a)
  {
  }

  lemma LeavingKeeps(g: Gate, r: Replayed, d: Derived, a: Account, state: State)
    requires SoundOn(g, r, d, a)
    requires g.state == Active || g.state == Inspecting || g.state == Draining
    requires state == Draining || state == State.Closed || state == State.Invalidated
    requires forall id | id in g.actions && g.actions[id].status == Status.Consumed ::
               state != State.Closed && (state == State.Invalidated ==> g.actions[id].after)
    ensures SoundOn(g.(state := state), r, d, a)
  {
  }

  // Denying an armed action.

  lemma DenyLinked(g: Gate, r: Replayed, id: nat)
    requires ReplayLinked(g, r)
    requires id in g.actions && g.actions[id].status == Armed
    ensures ReplayLinked(Deny(g, id), r)
  {
  }

  lemma DenyShaped(g: Gate, id: nat)
    requires Shaped(g)
    requires id in g.actions && g.actions[id].status == Armed
    ensures Shaped(Deny(g, id))
  {
    assert Deny(g, id).actions.Keys == g.actions.Keys;
  }

  lemma DenyStamps(g: Gate, id: nat)
    requires StampsCurrent(g) && Shaped(g)
    requires id in g.actions && g.actions[id].status == Armed
    ensures StampsCurrent(Deny(g, id))
  {
  }

  lemma DenyAccount(g: Gate, r: Replayed, a: Account, id: nat)
    requires AccountAgrees(g, r, a)
    requires id in g.actions && g.actions[id].status == Armed
    ensures AccountAgrees(Deny(g, id), r, a)
  {
  }

  lemma DenyAmbiguous(g: Gate, r: Replayed, id: nat)
    requires ReplayLinked(g, r)
    requires id in g.actions && g.actions[id].status == Armed
    ensures AnyAmbiguous(g.actions) ==> AnyAmbiguous(Deny(g, id).actions)
  {
    if other :| other in g.actions && g.actions[other].classification == Some(IoAmbiguous) {
      assert Linked(g.actions[id], r.actions[id]);
      assert Deny(g, id).actions[other].classification == Some(IoAmbiguous);
    }
  }

  lemma DenyingKeeps(g: Gate, r: Replayed, d: Derived, a: Account, id: nat)
    requires SoundOn(g, r, d, a)
    requires id in g.actions && g.actions[id].status == Armed
    ensures SoundOn(Deny(g, id), r, d, a)
    ensures AnyAmbiguous(g.actions) ==> AnyAmbiguous(Deny(g, id).actions)
  {
    DenyLinked(g, r, id);
    DenyShaped(g, id);
    DenyStamps(g, id);
    DenyAccount(g, r, a, id);
    DenyAmbiguous(g, r, id);
  }

  // Giving an action in flight up as ambiguous, which holds the generation.

  lemma GiveUpLinked(g: Gate, r: Replayed, id: nat)
    requires ReplayLinked(g, r)
    requires id in g.actions && g.actions[id].status == Status.Consumed
    ensures ReplayLinked(Conclusion(g, id, IoAmbiguous, None), r)
  {
  }

  lemma GiveUpShaped(g: Gate, id: nat)
    requires Shaped(g)
    requires id in g.actions && g.actions[id].status == Status.Consumed
    ensures Shaped(Conclusion(g, id, IoAmbiguous, None))
  {
    assert Conclusion(g, id, IoAmbiguous, None).actions.Keys == g.actions.Keys;
  }

  lemma GiveUpStamps(g: Gate, id: nat)
    requires StampsCurrent(g)
    requires id in g.actions && g.actions[id].status == Status.Consumed
    ensures StampsCurrent(Conclusion(g, id, IoAmbiguous, None))
  {
  }

  lemma GiveUpAccount(g: Gate, r: Replayed, a: Account, id: nat)
    requires AccountAgrees(g, r, a)
    requires id in g.actions && g.actions[id].status == Status.Consumed
    ensures AccountAgrees(Conclusion(g, id, IoAmbiguous, None), r, a)
  {
  }

  lemma GivingUpKeeps(g: Gate, r: Replayed, d: Derived, a: Account, id: nat)
    requires SoundOn(g, r, d, a)
    requires id in g.actions && g.actions[id].status == Status.Consumed
    ensures SoundOn(Conclusion(g, id, IoAmbiguous, None), r, d, a)
    ensures AnyAmbiguous(Conclusion(g, id, IoAmbiguous, None).actions)
  {
    var h := Conclusion(g, id, IoAmbiguous, None);
    GiveUpLinked(g, r, id);
    GiveUpShaped(g, id);
    GiveUpStamps(g, id);
    GiveUpAccount(g, r, a, id);
    assert h.actions[id].classification == Some(IoAmbiguous);
  }

  // ---------------------------------------------------------------------------------------------- records

  /** Records that say nothing about an action, an execution, a write or a drained, closed or restarted state. */
  predicate IsBystander(record: Record) {
    record.DrainStarted? || record.ChannelEnded? || record.LateUpstream? || record.MaintOpened? || record.MaintWasHeld?
    || record.WriterSessionEnded? || record.WriteLateUpstream?
  }

  /** A record the gate may append to a sound journal without touching its memory: it reports the current state, an
      invalidation or expiry already marked in memory, a denial already made, or nothing about the actions. */
  predicate Fits(g: Gate, record: Record) {
    (IsStop(record) ==> Stopped(g)) &&
    match record
    case Closed(_, state) => state == g.state && (state == State.Closed || state == Held)
    case Drained(state) => state == g.state && (state == State.Closed || state == State.Invalidated || state == Held)
    case Restarted(state) => state == g.state && (state == State.Closed || state == State.Invalidated || state == Held)
    case Invalidated(_, state) =>
      && state == g.state && (state == State.Invalidated || state == Held)
      && forall id | id in g.actions && g.actions[id].status == Status.Consumed :: g.actions[id].after
    case Expired(e) =>
      && g.expired && g.bound.Some? && g.bound.value.executionId == e
      && forall id | id in g.actions && g.actions[id].status == Status.Consumed :: g.actions[id].after
    case Denied(id) =>
      id in g.actions && g.actions[id].status == Status.Terminal && g.actions[id].classification == Some(NotForwarded)
      && !g.actions[id].after && !g.actions[id].sealed
    case _ => IsBystander(record)
  }

  lemma FitsSpares(g: Gate, record: Record)
    requires Fits(g, record)
    ensures Spares(g, record)
  {
  }

  lemma FitsNoAccount(g: Gate, a: Account, record: Record)
    requires Fits(g, record)
    ensures AccountRecord(a, record) == a
  {
  }

  /** Both sides mark what is in flight. */
  lemma FitMarked(g: Gate, r: Replayed, state: State)
    requires ReplayLinked(g, r)
    requires forall id | id in g.actions && g.actions[id].status == Status.Consumed :: g.actions[id].after
    requires state == r.state || (state == g.state && (state == State.Invalidated || state == Held))
    ensures ReplayLinked(g, r.(state := state, actions := MarkConsumed(r.actions)))
  {
  }

  lemma FitDenied(g: Gate, r: Replayed, id: nat)
    requires ReplayLinked(g, r) && Fits(g, Record.Denied(id))
    ensures ReplayLinked(g, ReplayRecord(r, Record.Denied(id)))
  {
    assert Linked(g.actions[id], r.actions[id]);
  }

  lemma FitLinked(g: Gate, r: Replayed, record: Record)
    requires ReplayLinked(g, r) && Fits(g, record)
    ensures ReplayLinked(g, ReplayRecord(r, record))
  {
    match record
    case Denied(id) => FitDenied(g, r, id);
    case Invalidated(_, state) => FitMarked(g, r, state);
    case Expired(_) => FitMarked(g, r, r.state);
    case _ =>
  }

  /** The account reads of the replay only which actions are no longer ARMED. */
  lemma AccountOnReplay(g: Gate, r: Replayed, t: Replayed, a: Account)
    requires AccountAgrees(g, r, a)
    requires t.actions.Keys == r.actions.Keys
    requires forall id | id in r.actions && r.actions[id].status != Armed :: t.actions[id].status != Armed
    ensures AccountAgrees(g, t, a)
  {
  }

  lemma FitStatuses(g: Gate, r: Replayed, record: Record)
    requires r.actions.Keys == g.actions.Keys && Fits(g, record)
    ensures ReplayRecord(r, record).actions.Keys == r.actions.Keys
    ensures forall id | id in r.actions && r.actions[id].status != Armed ::
              ReplayRecord(r, record).actions[id].status != Armed
  {
  }

  lemma FitAccount(g: Gate, r: Replayed, a: Account, record: Record)
    requires AccountAgrees(g, r, a) && Fits(g, record)
    ensures AccountAgrees(g, ReplayRecord(r, record), AccountRecord(a, record))
  {
    FitsNoAccount(g, a, record);
    FitStatuses(g, r, record);
    AccountOnReplay(g, r, ReplayRecord(r, record), a);
  }

  lemma FitLawful(g: Gate, r: Replayed, record: Record)
    requires ReplayLinked(g, r) && Fits(g, record)
    ensures RecordLawful(r, record)
  {
    if record.Denied? { assert Linked(g.actions[record.actionId], r.actions[record.actionId]); }
  }

  /** A fitting record keeps everything. */
  lemma FittingKeeps(g: Gate, r: Replayed, d: Derived, a: Account, record: Record)
    requires SoundOn(g, r, d, a) && Fits(g, record)
    ensures SoundOn(g, ReplayRecord(r, record), DeriveEntry(d, Rec(record)), AccountRecord(a, record))
    ensures r.torn ==> ReplayRecord(r, record).torn
    ensures g.state == Held && r.state == Held ==> ReplayRecord(r, record).state == Held
  {
    FitLinked(g, r, record);
    FitAccount(g, r, a, record);
  }

  /** A torn entry keeps everything. */
  lemma TearingKeeps(g: Gate, r: Replayed, d: Derived, a: Account)
    requires SoundOn(g, r, d, a)
    ensures SoundOn(g, r.(torn := true), d, a)
  {
  }
}
