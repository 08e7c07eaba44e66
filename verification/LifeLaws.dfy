/** What holds over all lives of a generation: settled outcomes, decided writes, the account of what was forwarded and
    what a restart rebuilds whatever the storage did; a hold as long as every process that ended had a file that agreed
    with its mirror, and exactly when it is let go. */
module LifeLaws {
  import opened Vocabulary
  import opened Journal
  import opened GateModel
  import opened WriteReplay
  import opened GateInvariant
  import opened GateStorage
  import opened GateEvents
  import opened GateRestart
  import opened PolicyModel
  import opened PolicyInvariant
  import opened PolicyRuns
  import opened Recovery
  import opened Cuts
  import opened Resting
  import opened Lives
  import opened Agreement

  // ---------------------------------------------------------------------------------------------- whole lives

  /** From any point of a life on, whatever the storage did: the file only grows, settled outcomes stay, and so do the
      writes decided without doubt. */
  lemma RestIsEnduring(c: PolicyConfig, w: World, first: seq<Happening>, rest: seq<Happening>)
    ensures Endures(c, RunTo(c, w, Born(c), first), RunTo(c, w, Born(c), first + rest))
  {
    hide Sane, Endures, Born, RunTo;
    BornSane(c);
    RestEndures(c, w, Born(c), first);
    RestEndures(c, w, RunTo(c, w, Born(c), first), rest);
    RunSplits(c, w, Born(c), first, rest);
  }

  /** An outcome once sealed is never changed: over the rest of any life, restarts and deaths included and whatever the
      storage did, a settled action keeps its classification and its flag for as long as its execution stays the bound
      one. */
  lemma OutcomesAreFrozen(c: PolicyConfig, w: World, first: seq<Happening>, rest: seq<Happening>)
    ensures OutcomesStay(GateOf(c, RunTo(c, w, Born(c), first)), GateOf(c, RunTo(c, w, Born(c), first + rest)))
  {
    hide Born, RunTo, OutcomesStay, GateOf;
    RestIsEnduring(c, w, first, rest);
  }

  lemma LastingSound(y: System, z: System)
    requires Lasting(y, z)
    ensures SystemSound(z)
  {
  }

  lemma {:induction false} RestLasts(c: PolicyConfig, w: World, y: System, hs: seq<Happening>)
    requires SystemSound(y) && Unparted(c, w, y, hs)
    ensures Lasting(y, RunTo(c, w, y, hs))
  {
    hide SystemSound, NextLife, AgreesAt, Lasting;
    if hs == [] {
      SelfLasts(c, y);
    } else {
      var before := RunTo(c, w, y, hs[..|hs| - 1]);
      RestLasts(c, w, y, hs[..|hs| - 1]);
      LastingSound(y, before);
      LifeLasts(c, w, before, hs[|hs| - 1]);
      LastingComposes(y, before, NextLife(c, w, before, hs[|hs| - 1]));
    }
  }

  lemma BornSound(c: PolicyConfig)
    ensures SystemSound(Born(c))
  {
    hide PolicySound, Fenced, PolicyTraced, ForwardedIn;
    FreshSound(c);
  }

  lemma {:induction false} UnpartedSplits(c: PolicyConfig, w: World, y: System, first: seq<Happening>,
                                          rest: seq<Happening>)
    requires Unparted(c, w, y, first + rest)
    ensures Unparted(c, w, y, first) && Unparted(c, w, RunTo(c, w, y, first), rest)
  {
    hide NextLife, AgreesAt;
    if rest == [] {
      assert first + rest == first;
    } else {
      var all := first + rest;
      assert all[..|all| - 1] == first + rest[..|rest| - 1];
      UnpartedSplits(c, w, y, first, rest[..|rest| - 1]);
      RunSplits(c, w, y, first, rest[..|rest| - 1]);
    }
  }

  lemma AlwaysSound(c: PolicyConfig, w: World, hs: seq<Happening>)
    requires Unparted(c, w, Born(c), hs)
    ensures SystemSound(RunTo(c, w, Born(c), hs))
  {
    hide SystemSound, Lasting, Born, Unparted, RunTo;
    BornSound(c);
    RestLasts(c, w, Born(c), hs);
    LastingSound(Born(c), RunTo(c, w, Born(c), hs));
  }

  /** From any point on, as long as files and mirrors agree, the journal only grows too, every decided write stays and a
      hold with evidence stays. */
  lemma RestIsLasting(c: PolicyConfig, w: World, first: seq<Happening>, rest: seq<Happening>)
    requires Unparted(c, w, Born(c), first + rest)
    ensures Lasting(RunTo(c, w, Born(c), first), RunTo(c, w, Born(c), first + rest))
  {
    hide SystemSound, Lasting, Born, Unparted, RunTo;
    UnpartedSplits(c, w, Born(c), first, rest);
    AlwaysSound(c, w, first);
    RestLasts(c, w, RunTo(c, w, Born(c), first), rest);
    RunSplits(c, w, Born(c), first, rest);
  }

  /** HELD is absorbing over all lives: only a storage failure that left neither a marker, nor a torn entry, nor a
      durable INVALIDATED record may later let go of it. */
  lemma HeldIsAbsorbing(c: PolicyConfig, w: World, first: seq<Happening>, rest: seq<Happening>)
    requires Unparted(c, w, Born(c), first + rest) && HeldNow(RunTo(c, w, Born(c), first))
    ensures var end := RunTo(c, w, Born(c), first + rest); HeldNow(end) || UntracedIn(end)
  {
    hide SystemSound, HeldNow, Born, Unparted, RunTo, WritesOf;
    RestIsLasting(c, w, first, rest);
  }

  /** A policy write once decided keeps its classification, over the rest of any life: one decided without doubt
      whatever the storage did, and every one as long as files and mirrors agree. No write is forgotten. */
  lemma DecidedWritesStay(c: PolicyConfig, w: World, first: seq<Happening>, rest: seq<Happening>)
    ensures WritesKept(WritesOf(RunTo(c, w, Born(c), first)), WritesOf(RunTo(c, w, Born(c), first + rest)))
    ensures Unparted(c, w, Born(c), first + rest) ==>
              WritesStay(WritesOf(RunTo(c, w, Born(c), first)), WritesOf(RunTo(c, w, Born(c), first + rest)))
  {
    hide SystemSound, HeldNow, Born, Unparted, RunTo, WritesKept, WritesStay, WritesOf, GateOf;
    RestIsEnduring(c, w, first, rest);
    if Unparted(c, w, Born(c), first + rest) { RestIsLasting(c, w, first, rest); }
  }

  // ---------------------------------------------------------------------------------------------- what was forwarded

  lemma {:induction false} ForwardedAlong(entries: seq<Entry>, n: nat)
    requires n <= |entries|
    ensures AccountOf(entries[..n]).forwarded <= AccountOf(entries).forwarded
  {
    if n == |entries| {
      assert entries[..n] == entries;
    } else {
      ForwardedAlong(entries[..|entries| - 1], n);
      assert entries[..|entries| - 1][..n] == entries[..n];
    }
  }

  ghost function ForwardedBy(y: System): seq<(string, nat)> {
    AccountOf(JournalOf(y)).forwarded
  }

  lemma OpeningForwards(c: PolicyConfig, w: World, s: Stores, untraced: bool)
    requires JournalOk(s.entries) && !s.parted
    ensures AccountOf(Reopen(c, w, s, untraced).gate.stores.entries).forwarded == AccountOf(s.entries).forwarded
    ensures Longer(s, Reopen(c, w, s, untraced).gate.stores)
  {
    hide PolicySound, Fenced, PolicyTraced, JournalOk, Recovered, OnStores, PolicyRestart, Reopen, OutcomesStay,
         AccountOf, Stopped, Restartable;
    OpeningIs(c, w, s, untraced);
    OnThoseStores(c, s, untraced);
    Recovers(c, s, untraced);
    PolicyRestartKeeps(w, Recovered(c, s, untraced), Around(OnStores(c.base, s, untraced)));
  }

  lemma JournalGrows(c: PolicyConfig, w: World, y: System, h: Happening)
    requires Sane(y)
    ensures JournalOf(y) <= JournalOf(NextLife(c, w, y, h)) || FileOf(y) <= JournalOf(NextLife(c, w, y, h))
  {
    hide PolicySound, Fenced, PolicyTraced, Next, ForwardOf, Reopen, OutcomesStay, Readable, Rested, Outlasts, CutTo,
         IdleBeyond, AccountOf, Stopped, IdleStores, PolicyRestart, GateOf, WritesOf;
    LifeEndures(c, w, y, h);
    if y.Up? && h.Occurs? {
      var p := y.policy;
      if PolicySound(p) && Fenced(p) {
        NextIsCarried(c, w, p, h.event);
      } else {
        NothingMoves(c, w, p, h.event);
        StoresBeyond(p.gate.stores, Next(c, w, p, h.event).gate.stores);
        IdleLonger(p.gate.stores.entries, Next(c, w, p, h.event).gate.stores.entries);
      }
    } else if y.Down? && h.Opens? {
      OpensRested(c, w, y.stores, y.untraced);
      StoresBeyond(y.stores, Reopen(c, w, y.stores, y.untraced).gate.stores);
      IdleLonger(y.stores.entries, Reopen(c, w, y.stores, y.untraced).gate.stores.entries);
    }
  }

  lemma SoundForwards(p: Policy)
    requires PolicySound(p)
    ensures ForwardedIn(p.gate) <= AccountOf(p.gate.stores.file).forwarded
  {
    hide AccountOf, Replay, Derive, Quench;
  }

  ghost predicate InAccounts(y: System, forwards: seq<(string, nat)>) {
    forwards <= AccountOf(JournalOf(y)).forwarded && forwards <= AccountOf(FileOf(y)).forwarded
  }

  lemma ForwardsPrefix(x: seq<Entry>, y: seq<Entry>)
    requires x <= y
    ensures AccountOf(x).forwarded <= AccountOf(y).forwarded
  {
    ForwardedAlong(y, |x|);
    assert y[..|x|] == x;
  }

  lemma OfUp(p: Policy)
    ensures JournalOf(Up(p)) == p.gate.stores.entries && FileOf(Up(p)) == p.gate.stores.file
  {
  }

  /** Both accounts keep what was forwarded and get what the happening forwards. */
  lemma InAccountsOn(c: PolicyConfig, w: World, y: System, h: Happening, forwards: seq<(string, nat)>)
    requires Sane(y) && Accounts(y, forwards) && InAccounts(y, forwards)
    ensures InAccounts(NextLife(c, w, y, h), forwards + ForwardAt(c, w, y, h))
  {
    hide PolicySound, Fenced, PolicyTraced, Next, ForwardOf, Reopen, OutcomesStay, Readable, Rested, Outlasts, CutTo,
         AccountOf, Stopped, Distinct, JournalOf, GateOf, WritesOf;
    var z := NextLife(c, w, y, h);
    StaysSane(c, w, y, h);
    if ForwardAt(c, w, y, h) == [] {
      assert forwards + ForwardAt(c, w, y, h) == forwards;
      LifeEndures(c, w, y, h);
      JournalGrows(c, w, y, h);
      ForwardsPrefix(FileOf(y), FileOf(z));
      if JournalOf(y) <= JournalOf(z) { ForwardsPrefix(JournalOf(y), JournalOf(z)); }
      else { ForwardsPrefix(FileOf(y), JournalOf(z)); }
    } else {
      NextIsCarried(c, w, y.policy, h.event);
      SoundForwards(z.policy);
      OfUp(z.policy);
    }
  }

  /** As long as files and mirrors agree a happening adds what it forwards to the journal's account, and nothing else
      unless it is a death inside an event. */
  lemma ForwardedOnward(c: PolicyConfig, w: World, y: System, h: Happening)
    requires SystemSound(y) && AgreesAt(c, w, y, h) && !h.Dies?
    ensures ForwardedBy(NextLife(c, w, y, h)) == ForwardedBy(y) + ForwardAt(c, w, y, h)
  {
    hide PolicySound, Fenced, PolicyTraced, JournalOk, Next, ForwardOf, Reopen, OutcomesStay, Firm, Recovered,
         AccountOf, CutTo, HeldNow, Stopped, Outlasts, WritesOf;
    var z := NextLife(c, w, y, h);
    LifeLasts(c, w, y, h);
    ForwardsPrefix(JournalOf(y), JournalOf(z));
    if y.Up? && h.Occurs? {
      NextIsCarried(c, w, y.policy, h.event);
    } else if y.Down? && (h.Opens? || h.OpeningDies?) {
      OpeningForwards(c, w, y.stores, y.untraced);
      if h.OpeningDies? {
        var t := Reopen(c, w, y.stores, y.untraced).gate.stores;
        CutIs(y.stores, t, h.kept, h.marked);
        ForwardedAlong(t.entries, |z.stores.entries|);
      }
    }
  }

  predicate NoneDies(hs: seq<Happening>) {
    forall i | 0 <= i < |hs| :: !hs[i].Dies?
  }

  lemma BornForwards(c: PolicyConfig)
    ensures ForwardedBy(Born(c)) == [] && InAccounts(Born(c), [])
  {
    hide PolicySound, Fenced, PolicyTraced;
    FreshSound(c);
  }

  lemma {:induction false} ForwardsExactly(c: PolicyConfig, w: World, hs: seq<Happening>)
    requires Unparted(c, w, Born(c), hs) && NoneDies(hs)
    ensures ForwardedBy(RunTo(c, w, Born(c), hs)) == Forwards(c, w, Born(c), hs)
  {
    hide SystemSound, NextLife, AgreesAt, ForwardAt, ForwardedBy, Born;
    if hs == [] {
      BornForwards(c);
    } else {
      var first, last := hs[..|hs| - 1], hs[|hs| - 1];
      ForwardsExactly(c, w, first);
      AlwaysSound(c, w, first);
      ForwardedOnward(c, w, RunTo(c, w, Born(c), first), last);
    }
  }

  lemma {:induction false} ForwardsAreFiled(c: PolicyConfig, w: World, hs: seq<Happening>)
    ensures InAccounts(RunTo(c, w, Born(c), hs), Forwards(c, w, Born(c), hs))
  {
    hide Sane, NextLife, ForwardAt, Born, InAccounts, Accounts, Endures;
    if hs == [] {
      BornForwards(c);
    } else {
      var first, last := hs[..|hs| - 1], hs[|hs| - 1];
      ForwardsAreFiled(c, w, first);
      BornSane(c);
      AlwaysSane(c, w, Born(c), first);
      AlwaysAccounts(c, w, first);
      InAccountsOn(c, w, RunTo(c, w, Born(c), first), last, Forwards(c, w, Born(c), first));
    }
  }

  /** Over all lives, whatever the storage did: every process is sound, or at rest on its file; all that was forwarded
      is, in order, where the account of the file begins, and so does that of the journal in memory. As long as files
      and mirrors agree every process is sound, and the account holds nothing else unless one died inside an event. */
  lemma RunKeeps(c: PolicyConfig, w: World, hs: seq<Happening>)
    ensures var y := RunTo(c, w, Born(c), hs);
            && Sane(y) && Forwards(c, w, Born(c), hs) <= AccountOf(FileOf(y)).forwarded
            && Forwards(c, w, Born(c), hs) <= AccountOf(JournalOf(y)).forwarded
    ensures Unparted(c, w, Born(c), hs) ==> SystemSound(RunTo(c, w, Born(c), hs))
    ensures Unparted(c, w, Born(c), hs) && NoneDies(hs) ==>
              AccountOf(JournalOf(RunTo(c, w, Born(c), hs))).forwarded == Forwards(c, w, Born(c), hs)
  {
    hide SystemSound, Sane, Born, RunTo, Forwards, Unparted, NoneDies, AccountOf, JournalOf, FileOf;
    BornSane(c);
    AlwaysSane(c, w, Born(c), hs);
    ForwardsAreFiled(c, w, hs);
    if Unparted(c, w, Born(c), hs) {
      AlwaysSound(c, w, hs);
      if NoneDies(hs) { ForwardsExactly(c, w, hs); }
    }
  }

  // ------------------------------------------------------------------------------------------- what a restart rebuilds

  lemma RestedWrites(p: Policy)
    requires Rested(p) && Readable(p.gate.stores.entries)
    ensures RebuildWrites(p.gate.stores.entries).0 == ConcludeWrites(p.writes)
    ensures forall id | id in p.writes :: p.writes[id] != WriteSent
    ensures forall id: nat :: id in p.writes <==> 1 <= id <= |p.writes|
  {
    hide AtRest, Alike, ReplayWrites, Replay, Derive, AccountOf, Quench;
    var found := ReplayWrites(p.gate.stores.entries).writes;
    ConcludedTwice(found);
    LawfulWrites(p.gate.stores.entries);
    assert p.writes.Keys == found.Keys;
    assert |p.writes| == |p.writes.Keys| == |found|;
    assert p.writes.Keys <= UpTo(|p.writes|);
    SameSize(p.writes.Keys, UpTo(|p.writes|));
  }

  /** Every write of a sound policy gate that is sent is the outstanding one. */
  lemma SentIsPending(p: Policy)
    requires PolicySound(p)
    ensures forall id | id in p.writes && p.writes[id] == WriteSent :: p.pending.Some? && p.pending.value.writeId == id
  {
    hide Sound, WritesRebuilt, WritesFiled, SessionShaped;
  }

  /** The write table of every process is what its journal rebuilds to, with ids 1..n. */
  lemma WritesAreRebuilt(c: PolicyConfig, w: World, hs: seq<Happening>)
    requires RunTo(c, w, Born(c), hs).Up?
    ensures var p := RunTo(c, w, Born(c), hs).policy;
            && RebuildWrites(p.gate.stores.entries).0 == ConcludeWrites(p.writes)
            && (forall id: nat :: id in p.writes <==> 1 <= id <= |p.writes|)
            && (forall id | id in p.writes && p.writes[id] == WriteSent ::
                  p.pending.Some? && p.pending.value.writeId == id)
  {
    hide RunTo, Born, PolicySound, Fenced, Rested, Readable, RebuildWrites, ConcludeWrites;
    BornSane(c);
    AlwaysSane(c, w, Born(c), hs);
    var p := RunTo(c, w, Born(c), hs).policy;
    if PolicySound(p) && Fenced(p) {
      RestartRebuildsWrites(p);
      SentIsPending(p);
    } else {
      RestedWrites(p);
    }
  }

  /** What a restart makes of the action `m`. */
  predicate Rebuilds(m: Action, n: Action) {
    && n.status == Status.Terminal && n.sealed == m.sealed
    && n.classification == (match m.status
                            case Terminal => m.classification
                            case Consumed => Some(IoAmbiguous)
                            case Armed => Some(NotForwarded))
    && (m.status == Status.Consumed ==> n.after) && (Settled(m) ==> n.after == m.after)
  }

  lemma RestedActions(w: World, p: Policy, floor: bool)
    requires Rested(p)
    ensures RestartWith(w, p.gate, floor).actions == p.gate.actions
    ensures forall id | id in p.gate.actions :: p.gate.actions[id].status == Status.Terminal
  {
    hide Alike, Replay, Derive, RebuildWrites, Journalled, RestartWith, Conclude, Dozes, RebuiltState;
    var quiet := Quieted(p.gate, floor);
    RestartIs(w, p.gate, floor);
    QuietedStates(p.gate, floor);
    JournalledDozes(w, quiet, Record.Restarted(quiet.state));
    DozesDoze(quiet, RestartWith(w, p.gate, floor));
  }

  /** A restart of any process rebuilds the actions memory holds, and never finds its journal inconsistent. */
  lemma ActionsAreRebuilt(c: PolicyConfig, w: World, hs: seq<Happening>, floor: bool)
    requires RunTo(c, w, Born(c), hs).Up?
    ensures var g := RunTo(c, w, Born(c), hs).policy.gate;
            && !Replay(g.stores.entries).inconsistent
            && RestartWith(w, g, floor).actions.Keys == g.actions.Keys
            && forall id | id in g.actions :: Rebuilds(g.actions[id], RestartWith(w, g, floor).actions[id])
  {
    hide RunTo, Born, PolicySound, RestartWith, Restartable, Fenced, Rested, AccountOf, Quench, ReplayWrites, Replay;
    BornSane(c);
    AlwaysSane(c, w, Born(c), hs);
    var p := RunTo(c, w, Born(c), hs).policy;
    if PolicySound(p) && Fenced(p) {
      SoundPolicy(p);
      SoundReadable(p);
      SelfRestartable(p.gate);
      RestartRebuildsMemory(w, p.gate, p.gate, floor);
    } else {
      RestedActions(w, p, floor);
    }
  }

  // ------------------------------------------------------------------------------------- exactly when a hold is let go

  /** The happening keeps a hold: it is no restart and ends no process; or it is a restart of a gate that has what holds
      it again; or it ends a process, and the memory it had, the marker it leaves and the entries it kept of what it was
      adding hold the next one. */
  ghost predicate HoldsThrough(c: PolicyConfig, w: World, y: System, h: Happening) {
    y.Up? ==>
      var (p, s) := (y.policy, y.policy.gate.stores);
      match h
      case Occurs(event) => event == Base(GateRestart) ==> HeldAgain(w, p)
      case Stops => Holding(p, s.marker, [])
      case Dies(event, kept, marked) =>
        var t := Next(c, w, p, event).gate.stores;
        Holding(p, s.marker || (marked && t.marker), KeptOf(s, t, kept))
      case _ => true
  }

  lemma OnwardHeld(p: Policy, q: Policy)
    requires PolicyOnward(p, q) && p.gate.state == Held
    ensures q.gate.state == Held
  {
  }

  lemma HeldEvent(c: PolicyConfig, w: World, p: Policy, event: PolicyEvent)
    requires PolicySound(p) && Fenced(p) && p.gate.state == Held
    ensures Next(c, w, p, event).gate.state == Held <==> (event == Base(GateRestart) ==> HeldAgain(w, p))
  {
    hide PolicySound, Fenced, PolicyTraced, PolicyHandle, PolicyRestart, SettleMaintenance, PolicyOnward, HeldAgain,
         BindsStep, ForwardedIn, Carried, BindsIn;
    if event == Base(GateRestart) {
      SoundPolicy(p);
      SelfRestartable(p.gate);
      RestartIsCarried(c, w, p, p);
      HandlesRestart(c, w, p);
      RestartHeldExactly(w, p, p);
    } else {
      HandleKeeps(c, w, p, event);
      var o := PolicyHandle(c, w, p, event);
      if o.PolicyHandled? { OnwardHeld(p, o.policy); }
    }
  }

  lemma HeldStop(p: Policy)
    requires PolicySound(p) && !p.gate.stores.parted
    ensures Firm(Reread(p.gate.stores)) <==> Holding(p, p.gate.stores.marker, [])
  {
    hide PolicySound, Firm, Holding, JournalOk, Mute;
    SoundJournal(p);
    assert p.gate.stores.entries + [] == p.gate.stores.entries;
    FirmExactly(p, Reread(p.gate.stores), []);
  }

  lemma OnwardMutes(p: Policy, q: Policy, kept: seq<Entry>)
    requires PolicyOnward(p, q) && p.gate.state == Held && p.gate.stores.entries + kept <= q.gate.stores.entries
    ensures forall e | e in kept :: Mute(p.gate, e)
  {
    hide Mute, Outlasts;
    forall e | e in kept
      ensures Mute(p.gate, e)
    {
      var i :| 0 <= i < |kept| && kept[i] == e;
      var at := |p.gate.stores.entries| + i;
      assert q.gate.stores.entries[at] == (p.gate.stores.entries + kept)[at] == e;
    }
  }

  lemma KeptIs(s: Stores, t: Stores, kept: nat, marked: bool)
    requires Longer(s, t) && !t.parted
    ensures var u := CutTo(s, t, kept, marked);
            && u.entries == s.entries + KeptOf(s, t, kept) && u.entries <= t.entries && !s.parted
            && u.marker == (s.marker || (marked && t.marker))
  {
  }

  /** A hold outlasts a death inside any event if and only if memory, the marker and the entries kept say so. */
  lemma HeldDeath(c: PolicyConfig, w: World, p: Policy, event: PolicyEvent, kept: nat, marked: bool)
    requires PolicySound(p) && Fenced(p) && p.gate.state == Held && !Next(c, w, p, event).gate.stores.parted
    ensures var (s, t) := (p.gate.stores, Next(c, w, p, event).gate.stores);
            Firm(CutTo(s, t, kept, marked))
            <==> Holding(p, s.marker || (marked && t.marker), KeptOf(s, t, kept))
  {
    hide PolicySound, Fenced, PolicyTraced, PolicyHandle, PolicyRestart, SettleMaintenance, PolicyOnward, Firm, Holding,
         ForwardedIn, BindsStep, JournalOk, Mute, CutTo, KeptOf, OutcomesStay, Outlasts, BindsIn;
    var q := Next(c, w, p, event);
    var u := CutTo(p.gate.stores, q.gate.stores, kept, marked);
    NextIsCarried(c, w, p, event);
    KeptIs(p.gate.stores, q.gate.stores, kept, marked);
    var more := KeptOf(p.gate.stores, q.gate.stores, kept);
    if event == Base(GateRestart) {
      SoundPolicy(p);
      SelfRestartable(p.gate);
      RestartIsCarried(c, w, p, p);
      HandlesRestart(c, w, p);
      assert u.entries[|p.gate.stores.entries|..] == more;
      FirmRestartExactly(w, p, u, |u.entries|);
    } else {
      SoundJournal(q);
      assert u.entries == q.gate.stores.entries[..|u.entries|];
      PrefixOk(q.gate.stores.entries, |u.entries|);
      HandleKeeps(c, w, p, event);
      var o := PolicyHandle(c, w, p, event);
      if o.PolicyHandled? { OnwardMutes(p, q, more); } else { assert more == []; }
      FirmExactly(p, u, more);
    }
  }

  /** A new process comes up HELD if and only if the journal it finds is firm or its RESTARTED record does not last,
      whatever the file holds. */
  lemma OpensHeldExactly(c: PolicyConfig, w: World, s: Stores, untraced: bool)
    requires !s.parted
    ensures Reopen(c, w, s, untraced).gate.state == Held <==> Firm(s) || !LastsNext(w, s)
  {
    hide Firm, OnStores, PolicyRestart, Reopen, Rested, Conclude, Replay, Derive, RebuildWrites, IdleStores;
    OpensRested(c, w, s, untraced);
    OnThoseStores(c, s, untraced);
    JournalRestartExactly(w, Around(OnStores(c.base, s, untraced)));
  }

  lemma OpeningStaysFirm(c: PolicyConfig, w: World, s: Stores, untraced: bool, kept: nat, marked: bool)
    requires JournalOk(s.entries) && !s.parted && Firm(s) && !Reopen(c, w, s, untraced).gate.stores.parted
    ensures Firm(CutTo(s, Reopen(c, w, s, untraced).gate.stores, kept, marked))
  {
    hide PolicyTraced, JournalOk, Firm, Recovered, OnStores, PolicyRestart, Reopen, CutTo, OutcomesStay, PolicySound,
         Fenced, Stopped;
    var q := Reopen(c, w, s, untraced);
    OpeningIs(c, w, s, untraced);
    OnThoseStores(c, s, untraced);
    CutIs(s, q.gate.stores, kept, marked);
    var t := CutTo(s, q.gate.stores, kept, marked);
    FirmRestart(w, Around(OnStores(c.base, s, untraced)), t, |t.entries|);
  }

  /** A hold outlasts one happening if and only if the happening keeps it. */
  lemma HeldStepExactly(c: PolicyConfig, w: World, y: System, h: Happening)
    requires SystemSound(y) && AgreesAt(c, w, y, h) && HeldNow(y)
    ensures HeldNow(NextLife(c, w, y, h)) <==> HoldsThrough(c, w, y, h)
  {
    hide PolicySound, Fenced, PolicyTraced, JournalOk, Firm, Holding, KeptOf, HeldAgain, Next, Reopen, Reread, CutTo;
    match y {
      case Up(p) =>
        if h.Occurs? { HeldEvent(c, w, p, h.event); }
        if h.Stops? { HeldStop(p); }
        if h.Dies? { HeldDeath(c, w, p, h.event, h.kept, h.marked); }
      case Down(s, untraced) =>
        if h.Opens? { OpensHeldExactly(c, w, s, untraced); }
        if h.OpeningDies? { OpeningStaysFirm(c, w, s, untraced, h.kept, h.marked); }
    }
  }

  /** The system after `k` of the rest. */
  ghost function After(c: PolicyConfig, w: World, first: seq<Happening>, rest: seq<Happening>, k: nat): System
    requires k <= |rest|
  {
    RunTo(c, w, Born(c), first + rest[..k])
  }

  lemma HeldStepAt(c: PolicyConfig, w: World, first: seq<Happening>, rest: seq<Happening>, k: nat)
    requires k < |rest| && Unparted(c, w, Born(c), first + rest) && HeldNow(After(c, w, first, rest, k))
    ensures HeldNow(After(c, w, first, rest, k + 1)) <==> HoldsThrough(c, w, After(c, w, first, rest, k), rest[k])
  {
    hide SystemSound, HeldNow, HoldsThrough, NextLife, AgreesAt, Born;
    var upto := first + rest[..k + 1];
    assert first + rest == upto + rest[k + 1..];
    UnpartedSplits(c, w, Born(c), upto, rest[k + 1..]);
    assert upto[..|upto| - 1] == first + rest[..k] && upto[|upto| - 1] == rest[k];
    AlwaysSound(c, w, first + rest[..k]);
    HeldStepExactly(c, w, After(c, w, first, rest, k), rest[k]);
  }

  lemma {:induction false} HeldUpTo(c: PolicyConfig, w: World, first: seq<Happening>, rest: seq<Happening>, k: nat)
    requires k <= |rest| && Unparted(c, w, Born(c), first + rest) && HeldNow(RunTo(c, w, Born(c), first))
    requires forall i: nat | i < k :: HoldsThrough(c, w, After(c, w, first, rest, i), rest[i])
    ensures HeldNow(After(c, w, first, rest, k))
  {
    hide HeldNow, HoldsThrough, Unparted;
    if k == 0 {
      assert first + rest[..0] == first;
    } else {
      HeldUpTo(c, w, first, rest, k - 1);
      HeldStepAt(c, w, first, rest, k - 1);
    }
  }

  /** From a hold on, the generation is held at every point of the rest of its lives if and only if every happening
      keeps the hold. */
  lemma HeldThroughoutExactly(c: PolicyConfig, w: World, first: seq<Happening>, rest: seq<Happening>)
    requires Unparted(c, w, Born(c), first + rest) && HeldNow(RunTo(c, w, Born(c), first))
    ensures (forall k: nat | k <= |rest| :: HeldNow(After(c, w, first, rest, k)))
            <==> (forall k: nat | k < |rest| :: HoldsThrough(c, w, After(c, w, first, rest, k), rest[k]))
  {
    hide HeldNow, HoldsThrough, Unparted, After;
    if forall k: nat | k < |rest| :: HoldsThrough(c, w, After(c, w, first, rest, k), rest[k]) {
      forall k: nat | k <= |rest|
        ensures HeldNow(After(c, w, first, rest, k))
      {
        HeldUpTo(c, w, first, rest, k);
      }
    }
    if forall k: nat | k <= |rest| :: HeldNow(After(c, w, first, rest, k)) {
      forall k: nat | k < |rest|
        ensures HoldsThrough(c, w, After(c, w, first, rest, k), rest[k])
      {
        HeldStepAt(c, w, first, rest, k);
      }
    }
  }
}
