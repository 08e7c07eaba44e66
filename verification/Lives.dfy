/** Whole lives of a generation: one process after another on the same directories, each dying between events, inside an
    event after any append, or while it is still opening, and each coming up on what a scan of the file finds, under any
    pattern of storage failures. */
module Lives {
  import opened Vocabulary
  import opened Journal
  import opened GateModel
  import opened WriteReplay
  import opened Lawful
  import opened GateInvariant
  import opened GateEvents
  import opened PolicyModel
  import opened PolicyInvariant
  import opened PolicyRuns
  import opened Recovery
  import opened Drift
  import opened Cuts
  import opened Resting

  /** A process with its policy gate, or none and what the last one left on disk. */
  datatype System = Up(policy: Policy) | Down(stores: Stores, untraced: bool)

  /** What happens: an event; the process ends between events, or inside one with `kept` of the entries it was adding in
      the file and the marker it was writing left or not; a new process opens the generation, or dies at it. */
  datatype Happening =
    | Occurs(event: PolicyEvent)
    | Stops
    | Dies(event: PolicyEvent, kept: nat, marked: bool)
    | Opens
    | OpeningDies(kept: nat, marked: bool)

  /** What a new process finds where a process ended between events. */
  function Reread(s: Stores): Stores {
    StoresOf(s.file, s.file, s.marker, s.appends, s.marks, false)
  }

  /** What a new process finds where a process ended on its way from `s` to `t`. */
  function CutTo(s: Stores, t: Stores, kept: nat, marked: bool): Stores {
    var n := if |s.file| + kept <= |t.file| then |s.file| + kept else |t.file|;
    StoresOf(t.file[..n], t.file[..n], s.marker || (marked && t.marker), t.appends, t.marks, false)
  }

  /** The entries kept of those a process was adding on its way from `s` to `t`. */
  function KeptOf(s: Stores, t: Stores, kept: nat): seq<Entry> {
    if |t.file| < |s.file| then []
    else if |s.file| + kept <= |t.file| then t.file[|s.file|..|s.file| + kept]
    else t.file[|s.file|..]
  }

  ghost function NextLife(c: PolicyConfig, w: World, y: System, h: Happening): System {
    match y
    case Up(p) =>
      (match h
       case Occurs(event) => Up(Next(c, w, p, event))
       case Stops => Down(Reread(p.gate.stores), p.gate.untraced)
       case Dies(event, kept, marked) =>
         Down(CutTo(p.gate.stores, Next(c, w, p, event).gate.stores, kept, marked), p.gate.untraced)
       case _ => y)
    case Down(s, untraced) =>
      (match h
       case Opens => Up(Reopen(c, w, s, untraced))
       case OpeningDies(kept, marked) => Down(CutTo(s, Reopen(c, w, s, untraced).gate.stores, kept, marked), untraced)
       case _ => y)
  }

  /** The effect a happening forwards, if any; a process that dies inside an event forwards nothing of it. */
  ghost function ForwardAt(c: PolicyConfig, w: World, y: System, h: Happening): seq<(string, nat)> {
    if y.Up? && h.Occurs? then ForwardOf(c, w, y.policy, h.event) else []
  }

  ghost function RunTo(c: PolicyConfig, w: World, y: System, hs: seq<Happening>): System {
    if hs == [] then y else NextLife(c, w, RunTo(c, w, y, hs[..|hs| - 1]), hs[|hs| - 1])
  }

  ghost function Forwards(c: PolicyConfig, w: World, y: System, hs: seq<Happening>): seq<(string, nat)> {
    if hs == [] then []
    else Forwards(c, w, y, hs[..|hs| - 1]) + ForwardAt(c, w, RunTo(c, w, y, hs[..|hs| - 1]), hs[|hs| - 1])
  }

  /** A new generation's first process. */
  function Born(c: PolicyConfig): System {
    Up(Fresh(c))
  }

  lemma {:induction false} RunSplits(c: PolicyConfig, w: World, y: System, first: seq<Happening>, rest: seq<Happening>)
    ensures RunTo(c, w, y, first + rest) == RunTo(c, w, RunTo(c, w, y, first), rest)
    ensures Forwards(c, w, y, first + rest) == Forwards(c, w, y, first) + Forwards(c, w, RunTo(c, w, y, first), rest)
  {
    hide NextLife, ForwardAt;
    if rest == [] {
      assert first + rest == first;
    } else {
      RunSplits(c, w, y, first, rest[..|rest| - 1]);
      assert (first + rest)[..|first + rest| - 1] == first + rest[..|rest| - 1];
    }
  }

  // ---------------------------------------------------------------------------------------------- what a system shows

  /** The journal of the process, or the one the next process will find. */
  function JournalOf(y: System): seq<Entry> {
    match y
    case Up(p) => p.gate.stores.entries
    case Down(s, _) => s.entries
  }

  /** What a scan of the generation's journal file finds. */
  function FileOf(y: System): seq<Entry> {
    match y
    case Up(p) => p.gate.stores.file
    case Down(s, _) => s.file
  }

  /** The gate, or what the next process will recover. */
  ghost function GateOf(c: PolicyConfig, y: System): Gate {
    match y
    case Up(p) => p.gate
    case Down(s, untraced) => Recovered(c, s, untraced).gate
  }

  /** The policy writes, or those the next process will rebuild. */
  ghost function WritesOf(y: System): Writes {
    match y
    case Up(p) => p.writes
    case Down(s, _) => RebuildWrites(s.entries).0
  }

  // -------------------------------------------------------------------------------------------- without any hypothesis

  /** What every file says, whatever the appends left in it: no record of an unknown action, every ARM, CONSUMED and
      BIND justified, nothing consumed after a stop, the writes in order. */
  ghost predicate Readable(entries: seq<Entry>) {
    && !Replay(entries).inconsistent && AccountOf(entries).sound && Quench(entries).clean
    && ReplayWrites(entries).lawful
  }

  /** Sound, or at rest on a file that says what every file says. */
  ghost predicate Sane(y: System) {
    match y
    case Up(p) => (PolicySound(p) && Fenced(p)) || (Rested(p) && Readable(p.gate.stores.entries))
    case Down(s, _) => !s.parted && Readable(s.entries)
  }

  /** A write decided without doubt keeps its classification, and no write is forgotten. */
  predicate WritesKept(x: Writes, y: Writes) {
    forall id | id in x ::
      id in y && (x[id].WriteDone? && x[id].classification != IoAmbiguous ==> y[id] == x[id])
  }

  /** What every happening keeps, whatever the storage did: the file only grows, settled outcomes stay, and so do the
      writes decided without doubt. */
  ghost predicate Endures(c: PolicyConfig, y: System, z: System) {
    && FileOf(y) <= FileOf(z) && OutcomesStay(GateOf(c, y), GateOf(c, z)) && WritesKept(WritesOf(y), WritesOf(z))
  }

  lemma LawfulAccount(p: Policy)
    requires PolicySound(p)
    ensures AccountOf(p.gate.stores.entries).sound
  {
  }

  lemma SoundReadable(p: Policy)
    requires PolicySound(p)
    ensures Readable(p.gate.stores.entries) && Readable(p.gate.stores.file)
  {
    hide Replay, Derive, AccountOf, Quench, ReplayWrites, IsLawful, Shaped, StampsCurrent, AccountAgrees, SessionShaped,
         WritesShaped;
    LawfulAccount(p);
  }

  lemma AlikeReadable(x: seq<Entry>, y: seq<Entry>)
    requires Alike(x, y) && Readable(x)
    ensures Readable(y)
  {
    hide Replay, Derive, AccountOf, Quench, ReplayWrites;
  }

  lemma {:induction false} ConsistentPrefix(entries: seq<Entry>, n: nat)
    requires n <= |entries| && !Replay(entries).inconsistent
    ensures !Replay(entries[..n]).inconsistent
  {
    if n == |entries| {
      assert entries[..n] == entries;
    } else {
      ConsistentPrefix(entries[..|entries| - 1], n);
      assert entries[..|entries| - 1][..n] == entries[..n];
    }
  }

  lemma ReadablePrefix(entries: seq<Entry>, n: nat)
    requires Readable(entries) && n <= |entries|
    ensures Readable(entries[..n])
  {
    hide Replay, AccountOf, Quench, ReplayWrites;
    ConsistentPrefix(entries, n);
    FoldsPrefix(entries, n);
  }

  lemma CutFile(s: Stores, t: Stores, kept: nat, marked: bool)
    requires s.file <= t.file
    ensures var u := CutTo(s, t, kept, marked);
            && !u.parted && u.entries == u.file && |s.file| <= |u.file| <= |t.file| && u.file == t.file[..|u.file|]
            && s.file <= u.file
  {
  }

  // What a sound process leaves.

  lemma OutlivedOutcomes(c: PolicyConfig, g: Gate, s: Stores, untraced: bool)
    requires Outlives(g, Replay(s.entries), Derive(s.entries))
    ensures OutcomesStay(g, Recovered(c, s, untraced).gate)
  {
    hide Replay, Derive, RebuildWrites, RebuiltState;
  }

  lemma OutlivesFiled(g: Gate)
    requires Sound(g)
    ensures Outlives(g, Replay(g.stores.file), Derive(g.stores.file))
  {
    hide FiledOn, Outlives, SoundOn, Quelled, IsLawful;
    var f := g.stores.file;
    FiledOutlives(g, Replay(f), Derive(f), AccountOf(f), Quench(f), AccountOf(g.stores.entries).forwarded);
  }

  /** The writes of memory, in any readable cut of a file that grew from its own. */
  lemma WritesInCut(p: Policy, cut: seq<Entry>)
    requires PolicySound(p) && p.gate.stores.file <= cut && ReplayWrites(cut).lawful
    ensures WritesKept(p.writes, RebuildWrites(cut).0)
  {
    hide PolicySound, ReplayWrites;
    PolicyWritten(p);
    var f := p.gate.stores.file;
    assert cut[..|f|] == f;
    forall id | id in p.writes
      ensures id in ReplayWrites(cut).writes
      ensures p.writes[id].WriteDone? && p.writes[id].classification != IoAmbiguous ==>
                ReplayWrites(cut).writes[id] == p.writes[id]
    {
      WritesAlong(cut, |f|, id);
    }
  }

  lemma ReadableWrites(entries: seq<Entry>)
    requires Readable(entries)
    ensures ReplayWrites(entries).lawful
  {
  }

  /** A sound process that ends with its file, or with any part of what an event was adding to it. */
  lemma SoundCut(c: PolicyConfig, p: Policy, q: Policy, s: Stores, untraced: bool)
    requires PolicySound(p) && PolicySound(q) && Outlasts(p.gate, q.gate.stores.file)
    requires p.gate.stores.file <= s.file <= q.gate.stores.file && !s.parted
    ensures Sane(Down(s, untraced)) && Endures(c, Up(p), Down(s, untraced))
  {
    hide PolicySound, Readable, Recovered, RebuildWrites, OutcomesStay, WritesKept, Replay, Derive, Outlives;
    var (f, t) := (p.gate.stores.file, q.gate.stores.file);
    assert s.file == t[..|s.file|];
    SoundReadable(q);
    ReadablePrefix(t, |s.file|);
    assert ReplayWrites(s.file).lawful by { ReadableWrites(s.file); }
    WritesInCut(p, s.file);
    SoundPolicy(p);
    OutlivesFiled(p.gate);
    if |s.file| == |f| { assert s.file == f; }
    OutlivedOutcomes(c, p.gate, s, untraced);
  }

  // What a process at rest leaves.

  lemma SameOutcomes(g: Gate, h: Gate)
    requires h.actions == g.actions && h.boundIds == g.boundIds
    ensures OutcomesStay(g, h)
  {
  }

  lemma SameWrites(writes: Writes)
    ensures WritesKept(writes, writes)
  {
  }

  lemma RecoveredIs(c: PolicyConfig, s: Stores, untraced: bool)
    ensures var h := Recovered(c, s, untraced).gate;
            h.actions == Conclude(Replay(s.entries).actions) && h.boundIds == Derive(s.entries).boundIds
  {
    hide Replay, Derive, RebuildWrites, RebuiltState, Conclude;
  }

  lemma AlikeIs(x: seq<Entry>, y: seq<Entry>)
    requires Alike(x, y)
    ensures Conclude(Replay(x).actions) == Conclude(Replay(y).actions) && Derive(x).boundIds == Derive(y).boundIds
    ensures RebuildWrites(x).0 == RebuildWrites(y).0
  {
    hide Replay, Derive, ReplayWrites, AccountOf, Quench, Conclude;
  }

  lemma OfDown(c: PolicyConfig, s: Stores, untraced: bool)
    ensures GateOf(c, Down(s, untraced)) == Recovered(c, s, untraced).gate
    ensures WritesOf(Down(s, untraced)) == RebuildWrites(s.entries).0 && FileOf(Down(s, untraced)) == s.file
  {
  }

  lemma IdleLonger(x: seq<Entry>, y: seq<Entry>)
    requires IdleBeyond(x, y, false)
    ensures x <= y
  {
  }

  /** What a process finds where files grew by idle entries only, from a file that says what the memory of `y` says. */
  lemma RestedCut(c: PolicyConfig, y: System, s: Stores, untraced: bool)
    requires GateOf(c, y).actions == Conclude(Replay(FileOf(y)).actions)
    requires GateOf(c, y).boundIds == Derive(FileOf(y)).boundIds && WritesOf(y) == RebuildWrites(FileOf(y)).0
    requires Readable(FileOf(y)) && IdleBeyond(FileOf(y), s.file, false) && !s.parted
    ensures Sane(Down(s, untraced)) && Endures(c, y, Down(s, untraced))
  {
    hide Readable, Recovered, RebuildWrites, OutcomesStay, WritesKept, Replay, Derive, Alike, IdleBeyond, Conclude,
         GateOf, WritesOf, FileOf;
    var f := FileOf(y);
    IdleAlike(f, s.file, false);
    AlikeReadable(f, s.file);
    AlikeIs(f, s.file);
    RecoveredIs(c, s, untraced);
    OfDown(c, s, untraced);
    SameOutcomes(GateOf(c, y), Recovered(c, s, untraced).gate);
    SameWrites(WritesOf(y));
    IdleLonger(f, s.file);
  }

  lemma RestedIs(p: Policy)
    requires Rested(p) && Readable(p.gate.stores.entries)
    ensures p.gate.actions == Conclude(Replay(p.gate.stores.file).actions)
    ensures p.gate.boundIds == Derive(p.gate.stores.file).boundIds
    ensures p.writes == RebuildWrites(p.gate.stores.file).0 && Readable(p.gate.stores.file)
  {
    hide Replay, Derive, RebuildWrites, Readable, Alike, Conclude;
    AlikeIs(p.gate.stores.entries, p.gate.stores.file);
    AlikeReadable(p.gate.stores.entries, p.gate.stores.file);
  }

  lemma StoresBeyond(s: Stores, t: Stores)
    requires IdleStores(s, t, false)
    ensures IdleBeyond(s.entries, t.entries, false) && IdleBeyond(s.file, t.file, false) && s.file <= t.file
  {
  }

  // The happenings.

  lemma EventEndures(c: PolicyConfig, w: World, p: Policy, event: PolicyEvent)
    requires Sane(Up(p))
    ensures var z := Up(Next(c, w, p, event)); Sane(z) && Endures(c, Up(p), z)
  {
    hide PolicySound, Fenced, PolicyTraced, Next, ForwardOf, ForwardedIn, OutcomesStay, Stopped, Readable, Rested,
         Outlasts, IdleStores, Replay, IdleBeyond;
    var q := Next(c, w, p, event);
    if PolicySound(p) && Fenced(p) {
      NextIsCarried(c, w, p, event);
    } else {
      NothingMoves(c, w, p, event);
      StoresBeyond(p.gate.stores, q.gate.stores);
      IdleAlike(p.gate.stores.entries, q.gate.stores.entries, false);
      AlikeReadable(p.gate.stores.entries, q.gate.stores.entries);
      SameOutcomes(p.gate, q.gate);
    }
  }

  /** A death between events. */
  lemma StopEndures(c: PolicyConfig, p: Policy)
    requires Sane(Up(p))
    ensures var z := Down(Reread(p.gate.stores), p.gate.untraced); Sane(z) && Endures(c, Up(p), z)
  {
    hide PolicySound, Fenced, Endures, Readable, Rested, Conclude, Replay, Derive, RebuildWrites, IdleBeyond;
    var s := Reread(p.gate.stores);
    if PolicySound(p) && Fenced(p) {
      NothingOutlasts(p.gate);
      SoundCut(c, p, p, s, p.gate.untraced);
    } else {
      RestedIs(p);
      SameIdle(p.gate.stores.file, false);
      RestedCut(c, Up(p), s, p.gate.untraced);
    }
  }

  lemma IdleCutTo(s: Stores, t: Stores, kept: nat, marked: bool)
    requires IdleBeyond(s.file, t.file, false)
    ensures IdleBeyond(s.file, CutTo(s, t, kept, marked).file, false)
  {
    hide IsIdle;
    var n := |CutTo(s, t, kept, marked).file|;
    IdleCut(s.file, t.file, false, n);
  }

  /** A death inside an event, whatever was left in the file: settled outcomes stay. */
  lemma DeathEndures(c: PolicyConfig, w: World, p: Policy, event: PolicyEvent, kept: nat, marked: bool)
    requires Sane(Up(p))
    ensures var z := Down(CutTo(p.gate.stores, Next(c, w, p, event).gate.stores, kept, marked), p.gate.untraced);
            Sane(z) && Endures(c, Up(p), z)
  {
    hide PolicySound, Fenced, Endures, Readable, Rested, Conclude, Replay, Derive, RebuildWrites, IdleBeyond, Next,
         CutTo, ForwardOf, Stopped, Outlasts, OutcomesStay, PolicyTraced, IdleStores, AccountOf;
    var q := Next(c, w, p, event);
    var s := CutTo(p.gate.stores, q.gate.stores, kept, marked);
    if PolicySound(p) && Fenced(p) {
      NextIsCarried(c, w, p, event);
      CutFile(p.gate.stores, q.gate.stores, kept, marked);
      SoundCut(c, p, q, s, p.gate.untraced);
    } else {
      NothingMoves(c, w, p, event);
      StoresBeyond(p.gate.stores, q.gate.stores);
      IdleCutTo(p.gate.stores, q.gate.stores, kept, marked);
      CutFile(p.gate.stores, q.gate.stores, kept, marked);
      RestedIs(p);
      RestedCut(c, Up(p), s, p.gate.untraced);
    }
  }

  lemma OpeningEndures(c: PolicyConfig, w: World, s: Stores, untraced: bool)
    requires Sane(Down(s, untraced))
    ensures var z := Up(Reopen(c, w, s, untraced)); Sane(z) && Endures(c, Down(s, untraced), z)
  {
    hide Readable, Rested, Conclude, Replay, Derive, RebuildWrites, IdleBeyond, Reopen, Recovered, OutcomesStay,
         PolicySound, Fenced, IdleStores, PolicyRestart;
    var q := Reopen(c, w, s, untraced);
    OpensRested(c, w, s, untraced);
    StoresBeyond(s, q.gate.stores);
    IdleAlike(s.entries, q.gate.stores.entries, false);
    AlikeReadable(s.entries, q.gate.stores.entries);
    RecoveredIs(c, s, untraced);
    SameOutcomes(Recovered(c, s, untraced).gate, q.gate);
    SameWrites(q.writes);
  }

  lemma OpeningDeathEndures(c: PolicyConfig, w: World, s: Stores, untraced: bool, kept: nat, marked: bool)
    requires Sane(Down(s, untraced))
    ensures var z := Down(CutTo(s, Reopen(c, w, s, untraced).gate.stores, kept, marked), untraced);
            Sane(z) && Endures(c, Down(s, untraced), z)
  {
    hide Readable, Rested, Conclude, Replay, Derive, RebuildWrites, IdleBeyond, Reopen, Recovered, Endures, CutTo,
         IdleStores, PolicyRestart;
    var q := Reopen(c, w, s, untraced);
    OpensRested(c, w, s, untraced);
    StoresBeyond(s, q.gate.stores);
    IdleCutTo(s, q.gate.stores, kept, marked);
    CutFile(s, q.gate.stores, kept, marked);
    RecoveredIs(c, s, untraced);
    RestedCut(c, Down(s, untraced), CutTo(s, q.gate.stores, kept, marked), untraced);
  }

  lemma SelfEndures(c: PolicyConfig, y: System)
    ensures Endures(c, y, y)
  {
    hide Recovered, RebuildWrites;
  }

  /** Every happening, whatever the storage did and whatever the file holds. */
  lemma LifeEndures(c: PolicyConfig, w: World, y: System, h: Happening)
    requires Sane(y)
    ensures Sane(NextLife(c, w, y, h)) && Endures(c, y, NextLife(c, w, y, h))
  {
    hide Sane, Endures, Next, Reopen, CutTo, Reread;
    SelfEndures(c, y);
    match y {
      case Up(p) =>
        match h {
          case Occurs(event) => EventEndures(c, w, p, event);
          case Stops => StopEndures(c, p);
          case Dies(event, kept, marked) => DeathEndures(c, w, p, event, kept, marked);
          case _ =>
        }
      case Down(s, untraced) =>
        match h {
          case Opens => OpeningEndures(c, w, s, untraced);
          case OpeningDies(kept, marked) => OpeningDeathEndures(c, w, s, untraced, kept, marked);
          case _ =>
        }
    }
  }

  lemma EnduresOn(c: PolicyConfig, x: System, y: System, z: System)
    requires Endures(c, x, y) && Endures(c, y, z)
    ensures Endures(c, x, z)
  {
    hide GateOf, WritesOf, OutcomesStay, FileOf;
    OutcomesStayComposes(GateOf(c, x), GateOf(c, y), GateOf(c, z));
  }

  lemma {:induction false} RestEndures(c: PolicyConfig, w: World, y: System, hs: seq<Happening>)
    requires Sane(y)
    ensures Sane(RunTo(c, w, y, hs)) && Endures(c, y, RunTo(c, w, y, hs))
  {
    hide Sane, Endures, NextLife;
    SelfEndures(c, y);
    if hs != [] {
      var before := RunTo(c, w, y, hs[..|hs| - 1]);
      RestEndures(c, w, y, hs[..|hs| - 1]);
      LifeEndures(c, w, before, hs[|hs| - 1]);
      EnduresOn(c, y, before, NextLife(c, w, before, hs[|hs| - 1]));
    }
  }

  // -------------------------------------------------------------------------------------------- nothing more forwarded

  /** Nothing can be forwarded any more. */
  predicate Inert(y: System) {
    y.Up? ==> Stopped(y.policy.gate) || y.policy.maintenance != NotBegun
  }

  lemma SaneIs(p: Policy)
    requires Sane(Up(p))
    ensures (PolicySound(p) && Fenced(p)) || Asleep(p)
  {
    hide PolicySound, Fenced, Alike, Readable;
  }

  /** A sleeping gate sleeps on and forwards nothing. */
  lemma SleepsOn(c: PolicyConfig, w: World, p: Policy, event: PolicyEvent)
    requires Asleep(p)
    ensures Asleep(Next(c, w, p, event)) && ForwardOf(c, w, p, event) == []
  {
    hide PolicyHandle, Wanders;
    PolicyWanders(c, w, p, event);
  }

  lemma OpensInert(c: PolicyConfig, w: World, s: Stores, untraced: bool)
    requires Sane(Down(s, untraced))
    ensures Inert(Up(Reopen(c, w, s, untraced)))
  {
    hide Reopen, Readable, Alike, RebuildWrites, Replay, Derive, Conclude, PolicyRestart, IdleStores;
    OpensRested(c, w, s, untraced);
  }

  lemma AsleepInert(p: Policy)
    requires Asleep(p)
    ensures Inert(Up(p))
  {
  }

  lemma StaysSane(c: PolicyConfig, w: World, y: System, h: Happening)
    requires Sane(y)
    ensures Sane(NextLife(c, w, y, h))
    ensures Inert(y) ==> Inert(NextLife(c, w, y, h)) && ForwardAt(c, w, y, h) == []
  {
    hide Sane, PolicySound, Fenced, PolicyTraced, Next, ForwardOf, Reopen, ForwardedIn, OutcomesStay, Longer, Outlasts,
         Endures, Asleep;
    LifeEndures(c, w, y, h);
    match y
    case Up(p) =>
      if h.Occurs? {
        SaneIs(p);
        if Asleep(p) { SleepsOn(c, w, p, h.event); AsleepInert(Next(c, w, p, h.event)); }
        else { NextIsCarried(c, w, p, h.event); }
      }
    case Down(s, untraced) => OpensInert(c, w, s, untraced);
  }

  lemma {:induction false} AlwaysSane(c: PolicyConfig, w: World, y: System, hs: seq<Happening>)
    requires Sane(y)
    ensures Sane(RunTo(c, w, y, hs))
    ensures Inert(y) ==> Inert(RunTo(c, w, y, hs)) && Forwards(c, w, y, hs) == []
  {
    hide Sane, Inert, NextLife, ForwardAt;
    if hs != [] {
      AlwaysSane(c, w, y, hs[..|hs| - 1]);
      StaysSane(c, w, RunTo(c, w, y, hs[..|hs| - 1]), hs[|hs| - 1]);
    }
  }

  lemma BornSane(c: PolicyConfig)
    ensures Sane(Born(c))
  {
    hide PolicySound, Fenced, PolicyTraced;
    FreshSound(c);
  }

  /** Nothing is forwarded once the generation is not ACTIVE, its channel is shut, maintenance has begun or its process
      has ended, whatever happens afterwards and whatever the file holds. */
  lemma NothingForwardedAfterStop(c: PolicyConfig, w: World, first: seq<Happening>, rest: seq<Happening>)
    requires Inert(RunTo(c, w, Born(c), first))
    ensures Forwards(c, w, Born(c), first + rest) == Forwards(c, w, Born(c), first)
  {
    hide Sane, Inert, RunTo, Forwards, Born;
    BornSane(c);
    AlwaysSane(c, w, Born(c), first);
    AlwaysSane(c, w, RunTo(c, w, Born(c), first), rest);
    RunSplits(c, w, Born(c), first, rest);
  }

  predicate Distinct<T(==)>(s: seq<T>) {
    forall i, j | 0 <= i < j < |s| :: s[i] != s[j]
  }

  lemma SoundAccount(p: Policy)
    requires PolicySound(p)
    ensures AccountOf(p.gate.stores.entries).sound && Quench(p.gate.stores.entries).clean
  {
  }

  lemma {:induction false} DistinctForwards(entries: seq<Entry>)
    requires AccountOf(entries).sound
    ensures Distinct(AccountOf(entries).forwarded)
  {
    if entries != [] {
      DistinctForwards(entries[..|entries| - 1]);
    }
  }

  /** While the first process lives its journal accounts for every forward, in order; later ones forward nothing. */
  ghost predicate Accounts(y: System, forwards: seq<(string, nat)>) {
    Distinct(forwards)
      && (!Inert(y) ==> PolicySound(y.policy) && Fenced(y.policy) && ForwardedIn(y.policy.gate) == forwards)
  }

  lemma AccountsOn(c: PolicyConfig, w: World, y: System, h: Happening, forwards: seq<(string, nat)>)
    requires Sane(y) && Accounts(y, forwards)
    ensures Accounts(NextLife(c, w, y, h), forwards + ForwardAt(c, w, y, h))
  {
    hide PolicySound, Fenced, PolicyTraced, Next, ForwardOf, Reopen, OutcomesStay, Longer, AccountOf;
    StaysSane(c, w, y, h);
    if Inert(y) {
      assert forwards + ForwardAt(c, w, y, h) == forwards;
    } else if h.Occurs? {
      var q := Next(c, w, y.policy, h.event);
      NextIsCarried(c, w, y.policy, h.event);
      SoundAccount(q);
      DistinctForwards(q.gate.stores.entries);
    } else {
      assert forwards + ForwardAt(c, w, y, h) == forwards;
    }
  }

  lemma BornAccounts(c: PolicyConfig)
    ensures Accounts(Born(c), [])
  {
    hide PolicySound, Fenced, PolicyTraced, ForwardedIn;
    FreshSound(c);
  }

  lemma {:induction false} AlwaysAccounts(c: PolicyConfig, w: World, hs: seq<Happening>)
    ensures Accounts(RunTo(c, w, Born(c), hs), Forwards(c, w, Born(c), hs))
  {
    hide Sane, Accounts, NextLife, ForwardAt, Born;
    BornSane(c);
    if hs == [] {
      BornAccounts(c);
    } else {
      AlwaysAccounts(c, w, hs[..|hs| - 1]);
      AlwaysSane(c, w, Born(c), hs[..|hs| - 1]);
      AccountsOn(c, w, RunTo(c, w, Born(c), hs[..|hs| - 1]), hs[|hs| - 1], Forwards(c, w, Born(c), hs[..|hs| - 1]));
    }
  }

  /** Over all lives each execution's action is forwarded at most once, whatever the storage did and whatever the files
      hold; while more may be forwarded, the forwards are, in order, the CONSUMED records of the journal. */
  lemma ForwardedAtMostOnce(c: PolicyConfig, w: World, hs: seq<Happening>)
    ensures Distinct(Forwards(c, w, Born(c), hs))
    ensures var y := RunTo(c, w, Born(c), hs);
            !Inert(y) ==> Forwards(c, w, Born(c), hs) == AccountOf(y.policy.gate.stores.entries).forwarded
  {
    hide RunTo, Forwards, Born, PolicySound, Fenced;
    AlwaysAccounts(c, w, hs);
  }

  /** After every happening, in every process: an open maintenance has its fence open, an outstanding policy write
      excludes every armed or in-flight effect action, and belongs to the opened session that owns the maintenance. */
  lemma MaintenanceExcludesEffects(c: PolicyConfig, w: World, hs: seq<Happening>)
    requires RunTo(c, w, Born(c), hs).Up?
    ensures var p := RunTo(c, w, Born(c), hs).policy;
            && (p.maintenance == MaintOpen ==>
                  && Fence(p.gate) == AnswerOpen && (p.gate.state == State.Closed || p.gate.state == State.Invalidated)
                  && !InFlight(p.gate))
            && (Underway(p) ==> p.session.Some? && p.session.value.owner && p.session.value.opened_)
            && (p.pending.Some? ==>
                  && p.session.Some? && p.session.value.owner && p.session.value.opened_
                  && NoneUndecided(p.gate.actions) && p.gate.state != Active)
  {
    hide RunTo, Born, Sound, WritesRebuilt;
    BornSane(c);
    AlwaysSane(c, w, Born(c), hs);
  }

  /** The branch for an upstream answer without a session is unreachable: the outcome of the outstanding write always
      finds its session. */
  lemma UpstreamFindsItsSession(c: PolicyConfig, w: World, hs: seq<Happening>, outcome: UpstreamOutcome)
    requires RunTo(c, w, Born(c), hs).Up? && RunTo(c, w, Born(c), hs).policy.pending.Some?
    ensures SettleWrite(w, RunTo(c, w, Born(c), hs).policy, outcome).0.session.Some?
  {
    hide RunTo, Born, Journalled;
    MaintenanceExcludesEffects(c, w, hs);
  }

  /** STAMP_MISMATCH and ALREADY_CONSUMED are never answered. */
  lemma StampsNeverStale(c: PolicyConfig, w: World, hs: seq<Happening>, conn: string, certificate: string, head: string,
                         bodyDigest: Option<string>)
    requires RunTo(c, w, Born(c), hs).Up?
    ensures var g := RunTo(c, w, Born(c), hs).policy.gate;
            var o := RequestOn(c.base, w, g, conn, certificate, head, bodyDigest);
            o.Handled? ==> o.output != CloseConnection(StampMismatch) && o.output != CloseConnection(AlreadyConsumed)
  {
    hide RunTo, Born, Sound, WritesShaped, WritesRebuilt, SessionShaped, Fenced, Journalled, Consume;
    BornSane(c);
    AlwaysSane(c, w, Born(c), hs);
    var p := RunTo(c, w, Born(c), hs).policy;
    if !Asleep(p) { NoStaleStamp(c.base, w, p.gate, conn, certificate, head, bodyDigest); }
  }
}
