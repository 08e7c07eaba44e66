/** What one happening keeps as long as no process ends with a file other than its mirror: the journal, a decided write
    and a hold that left evidence. */
module Agreement {
  import opened Vocabulary
  import opened Journal
  import opened GateModel
  import opened WriteReplay
  import opened GateInvariant
  import opened GateEvents
  import opened GateRestart
  import opened PolicyModel
  import opened PolicyInvariant
  import opened PolicyRuns
  import opened Recovery
  import opened Cuts
  import opened Resting
  import opened Lives

  /** Where the happening ends a process, no append had left its file other than its mirror. */
  ghost predicate AgreesAt(c: PolicyConfig, w: World, y: System, h: Happening) {
    match y
    case Up(p) =>
      (match h
       case Stops => !p.gate.stores.parted
       case Dies(event, _, _) => !Next(c, w, p, event).gate.stores.parted
       case _ => true)
    case Down(s, untraced) => h.OpeningDies? ==> !Reopen(c, w, s, untraced).gate.stores.parted
  }

  ghost predicate Unparted(c: PolicyConfig, w: World, y: System, hs: seq<Happening>) {
    hs == []
    || (Unparted(c, w, y, hs[..|hs| - 1]) && AgreesAt(c, w, RunTo(c, w, y, hs[..|hs| - 1]), hs[|hs| - 1]))
  }

  function UntracedIn(y: System): bool {
    match y
    case Up(p) => p.gate.untraced
    case Down(_, untraced) => untraced
  }

  ghost predicate SystemSound(y: System) {
    match y
    case Up(p) => PolicySound(p) && Fenced(p) && PolicyTraced(p)
    case Down(s, _) => !s.parted && JournalOk(s.entries)
  }

  /** HELD, or with a journal on which every restart comes up HELD. */
  ghost predicate HeldNow(y: System) {
    match y
    case Up(p) => p.gate.state == Held
    case Down(s, _) => Firm(s)
  }

  /** What one happening keeps while file and mirror agree: the journal only grows, a decided write stays, a hold with
      evidence stays. */
  ghost predicate Lasting(y: System, z: System) {
    && SystemSound(z) && JournalOf(y) <= JournalOf(z) && (UntracedIn(y) ==> UntracedIn(z))
    && WritesStay(WritesOf(y), WritesOf(z))
    && (HeldNow(y) ==> HeldNow(z) || UntracedIn(z))
  }

  lemma CutIs(s: Stores, t: Stores, kept: nat, marked: bool)
    requires Longer(s, t) && !t.parted
    ensures var u := CutTo(s, t, kept, marked);
            && |s.entries| <= |u.entries| <= |t.entries| && u.entries == t.entries[..|u.entries|]
            && s.entries <= u.entries && !u.parted && u.marker == (s.marker || (marked && t.marker))
  {
  }

  lemma EventLasts(c: PolicyConfig, w: World, p: Policy, event: PolicyEvent)
    requires SystemSound(Up(p))
    ensures Lasting(Up(p), Up(Next(c, w, p, event)))
  {
    hide PolicySound, Fenced, PolicyTraced, Next, ForwardOf, ForwardedIn, OutcomesStay, Stopped;
    NextIsCarried(c, w, p, event);
  }

  lemma OnwardSelf(p: Policy)
    requires PolicySound(p)
    ensures PolicyOnward(p, p)
  {
    hide PolicySound, PolicyOnward, PolicyTraced;
    PolicyRefl(p);
  }

  /** The hold of a live gate outlasts its process when it has evidence. */
  lemma HeldIsFirm(p: Policy)
    requires PolicySound(p) && PolicyTraced(p) && p.gate.state == Held && !p.gate.untraced
    ensures Firm(p.gate.stores)
  {
    hide PolicySound, PolicyOnward, PolicyTraced, Firm;
    OnwardSelf(p);
    assert p.gate.stores.entries[..|p.gate.stores.entries|] == p.gate.stores.entries;
    FirmCut(p, p, p.gate.stores, |p.gate.stores.entries|);
  }

  lemma FirmRead(s: Stores, t: Stores)
    requires Firm(s) && t.entries == s.entries && (s.marker ==> t.marker)
    ensures Firm(t)
  {
  }

  /** A death between events. */
  lemma StopLasts(c: PolicyConfig, p: Policy)
    requires SystemSound(Up(p)) && !p.gate.stores.parted
    ensures Lasting(Up(p), Down(Reread(p.gate.stores), p.gate.untraced))
  {
    hide PolicySound, Fenced, PolicyTraced, JournalOk, Firm, RebuildWrites;
    var s := Reread(p.gate.stores);
    SoundJournal(p);
    RestartRebuildsWrites(p);
    if p.gate.state == Held && !p.gate.untraced {
      HeldIsFirm(p);
      FirmRead(p.gate.stores, s);
    }
  }

  /** A hold with evidence outlasts a death inside any event. */
  lemma HeldThroughEvent(c: PolicyConfig, w: World, p: Policy, event: PolicyEvent, s: Stores, n: nat)
    requires PolicySound(p) && Fenced(p) && PolicyTraced(p) && p.gate.state == Held && !p.gate.untraced
    requires var t := Next(c, w, p, event).gate.stores.entries;
             |p.gate.stores.entries| <= n <= |t| && s.entries == t[..n]
    requires p.gate.stores.marker ==> s.marker
    ensures Firm(s)
  {
    hide PolicySound, Fenced, PolicyTraced, PolicyHandle, PolicyRestart, SettleMaintenance, PolicyOnward, Firm,
         ForwardedIn, BindsStep;
    var q := Next(c, w, p, event);
    if event == Base(GateRestart) {
      SoundPolicy(p);
      SelfRestartable(p.gate);
      RestartIsCarried(c, w, p, p);
      HandlesRestart(c, w, p);
      HeldIsFirm(p);
      FirmRestart(w, p, s, n);
    } else {
      HandleKeeps(c, w, p, event);
      OnwardSelf(p);
      FirmCut(p, q, s, n);
    }
  }

  /** A death inside an event. */
  lemma DeathLasts(c: PolicyConfig, w: World, p: Policy, event: PolicyEvent, kept: nat, marked: bool)
    requires SystemSound(Up(p)) && !Next(c, w, p, event).gate.stores.parted
    ensures Lasting(Up(p),
                    Down(CutTo(p.gate.stores, Next(c, w, p, event).gate.stores, kept, marked), p.gate.untraced))
  {
    hide PolicySound, Fenced, PolicyTraced, JournalOk, Firm, OutcomesStay, Next, CutTo, ForwardOf, ForwardedIn, Stopped,
         Outlasts, RebuildWrites;
    var q := Next(c, w, p, event);
    var s := CutTo(p.gate.stores, q.gate.stores, kept, marked);
    NextIsCarried(c, w, p, event);
    CutIs(p.gate.stores, q.gate.stores, kept, marked);
    SoundJournal(q);
    PrefixOk(q.gate.stores.entries, |s.entries|);
    DecidedCut(p, q, |s.entries|);
    if p.gate.state == Held && !p.gate.untraced { HeldThroughEvent(c, w, p, event, s, |s.entries|); }
  }

  lemma OnThoseStores(c: PolicyConfig, s: Stores, untraced: bool)
    ensures OnStores(c.base, s, untraced).stores == s && OnStores(c.base, s, untraced).untraced == untraced
    ensures Recovered(c, s, untraced).gate.stores == s && Recovered(c, s, untraced).gate.untraced == untraced
    ensures Recovered(c, s, untraced).writes == RebuildWrites(s.entries).0
  {
  }

  /** What an opening makes of a good journal. */
  lemma OpeningIs(c: PolicyConfig, w: World, s: Stores, untraced: bool)
    requires JournalOk(s.entries) && !s.parted
    ensures var (k, q) := (Around(OnStores(c.base, s, untraced)), Reopen(c, w, s, untraced));
            && q == PolicyRestart(w, k) && k.gate.stores == s
            && Carried(Recovered(c, s, untraced), q) && PolicyTraced(q)
  {
    hide PolicySound, Fenced, PolicyTraced, JournalOk, Recovered, OnStores, PolicyRestart, SettleMaintenance,
         Restartable, Carried, ForwardedIn, BindsIn;
    var k := Around(OnStores(c.base, s, untraced));
    OnThoseStores(c, s, untraced);
    Recovers(c, s, untraced);
    RestartIsCarried(c, w, Recovered(c, s, untraced), k);
    PolicyRestartKeeps(w, Recovered(c, s, untraced), k);
  }

  lemma OpeningLasts(c: PolicyConfig, w: World, s: Stores, untraced: bool)
    requires JournalOk(s.entries) && !s.parted
    ensures Lasting(Down(s, untraced), Up(Reopen(c, w, s, untraced)))
  {
    hide PolicySound, Fenced, PolicyTraced, JournalOk, Firm, Recovered, OnStores, PolicyRestart, Reopen, OutcomesStay,
         Stopped;
    OpeningIs(c, w, s, untraced);
    OnThoseStores(c, s, untraced);
    JournalRestartExactly(w, Around(OnStores(c.base, s, untraced)));
  }

  /** A process that dies at opening has decided no write. */
  lemma OpeningWrites(c: PolicyConfig, w: World, s: Stores, untraced: bool, kept: nat, marked: bool)
    requires !s.parted
    ensures RebuildWrites(CutTo(s, Reopen(c, w, s, untraced).gate.stores, kept, marked).entries).0
            == RebuildWrites(s.entries).0
  {
    hide Rested, Conclude, Replay, Derive, ReplayWrites, IdleBeyond, Reopen, IdleStores, PolicyRestart, CutTo, Alike;
    var t := Reopen(c, w, s, untraced).gate.stores;
    OpensRested(c, w, s, untraced);
    StoresBeyond(s, t);
    IdleCutTo(s, t, kept, marked);
    CutFile(s, t, kept, marked);
    IdleAlike(s.file, CutTo(s, t, kept, marked).file, false);
    AlikeIs(s.file, CutTo(s, t, kept, marked).file);
  }

  lemma OpeningDeathLasts(c: PolicyConfig, w: World, s: Stores, untraced: bool, kept: nat, marked: bool)
    requires JournalOk(s.entries) && !s.parted && !Reopen(c, w, s, untraced).gate.stores.parted
    ensures Lasting(Down(s, untraced), Down(CutTo(s, Reopen(c, w, s, untraced).gate.stores, kept, marked), untraced))
  {
    hide PolicySound, Fenced, PolicyTraced, JournalOk, Firm, Recovered, OnStores, PolicyRestart, Reopen, OutcomesStay,
         CutTo, Stopped;
    var q := Reopen(c, w, s, untraced);
    var t := CutTo(s, q.gate.stores, kept, marked);
    OpeningIs(c, w, s, untraced);
    OnThoseStores(c, s, untraced);
    CutIs(s, q.gate.stores, kept, marked);
    SoundJournal(q);
    PrefixOk(q.gate.stores.entries, |t.entries|);
    OpeningWrites(c, w, s, untraced, kept, marked);
    if Firm(s) { FirmRestart(w, Around(OnStores(c.base, s, untraced)), t, |t.entries|); }
  }

  lemma SelfLasts(c: PolicyConfig, y: System)
    requires SystemSound(y)
    ensures Lasting(y, y)
  {
    hide PolicySound, Fenced, PolicyTraced, JournalOk, Recovered, Firm;
  }

  lemma SoundDown(s: Stores, untraced: bool)
    requires SystemSound(Down(s, untraced))
    ensures JournalOk(s.entries) && !s.parted
  {
  }

  lemma LifeLasts(c: PolicyConfig, w: World, y: System, h: Happening)
    requires SystemSound(y) && AgreesAt(c, w, y, h)
    ensures Lasting(y, NextLife(c, w, y, h))
  {
    hide SystemSound, Lasting, Next, Reopen, CutTo, Reread;
    SelfLasts(c, y);
    match y {
      case Up(p) =>
        match h {
          case Occurs(event) => EventLasts(c, w, p, event);
          case Stops => StopLasts(c, p);
          case Dies(event, kept, marked) => DeathLasts(c, w, p, event, kept, marked);
          case _ =>
        }
      case Down(s, untraced) =>
        SoundDown(s, untraced);
        match h {
          case Opens => OpeningLasts(c, w, s, untraced);
          case OpeningDies(kept, marked) => OpeningDeathLasts(c, w, s, untraced, kept, marked);
          case _ =>
        }
    }
  }

  lemma LastingComposes(x: System, y: System, z: System)
    requires Lasting(x, y) && Lasting(y, z)
    ensures Lasting(x, z)
  {
    hide SystemSound, HeldNow, WritesOf, JournalOf;
  }
}
