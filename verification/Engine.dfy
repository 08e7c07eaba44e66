/** The foundation apply engine: any number of engines on one plan and one compare-and-swap store, each crashing
    anywhere, one atomic step at a time. */
module Engine {
  import opened Vocabulary
  import opened Plan

  // ---------------------------------------------------------------------------------------------- inventory

  datatype Rec = Rec(waveId: string, identity: Identity, desired: string, observed: string, uid: string,
                     version: string, appliedAt: string)

  datatype InvState = Applying | WaveApplying | StatusPending | Complete

  datatype Inventory = Inventory(state: InvState, nextWave: nat, nextResource: nat, nextIdentity: string,
                                 records: seq<Rec>)

  datatype Receipt = Receipt(identity: Identity, uid: string, version: string, observed: string, appliedAt: string)

  /** The job: the plan's waves, the receipt rules, and the outcome built from the run's times and the applied
      records. */
  datatype Job = Job(waves: seq<Wave>, receiptOk: Receipt -> bool, digestOk: string -> bool,
                     build: (string, seq<Rec>) -> Option<string>)

  function Resources(job: Job): seq<Planned> {
    Flattened(job.waves, |job.waves|)
  }

  predicate ReceiptValid(job: Job, p: Planned, r: Receipt) {
    r.identity == p.resource.identity && r.observed == p.resource.manifestDigest
      && job.digestOk(p.resource.manifestDigest)
    && job.receiptOk(r)
  }

  function RecordOf(p: Planned, r: Receipt): Rec {
    Rec(p.waveId, r.identity, p.resource.manifestDigest, r.observed, r.uid, r.version, r.appliedAt)
  }

  /** A record is the receipt of the planned resource. */
  predicate RecordMatches(job: Job, p: Planned, r: Rec) {
    r == RecordOf(p, Receipt(r.identity, r.uid, r.version, r.observed, r.appliedAt))
    && ReceiptValid(job, p, Receipt(r.identity, r.uid, r.version, r.observed, r.appliedAt))
  }

  predicate RecordsMatch(job: Job, records: seq<Rec>) {
    |records| <= |Resources(job)| && forall i | 0 <= i < |records| :: RecordMatches(job, Resources(job)[i], records[i])
  }

  /** The cursor agrees with the state and the records. */
  predicate CursorValid(job: Job, v: Inventory) {
    var res, n := Resources(job), |v.records|;
    match v.state
    case WaveApplying =>
      n < |res| && v.nextWave == res[n].waveIndex && v.nextResource == res[n].resourceIndex
      && v.nextIdentity == KeyOf(res[n].resource.identity)
    case Applying =>
      v.nextIdentity == "" && (n < |res| ==> v.nextWave == res[n].waveIndex && v.nextResource == res[n].resourceIndex)
    case _ => n == |res| && v.nextWave == |job.waves| && v.nextResource == 0 && v.nextIdentity == ""
  }

  /** What a resume is refused without. */
  predicate ResumeValid(job: Job, v: Inventory) {
    RecordsMatch(job, v.records) && CursorValid(job, v)
  }

  const INITIAL := Inventory(Applying, 0, 0, "", [])

  // ---------------------------------------------------------------------------------------------- store and engines

  datatype Store = Store(value: Option<Inventory>, revision: nat)

  /** What a compare-and-swap comes to besides its comparison: it answers, or it fails having stored or not. */
  datatype Swap = Answers | FailsAfter(stored: bool)

  datatype Swapped = Swapped(store: Store, revision: Option<nat>)

  function CompareAndSwap(s: Store, expected: nat, v: Inventory, how: Swap): Swapped {
    if s.revision != expected then Swapped(s, None)
    else
      var stored := Store(Some(v), s.revision + 1);
      match how
      case Answers => Swapped(stored, Some(s.revision + 1))
      case FailsAfter(done) => Swapped(if done then stored else s, None)
  }

  datatype Pc =
    | Starting
    | Creating
    | AtLoop
    | BeforeApply
    | AfterApply(receipt: Receipt)
    | AtStatus
    | AfterStatus(outcome: string)
    | Returned(outcome: string)
    | Stopped

  /** An engine: its times, where it is, and the inventory it holds with its revision. */
  datatype Local = Local(times: string, pc: Pc, inv: Inventory, revision: nat)

  datatype World = World(store: Store, engines: map<nat, Local>, published: seq<(string, string)>, applied: seq<nat>)

  /** What happens next: an engine starts, takes its next step with the environment's answers, or crashes where it
      is. */
  datatype Move =
    | Starts(engine: nat, times: string)
    | Steps(engine: nat, how: Swap, answer: Option<Receipt>, publishes: bool)
    | Crashes(engine: nat)

  // ---------------------------------------------------------------------------------------------- an engine's steps

  /** The next wave mark. */
  function Marked(job: Job, v: Inventory): Inventory
    requires |v.records| < |Resources(job)|
  {
    var p := Resources(job)[|v.records|];
    v.(state := WaveApplying, nextWave := p.waveIndex, nextResource := p.resourceIndex,
       nextIdentity := KeyOf(p.resource.identity))
  }

  function Pended(job: Job, v: Inventory): Inventory {
    v.(state := StatusPending, nextWave := |job.waves|, nextResource := 0, nextIdentity := "")
  }

  /** The receipt recorded and the cursor moved on. */
  function Recorded(job: Job, v: Inventory, r: Receipt): Inventory
    requires |v.records| < |Resources(job)|
  {
    var res, n := Resources(job), |v.records|;
    var next := v.(records := v.records + [RecordOf(res[n], r)], state := Applying, nextIdentity := "");
    if n + 1 < |res| then next.(nextWave := res[n + 1].waveIndex, nextResource := res[n + 1].resourceIndex)
    else next.(state := StatusPending, nextWave := |job.waves|, nextResource := 0)
  }

  /** One store write of an engine, and where it goes when the write answers. */
  function Writes(w: World, e: nat, l: Local, expected: nat, v: Inventory, how: Swap, then_: Pc): World {
    var swapped := CompareAndSwap(w.store, expected, v, how);
    w.(store := swapped.store,
       engines := w.engines[e := if swapped.revision.Some? then Local(l.times, then_, v, swapped.revision.value)
                                 else l.(pc := Stopped)])
  }

  function Goes(w: World, e: nat, l: Local, pc: Pc): World {
    w.(engines := w.engines[e := l.(pc := pc)])
  }

  function StepOf(job: Job, w: World, e: nat, l: Local, how: Swap, answer: Option<Receipt>, publishes: bool): World {
    var res, n := Resources(job), |l.inv.records|;
    match l.pc
    case Starting =>
      if w.store.value.None? then Goes(w, e, l, Creating)
      else if !ResumeValid(job, w.store.value.value) then Goes(w, e, l, Stopped)
      else
        var held := l.(inv := w.store.value.value, revision := w.store.revision);
        if held.inv.state != Complete then Goes(w, e, held, AtLoop)
        else
          var outcome := job.build(l.times, held.inv.records);
          Goes(w, e, held, if outcome.Some? then Returned(outcome.value) else Stopped)
    case Creating => Writes(w, e, l, 0, INITIAL, how, AtLoop)
    case AtLoop =>
      if n < |res| then
        if l.inv.state == WaveApplying && l.inv.nextIdentity == KeyOf(res[n].resource.identity)
          then Goes(w, e, l, BeforeApply)
        else Writes(w, e, l, l.revision, Marked(job, l.inv), how, BeforeApply)
      else if l.inv.state == StatusPending then Goes(w, e, l, AtStatus)
      else Writes(w, e, l, l.revision, Pended(job, l.inv), how, AtStatus)
    case BeforeApply =>
      if n >= |res| then Goes(w, e, l, Stopped)
      else
        var asked := w.(applied := w.applied + [n]);
        if answer.Some? && ReceiptValid(job, res[n], answer.value) then Goes(asked, e, l, AfterApply(answer.value))
        else Goes(asked, e, l, Stopped)
    case AfterApply(receipt) =>
      if n >= |res| then Goes(w, e, l, Stopped)
        else Writes(w, e, l, l.revision, Recorded(job, l.inv, receipt), how, AtLoop)
    case AtStatus =>
      var outcome := job.build(l.times, l.inv.records);
      if outcome.None? || !publishes then Goes(w, e, l, Stopped)
      else Goes(w.(published := w.published + [(l.times, outcome.value)]), e, l, AfterStatus(outcome.value))
    case AfterStatus(outcome) => Writes(w, e, l, l.revision, l.inv.(state := Complete), how, Returned(outcome))
    case _ => w
  }

  function MoveOn(job: Job, w: World, m: Move): World {
    match m
    case Starts(e, times) =>
      if e in w.engines then w else w.(engines := w.engines[e := Local(times, Starting, INITIAL, 0)])
    case Steps(e, how, answer, publishes) =>
      if e !in w.engines then w else StepOf(job, w, e, w.engines[e], how, answer, publishes)
    case Crashes(e) => if e !in w.engines then w else Goes(w, e, w.engines[e], Stopped)
  }

  // ---------------------------------------------------------------------------------------------- the invariant

  /** An engine past its load holds the inventory stored at its revision. */
  predicate Holding(l: Local) {
    l.pc.AtLoop? || l.pc.BeforeApply? || l.pc.AfterApply? || l.pc.AtStatus? || l.pc.AfterStatus?
  }

  predicate LocalOk(job: Job, w: World, l: Local) {
    && (Holding(l) ==>
          && 1 <= l.revision <= w.store.revision && ResumeValid(job, l.inv) && l.inv.state != Complete
          && w.store.value.Some? && l.inv.records <= w.store.value.value.records
          && (l.revision == w.store.revision ==> w.store.value == Some(l.inv)))
    && (l.pc.BeforeApply? || l.pc.AfterApply? ==> l.inv.state == WaveApplying)
    && (l.pc.AfterApply? ==> ReceiptValid(job, Resources(job)[|l.inv.records|], l.pc.receipt))
    && (l.pc.AtStatus? || l.pc.AfterStatus? ==> l.inv.state == StatusPending)
    && (l.pc.AfterStatus? ==>
          (l.times, l.pc.outcome) in w.published && job.build(l.times, l.inv.records) == Some(l.pc.outcome))
  }

  predicate Announced(job: Job, w: World, records: seq<Rec>) {
    exists i | 0 <= i < |w.published| :: job.build(w.published[i].0, records) == Some(w.published[i].1)
  }

  /** The outcome, at these times, of the whole plan's records, which are the ones stored. */
  predicate Current(job: Job, s: Store, times: string, outcome: string) {
    && s.value.Some? && |s.value.value.records| == |Resources(job)|
    && job.build(times, s.value.value.records) == Some(outcome)
  }

  /** No publication is stale. */
  predicate NoneStale(job: Job, s: Store, published: seq<(string, string)>) {
    forall p | p in published :: Current(job, s, p.0, p.1)
  }

  predicate StoreOk(job: Job, w: World) {
    && (w.store.revision == 0 <==> w.store.value.None?)
    && (w.store.value.Some? ==> ResumeValid(job, w.store.value.value))
    && (w.store.value.Some? && w.store.value.value.state == Complete ==> Announced(job, w, w.store.value.value.records))
  }

  predicate WorldOk(job: Job, w: World) {
    StoreOk(job, w) && NoneStale(job, w.store, w.published)
      && forall e | e in w.engines :: LocalOk(job, w, w.engines[e])
  }

  /** The store only ever moves forward: its records grow, its revision too, and COMPLETE is final. */
  predicate StoreGrows(s: Store, t: Store) {
    && s.revision <= t.revision && (s.value.Some? ==> t.value.Some? && s.value.value.records <= t.value.value.records)
    && (s.value.Some? && s.value.value.state == Complete ==> t == s)
  }

  // ---------------------------------------------------------------------------------------------- steps keep it

  predicate HasWork(job: Job) {
    job.waves != [] && job.waves[0].resources != []
  }

  lemma InitialValid(job: Job)
    requires HasWork(job)
    ensures ResumeValid(job, INITIAL)
  {
    FirstWaveIn(job.waves, |job.waves|);
    FlattenedIs(job.waves, |job.waves|, 0);
  }

  lemma MarkedValid(job: Job, v: Inventory)
    requires RecordsMatch(job, v.records) && |v.records| < |Resources(job)|
    ensures ResumeValid(job, Marked(job, v)) && Marked(job, v).state == WaveApplying
  {
  }

  lemma RecordedValid(job: Job, v: Inventory, r: Receipt)
    requires RecordsMatch(job, v.records) && |v.records| < |Resources(job)|
             && ReceiptValid(job, Resources(job)[|v.records|], r)
    ensures ResumeValid(job, Recorded(job, v, r)) && v.records <= Recorded(job, v, r).records
            && Recorded(job, v, r).state != Complete
  {
    var n := |v.records|;
    assert RecordMatches(job, Resources(job)[n], RecordOf(Resources(job)[n], r));
  }

  /** Moving one engine without touching the store. */
  lemma GoesKeeps(job: Job, w: World, e: nat, l: Local, pc: Pc)
    requires WorldOk(job, w) && LocalOk(job, w, l.(pc := pc))
    ensures WorldOk(job, Goes(w, e, l, pc))
  {
  }

  /** Another engine's invariant survives a store write: it either held an older revision already, or now does. */
  lemma OthersSurvive(job: Job, w: World, l: Local, s: Store)
    requires LocalOk(job, w, l) && w.store.revision < s.revision
    requires w.store.value.Some? ==> s.value.Some? && w.store.value.value.records <= s.value.value.records
    ensures LocalOk(job, w.(store := s), l)
  {
  }

  /** Whole records cannot grow, so no write makes a publication stale. */
  lemma StillCurrent(job: Job, s: Store, t: Store, published: seq<(string, string)>)
    requires NoneStale(job, s, published) && t.value.Some? && |t.value.value.records| <= |Resources(job)|
    requires s.value.Some? ==> s.value.value.records <= t.value.value.records
    ensures NoneStale(job, t, published)
  {
    forall p | p in published
      ensures Current(job, t, p.0, p.1)
    {
      assert Current(job, s, p.0, p.1);
      assert s.value.value.records == t.value.value.records;
    }
  }

  /** A store write: the comparison succeeds only for an engine that holds what is stored. */
  lemma WritesKeeps(job: Job, w: World, e: nat, l: Local, expected: nat, v: Inventory, how: Swap, then_: Pc)
    requires WorldOk(job, w) && LocalOk(job, w, l) && ResumeValid(job, v)
    requires (Holding(l) && expected == l.revision && l.inv.records <= v.records) || expected == 0
    requires v.state == Complete ==> !Holding(Local(l.times, then_, v, 1)) && Announced(job, w, v.records)
    requires then_.AtLoop? || (then_.BeforeApply? && v.state == WaveApplying)
             || (then_.AtStatus? && v.state == StatusPending)
             || then_.Returned?
    ensures var u := Writes(w, e, l, expected, v, how, then_); WorldOk(job, u) && StoreGrows(w.store, u.store)
  {
    var u := Writes(w, e, l, expected, v, how, then_);
    var stored := Store(Some(v), w.store.revision + 1);
    if u.store == stored && u.store != w.store {
      StillCurrent(job, w.store, stored, w.published);
      forall f | f in u.engines
        ensures LocalOk(job, u, u.engines[f])
      {
        if f != e {
          OthersSurvive(job, w, w.engines[f], stored);
          assert LocalOk(job, w.(store := stored), u.engines[f]);
        }
      }
    }
  }

  /** An engine that has recorded the whole plan holds the records stored, whatever was written since it loaded. */
  lemma WholeIsStored(job: Job, w: World, l: Local)
    requires StoreOk(job, w) && LocalOk(job, w, l) && (l.pc.AtStatus? || l.pc.AfterStatus?)
    ensures w.store.value.Some? && w.store.value.value.records == l.inv.records && |l.inv.records| == |Resources(job)|
  {
  }

  lemma PublishingKeeps(job: Job, w: World, times: string, outcome: string)
    requires WorldOk(job, w) && Current(job, w.store, times, outcome)
    ensures WorldOk(job, w.(published := w.published + [(times, outcome)]))
  {
    var p := w.(published := w.published + [(times, outcome)]);
    if w.store.value.Some? && w.store.value.value.state == Complete {
      var i :| 0 <= i < |w.published|
        && job.build(w.published[i].0, w.store.value.value.records) == Some(w.published[i].1);
      assert p.published[i] == w.published[i];
    }
    forall e | e in p.engines
      ensures LocalOk(job, p, p.engines[e])
    {
      assert LocalOk(job, w, w.engines[e]);
    }
  }

  lemma StatusKeeps(job: Job, w: World, e: nat, l: Local, outcome: string)
    requires WorldOk(job, w) && e in w.engines && w.engines[e] == l && l.pc.AtStatus?
             && job.build(l.times, l.inv.records) == Some(outcome)
    ensures WorldOk(job, Goes(w.(published := w.published + [(l.times, outcome)]), e, l, AfterStatus(outcome)))
  {
    var p := w.(published := w.published + [(l.times, outcome)]);
    assert p.published[|w.published|] == (l.times, outcome);
    WholeIsStored(job, w, l);
    PublishingKeeps(job, w, l.times, outcome);
    GoesKeeps(job, p, e, l, AfterStatus(outcome));
  }

  lemma StoreRefl(s: Store)
    ensures StoreGrows(s, s)
  {
  }

  lemma EngineOk(job: Job, w: World, e: nat)
    requires WorldOk(job, w) && e in w.engines
    ensures LocalOk(job, w, w.engines[e])
  {
  }

  lemma GoesFrames(w: World, e: nat, l: Local)
    ensures forall m, pc :: Goes(w, e, m, pc).store == w.store
  {
  }

  lemma StartingKeeps(job: Job, w: World, e: nat, l: Local)
    requires WorldOk(job, w) && e in w.engines && w.engines[e] == l && l.pc.Starting?
    ensures forall how, answer, publishes ::
              var u := StepOf(job, w, e, l, how, answer, publishes); WorldOk(job, u) && u.store == w.store
  {
    hide ResumeValid;
    var pc := if w.store.value.None? then Creating else Stopped;
    GoesKeeps(job, w, e, l, Creating);
    GoesKeeps(job, w, e, l, Stopped);
    if w.store.value.Some? && ResumeValid(job, w.store.value.value) {
      var held := l.(inv := w.store.value.value, revision := w.store.revision);
      var outcome := job.build(l.times, held.inv.records);
      if held.inv.state != Complete { GoesKeeps(job, w, e, held, AtLoop); }
      else { GoesKeeps(job, w, e, held, if outcome.Some? then Returned(outcome.value) else Stopped); }
    }
  }

  lemma LoopKeeps(job: Job, w: World, e: nat, l: Local, how: Swap)
    requires WorldOk(job, w) && e in w.engines && w.engines[e] == l && l.pc.AtLoop?
    ensures forall answer, publishes ::
              var u := StepOf(job, w, e, l, how, answer, publishes); WorldOk(job, u) && StoreGrows(w.store, u.store)
  {
    hide WorldOk, Goes, Writes;
    EngineOk(job, w, e);
    GoesFrames(w, e, l);
    var n := |l.inv.records|;
    if n < |Resources(job)| {
      MarkedValid(job, l.inv);
      if l.inv.state == WaveApplying { GoesKeeps(job, w, e, l, BeforeApply); }
      WritesKeeps(job, w, e, l, l.revision, Marked(job, l.inv), how, BeforeApply);
    } else if l.inv.state == StatusPending {
      GoesKeeps(job, w, e, l, AtStatus);
    } else {
      WritesKeeps(job, w, e, l, l.revision, Pended(job, l.inv), how, AtStatus);
    }
  }

  lemma ApplyKeeps(job: Job, w: World, e: nat, l: Local, answer: Option<Receipt>)
    requires WorldOk(job, w) && e in w.engines && w.engines[e] == l && l.pc.BeforeApply?
    ensures forall how, publishes :: var u := StepOf(job, w, e, l, how, answer, publishes);
            WorldOk(job, u) && u.store == w.store
  {
    EngineOk(job, w, e);
    var asked := w.(applied := w.applied + [|l.inv.records|]);
    assert WorldOk(job, asked) by {
      forall f | f in asked.engines
        ensures LocalOk(job, asked, asked.engines[f])
      {
        assert LocalOk(job, w, w.engines[f]);
      }
    }
    GoesKeeps(job, asked, e, l, Stopped);
    GoesKeeps(job, w, e, l, Stopped);
    if |l.inv.records| < |Resources(job)| && answer.Some?
      && ReceiptValid(job, Resources(job)[|l.inv.records|], answer.value) {
      GoesKeeps(job, asked, e, l, AfterApply(answer.value));
    }
  }

  lemma AppliedRoom(job: Job, l: Local)
    requires ResumeValid(job, l.inv) && l.inv.state == WaveApplying
    ensures |l.inv.records| < |Resources(job)| && RecordsMatch(job, l.inv.records)
  {
  }

  lemma StoppedKeeps(job: Job, w: World, e: nat, l: Local)
    requires WorldOk(job, w)
    ensures WorldOk(job, Goes(w, e, l, Stopped))
  {
    GoesKeeps(job, w, e, l, Stopped);
  }

  lemma CompletedValid(job: Job, w: World, l: Local)
    requires LocalOk(job, w, l) && l.pc.AfterStatus?
    ensures ResumeValid(job, l.inv.(state := Complete)) && Announced(job, w, l.inv.records)
  {
    var i :| 0 <= i < |w.published| && w.published[i] == (l.times, l.pc.outcome);
  }

  lemma StepKeeps(job: Job, w: World, e: nat, l: Local, how: Swap, answer: Option<Receipt>, publishes: bool)
    requires HasWork(job) && WorldOk(job, w) && e in w.engines && w.engines[e] == l
    ensures var u := StepOf(job, w, e, l, how, answer, publishes); WorldOk(job, u) && StoreGrows(w.store, u.store)
  {
    hide WorldOk, Goes, Writes, StoreGrows, RecordsMatch, CursorValid, Recorded, Marked;
    StoreRefl(w.store);
    EngineOk(job, w, e);
    GoesFrames(w, e, l);
    var res, n := Resources(job), |l.inv.records|;
    match l.pc
    case Starting => StartingKeeps(job, w, e, l);
    case Creating =>
      InitialValid(job);
      WritesKeeps(job, w, e, l, 0, INITIAL, how, AtLoop);
    case AtLoop => LoopKeeps(job, w, e, l, how);
    case BeforeApply => ApplyKeeps(job, w, e, l, answer);
    case AfterApply(receipt) =>
      AppliedRoom(job, l);
      RecordedValid(job, l.inv, receipt);
      WritesKeeps(job, w, e, l, l.revision, Recorded(job, l.inv, receipt), how, AtLoop);
    case AtStatus =>
      var outcome := job.build(l.times, l.inv.records);
      StoppedKeeps(job, w, e, l);
      if outcome.Some? && publishes { StatusKeeps(job, w, e, l, outcome.value); }
      GoesFrames(w.(published := w.published + [(l.times, if outcome.Some? then outcome.value else "")]), e, l);
    case AfterStatus(outcome) =>
      CompletedValid(job, w, l);
      WritesKeeps(job, w, e, l, l.revision, l.inv.(state := Complete), how, Returned(outcome));
    case _ =>
  }

  lemma MoveKeeps(job: Job, w: World, m: Move)
    requires HasWork(job) && WorldOk(job, w)
    ensures WorldOk(job, MoveOn(job, w, m)) && StoreGrows(w.store, MoveOn(job, w, m).store)
  {
    hide StepOf;
    match m
    case Starts(e, times) =>
    case Steps(e, how, answer, publishes) =>
      if e in w.engines { StepKeeps(job, w, e, w.engines[e], how, answer, publishes); }
    case Crashes(e) => if e in w.engines { GoesKeeps(job, w, e, w.engines[e], Stopped); }
  }

  // ---------------------------------------------------------------------------------------------- runs

  const NOTHING := World(Store(None, 0), map[], [], [])

  function Moves(job: Job, ms: seq<Move>): World {
    if ms == [] then NOTHING else MoveOn(job, Moves(job, ms[..|ms| - 1]), ms[|ms| - 1])
  }

  lemma NothingOk(job: Job)
    ensures WorldOk(job, NOTHING)
  {
  }

  /** For any number of engines on one plan and one store, crashing anywhere: every stored inventory passes the resume
      checks, so its records are a prefix of the flattened plan, and COMPLETE means an outcome for these records was
      published. */
  lemma {:induction false} StoreAlwaysResumes(job: Job, ms: seq<Move>)
    requires HasWork(job)
    ensures WorldOk(job, Moves(job, ms))
  {
    hide MoveOn, WorldOk;
    if ms != [] {
      StoreAlwaysResumes(job, ms[..|ms| - 1]);
      MoveKeeps(job, Moves(job, ms[..|ms| - 1]), ms[|ms| - 1]);
    } else {
      NothingOk(job);
    }
  }

  /** Between any two points of a run the stored records only grow, and COMPLETE is final. */
  lemma {:induction false} StoreAlwaysGrows(job: Job, first: seq<Move>, rest: seq<Move>)
    requires HasWork(job)
    ensures StoreGrows(Moves(job, first).store, Moves(job, first + rest).store)
  {
    hide MoveOn, WorldOk;
    if rest == [] {
      assert first + rest == first;
      StoreRefl(Moves(job, first).store);
    } else {
      var before := first + rest[..|rest| - 1];
      assert (first + rest)[..|first + rest| - 1] == before;
      StoreAlwaysGrows(job, first, rest[..|rest| - 1]);
      StoreAlwaysResumes(job, before);
      MoveKeeps(job, Moves(job, before), rest[|rest| - 1]);
    }
  }

  /** No published outcome is ever stale: in every reachable world each publication is the outcome, at its times, of the
      records stored, and these record the whole plan. */
  lemma PublishedIsNeverStale(job: Job, ms: seq<Move>, i: nat)
    requires HasWork(job) && i < |Moves(job, ms).published|
    ensures var w := Moves(job, ms); Current(job, w.store, w.published[i].0, w.published[i].1)
  {
    hide Moves, Current;
    StoreAlwaysResumes(job, ms);
    assert Moves(job, ms).published[i] in Moves(job, ms).published;
  }

  /** An engine that finds COMPLETE, started with the times of any publication, returns that publication. */
  lemma CompleteReturnsPublished(job: Job, ms: seq<Move>, e: nat, i: nat)
    requires HasWork(job)
    requires var w := Moves(job, ms);
             && w.store.value.Some? && w.store.value.value.state == Complete
             && e in w.engines && w.engines[e].pc.Starting?
             && i < |w.published| && w.published[i].0 == w.engines[e].times
    ensures var w := Moves(job, ms);
            forall how, answer, publishes ::
              StepOf(job, w, e, w.engines[e], how, answer, publishes).engines[e].pc == Returned(w.published[i].1)
  {
    hide Moves, ResumeValid;
    StoreAlwaysResumes(job, ms);
    PublishedIsNeverStale(job, ms, i);
  }

  // ---------------------------------------------------------------------------------------------- one engine at a time

  /** A trace with immediate repeats dropped. */
  function Collapse<T(==)>(s: seq<T>): seq<T> {
    if s == [] then []
    else
      var (before, x) := (Collapse(s[..|s| - 1]), s[|s| - 1]);
      if before != [] && before[|before| - 1] == x then before else before + [x]
  }

  function Count(k: nat): seq<nat> {
    seq(k, i requires 0 <= i < k => i)
  }

  predicate Live(l: Local) {
    !l.pc.Stopped? && !l.pc.Returned?
  }

  predicate NoneLive(w: World) {
    forall e | e in w.engines :: !Live(w.engines[e])
  }

  function Done(w: World): nat {
    if w.store.value.Some? then |w.store.value.value.records| else 0
  }

  /** One live engine, which holds what is stored; what was applied, repeats dropped, is the records and at most the one
      resource after them, which was applied whenever its receipt is in hand. */
  predicate SoloOk(w: World, live: nat) {
    && (forall e | e in w.engines && Live(w.engines[e]) :: e == live)
    && (live in w.engines && Holding(w.engines[live]) ==>
          w.store.value == Some(w.engines[live].inv) && w.store.revision == w.engines[live].revision)
    && (live in w.engines && w.engines[live].pc.AfterApply? ==> Collapse(w.applied) == Count(Done(w) + 1))
    && (Collapse(w.applied) == Count(Done(w)) || Collapse(w.applied) == Count(Done(w) + 1))
  }

  /** An engine starts only when none is running. */
  predicate SoloMove(w: World, m: Move) {
    m.Starts? && m.engine !in w.engines ==> NoneLive(w)
  }

  lemma AppliedOnce(applied: seq<nat>, n: nat)
    requires Collapse(applied) == Count(n) || Collapse(applied) == Count(n + 1)
    ensures Collapse(applied + [n]) == Count(n + 1)
  {
    assert (applied + [n])[..|applied|] == applied;
    if Collapse(applied) == Count(n) {
      assert Count(n) + [n] == Count(n + 1);
    }
  }

  /** The live engine moves without touching the store. */
  lemma SoloGoes(w: World, e: nat, l: Local, pc: Pc)
    requires SoloOk(w, e) && (Holding(l.(pc := pc)) ==> w.store.value == Some(l.inv) && w.store.revision == l.revision)
    requires pc.AfterApply? ==> Collapse(w.applied) == Count(Done(w) + 1)
    ensures SoloOk(Goes(w, e, l, pc), e)
  {
    hide Collapse, Count;
  }

  /** The live engine's write is its own next inventory: as many records as were stored, or the one just applied
      more. */
  lemma SoloWrites(w: World, e: nat, l: Local, v: Inventory, how: Swap, then_: Pc)
    requires SoloOk(w, e) && (w.store.value.None? ==> w.store.revision == 0)
    requires |v.records| == Done(w) || (|v.records| == Done(w) + 1 && Collapse(w.applied) == Count(Done(w) + 1))
    requires !then_.AfterApply?
    ensures SoloOk(Writes(w, e, l, w.store.revision, v, how, then_), e)
  {
    hide Collapse, Count;
  }

  /** What the live engine may rely on. */
  lemma SoloKnows(job: Job, w: World, e: nat)
    requires WorldOk(job, w) && e in w.engines && SoloOk(w, e)
    ensures (w.store.revision == 0 <==> w.store.value.None?)
    ensures Holding(w.engines[e]) ==>
              w.store.value == Some(w.engines[e].inv) && w.store.revision == w.engines[e].revision
    ensures w.engines[e].pc.AfterApply? ==> Collapse(w.applied) == Count(Done(w) + 1)
  {
  }

  lemma StaleWrite(w: World, e: nat, l: Local, expected: nat, v: Inventory, how: Swap, then_: Pc)
    requires SoloOk(w, e) && w.store.revision != expected
    ensures SoloOk(Writes(w, e, l, expected, v, how, then_), e)
  {
    hide Collapse, Count;
  }

  lemma SoloAsked(job: Job, w: World, e: nat)
    requires WorldOk(job, w) && e in w.engines && SoloOk(w, e) && w.engines[e].pc.BeforeApply?
    ensures var asked := w.(applied := w.applied + [|w.engines[e].inv.records|]);
            SoloOk(asked, e) && Collapse(asked.applied) == Count(Done(asked) + 1)
  {
    AppliedOnce(w.applied, |w.engines[e].inv.records|);
    hide Collapse, Count;
  }

  lemma AppliedRoomOf(job: Job, v: Inventory)
    requires ResumeValid(job, v) && v.state == WaveApplying
    ensures |v.records| < |Resources(job)|
  {
  }

  lemma SoloPublished(w: World, e: nat, published: seq<(string, string)>)
    requires SoloOk(w, e)
    ensures SoloOk(w.(published := published), e)
  {
    hide Collapse, Count;
  }

  lemma SoloStep(job: Job, w: World, e: nat, how: Swap, answer: Option<Receipt>, publishes: bool)
    requires HasWork(job) && WorldOk(job, w) && e in w.engines && SoloOk(w, e)
    ensures SoloOk(StepOf(job, w, e, w.engines[e], how, answer, publishes), e)
  {
    hide ResumeValid, Collapse, Count, SoloOk, Goes, Writes, WorldOk;
    var l := w.engines[e];
    EngineOk(job, w, e);
    SoloKnows(job, w, e);
    SoloGoes(w, e, l, Stopped);
    var n := |l.inv.records|;
    match l.pc
    case Starting =>
      SoloGoes(w, e, l, Creating);
      if w.store.value.Some? {
        var held := l.(inv := w.store.value.value, revision := w.store.revision);
        SoloGoes(w, e, held, AtLoop);
        SoloGoes(w, e, held, Stopped);
        if job.build(l.times, held.inv.records).Some? {
          SoloGoes(w, e, held, Returned(job.build(l.times, held.inv.records).value));
        }
      }
    case Creating =>
      if w.store.revision == 0 {
        SoloWrites(w, e, l, INITIAL, how, AtLoop);
      } else {
        StaleWrite(w, e, l, 0, INITIAL, how, AtLoop);
      }
    case AtLoop =>
      SoloGoes(w, e, l, BeforeApply);
      SoloGoes(w, e, l, AtStatus);
      if n < |Resources(job)| { SoloWrites(w, e, l, Marked(job, l.inv), how, BeforeApply); }
      SoloWrites(w, e, l, Pended(job, l.inv), how, AtStatus);
    case BeforeApply =>
      var asked := w.(applied := w.applied + [n]);
      SoloAsked(job, w, e);
      SoloGoes(asked, e, l, Stopped);
      if answer.Some? { SoloGoes(asked, e, l, AfterApply(answer.value)); }
    case AfterApply(receipt) =>
      AppliedRoomOf(job, l.inv);
      SoloWrites(w, e, l, Recorded(job, l.inv, receipt), how, AtLoop);
    case AtStatus =>
      if job.build(l.times, l.inv.records).Some? {
        var outcome := job.build(l.times, l.inv.records).value;
        var p := w.(published := w.published + [(l.times, outcome)]);
        SoloPublished(w, e, p.published);
        SoloGoes(p, e, l, AfterStatus(outcome));
      }
    case AfterStatus(outcome) => SoloWrites(w, e, l, l.inv.(state := Complete), how, Returned(outcome));
    case _ =>
  }

  lemma DeadStays(job: Job, w: World, e: nat, how: Swap, answer: Option<Receipt>, publishes: bool)
    requires e in w.engines && !Live(w.engines[e])
    ensures StepOf(job, w, e, w.engines[e], how, answer, publishes) == w
  {
  }

  lemma SoloKeeps(job: Job, w: World, live: nat, m: Move)
    requires HasWork(job) && WorldOk(job, w) && SoloOk(w, live) && SoloMove(w, m)
    ensures SoloOk(MoveOn(job, w, m), live) || SoloOk(MoveOn(job, w, m), m.engine)
  {
    hide StepOf, Collapse, Count;
    match m
    case Starts(e, times) =>
    case Crashes(e) =>
    case Steps(e, how, answer, publishes) =>
      if e in w.engines {
        if Live(w.engines[e]) {
          SoloStep(job, w, e, how, answer, publishes);
        } else {
          DeadStays(job, w, e, how, answer, publishes);
        }
      }
  }

  predicate SoloMoves(job: Job, ms: seq<Move>) {
    forall i | 0 <= i < |ms| :: SoloMove(Moves(job, ms[..i]), ms[i])
  }

  lemma NothingSolo()
    ensures SoloOk(NOTHING, 0)
  {
    assert Collapse(NOTHING.applied) == Count(0);
  }

  lemma {:induction false} SoloAlways(job: Job, ms: seq<Move>)
    requires HasWork(job) && SoloMoves(job, ms)
    ensures exists live :: SoloOk(Moves(job, ms), live)
  {
    hide MoveOn, WorldOk, SoloOk, SoloMove;
    if ms == [] {
      NothingSolo();
      assert Moves(job, ms) == NOTHING;
    } else {
      var before, last := ms[..|ms| - 1], ms[|ms| - 1];
      assert forall i | 0 <= i < |before| :: before[..i] == ms[..i];
      SoloAlways(job, before);
      StoreAlwaysResumes(job, before);
      var live :| SoloOk(Moves(job, before), live);
      assert SoloMove(Moves(job, ms[..|ms| - 1]), ms[|ms| - 1]);
      SoloKeeps(job, Moves(job, before), live, last);
      assert Moves(job, ms) == MoveOn(job, Moves(job, before), last);
    }
  }

  predicate InPlan(job: Job, applied: seq<nat>) {
    forall i | 0 <= i < |applied| :: applied[i] < |Resources(job)|
  }

  function Identities(job: Job, applied: seq<nat>): seq<Identity>
    requires InPlan(job, applied)
  {
    seq(|applied|, i requires 0 <= i < |applied| => Resources(job)[applied[i]].resource.identity)
  }

  lemma KeysDiffer(job: Job, rules: Rules, i: nat, j: nat)
    requires PlanInOrder(rules, job.waves) && i < |Resources(job)| && j < |Resources(job)| && i != j
    ensures Resources(job)[i].resource.identity != Resources(job)[j].resource.identity
  {
    var (a, b) := if i < j then (i, j) else (j, i);
    assert KeyOf(Flattened(job.waves, |job.waves|)[a].resource.identity)
           != KeyOf(Flattened(job.waves, |job.waves|)[b].resource.identity);
  }

  lemma {:induction false} CollapseMaps(job: Job, rules: Rules, applied: seq<nat>)
    requires PlanInOrder(rules, job.waves) && InPlan(job, applied)
    ensures InPlan(job, Collapse(applied))
    ensures Collapse(Identities(job, applied)) == Identities(job, Collapse(applied))
  {
    hide PlanInOrder, Resources;
    if applied != [] {
      var before, x := applied[..|applied| - 1], applied[|applied| - 1];
      CollapseMaps(job, rules, before);
      assert Identities(job, applied)[..|applied| - 1] == Identities(job, before);
      var c := Collapse(before);
      if c != [] && c[|c| - 1] != x { KeysDiffer(job, rules, c[|c| - 1], x); }
    }
  }

  /** The identities of the plan's first `k` resources. */
  function PlanPrefix(job: Job, k: nat): seq<Identity> {
    seq(if k <= |Resources(job)| then k else |Resources(job)|,
        i requires 0 <= i < |Resources(job)| => Resources(job)[i].resource.identity)
  }

  lemma OrderHasWork(job: Job, rules: Rules)
    requires PlanInOrder(rules, job.waves)
    ensures HasWork(job)
  {
  }

  lemma MoveInPlan(job: Job, w: World, m: Move)
    requires InPlan(job, w.applied)
    ensures InPlan(job, MoveOn(job, w, m).applied)
  {
    hide ResumeValid, Resources, CompareAndSwap;
  }

  lemma {:induction false} AppliedInPlan(job: Job, ms: seq<Move>)
    ensures InPlan(job, Moves(job, ms).applied)
  {
    hide MoveOn;
    if ms != [] {
      AppliedInPlan(job, ms[..|ms| - 1]);
      MoveInPlan(job, Moves(job, ms[..|ms| - 1]), ms[|ms| - 1]);
    }
  }

  /** For one engine at a time, re-run any number of times and crashing anywhere: what was applied, with immediate
      repeats dropped, is a prefix of the plan, one resource longer than the records at most. */
  lemma AppliedIsAPlanPrefix(job: Job, rules: Rules, ms: seq<Move>)
    requires PlanInOrder(rules, job.waves) && SoloMoves(job, ms)
    ensures var w := Moves(job, ms);
            && InPlan(job, w.applied)
            && (Collapse(Identities(job, w.applied)) == PlanPrefix(job, Done(w))
                || (Done(w) < |Resources(job)| && Collapse(Identities(job, w.applied)) == PlanPrefix(job, Done(w) + 1)))
  {
    hide MoveOn, WorldOk, PlanInOrder;
    var w := Moves(job, ms);
    OrderHasWork(job, rules);
    SoloAlways(job, ms);
    AppliedInPlan(job, ms);
    CollapseMaps(job, rules, w.applied);
    var k := if Collapse(w.applied) == Count(Done(w)) then Done(w) else Done(w) + 1;
    assert Collapse(w.applied) == Count(k);
    if k > 0 { assert Collapse(w.applied)[k - 1] == k - 1; }
    assert Identities(job, Count(k)) == PlanPrefix(job, k);
  }

  /** Records that match a plan in order never repeat an identity key, which is what the inventory's own duplicate check
      asks. */
  lemma RecordsDistinct(job: Job, rules: Rules, records: seq<Rec>, i: nat, j: nat)
    requires PlanInOrder(rules, job.waves) && RecordsMatch(job, records) && i < j < |records|
    ensures KeyOf(records[i].identity) != KeyOf(records[j].identity)
  {
    assert RecordMatches(job, Resources(job)[i], records[i]) && RecordMatches(job, Resources(job)[j], records[j]);
    assert KeyOf(Flattened(job.waves, |job.waves|)[i].resource.identity)
           != KeyOf(Flattened(job.waves, |job.waves|)[j].resource.identity);
  }
}
