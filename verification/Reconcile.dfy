/** The foundation engine as it runs: the resume checks and the reconcile loop over a shared store, tied step by step to
    the step machine of `Engine`. */
module Reconcile {
  import opened Vocabulary
  import opened Plan
  import opened Engine

  // ---------------------------------------------------------------------------------------------- resume checks

  function ReceiptOf(r: Rec): Receipt {
    Receipt(r.identity, r.uid, r.version, r.observed, r.appliedAt)
  }

  /** The record checks that do not read the plan. */
  predicate RecordSound(job: Job, r: Rec) {
    && KeyOf(r.identity) != "///" && r.waveId != ""
    && job.digestOk(r.desired) && r.desired == r.observed && job.receiptOk(ReceiptOf(r))
  }

  predicate RecordBound(p: Planned, r: Rec) {
    r.waveId == p.waveId && r.identity == p.resource.identity && r.desired == p.resource.manifestDigest
    && r.observed == p.resource.manifestDigest
  }

  /** A planned resource of an accepted plan has a wave and a name. */
  predicate Named(p: Planned) {
    p.waveId != "" && KeyOf(p.resource.identity) != "///"
  }

  lemma PlannedAreNamed(job: Job, rules: Rules, i: nat)
    requires PlanInOrder(rules, job.waves) && i < |Resources(job)|
    ensures Named(Resources(job)[i])
  {
    hide Before, KeysAscend, KeysDistinct, Flattened;
    FlattenedIs(job.waves, |job.waves|, i);
    var p := Resources(job)[i];
    if p.waveIndex > 0 { AfterNotEmpty(job.waves[0].id, job.waves[p.waveIndex].id); }
    assert |KeyOf(p.resource.identity)| > 3;
  }

  lemma SoundAndBound(job: Job, p: Planned, r: Rec)
    requires Named(p)
    ensures RecordMatches(job, p, r) <==> RecordSound(job, r) && RecordBound(p, r)
  {
  }

  predicate DistinctKeys(records: seq<Rec>) {
    forall i, j | 0 <= i < j < |records| :: KeyOf(records[i].identity) != KeyOf(records[j].identity)
  }

  /** The inventory's own checks: every record sound, no key twice. */
  method ValidateRecords(job: Job, records: seq<Rec>) returns (ok: bool)
    ensures ok <==> (forall i | 0 <= i < |records| :: RecordSound(job, records[i])) && DistinctKeys(records)
  {
    hide KeyOf;
    var seen: set<string> := {};
    for i := 0 to |records|
      invariant forall j | 0 <= j < i :: RecordSound(job, records[j]) && KeyOf(records[j].identity) in seen
      invariant forall k | k in seen :: exists j | 0 <= j < i :: KeyOf(records[j].identity) == k
      invariant forall j, k | 0 <= j < k < i :: KeyOf(records[j].identity) != KeyOf(records[k].identity)
    {
      var key := KeyOf(records[i].identity);
      if !RecordSound(job, records[i]) || key in seen { return false; }
      seen := seen + {key};
    }
    ok := true;
  }

  lemma MatchesAreSound(job: Job, rules: Rules, records: seq<Rec>)
    requires PlanInOrder(rules, job.waves) && RecordsMatch(job, records)
    ensures (forall i | 0 <= i < |records| :: RecordSound(job, records[i])) && DistinctKeys(records)
  {
    forall i, j | 0 <= i < j < |records|
      ensures KeyOf(records[i].identity) != KeyOf(records[j].identity)
    {
      RecordsDistinct(job, rules, records, i, j);
    }
    forall i | 0 <= i < |records|
      ensures RecordSound(job, records[i])
    {
      PlannedAreNamed(job, rules, i);
      SoundAndBound(job, Resources(job)[i], records[i]);
    }
  }

  /** The checks of a resume, for a plan that was accepted: what passes is exactly a prefix of the plan's records with
      the cursor its state calls for. */
  method ValidateResume(job: Job, rules: Rules, v: Inventory) returns (ok: bool)
    requires PlanInOrder(rules, job.waves)
    ensures ok <==> ResumeValid(job, v)
  {
    hide PlanInOrder, KeyOf, CursorValid, RecordMatches, RecordSound, RecordBound;
    ok := ValidateRecords(job, v.records);
    if ResumeValid(job, v) { MatchesAreSound(job, rules, v.records); }
    if !ok { return; }
    var resources := Flatten(job.waves);
    if |v.records| > |resources| { return false; }
    for i := 0 to |v.records|
      invariant forall j | 0 <= j < i :: RecordMatches(job, resources[j], v.records[j])
    {
      PlannedAreNamed(job, rules, i);
      SoundAndBound(job, resources[i], v.records[i]);
      if !RecordBound(resources[i], v.records[i]) { return false; }
    }
    ok := CursorValid(job, v);
  }

  // ---------------------------------------------------------------------------------------------- the shared cluster

  /** What the environment answers at one point of a run, whether the run stops there, and what the other engines did
      just before. */
  datatype Turn = Turn(how: Swap, answer: Option<Receipt>, publishes: bool, crash: bool, others: seq<Move>)

  /** The points where a run meets its environment. */
  datatype Point =
    | Loading
    | Creation
    | Marking(index: nat)
    | Asking(index: nat)
    | Recording(index: nat)
    | Pending
    | Publishing
    | Completing

  /** The other engines never act as this one. */
  ghost predicate Elsewhere(e: nat, env: Point -> Turn) {
    forall p, i | 0 <= i < |env(p).others| :: env(p).others[i].engine != e
  }

  lemma OtherMove(job: Job, w: World, m: Move, e: nat)
    requires m.engine != e
    ensures var u := MoveOn(job, w, m);
            (e in u.engines <==> e in w.engines) && (e in w.engines ==> u.engines[e] == w.engines[e])
  {
    hide ResumeValid, ReceiptValid, Resources;
  }

  /** The store and the ports as all engines share them, with where every engine is; `trace` is every move made so
      far. */
  class Cluster {
    const job: Job
    var store: Store
    var engines: map<nat, Local>
    var published: seq<(string, string)>
    var applied: seq<nat>
    ghost var trace: seq<Move>

    function View(): World
      reads this
    {
      World(store, engines, published, applied)
    }

    /** The cluster is where the step machine is after the trace. */
    ghost predicate Valid()
      reads this
    {
      View() == Moves(job, trace)
    }

    /** This engine holds `inv` at `revision` and is at `pc`. */
    ghost predicate At(e: nat, times: string, pc: Pc, inv: Inventory, revision: nat)
      reads this
    {
      Valid() && e in engines && engines[e] == Local(times, pc, inv, revision)
    }

    ghost predicate Ended(e: nat, pc: Pc)
      reads this
    {
      Valid() && e in engines && engines[e].pc == pc
    }

    /** The store is COMPLETE, and this is the outcome of its records at these times. */
    ghost predicate Concluded(times: string, outcome: string)
      reads this
    {
      store.value.Some? && store.value.value.state == Complete
        && job.build(times, store.value.value.records) == Some(outcome)
    }

    constructor (job: Job)
      ensures this.job == job && Valid() && trace == []
    {
      this.job := job;
      store, engines, published, applied, trace := Store(None, 0), map[], [], [], [];
    }

    /** One move of any engine. */
    method Move(m: Move)
      requires Valid()
      modifies this
      ensures Valid() && View() == MoveOn(job, old(View()), m) && trace == old(trace) + [m]
    {
      hide MoveOn;
      var u := MoveOn(job, View(), m);
      store, engines, published, applied := u.store, u.engines, u.published, u.applied;
      trace := trace + [m];
      assert trace[..|trace| - 1] == old(trace);
    }

    /** What the others did meanwhile. */
    method Meanwhile(e: nat, others: seq<Move>)
      requires Valid() && forall i | 0 <= i < |others| :: others[i].engine != e
      modifies this
      ensures Valid() && trace == old(trace) + others
      ensures (e in engines <==> old(e in engines)) && (e in engines ==> engines[e] == old(engines)[e])
    {
      for i := 0 to |others|
        invariant Valid() && trace == old(trace) + others[..i]
        invariant (e in engines <==> old(e in engines)) && (e in engines ==> engines[e] == old(engines)[e])
      {
        OtherMove(job, View(), others[i], e);
        Move(others[i]);
        assert others[..i + 1] == others[..i] + [others[i]];
      }
      assert others[..|others|] == others;
    }

    method Crash(e: nat)
      requires Valid() && e in engines
      modifies this
      ensures Ended(e, Stopped) && trace == old(trace) + [Crashes(e)]
    {
      Move(Crashes(e));
    }

    /** A step of this engine that touches nothing but itself. */
    method Pass(e: nat, turn: Turn)
      requires Valid() && e in engines
      modifies this
      ensures Valid() && trace == old(trace) + [Steps(e, turn.how, turn.answer, turn.publishes)]
      ensures View() == StepOf(job, old(View()), e, old(engines)[e], turn.how, turn.answer, turn.publishes)
    {
      Move(Steps(e, turn.how, turn.answer, turn.publishes));
    }

    method Load(e: nat, turn: Turn) returns (value: Option<Inventory>, revision: nat)
      requires Valid() && e in engines && engines[e].pc.Starting?
      modifies this
      ensures Valid() && trace == old(trace) + [Steps(e, turn.how, turn.answer, turn.publishes)]
      ensures View() == StepOf(job, old(View()), e, old(engines)[e], turn.how, turn.answer, turn.publishes)
      ensures value == old(store.value) && revision == old(store.revision) && store == old(store)
    {
      value, revision := store.value, store.revision;
      Pass(e, turn);
    }

    /** A write to the store, which has to be the one the engine's step makes. */
    method Swap(e: nat, expected: nat, v: Inventory, turn: Turn, next: Pc) returns (revision: Option<nat>)
      requires Valid() && e in engines
      requires StepOf(job, View(), e, engines[e], turn.how, turn.answer, turn.publishes)
               == Writes(View(), e, engines[e], expected, v, turn.how, next)
      modifies this
      ensures Valid() && trace == old(trace) + [Steps(e, turn.how, turn.answer, turn.publishes)]
      ensures revision == CompareAndSwap(old(store), expected, v, turn.how).revision
      ensures revision.Some? ==> At(e, old(engines)[e].times, next, v, revision.value) && store.value == Some(v)
      ensures revision.None? ==> Ended(e, Stopped)
    {
      hide StepOf;
      var swapped := CompareAndSwap(store, expected, v, turn.how);
      Pass(e, turn);
      revision := swapped.revision;
    }
  }

  // ---------------------------------------------------------------------------------------------- reconcile

  /** Load the inventory, or create it, and check it: the engine is in its loop with what is stored, or it has ended. */
  method Obtain(c: Cluster, rules: Rules, e: nat, times: string, env: Point -> Turn)
    returns (current: Inventory, revision: nat, ended: bool, outcome: Option<string>)
    requires PlanInOrder(rules, c.job.waves) && c.At(e, times, Starting, INITIAL, 0) && Elsewhere(e, env)
    modifies c
    ensures old(c.trace) <= c.trace
    ensures !ended ==> c.At(e, times, AtLoop, current, revision)
    ensures ended ==> c.Ended(e, if outcome.Some? then Returned(outcome.value) else Stopped)
    ensures outcome.Some? ==> ended && c.Concluded(times, outcome.value)
  {
    hide ResumeValid, Moves, PlanInOrder;
    c.Meanwhile(e, env(Loading).others);
    current, revision, ended, outcome := INITIAL, 0, true, None;
    if env(Loading).crash { c.Crash(e); return; }
    var value;
    value, revision := c.Load(e, env(Loading));
    if value.None? {
      c.Meanwhile(e, env(Creation).others);
      var created := c.Swap(e, 0, INITIAL, env(Creation), AtLoop);
      if created.Some? { revision, ended := created.value, false; }
    } else {
      current := value.value;
      var ok := ValidateResume(c.job, rules, current);
      if ok {
        if current.state == Complete { outcome := c.job.build(times, current.records); } else { ended := false; }
      }
    }
  }

  /** Mark the wave before applying, unless the mark is already this resource's. */
  method MarkWave(c: Cluster, e: nat, times: string, planned: Planned, inv: Inventory, held: nat, env: Point -> Turn)
    returns (ok: bool, current: Inventory, revision: nat)
    requires c.At(e, times, AtLoop, inv, held) && Elsewhere(e, env)
    requires |inv.records| < |Resources(c.job)| && planned == Resources(c.job)[|inv.records|]
    modifies c
    ensures old(c.trace) <= c.trace
    ensures ok ==> c.At(e, times, Pc.BeforeApply, current, revision) && current.records == inv.records
    ensures !ok ==> c.Ended(e, Stopped)
  {
    hide Resources, Moves;
    var turn := env(Marking(|inv.records|));
    c.Meanwhile(e, turn.others);
    current, revision, ok := inv, held, true;
    if current.state != WaveApplying || current.nextIdentity != KeyOf(planned.resource.identity) {
      current := current.(state := WaveApplying, nextWave := planned.waveIndex, nextResource := planned.resourceIndex,
                          nextIdentity := KeyOf(planned.resource.identity));
      var swapped := c.Swap(e, revision, current, turn, Pc.BeforeApply);
      if swapped.None? { return false, current, revision; }
      revision := swapped.value;
    } else {
      c.Pass(e, turn);
    }
    if turn.crash { c.Crash(e); ok := false; }
  }

  method ApplyResource(c: Cluster, e: nat, times: string, planned: Planned, inv: Inventory, revision: nat,
                       env: Point -> Turn)
    returns (receipt: Option<Receipt>)
    requires c.At(e, times, Pc.BeforeApply, inv, revision) && Elsewhere(e, env)
    requires |inv.records| < |Resources(c.job)| && planned == Resources(c.job)[|inv.records|]
    modifies c
    ensures old(c.trace) <= c.trace
    ensures receipt.Some? ==> c.At(e, times, Pc.AfterApply(receipt.value), inv, revision)
    ensures receipt.None? ==> c.Ended(e, Stopped)
  {
    hide Resources, Moves;
    var turn := env(Asking(|inv.records|));
    c.Meanwhile(e, turn.others);
    c.Pass(e, turn);
    receipt := turn.answer;
    if receipt.None? || !ReceiptValid(c.job, planned, receipt.value) { return None; }
    if turn.crash { c.Crash(e); receipt := None; }
  }

  method RecordReceipt(c: Cluster, e: nat, times: string, resources: seq<Planned>, inv: Inventory, held: nat,
                       receipt: Receipt, env: Point -> Turn)
    returns (ok: bool, current: Inventory, revision: nat)
    requires c.At(e, times, Pc.AfterApply(receipt), inv, held) && Elsewhere(e, env)
    requires resources == Resources(c.job) && |inv.records| < |resources|
    modifies c
    ensures old(c.trace) <= c.trace
    ensures ok ==> c.At(e, times, AtLoop, current, revision) && |current.records| == |inv.records| + 1
    ensures !ok ==> c.Ended(e, Stopped)
  {
    hide Resources, Moves;
    var index := |inv.records|;
    var turn := env(Recording(index));
    c.Meanwhile(e, turn.others);
    current := inv.(records := inv.records + [RecordOf(resources[index], receipt)], state := Applying,
                    nextIdentity := "");
    revision, ok := held, false;
    if index + 1 < |resources| {
      current := current.(nextWave := resources[index + 1].waveIndex,
                          nextResource := resources[index + 1].resourceIndex);
    } else {
      current := current.(state := StatusPending, nextWave := |c.job.waves|, nextResource := 0);
    }
    var swapped := c.Swap(e, revision, current, turn, AtLoop);
    if swapped.Some? {
      revision, ok := swapped.value, true;
      if turn.crash { c.Crash(e); ok := false; }
    }
  }

  /** Publish the outcome, then mark the inventory complete. */
  method Announce(c: Cluster, e: nat, times: string, inv: Inventory, held: nat, env: Point -> Turn)
    returns (outcome: Option<string>)
    requires c.At(e, times, AtStatus, inv, held) && Elsewhere(e, env)
    modifies c
    ensures old(c.trace) <= c.trace
    ensures c.Ended(e, if outcome.Some? then Returned(outcome.value) else Stopped)
    ensures outcome.Some? ==> c.Concluded(times, outcome.value)
  {
    hide Resources, Moves;
    var turn := env(Publishing);
    c.Meanwhile(e, turn.others);
    outcome := c.job.build(times, inv.records);
    c.Pass(e, turn);
    if outcome.None? || !turn.publishes { return None; }
    if turn.crash { c.Crash(e); return None; }
    c.Meanwhile(e, env(Completing).others);
    var completed := c.Swap(e, held, inv.(state := Complete), env(Completing), Returned(outcome.value));
    if completed.None? { outcome := None; }
  }

  method Conclude(c: Cluster, e: nat, times: string, inv: Inventory, held: nat, env: Point -> Turn)
    returns (outcome: Option<string>)
    requires c.At(e, times, AtLoop, inv, held) && Elsewhere(e, env) && |inv.records| >= |Resources(c.job)|
    modifies c
    ensures old(c.trace) <= c.trace
    ensures c.Ended(e, if outcome.Some? then Returned(outcome.value) else Stopped)
    ensures outcome.Some? ==> c.Concluded(times, outcome.value)
  {
    hide Resources, Moves;
    var current, revision := inv, held;
    c.Meanwhile(e, env(Pending).others);
    if current.state != StatusPending {
      current := current.(state := StatusPending, nextWave := |c.job.waves|, nextResource := 0, nextIdentity := "");
      var swapped := c.Swap(e, revision, current, env(Pending), AtStatus);
      if swapped.None? { return None; }
      revision := swapped.value;
    } else {
      c.Pass(e, env(Pending));
    }
    if env(Pending).crash { c.Crash(e); return None; }
    outcome := Announce(c, e, times, current, revision, env);
  }

  /** What every store of a run is known to be, at the end of one engine's run. */
  lemma RunEnds(job: Job, before: seq<Move>, after: seq<Move>)
    requires HasWork(job) && before <= after
    ensures WorldOk(job, Moves(job, after)) && StoreGrows(Moves(job, before).store, Moves(job, after).store)
  {
    hide WorldOk, Moves;
    StoreAlwaysResumes(job, after);
    StoreAlwaysGrows(job, before, after[|before|..]);
    assert before + after[|before|..] == after;
  }

  /** A COMPLETE inventory records the whole plan, an outcome for its records was published, and every publication is
      one. */
  lemma CompleteIsWhole(job: Job, w: World)
    requires WorldOk(job, w) && w.store.value.Some? && w.store.value.value.state == Complete
    ensures var records := w.store.value.value.records;
            && |records| == |Resources(job)| && RecordsMatch(job, records) && Announced(job, w, records)
            && forall p | p in w.published :: job.build(p.0, records) == Some(p.1)
  {
    forall p | p in w.published
      ensures job.build(p.0, w.store.value.value.records) == Some(p.1)
    {
      assert Current(job, w.store, p.0, p.1);
    }
  }

  lemma IsResources(job: Job)
    ensures Resources(job) == Flattened(job.waves, |job.waves|)
  {
  }

  method RunLoop(c: Cluster, rules: Rules, e: nat, times: string, env: Point -> Turn) returns (outcome: Option<string>)
    requires PlanInOrder(rules, c.job.waves) && c.Valid() && e !in c.engines && Elsewhere(e, env)
    modifies c
    ensures old(c.trace) + [Starts(e, times)] <= c.trace
    ensures c.Ended(e, if outcome.Some? then Returned(outcome.value) else Stopped)
    ensures outcome.Some? ==> c.Concluded(times, outcome.value)
  {
    hide Resources, PlanInOrder, Moves;
    c.Move(Starts(e, times));
    var current, revision, ended;
    current, revision, ended, outcome := Obtain(c, rules, e, times, env);
    if ended { return; }
    var resources := Flatten(c.job.waves);
    IsResources(c.job);
    var index := |current.records|;
    while index < |resources|
      invariant c.At(e, times, AtLoop, current, revision) && index == |current.records|
      invariant old(c.trace) + [Starts(e, times)] <= c.trace
    {
      var ok;
      ok, current, revision := MarkWave(c, e, times, resources[index], current, revision, env);
      if !ok { return None; }
      var receipt := ApplyResource(c, e, times, resources[index], current, revision, env);
      if receipt.None? { return None; }
      ok, current, revision := RecordReceipt(c, e, times, resources, current, revision, receipt.value, env);
      if !ok { return None; }
      index := index + 1;
    }
    outcome := Conclude(c, e, times, current, revision, env);
  }

  /** A whole run of one engine among others: every effect it has is a step of the step machine, in the machine's order,
      and it returns an outcome exactly when the machine's engine does. The store only grew; an outcome is returned only
      over a COMPLETE inventory that records the whole plan and for whose records an outcome was published, and it is
      what any publication at the same times said. */
  method Run(c: Cluster, rules: Rules, e: nat, times: string, env: Point -> Turn) returns (outcome: Option<string>)
    requires PlanInOrder(rules, c.job.waves) && c.Valid() && e !in c.engines && Elsewhere(e, env)
    modifies c
    ensures old(c.trace) + [Starts(e, times)] <= c.trace
    ensures c.Ended(e, if outcome.Some? then Returned(outcome.value) else Stopped)
    ensures StoreGrows(old(c.store), c.store)
    ensures outcome.Some? ==>
              && c.Concluded(times, outcome.value)
              && |c.store.value.value.records| == |Resources(c.job)| && RecordsMatch(c.job, c.store.value.value.records)
              && Announced(c.job, c.View(), c.store.value.value.records)
              && forall p | p in c.published && p.0 == times :: p.1 == outcome.value
  {
    hide RecordsMatch, Announced, StoreGrows, WorldOk, Resources, PlanInOrder, Moves;
    outcome := RunLoop(c, rules, e, times, env);
    OrderHasWork(c.job, rules);
    RunEnds(c.job, old(c.trace), c.trace);
    if outcome.Some? { CompleteIsWhole(c.job, c.View()); }
  }
}
