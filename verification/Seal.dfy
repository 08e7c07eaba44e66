/** The two-stage process seal over a kernel that may fail or ignore any call: what a success means whatever the kernel
    did, and exactly when a faithful kernel lets it succeed. */
module Seal {
  import opened Vocabulary

  const CAP_SETPCAP: nat := 8
  const CAP_LAST_CAP: nat := 40
  const BPF_MAXINSNS: nat := 4096
  const EINVAL: int := 22
  const EPERM: int := 1
  const EACCES: int := 13

  /** A 64-bit capability set, as the numbers of its bits. */
  type Bits = s: set<nat> | forall c | c in s :: c < 64

  /** The capabilities the kernel knows. */
  const VISIBLE: set<nat> := set c: nat | c <= CAP_LAST_CAP

  // ---------------------------------------------------------------------------------------------- capability words

  datatype CapabilitySets = CapabilitySets(effective: Bits, permitted: Bits, inheritable: Bits)

  datatype Word = Word(effective: Bits, permitted: Bits, inheritable: Bits)

  function Low(s: Bits): Bits {
    set c | c in s && c < 32
  }

  function High(s: Bits): Bits {
    set c | c in s && c >= 32 :: c - 32
  }

  function CapabilityWords(s: CapabilitySets): (Word, Word) {
    (Word(Low(s.effective), Low(s.permitted), Low(s.inheritable)),
     Word(High(s.effective), High(s.permitted), High(s.inheritable)))
  }

  function Joined(low: Bits, high: Bits): Bits {
    Low(low) + set c | c in Low(high) :: c + 32
  }

  function SetsOf(words: (Word, Word)): CapabilitySets {
    CapabilitySets(Joined(words.0.effective, words.1.effective), Joined(words.0.permitted, words.1.permitted),
                   Joined(words.0.inheritable, words.1.inheritable))
  }

  lemma JoinedBack(s: Bits)
    ensures Joined(Low(s), High(s)) == s
  {
    forall c | c in s
      ensures c in Joined(Low(s), High(s))
    {
      if c >= 32 { assert c - 32 in Low(High(s)); }
    }
  }

  /** The two data words carry the three sets unchanged. */
  lemma WordsBack(s: CapabilitySets)
    ensures SetsOf(CapabilityWords(s)) == s
  {
    JoinedBack(s.effective);
    JoinedBack(s.permitted);
    JoinedBack(s.inheritable);
  }

  // ---------------------------------------------------------------------------------------------- the kernel

  /** The process as the kernel keeps it. */
  datatype Process = Process(effective: Bits, permitted: Bits, inheritable: Bits, bounding: Bits, ambient: Bits,
                             noNewPrivs: bool, core: (nat, nat), filter: Option<nat>)

  /** What does not change: the thread counts of the first and of later status reads, the ids, what TSYNC answers, and
      for each call whether the kernel carries it out, fails it, or answers without doing it. */
  datatype Machine = Machine(threads: (nat, nat), userIds: (nat, nat, nat), groupIds: (nat, nat, nat), tsync: int,
                             fault: nat -> Fault)

  datatype Fault = Faithful | Errno(code: int) | Ignored

  datatype Call =
    | Status
    | UserIds
    | GroupIds
    | CapGet
    | CapSet(words: (Word, Word))
    | BoundingRead(capability: nat)
    | BoundingDrop(capability: nat)
    | AmbientIsSet(capability: nat)
    | AmbientClearAll
    | SetNoNewPrivs
    | GetNoNewPrivs
    | CoreLimit(limit: Option<(nat, nat)>)
    | Filter(length: nat)

  datatype Answer<T> = Ok(value: T) | Err(code: int)

  ghost predicate NoFaults(m: Machine) {
    forall i :: m.fault(i) == Faithful
  }

  function SetsIn(p: Process): CapabilitySets {
    CapabilitySets(p.effective, p.permitted, p.inheritable)
  }

  /** The calls from one point to another hold no filter. */
  predicate Quiet(before: seq<Call>, after: seq<Call>) {
    before <= after && forall i | |before| <= i < |after| :: !after[i].Filter?
  }

  /** Nothing the process may hold has grown. */
  predicate Shrunk(p: Process, q: Process) {
    && q.permitted <= p.permitted && q.bounding <= p.bounding && q.ambient <= p.ambient
    && q.inheritable <= p.inheritable
    && q.effective <= p.effective + p.permitted
  }

  function FlagOf(p: Process, call: Call): bool
    requires call.BoundingRead? || call.AmbientIsSet? || call.GetNoNewPrivs?
  {
    match call
    case BoundingRead(c) => c in p.bounding
    case AmbientIsSet(c) => c in p.ambient
    case GetNoNewPrivs => p.noNewPrivs
  }

  class Kernel {
    const machine: Machine
    var process: Process
    var calls: seq<Call>
    var statusReads: nat

    constructor (machine: Machine, process: Process)
      ensures this.machine == machine && this.process == process && calls == [] && statusReads == 0
    {
      this.machine, this.process, calls, statusReads := machine, process, [], 0;
    }

    /** Records a call; its fault. */
    method Note(call: Call) returns (fault: Fault)
      modifies `calls
      ensures calls == old(calls) + [call] && fault == machine.fault(|old(calls)|)
    {
      fault := machine.fault(|calls|);
      calls := calls + [call];
    }

    method OwnStatus() returns (threads: Answer<nat>)
      modifies `calls, `statusReads
      ensures Quiet(old(calls), calls) && statusReads == old(statusReads) + 1
      ensures threads.Ok? ==> threads.value == if old(statusReads) == 0 then machine.threads.0 else machine.threads.1
      ensures NoFaults(machine) ==> threads.Ok?
    {
      var fault := Note(Status);
      var read := if statusReads == 0 then machine.threads.0 else machine.threads.1;
      statusReads := statusReads + 1;
      threads := if fault.Errno? then Err(fault.code) else Ok(read);
    }

    method ReadIds(user: bool) returns (ids: Answer<(nat, nat, nat)>)
      modifies `calls
      ensures Quiet(old(calls), calls)
      ensures ids.Ok? ==> ids.value == if user then machine.userIds else machine.groupIds
      ensures NoFaults(machine) ==> ids.Ok?
    {
      var fault := Note(if user then UserIds else GroupIds);
      ids := if fault.Errno? then Err(fault.code) else Ok(if user then machine.userIds else machine.groupIds);
    }

    method ReadCapabilities() returns (sets: Answer<CapabilitySets>)
      modifies `calls
      ensures Quiet(old(calls), calls)
      ensures sets.Ok? ==> sets.value == SetsIn(process)
      ensures NoFaults(machine) ==> sets.Ok?
    {
      var fault := Note(CapGet);
      WordsBack(SetsIn(process));
      sets := if fault.Errno? then Err(fault.code) else Ok(SetsOf(CapabilityWords(SetsIn(process))));
    }

    /** `capset`: the inheritable set grows only within the old inheritable and permitted sets, unless CAP_SETPCAP is
        effective, and within the bounding set; the permitted set only shrinks; the effective set stays within the new
        permitted set. */
    method WriteCapabilities(sets: CapabilitySets) returns (answer: Answer<()>)
      modifies `calls, `process
      ensures Quiet(old(calls), calls)
      ensures process == old(process)
              || process == old(process).(effective := sets.effective, permitted := sets.permitted,
                                          inheritable := sets.inheritable,
                                          ambient := old(process).ambient * sets.permitted * sets.inheritable)
      ensures process != old(process) ==> sets.permitted <= old(process).permitted && sets.effective <= sets.permitted
      ensures NoFaults(machine) && sets.inheritable == {}
              && sets.effective <= sets.permitted <= old(process).permitted ==>
                answer.Ok? && SetsIn(process) == sets
    {
      var words := CapabilityWords(sets);
      var fault := Note(CapSet(words));
      if fault.Errno? { return Err(fault.code); }
      WordsBack(sets);
      var new_ := SetsOf(words);
      if (!(new_.inheritable <= process.inheritable + process.permitted) && CAP_SETPCAP !in process.effective)
         || !(new_.inheritable <= process.inheritable + process.bounding)
         || !(new_.permitted <= process.permitted)
         || !(new_.effective <= new_.permitted) {
        return Err(EPERM);
      }
      if fault.Faithful? {
        process := process.(effective := new_.effective, permitted := new_.permitted, inheritable := new_.inheritable,
                            ambient := process.ambient * new_.permitted * new_.inheritable);
      }
      answer := Ok(());
    }

    method ReadFlag(call: Call) returns (flag: Answer<bool>)
      requires call.BoundingRead? || call.AmbientIsSet? || call.GetNoNewPrivs?
      modifies `calls
      ensures Quiet(old(calls), calls)
      ensures flag.Ok? ==> flag.value == FlagOf(process, call)
      ensures call.BoundingRead? && call.capability > CAP_LAST_CAP ==> flag.Err?
      ensures NoFaults(machine) ==>
                if call.GetNoNewPrivs? || call.capability <= CAP_LAST_CAP then flag.Ok? else flag == Err(EINVAL)
    {
      var fault := Note(call);
      if fault.Errno? { return Err(fault.code); }
      if !call.GetNoNewPrivs? && call.capability > CAP_LAST_CAP { return Err(EINVAL); }
      flag := Ok(FlagOf(process, call));
    }

    /** `PR_CAPBSET_DROP`: CAP_SETPCAP is checked first, even for a capability already absent. */
    method DropOne(capability: nat) returns (answer: Answer<()>)
      modifies `calls, `process
      ensures Quiet(old(calls), calls)
      ensures process == old(process) || process == old(process).(bounding := old(process).bounding - {capability})
      ensures NoFaults(machine) && capability <= CAP_LAST_CAP ==>
                (answer.Ok? <==> CAP_SETPCAP in old(process).effective)
                && (answer.Ok? ==> process == old(process).(bounding := old(process).bounding - {capability}))
    {
      var fault := Note(BoundingDrop(capability));
      if fault.Errno? { return Err(fault.code); }
      if CAP_SETPCAP !in process.effective { return Err(EPERM); }
      if capability > CAP_LAST_CAP { return Err(EINVAL); }
      if fault.Faithful? { process := process.(bounding := process.bounding - {capability}); }
      answer := Ok(());
    }

    method ClearAmbient() returns (answer: Answer<()>)
      modifies `calls, `process
      ensures Quiet(old(calls), calls)
      ensures process == old(process) || process == old(process).(ambient := {})
      ensures NoFaults(machine) ==> answer.Ok? && process.ambient == {}
    {
      var fault := Note(AmbientClearAll);
      if fault.Errno? { return Err(fault.code); }
      if fault.Faithful? { process := process.(ambient := {}); }
      answer := Ok(());
    }

    method DenyNewPrivs() returns (answer: Answer<()>)
      modifies `calls, `process
      ensures Quiet(old(calls), calls)
      ensures process == old(process) || process == old(process).(noNewPrivs := true)
      ensures NoFaults(machine) ==> answer.Ok? && process.noNewPrivs
    {
      var fault := Note(SetNoNewPrivs);
      if fault.Errno? { return Err(fault.code); }
      if fault.Faithful? { process := process.(noNewPrivs := true); }
      answer := Ok(());
    }

    /** `prlimit` of the core size: the limit before the call. */
    method LimitCore(limit: Option<(nat, nat)>) returns (before: Answer<(nat, nat)>)
      modifies `calls, `process
      ensures Quiet(old(calls), calls)
      ensures process == old(process) || (limit.Some? && process == old(process).(core := limit.value))
      ensures before.Ok? ==> before.value == old(process).core
      ensures NoFaults(machine) && (limit.Some? ==> limit.value == (0, 0)) ==>
                before.Ok? && (limit.Some? ==> process.core == (0, 0))
    {
      var fault := Note(CoreLimit(limit));
      if fault.Errno? { return Err(fault.code); }
      before := Ok(process.core);
      if limit.Some? {
        var (soft, hard) := limit.value;
        if soft > hard { return Err(EINVAL); }
        if hard > process.core.1 && 24 !in process.effective { return Err(EPERM); }
        if fault.Faithful? { process := process.(core := (soft, hard)); }
      }
    }

    /** `seccomp` with TSYNC: 0 when the filter is in place for every thread. */
    method InstallFilter(length: nat) returns (answer: Answer<int>)
      modifies `calls, `process
      ensures calls == old(calls) + [Filter(length)]
      ensures answer == Ok(0) ==> process == old(process).(filter := Some(length))
      ensures answer != Ok(0) ==> process == old(process)
      ensures NoFaults(machine) && old(process).noNewPrivs ==> answer == Ok(machine.tsync)
    {
      var fault := Note(Filter(length));
      if fault.Errno? { return Err(fault.code); }
      if !process.noNewPrivs && 21 !in process.effective { return Err(EACCES); }
      if machine.tsync != 0 { return Ok(machine.tsync); }
      process := process.(filter := Some(length));
      answer := Ok(0);
    }
  }

  lemma QuietTrans(a: seq<Call>, b: seq<Call>, c: seq<Call>)
    requires Quiet(a, b) && Quiet(b, c)
    ensures Quiet(a, c)
  {
  }

  // ---------------------------------------------------------------------------------------------- read-backs

  /** The visible part of the bounding or ambient set, one capability at a time; the bounding read also asks that the
      kernel know no capability above the last. */
  method ReadSet(k: Kernel, ambient: bool) returns (found: Option<set<nat>>)
    modifies k`calls
    ensures Quiet(old(k.calls), k.calls)
    ensures found.Some? ==> found.value == VISIBLE * (if ambient then k.process.ambient else k.process.bounding)
    ensures NoFaults(k.machine) ==> found.Some?
  {
    var read: set<nat> := {};
    for c := 0 to CAP_LAST_CAP + 1
      invariant Quiet(old(k.calls), k.calls)
      invariant forall d: nat ::
                  d in read <==> d < c && d in (if ambient then k.process.ambient else k.process.bounding)
    {
      var flag := k.ReadFlag(if ambient then AmbientIsSet(c) else BoundingRead(c));
      if flag.Err? { return None; }
      if flag.value { read := read + {c}; }
    }
    if !ambient {
      var beyond := k.ReadFlag(BoundingRead(CAP_LAST_CAP + 1));
      if beyond != Err(EINVAL) { return None; }
    }
    found := Some(read);
  }

  method HoldsCapabilities(k: Kernel, expected: CapabilitySets) returns (ok: bool)
    modifies k`calls
    ensures Quiet(old(k.calls), k.calls)
    ensures ok ==> SetsIn(k.process) == expected
    ensures NoFaults(k.machine) ==> (ok <==> SetsIn(k.process) == expected)
  {
    var found := k.ReadCapabilities();
    ok := found == Ok(expected);
  }

  method HoldsNoNewPrivs(k: Kernel) returns (ok: bool)
    modifies k`calls
    ensures Quiet(old(k.calls), k.calls)
    ensures ok ==> k.process.noNewPrivs
    ensures NoFaults(k.machine) ==> (ok <==> k.process.noNewPrivs)
  {
    var flag := k.ReadFlag(GetNoNewPrivs);
    ok := flag == Ok(true);
  }

  method HoldsNoCore(k: Kernel) returns (ok: bool)
    modifies k`calls, k`process
    ensures Quiet(old(k.calls), k.calls) && k.process == old(k.process)
    ensures ok ==> k.process.core == (0, 0)
    ensures NoFaults(k.machine) ==> (ok <==> k.process.core == (0, 0))
  {
    var found := k.LimitCore(None);
    ok := found == Ok((0, 0));
  }

  method SingleThread(k: Kernel) returns (ok: bool)
    modifies k`calls, k`statusReads
    ensures Quiet(old(k.calls), k.calls) && k.statusReads == old(k.statusReads) + 1
    ensures ok ==> (if old(k.statusReads) == 0 then k.machine.threads.0 else k.machine.threads.1) == 1
    ensures NoFaults(k.machine) ==>
              (ok <==> (if old(k.statusReads) == 0 then k.machine.threads.0 else k.machine.threads.1) == 1)
  {
    var threads := k.OwnStatus();
    ok := threads == Ok(1);
  }

  // ---------------------------------------------------------------------------------------------- the plan

  /** The capabilities of a set below a bound, ascending. */
  function MembersBelow(s: set<nat>, n: nat): seq<nat> {
    if n == 0 then [] else MembersBelow(s, n - 1) + if n - 1 in s then [n - 1] else []
  }

  function Members(s: set<nat>): seq<nat> {
    MembersBelow(s, CAP_LAST_CAP + 1)
  }

  lemma {:induction false} MembersAre(s: set<nat>, n: nat)
    ensures forall c :: c in MembersBelow(s, n) <==> c in s && c < n
    ensures forall i, j | 0 <= i < j < |MembersBelow(s, n)| :: MembersBelow(s, n)[i] < MembersBelow(s, n)[j]
  {
    if n > 0 {
      MembersAre(s, n - 1);
      var before := MembersBelow(s, n - 1);
      forall i | 0 <= i < |before|
        ensures before[i] < n - 1
      {
        assert before[i] in before;
      }
    }
  }

  lemma {:induction false} OnlyMember(s: set<nat>, n: nat)
    requires s <= {CAP_SETPCAP}
    ensures MembersBelow(s, n) == if CAP_SETPCAP in s && n > CAP_SETPCAP then [CAP_SETPCAP] else []
  {
    if n > 0 { OnlyMember(s, n - 1); }
  }

  datatype Plan = Plan(stage1Drops: seq<nat>, stage1Bounding: set<nat>, stage1Capabilities: set<nat>,
                       stage2Drops: seq<nat>, length: nat)

  function FilterLength(bytes: nat): (length: Option<nat>) {
    if bytes % 8 != 0 || bytes / 8 == 0 || bytes / 8 > BPF_MAXINSNS then None else Some(bytes / 8)
  }

  /** Stage 1 keeps CAP_SETPCAP where the start has it; stage 2 drops it from the bounding set. */
  function PlanFor(start: CapabilitySets, bounding: set<nat>, program: nat): Option<Plan> {
    if FilterLength(program).None? then None
    else
      Some(Plan(Members(bounding - {CAP_SETPCAP}), bounding * {CAP_SETPCAP}, start.permitted * {CAP_SETPCAP},
                Members(bounding * {CAP_SETPCAP}), FilterLength(program).value))
  }

  lemma PlanIs(start: CapabilitySets, bounding: set<nat>, program: nat)
    requires PlanFor(start, bounding, program).Some?
    ensures var p := PlanFor(start, bounding, program).value;
            && (forall c :: c in p.stage1Drops <==> c in bounding && c != CAP_SETPCAP && c <= CAP_LAST_CAP)
            && p.stage2Drops == (if CAP_SETPCAP in bounding then [CAP_SETPCAP] else [])
  {
    MembersAre(bounding - {CAP_SETPCAP}, CAP_LAST_CAP + 1);
    OnlyMember(bounding * {CAP_SETPCAP}, CAP_LAST_CAP + 1);
  }

  // ---------------------------------------------------------------------------------------------- the two stages

  function ElementsOf(drops: seq<nat>): set<nat> {
    set i | 0 <= i < |drops| :: drops[i]
  }

  lemma ElementsGrow(drops: seq<nat>, i: nat)
    requires i < |drops|
    ensures ElementsOf(drops[..i + 1]) == ElementsOf(drops[..i]) + {drops[i]}
  {
    assert drops[..i + 1] == drops[..i] + [drops[i]];
    assert forall j | 0 <= j < i :: drops[..i + 1][j] == drops[..i][j];
    assert drops[..i + 1][i] == drops[i];
  }

  lemma ElementsWithin(drops: seq<nat>, i: nat)
    requires i <= |drops|
    ensures ElementsOf(drops[..i]) <= ElementsOf(drops)
  {
  }

  /** Drop each capability, then read the bounding set back: after a success nothing else of the set is left to be
      seen. */
  method DropBounding(k: Kernel, drops: seq<nat>, target: set<nat>) returns (ok: bool)
    requires forall i | 0 <= i < |drops| :: drops[i] <= CAP_LAST_CAP
    modifies k`calls, k`process
    ensures Quiet(old(k.calls), k.calls)
    ensures k.process == old(k.process).(bounding := k.process.bounding)
    ensures old(k.process).bounding - ElementsOf(drops) <= k.process.bounding <= old(k.process).bounding
    ensures ok ==> VISIBLE * k.process.bounding == target
    ensures NoFaults(k.machine) ==>
              (ok <==> (drops != [] ==> CAP_SETPCAP in old(k.process).effective)
                       && VISIBLE * (old(k.process).bounding - ElementsOf(drops)) == target)
  {
    for i := 0 to |drops|
      invariant Quiet(old(k.calls), k.calls)
      invariant k.process == old(k.process).(bounding := k.process.bounding)
      invariant old(k.process).bounding - ElementsOf(drops[..i]) <= k.process.bounding <= old(k.process).bounding
      invariant NoFaults(k.machine) ==> k.process.bounding == old(k.process).bounding - ElementsOf(drops[..i])
      invariant NoFaults(k.machine) && i > 0 ==> CAP_SETPCAP in old(k.process).effective
    {
      ElementsGrow(drops, i);
      var dropped := k.DropOne(drops[i]);
      if dropped.Err? {
        ElementsWithin(drops, i + 1);
        return false;
      }
    }
    assert drops[..|drops|] == drops;
    var found := ReadSet(k, false);
    ok := found == Some(target);
  }

  /** Permitted and effective set to a target, the inheritable set emptied, and read back. */
  method SetCapabilities(k: Kernel, target: Bits) returns (ok: bool)
    modifies k`calls, k`process
    ensures Quiet(old(k.calls), k.calls) && Shrunk(old(k.process), k.process)
    ensures k.process == old(k.process).(effective := k.process.effective, permitted := k.process.permitted,
                                         inheritable := k.process.inheritable, ambient := k.process.ambient)
    ensures ok ==> SetsIn(k.process) == CapabilitySets(target, target, {})
    ensures NoFaults(k.machine) && target <= old(k.process).permitted ==> ok
  {
    var sets := CapabilitySets(target, target, {});
    var written := k.WriteCapabilities(sets);
    if written.Err? { return false; }
    ok := HoldsCapabilities(k, sets);
  }

  predicate IsRoot(ids: (nat, nat, nat)) {
    ids == (0, 0, 0)
  }

  /** Stage 1 can be carried out: what a caller can tell before it starts. */
  predicate Stage1Possible(m: Machine, p: Process, program: nat) {
    && m.threads.0 == 1 && IsRoot(m.userIds) && IsRoot(m.groupIds) && FilterLength(program).Some?
    && (VISIBLE * p.bounding - {CAP_SETPCAP} != {} ==> CAP_SETPCAP in p.effective)
  }

  /** What stage 1 leaves: at most CAP_SETPCAP anywhere, no ambient or inheritable capability, no core files, no new
      privileges. */
  predicate Stage1Left(start: Process, p: Process, plan: Plan) {
    && p.core == (0, 0) && VISIBLE * p.ambient == {} && p.inheritable == {} && p.noNewPrivs && p.filter == start.filter
    && p.permitted == p.effective == start.permitted * {CAP_SETPCAP}
    && VISIBLE * p.bounding == start.bounding * {CAP_SETPCAP} && p.bounding - VISIBLE == start.bounding - VISIBLE
    && plan.stage2Drops == (if CAP_SETPCAP in start.bounding then [CAP_SETPCAP] else [])
  }

  /** Preconditions: one thread, root. */
  method Preconditions(k: Kernel) returns (ok: bool)
    modifies k`calls, k`statusReads
    ensures Quiet(old(k.calls), k.calls) && k.statusReads == old(k.statusReads) + 1
    ensures NoFaults(k.machine) && old(k.statusReads) == 0 ==>
              (ok <==> k.machine.threads.0 == 1 && IsRoot(k.machine.userIds) && IsRoot(k.machine.groupIds))
  {
    ok := SingleThread(k);
    if !ok { return; }
    var ids := k.ReadIds(true);
    ok := ids.Ok? && IsRoot(ids.value);
    if !ok { return; }
    ids := k.ReadIds(false);
    ok := ids.Ok? && IsRoot(ids.value);
  }

  /** Steps 1 and 2: no core files, no ambient capability. */
  method LimitAndClear(k: Kernel) returns (ok: bool)
    modifies k`calls, k`process
    ensures Quiet(old(k.calls), k.calls) && Shrunk(old(k.process), k.process)
    ensures k.process == old(k.process).(core := k.process.core, ambient := k.process.ambient)
    ensures ok ==> k.process.core == (0, 0) && VISIBLE * k.process.ambient == {}
    ensures NoFaults(k.machine) ==> ok && k.process.ambient == {}
  {
    var limited := k.LimitCore(Some((0, 0)));
    if limited.Err? { return false; }
    ok := HoldsNoCore(k);
    if !ok { return; }
    var cleared := k.ClearAmbient();
    if cleared.Err? { return false; }
    var ambient := ReadSet(k, true);
    assert k.process.ambient == {} ==> VISIBLE * k.process.ambient == {};
    ok := ambient == Some({});
  }

  /** Step 5. */
  method ForbidPrivileges(k: Kernel) returns (ok: bool)
    modifies k`calls, k`process
    ensures Quiet(old(k.calls), k.calls)
    ensures k.process == old(k.process).(noNewPrivs := k.process.noNewPrivs)
    ensures ok ==> k.process.noNewPrivs
    ensures NoFaults(k.machine) ==> ok
  {
    var denied := k.DenyNewPrivs();
    if denied.Err? { return false; }
    ok := HoldsNoNewPrivs(k);
  }

  /** Dropping every other visible capability leaves CAP_SETPCAP and what cannot be seen. */
  lemma LoweredIs(start: Bits, drops: seq<nat>)
    requires forall c :: c in drops <==> c in VISIBLE * start && c != CAP_SETPCAP && c <= CAP_LAST_CAP
    ensures ElementsOf(drops) == VISIBLE * start - {CAP_SETPCAP}
    ensures VISIBLE * (start - ElementsOf(drops)) == VISIBLE * start * {CAP_SETPCAP} == start * {CAP_SETPCAP}
    ensures drops != [] <==> VISIBLE * start - {CAP_SETPCAP} != {}
    ensures forall i | 0 <= i < |drops| :: drops[i] <= CAP_LAST_CAP
  {
    assert forall i | 0 <= i < |drops| :: drops[i] in drops;
    assert ElementsOf(drops) == VISIBLE * start - {CAP_SETPCAP};
    if drops != [] { assert drops[0] in VISIBLE * start - {CAP_SETPCAP}; }
  }

  /** Steps 3 and 4. */
  method Lower(k: Kernel, plan: Plan, bounding: set<nat>) returns (ok: bool)
    requires bounding == VISIBLE * k.process.bounding
    requires forall c :: c in plan.stage1Drops <==> c in bounding && c != CAP_SETPCAP && c <= CAP_LAST_CAP
    requires plan.stage1Bounding == bounding * {CAP_SETPCAP}
             && plan.stage1Capabilities == k.process.permitted * {CAP_SETPCAP}
    modifies k`calls, k`process
    ensures Quiet(old(k.calls), k.calls) && Shrunk(old(k.process), k.process)
    ensures k.process == old(k.process).(effective := k.process.effective, permitted := k.process.permitted,
                                         inheritable := k.process.inheritable, ambient := k.process.ambient,
                                         bounding := k.process.bounding)
    ensures ok ==>
              && VISIBLE * k.process.bounding == old(k.process).bounding * {CAP_SETPCAP}
              && k.process.bounding - VISIBLE == old(k.process).bounding - VISIBLE
              && SetsIn(k.process) == CapabilitySets(plan.stage1Capabilities, plan.stage1Capabilities, {})
    ensures NoFaults(k.machine) ==>
              (ok <==> (bounding - {CAP_SETPCAP} != {} ==> CAP_SETPCAP in old(k.process).effective))
  {
    ghost var start := k.process.bounding;
    LoweredIs(start, plan.stage1Drops);
    ok := DropBounding(k, plan.stage1Drops, plan.stage1Bounding);
    if ok { ok := SetCapabilities(k, plan.stage1Capabilities); }
  }

  /** Stage 1, with its preconditions. Whatever the kernel did, a success leaves what stage 1 promises; a faithful
      kernel lets it succeed exactly when it is possible; and it never installs a filter nor lets any set grow. */
  method RunStage1(k: Kernel, program: nat) returns (result: Option<Plan>)
    requires k.statusReads == 0
    modifies k`calls, k`process, k`statusReads
    ensures Quiet(old(k.calls), k.calls) && k.process.filter == old(k.process).filter
            && Shrunk(old(k.process), k.process)
    ensures k.statusReads == 1
    ensures result.Some? ==>
              Stage1Left(old(k.process), k.process, result.value) && Some(result.value.length) == FilterLength(program)
    ensures NoFaults(k.machine) ==> (result.Some? <==> Stage1Possible(k.machine, old(k.process), program))
  {
    var ok := Preconditions(k);
    if !ok { return None; }
    var start := k.ReadCapabilities();
    if start.Err? { return None; }
    var bounding := ReadSet(k, false);
    if bounding.None? { return None; }
    result := PlanFor(start.value, bounding.value, program);
    if result.None? { return; }
    PlanIs(start.value, bounding.value, program);
    ok := LimitAndClear(k);
    if ok { ok := Lower(k, result.value, bounding.value); }
    if ok { ok := ForbidPrivileges(k); }
    if !ok { result := None; }
  }

  // ---------------------------------------------------------------------------------------------- stage 2

  /** A sealed process: no capability in any of the five sets, no new privileges, no core files. */
  predicate Emptied(p: Process) {
    && p.effective == {} && p.permitted == {} && p.inheritable == {} && VISIBLE * p.bounding == {}
    && VISIBLE * p.ambient == {}
    && p.noNewPrivs && p.core == (0, 0)
  }

  /** The final-state assertion, the last reads before the filter. */
  method FinalState(k: Kernel) returns (ok: bool)
    modifies k`calls, k`process
    ensures Quiet(old(k.calls), k.calls) && k.process == old(k.process)
    ensures ok ==> Emptied(k.process)
    ensures NoFaults(k.machine) ==> (ok <==> Emptied(k.process))
  {
    ok := HoldsCapabilities(k, CapabilitySets({}, {}, {}));
    if !ok { return; }
    var bounding := ReadSet(k, false);
    if bounding != Some({}) { return false; }
    var ambient := ReadSet(k, true);
    if ambient != Some({}) { return false; }
    ok := HoldsNoNewPrivs(k);
    if !ok { return; }
    ok := HoldsNoCore(k);
  }

  /** Steps 7 and 8: CAP_SETPCAP out of the bounding set, then every set empty. */
  method Empty(k: Kernel, drops: seq<nat>) returns (ok: bool)
    requires drops == (if CAP_SETPCAP in k.process.bounding then [CAP_SETPCAP] else [])
    requires VISIBLE * k.process.bounding <= {CAP_SETPCAP}
    modifies k`calls, k`process
    ensures Quiet(old(k.calls), k.calls) && Shrunk(old(k.process), k.process)
    ensures k.process == old(k.process).(effective := k.process.effective, permitted := k.process.permitted,
                                         inheritable := k.process.inheritable, ambient := k.process.ambient,
                                         bounding := k.process.bounding)
    ensures k.process.bounding - VISIBLE == old(k.process).bounding - VISIBLE
    ensures ok ==> SetsIn(k.process) == CapabilitySets({}, {}, {}) && VISIBLE * k.process.bounding == {}
    ensures NoFaults(k.machine) ==>
              (ok <==> (CAP_SETPCAP in old(k.process).bounding ==> CAP_SETPCAP in old(k.process).effective))
  {
    ghost var start := k.process.bounding;
    assert ElementsOf(drops) == (if CAP_SETPCAP in start then {CAP_SETPCAP} else {}) by {
      if CAP_SETPCAP in start { assert drops[0] == CAP_SETPCAP; }
    }
    assert VISIBLE * (start - ElementsOf(drops)) == VISIBLE * start - ElementsOf(drops) == {};
    ok := DropBounding(k, drops, {});
    if ok { ok := SetCapabilities(k, {}); }
  }

  lemma SeenIs(start: Bits, left: Bits)
    requires VISIBLE * left == start * {CAP_SETPCAP}
    ensures CAP_SETPCAP in left <==> CAP_SETPCAP in start
    ensures VISIBLE * left <= {CAP_SETPCAP}
  {
    assert CAP_SETPCAP in VISIBLE;
    assert CAP_SETPCAP in VISIBLE * left <==> CAP_SETPCAP in left;
  }

  /** Stage 2, carried out from what stage 1 left. */
  method RunStage2(k: Kernel, plan: Plan, ghost start: Process) returns (ok: bool)
    requires k.statusReads == 1 && Stage1Left(start, k.process, plan)
    modifies k`calls, k`process, k`statusReads
    ensures Shrunk(old(k.process), k.process)
    ensures ok ==>
              && Emptied(k.process) && k.process.filter == Some(plan.length)
              && old(k.calls) < k.calls && k.calls[|k.calls| - 1] == Filter(plan.length)
              && Quiet(old(k.calls), k.calls[..|k.calls| - 1])
    ensures ok ==> k.process.bounding - VISIBLE == start.bounding - VISIBLE
    ensures !ok ==> k.process.filter == start.filter
    ensures NoFaults(k.machine) ==>
              (ok <==> k.machine.threads.1 == 1 && k.machine.tsync == 0
                       && (CAP_SETPCAP in start.bounding ==> CAP_SETPCAP in start.permitted))
  {
    ok := SingleThread(k);
    if !ok { return; }
    SeenIs(start.bounding, k.process.bounding);
    ok := Empty(k, plan.stage2Drops);
    if !ok { return; }
    ok := FinalState(k);
    if !ok { return; }
    ghost var quiet := k.calls;
    var answer := k.InstallFilter(plan.length);
    assert k.calls[..|k.calls| - 1] == quiet;
    ok := answer == Ok(0);
  }

  // ---------------------------------------------------------------------------------------------- the seal

  /** When a faithful kernel lets the seal succeed, told from the start state alone. */
  predicate Sealable(m: Machine, p: Process, program: nat) {
    && m.threads == (1, 1) && IsRoot(m.userIds) && IsRoot(m.groupIds) && m.tsync == 0 && FilterLength(program).Some?
    && (VISIBLE * p.bounding - {CAP_SETPCAP} != {} ==> CAP_SETPCAP in p.effective)
    && (CAP_SETPCAP in p.bounding ==> CAP_SETPCAP in p.permitted)
  }

  lemma ShrunkTrans(p: Process, q: Process, r: Process)
    requires Shrunk(p, q) && Shrunk(q, r)
    ensures Shrunk(p, r)
  {
  }

  /** Both stages. For every kernel, whichever calls it fails or ignores: a success means a sealed process whose filter
      was the last call and the only one of its kind, and a failure leaves no filter; nothing grows. A faithful kernel
      lets it succeed exactly when the start is sealable. */
  method RunSeal(k: Kernel, program: nat) returns (ok: bool)
    requires k.statusReads == 0
    modifies k`calls, k`process, k`statusReads
    ensures ok ==>
              && Emptied(k.process) && k.process.filter == FilterLength(program) && k.process.filter.Some?
              && k.process.bounding == old(k.process).bounding - VISIBLE
              && old(k.calls) < k.calls && k.calls[|k.calls| - 1].Filter?
              && Quiet(old(k.calls), k.calls[..|k.calls| - 1])
    ensures !ok ==> k.process.filter == old(k.process).filter
    ensures Shrunk(old(k.process), k.process)
    ensures NoFaults(k.machine) ==> (ok <==> Sealable(k.machine, old(k.process), program))
  {
    ghost var start := k.process;
    var plan := RunStage1(k, program);
    if plan.None? { return false; }
    ghost var between, calls := k.process, k.calls;
    ok := RunStage2(k, plan.value, start);
    ShrunkTrans(start, between, k.process);
    if ok {
      assert k.process.bounding == VISIBLE * k.process.bounding + (k.process.bounding - VISIBLE);
      QuietTrans(old(k.calls), calls, k.calls[..|k.calls| - 1]);
    }
  }
}
