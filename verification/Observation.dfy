/** The five-step observation of the worker a BIND names, with the kernel free to spawn, exit and move processes between
    any two of its calls, and the byte parsers it reads the kernel through. */
module Observation {
  import opened Vocabulary
  import opened Frame
  import opened Ordered

  const LEAF_PROCS_LIMIT := 65536
  const STAT_LIMIT := 4096
  const MAX_PID := 2147483647
  const MAX_U64 := 0xFFFF_FFFF_FFFF_FFFF
  const ZERO: Byte := 48
  const OPEN_PAREN: Byte := 40
  const CLOSE_PAREN: Byte := 41

  // ---------------------------------------------------------------------------------------------- decimal numbers

  predicate IsDigitByte(b: Byte) {
    48 <= b <= 57
  }

  predicate AllDigits(s: Bytes) {
    forall i | 0 <= i < |s| :: IsDigitByte(s[i])
  }

  function Decimal(n: nat): (s: Bytes)
    ensures s != [] && AllDigits(s) && (s[0] == ZERO ==> n == 0 && |s| == 1)
  {
    if n < 10 then [48 + n] else Decimal(n / 10) + [48 + n % 10]
  }

  function FromDecimal(s: Bytes): nat
    requires AllDigits(s)
  {
    if s == [] then 0 else FromDecimal(s[..|s| - 1]) * 10 + (s[|s| - 1] - 48)
  }

  lemma {:induction false} DecimalBack(n: nat)
    ensures FromDecimal(Decimal(n)) == n
  {
    if n >= 10 {
      DecimalBack(n / 10);
      assert Decimal(n)[..|Decimal(n)| - 1] == Decimal(n / 10);
    } else {
      assert Decimal(n)[..0] == [];
    }
  }

  /** A number of decimal digits within a bound; an empty field is none. */
  function ParseNumber(s: Bytes, max: nat): Option<nat> {
    if s != [] && AllDigits(s) && FromDecimal(s) <= max then Some(FromDecimal(s)) else None
  }

  // ---------------------------------------------------------------------------------------------- splitting

  predicate Without(s: Bytes, b: Byte) {
    forall i | 0 <= i < |s| :: s[i] != b
  }

  /** The position of the first `b`, or the length. */
  function FirstOf(s: Bytes, b: Byte): (at: nat)
    ensures at <= |s| && Without(s[..at], b) && (at < |s| ==> s[at] == b)
  {
    if s == [] || s[0] == b then 0
    else
      var at := 1 + FirstOf(s[1..], b);
      assert s[..at] == [s[0]] + s[1..][..at - 1];
      at
  }

  function SplitOn(s: Bytes, b: Byte): (parts: seq<Bytes>)
    ensures parts != []
    decreases |s|
  {
    var at := FirstOf(s, b);
    if at == |s| then [s] else [s[..at]] + SplitOn(s[at + 1..], b)
  }

  function Join(parts: seq<Bytes>, b: Byte): Bytes
    requires parts != []
  {
    if |parts| == 1 then parts[0] else parts[0] + [b] + Join(parts[1..], b)
  }

  lemma {:induction false} FirstOfPrefix(x: Bytes, b: Byte, y: Bytes)
    requires Without(x, b)
    ensures FirstOf(x + [b] + y, b) == |x| && FirstOf(x, b) == |x|
  {
    if x == [] {
      assert x + [b] + y == [b] + y;
    } else {
      assert (x + [b] + y)[1..] == x[1..] + [b] + y;
      FirstOfPrefix(x[1..], b, y);
    }
  }

  lemma {:induction false} SplitJoins(parts: seq<Bytes>, b: Byte)
    requires parts != [] && forall i | 0 <= i < |parts| :: Without(parts[i], b)
    ensures SplitOn(Join(parts, b), b) == parts
  {
    if |parts| == 1 {
      FirstOfPrefix(parts[0], b, []);
    } else {
      var rest := Join(parts[1..], b);
      FirstOfPrefix(parts[0], b, rest);
      SplitJoins(parts[1..], b);
      var s := parts[0] + [b] + rest;
      assert s[..|parts[0]|] == parts[0] && s[|parts[0]| + 1..] == rest;
      assert parts == [parts[0]] + parts[1..];
    }
  }

  // ---------------------------------------------------------------------------------------------- the member file

  predicate IsCanonical(line: Bytes) {
    line != [] && AllDigits(line) && (line[0] == ZERO ==> |line| == 1)
  }

  function ParseLine(line: Bytes): Option<nat> {
    if IsCanonical(line) then ParseNumber(line, MAX_PID) else None
  }

  function ParseLines(lines: seq<Bytes>): Option<seq<nat>> {
    if lines == [] then Some([])
    else
      var (first, rest) := (ParseLine(lines[0]), ParseLines(lines[1..]));
      if first.Some? && rest.Some? then Some([first.value] + rest.value) else None
  }

  /** The thread-group ids of a member file. */
  function LeafPids(bytes: Bytes): Option<seq<nat>> {
    if |bytes| > LEAF_PROCS_LIMIT then None
    else if bytes == [] then Some([])
    else if bytes[|bytes| - 1] != LF then None
    else ParseLines(SplitOn(bytes[..|bytes| - 1], LF))
  }

  /** The parser's loop over the lines. */
  method ParseLeafProcs(bytes: Bytes) returns (pids: Option<seq<nat>>)
    ensures pids == LeafPids(bytes)
  {
    hide ParseLine, SplitOn;
    if |bytes| > LEAF_PROCS_LIMIT { return None; }
    if bytes == [] { return Some([]); }
    if bytes[|bytes| - 1] != LF { return None; }
    var lines := SplitOn(bytes[..|bytes| - 1], LF);
    var found: seq<nat> := [];
    assert lines[0..] == lines;
    assert ParseLines(lines).Some? ==> [] + ParseLines(lines).value == ParseLines(lines).value;
    for i := 0 to |lines|
      invariant ParseLines(lines)
                == (if ParseLines(lines[i..]).None? then None else Some(found + ParseLines(lines[i..]).value))
    {
      assert lines[i..] == [lines[i]] + lines[i + 1..];
      var pid := ParseLine(lines[i]);
      if pid.None? { return None; }
      ghost var rest := ParseLines(lines[i + 1..]);
      assert rest.Some? ==> found + ([pid.value] + rest.value) == found + [pid.value] + rest.value;
      found := found + [pid.value];
    }
    assert lines[|lines|..] == [];
    assert found + [] == found;
    return Some(found);
  }

  function LinesOf(pids: seq<nat>): seq<Bytes> {
    seq(|pids|, i requires 0 <= i < |pids| => Decimal(pids[i]))
  }

  /** A member file as the kernel prints it: one line per member. */
  function LeafBytes(pids: seq<nat>): Bytes {
    if pids == [] then [] else Join(LinesOf(pids), LF) + [LF]
  }

  lemma {:induction false} LinesBack(pids: seq<nat>)
    requires forall i | 0 <= i < |pids| :: pids[i] <= MAX_PID
    ensures ParseLines(LinesOf(pids)) == Some(pids)
  {
    if pids != [] {
      assert LinesOf(pids)[1..] == LinesOf(pids[1..]);
      LinesBack(pids[1..]);
      DecimalBack(pids[0]);
      assert pids == [pids[0]] + pids[1..];
    }
  }

  /** Within its bound, a printed member file parses to its members. */
  lemma LeafBack(pids: seq<nat>)
    requires forall i | 0 <= i < |pids| :: pids[i] <= MAX_PID
    ensures LeafPids(LeafBytes(pids)) == if |LeafBytes(pids)| > LEAF_PROCS_LIMIT then None else Some(pids)
  {
    if pids != [] {
      var lines := LinesOf(pids);
      var body := Join(lines, LF);
      assert LeafBytes(pids)[..|LeafBytes(pids)| - 1] == body;
      SplitJoins(lines, LF);
      LinesBack(pids);
    }
  }

  // ---------------------------------------------------------------------------------------------- the stat file

  /** The position of the last `b`. */
  function LastOf(s: Bytes, b: Byte): (at: Option<nat>)
    ensures at.Some? ==> at.value < |s| && s[at.value] == b && Without(s[at.value + 1..], b)
    ensures at.None? ==> Without(s, b)
  {
    if s == [] then None
    else if s[|s| - 1] == b then Some(|s| - 1)
    else
      var at := LastOf(s[..|s| - 1], b);
      assert at.Some? ==> s[at.value + 1..] == s[..|s| - 1][at.value + 1..] + [s[|s| - 1]];
      at
  }

  predicate IsField(f: Bytes) {
    f != [] && Without(f, LF)
  }

  /** The start time in what follows the command name. */
  function RestStart(rest: Bytes): Option<nat> {
    if |rest| < 2 || rest[|rest| - 1] != LF || rest[0] != SP then None
    else
      var fields := SplitOn(rest[1..|rest| - 1], SP);
      if (exists i | 0 <= i < |fields| :: !IsField(fields[i])) || |fields| < 20 then None
      else ParseNumber(fields[19], MAX_U64)
  }

  /** The start time of a stat file: the twentieth field after the last closing parenthesis. */
  function StatStart(bytes: Bytes): Option<nat> {
    var close := LastOf(bytes, CLOSE_PAREN);
    if |bytes| > STAT_LIMIT || close.None? || OPEN_PAREN !in bytes[..close.value] then None
    else RestStart(bytes[close.value + 1..])
  }

  /** The parser's loop over the fields. */
  method ParseStatStart(bytes: Bytes) returns (start: Option<nat>)
    ensures start == StatStart(bytes)
  {
    var close := LastOf(bytes, CLOSE_PAREN);
    if |bytes| > STAT_LIMIT || close.None? || OPEN_PAREN !in bytes[..close.value] { return None; }
    var rest := bytes[close.value + 1..];
    if |rest| < 2 || rest[|rest| - 1] != LF || rest[0] != SP { return None; }
    var fields := SplitOn(rest[1..|rest| - 1], SP);
    var found: Option<Bytes> := None;
    for i := 0 to |fields|
      invariant forall k | 0 <= k < i :: IsField(fields[k])
      invariant found == if i <= 19 then None else Some(fields[19])
    {
      if !IsField(fields[i]) { return None; }
      if i == 19 { found := Some(fields[i]); }
    }
    if found.None? { return None; }
    return ParseNumber(found.value, MAX_U64);
  }

  lemma {:induction false} LastOfSum(x: Bytes, b: Byte, y: Bytes)
    requires Without(y, b)
    ensures LastOf(x + [b] + y, b) == Some(|x|)
  {
    var s := x + [b] + y;
    if y != [] {
      assert s[..|s| - 1] == x + [b] + y[..|y| - 1];
      LastOfSum(x, b, y[..|y| - 1]);
    }
  }

  /** A stat file as the kernel prints it: whatever the command name holds, parentheses and spaces included. */
  function StatBytes(command: Bytes, fields: seq<Bytes>): Bytes
    requires fields != []
  {
    [OPEN_PAREN] + command + [CLOSE_PAREN] + [SP] + Join(fields, SP) + [LF]
  }

  predicate PlainFields(fields: seq<Bytes>) {
    forall i | 0 <= i < |fields| :: IsField(fields[i]) && Without(fields[i], SP) && Without(fields[i], CLOSE_PAREN)
  }

  lemma {:induction false} JoinWithout(fields: seq<Bytes>, b: Byte, sep: Byte)
    requires fields != [] && b != sep && forall i | 0 <= i < |fields| :: Without(fields[i], b)
    ensures Without(Join(fields, sep), b)
  {
    if |fields| > 1 { JoinWithout(fields[1..], b, sep); }
  }

  lemma RestIs(body: Bytes)
    requires body != []
    ensures var fields := SplitOn(body, SP);
            RestStart([SP] + body + [LF])
            == if (exists i | 0 <= i < |fields| :: !IsField(fields[i])) || |fields| < 20 then None
               else ParseNumber(fields[19], MAX_U64)
  {
    hide SplitOn, ParseNumber, IsField;
    var rest := [SP] + body + [LF];
    assert rest[1..|rest| - 1] == body;
  }

  /** What follows the last closing parenthesis decides. */
  lemma StatAfter(head: Bytes, body: Bytes)
    requires OPEN_PAREN in head && Without(body, CLOSE_PAREN) && |head| + |body| + 3 <= STAT_LIMIT && body != []
    ensures var fields := SplitOn(body, SP);
            StatStart(head + [CLOSE_PAREN] + ([SP] + body + [LF]))
            == if (exists i | 0 <= i < |fields| :: !IsField(fields[i])) || |fields| < 20 then None
              else ParseNumber(fields[19], MAX_U64)
  {
    hide SplitOn, ParseNumber, LastOf, IsField, RestStart;
    var tail := [SP] + body + [LF];
    var bytes := head + [CLOSE_PAREN] + tail;
    assert LastOf(bytes, CLOSE_PAREN) == Some(|head|) by { LastOfSum(head, CLOSE_PAREN, tail); }
    assert bytes[..|head|] == head && bytes[|head| + 1..] == tail;
    RestIs(body);
  }

  lemma JoinNotEmpty(fields: seq<Bytes>, sep: Byte)
    requires |fields| > 1
    ensures Join(fields, sep) != []
  {
  }

  /** Within its bound, a printed stat file gives its start time, for every command name and pid. */
  lemma StatBack(pid: Bytes, command: Bytes, fields: seq<Bytes>, start: nat)
    requires PlainFields(fields) && |fields| >= 20 && fields[19] == Decimal(start) && start <= MAX_U64
    requires |pid + StatBytes(command, fields)| <= STAT_LIMIT
    ensures StatStart(pid + StatBytes(command, fields)) == Some(start)
  {
    hide StatStart, SplitOn, Join;
    var body, head := Join(fields, SP), pid + [OPEN_PAREN] + command;
    assert pid + StatBytes(command, fields) == head + [CLOSE_PAREN] + ([SP] + body + [LF]);
    JoinWithout(fields, CLOSE_PAREN, SP);
    assert head[|pid|] == OPEN_PAREN;
    SplitJoins(fields, SP);
    JoinNotEmpty(fields, SP);
    StatAfter(head, body);
    DecimalBack(start);
  }

  // ---------------------------------------------------------------------------------------------- the kernel

  datatype Process = Process(start: nat, cgroup: string, serial: nat)

  /** The process table; a serial is given once and never again. */
  datatype Table = Table(processes: map<nat, Process>, serial: nat)

  datatype KernelEvent = Spawn(pid: nat, start: nat, cgroup: string) | Exit(pid: nat) | Move(pid: nat, cgroup: string)

  const PROBE_WORKER_LEAF := "/planeon.slice/planeon-capacity-broker.service/probe-worker"

  /** A kernel event; one the kernel refuses changes nothing. */
  function Apply(t: Table, e: KernelEvent): Table {
    match e
    case Spawn(pid, start, cgroup) =>
      if pid in t.processes || !(1 <= pid <= MAX_PID) then t
      else Table(t.processes[pid := Process(start, cgroup, t.serial + 1)], t.serial + 1)
    case Exit(pid) => Table(map p | p in t.processes && p != pid :: t.processes[p], t.serial)
    case Move(pid, cgroup) =>
      if pid !in t.processes then t else Table(t.processes[pid := t.processes[pid].(cgroup := cgroup)], t.serial)
  }

  predicate SerialsGiven(t: Table) {
    forall p | p in t.processes :: t.processes[p].serial <= t.serial && 1 <= p <= MAX_PID
  }

  /** One kernel event leads from one table to the next. */
  ghost predicate Follows(t: Table, u: Table) {
    exists e :: u == Apply(t, e)
  }

  ghost predicate StepAt(h: seq<Table>, i: nat)
    requires 0 < i < |h|
  {
    Follows(h[i - 1], h[i])
  }

  /** A history of the table, one kernel event at a time. */
  ghost predicate IsHistory(h: seq<Table>) {
    h != [] && SerialsGiven(h[0]) && forall i: nat | 0 < i < |h| :: StepAt(h, i)
  }

  /** At time `t` the process with that serial holds the pid. */
  predicate HeldAt(h: seq<Table>, t: nat, pid: nat, serial: nat) {
    t < |h| && pid in h[t].processes && h[t].processes[pid].serial == serial
  }

  /** One event: serials only grow, and a process keeps its serial and its start time while it holds its pid. */
  lemma EventKeeps(t: Table, u: Table)
    requires SerialsGiven(t) && Follows(t, u)
    ensures SerialsGiven(u) && t.serial <= u.serial
    ensures forall p | p in u.processes && u.processes[p].serial <= t.serial ::
              && p in t.processes && t.processes[p].serial == u.processes[p].serial
              && t.processes[p].start == u.processes[p].start
  {
    var e :| u == Apply(t, e);
  }

  lemma {:induction false} HistorySerials(h: seq<Table>, t: nat, u: nat)
    requires IsHistory(h) && t <= u < |h|
    ensures SerialsGiven(h[t]) && SerialsGiven(h[u]) && h[t].serial <= h[u].serial
    decreases u
  {
    if u > 0 {
      HistorySerials(h, if t < u then t else u - 1, u - 1);
      assert StepAt(h, u);
      EventKeeps(h[u - 1], h[u]);
    }
  }

  /** A process that holds its pid now, with a serial given earlier, held it at every time since, with one start
      time. */
  lemma {:induction false} HeldSince(h: seq<Table>, t: nat, u: nat, pid: nat, serial: nat)
    requires IsHistory(h) && t <= u && HeldAt(h, u, pid, serial) && serial <= h[t].serial
    ensures HeldAt(h, t, pid, serial) && h[t].processes[pid].start == h[u].processes[pid].start
    decreases u
  {
    if t < u {
      HistorySerials(h, t, u - 1);
      assert StepAt(h, u);
      EventKeeps(h[u - 1], h[u]);
      HeldSince(h, t, u - 1, pid, serial);
    }
  }

  /** If one process holds a pid at two times, it holds it at every time between, with one start time: the pid was not
      reused under it. */
  lemma OneHolder(h: seq<Table>, t: nat, u: nat, pid: nat, serial: nat)
    requires IsHistory(h) && t <= u && HeldAt(h, t, pid, serial) && HeldAt(h, u, pid, serial)
    ensures forall v | t <= v <= u ::
              HeldAt(h, v, pid, serial) && h[v].processes[pid].start == h[t].processes[pid].start
  {
    HistorySerials(h, t, t);
    HeldSince(h, t, u, pid, serial);
    forall v | t <= v <= u
      ensures HeldAt(h, v, pid, serial) && h[v].processes[pid].start == h[t].processes[pid].start
    {
      HistorySerials(h, t, v);
      HeldSince(h, v, u, pid, serial);
    }
  }

  // ---------------------------------------------------------------------------------------------- kernel calls

  datatype KernelFail = Os(errno: int) | TooLong | NoErrno

  const ENOENT := 2
  const ESRCH := 3

  datatype Call<T> = Got(value: T) | Fails(fail: KernelFail)

  datatype Pidfd = Pidfd(pid: nat, serial: nat)

  datatype Step = Membership | PidfdOpen | StartTime | Recheck | Liveness

  datatype Cause = Unreadable | NotListed | Gone | OpenFailed | StartDiffers | PollFailed | Exited

  datatype Observed = Observed | NotObserved(step: Step, cause: Cause)

  /** The members of the worker leaf. */
  function LeafMembers(t: Table): set<nat> {
    set p | p in t.processes && t.processes[p].cgroup == PROBE_WORKER_LEAF
  }

  /** The fields of a stat file around the start time, and the command name: whatever the kernel prints there. */
  datatype Print = Print(command: Bytes, before: seq<Bytes>, after: seq<Bytes>)

  predicate GoodPrint(p: Print) {
    |p.before| == 19 && PlainFields(p.before) && PlainFields(p.after)
  }

  function StatOf(pid: nat, start: nat, p: Print): Bytes {
    Decimal(pid) + [SP] + StatBytes(p.command, p.before + [Decimal(start)] + p.after)
  }

  lemma DecimalPlain(n: nat)
    ensures IsField(Decimal(n)) && Without(Decimal(n), SP) && Without(Decimal(n), CLOSE_PAREN)
  {
  }

  lemma StatTooLong(bytes: Bytes)
    requires |bytes| > STAT_LIMIT
    ensures StatStart(bytes) == None
  {
  }

  lemma StatTooBig(pid: Bytes, command: Bytes, fields: seq<Bytes>, start: nat)
    requires PlainFields(fields) && |fields| >= 20 && fields[19] == Decimal(start) && start > MAX_U64
    requires |pid + StatBytes(command, fields)| <= STAT_LIMIT
    ensures StatStart(pid + StatBytes(command, fields)) == None
  {
    hide StatStart, SplitOn, Join;
    var body, head := Join(fields, SP), pid + [OPEN_PAREN] + command;
    assert pid + StatBytes(command, fields) == head + [CLOSE_PAREN] + ([SP] + body + [LF]);
    JoinWithout(fields, CLOSE_PAREN, SP);
    assert head[|pid|] == OPEN_PAREN;
    SplitJoins(fields, SP);
    JoinNotEmpty(fields, SP);
    StatAfter(head, body);
    DecimalBack(start);
  }

  lemma StatOfBack(pid: nat, start: nat, p: Print)
    requires GoodPrint(p)
    ensures StatStart(StatOf(pid, start, p)).Some? ==> StatStart(StatOf(pid, start, p)) == Some(start)
    ensures |StatOf(pid, start, p)| <= STAT_LIMIT && start <= MAX_U64 ==>
              StatStart(StatOf(pid, start, p)) == Some(start)
  {
    hide StatStart, StatBytes;
    var fields := p.before + [Decimal(start)] + p.after;
    DecimalPlain(start);
    assert PlainFields(fields);
    if |StatOf(pid, start, p)| <= STAT_LIMIT {
      if start <= MAX_U64 {
        StatBack(Decimal(pid) + [SP], p.command, fields, start);
      } else {
        StatTooBig(Decimal(pid) + [SP], p.command, fields, start);
      }
    } else {
      StatTooLong(StatOf(pid, start, p));
    }
  }

  // ---------------------------------------------------------------------------------------------- the observation

  /** Steps 1 and 4 on what the member file read returned: no cause when the pid is listed. */
  function Listing(read: Call<Bytes>, pid: int): Option<Cause> {
    if read.Fails? || LeafPids(read.value).None? then Some(Unreadable)
    else if exists p | p in LeafPids(read.value).value :: p != 0 && p == pid then None
    else Some(NotListed)
  }

  /** What the five answers come to; an answer after the first that stops is not asked for. */
  datatype Answers = Answers(leaf: Call<Bytes>, pidfd: Call<Pidfd>, stat: Call<Bytes>, leafAgain: Call<Bytes>,
                             alive: Call<bool>)

  function Decide(pid: int, startTicks: int, a: Answers): Observed {
    if Listing(a.leaf, pid).Some? then NotObserved(Membership, Listing(a.leaf, pid).value)
    else if a.pidfd.Fails? then NotObserved(PidfdOpen, if a.pidfd.fail == Os(ESRCH) then Gone else OpenFailed)
    else if a.stat.Fails? then
      NotObserved(StartTime, if a.stat.fail == Os(ENOENT) || a.stat.fail == Os(ESRCH) then Gone else Unreadable)
    else if StatStart(a.stat.value).None? then NotObserved(StartTime, Unreadable)
    else if StatStart(a.stat.value).value != startTicks then NotObserved(StartTime, StartDiffers)
    else if Listing(a.leafAgain, pid).Some? then NotObserved(Recheck, Listing(a.leafAgain, pid).value)
    else if a.alive.Fails? then NotObserved(Liveness, PollFailed)
    else if !a.alive.value then NotObserved(Liveness, Exited)
    else Observed
  }

  /** What the environment does during one observation: which calls fail, what else happens in the kernel after each of
      the first four calls, and what the stat file prints around the start time. */
  datatype Weather = Weather(failures: map<Step, KernelFail>, races: map<Step, seq<KernelEvent>>, shown: Print)

  function FailureAt(w: Weather, s: Step): Option<KernelFail> {
    if s in w.failures then Some(w.failures[s]) else None
  }

  function RacesAfter(w: Weather, s: Step): seq<KernelEvent> {
    if s in w.races then w.races[s] else []
  }

  /** What a read of the member file shows of the table. */
  ghost predicate ShowsLeaf(t: Table, failure: Option<KernelFail>, read: Call<Bytes>) {
    && (failure.Some? ==> read == Fails(failure.value))
    && (failure.None? ==>
          && read.Got? && (forall p: int :: Listing(read, p).None? ==> p in LeafMembers(t))
          && (|read.value| <= LEAF_PROCS_LIMIT ==> forall p: int :: p in LeafMembers(t) ==> Listing(read, p).None?))
  }

  predicate ShowsPidfd(t: Table, pid: nat, failure: Option<KernelFail>, opened_: Call<Pidfd>) {
    opened_ == if failure.Some? then Fails(failure.value)
               else if pid in t.processes then Got(Pidfd(pid, t.processes[pid].serial)) else Fails(Os(ESRCH))
  }

  predicate ShowsStat(t: Table, pid: nat, shown: Print, failure: Option<KernelFail>, read: Call<Bytes>) {
    read == if failure.Some? then Fails(failure.value)
            else if pid in t.processes then Got(StatOf(pid, t.processes[pid].start, shown)) else Fails(Os(ENOENT))
  }

  predicate ShowsPoll(t: Table, pidfd: Pidfd, failure: Option<KernelFail>, alive: Call<bool>) {
    alive == if failure.Some? then Fails(failure.value)
             else Got(pidfd.pid in t.processes && t.processes[pidfd.pid].serial == pidfd.serial)
  }

  class Kernel {
    var table: Table
    ghost var history: seq<Table>

    ghost predicate Valid()
      reads this
    {
      IsHistory(history) && history[|history| - 1] == table
    }

    constructor ()
      ensures Valid() && table == Table(map[], 0)
    {
      table := Table(map[], 0);
      history := [Table(map[], 0)];
    }

    method Happens(e: KernelEvent)
      requires Valid()
      modifies this
      ensures Valid() && table == Apply(old(table), e) && history == old(history) + [table]
    {
      table := Apply(table, e);
      ghost var h := history + [table];
      forall i: nat | 0 < i < |h|
        ensures StepAt(h, i)
      {
        if i < |history| { assert StepAt(history, i); }
      }
      history := h;
    }

    method Race(events: seq<KernelEvent>)
      requires Valid()
      modifies this
      ensures Valid() && old(history) <= history
    {
      for i := 0 to |events|
        invariant Valid() && old(history) <= history
      {
        Happens(events[i]);
      }
    }

    /** The worker leaf's member file as it is now. */
    method ReadLeaf(failure: Option<KernelFail>) returns (read: Call<Bytes>)
      requires Valid()
      ensures ShowsLeaf(table, failure, read)
    {
      if failure.Some? { return Fails(failure.value); }
      var members := InOrder(LeafMembers(table));
      HistorySerials(history, |history| - 1, |history| - 1);
      assert forall i | 0 <= i < |members| :: members[i] in members && members[i] in LeafMembers(table);
      LeafBack(members);
      read := Got(LeafBytes(members));
    }

    method OpenPidfd(pid: nat, failure: Option<KernelFail>) returns (opened_: Call<Pidfd>)
      ensures ShowsPidfd(table, pid, failure, opened_)
    {
      if failure.Some? { return Fails(failure.value); }
      opened_ := if pid in table.processes then Got(Pidfd(pid, table.processes[pid].serial)) else Fails(Os(ESRCH));
    }

    method ReadStat(pid: nat, shown: Print, failure: Option<KernelFail>) returns (read: Call<Bytes>)
      ensures ShowsStat(table, pid, shown, failure, read)
    {
      if failure.Some? { return Fails(failure.value); }
      read := if pid in table.processes then Got(StatOf(pid, table.processes[pid].start, shown)) else Fails(Os(ENOENT));
    }

    /** A zero-timeout poll of a pidfd: whether the process it was opened on still holds its pid. */
    method Poll(pidfd: Pidfd, failure: Option<KernelFail>) returns (alive: Call<bool>)
      ensures ShowsPoll(table, pidfd, failure, alive)
    {
      if failure.Some? { return Fails(failure.value); }
      alive := Got(pidfd.pid in table.processes && table.processes[pidfd.pid].serial == pidfd.serial);
    }

    /** Time now, as a position of the history. */
    ghost function Now(): nat
      requires Valid()
      reads this
    {
      |history| - 1
    }
  }

  /** The process with that serial held the pid, with that start time, throughout. */
  ghost predicate HeldThroughout(h: seq<Table>, t: nat, u: nat, pid: int, serial: nat, startTicks: int) {
    forall v | t <= v <= u :: pid >= 0 && HeldAt(h, v, pid, serial) && h[v].processes[pid].start == startTicks
  }

  /** One process held the pid from the opening of the pidfd to the final poll, started at the given time, and was in
      the worker leaf at the recheck. */
  ghost predicate WasOneWorker(h: seq<Table>, opened_: nat, recheck: nat, poll: nat, pid: int, startTicks: int) {
    && opened_ <= recheck <= poll < |h|
    && (exists serial: nat :: HeldThroughout(h, opened_, poll, pid, serial, startTicks))
    && pid in h[recheck].processes && h[recheck].processes[pid].cgroup == PROBE_WORKER_LEAF
  }

  lemma OneWorker(h: seq<Table>, opened_: nat, stat: nat, recheck: nat, poll: nat, pid: nat, serial: nat,
                  startTicks: int)
    requires IsHistory(h) && opened_ <= stat <= recheck <= poll && HeldAt(h, opened_, pid, serial)
             && HeldAt(h, poll, pid, serial)
    requires pid in h[stat].processes && h[stat].processes[pid].start == startTicks && pid in LeafMembers(h[recheck])
    ensures WasOneWorker(h, opened_, recheck, poll, pid, startTicks)
  {
    OneHolder(h, opened_, poll, pid, serial);
    assert HeldAt(h, stat, pid, serial) && HeldAt(h, recheck, pid, serial);
    assert HeldThroughout(h, opened_, poll, pid, serial, startTicks);
  }

  /** When the five calls were made, as positions of the history; a call not made is put at the last one made. */
  datatype Times = Times(leaf: nat, pidfd: nat, stat: nat, leafAgain: nat, alive: nat)

  ghost predicate SawRest(h: seq<Table>, at: Times, w: Weather, pid: int, a: Answers)
    requires at.leafAgain <= at.alive < |h| && a.pidfd.Got?
  {
    && ShowsLeaf(h[at.leafAgain], FailureAt(w, Recheck), a.leafAgain)
    && (Listing(a.leafAgain, pid).None? ==> ShowsPoll(h[at.alive], a.pidfd.value, FailureAt(w, Liveness), a.alive))
  }

  /** Every call that was made answered what the kernel showed at its time. */
  ghost predicate Saw(h: seq<Table>, at: Times, w: Weather, pid: int, startTicks: int, a: Answers) {
    && at.leaf <= at.pidfd <= at.stat <= at.leafAgain <= at.alive < |h|
    && ShowsLeaf(h[at.leaf], FailureAt(w, Membership), a.leaf)
    && (Listing(a.leaf, pid).None? ==>
          && pid >= 0 && ShowsPidfd(h[at.pidfd], pid, FailureAt(w, PidfdOpen), a.pidfd)
          && (a.pidfd.Got? ==>
                && ShowsStat(h[at.stat], pid, w.shown, FailureAt(w, StartTime), a.stat)
                && (a.stat.Got? && StatStart(a.stat.value) == Some(startTicks) ==> SawRest(h, at, w, pid, a))))
  }

  /** Every file that was read was within its bound. */
  predicate Fits(a: Answers) {
    && (a.leaf.Got? ==> |a.leaf.value| <= LEAF_PROCS_LIMIT)
    && (a.leafAgain.Got? ==> |a.leafAgain.value| <= LEAF_PROCS_LIMIT)
    && (a.stat.Got? ==> |a.stat.value| <= STAT_LIMIT)
  }

  ghost predicate NothingFails(w: Weather) {
    forall s :: s !in w.failures
  }

  lemma ListedFits(read: Call<Bytes>, pid: int)
    requires Listing(read, pid).None?
    ensures read.Got? && |read.value| <= LEAF_PROCS_LIMIT
  {
  }

  lemma StartFits(bytes: Bytes)
    requires StatStart(bytes).Some?
    ensures |bytes| <= STAT_LIMIT && StatStart(bytes).value <= MAX_U64
  {
    hide SplitOn, LastOf, FromDecimal;
  }

  lemma NoStepFails(w: Weather)
    requires FailureAt(w, Membership).None? && FailureAt(w, PidfdOpen).None? && FailureAt(w, StartTime).None?
    requires FailureAt(w, Recheck).None? && FailureAt(w, Liveness).None?
    ensures NothingFails(w)
  {
    forall s
      ensures s !in w.failures
    {
      match s case Membership => case PidfdOpen => case StartTime => case Recheck => case Liveness =>
    }
  }

  lemma ObservedIsWorker(h: seq<Table>, at: Times, w: Weather, pid: int, startTicks: int, a: Answers)
    requires IsHistory(h) && GoodPrint(w.shown) && Saw(h, at, w, pid, startTicks, a)
             && Decide(pid, startTicks, a) == Observed
    ensures NothingFails(w) && Fits(a) && startTicks <= MAX_U64 && pid in LeafMembers(h[at.leaf])
    ensures WasOneWorker(h, at.pidfd, at.leafAgain, at.alive, pid, startTicks)
  {
    hide LeafPids, StatStart, StatOf, WasOneWorker, IsHistory, GoodPrint;
    ListedFits(a.leaf, pid);
    ListedFits(a.leafAgain, pid);
    StartFits(a.stat.value);
    StatOfBack(pid, h[at.stat].processes[pid].start, w.shown);
    OneWorker(h, at.pidfd, at.stat, at.leafAgain, at.alive, pid, a.pidfd.value.serial, startTicks);
    NoStepFails(w);
  }

  lemma WorkerIsObserved(h: seq<Table>, at: Times, w: Weather, pid: int, startTicks: int, a: Answers)
    requires GoodPrint(w.shown) && Saw(h, at, w, pid, startTicks, a) && NothingFails(w) && Fits(a)
             && startTicks <= MAX_U64
    requires pid in LeafMembers(h[at.leaf]) && WasOneWorker(h, at.pidfd, at.leafAgain, at.alive, pid, startTicks)
    ensures Decide(pid, startTicks, a) == Observed
  {
    hide LeafPids, StatStart, StatOf, GoodPrint;
    var serial: nat :| HeldThroughout(h, at.pidfd, at.alive, pid, serial, startTicks);
    assert HeldAt(h, at.pidfd, pid, serial) && HeldAt(h, at.stat, pid, serial) && HeldAt(h, at.alive, pid, serial);
    assert h[at.stat].processes[pid].start == startTicks;
    StatOfBack(pid, startTicks, w.shown);
  }

  /** Observed if and only if nothing failed, the files were within their bounds, the worker leaf listed the pid at
      first, and one process started at the given time held it from the opening of the pidfd to the poll, in the leaf at
      the recheck. */
  lemma ObservedExactly(h: seq<Table>, at: Times, w: Weather, pid: int, startTicks: int, a: Answers)
    requires IsHistory(h) && GoodPrint(w.shown) && Saw(h, at, w, pid, startTicks, a)
    ensures Decide(pid, startTicks, a) == Observed <==>
              && NothingFails(w) && Fits(a) && startTicks <= MAX_U64 && pid in LeafMembers(h[at.leaf])
              && WasOneWorker(h, at.pidfd, at.leafAgain, at.alive, pid, startTicks)
  {
    hide Decide, WasOneWorker, IsHistory, GoodPrint, NothingFails, Fits, LeafMembers, ShowsLeaf, SawRest, StatStart,
         Listing;
    if Decide(pid, startTicks, a) == Observed { ObservedIsWorker(h, at, w, pid, startTicks, a); }
    if NothingFails(w) && Fits(a) && startTicks <= MAX_U64 && pid in LeafMembers(h[at.leaf])
       && WasOneWorker(h, at.pidfd, at.leafAgain, at.alive, pid, startTicks)
    {
      WorkerIsObserved(h, at, w, pid, startTicks, a);
    }
  }

  lemma ListedIsPid(read: Call<Bytes>, pid: int)
    requires Listing(read, pid).None?
    ensures pid >= 0
  {
  }

  const NOT_ASKED := Answers(Fails(NoErrno), Fails(NoErrno), Fails(NoErrno), Fails(NoErrno), Fails(NoErrno))

  /** The five calls, each read afresh, with the kernel free between any two of them; the first answer that stops
      decides. */
  method Ask(kernel: Kernel, pid: int, startTicks: int, w: Weather)
    returns (observed: Observed, ghost a: Answers, ghost at: Times)
    requires kernel.Valid()
    modifies kernel
    ensures kernel.Valid() && old(kernel.history) <= kernel.history && at.leaf == |old(kernel.history)| - 1
    ensures observed == Decide(pid, startTicks, a) && Saw(kernel.history, at, w, pid, startTicks, a)
  {
    hide LeafPids, StatStart, StatOf, IsHistory, Apply, Listing, ShowsLeaf, ShowsPidfd, ShowsStat, ShowsPoll;
    var leaf := kernel.ReadLeaf(FailureAt(w, Membership));
    a, at := NOT_ASKED.(leaf := leaf), Times(kernel.Now(), kernel.Now(), kernel.Now(), kernel.Now(), kernel.Now());
    if Listing(leaf, pid).Some? { return NotObserved(Membership, Listing(leaf, pid).value), a, at; }
    ListedIsPid(leaf, pid);
    kernel.Race(RacesAfter(w, Membership));

    var pidfd := kernel.OpenPidfd(pid, FailureAt(w, PidfdOpen));
    a, at := a.(pidfd := pidfd), Times(at.leaf, kernel.Now(), kernel.Now(), kernel.Now(), kernel.Now());
    if pidfd.Fails? { return NotObserved(PidfdOpen, if pidfd.fail == Os(ESRCH) then Gone else OpenFailed), a, at; }
    kernel.Race(RacesAfter(w, PidfdOpen));

    var stat := kernel.ReadStat(pid, w.shown, FailureAt(w, StartTime));
    a, at := a.(stat := stat), Times(at.leaf, at.pidfd, kernel.Now(), kernel.Now(), kernel.Now());
    if stat.Fails? {
      return NotObserved(StartTime, if stat.fail == Os(ENOENT) || stat.fail == Os(ESRCH) then Gone else Unreadable), a,
             at;
    }
    var start := ParseStatStart(stat.value);
    if start.None? { return NotObserved(StartTime, Unreadable), a, at; }
    if start.value != startTicks { return NotObserved(StartTime, StartDiffers), a, at; }
    kernel.Race(RacesAfter(w, StartTime));

    var again := kernel.ReadLeaf(FailureAt(w, Recheck));
    a, at := a.(leafAgain := again), Times(at.leaf, at.pidfd, at.stat, kernel.Now(), kernel.Now());
    if Listing(again, pid).Some? { return NotObserved(Recheck, Listing(again, pid).value), a, at; }
    kernel.Race(RacesAfter(w, Recheck));

    var alive := kernel.Poll(pidfd.value, FailureAt(w, Liveness));
    a, at := a.(alive := alive), at.(alive := kernel.Now());
    if alive.Fails? { return NotObserved(Liveness, PollFailed), a, at; }
    if !alive.value { return NotObserved(Liveness, Exited), a, at; }
    observed := Observed;
  }

  /** The observation: it answers what its calls came to, and Observed exactly when one process was the worker
      throughout. */
  method Observe(kernel: Kernel, pid: int, startTicks: int, w: Weather)
    returns (observed: Observed, ghost a: Answers, ghost at: Times)
    requires kernel.Valid() && GoodPrint(w.shown)
    modifies kernel
    ensures kernel.Valid() && old(kernel.history) <= kernel.history && at.alive < |kernel.history|
            && observed == Decide(pid, startTicks, a)
    ensures observed == Observed <==>
              && NothingFails(w) && Fits(a) && startTicks <= MAX_U64 && pid in LeafMembers(old(kernel.table))
              && WasOneWorker(kernel.history, at.pidfd, at.leafAgain, at.alive, pid, startTicks)
  {
    hide Decide, WasOneWorker, GoodPrint, NothingFails, Fits, LeafMembers, ShowsLeaf, SawRest, StatStart, Listing;
    observed, a, at := Ask(kernel, pid, startTicks, w);
    ObservedExactly(kernel.history, at, w, pid, startTicks, a);
  }
}
