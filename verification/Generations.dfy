/** Generations opened one after another on the same directories, each living through any number of processes: what each
    opening reads from the journal files before it, and that no file ever says that something was bound twice, within a
    generation or between generations, whatever the storage did and wherever the processes died. */
module Generations {
  import opened Vocabulary
  import opened Journal
  import opened GateModel
  import opened GateInvariant
  import opened GateEvents
  import opened PolicyModel
  import opened PolicyInvariant
  import opened PolicyRuns
  import opened Drift
  import opened Resting
  import opened Lives

  // ---------------------------------------------------------------------------------------------- configurations

  /** What a configuration is refused without: every listed manifest is in the profile, and across all runs no manifest
      digest and no manifest identity is listed twice. `ordered` only reorders. */
  ghost predicate ValidConfig(c: Config) {
    && (forall s: seq<string>, x :: x in c.ordered(s) <==> x in s)
    && (forall n, d | n in c.runs && d in c.runs[n].manifests :: d in c.manifests)
    && (forall n, m, d | n in c.runs && m in c.runs && d in c.runs[n].manifests && d in c.runs[m].manifests :: n == m)
    && (forall n, m, d, e | n in c.runs && m in c.runs && d in c.runs[n].manifests && e in c.runs[m].manifests
                            && c.manifests[d] == c.manifests[e] :: d == e)
  }

  // ---------------------------------------------------------------------------------------------- bindings

  const NO_BINDINGS := PriorBindings({}, {}, {}, {})

  function Elements(s: seq<string>): set<string> {
    set x | x in s
  }

  function AddBind(prior: PriorBindings, r: Record): PriorBindings
    requires r.Bind?
  {
    PriorBindings(prior.executionIds + {r.executionId}, prior.runNonces + {r.runNonce},
                  prior.manifestDigests + Elements(r.manifestDigests),
                    prior.manifestIdentities + Elements(r.manifestIdentities))
  }

  /** Adds every BIND record of a journal. */
  function AddBindings(prior: PriorBindings, entries: seq<Entry>): PriorBindings {
    if entries == [] then prior
    else
      var before, last := AddBindings(prior, entries[..|entries| - 1]), entries[|entries| - 1];
      if last.Rec? && last.record.Bind? then AddBind(before, last.record) else before
  }

  function Unite(a: PriorBindings, b: PriorBindings): PriorBindings {
    PriorBindings(a.executionIds + b.executionIds, a.runNonces + b.runNonces, a.manifestDigests + b.manifestDigests,
                  a.manifestIdentities + b.manifestIdentities)
  }

  predicate Holds(prior: PriorBindings, r: Record)
    requires r.Bind?
  {
    && r.executionId in prior.executionIds && r.runNonce in prior.runNonces
    && Elements(r.manifestDigests) <= prior.manifestDigests
    && Elements(r.manifestIdentities) <= prior.manifestIdentities
  }

  predicate Within(a: PriorBindings, b: PriorBindings) {
    && a.executionIds <= b.executionIds && a.runNonces <= b.runNonces && a.manifestDigests <= b.manifestDigests
    && a.manifestIdentities <= b.manifestIdentities
  }

  predicate AllBinds(binds: seq<Record>) {
    forall k | 0 <= k < |binds| :: binds[k].Bind?
  }

  lemma {:induction false} BindsAreBinds(entries: seq<Entry>)
    ensures AllBinds(AccountOf(entries).binds)
  {
    if entries != [] { BindsAreBinds(entries[..|entries| - 1]); }
  }

  lemma {:induction false} AddingGrows(prior: PriorBindings, entries: seq<Entry>)
    ensures Within(prior, AddBindings(prior, entries))
  {
    if entries != [] { AddingGrows(prior, entries[..|entries| - 1]); }
  }

  /** Every BIND record of the journal is held. */
  lemma {:induction false} AddingHolds(prior: PriorBindings, entries: seq<Entry>, k: nat)
    requires k < |AccountOf(entries).binds|
    ensures AccountOf(entries).binds[k].Bind? && Holds(AddBindings(prior, entries), AccountOf(entries).binds[k])
  {
    var before, last := entries[..|entries| - 1], entries[|entries| - 1];
    BindsAreBinds(entries);
    if k < |AccountOf(before).binds| {
      AddingHolds(prior, before, k);
      assert AccountOf(entries).binds[k] == AccountOf(before).binds[k];
    }
  }

  // ---------------------------------------------------------------------------------------------- lawful binds

  /** What BIND_EXECUTION checked before it recorded `r`, the records before it being `earlier`. */
  ghost predicate LawfulBind(c: Config, earlier: seq<Record>, r: Record) {
    && r.Bind? && AllBinds(earlier)
    && r.executionId !in c.prior.executionIds && r.runNonce !in c.prior.runNonces && r.runNonce in c.runs
    && (forall k | 0 <= k < |earlier| :: earlier[k].executionId != r.executionId && earlier[k].runNonce != r.runNonce)
    && (forall d | d in r.manifestDigests :: d in c.runs[r.runNonce].manifests && d !in c.prior.manifestDigests)
    && (forall x | x in r.manifestIdentities ::
          x !in c.prior.manifestIdentities
          && exists d :: d in c.runs[r.runNonce].manifests && d in c.manifests && c.manifests[d] == x)
  }

  ghost predicate BindsLawful(c: Config, binds: seq<Record>) {
    forall k | 0 <= k < |binds| :: LawfulBind(c, binds[..k], binds[k])
  }

  /** The ids and nonces the gate remembers are those of its BIND records. */
  lemma {:induction false} BindsNamed(entries: seq<Entry>, k: nat)
    requires k < |AccountOf(entries).binds|
    ensures var b := AccountOf(entries).binds[k];
            b.Bind? && b.executionId in Derive(entries).boundIds && b.runNonce in Derive(entries).boundNonces
  {
    var before, last := entries[..|entries| - 1], entries[|entries| - 1];
    if k < |AccountOf(before).binds| {
      BindsNamed(before, k);
      assert AccountOf(entries).binds[k] == AccountOf(before).binds[k];
    }
  }

  lemma {:induction false} IdentitiesListed(c: Config, digests: seq<string>, x: string)
    requires x in Identities(c, digests)
    ensures exists d :: d in digests && d in c.manifests && c.manifests[d] == x
  {
    if digests[0] in c.manifests && c.manifests[digests[0]] == x {
      assert digests[0] in digests;
    } else {
      IdentitiesListed(c, digests[1..], x);
      var d :| d in digests[1..] && d in c.manifests && c.manifests[d] == x;
      assert d in digests;
    }
  }

  lemma SoundDerives(g: Gate)
    requires Sound(g)
    ensures Derive(g.stores.entries).boundIds == g.boundIds && Derive(g.stores.entries).boundNonces == g.boundNonces
  {
  }

  lemma CheckedBindIsLawful(c: Config, g: Gate, p: BindRequest, observed: bool)
    requires ValidConfig(c) && Sound(g) && BindCheck(c, g, p, observed).None? && p.runNonce in c.runs
    ensures LawfulBind(c, BindsIn(g), BindRecord(c, p))
  {
    var entries := g.stores.entries;
    var r := BindRecord(c, p);
    BindsAreBinds(entries);
    assert Derive(entries).boundIds == g.boundIds
           && Derive(entries).boundNonces == g.boundNonces by { SoundDerives(g); }
    forall k | 0 <= k < |BindsIn(g)|
      ensures BindsIn(g)[k].executionId != r.executionId && BindsIn(g)[k].runNonce != r.runNonce
    {
      BindsNamed(entries, k);
    }
    var manifests := c.runs[p.runNonce].manifests;
    forall x | x in r.manifestIdentities
      ensures x !in c.prior.manifestIdentities && exists d :: d in manifests && d in c.manifests && c.manifests[d] == x
    {
      IdentitiesListed(c, c.ordered(manifests), x);
    }
  }

  lemma LawfulAppended(c: Config, binds: seq<Record>, r: Record)
    requires BindsLawful(c, binds) && LawfulBind(c, binds, r)
    ensures BindsLawful(c, binds + [r])
  {
    hide LawfulBind;
    forall k | 0 <= k < |binds + [r]|
      ensures LawfulBind(c, (binds + [r])[..k], (binds + [r])[k])
    {
      assert (binds + [r])[..k] == if k < |binds| then binds[..k] else binds;
    }
  }

  lemma LawfulPrefix(c: Config, binds: seq<Record>, fewer: seq<Record>)
    requires BindsLawful(c, binds) && fewer <= binds
    ensures BindsLawful(c, fewer)
  {
    hide LawfulBind;
    forall k | 0 <= k < |fewer|
      ensures LawfulBind(c, fewer[..k], fewer[k])
    {
      assert fewer[..k] == binds[..k];
    }
  }

  /** Two BIND records share nothing. */
  ghost predicate Apart(a: Record, b: Record) {
    && a.Bind? && b.Bind? && a.executionId != b.executionId && a.runNonce != b.runNonce
    && Elements(a.manifestDigests) !! Elements(b.manifestDigests)
    && Elements(a.manifestIdentities) !! Elements(b.manifestIdentities)
  }

  ghost predicate Lists(c: Config, n: string, x: string) {
    n in c.runs && exists d :: d in c.runs[n].manifests && d in c.manifests && c.manifests[d] == x
  }

  lemma IdentityNamesRun(c: Config, n: string, m: string, x: string)
    requires ValidConfig(c) && Lists(c, n, x) && Lists(c, m, x)
    ensures n == m
  {
    var d :| d in c.runs[n].manifests && d in c.manifests && c.manifests[d] == x;
    var e :| e in c.runs[m].manifests && e in c.manifests && c.manifests[e] == x;
    assert d == e;
  }

  lemma ApartWithin(c: Config, binds: seq<Record>, k: nat, l: nat)
    requires ValidConfig(c) && BindsLawful(c, binds) && k < l < |binds|
    ensures Apart(binds[k], binds[l])
  {
    var a, b := binds[k], binds[l];
    assert LawfulBind(c, binds[..k], a) && LawfulBind(c, binds[..l], b);
    assert binds[..l][k] == a;
    forall x | x in a.manifestIdentities
      ensures x !in b.manifestIdentities
    {
      assert Lists(c, a.runNonce, x);
      if x in b.manifestIdentities { IdentityNamesRun(c, a.runNonce, b.runNonce, x); }
    }
  }

  lemma ApartFromHeld(c: Config, earlier: seq<Record>, a: Record, b: Record)
    requires LawfulBind(c, earlier, b) && a.Bind? && Holds(c.prior, a)
    ensures Apart(a, b)
  {
  }

  // --------------------------------------------------------------------------------------------- one generation's file

  ghost function BindsOf(y: System): seq<Record> {
    AccountOf(FileOf(y)).binds
  }

  /** The BIND records on file passed their checks, and an ACTIVE gate remembers all of them. */
  ghost predicate BindsKept(c: Config, y: System) {
    && BindsLawful(c, BindsOf(y)) && Sane(y)
    && (y.Up? && y.policy.gate.state == Active ==> BindsIn(y.policy.gate) == FileBinds(y.policy.gate))
  }

  lemma {:induction false} BindsAlong(entries: seq<Entry>, n: nat)
    requires n <= |entries|
    ensures AccountOf(entries[..n]).binds <= AccountOf(entries).binds
  {
    if n == |entries| {
      assert entries[..n] == entries;
    } else {
      BindsAlong(entries[..|entries| - 1], n);
      assert entries[..|entries| - 1][..n] == entries[..n];
    }
  }

  lemma FilePrefix(c: Config, file: seq<Entry>, n: nat)
    requires n <= |file| && BindsLawful(c, AccountOf(file).binds)
    ensures BindsLawful(c, AccountOf(file[..n]).binds)
  {
    hide BindsLawful, AccountOf;
    BindsAlong(file, n);
    LawfulPrefix(c, AccountOf(file).binds, AccountOf(file[..n]).binds);
  }

  /** A gate that sleeps is not ACTIVE. */
  lemma ActiveIsSound(y: System)
    requires Sane(y) && y.Up? && y.policy.gate.state == Active
    ensures Sound(y.policy.gate)
  {
    hide Sound, WritesShaped, WritesRebuilt, SessionShaped, Fenced, Readable, Alike, WritesFiled;
  }

  lemma StepKeepsBinds(c: Config, g: Gate, h: Gate)
    requires ValidConfig(c) && Wanders(c, g, h) && BindsLawful(c, FileBinds(g))
    requires g.state == Active ==> Sound(g) && BindsIn(g) == FileBinds(g)
    ensures BindsLawful(c, FileBinds(h)) && (h.state == Active ==> BindsIn(h) == FileBinds(h))
  {
    hide ValidConfig, Sound, BindsLawful, LawfulBind, BindsIn, FileBinds, BindRecord;
    if FileBinds(h) != FileBinds(g) {
      var p: BindRequest, observed: bool :|
        && BindCheck(c, g, p, observed).None? && p.runNonce in c.runs
        && FileBinds(h) == FileBinds(g) + [BindRecord(c, p)]
        && (BindsIn(h) == BindsIn(g) + [BindRecord(c, p)] || (BindsIn(h) == BindsIn(g) && h.state == Held));
      CheckedBindIsLawful(c, g, p, observed);
      LawfulAppended(c, FileBinds(g), BindRecord(c, p));
    }
  }

  lemma EventKeepsBinds(c: PolicyConfig, w: World, p: Policy, event: PolicyEvent)
    requires ValidConfig(c.base) && BindsKept(c.base, Up(p))
    ensures BindsKept(c.base, Up(Next(c, w, p, event)))
  {
    hide ValidConfig, BindsLawful, BindsIn, Sane, PolicyHandle, Wanders, Sound;
    StaysSane(c, w, Up(p), Occurs(event));
    PolicyWanders(c, w, p, event);
    if p.gate.state == Active { ActiveIsSound(Up(p)); }
    var o := PolicyHandle(c, w, p, event);
    if o.PolicyHandled? { StepKeepsBinds(c.base, p.gate, o.policy.gate); }
  }

  lemma SleepsWithBinds(c: Config, g: Gate, h: Gate, q: Policy)
    requires Drifts(g, h) && Drifts(h, q.gate) && Asleep(q)
    ensures FileBinds(q.gate) == FileBinds(g) && q.gate.state != Active
  {
    hide AccountOf;
  }

  lemma OpeningKeepsBinds(c: PolicyConfig, w: World, s: Stores, untraced: bool)
    requires BindsKept(c.base, Down(s, untraced))
    ensures BindsKept(c.base, Up(Reopen(c, w, s, untraced)))
  {
    hide BindsLawful, BindsIn, Sane, Endures, PolicyRestart, SettleMaintenance, Drifts, AccountOf;
    OpeningEndures(c, w, s, untraced);
    var k := Around(OnStores(c.base, s, untraced));
    RestartSleeps(w, k);
    var q := PolicyRestart(w, k);
    SettleMaintenanceDrifts(w, q);
    PolicyDriftSays(q, SettleMaintenance(w, q));
    SleepsWithBinds(c.base, k.gate, q.gate, SettleMaintenance(w, q));
  }

  /** Every happening keeps the BIND records on file lawful. */
  lemma HappeningKeepsBinds(c: PolicyConfig, w: World, y: System, h: Happening)
    requires ValidConfig(c.base) && BindsKept(c.base, y)
    ensures BindsKept(c.base, NextLife(c, w, y, h))
  {
    hide ValidConfig, BindsLawful, BindsIn, Sane, Endures, Next, Reopen, AccountOf;
    LifeEndures(c, w, y, h);
    match y
    case Up(p) =>
      if h.Occurs? { EventKeepsBinds(c, w, p, h.event); }
      if h.Dies? {
        EventKeepsBinds(c, w, p, h.event);
        FilePrefix(c.base, Next(c, w, p, h.event).gate.stores.file, |NextLife(c, w, y, h).stores.file|);
      }
    case Down(s, untraced) =>
      if h.Opens? { OpeningKeepsBinds(c, w, s, untraced); }
      if h.OpeningDies? {
        OpeningKeepsBinds(c, w, s, untraced);
        FilePrefix(c.base, Reopen(c, w, s, untraced).gate.stores.file, |NextLife(c, w, y, h).stores.file|);
      }
  }

  lemma BornBinds(c: PolicyConfig)
    ensures BindsKept(c.base, Born(c))
  {
    hide Sane;
    BornSane(c);
  }

  // ---------------------------------------------------------------------------------------------- the directories

  /** The generation index and every indexed generation; the newest may have a live process, which holds its journal
      locked. */
  datatype Site = Site(index: seq<string>, lives: map<string, System>)

  /** What each generation is configured with, by name, and the storage it meets. */
  datatype Setup = Setup(config: string -> PolicyConfig, world: string -> World)

  /** A process opens a generation, or dies at it; or something happens to the live process. */
  datatype Move = Open(name: string) | DiesOpening(name: string, kept: nat, marked: bool) | Meets(happening: Happening)

  predicate IsNameByte(c: char) {
    '0' <= c <= '9' || 'a' <= c <= 'z' || 'A' <= c <= 'Z'
  }

  /** A generation name that is also a file name, and not the index's. */
  predicate ValidName(name: string) {
    && 1 <= |name| <= 128 && IsNameByte(name[0]) && name != "generations"
    && forall i | 0 <= i < |name| :: IsNameByte(name[i]) || name[i] == '.' || name[i] == '_' || name[i] == '-'
  }

  predicate WellIndexed(s: Site) {
    && (forall i, j | 0 <= i < j < |s.index| :: s.index[i] != s.index[j])
    && (forall i | 0 <= i < |s.index| :: s.index[i] in s.lives)
    && (forall i | 0 <= i < |s.index| - 1 :: s.lives[s.index[i]].Down?)
  }

  predicate IsLive(s: Site)
    requires WellIndexed(s)
  {
    s.index != [] && s.lives[s.index[|s.index| - 1]].Up?
  }

  /** The bindings in the journal files of the first `n` indexed generations. */
  function EarlierBindings(s: Site, n: nat): PriorBindings
    requires WellIndexed(s) && n <= |s.index|
  {
    if n == 0 then NO_BINDINGS else AddBindings(EarlierBindings(s, n - 1), FileOf(s.lives[s.index[n - 1]]))
  }

  /** A generation's configuration, its earlier bindings united with those of the journals before it. */
  function ConfigAt(u: Setup, s: Site, name: string, n: nat): PolicyConfig
    requires WellIndexed(s) && n <= |s.index|
  {
    var c := u.config(name);
    c.(base := c.base.(prior := Unite(c.base.prior, EarlierBindings(s, n))))
  }

  /** Opening a generation: refused while any journal is held, for an invalid name, and for an indexed generation that
      is not the newest. */
  predicate Refuses(s: Site, name: string)
    requires WellIndexed(s)
  {
    !ValidName(name) || IsLive(s) || (name in s.index && s.index[|s.index| - 1] != name)
  }

  /** A generation opened by a process that comes up, or that dies at it: a new one starts fresh, the newest one on its
      journal file. */
  ghost function OpenOn(u: Setup, s: Site, name: string, opening: Happening): (t: Site)
    requires WellIndexed(s) && !Refuses(s, name)
    ensures WellIndexed(t)
  {
    if name in s.index
    then s.(lives := s.lives[name := NextLife(ConfigAt(u, s, name, |s.index| - 1), u.world(name), s.lives[name],
                                              opening)])
    else
      var born := Born(ConfigAt(u, s, name, |s.index|));
      Site(s.index + [name],
           s.lives[name := if opening.Opens? then born
                   else NextLife(ConfigAt(u, s, name, |s.index|), u.world(name), born, Stops)])
  }

  ghost function MoveOn(u: Setup, s: Site, move: Move): (t: Site)
    requires WellIndexed(s)
    ensures WellIndexed(t)
  {
    match move
    case Open(name) => if Refuses(s, name) then s else OpenOn(u, s, name, Opens)
    case DiesOpening(name, kept, marked) =>
      if Refuses(s, name) then s else OpenOn(u, s, name, OpeningDies(kept, marked))
    case Meets(h) =>
      if !IsLive(s) then s
      else
        var name := s.index[|s.index| - 1];
        s.(lives := s.lives[name := NextLife(ConfigAt(u, s, name, |s.index| - 1), u.world(name), s.lives[name], h)])
  }

  ghost predicate ValidSetup(u: Setup) {
    forall name :: ValidConfig(u.config(name).base)
  }

  lemma UnitingKeepsValid(c: Config, more: PriorBindings)
    requires ValidConfig(c)
    ensures ValidConfig(c.(prior := Unite(c.prior, more)))
  {
    var d := c.(prior := Unite(c.prior, more));
    assert d.ordered == c.ordered && d.runs == c.runs && d.manifests == c.manifests;
  }

  lemma ValidAt(u: Setup, s: Site, name: string, n: nat)
    requires ValidSetup(u) && WellIndexed(s) && n <= |s.index|
    ensures ValidConfig(ConfigAt(u, s, name, n).base)
  {
    hide ValidConfig;
    UnitingKeepsValid(u.config(name).base, EarlierBindings(s, n));
  }

  /** One indexed generation: the BIND records on its file passed against the bindings on the files before it. */
  ghost predicate GoodAt(u: Setup, s: Site, i: nat)
    requires WellIndexed(s) && i < |s.index|
  {
    BindsKept(ConfigAt(u, s, s.index[i], i).base, s.lives[s.index[i]])
  }

  ghost predicate SiteSound(u: Setup, s: Site) {
    WellIndexed(s) && forall i: nat | i < |s.index| :: GoodAt(u, s, i)
  }

  /** The bindings before a position depend on the journals before it only. */
  lemma {:induction false} EarlierSame(s: Site, t: Site, n: nat)
    requires WellIndexed(s) && WellIndexed(t) && n <= |s.index| && n <= |t.index|
    requires forall i | 0 <= i < n :: s.index[i] == t.index[i] && s.lives[s.index[i]] == t.lives[s.index[i]]
    ensures EarlierBindings(s, n) == EarlierBindings(t, n)
  {
    if n > 0 { EarlierSame(s, t, n - 1); }
  }

  /** The newest generation moved on, or a new one was added; the others stayed. */
  lemma NewestMoves(u: Setup, s: Site, t: Site, y: System)
    requires SiteSound(u, s) && WellIndexed(t) && t.index != []
    requires |t.index| - 1 <= |s.index| <= |t.index|
    requires forall i | 0 <= i < |t.index| - 1 :: i < |s.index| && s.index[i] == t.index[i]
    requires var name := t.index[|t.index| - 1]; t.lives == s.lives[name := y]
    requires BindsKept(ConfigAt(u, s, t.index[|t.index| - 1], |t.index| - 1).base, y)
    ensures SiteSound(u, t)
  {
    hide BindsKept;
    var last := |t.index| - 1;
    forall i: nat | i < |t.index|
      ensures GoodAt(u, t, i)
    {
      EarlierSame(s, t, i);
      if i < last { assert GoodAt(u, s, i); }
    }
  }

  lemma NewestMeets(u: Setup, s: Site, t: Site, h: Happening)
    requires ValidSetup(u) && SiteSound(u, s) && s.index != [] && t.index == s.index && WellIndexed(t)
    requires var name := s.index[|s.index| - 1];
             t.lives == s.lives[name := NextLife(ConfigAt(u, s, name, |s.index| - 1), u.world(name), s.lives[name], h)]
    ensures SiteSound(u, t)
  {
    hide BindsKept, ValidConfig, NextLife, EarlierBindings;
    var name, last := s.index[|s.index| - 1], |s.index| - 1;
    assert GoodAt(u, s, last);
    ValidAt(u, s, name, last);
    HappeningKeepsBinds(ConfigAt(u, s, name, last), u.world(name), s.lives[name], h);
    NewestMoves(u, s, t, t.lives[name]);
  }

  lemma OpeningKeeps(u: Setup, s: Site, name: string, opening: Happening)
    requires ValidSetup(u) && SiteSound(u, s) && !Refuses(s, name)
    ensures SiteSound(u, OpenOn(u, s, name, opening))
  {
    hide BindsKept, ValidConfig, NextLife, ValidName, EarlierBindings, Born;
    var t := OpenOn(u, s, name, opening);
    if name in s.index {
      NewestMeets(u, s, t, opening);
    } else {
      var c := ConfigAt(u, s, name, |s.index|);
      ValidAt(u, s, name, |s.index|);
      BornBinds(c);
      HappeningKeepsBinds(c, u.world(name), Born(c), Stops);
      NewestMoves(u, s, t, t.lives[name]);
    }
  }

  /** Every move keeps the directories sound. */
  lemma MoveKeeps(u: Setup, s: Site, move: Move)
    requires ValidSetup(u) && SiteSound(u, s)
    ensures SiteSound(u, MoveOn(u, s, move))
  {
    hide GoodAt, OpenOn, NextLife, Refuses, ValidConfig, EarlierBindings;
    match move
    case Open(name) => if !Refuses(s, name) { OpeningKeeps(u, s, name, Opens); }
    case DiesOpening(name, kept, marked) =>
      if !Refuses(s, name) { OpeningKeeps(u, s, name, OpeningDies(kept, marked)); }
    case Meets(h) => if IsLive(s) { NewestMeets(u, s, MoveOn(u, s, move), h); }
  }

  ghost function Moves(u: Setup, moves: seq<Move>): (s: Site)
    ensures WellIndexed(s)
  {
    if moves == [] then Site([], map[])
    else
      var before := Moves(u, moves[..|moves| - 1]);
      MoveOn(u, before, moves[|moves| - 1])
  }

  lemma {:induction false} MovesKeep(u: Setup, moves: seq<Move>)
    requires ValidSetup(u)
    ensures SiteSound(u, Moves(u, moves))
  {
    hide MoveOn, GoodAt, ValidConfig;
    if moves != [] {
      MovesKeep(u, moves[..|moves| - 1]);
      MoveKeeps(u, Moves(u, moves[..|moves| - 1]), moves[|moves| - 1]);
    }
  }

  lemma {:induction false} EarlierHold(s: Site, n: nat, i: nat, k: nat)
    requires WellIndexed(s) && i < n <= |s.index| && k < |BindsOf(s.lives[s.index[i]])|
    ensures var b := BindsOf(s.lives[s.index[i]])[k]; b.Bind? && Holds(EarlierBindings(s, n), b)
    decreases n
  {
    var file := FileOf(s.lives[s.index[n - 1]]);
    if i == n - 1 {
      AddingHolds(EarlierBindings(s, n - 1), file, k);
    } else {
      EarlierHold(s, n - 1, i, k);
      AddingGrows(EarlierBindings(s, n - 1), file);
    }
  }

  lemma HoldsUnited(a: PriorBindings, b: PriorBindings, r: Record)
    requires r.Bind? && Holds(b, r)
    ensures Holds(Unite(a, b), r)
  {
  }

  /** Across any history of openings, events, stops and deaths on the same directories: any two BIND records on file,
      of one generation or of two, differ in execution and run nonce and share no manifest digest and no manifest
      identity. */
  lemma NothingIsBoundTwice(u: Setup, moves: seq<Move>, i: nat, k: nat, j: nat, l: nat)
    requires ValidSetup(u)
    requires var s := Moves(u, moves);
             && i <= j < |s.index| && (i == j ==> k < l)
             && k < |BindsOf(s.lives[s.index[i]])| && l < |BindsOf(s.lives[s.index[j]])|
    ensures var s := Moves(u, moves); Apart(BindsOf(s.lives[s.index[i]])[k], BindsOf(s.lives[s.index[j]])[l])
  {
    hide Moves, BindsOf, ValidConfig, Sane, LawfulBind, Apart, EarlierBindings;
    var s := Moves(u, moves);
    MovesKeep(u, moves);
    assert GoodAt(u, s, j);
    var c := ConfigAt(u, s, s.index[j], j).base;
    var binds := BindsOf(s.lives[s.index[j]]);
    if i == j {
      ValidAt(u, s, s.index[j], j);
      ApartWithin(c, binds, k, l);
    } else {
      EarlierHold(s, j, i, k);
      assert LawfulBind(c, binds[..l], binds[l]);
      HoldsUnited(u.config(s.index[j]).base.prior, EarlierBindings(s, j), BindsOf(s.lives[s.index[i]])[k]);
      ApartFromHeld(c, binds[..l], BindsOf(s.lives[s.index[i]])[k], binds[l]);
    }
  }
}
