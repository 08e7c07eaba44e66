/** The journal file of one generation: the two-phase append, the mirror kept beside it, and what a fresh scan of the
    file says after any sequence of appends, failures and crashes. */
module FileStore {
  import opened Vocabulary
  import opened Journal
  import opened Frame
  import opened Scanner
  import opened RecordCodec

  /** What the operating system answers during one append. `written` is `None` when the frame was written whole and
      otherwise the number of its bytes that reached the file; `slipped`: the write of the commit byte failed and stored
      it all the same; `revoked`: the revocation reached the file; the rest say whether that call succeeded. */
  datatype Io = Io(measured: bool, written: Option<nat>, firstSync: bool, firstRead: bool, commit: bool, slipped: bool,
                   secondSync: bool, secondRead: bool, remeasured: bool, revoked: bool)

  function Min(a: nat, b: nat): nat {
    if a <= b then a else b
  }

  // ---------------------------------------------------------------------------------------------- entries of a file

  function EntryOf(j: Json, item: Scanned): Entry {
    match item
    case Lost => Entry.Torn
    case Found(payload) => if DecodeRecord(j, payload).Some? then Rec(DecodeRecord(j, payload).value) else Entry.Torn
  }

  function EntriesOf(j: Json, found: seq<Scanned>): seq<Entry> {
    seq(|found|, i requires 0 <= i < |found| => EntryOf(j, found[i]))
  }

  /** What a fresh scan of the file decodes to. */
  function Read(hex: Digest, j: Json, file: Bytes): seq<Entry> {
    EntriesOf(j, Scan(hex, file))
  }

  // ---------------------------------------------------------------------------------------------- the append

  function Payload(j: Json, r: Record): Bytes {
    j.canonical(ToDoc(r))
  }

  /** The append is tried at all: the frame exists, the length is known and the file stays within its bound. */
  predicate Tried(hex: Digest, base: Bytes, payload: Bytes, io: Io) {
    && io.measured && 1 <= |payload| <= MAX_PAYLOAD_BYTES
    && |base| + |FrameOf(hex, payload, PENDING)| <= MAX_FILE_BYTES
  }

  /** How many bytes of the frame the first write leaves. */
  function Reached(hex: Digest, payload: Bytes, io: Io): nat {
    var whole := |FrameOf(hex, payload, PENDING)|;
    if io.written.None? then whole else Min(io.written.value, whole)
  }

  /** The commit byte was written, as far as the code knows. */
  predicate CommitWritten(io: Io) {
    io.written.None? && io.firstSync && io.firstRead && io.commit
  }

  /** The commit byte is in the file. */
  predicate CommitStored(io: Io) {
    io.written.None? && io.firstSync && io.firstRead && (io.commit || io.slipped)
  }

  /** The code takes the commit byte back, which it does only when it knows of it. */
  predicate TakenBack(io: Io) {
    CommitWritten(io) && io.revoked
  }

  predicate Succeeds(io: Io) {
    CommitWritten(io) && io.secondSync && io.secondRead
  }

  /** What the file holds after the append, and what the append answers. */
  function AppendBytes(hex: Digest, base: Bytes, payload: Bytes, io: Io): (Bytes, Appended) {
    if !Tried(hex, base, payload, io) then (base, Failed(false))
    else if Succeeds(io) then (base + FrameOf(hex, payload, COMMITTED), Durable)
    else if CommitStored(io) then
      (base + FrameOf(hex, payload, if TakenBack(io) then REVOKED else COMMITTED), Failed(true))
    else
      var n := Reached(hex, payload, io);
      (base + FrameOf(hex, payload, PENDING)[..n], Failed(n > 0 || !io.remeasured))
  }

  // ---------------------------------------------------------------------------------------------- what a scan reads

  lemma ReadOfSum(hex: Digest, j: Json, x: Bytes, y: Bytes)
    requires y == [] || y[0] == MARK
    ensures Read(hex, j, x + y) == Read(hex, j, x) + Read(hex, j, y)
  {
    hide Scan, EntryOf;
    ScanOfSum(hex, x, y);
  }

  ghost predicate GoodRecord(hex: Digest, j: Json, r: Record) {
    IsDigest(hex) && IsJson(j) && InRange(r)
  }

  predicate GoodSize(j: Json, r: Record) {
    1 <= |Payload(j, r)| <= MAX_PAYLOAD_BYTES
  }

  /** A whole frame after any file: the record when committed, one TORN otherwise. */
  lemma WholeFrameReads(hex: Digest, j: Json, base: Bytes, r: Record, status: Byte)
    requires GoodRecord(hex, j, r) && GoodSize(j, r) && status != MARK
    ensures Read(hex, j, base + FrameOf(hex, Payload(j, r), status))
            == Read(hex, j, base) + [if status == COMMITTED then Rec(r) else Entry.Torn]
  {
    hide Scan, FrameOf, ToDoc, InRange, DecodeRecord;
    var f := FrameOf(hex, Payload(j, r), status);
    FrameIsAttempt(hex, Payload(j, r), status);
    FrameReads(hex, Payload(j, r), status);
    ScanOfAttempt(hex, f);
    ReadOfSum(hex, j, base, f);
    RecordBack(j, r);
  }

  /** A cut frame after any file: nothing when no byte reached it, one TORN otherwise. */
  lemma CutFrameReads(hex: Digest, j: Json, base: Bytes, r: Record, n: nat)
    requires GoodRecord(hex, j, r) && GoodSize(j, r) && n <= |FrameOf(hex, Payload(j, r), PENDING)|
    ensures Read(hex, j, base + FrameOf(hex, Payload(j, r), PENDING)[..n])
            == Read(hex, j, base) + (if n == 0 then [] else [Entry.Torn])
  {
    hide Scan, FrameOf, ToDoc, InRange, DecodeRecord;
    var f := FrameOf(hex, Payload(j, r), PENDING);
    if n == 0 {
      assert base + f[..n] == base;
    } else if n == |f| {
      assert f[..n] == f;
      WholeFrameReads(hex, j, base, r, PENDING);
    } else {
      FrameIsAttempt(hex, Payload(j, r), PENDING);
      PartialFrameReads(hex, Payload(j, r), PENDING, n);
      assert f[..n][1..] == f[1..][..n - 1];
      ScanOfAttempt(hex, f[..n]);
      ReadOfSum(hex, j, base, f[..n]);
    }
  }

  /** The contents the file may have at any point of an append, a crash included. */
  ghost predicate MayBeLeft(hex: Digest, base: Bytes, payload: Bytes, file: Bytes) {
    || (exists n: nat :: n <= |FrameOf(hex, payload, PENDING)| && file == base + FrameOf(hex, payload, PENDING)[..n])
    || file == base + FrameOf(hex, payload, COMMITTED)
    || file == base + FrameOf(hex, payload, REVOKED)
  }

  /** A crash at any point of an append adds nothing, exactly one TORN, or exactly the record being appended. */
  lemma CrashAddsAtMostOneEntry(hex: Digest, j: Json, base: Bytes, r: Record, file: Bytes)
    requires GoodRecord(hex, j, r) && GoodSize(j, r) && MayBeLeft(hex, base, Payload(j, r), file)
    ensures var (before, now) := (Read(hex, j, base), Read(hex, j, file));
            now == before || now == before + [Entry.Torn] || now == before + [Rec(r)]
  {
    hide Read, FrameOf, InRange;
    var pending := FrameOf(hex, Payload(j, r), PENDING);
    if n: nat :| n <= |pending| && file == base + pending[..n] {
      CutFrameReads(hex, j, base, r, n);
      assert Read(hex, j, base) + [] == Read(hex, j, base);
    } else if file == base + FrameOf(hex, Payload(j, r), COMMITTED) {
      WholeFrameReads(hex, j, base, r, COMMITTED);
    } else {
      WholeFrameReads(hex, j, base, r, REVOKED);
    }
  }

  // ---------------------------------------------------------------------------------------------- mirror and file

  /** The ways a mirror and its file part: a commit byte stored, not answered for and not taken back, because the
      revocation failed or because the write that stored it did; or nothing written and the length unreadable
      afterwards, which the mirror takes as torn. */
  predicate Parts(hex: Digest, base: Bytes, payload: Bytes, io: Io) {
    && Tried(hex, base, payload, io) && !Succeeds(io)
    && if CommitStored(io) then !TakenBack(io) else Reached(hex, payload, io) == 0 && !io.remeasured
  }

  /** One append, read back: what it adds to a scan, and exactly when that is what it adds to the mirror. */
  lemma AppendReads(hex: Digest, j: Json, base: Bytes, r: Record, io: Io)
    requires GoodRecord(hex, j, r)
    ensures var (file, appended) := AppendBytes(hex, base, Payload(j, r), io);
            var added := Added(appended, r);
            exists read :: Read(hex, j, file) == Read(hex, j, base) + read && |read| <= |added| <= 1
                           && (read == added <==> !Parts(hex, base, Payload(j, r), io))
                           && (|read| < |added| ==> read == [])
  {
    hide Read, FrameOf, InRange, ToDoc;
    var payload := Payload(j, r);
    var file := AppendBytes(hex, base, payload, io).0;
    var read: seq<Entry> := [];
    if !Tried(hex, base, payload, io) {
      assert Read(hex, j, file) == Read(hex, j, base) + read;
    } else if CommitStored(io) {
      var status := if Succeeds(io) || !TakenBack(io) then COMMITTED else REVOKED;
      WholeFrameReads(hex, j, base, r, status);
      read := [if status == COMMITTED then Rec(r) else Entry.Torn];
    } else {
      var n := Reached(hex, payload, io);
      CutFrameReads(hex, j, base, r, n);
      read := if n == 0 then [] else [Entry.Torn];
    }
    assert Read(hex, j, file) == Read(hex, j, base) + read;
  }

  datatype Attempted = Attempted(record: Record, io: Io)

  /** The file and the mirror after a sequence of appends to a file and a mirror that agreed. */
  function Appends(hex: Digest, j: Json, base: Bytes, mirror: seq<Entry>, tries: seq<Attempted>): (Bytes, seq<Entry>) {
    if tries == [] then (base, mirror)
    else
      var (file, entries) := Appends(hex, j, base, mirror, tries[..|tries| - 1]);
      var last := tries[|tries| - 1];
      var (after, appended) := AppendBytes(hex, file, Payload(j, last.record), last.io);
      (after, entries + Added(appended, last.record))
  }

  predicate NoneParts(hex: Digest, j: Json, base: Bytes, mirror: seq<Entry>, tries: seq<Attempted>) {
    forall i | 0 <= i < |tries| ::
      !Parts(hex, Appends(hex, j, base, mirror, tries[..i]).0, Payload(j, tries[i].record), tries[i].io)
  }

  lemma NonePartsLast(hex: Digest, j: Json, base: Bytes, mirror: seq<Entry>, tries: seq<Attempted>)
    requires tries != []
    ensures var before := tries[..|tries| - 1]; var last := tries[|tries| - 1];
            NoneParts(hex, j, base, mirror, tries) <==>
              NoneParts(hex, j, base, mirror, before)
              && !Parts(hex, Appends(hex, j, base, mirror, before).0, Payload(j, last.record), last.io)
  {
    hide Parts, Appends;
    var before := tries[..|tries| - 1];
    assert forall i | 0 <= i < |before| :: before[..i] == tries[..i] && before[i] == tries[i];
  }

  lemma NoTries(hex: Digest, j: Json, base: Bytes, mirror: seq<Entry>)
    ensures NoneParts(hex, j, base, mirror, [])
  {
  }

  lemma SumsEqual(a: seq<Entry>, b: seq<Entry>, x: seq<Entry>, y: seq<Entry>)
    requires |a| <= |b| && |x| <= |y| <= 1
    ensures a + x == b + y <==> a == b && x == y
  {
    if a + x == b + y {
      assert |a| == |b| && |x| == |y|;
      assert a == (a + x)[..|a|] == (b + y)[..|b|] == b;
      assert x == (a + x)[|a|..] == (b + y)[|b|..] == y;
    }
  }

  /** Over every sequence of appends, with a failure at any step: a fresh scan of the file decodes to the mirror exactly
      when no append parted them, and never to more entries than the mirror holds. */
  lemma {:induction false} MirrorAgreesExactly(hex: Digest, j: Json, base: Bytes, mirror: seq<Entry>,
                                               tries: seq<Attempted>)
    requires Read(hex, j, base) == mirror && forall t | t in tries :: GoodRecord(hex, j, t.record)
    ensures var (file, entries) := Appends(hex, j, base, mirror, tries);
            && |Read(hex, j, file)| <= |entries|
            && (Read(hex, j, file) == entries <==> NoneParts(hex, j, base, mirror, tries))
  {
    hide Read, Parts, AppendBytes, GoodRecord, NoneParts;
    if tries == [] {
      NoTries(hex, j, base, mirror);
    } else {
      var before, last := tries[..|tries| - 1], tries[|tries| - 1];
      var (file, entries) := Appends(hex, j, base, mirror, before);
      MirrorAgreesExactly(hex, j, base, mirror, before);
      NonePartsLast(hex, j, base, mirror, tries);
      AppendReads(hex, j, file, last.record, last.io);
      var (after, appended) := AppendBytes(hex, file, Payload(j, last.record), last.io);
      var added := Added(appended, last.record);
      var read :| Read(hex, j, after) == Read(hex, j, file) + read && |read| <= |added| <= 1
                  && (read == added <==> !Parts(hex, file, Payload(j, last.record), last.io))
                  && (|read| < |added| ==> read == []);
      SumsEqual(Read(hex, j, file), entries, read, added);
    }
  }

  // --------------------------------------------------------------------------------------------- the stores of a world

  /** What the append left beside what it answered. */
  function LeavingOf(hex: Digest, base: Bytes, payload: Bytes, io: Io): Leaving {
    if !Parts(hex, base, payload, io) then AsAnswered else if CommitStored(io) then RecordLeft else NothingLeft
  }

  /** The world whose n-th append comes to what the n-th of these attempts comes to. */
  function WorldOf(hex: Digest, j: Json, base: Bytes, mirror: seq<Entry>, tries: seq<Attempted>): World {
    World((n: nat) =>
            if n < |tries|
              then AppendBytes(hex, Appends(hex, j, base, mirror, tries[..n]).0, Payload(j, tries[n].record),
                               tries[n].io).1
            else Durable,
          (n: nat) =>
            if n < |tries|
              then LeavingOf(hex, Appends(hex, j, base, mirror, tries[..n]).0, Payload(j, tries[n].record), tries[n].io)
            else AsAnswered,
          (n: nat) => false)
  }

  /** The attempts as appends of a world. */
  function Stored(w: World, s: Stores, tries: seq<Attempted>): Stores {
    if tries == [] then s else Append(w, Stored(w, s, tries[..|tries| - 1]), tries[|tries| - 1].record)
  }

  /** One append, byte by byte, is one append of any world that answers and leaves the same. */
  lemma AppendIsStored(hex: Digest, j: Json, base: Bytes, r: Record, io: Io, w: World, s: Stores)
    requires GoodRecord(hex, j, r) && s.file == Read(hex, j, base)
    requires w.append(s.appends) == AppendBytes(hex, base, Payload(j, r), io).1
    requires w.left(s.appends) == LeavingOf(hex, base, Payload(j, r), io)
    ensures Append(w, s, r).file == Read(hex, j, AppendBytes(hex, base, Payload(j, r), io).0)
    ensures PartsAt(w, s.appends) <==> Parts(hex, base, Payload(j, r), io)
  {
    hide Read, FrameOf, InRange, ToDoc;
    var payload := Payload(j, r);
    if !Tried(hex, base, payload, io) {
      assert s.file + [] == s.file;
    } else if CommitStored(io) {
      WholeFrameReads(hex, j, base, r, if Succeeds(io) || !TakenBack(io) then COMMITTED else REVOKED);
    } else {
      CutFrameReads(hex, j, base, r, Reached(hex, payload, io));
    }
  }

  lemma {:induction false} WorldAgrees(hex: Digest, j: Json, base: Bytes, mirror: seq<Entry>, tries: seq<Attempted>,
                                       w: World, s: Stores)
    requires Read(hex, j, base) == mirror == s.entries == s.file && !s.parted && s.appends == 0
    requires forall t | t in tries :: GoodRecord(hex, j, t.record)
    requires forall n: nat | n < |tries| ::
               var (file, t) := (Appends(hex, j, base, mirror, tries[..n]).0, tries[n]);
               && w.append(n) == AppendBytes(hex, file, Payload(j, t.record), t.io).1
               && w.left(n) == LeavingOf(hex, file, Payload(j, t.record), t.io)
    ensures var ((file, entries), now) := (Appends(hex, j, base, mirror, tries), Stored(w, s, tries));
            && now.entries == entries && now.file == Read(hex, j, file) && now.appends == |tries|
            && (now.parted <==> !NoneParts(hex, j, base, mirror, tries))
  {
    hide Read, Parts, AppendBytes, LeavingOf, GoodRecord, NoneParts, Payload, Left;
    if tries == [] {
      NoTries(hex, j, base, mirror);
    } else {
      var before, last := tries[..|tries| - 1], tries[|tries| - 1];
      assert forall n: nat | n < |before| :: before[..n] == tries[..n] && before[n] == tries[n];
      WorldAgrees(hex, j, base, mirror, before, w, s);
      NonePartsLast(hex, j, base, mirror, tries);
      AppendIsStored(hex, j, Appends(hex, j, base, mirror, before).0, last.record, last.io, w, Stored(w, s, before));
    }
  }

  lemma {:induction false} StoredKeeps(w: World, s: Stores, tries: seq<Attempted>)
    ensures Stored(w, s, tries).marker == s.marker && Stored(w, s, tries).marks == s.marks
  {
    if tries != [] { StoredKeeps(w, s, tries[..|tries| - 1]); }
  }

  /** Every sequence of appends to a journal file, failing in any way at any step, is a sequence of appends in some
      world: the mirror, what a scan of the file finds, and whether the two have parted are what that world says. */
  lemma FileHasWorld(hex: Digest, j: Json, base: Bytes, tries: seq<Attempted>, marker: bool, marks: nat)
    requires forall t | t in tries :: GoodRecord(hex, j, t.record)
    ensures var mirror := Read(hex, j, base);
            var (file, entries) := Appends(hex, j, base, mirror, tries);
            Stored(WorldOf(hex, j, base, mirror, tries), StoresOf(mirror, mirror, marker, 0, marks, false), tries)
              == StoresOf(entries, Read(hex, j, file), marker, |tries|, marks, !NoneParts(hex, j, base, mirror, tries))
  {
    hide Read, AppendBytes, LeavingOf, GoodRecord, NoneParts, Payload, Appends;
    var mirror := Read(hex, j, base);
    var (w, s) := (WorldOf(hex, j, base, mirror, tries), StoresOf(mirror, mirror, marker, 0, marks, false));
    WorldAgrees(hex, j, base, mirror, tries, w, s);
    StoredKeeps(w, s, tries);
  }

  /** A commit byte written, its sync failed, and the revocation failed too. */
  const UNREVOKED := Io(true, None, true, true, true, false, false, false, true, false)

  /** The write of the commit byte failed and stored it; every revocation would have succeeded. */
  const SLIPPED := Io(true, None, true, true, false, true, false, false, true, true)

  /** Not a byte written, and the length unreadable afterwards; every revocation would have succeeded. */
  const UNMEASURED := Io(true, Some(0), false, false, false, false, false, false, false, true)

  /** Every way of parting happens, after any file the frame still fits in: the file holds a record the mirror calls
      TORN, or the mirror holds a TORN the file does not; only the first with a revocation failing. */
  lemma EachParts(hex: Digest, j: Json, base: Bytes, r: Record)
    requires GoodRecord(hex, j, r) && Tried(hex, base, Payload(j, r), UNMEASURED)
    ensures var (file, appended) := AppendBytes(hex, base, Payload(j, r), UNREVOKED);
            Read(hex, j, file) == Read(hex, j, base) + [Rec(r)] && Added(appended, r) == [Entry.Torn]
    ensures var (file, appended) := AppendBytes(hex, base, Payload(j, r), SLIPPED);
            Read(hex, j, file) == Read(hex, j, base) + [Rec(r)] && Added(appended, r) == [Entry.Torn]
    ensures var (file, appended) := AppendBytes(hex, base, Payload(j, r), UNMEASURED);
            Read(hex, j, file) == Read(hex, j, base) && Added(appended, r) == [Entry.Torn]
  {
    hide Read, FrameOf, Payload, ToDoc, InRange;
    WholeFrameReads(hex, j, base, r, COMMITTED);
    var f := FrameOf(hex, Payload(j, r), PENDING);
    assert base + f[..0] == base;
  }

  /** An append never takes a file past its bound. */
  lemma StaysWithinBound(hex: Digest, base: Bytes, payload: Bytes, io: Io)
    requires |base| <= MAX_FILE_BYTES
    ensures |AppendBytes(hex, base, payload, io).0| <= MAX_FILE_BYTES
  {
    assert |FrameOf(hex, payload, COMMITTED)| == |FrameOf(hex, payload, PENDING)| == |FrameOf(hex, payload, REVOKED)|;
  }

  // ---------------------------------------------------------------------------------------------- the file, in place

  /** Bytes written over a file from a position on. */
  function WriteAt(file: Bytes, at: nat, bytes: Bytes): Bytes
    requires at <= |file|
  {
    file[..at] + bytes + (if at + |bytes| < |file| then file[at + |bytes|..] else [])
  }

  lemma StatusWritten(hex: Digest, base: Bytes, payload: Bytes, before: Byte, status: Byte)
    ensures var f := base + FrameOf(hex, payload, before);
            WriteAt(f, |f| - 2, [status]) == base + FrameOf(hex, payload, status)
  {
    var f, h := base + FrameOf(hex, payload, before), base + Header(hex, payload) + payload;
    assert f == h + [before, LF];
    assert f[..|f| - 2] == h && f[|f| - 1..] == [LF];
    assert base + FrameOf(hex, payload, status) == h + [status, LF];
  }

  lemma FramesAlike(hex: Digest, payload: Bytes)
    ensures |FrameOf(hex, payload, PENDING)| == |FrameOf(hex, payload, COMMITTED)| > 1
  {
  }

  lemma RevokedIsLeft(hex: Digest, base: Bytes, payload: Bytes)
    ensures MayBeLeft(hex, base, payload, base + FrameOf(hex, payload, REVOKED))
  {
  }

  class JournalFile {
    const hex: Digest
    const json: Json
    var file: Bytes
    var mirror: seq<Entry>
    /** What the file held after each operation on it. */
    ghost var contents: seq<Bytes>

    /** The file as found and what a scan of it gave. */
    constructor (digest: Digest, text: Json, found: Bytes, scanned: seq<Scanned>)
      ensures hex == digest && json == text && file == found && mirror == EntriesOf(text, scanned) && contents == []
    {
      hex, json, file := digest, text, found;
      mirror := EntriesOf(text, scanned);
      contents := [];
    }

    /** A positioned write of which only `reached` bytes may reach the file. */
    method Write(at: nat, bytes: Bytes, reached: nat)
      requires at <= |file| && reached <= |bytes|
      modifies `file, `contents
      ensures file == WriteAt(old(file), at, bytes[..reached]) && contents == old(contents) + [file]
    {
      file := WriteAt(file, at, bytes[..reached]);
      contents := contents + [file];
    }

    /** The two phases: the pending frame, then its commit byte. */
    method TwoPhases(payload: Bytes, io: Io) returns (done: bool, committed: bool)
      modifies `file, `contents
      ensures done == Succeeds(io) && committed == CommitWritten(io)
      ensures file == old(file) + (if CommitStored(io) then FrameOf(hex, payload, COMMITTED)
                                   else FrameOf(hex, payload, PENDING)[..Reached(hex, payload, io)])
      ensures old(contents) <= contents
              && forall i | |old(contents)| <= i < |contents| :: MayBeLeft(hex, old(file), payload, contents[i])
    {
      hide FrameOf;
      var frame := FrameOf(hex, payload, PENDING);
      var end := |file|;
      var reached := Reached(hex, payload, io);
      Write(end, frame, reached);
      assert file == old(file) + frame[..reached];
      if io.written.Some? || !io.firstSync || !io.firstRead || !(io.commit || io.slipped) { return false, false; }
      assert frame[..reached] == frame;
      StatusWritten(hex, old(file), payload, PENDING, COMMITTED);
      FramesAlike(hex, payload);
      Write(end + |frame| - 2, [COMMITTED], 1);
      assert [COMMITTED][..1] == [COMMITTED];
      return io.commit && io.secondSync && io.secondRead, io.commit;
    }

    /** One two-phase append of a payload at the file's end. */
    method AppendFrame(payload: Bytes, io: Io) returns (appended: Appended)
      modifies `file, `contents
      ensures (file, appended) == AppendBytes(hex, old(file), payload, io)
      ensures old(contents) <= contents
              && forall i | |old(contents)| <= i < |contents| :: MayBeLeft(hex, old(file), payload, contents[i])
    {
      hide FrameOf, MayBeLeft;
      if payload == [] || |payload| > MAX_PAYLOAD_BYTES || !io.measured { return Failed(false); }
      var end := |file|;
      var after := end + |FrameOf(hex, payload, PENDING)|;
      if after > MAX_FILE_BYTES { return Failed(false); }
      var done, committed := TwoPhases(payload, io);
      if done { return Durable; }
      FramesAlike(hex, payload);
      if io.remeasured && |file| == end { return Failed(false); }
      if committed && io.revoked {
        StatusWritten(hex, old(file), payload, COMMITTED, REVOKED);
        assert [REVOKED][..1] == [REVOKED];
        Write(after - 2, [REVOKED], 1);
        RevokedIsLeft(hex, old(file), payload);
      }
      return Failed(true);
    }

    /** Appends a record and keeps the mirror: the record, one TORN, or nothing. */
    method Append(record: Record, io: Io) returns (appended: Appended)
      modifies this
      ensures (file, appended) == AppendBytes(hex, old(file), Payload(json, record), io)
      ensures mirror == old(mirror) + Added(appended, record)
      ensures old(contents) <= contents
              && forall i | |old(contents)| <= i < |contents| ::
                MayBeLeft(hex, old(file), Payload(json, record), contents[i])
    {
      hide AppendBytes, MayBeLeft;
      appended := AppendFrame(Payload(json, record), io);
      match appended {
        case Durable => mirror := mirror + [Rec(record)];
        case Failed(torn) => if torn { mirror := mirror + [Entry.Torn]; }
      }
    }
  }
}
