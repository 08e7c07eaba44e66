/** The streaming scanner: fed a file in any chunks, it finds exactly what the scan of the whole file means, and it
    never holds more than one frame. */
module Scanner {
  import opened Vocabulary
  import opened Frame

  /** The current attempt, or the region before the first 0xFF. */
  datatype Attempt =
    | Nothing
    | Leading
    | Collecting(bytes: Bytes, total: Option<nat>)
    | Torn
    | Committed
    | Trailing

  const LARGEST_FRAME := HEADER_BYTES + MAX_PAYLOAD_BYTES + 2

  /** What the scanner knows of the bytes of one attempt. */
  function StateOf(hex: Digest, open: Bytes): Attempt {
    if open == [] then Nothing
    else if open[0] != MARK then Leading
    else if |open| < HEADER_BYTES then Collecting(open, None)
    else
      var length := FrameLength(hex, open);
      if length.None? then Torn
      else if |open| < length.value then Collecting(open, length)
      else if CommittedIn(hex, open).None? then Torn
      else if |open| == length.value then Committed
      else Trailing
  }

  /** What it has already reported of them. */
  function ReportedOf(hex: Digest, open: Bytes): seq<Scanned> {
    if open != [] && open[0] == MARK && CommittedIn(hex, open).Some? then [Found(CommittedIn(hex, open).value)] else []
  }

  /** What ending the attempt adds. */
  function Ending(attempt: Attempt): seq<Scanned> {
    if attempt.Nothing? || attempt.Committed? then [] else [Lost]
  }

  /** Bytes of one region: before the first 0xFF, or one attempt. */
  predicate IsRegion(open: Bytes) {
    open == [] || Unmarked(open[1..])
  }

  lemma EndedRegion(hex: Digest, open: Bytes)
    requires IsRegion(open)
    ensures ReportedOf(hex, open) + Ending(StateOf(hex, open)) == Scan(hex, open)
  {
    if open == [] {
    } else if open[0] == MARK {
      ScanOfAttempt(hex, open);
    } else {
      assert Unmarked(open);
      NoMark(open);
      assert open[|open|..] == [];
    }
  }

  /** Adding bytes to an attempt that is decided leaves it decided. */
  lemma DecidedStays(hex: Digest, open: Bytes, more: Bytes)
    requires open != [] && open[0] == MARK && |open| >= HEADER_BYTES
    requires FrameLength(hex, open).Some? ==> FrameLength(hex, open).value <= |open|
    ensures FrameLength(hex, open + more) == FrameLength(hex, open)
    ensures CommittedIn(hex, open + more) == CommittedIn(hex, open)
  {
    assert (open + more)[..HEADER_BYTES] == open[..HEADER_BYTES];
    var length := FrameLength(hex, open);
    if length.Some? { assert (open + more)[..length.value] == open[..length.value]; }
  }

  lemma LengthStays(hex: Digest, open: Bytes, more: Bytes)
    requires |open| >= HEADER_BYTES
    ensures FrameLength(hex, open + more) == FrameLength(hex, open)
  {
    assert (open + more)[..HEADER_BYTES] == open[..HEADER_BYTES];
  }

  /** Bytes added to an attempt that is not being collected. */
  lemma ExtendedRegion(hex: Digest, open: Bytes, bytes: Bytes)
    requires IsRegion(open) && Unmarked(bytes) && bytes != [] && !StateOf(hex, open).Collecting?
    ensures IsRegion(open + bytes) && ReportedOf(hex, open + bytes) == ReportedOf(hex, open)
    ensures StateOf(hex, open + bytes)
            == match StateOf(hex, open)
               case Nothing => Leading
               case Leading => Leading
               case Torn => Torn
               case _ => Trailing
  {
    if open == [] {
      assert open + bytes == bytes;
    } else {
      assert (open + bytes)[1..] == open[1..] + bytes;
      if open[0] == MARK { DecidedStays(hex, open, bytes); }
    }
  }

  lemma NothingScanned(hex: Digest)
    ensures Scan(hex, []) == []
  {
  }

  /** What a collecting scanner holds is exactly the attempt. */
  lemma CollectingOpen(hex: Digest, open: Bytes)
    ensures StateOf(hex, open).Collecting? ==>
              open != [] && open[0] == MARK && StateOf(hex, open).bytes == open && ReportedOf(hex, open) == []
  {
  }

  lemma StillCollecting(hex: Digest, all: Bytes, total: Option<nat>)
    requires all != [] && all[0] == MARK
    requires if total.None? then |all| < HEADER_BYTES
             else FrameLength(hex, all) == total && HEADER_BYTES <= |all| < total.value
    ensures StateOf(hex, all) == Collecting(all, total) && ReportedOf(hex, all) == []
  {
  }

  lemma BadHeader(hex: Digest, header: Bytes, rest: Bytes)
    requires |header| == HEADER_BYTES && header[0] == MARK && Announced(hex, header).None?
    ensures StateOf(hex, header + rest) == Torn && ReportedOf(hex, header + rest) == []
  {
    assert (header + rest)[..HEADER_BYTES] == header;
  }

  lemma WholeFrame(hex: Digest, frame: Bytes, rest: Bytes)
    requires FrameLength(hex, frame) == Some(|frame|) && frame[0] == MARK
    ensures |frame| >= HEADER_BYTES + 2
    ensures var payload := CommittedPayload(hex, frame);
            && StateOf(hex, frame + rest)
              == (if payload.None? then Torn else if rest == [] then Committed else Trailing)
            && ReportedOf(hex, frame + rest) == (if payload.None? then [] else [Found(payload.value)])
  {
    LengthStays(hex, frame, rest);
    assert (frame + rest)[..|frame|] == frame;
  }

  lemma HeaderAnnouncing(hex: Digest, header: Bytes)
    requires |header| == HEADER_BYTES
    ensures FrameLength(hex, header)
            == if Announced(hex, header).None? then None else Some(Announced(hex, header).value + HEADER_BYTES + 2)
  {
    assert header[..HEADER_BYTES] == header;
  }

  lemma CollectingTotals(hex: Digest, sofar: Bytes, announced: Option<nat>)
    requires StateOf(hex, sofar) == Collecting(sofar, announced)
    ensures if announced.None? then |sofar| < HEADER_BYTES
            else FrameLength(hex, sofar) == announced && HEADER_BYTES <= |sofar| < announced.value
  {
  }

  /** What is reported of an attempt stays reported. */
  lemma ReportStays(hex: Digest, open: Bytes, bytes: Bytes)
    requires IsRegion(open) && Unmarked(bytes)
    ensures IsRegion(open + bytes) && ReportedOf(hex, open) <= ReportedOf(hex, open + bytes)
  {
    hide StateOf, ReportedOf;
    if bytes == [] {
      assert open + bytes == open;
    } else if StateOf(hex, open).Collecting? {
      CollectingOpen(hex, open);
      assert (open + bytes)[1..] == open[1..] + bytes;
    } else {
      ExtendedRegion(hex, open, bytes);
    }
  }

  lemma NotMarked(hex: Digest, open: Bytes)
    requires open == [] || open[0] != MARK
    ensures ReportedOf(hex, open) == []
  {
  }

  /** What was found of a part of a file is found first of the whole. */
  lemma FoundStays(hex: Digest, closed: Bytes, open: Bytes, rest: Bytes)
    requires IsRegion(open) && (open == [] || open[0] != MARK ==> closed == [])
    ensures Scan(hex, closed) + ReportedOf(hex, open) <= Scan(hex, closed + open + rest)
  {
    hide Scan, StateOf, ReportedOf;
    if open == [] || open[0] != MARK {
      NotMarked(hex, open);
      NothingScanned(hex);
    } else {
      var at := FirstMark(rest);
      var (bytes, more) := (rest[..at], rest[at..]);
      assert closed + open + rest == closed + (open + bytes) + more;
      ScanOfSum(hex, closed + (open + bytes), more);
      ScanOfSum(hex, closed, open + bytes);
      ReportStays(hex, open, bytes);
      EndedRegion(hex, open + bytes);
    }
  }

  /** Adds bytes to an undecided attempt until its header, then its whole frame, is there. */
  method Collect(hex: Digest, sofar: Bytes, announced: Option<nat>, bytes: Bytes)
    returns (next: Attempt, reported: seq<Scanned>)
    requires sofar != [] && sofar[0] == MARK && StateOf(hex, sofar) == Collecting(sofar, announced)
    ensures next == StateOf(hex, sofar + bytes) && reported == ReportedOf(hex, sofar + bytes)
  {
    hide StateOf, ReportedOf, FrameLength, Announced, CommittedPayload;
    CollectingTotals(hex, sofar, announced);
    var collected, total, rest := sofar, announced, bytes;
    while true
      invariant collected + rest == sofar + bytes && collected != [] && collected[0] == MARK
      invariant if total.None? then |collected| < HEADER_BYTES
                else FrameLength(hex, collected) == total && HEADER_BYTES <= |collected| < total.value
      decreases if total.None? then 1 else 0
    {
      var target := if total.Some? then total.value else HEADER_BYTES;
      var wanted := if target - |collected| <= |rest| then target - |collected| else |rest|;
      if total.Some? { LengthStays(hex, collected, rest[..wanted]); }
      assert rest == rest[..wanted] + rest[wanted..];
      collected, rest := collected + rest[..wanted], rest[wanted..];
      assert collected + rest == sofar + bytes;
      if |collected| < target {
        assert collected == sofar + bytes;
        StillCollecting(hex, collected, total);
        return Collecting(collected, total), [];
      }
      if total.None? {
        var length := Announced(hex, collected);
        HeaderAnnouncing(hex, collected);
        if length.None? {
          BadHeader(hex, collected, rest);
          return Torn, [];
        }
        total := Some(length.value + HEADER_BYTES + 2);
      } else {
        WholeFrame(hex, collected, rest);
        var payload := CommittedPayload(hex, collected);
        if payload.None? { return Torn, []; }
        return if rest == [] then Committed else Trailing, [Found(payload.value)];
      }
    }
  }

  class Scanner {
    const hex: Digest
    var attempt: Attempt
    var found: seq<Scanned>
    /** The bytes of the ended attempts and of the current one. */
    ghost var closed: Bytes
    ghost var open: Bytes

    ghost predicate Valid()
      reads this
    {
      && IsRegion(open) && (open == [] || open[0] != MARK ==> closed == [])
      && attempt == StateOf(hex, open)
      && found == Scan(hex, closed) + ReportedOf(hex, open)
    }

    /** Everything fed so far. */
    ghost function Fed(): Bytes
      reads this
    {
      closed + open
    }

    /** How many bytes the scanner holds. */
    function Held(): nat
      reads this
    {
      if attempt.Collecting? then |attempt.bytes| else 0
    }

    constructor (digest: Digest)
      ensures hex == digest && Valid() && Fed() == []
    {
      hex, attempt, found := digest, Nothing, [];
      closed, open := [], [];
    }

    method EndAttempt()
      requires Valid()
      modifies this
      ensures attempt == Nothing && open == [] && closed == old(Fed()) && found == Scan(hex, closed)
    {
      hide Scan, StateOf, ReportedOf;
      EndedRegion(hex, open);
      if open == [] || open[0] != MARK {
        assert closed + open == open;
        NothingScanned(hex);
      } else {
        ScanOfSum(hex, closed, open);
      }
      found := found + Ending(attempt);
      attempt := Nothing;
      closed, open := closed + open, [];
    }

    /** A 0xFF ends the current attempt and starts the next. */
    method StartAttempt()
      requires Valid()
      modifies this
      ensures Valid() && Fed() == old(Fed()) + [MARK]
    {
      hide Scan;
      EndAttempt();
      attempt := Collecting([MARK], None);
      open := [MARK];
    }

    /** Bytes of the current attempt, which hold no 0xFF. */
    method Extend(bytes: Bytes)
      requires Valid() && Unmarked(bytes)
      modifies this
      ensures Valid() && Fed() == old(Fed()) + bytes
    {
      hide Scan, StateOf, ReportedOf;
      if bytes == [] { return; }
      CollectingOpen(hex, open);
      match attempt {
        case Nothing =>
          ExtendedRegion(hex, open, bytes);
          attempt := Leading;
        case Leading => ExtendedRegion(hex, open, bytes);
        case Torn => ExtendedRegion(hex, open, bytes);
        case Committed =>
          ExtendedRegion(hex, open, bytes);
          attempt := Trailing;
        case Trailing => ExtendedRegion(hex, open, bytes);
        case Collecting(collected, total) =>
          var next, reported := Collect(hex, collected, total, bytes);
          attempt := next;
          found := found + reported;
          assert (open + bytes)[1..] == open[1..] + bytes;
      }
      open := open + bytes;
    }

    /** Feeds the next bytes of the file. */
    method Feed(bytes: Bytes)
      requires Valid()
      modifies this
      ensures Valid() && Fed() == old(Fed()) + bytes
    {
      hide Valid;
      var rest := bytes;
      while rest != []
        invariant Valid() && Fed() + rest == old(Fed()) + bytes
        decreases |rest|
      {
        var at := FirstMark(rest);
        if at == 0 {
          StartAttempt();
          assert rest == [MARK] + rest[1..];
          rest := rest[1..];
        } else {
          Extend(rest[..at]);
          assert rest == rest[..at] + rest[at..];
          rest := rest[at..];
        }
      }
    }

    /** The items found, once every byte was fed. */
    method Finish() returns (all: seq<Scanned>)
      requires Valid()
      modifies this
      ensures all == Scan(hex, old(Fed()))
    {
      EndAttempt();
      all := found;
    }

    /** The items found when the rest cannot be read: only what the scan of the whole file finds first, whatever the
        rest holds, then one TORN. */
    method Abort() returns (all: seq<Scanned>)
      requires Valid()
      ensures all != [] && all[|all| - 1] == Lost && forall rest: Bytes :: all[..|all| - 1] <= Scan(hex, Fed() + rest)
    {
      hide Scan, StateOf, ReportedOf;
      all := found + [Lost];
      forall rest: Bytes
        ensures found <= Scan(hex, Fed() + rest)
      {
        FoundStays(hex, closed, open, rest);
      }
      assert all[..|all| - 1] == found;
    }

    /** The scanner holds less than one frame. */
    lemma HoldsLessThanAFrame()
      requires Valid()
      ensures Held() < LARGEST_FRAME
    {
    }
  }

  const MAX_FILE_BYTES := 64 * 1024 * 1024
  const CHUNK_BYTES := 64 * 1024

  /** Every chunk of a file of that length can be read, by chunk number. */
  ghost predicate EveryChunkReads(readable: nat -> bool, length: nat) {
    forall k: nat | k * CHUNK_BYTES < length :: readable(k)
  }

  /** Feeds the first `limit` bytes of a file chunk by chunk, up to the first chunk that cannot be read. */
  method FeedChunks(scanner: Scanner, file: Bytes, limit: nat, readable: nat -> bool) returns (whole: bool)
    requires scanner.Valid() && scanner.Fed() == [] && limit <= |file|
    modifies scanner
    ensures scanner.Valid() && scanner.Fed() <= file && (whole ==> scanner.Fed() == file[..limit])
    ensures whole <==> EveryChunkReads(readable, limit)
  {
    hide Scan, StateOf, ReportedOf;
    var offset, k := 0, 0;
    while offset < limit
      invariant offset <= limit && scanner.Valid() && scanner.Fed() == file[..offset]
      invariant offset <= k * CHUNK_BYTES && (offset < limit ==> offset == k * CHUNK_BYTES)
      invariant forall i: nat | i < k :: readable(i)
    {
      if !readable(k) { return false; }
      var end := if offset + CHUNK_BYTES <= limit then offset + CHUNK_BYTES else limit;
      scanner.Feed(file[offset..end]);
      assert file[..offset] + file[offset..end] == file[..end];
      offset, k := end, k + 1;
    }
    whole := true;
  }

  /** A whole-file scan in fixed chunks. It is complete exactly when the length was known, within the bound, and every
      chunk could be read; then it is the scan of the file, and otherwise it is what that scan finds first, with one
      TORN for the rest. */
  method ScanFile(hex: Digest, file: Bytes, measured: bool, readable: nat -> bool)
    returns (found: seq<Scanned>, complete: bool)
    ensures complete <==> measured && |file| <= MAX_FILE_BYTES && EveryChunkReads(readable, |file|)
    ensures complete ==> found == Scan(hex, file)
    ensures !complete ==> found != [] && found[|found| - 1] == Lost && found[..|found| - 1] <= Scan(hex, file)
  {
    hide Scan, StateOf, ReportedOf, EveryChunkReads;
    var scanner := new Scanner(hex);
    complete := false;
    if measured {
      var limit := if |file| <= MAX_FILE_BYTES then |file| else MAX_FILE_BYTES;
      var whole := FeedChunks(scanner, file, limit, readable);
      complete := whole && |file| <= limit;
      assert file[..|file|] == file;
    }
    if complete {
      found := scanner.Finish();
    } else {
      found := scanner.Abort();
      assert file == scanner.Fed() + file[|scanner.Fed()|..];
    }
  }
}
