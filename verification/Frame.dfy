/** The store frame and what a scan of a store file means: the bytes split at each 0xFF, every attempt read as one
    committed frame, optionally followed by one TORN for the bytes after it, or as one TORN. */
module Frame {
  import opened Vocabulary

  type Byte = x: nat | x < 256

  type Bytes = seq<Byte>

  /** The lowercase hexadecimal SHA-256 of bytes, as its 64 characters; any function of that shape stands for it. */
  type Digest = Bytes -> Bytes

  const MARK: Byte := 0xFF
  const SP: Byte := 32
  const LF: Byte := 10
  const MAGIC: Bytes := [0xFF, 0x00, 72, 69, 74, 49]
  const HEADER_BYTES := 146
  const MAX_PAYLOAD_BYTES := 0x10_0000
  const PENDING: Byte := 80
  const COMMITTED: Byte := 67
  const REVOKED: Byte := 82

  predicate IsLowerHex(b: Byte) {
    48 <= b <= 57 || 97 <= b <= 102
  }

  predicate AllLowerHex(field: Bytes) {
    forall i | 0 <= i < |field| :: IsLowerHex(field[i])
  }

  ghost predicate IsDigest(hex: Digest) {
    forall bytes :: |hex(bytes)| == 64 && AllLowerHex(hex(bytes))
  }

  /** No byte of it can start an attempt. */
  predicate Unmarked(bytes: Bytes) {
    forall i | 0 <= i < |bytes| :: bytes[i] != MARK
  }

  // ---------------------------------------------------------------------------------------------- hexadecimal lengths

  function HexDigit(n: nat): (b: Byte)
    requires n < 16
    ensures IsLowerHex(b)
  {
    if n < 10 then 48 + n else 87 + n
  }

  function HexValue(b: Byte): (n: nat)
    requires IsLowerHex(b)
    ensures n < 16
  {
    if b <= 57 then b - 48 else b - 87
  }

  function ToHex(n: nat, width: nat): (field: Bytes)
    ensures |field| == width && AllLowerHex(field)
  {
    if width == 0 then [] else ToHex(n / 16, width - 1) + [HexDigit(n % 16)]
  }

  function FromHex(field: Bytes): nat
    requires AllLowerHex(field)
  {
    if field == [] then 0 else FromHex(field[..|field| - 1]) * 16 + HexValue(field[|field| - 1])
  }

  function Pow16(width: nat): nat {
    if width == 0 then 1 else 16 * Pow16(width - 1)
  }

  lemma {:induction false} HexRoundTrip(n: nat, width: nat)
    requires n < Pow16(width)
    ensures FromHex(ToHex(n, width)) == n
  {
    if width > 0 {
      HexRoundTrip(n / 16, width - 1);
      assert ToHex(n, width)[..width - 1] == ToHex(n / 16, width - 1);
      assert HexValue(HexDigit(n % 16)) == n % 16;
    }
  }

  // ---------------------------------------------------------------------------------------------- encoding

  /** The 80 header bytes the header digest covers. */
  function Covered(hex: Digest, payload: Bytes): Bytes {
    MAGIC + [SP] + ToHex(|payload|, 8) + [SP] + hex(payload)
  }

  function Header(hex: Digest, payload: Bytes): Bytes {
    Covered(hex, payload) + [SP] + hex(Covered(hex, payload)) + [LF]
  }

  function FrameOf(hex: Digest, payload: Bytes, status: Byte): Bytes {
    Header(hex, payload) + payload + [status, LF]
  }

  // ---------------------------------------------------------------------------------------------- reading

  datatype Scanned = Found(payload: Bytes) | Lost

  /** The payload length a complete header announces. */
  function Announced(hex: Digest, header: Bytes): Option<nat>
    requires |header| == HEADER_BYTES
  {
    var length := header[7..15];
    if header[..6] != MAGIC || header[6] != SP || header[15] != SP || header[80] != SP || header[145] != LF then None
    else if !AllLowerHex(length) || !AllLowerHex(header[16..80]) || !AllLowerHex(header[81..145]) then None
    else if header[81..145] != hex(header[..80]) then None
    else if 1 <= FromHex(length) <= MAX_PAYLOAD_BYTES then Some(FromHex(length)) else None
  }

  /** The payload of a complete frame whose digest matches and whose status is committed. */
  function CommittedPayload(hex: Digest, frame: Bytes): Option<Bytes>
    requires |frame| >= HEADER_BYTES + 2
  {
    var payload := frame[HEADER_BYTES..|frame| - 2];
    if frame[|frame| - 2..] == [COMMITTED, LF] && frame[16..80] == hex(payload) then Some(payload) else None
  }

  /** The whole length of the frame an attempt announces, once its header is there. */
  function FrameLength(hex: Digest, attempt: Bytes): Option<nat> {
    if |attempt| < HEADER_BYTES then None
    else
      var length := Announced(hex, attempt[..HEADER_BYTES]);
      if length.Some? then Some(length.value + HEADER_BYTES + 2) else None
  }

  /** The committed payload an attempt starts with. */
  function CommittedIn(hex: Digest, attempt: Bytes): Option<Bytes> {
    var length := FrameLength(hex, attempt);
    if length.Some? && length.value <= |attempt| then CommittedPayload(hex, attempt[..length.value]) else None
  }

  function ReadAttempt(hex: Digest, attempt: Bytes): seq<Scanned> {
    var payload := CommittedIn(hex, attempt);
    if payload.None? then [Lost]
    else if |attempt| == FrameLength(hex, attempt).value then [Found(payload.value)]
    else [Found(payload.value), Lost]
  }

  /** The position of the first 0xFF, or the length. */
  function FirstMark(bytes: Bytes): (at: nat)
    ensures at <= |bytes| && Unmarked(bytes[..at]) && (at < |bytes| ==> bytes[at] == MARK)
  {
    if bytes == [] || bytes[0] == MARK then 0
    else
      var at := 1 + FirstMark(bytes[1..]);
      assert bytes[..at] == [bytes[0]] + bytes[1..][..at - 1];
      at
  }

  function ScanAttempts(hex: Digest, bytes: Bytes): seq<Scanned>
    requires bytes == [] || bytes[0] == MARK
  {
    if bytes == [] then []
    else
      var end := 1 + FirstMark(bytes[1..]);
      ReadAttempt(hex, bytes[..end]) + ScanAttempts(hex, bytes[end..])
  }

  /** What a scan of the bytes means. */
  function Scan(hex: Digest, bytes: Bytes): seq<Scanned> {
    var at := FirstMark(bytes);
    (if at > 0 then [Lost] else []) + ScanAttempts(hex, bytes[at..])
  }

  // ---------------------------------------------------------------------------------------------- laws of the scan

  lemma {:induction false} FirstMarkOfSum(x: Bytes, y: Bytes)
    requires FirstMark(x) < |x| || y == [] || y[0] == MARK
    ensures FirstMark(x + y) == FirstMark(x)
  {
    if x == [] {
      assert x + y == y;
    } else if x[0] != MARK {
      assert (x + y)[1..] == x[1..] + y;
      FirstMarkOfSum(x[1..], y);
    }
  }

  lemma FirstAttempt(hex: Digest, bytes: Bytes)
    requires bytes != [] && bytes[0] == MARK
    ensures var end := 1 + FirstMark(bytes[1..]);
            && end <= |bytes| && (end == |bytes| || bytes[end] == MARK)
            && ScanAttempts(hex, bytes) == ReadAttempt(hex, bytes[..end]) + ScanAttempts(hex, bytes[end..])
  {
    hide ReadAttempt, FirstMark, Unmarked;
  }

  /** What follows does not change how the first attempt reads. */
  lemma SumFirst(hex: Digest, x: Bytes, y: Bytes)
    requires x != [] && x[0] == MARK && (y == [] || y[0] == MARK)
    ensures var end := 1 + FirstMark(x[1..]);
            && end <= |x| && (end == |x| || x[end] == MARK)
            && ScanAttempts(hex, x + y) == ReadAttempt(hex, x[..end]) + ScanAttempts(hex, x[end..] + y)
  {
    hide ReadAttempt, ScanAttempts, FirstMark, Unmarked;
    var end := 1 + FirstMark(x[1..]);
    assert (x + y)[1..] == x[1..] + y;
    FirstMarkOfSum(x[1..], y);
    FirstAttempt(hex, x + y);
    assert (x + y)[..end] == x[..end] && (x + y)[end..] == x[end..] + y;
  }

  lemma {:induction false} AttemptsOfSum(hex: Digest, x: Bytes, y: Bytes)
    requires x == [] || x[0] == MARK
    requires y == [] || y[0] == MARK
    ensures ScanAttempts(hex, x + y) == ScanAttempts(hex, x) + ScanAttempts(hex, y)
    decreases |x|
  {
    hide ReadAttempt, FirstMark, Unmarked;
    if x == [] {
      assert x + y == y && ScanAttempts(hex, x) == [];
    } else {
      hide ScanAttempts;
      var end := 1 + FirstMark(x[1..]);
      FirstAttempt(hex, x);
      AttemptsOfSum(hex, x[end..], y);
      SumFirst(hex, x, y);
      var (r, m, n) := (ReadAttempt(hex, x[..end]), ScanAttempts(hex, x[end..]), ScanAttempts(hex, y));
      assert r + (m + n) == r + m + n;
    }
  }

  /** A scan distributes over concatenation wherever the right part is empty or starts an attempt: nothing written after
      a point can change how the bytes before it read. */
  lemma ScanOfSum(hex: Digest, x: Bytes, y: Bytes)
    requires y == [] || y[0] == MARK
    ensures Scan(hex, x + y) == Scan(hex, x) + Scan(hex, y)
  {
    hide ReadAttempt, ScanAttempts;
    var at := FirstMark(x);
    FirstMarkOfSum(x, y);
    assert (x + y)[at..] == x[at..] + y;
    AttemptsOfSum(hex, x[at..], y);
    if y != [] { assert FirstMark(y) == 0 && y[0..] == y; }
  }

  lemma {:induction false} NoMark(bytes: Bytes)
    requires Unmarked(bytes)
    ensures FirstMark(bytes) == |bytes|
  {
    if bytes != [] { NoMark(bytes[1..]); }
  }

  /** Bytes that hold one attempt. */
  lemma ScanOfAttempt(hex: Digest, attempt: Bytes)
    requires attempt != [] && attempt[0] == MARK && Unmarked(attempt[1..])
    ensures Scan(hex, attempt) == ReadAttempt(hex, attempt)
  {
    hide ReadAttempt;
    assert FirstMark(attempt) == 0 && attempt[0..] == attempt;
    NoMark(attempt[1..]);
    assert attempt[..|attempt|] == attempt && attempt[|attempt|..] == [];
    assert ScanAttempts(hex, attempt) == ReadAttempt(hex, attempt) + ScanAttempts(hex, []);
  }

  // ---------------------------------------------------------------------------------------------- laws of the frame

  lemma HeaderFields(hex: Digest, payload: Bytes)
    requires IsDigest(hex)
    ensures var h := Header(hex, payload);
            && |h| == HEADER_BYTES && h[..80] == Covered(hex, payload)
            && h[..6] == MAGIC && h[6] == SP && h[7..15] == ToHex(|payload|, 8) && h[15] == SP
            && h[16..80] == hex(payload) && h[80] == SP && h[81..145] == hex(Covered(hex, payload)) && h[145] == LF
  {
    var c := Covered(hex, payload);
    assert |c| == 80;
    assert c[..6] == MAGIC && c[6] == SP && c[7..15] == ToHex(|payload|, 8) && c[15] == SP && c[16..80] == hex(payload);
    var h := Header(hex, payload);
    assert h[..80] == c;
    assert h[..6] == c[..6] && h[7..15] == c[7..15] && h[16..80] == c[16..80];
  }

  lemma HeaderAnnounces(hex: Digest, payload: Bytes)
    requires IsDigest(hex) && 1 <= |payload| <= MAX_PAYLOAD_BYTES
    ensures |Header(hex, payload)| == HEADER_BYTES && Announced(hex, Header(hex, payload)) == Some(|payload|)
  {
    HeaderFields(hex, payload);
    assert Pow16(8) == 0x1_0000_0000 by {
      assert Pow16(1) == 16 && Pow16(2) == 256 && Pow16(3) == 4096 && Pow16(4) == 65536 && Pow16(5) == 1048576;
      assert Pow16(6) == 16777216 && Pow16(7) == 268435456;
    }
    HexRoundTrip(|payload|, 8);
  }

  /** A frame reads back: its payload when committed, nothing but one TORN with any other status. */
  lemma FrameReads(hex: Digest, payload: Bytes, status: Byte)
    requires IsDigest(hex) && 1 <= |payload| <= MAX_PAYLOAD_BYTES
    ensures ReadAttempt(hex, FrameOf(hex, payload, status)) == if status == COMMITTED then [Found(payload)] else [Lost]
  {
    var f, h := FrameOf(hex, payload, status), Header(hex, payload);
    HeaderAnnounces(hex, payload);
    HeaderFields(hex, payload);
    assert f[..HEADER_BYTES] == h;
    assert f[..|f|] == f && f[HEADER_BYTES..|f| - 2] == payload && f[|f| - 2..] == [status, LF];
    assert f[16..80] == h[16..80];
  }

  /** Any proper prefix of a frame reads as one TORN. */
  lemma PartialFrameReads(hex: Digest, payload: Bytes, status: Byte, n: nat)
    requires IsDigest(hex) && 1 <= |payload| <= MAX_PAYLOAD_BYTES && n < |FrameOf(hex, payload, status)|
    ensures ReadAttempt(hex, FrameOf(hex, payload, status)[..n]) == [Lost]
  {
    var f := FrameOf(hex, payload, status);
    HeaderAnnounces(hex, payload);
    if n >= HEADER_BYTES {
      assert f[..n][..HEADER_BYTES] == Header(hex, payload);
    }
  }

  lemma FrameIsAttempt(hex: Digest, payload: Bytes, status: Byte)
    requires IsDigest(hex) && Unmarked(payload) && status != MARK
    ensures var f := FrameOf(hex, payload, status); |f| > 1 && f[0] == MARK && Unmarked(f[1..])
  {
    var c := Covered(hex, payload);
    assert c[0] == MARK && Unmarked(c[1..]);
    var f := FrameOf(hex, payload, status);
    forall i | 1 <= i < |f|
      ensures f[i] != MARK
    {
      if i < |c| { assert f[i] == c[1..][i - 1]; }
    }
  }

  /** A committed frame is recovered whole after any bytes whatever. */
  lemma FrameRecovered(hex: Digest, before: Bytes, payload: Bytes)
    requires IsDigest(hex) && 1 <= |payload| <= MAX_PAYLOAD_BYTES && Unmarked(payload)
    ensures Scan(hex, before + FrameOf(hex, payload, COMMITTED)) == Scan(hex, before) + [Found(payload)]
  {
    var f := FrameOf(hex, payload, COMMITTED);
    FrameIsAttempt(hex, payload, COMMITTED);
    FrameReads(hex, payload, COMMITTED);
    ScanOfSum(hex, before, f);
    ScanOfAttempt(hex, f);
  }
}
