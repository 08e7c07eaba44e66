/** The hash-chained transcript after one DISPATCH: what each frame must be, and what a transcript that accepts TERMINAL
    has carried. */
module Transcript {
  import opened Vocabulary
  import opened Frame
  import opened Base64

  const MAX_CHUNK_BYTES := 24576
  const MAX_CHUNKS := 171
  const MAX_RECEIPT_BYTES := 4194304
  const ZERO := "sha256:0000000000000000000000000000000000000000000000000000000000000000"

  datatype Peer = Broker | Server

  datatype Body =
    | Started
    | Action(actionId: int, manifestDigest: string)
    | ActionResult(actionId: int)
    | Chunk(index: int, dataBase64: Bytes)
    | Cleanup(cleanupDigest: string)
    | Terminal(receiptSize: int, receiptDigest: string, cleanupDigest: string, workerReaped: bool)
    | Abort
    | Refused

  /** A frame of the schema, with the DISPATCH fields it echoes. */
  datatype Sent = Sent(sequence: int, previousDigest: string, echo: seq<string>, executionId: string, body: Body)

  datatype Input = Undecodable(code: FrameError) | OtherDocument | Decoded(frame: Sent)

  datatype Breach =
    | BadFrame(code: FrameError) | NotFrame | WrongDirection | WrongSequence | WrongChain | WrongEcho | WrongExecution
    | FirstFrame
    | StartedRepeated | RefusedNotFirst | ActionOutstanding | ActionAfterCleanup | ActionAfterAbort
    | ManifestOutsideCase
    | NoActionOutstanding | ActionMismatch | ChunkAfterCleanup | ChunkIndex | ChunkEncoding | ChunkSize | ChunkCount
    | ReceiptTooLarge | ChunksIncomplete | CleanupRepeated | TerminalBeforeCleanup | ReceiptSize | ReceiptDigest
    | CleanupDigest
    | SecondAbort | Ended

  datatype Phase = First | RefuseOnly | Running | Cleaned | Over

  /** An incremental hash: `absorbed` is the state after bytes, however they came in pieces. */
  datatype Hasher<!S> = Hasher(init: S, update: (S, Bytes) -> S, finish: S -> string, absorbed: Bytes -> S,
                               digest: Bytes -> string)

  ghost predicate IsHasher<S>(h: Hasher<S>) {
    && h.init == h.absorbed([])
    && (forall x: Bytes, y: Bytes :: h.update(h.absorbed(x), y) == h.absorbed(x + y))
    && (forall x: Bytes :: h.finish(h.absorbed(x)) == h.digest(x))
  }

  /** What a transcript is opened with. `chain` is the digest of a frame's canonical bytes. */
  datatype Opening<!S> = Opening(echo: seq<string>, executionId: string, resources: set<string>, refusing: bool,
                                 chain: Sent -> string, hasher: Hasher<S>)

  datatype State<!S> = State(phase: Phase, nextSequence: int, lastDigest: string, outstanding: Option<int>,
                             aborted: bool, nextIndex: int, receiptSize: nat, receipt: S, cleanup: Option<string>)

  function Fresh<S>(o: Opening<S>): State<S> {
    State(if o.refusing then RefuseOnly else First, 1, ZERO, None, false, 0, 0, o.hasher.init, None)
  }

  // ---------------------------------------------------------------------------------------------- one frame

  datatype Step<!S> = Takes(state: State<S>) | Breaks(breach: Breach)

  function PeerOf(b: Body): Peer {
    if b.ActionResult? || b.Cleanup? || b.Abort? then Server else Broker
  }

  function OnAction<S>(o: Opening<S>, t: State<S>, id: int, manifest: string): Step<S> {
    if t.phase == Cleaned then Breaks(ActionAfterCleanup)
    else if t.aborted then Breaks(ActionAfterAbort)
    else if t.outstanding.Some? then Breaks(ActionOutstanding)
    else if manifest !in o.resources then Breaks(ManifestOutsideCase)
    else Takes(t.(outstanding := Some(id)))
  }

  function OnChunk<S>(o: Opening<S>, t: State<S>, index: int, text: Bytes): Step<S> {
    if t.phase == Cleaned then Breaks(ChunkAfterCleanup)
    else if t.outstanding.Some? then Breaks(ActionOutstanding)
    else if index != t.nextIndex then Breaks(ChunkIndex)
    else if index >= MAX_CHUNKS then Breaks(ChunkCount)
    else
      var data := Canonical64(text);
      if data.None? then Breaks(ChunkEncoding)
      else if |data.value| > MAX_CHUNK_BYTES then Breaks(ChunkSize)
      else if t.receiptSize + |data.value| > MAX_RECEIPT_BYTES then Breaks(ReceiptTooLarge)
      else Takes(t.(receipt := o.hasher.update(t.receipt, data.value), receiptSize := t.receiptSize + |data.value|,
                    nextIndex := index + 1))
  }

  function OnTerminal<S>(o: Opening<S>, t: State<S>, size: int, digest: string, cleanup: string,
                         reaped: bool): Step<S> {
    if t.phase != Cleaned then Breaks(TerminalBeforeCleanup)
    else if t.outstanding.Some? then Breaks(ActionOutstanding)
    else if size != t.receiptSize then Breaks(ReceiptSize)
    else if digest != o.hasher.finish(t.receipt) then Breaks(ReceiptDigest)
    else if t.cleanup != Some(cleanup) then Breaks(CleanupDigest)
    else if !reaped then Breaks(NotFrame)
    else Takes(t.(phase := Over))
  }

  function OnRunning<S>(o: Opening<S>, t: State<S>, b: Body): Step<S> {
    match b
    case Started => Breaks(StartedRepeated)
    case Refused => Breaks(RefusedNotFirst)
    case Action(id, manifest) => OnAction(o, t, id, manifest)
    case ActionResult(id) =>
      if t.outstanding.None? then Breaks(NoActionOutstanding)
      else if t.outstanding.value != id then Breaks(ActionMismatch)
      else Takes(t.(outstanding := None))
    case Chunk(index, text) => OnChunk(o, t, index, text)
    case Cleanup(digest) =>
      if t.phase == Cleaned then Breaks(CleanupRepeated)
      else if t.outstanding.Some? then Breaks(ActionOutstanding)
      else if t.nextIndex < 1 then Breaks(ChunksIncomplete)
      else Takes(t.(cleanup := Some(digest), phase := Cleaned))
    case Terminal(size, digest, cleanup, reaped) => OnTerminal(o, t, size, digest, cleanup, reaped)
    case Abort => if t.aborted then Breaks(SecondAbort) else Takes(t.(aborted := true))
  }

  function OnBody<S>(o: Opening<S>, t: State<S>, b: Body): Step<S> {
    match t.phase
    case Over => Breaks(Ended)
    case First =>
      if b.Started? then Takes(t.(phase := Running)) else if b.Refused? then Takes(t.(phase := Over))
        else Breaks(FirstFrame)
    case RefuseOnly => if b.Refused? then Takes(t.(phase := Over)) else Breaks(FirstFrame)
    case _ => OnRunning(o, t, b)
  }

  /** One frame against the transcript: its envelope, then its place. */
  function Take<S>(o: Opening<S>, t: State<S>, f: Sent, from: Peer): Step<S> {
    if PeerOf(f.body) != from then Breaks(WrongDirection)
    else if f.sequence != t.nextSequence then Breaks(WrongSequence)
    else if f.previousDigest != t.lastDigest then Breaks(WrongChain)
    else if f.echo != o.echo then Breaks(WrongEcho)
    else if f.executionId != o.executionId then Breaks(WrongExecution)
    else
      var next := OnBody(o, t, f.body);
      if next.Takes? then Takes(next.state.(nextSequence := t.nextSequence + 1, lastDigest := o.chain(f))) else next
  }

  /** One datagram: a breach of any kind ends the transcript. */
  function Accept<S>(o: Opening<S>, t: State<S>, input: Input, from: Peer): (State<S>, Option<Breach>) {
    if t.phase == Over then (t, Some(Ended))
    else
      match input
      case Undecodable(code) => (t.(phase := Over), Some(BadFrame(code)))
      case OtherDocument => (t.(phase := Over), Some(NotFrame))
      case Decoded(f) =>
        var next := Take(o, t, f, from);
        if next.Takes? then (next.state, None) else (t.(phase := Over), Some(next.breach))
  }

  /** The state after frames taken one after another, if each was. */
  function StateAfter<S>(o: Opening<S>, fs: seq<Sent>): Option<State<S>> {
    if fs == [] then Some(Fresh(o))
    else
      var before := StateAfter(o, fs[..|fs| - 1]);
      if before.None? then None
      else
        var f := fs[|fs| - 1];
        var next := Take(o, before.value, f, PeerOf(f.body));
        if next.Takes? then Some(next.state) else None
  }

  // ---------------------------------------------------------------------------------------------- what was carried

  /** The decoded chunks, in order. */
  function Chunks(fs: seq<Sent>): seq<Bytes> {
    if fs == [] then []
    else
      var (before, b) := (Chunks(fs[..|fs| - 1]), fs[|fs| - 1].body);
      if b.Chunk? && Canonical64(b.dataBase64).Some? then before + [Canonical64(b.dataBase64).value] else before
  }

  function Concat(parts: seq<Bytes>): Bytes {
    if parts == [] then [] else Concat(parts[..|parts| - 1]) + parts[|parts| - 1]
  }

  function Receipt(fs: seq<Sent>): Bytes {
    Concat(Chunks(fs))
  }

  /** The action sent last and not yet answered. */
  function OpenAction(fs: seq<Sent>): Option<int> {
    if fs == [] then None
    else
      var b := fs[|fs| - 1].body;
      if b.Action? then Some(b.actionId) else if b.ActionResult? then None else OpenAction(fs[..|fs| - 1])
  }

  /** The frames and the state agree. */
  ghost predicate Tracks<S>(o: Opening<S>, t: State<S>, fs: seq<Sent>) {
    && t.nextSequence == |fs| + 1
    && t.lastDigest == (if fs == [] then ZERO else o.chain(fs[|fs| - 1]))
    && (t.phase == First || t.phase == RefuseOnly <==> fs == [])
    && t.outstanding == OpenAction(fs)
    && t.nextIndex == |Chunks(fs)| <= MAX_CHUNKS
    && t.receiptSize == |Receipt(fs)| <= MAX_RECEIPT_BYTES
    && t.receipt == o.hasher.absorbed(Receipt(fs))
    && (t.phase == Cleaned ==> t.outstanding.None? && t.nextIndex >= 1 && t.cleanup.Some?)
  }

  lemma FoldsOf(fs: seq<Sent>, f: Sent)
    ensures Chunks(fs + [f]) == (if f.body.Chunk? && Canonical64(f.body.dataBase64).Some?
                                 then Chunks(fs) + [Canonical64(f.body.dataBase64).value] else Chunks(fs))
    ensures OpenAction(fs + [f])
            == (if f.body.Action? then Some(f.body.actionId) else if f.body.ActionResult? then None else OpenAction(fs))
    ensures Receipt(fs + [f]) == (if f.body.Chunk? && Canonical64(f.body.dataBase64).Some?
                                  then Receipt(fs) + Canonical64(f.body.dataBase64).value else Receipt(fs))
  {
    assert (fs + [f])[..|fs|] == fs;
    if f.body.Chunk? && Canonical64(f.body.dataBase64).Some? {
      var more := Chunks(fs) + [Canonical64(f.body.dataBase64).value];
      assert more[..|more| - 1] == Chunks(fs);
    }
  }

  lemma TakeTracks<S>(o: Opening<S>, t: State<S>, fs: seq<Sent>, f: Sent)
    requires IsHasher(o.hasher) && Tracks(o, t, fs) && Take(o, t, f, PeerOf(f.body)).Takes?
    ensures Tracks(o, Take(o, t, f, PeerOf(f.body)).state, fs + [f])
  {
    hide Canonical64, Chunks, Concat, Receipt, OpenAction;
    FoldsOf(fs, f);
  }

  // ---------------------------------------------------------------------------------------------- positions

  lemma FreshTracks<S>(o: Opening<S>)
    requires IsHasher(o.hasher)
    ensures Tracks(o, Fresh(o), [])
  {
  }

  /** Every frame of a taken sequence was taken in the state the frames before it leave. */
  lemma {:induction false} At<S>(o: Opening<S>, fs: seq<Sent>, i: nat)
    requires IsHasher(o.hasher) && StateAfter(o, fs).Some? && i <= |fs|
    ensures StateAfter(o, fs[..i]).Some? && Tracks(o, StateAfter(o, fs[..i]).value, fs[..i])
    ensures i < |fs| ==>
              var next := Take(o, StateAfter(o, fs[..i]).value, fs[i], PeerOf(fs[i].body));
              next.Takes? && StateAfter(o, fs[..i + 1]) == Some(next.state)
    decreases |fs|
  {
    hide Take, Tracks;
    if i < |fs| {
      var before := fs[..|fs| - 1];
      At(o, before, i);
      assert before[..i] == fs[..i];
      if i < |fs| - 1 { assert before[..i + 1] == fs[..i + 1]; } else { assert fs[..i + 1] == fs && before == fs[..i]; }
    } else {
      assert fs[..i] == fs;
      if fs == [] {
        FreshTracks(o);
      } else {
        var before := fs[..|fs| - 1];
        At(o, before, |before|);
        assert before[..|before|] == before;
        TakeTracks(o, StateAfter(o, before).value, before, fs[|fs| - 1]);
        assert before + [fs[|fs| - 1]] == fs;
      }
    }
  }

  predicate OnlyAborts(fs: seq<Sent>, i: nat, j: nat) {
    forall k | i < k < j && k < |fs| :: fs[k].body.Abort?
  }

  predicate Answers(fs: seq<Sent>, i: nat, j: nat) {
    i < j < |fs| && fs[i].body.Action? && fs[j].body == ActionResult(fs[i].body.actionId) && OnlyAborts(fs, i, j)
  }

  /** While an action is outstanding only its result or an abort is taken. */
  lemma WhileOutstanding<S>(o: Opening<S>, t: State<S>, f: Sent)
    requires Take(o, t, f, PeerOf(f.body)).Takes? && t.outstanding.Some?
    requires t.phase == Running || t.phase == Cleaned
    ensures f.body.Abort? || f.body == ActionResult(t.outstanding.value)
  {
  }

  lemma PhaseAfter<S>(o: Opening<S>, fs: seq<Sent>, n: nat)
    requires IsHasher(o.hasher) && StateAfter(o, fs).Some? && 0 < n < |fs|
    ensures var t := StateAfter(o, fs[..n]); t.Some? && (t.value.phase == Running || t.value.phase == Cleaned)
  {
    hide Canonical64;
    At(o, fs, n);
  }

  /** An action is outstanding, with only aborts since, until its own result is taken. */
  lemma {:induction false} UntilAnswered<S>(o: Opening<S>, fs: seq<Sent>, i: nat, n: nat)
    requires IsHasher(o.hasher) && StateAfter(o, fs).Some? && i < n <= |fs| && fs[i].body.Action?
    ensures (exists j: nat :: j < n && Answers(fs, i, j))
            || (OpenAction(fs[..n]) == Some(fs[i].body.actionId) && OnlyAborts(fs, i, n))
    decreases n
  {
    hide Take, StateAfter, Canonical64;
    if n == i + 1 {
      assert fs[..n][..i] == fs[..i] && fs[..n][i] == fs[i];
    } else {
      UntilAnswered(o, fs, i, n - 1);
      if !exists j: nat :: j < n - 1 && Answers(fs, i, j) {
        At(o, fs, n - 1);
        PhaseAfter(o, fs, n - 1);
        WhileOutstanding(o, StateAfter(o, fs[..n - 1]).value, fs[n - 1]);
        assert fs[..n][..n - 1] == fs[..n - 1] && fs[..n][n - 1] == fs[n - 1];
        if !fs[n - 1].body.Abort? { assert Answers(fs, i, n - 1); }
      }
    }
  }

  /** An outstanding action was sent, with only aborts since. */
  lemma {:induction false} WasSent<S>(o: Opening<S>, fs: seq<Sent>, n: nat)
    requires IsHasher(o.hasher) && StateAfter(o, fs).Some? && n <= |fs| && OpenAction(fs[..n]).Some?
    ensures exists i: nat ::
              i < n && fs[i].body.Action? && Some(fs[i].body.actionId) == OpenAction(fs[..n]) && OnlyAborts(fs, i, n)
    decreases n
  {
    hide Take, StateAfter, Canonical64;
    assert fs[..n][..n - 1] == fs[..n - 1] && fs[..n][n - 1] == fs[n - 1];
    if fs[n - 1].body.Action? {
      assert OnlyAborts(fs, n - 1, n);
    } else {
      WasSent(o, fs, n - 1);
      At(o, fs, n - 1);
      PhaseAfter(o, fs, n - 1);
      WhileOutstanding(o, StateAfter(o, fs[..n - 1]).value, fs[n - 1]);
      var i: nat :| i < n - 1 && fs[i].body.Action? && Some(fs[i].body.actionId) == OpenAction(fs[..n - 1])
        && OnlyAborts(fs, i, n - 1);
      assert OnlyAborts(fs, i, n);
    }
  }

  lemma AbortKept<S>(o: Opening<S>, t: State<S>, f: Sent)
    requires Take(o, t, f, PeerOf(f.body)).Takes?
    ensures Take(o, t, f, PeerOf(f.body)).state.aborted == (t.aborted || f.body.Abort?)
  {
    hide Canonical64;
  }

  lemma NothingYet<S>(o: Opening<S>, fs: seq<Sent>)
    ensures StateAfter(o, fs[..0]) == Some(Fresh(o))
  {
  }

  lemma {:induction false} AbortSeen<S>(o: Opening<S>, fs: seq<Sent>, n: nat)
    requires IsHasher(o.hasher) && StateAfter(o, fs).Some? && n <= |fs|
    ensures var t := StateAfter(o, fs[..n]);
            t.Some? && (t.value.aborted <==> exists i: nat :: i < n && fs[i].body.Abort?)
    decreases n
  {
    hide Take, StateAfter, Tracks;
    At(o, fs, n);
    if n > 0 {
      At(o, fs, n - 1);
      AbortSeen(o, fs, n - 1);
      AbortKept(o, StateAfter(o, fs[..n - 1]).value, fs[n - 1]);
    } else {
      NothingYet(o, fs);
    }
  }

  lemma CleanupStep<S>(o: Opening<S>, t: State<S>, f: Sent)
    requires Take(o, t, f, PeerOf(f.body)).Takes? && (t.phase == Cleaned ==> t.outstanding.None?)
    ensures var u := Take(o, t, f, PeerOf(f.body)).state;
            && (u.phase == Cleaned <==>
                  (t.phase == Running && f.body.Cleanup?) || (t.phase == Cleaned && f.body.Abort?))
            && (u.phase == Cleaned ==> u.cleanup == if f.body.Cleanup? then Some(f.body.cleanupDigest) else t.cleanup)
            && (u.phase == Running ==> !f.body.Cleanup? && (t.phase == Running || t.phase == First))
  {
    hide Canonical64;
  }

  lemma FirstMeansNone<S>(o: Opening<S>, fs: seq<Sent>, n: nat)
    requires IsHasher(o.hasher) && StateAfter(o, fs).Some? && n <= |fs|
    requires var t := StateAfter(o, fs[..n]); t.Some? && (t.value.phase == First || t.value.phase == RefuseOnly)
    ensures n == 0
  {
    At(o, fs, n);
  }

  /** Once cleaned, exactly one CLEANUP_RECORDED was taken and only aborts since. */
  lemma {:induction false} CleanedSince<S>(o: Opening<S>, fs: seq<Sent>, n: nat)
    requires IsHasher(o.hasher) && StateAfter(o, fs).Some? && n <= |fs|
    ensures var t := StateAfter(o, fs[..n]);
            && t.Some?
            && (t.value.phase == Cleaned ==>
                  exists i: nat ::
                      i < n && fs[i].body.Cleanup? && t.value.cleanup == Some(fs[i].body.cleanupDigest)
                        && OnlyAborts(fs, i, n)
                                   && (forall k | 0 <= k < i :: !fs[k].body.Cleanup?))
            && (t.value.phase == Running ==> forall k | 0 <= k < n :: !fs[k].body.Cleanup?)
    decreases n
  {
    hide Take, StateAfter, Chunks, Receipt;
    At(o, fs, n);
    if n > 0 {
      At(o, fs, n - 1);
      CleanedSince(o, fs, n - 1);
      CleanupStep(o, StateAfter(o, fs[..n - 1]).value, fs[n - 1]);
      var t := StateAfter(o, fs[..n - 1]).value;
      if t.phase == Cleaned && fs[n - 1].body.Abort? {
        var i: nat :| i < n - 1 && fs[i].body.Cleanup? && t.cleanup == Some(fs[i].body.cleanupDigest)
          && OnlyAborts(fs, i, n - 1)
                      && (forall k | 0 <= k < i :: !fs[k].body.Cleanup?);
        assert OnlyAborts(fs, i, n);
      } else if t.phase == Running && fs[n - 1].body.Cleanup? {
        assert OnlyAborts(fs, n - 1, n);
      }
      if t.phase == First || t.phase == RefuseOnly { FirstMeansNone(o, fs, n - 1); }
    } else {
      NothingYet(o, fs);
    }
  }

  // ---------------------------------------------------------------------------------------------- theorems

  /** The envelope of every taken frame: sequence 1..n, an unbroken digest chain, the DISPATCH echoed. */
  lemma Chained<S>(o: Opening<S>, fs: seq<Sent>, i: nat)
    requires IsHasher(o.hasher) && StateAfter(o, fs).Some? && i < |fs|
    ensures fs[i].sequence == i + 1 && fs[i].previousDigest == (if i == 0 then ZERO else o.chain(fs[i - 1]))
    ensures fs[i].echo == o.echo && fs[i].executionId == o.executionId
  {
    At(o, fs, i);
  }

  /** STARTED opens and never comes again; REFUSED only ever comes alone. */
  lemma StartedFirst<S>(o: Opening<S>, fs: seq<Sent>, i: nat)
    requires IsHasher(o.hasher) && StateAfter(o, fs).Some? && i < |fs| && |fs| > 1
    ensures fs[i].body.Started? <==> i == 0
    ensures !fs[i].body.Refused?
  {
    hide Canonical64, OnChunk, OnTerminal;
    At(o, fs, i);
    At(o, fs, 0);
    PhaseAfter(o, fs, 1);
    if i > 0 { PhaseAfter(o, fs, i); }
  }

  /** Every taken chunk has the next index, is canonical and within its bound. */
  lemma ChunksInOrder<S>(o: Opening<S>, fs: seq<Sent>, i: nat)
    requires IsHasher(o.hasher) && StateAfter(o, fs).Some? && i < |fs| && fs[i].body.Chunk?
    ensures fs[i].body.index == |Chunks(fs[..i])| < MAX_CHUNKS
    ensures Canonical64(fs[i].body.dataBase64).Some? && |Canonical64(fs[i].body.dataBase64).value| <= MAX_CHUNK_BYTES
    ensures fs[i].body.dataBase64 == Encode64(Canonical64(fs[i].body.dataBase64).value)
  {
    hide Canonical64;
    At(o, fs, i);
    if Canonical64(fs[i].body.dataBase64).Some? {
      CanonicalExactly(fs[i].body.dataBase64, Canonical64(fs[i].body.dataBase64).value);
    }
  }

  /** Between 1 and 171 chunks of at most 4 MiB were carried, whose size and digest the last frame binds, and
      CLEANUP_RECORDED came once, with only aborts after it, and the last frame repeats its digest. */
  ghost predicate Bound<S>(o: Opening<S>, fs: seq<Sent>)
    requires fs != [] && fs[|fs| - 1].body.Terminal?
  {
    var last := |fs| - 1; var b := fs[last].body;
    && |fs| > 1 && b.receiptSize == |Receipt(fs)| <= MAX_RECEIPT_BYTES
    && b.receiptDigest == o.hasher.digest(Receipt(fs))
    && b.workerReaped && 1 <= |Chunks(fs)| <= MAX_CHUNKS
    && (exists i: nat :: i < last && fs[i].body == Cleanup(b.cleanupDigest) && OnlyAborts(fs, i, last)
                         && forall k | 0 <= k < i :: !fs[k].body.Cleanup?)
  }

  /** A transcript that accepted TERMINAL carried what TERMINAL binds. */
  lemma TerminalBinds<S>(o: Opening<S>, fs: seq<Sent>)
    requires IsHasher(o.hasher) && StateAfter(o, fs).Some? && fs != [] && fs[|fs| - 1].body.Terminal?
    ensures Bound(o, fs)
  {
    hide Canonical64, OnChunk, StateAfter;
    var last := |fs| - 1;
    At(o, fs, last);
    CleanedSince(o, fs, last);
    assert fs[..last] + [fs[last]] == fs;
    FoldsOf(fs[..last], fs[last]);
  }

  lemma ResultNeedsAction<S>(o: Opening<S>, t: State<S>, f: Sent)
    requires Take(o, t, f, PeerOf(f.body)).Takes? && f.body.ActionResult?
    ensures t.outstanding == Some(f.body.actionId)
  {
  }

  /** In a transcript that accepted TERMINAL each action was answered by its own result with only aborts between, and
      each result answers such an action. */
  lemma ActionsAnswered<S>(o: Opening<S>, fs: seq<Sent>, i: nat)
    requires IsHasher(o.hasher) && StateAfter(o, fs).Some? && fs != [] && fs[|fs| - 1].body.Terminal? && i < |fs|
    ensures fs[i].body.Action? ==> exists j: nat :: Answers(fs, i, j)
    ensures fs[i].body.ActionResult? ==> exists j: nat :: Answers(fs, j, i)
  {
    hide Canonical64, OnChunk, StateAfter;
    var last := |fs| - 1;
    if fs[i].body.Action? {
      At(o, fs, last);
      UntilAnswered(o, fs, i, last);
    } else if fs[i].body.ActionResult? {
      At(o, fs, i);
      ResultNeedsAction(o, StateAfter(o, fs[..i]).value, fs[i]);
      WasSent(o, fs, i);
      var j: nat :| j < i && fs[j].body.Action? && Some(fs[j].body.actionId) == OpenAction(fs[..i])
        && OnlyAborts(fs, j, i);
      assert Answers(fs, j, i);
    }
  }

  /** At most one abort, and no action after it. */
  lemma AbortsOnce<S>(o: Opening<S>, fs: seq<Sent>, i: nat, j: nat)
    requires IsHasher(o.hasher) && StateAfter(o, fs).Some? && i < j < |fs| && fs[i].body.Abort?
    ensures !fs[j].body.Abort? && !fs[j].body.Action?
  {
    hide Canonical64, OnChunk, OnTerminal, StateAfter;
    At(o, fs, j);
    AbortSeen(o, fs, j);
    PhaseAfter(o, fs, j);
  }

  /** Nothing is taken after TERMINAL or REFUSED. */
  lemma NothingAfterTheEnd<S>(o: Opening<S>, fs: seq<Sent>, f: Sent)
    requires fs != [] && StateAfter(o, fs).Some? && (fs[|fs| - 1].body.Terminal? || fs[|fs| - 1].body.Refused?)
    ensures StateAfter(o, fs + [f]) == None
    ensures forall input, from ::
              Accept(o, StateAfter(o, fs).value, input, from) == (StateAfter(o, fs).value, Some(Ended))
  {
    hide Canonical64, OnChunk;
    assert (fs + [f])[..|fs|] == fs;
  }

  // ---------------------------------------------------------------------------------------------- the builders

  /** The next frame a transcript builds itself. */
  function Built<S>(o: Opening<S>, t: State<S>, b: Body): Sent {
    Sent(t.nextSequence, t.lastDigest, o.echo, o.executionId, b)
  }

  /** A frame the broker builds never breaches its envelope: only its place can be refused. */
  lemma BuiltEnvelope<S>(o: Opening<S>, t: State<S>, b: Body)
    requires PeerOf(b) == Broker
    ensures Take(o, t, Built(o, t, b), Broker).Takes? <==> OnBody(o, t, b).Takes?
    ensures OnBody(o, t, b).Breaks? ==> Take(o, t, Built(o, t, b), Broker) == OnBody(o, t, b)
  {
    hide OnBody;
  }

  /** The chunk builder's frame is refused only for its place, its size or the receipt's. */
  lemma BuiltChunk<S>(o: Opening<S>, t: State<S>, data: Bytes)
    requires t.phase == Running && t.outstanding.None? && t.nextIndex < MAX_CHUNKS
    ensures OnBody(o, t, Chunk(t.nextIndex, Encode64(data))).Takes? <==>
              |data| <= MAX_CHUNK_BYTES && t.receiptSize + |data| <= MAX_RECEIPT_BYTES
  {
    hide Encode64, Canonical64;
    CanonicalExactly(Encode64(data), data);
  }

  /** The terminal builder's frame is always taken once the transcript is cleaned. */
  lemma BuiltTerminal<S>(o: Opening<S>, t: State<S>)
    requires t.phase == Cleaned && t.outstanding.None? && t.cleanup.Some?
    ensures OnBody(o, t, Terminal(t.receiptSize, o.hasher.finish(t.receipt), t.cleanup.value, true)).Takes?
  {
  }

  predicate EnvelopeAt<S>(o: Opening<S>, fs: seq<Sent>, i: nat)
    requires i < |fs|
  {
    && fs[i].sequence == i + 1 && fs[i].previousDigest == (if i == 0 then ZERO else o.chain(fs[i - 1]))
    && fs[i].echo == o.echo && fs[i].executionId == o.executionId
  }

  /** What holds of everything a transcript took. */
  ghost predicate Whole<S>(o: Opening<S>, fs: seq<Sent>) {
    && (forall i: nat | i < |fs| :: EnvelopeAt(o, fs, i))
    && (fs != [] && fs[|fs| - 1].body.Terminal? ==>
          Bound(o, fs) && forall i: nat | i < |fs| && fs[i].body.Action? :: exists j: nat :: Answers(fs, i, j))
  }

  lemma WholeByNow<S>(o: Opening<S>, fs: seq<Sent>)
    requires StateAfter(o, fs).Some?
    ensures IsHasher(o.hasher) ==> Whole(o, fs)
  {
    hide StateAfter, Bound, Answers, IsHasher;
    if IsHasher(o.hasher) {
      forall i: nat | i < |fs|
        ensures EnvelopeAt(o, fs, i)
      {
        Chained(o, fs, i);
      }
      if fs != [] && fs[|fs| - 1].body.Terminal? {
        TerminalBinds(o, fs);
        forall i: nat | i < |fs| && fs[i].body.Action?
          ensures exists j: nat :: Answers(fs, i, j)
        {
          ActionsAnswered(o, fs, i);
        }
      }
    }
  }

  lemma TakenNext<S>(o: Opening<S>, fs: seq<Sent>, t: State<S>, f: Sent, from: Peer)
    requires StateAfter(o, fs) == Some(t)
    ensures Take(o, t, f, from).Takes? ==>
              from == PeerOf(f.body) && StateAfter(o, fs + [f]) == Some(Take(o, t, f, from).state)
  {
    hide OnBody;
    assert (fs + [f])[..|fs|] == fs;
  }

  lemma BodyKeepsChain<S>(o: Opening<S>, t: State<S>, b: Body)
    requires OnBody(o, t, b).Takes?
    ensures OnBody(o, t, b).state.nextSequence == t.nextSequence
  {
    hide Canonical64;
  }

  // ------------------------------------------------------------------------------------------ the transcript, in place

  class Transcript<!S(0)> {
    const opening: Opening<S>
    var phase: Phase
    var nextSequence: int
    var lastDigest: string
    var outstanding: Option<int>
    var aborted: bool
    var nextIndex: int
    var receiptSize: nat
    var receipt: S
    var cleanup: Option<string>
    /** The frames taken so far. */
    ghost var taken: seq<Sent>

    ghost function View(): State<S>
      reads this
    {
      State(phase, nextSequence, lastDigest, outstanding, aborted, nextIndex, receiptSize, receipt, cleanup)
    }

    /** The transcript is where its frames lead, until a breach ends it. */
    ghost predicate Valid()
      reads this
    {
      StateAfter(opening, taken).Some? && (phase == Over || StateAfter(opening, taken) == Some(View()))
    }

    constructor (o: Opening<S>)
      ensures opening == o && View() == Fresh(o) && Valid() && taken == []
    {
      opening := o;
      phase, nextSequence, lastDigest := if o.refusing then RefuseOnly else First, 1, ZERO;
      outstanding, aborted, nextIndex, receiptSize, receipt, cleanup := None, false, 0, 0, o.hasher.init, None;
      taken := [];
    }

    /** What a step came to: the new state, or the breach with nothing changed yet. */
    ghost predicate Did(step: Step<S>, before: State<S>, breach: Option<Breach>)
      reads this
    {
      match step
      case Takes(t) => breach.None? && View() == t
      case Breaks(b) => breach == Some(b) && View() == before
    }

    method TakeAction(id: int, manifest: string) returns (breach: Option<Breach>)
      modifies this
      ensures Did(OnAction(opening, old(View()), id, manifest), old(View()), breach)
    {
      if phase == Cleaned { return Some(ActionAfterCleanup); }
      if aborted { return Some(ActionAfterAbort); }
      if outstanding.Some? { return Some(ActionOutstanding); }
      if manifest !in opening.resources { return Some(ManifestOutsideCase); }
      outstanding := Some(id);
      return None;
    }

    method TakeChunk(index: int, text: Bytes) returns (breach: Option<Breach>)
      modifies this
      ensures Did(OnChunk(opening, old(View()), index, text), old(View()), breach)
    {
      hide Canonical64;
      if phase == Cleaned { return Some(ChunkAfterCleanup); }
      if outstanding.Some? { return Some(ActionOutstanding); }
      if index != nextIndex { return Some(ChunkIndex); }
      if index >= MAX_CHUNKS { return Some(ChunkCount); }
      var data := Canonical64(text);
      if data.None? { return Some(ChunkEncoding); }
      if |data.value| > MAX_CHUNK_BYTES { return Some(ChunkSize); }
      if receiptSize + |data.value| > MAX_RECEIPT_BYTES { return Some(ReceiptTooLarge); }
      receipt := opening.hasher.update(receipt, data.value);
      receiptSize := receiptSize + |data.value|;
      nextIndex := index + 1;
      return None;
    }

    method TakeTerminal(size: int, digest: string, repeated: string, reaped: bool) returns (breach: Option<Breach>)
      modifies this
      ensures Did(OnTerminal(opening, old(View()), size, digest, repeated, reaped), old(View()), breach)
    {
      if phase != Cleaned { return Some(TerminalBeforeCleanup); }
      if outstanding.Some? { return Some(ActionOutstanding); }
      if size != receiptSize { return Some(ReceiptSize); }
      if digest != opening.hasher.finish(receipt) { return Some(ReceiptDigest); }
      if cleanup != Some(repeated) { return Some(CleanupDigest); }
      if !reaped { return Some(NotFrame); }
      phase := Over;
      return None;
    }

    method TakeRunning(b: Body) returns (breach: Option<Breach>)
      modifies this
      ensures Did(OnRunning(opening, old(View()), b), old(View()), breach)
    {
      hide OnAction, OnChunk, OnTerminal;
      match b {
        case Started => return Some(StartedRepeated);
        case Refused => return Some(RefusedNotFirst);
        case Action(id, manifest) => breach := TakeAction(id, manifest);
        case ActionResult(id) =>
          if outstanding.None? { return Some(NoActionOutstanding); }
          if outstanding.value != id { return Some(ActionMismatch); }
          outstanding := None;
          return None;
        case Chunk(index, text) => breach := TakeChunk(index, text);
        case Cleanup(digest) =>
          if phase == Cleaned { return Some(CleanupRepeated); }
          if outstanding.Some? { return Some(ActionOutstanding); }
          if nextIndex < 1 { return Some(ChunksIncomplete); }
          cleanup, phase := Some(digest), Cleaned;
          return None;
        case Terminal(size, digest, repeated, reaped) => breach := TakeTerminal(size, digest, repeated, reaped);
        case Abort =>
          if aborted { return Some(SecondAbort); }
          aborted := true;
          return None;
      }
    }

    method TakeBody(b: Body) returns (breach: Option<Breach>)
      modifies this
      ensures Did(OnBody(opening, old(View()), b), old(View()), breach)
    {
      hide OnRunning;
      match phase {
        case Over => return Some(Ended);
        case First =>
          if b.Started? { phase := Running; return None; }
          if b.Refused? { phase := Over; return None; }
          return Some(FirstFrame);
        case RefuseOnly =>
          if b.Refused? { phase := Over; return None; }
          return Some(FirstFrame);
        case _ => breach := TakeRunning(b);
      }
    }

    /** Checks one frame and, if it holds, takes it as the next. */
    method Check(f: Sent, from: Peer) returns (breach: Option<Breach>)
      modifies this
      ensures Did(Take(opening, old(View()), f, from), old(View()), breach)
    {
      hide OnBody;
      if PeerOf(f.body) != from { return Some(WrongDirection); }
      if f.sequence != nextSequence { return Some(WrongSequence); }
      if f.previousDigest != lastDigest { return Some(WrongChain); }
      if f.echo != opening.echo { return Some(WrongEcho); }
      if f.executionId != opening.executionId { return Some(WrongExecution); }
      breach := TakeBody(f.body);
      if breach.None? {
        BodyKeepsChain(opening, old(View()), f.body);
        nextSequence := nextSequence + 1;
        lastDigest := opening.chain(f);
      }
    }

    /** One datagram: the next frame is taken, or the transcript has ended. What it took is chained, and once TERMINAL
        is among it, TERMINAL binds all of it and each action was answered. */
    method AcceptInput(input: Input, from: Peer) returns (breach: Option<Breach>)
      requires Valid()
      modifies this
      ensures (View(), breach) == Accept(opening, old(View()), input, from)
      ensures Valid() && (breach.Some? ==> phase == Over && taken == old(taken))
      ensures breach.None? ==> input.Decoded? && taken == old(taken) + [input.frame] && from == PeerOf(input.frame.body)
      ensures IsHasher(opening.hasher) ==> Whole(opening, taken)
    {
      hide Take, StateAfter, Whole, IsHasher;
      ghost var before := taken;
      WholeByNow(opening, taken);
      if phase == Over { return Some(Ended); }
      match input {
        case Undecodable(code) => breach := Some(BadFrame(code));
        case OtherDocument => breach := Some(NotFrame);
        case Decoded(f) =>
          TakenNext(opening, taken, View(), f, from);
          breach := Check(f, from);
          if breach.None? { before := before + [f]; }
      }
      taken := before;
      WholeByNow(opening, taken);
      if breach.Some? { phase := Over; }
    }
  }
}
