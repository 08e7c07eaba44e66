/** The durable journal as typed records, what one append comes to, and the journal-and-marker pair of one
    generation. */
module Journal {
  import opened Vocabulary

  datatype TerminalDetails =
    | Delivered(httpStatus: int, resultDigest: string, observedUid: Option<string>,
                observedResourceVersion: Option<string>)
    | Reconciliation(httpStatus: int, resultDigest: string)
    | NoDetails
    | Aborted

  datatype WriteDetails =
    | WriteDelivered(httpStatus: int, resultDigest: string, observedUid: Option<string>,
                     observedResourceVersion: Option<string>)
    | WriteReconciliation(httpStatus: int, resultDigest: string)
    | WriteLost
    | WriteAborted(reason: AbortReason)

  datatype Prior = Prior(uid: string, resourceVersion: string, projectionDigest: string)

  datatype Record =
    | Bind(executionId: string, runNonce: string, reservationDigest: string,
           manifestDigests: seq<string>, manifestIdentities: seq<string>)
    | Arm(actionId: nat, verb: Verb, manifestDigest: string, recordedUid: Option<string>, templateDigest: string)
    | Consumed(actionId: nat)
    | Terminal(actionId: nat, classification: Classification, afterInvalidation: bool, details: TerminalDetails)
    | Sealed(actionId: nat, classification: Classification, afterInvalidation: bool)
    | Denied(actionId: nat)
    | Invalidated(invalidation: Invalidation, state: State)
    | Closed(closeReason: CloseReason, state: State)
    | Drained(state: State)
    | DrainStarted
    | ChannelEnded(end: ChannelEnd)
    | Expired(executionId: string)
    | LateUpstream(actionId: nat)
    | Restarted(state: State)
    | MaintRequested(generation: string)
    | MaintOpened(state: State)
    | MaintWasHeld(state: State)
    | WriteForwarded(writeId: nat, operation: WriteOperation, apiVersion: string, kind: string,
                     namespace: Option<string>, name: string, requestDigest: string, prior: Option<Prior>)
    | WriteTerminal(writeId: nat, classification: Classification, writeDetails: WriteDetails)
    | MaintWasEnded(maintenanceEnd: MaintenanceEnd, writes: nat, ambiguousWriteIds: seq<nat>)
    | WriterSessionEnded(how: SessionEnd)
    | WriteLateUpstream(writeId: nat)

  /** A journal position: a record, or the placeholder a torn write leaves. */
  datatype Entry = Rec(record: Record) | Torn

  /** What one append came to; `torn` when the attempt may have left bytes. */
  datatype Appended = Durable | Failed(torn: bool)

  /** What an append that answered torn left in the file: a torn entry, as answered; nothing, when no byte was written
      and the length could not be read; or the record, committed and not revoked. */
  datatype Leaving = AsAnswered | NothingLeft | RecordLeft

  /** The environment: what the n-th journal append answers and leaves in the file, and whether the n-th marker write
      leaves a marker. Every theorem quantifies over it, so it stands for every pattern of clean and torn storage
      failures. */
  datatype World = World(append: nat -> Appended, left: nat -> Leaving, mark: nat -> bool)

  /** The mirror of the journal, what a scan of its file would find, the marker, how many attempts were made on each,
      and whether some append left the file other than the mirror. */
  datatype AnyStores = StoresOf(entries: seq<Entry>, file: seq<Entry>, marker: bool, appends: nat, marks: nat,
                                parted: bool)

  /** Until an append parts them, the mirror is what a scan of the file finds; the one that does leaves the mirror
      torn. */
  type Stores = s: AnyStores | if s.parted then Torn in s.entries else s.file == s.entries witness NO_STORES

  const NO_STORES := StoresOf([], [], false, 0, 0, false)

  /** What one append adds to the mirror. */
  function Added(appended: Appended, record: Record): seq<Entry> {
    match appended
    case Durable => [Rec(record)]
    case Failed(torn) => if torn then [Torn] else []
  }

  /** The append leaves the file other than the mirror. */
  predicate PartsAt(w: World, n: nat) {
    w.append(n) == Failed(true) && w.left(n) != AsAnswered
  }

  /** What one append adds to the file. */
  function Left(w: World, n: nat, record: Record): seq<Entry> {
    if !PartsAt(w, n) then Added(w.append(n), record) else if w.left(n) == RecordLeft then [Rec(record)] else []
  }

  function Append(w: World, s: Stores, record: Record): Stores {
    s.(entries := s.entries + Added(w.append(s.appends), record), file := s.file + Left(w, s.appends, record),
       appends := s.appends + 1, parted := s.parted || PartsAt(w, s.appends))
  }

  predicate LastsNext(w: World, s: Stores) {
    w.append(s.appends) == Durable
  }

  /** A present marker is never rewritten. */
  function WriteMarker(w: World, s: Stores): Stores {
    if s.marker then s else s.(marker := w.mark(s.marks), marks := s.marks + 1)
  }

  /** What no operation takes back. */
  predicate Longer(s: Stores, t: Stores) {
    s.entries <= t.entries && s.file <= t.file && (s.marker ==> t.marker) && (s.parted ==> t.parted)
  }
}
