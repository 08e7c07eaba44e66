/** Journal records as tuples and their strict decoding: a payload decodes to a record exactly when it is the canonical
    text of that record's own tuple. Canonical JSON text is an abstract inverse pair. */
module RecordCodec {
  import opened Vocabulary
  import opened Journal
  import opened Frame

  /** A JSON value; an object is its members, whatever their order. */
  datatype Doc =
    | DNull
    | DBool(truth: bool)
    | DInt(number: int)
    | DText(text: string)
    | DArray(items: seq<Doc>)
    | DObject(members: map<string, Doc>)

  /** The canonical text of a value and its parser. */
  datatype Json = Json(canonical: Doc -> Bytes, parse: Bytes -> Option<Doc>)

  /** Canonical text parses back to its value, is never empty and holds no 0xFF. */
  ghost predicate IsJson(j: Json) {
    forall d :: j.parse(j.canonical(d)) == Some(d) && j.canonical(d) != [] && Unmarked(j.canonical(d))
  }

  // ---------------------------------------------------------------------------------------------- names

  function StateName(s: State): string {
    match s
    case Inspecting => "INSPECTING"
    case Active => "ACTIVE"
    case Draining => "DRAINING"
    case Closed => "CLOSED"
    case Invalidated => "INVALIDATED"
    case Held => "HELD"
  }

  function ParseState(d: Doc): Option<State> {
    if d == DText("INSPECTING") then Some(Inspecting)
    else if d == DText("ACTIVE") then Some(Active)
    else if d == DText("DRAINING") then Some(Draining)
    else if d == DText("CLOSED") then Some(State.Closed)
    else if d == DText("INVALIDATED") then Some(State.Invalidated)
    else if d == DText("HELD") then Some(Held)
    else None
  }

  function ClassificationName(c: Classification): string {
    match c
    case NotForwarded => "NOT_FORWARDED"
    case DeliveredResult => "DELIVERED_RESULT"
    case IoAmbiguous => "IO_AMBIGUOUS"
  }

  function ParseClassification(d: Doc): Option<Classification> {
    if d == DText("NOT_FORWARDED") then Some(NotForwarded)
    else if d == DText("DELIVERED_RESULT") then Some(DeliveredResult)
    else if d == DText("IO_AMBIGUOUS") then Some(IoAmbiguous)
    else None
  }

  function VerbName(v: Verb): string {
    match v
    case Create => "CREATE"
    case Get => "GET"
    case Delete => "DELETE"
  }

  function ParseVerb(d: Doc): Option<Verb> {
    if d == DText("CREATE") then Some(Create)
    else if d == DText("GET") then Some(Get)
    else if d == DText("DELETE") then Some(Delete)
    else None
  }

  function OperationName(o: WriteOperation): string {
    match o
    case WriteCreate => "CREATE"
    case WriteUpdate => "UPDATE"
    case WriteDelete => "DELETE"
  }

  function ParseOperation(d: Doc): Option<WriteOperation> {
    if d == DText("CREATE") then Some(WriteCreate)
    else if d == DText("UPDATE") then Some(WriteUpdate)
    else if d == DText("DELETE") then Some(WriteDelete)
    else None
  }

  function CloseName(r: CloseReason): string {
    match r
    case NormalDrain => "NORMAL_DRAIN"
    case Revocation => "REVOCATION"
    case Expiry => "EXPIRY"
    case PeerFailure => "PEER_FAILURE"
    case StorageFailure => "STORAGE_FAILURE"
    case ObservationFailure => "OBSERVATION_FAILURE"
    case ReconciliationRequired => "RECONCILIATION_REQUIRED"
  }

  function ParseClose(d: Doc): Option<CloseReason> {
    if d == DText("NORMAL_DRAIN") then Some(NormalDrain)
    else if d == DText("REVOCATION") then Some(Revocation)
    else if d == DText("EXPIRY") then Some(Expiry)
    else if d == DText("PEER_FAILURE") then Some(PeerFailure)
    else if d == DText("STORAGE_FAILURE") then Some(StorageFailure)
    else if d == DText("OBSERVATION_FAILURE") then Some(ObservationFailure)
    else if d == DText("RECONCILIATION_REQUIRED") then Some(ReconciliationRequired)
    else None
  }

  function FrameErrorName(e: FrameError): string {
    match e
    case F00 => "F00_INVALID_FRAME"
    case F01 => "F01_INVALID_FRAME"
    case F02 => "F02_INVALID_FRAME"
    case F03 => "F03_INVALID_FRAME"
    case F04 => "F04_INVALID_FRAME"
    case F05 => "F05_INVALID_FRAME"
    case F06 => "F06_INVALID_FRAME"
    case F07 => "F07_INVALID_FRAME"
  }

  function ParseFrameError(d: Doc): Option<FrameError> {
    if d == DText("F00_INVALID_FRAME") then Some(F00)
    else if d == DText("F01_INVALID_FRAME") then Some(F01)
    else if d == DText("F02_INVALID_FRAME") then Some(F02)
    else if d == DText("F03_INVALID_FRAME") then Some(F03)
    else if d == DText("F04_INVALID_FRAME") then Some(F04)
    else if d == DText("F05_INVALID_FRAME") then Some(F05)
    else if d == DText("F06_INVALID_FRAME") then Some(F06)
    else if d == DText("F07_INVALID_FRAME") then Some(F07)
    else None
  }

  function FatalName(f: FatalReason): string {
    match f
    case InvalidFrame(e) => FrameErrorName(e)
    case Direction => "DIRECTION"
    case ChainBroken => "CHAIN_BROKEN"
    case GenerationMismatch => "GENERATION_MISMATCH"
    case OpeningFrameRequired => "OPENING_FRAME_REQUIRED"
    case ChallengeMismatch => "CHALLENGE_MISMATCH"
    case PeerQualificationMismatch => "PEER_QUALIFICATION_MISMATCH"
    case PeerLost => "PEER_LOST"
    case PeerChanged => "PEER_CHANGED"
    case ResponseOutOfBounds => "RESPONSE_OUT_OF_BOUNDS"
    case AnswerLate => "ANSWER_LATE"
  }

  function ParseFatal(d: Doc): Option<FatalReason> {
    if ParseFrameError(d).Some? then Some(InvalidFrame(ParseFrameError(d).value))
    else if d == DText("DIRECTION") then Some(Direction)
    else if d == DText("CHAIN_BROKEN") then Some(ChainBroken)
    else if d == DText("GENERATION_MISMATCH") then Some(GenerationMismatch)
    else if d == DText("OPENING_FRAME_REQUIRED") then Some(OpeningFrameRequired)
    else if d == DText("CHALLENGE_MISMATCH") then Some(ChallengeMismatch)
    else if d == DText("PEER_QUALIFICATION_MISMATCH") then Some(PeerQualificationMismatch)
    else if d == DText("PEER_LOST") then Some(PeerLost)
    else if d == DText("PEER_CHANGED") then Some(PeerChanged)
    else if d == DText("RESPONSE_OUT_OF_BOUNDS") then Some(ResponseOutOfBounds)
    else if d == DText("ANSWER_LATE") then Some(AnswerLate)
    else None
  }

  function InvalidationName(i: Invalidation): string {
    match i
    case ByClose(reason) => CloseName(reason)
    case ByFatal(reason) => FatalName(reason)
    case WriterPeerDeviation => "WRITER_PEER_DEVIATION"
  }

  function ParseInvalidation(d: Doc): Option<Invalidation> {
    if d == DText("WRITER_PEER_DEVIATION") then Some(WriterPeerDeviation)
    else if ParseClose(d).Some? then Some(ByClose(ParseClose(d).value))
    else if ParseFatal(d).Some? then Some(ByFatal(ParseFatal(d).value))
    else None
  }

  function EndName(e: ChannelEnd): string {
    match e
    case BeforeFirstFrame => "BEFORE_FIRST_FRAME"
    case Orderly => "ORDERLY"
  }

  function ParseEnd(d: Doc): Option<ChannelEnd> {
    if d == DText("BEFORE_FIRST_FRAME") then Some(BeforeFirstFrame)
    else if d == DText("ORDERLY") then Some(Orderly)
    else None
  }

  function SessionName(s: SessionEnd): string {
    match s
    case SessionEnded => "ENDED"
    case SessionFatal => "FATAL"
  }

  function ParseSession(d: Doc): Option<SessionEnd> {
    if d == DText("ENDED") then Some(SessionEnded) else if d == DText("FATAL") then Some(SessionFatal) else None
  }

  function MaintenanceEndName(e: MaintenanceEnd): string {
    match e
    case WriteEnd => "WRITE_END"
    case BySession(SessionEnded) => "SESSION_ENDED"
    case BySession(SessionFatal) => "SESSION_FATAL"
  }

  function ParseMaintenanceEnd(d: Doc): Option<MaintenanceEnd> {
    if d == DText("WRITE_END") then Some(WriteEnd)
    else if d == DText("SESSION_ENDED") then Some(BySession(SessionEnded))
    else if d == DText("SESSION_FATAL") then Some(BySession(SessionFatal))
    else None
  }

  function AbortName(r: AbortReason): string {
    match r
    case WriterChannelLost => "WRITER_CHANNEL_LOST"
    case WriterPeerDeviated => "WRITER_PEER_DEVIATION"
    case WriterProtocolFailure => "WRITER_PROTOCOL_FAILURE"
    case UpstreamTimedOut => "UPSTREAM_TIMEOUT"
  }

  function ParseAbort(d: Doc): Option<AbortReason> {
    if d == DText("WRITER_CHANNEL_LOST") then Some(WriterChannelLost)
    else if d == DText("WRITER_PEER_DEVIATION") then Some(WriterPeerDeviated)
    else if d == DText("WRITER_PROTOCOL_FAILURE") then Some(WriterProtocolFailure)
    else if d == DText("UPSTREAM_TIMEOUT") then Some(UpstreamTimedOut)
    else None
  }

  lemma StateNames(s: State)
    ensures ParseState(DText(StateName(s))) == Some(s)
  {
  }

  lemma ClassificationNames(c: Classification)
    ensures ParseClassification(DText(ClassificationName(c))) == Some(c)
  {
  }

  lemma CloseNames(r: CloseReason)
    ensures ParseClose(DText(CloseName(r))) == Some(r) && CloseName(r) != "WRITER_PEER_DEVIATION"
  {
  }

  /** The eight names differ in their third character. */
  lemma FrameErrorNames(e: FrameError)
    ensures ParseFrameError(DText(FrameErrorName(e))) == Some(e)
  {
    assert "F00_INVALID_FRAME"[2] == '0' && "F01_INVALID_FRAME"[2] == '1' && "F02_INVALID_FRAME"[2] == '2';
    assert "F03_INVALID_FRAME"[2] == '3' && "F04_INVALID_FRAME"[2] == '4' && "F05_INVALID_FRAME"[2] == '5';
    assert "F06_INVALID_FRAME"[2] == '6' && "F07_INVALID_FRAME"[2] == '7';
  }

  lemma FrameErrorNotClose(e: FrameError)
    ensures ParseClose(DText(FrameErrorName(e))) == None && FrameErrorName(e) != "WRITER_PEER_DEVIATION"
  {
    assert |FrameErrorName(e)| == 17;
  }

  lemma AbortNames(r: AbortReason)
    ensures ParseAbort(DText(AbortName(r))) == Some(r)
  {
  }

  lemma FatalNotFrame(f: FatalReason)
    requires !f.InvalidFrame?
    ensures ParseFrameError(DText(FatalName(f))) == None
  {
    match f
    case Direction =>
    case ChainBroken =>
    case GenerationMismatch =>
    case OpeningFrameRequired =>
    case ChallengeMismatch =>
    case PeerQualificationMismatch =>
    case PeerLost =>
    case PeerChanged =>
    case ResponseOutOfBounds =>
    case AnswerLate =>
  }

  lemma FatalNotClose(f: FatalReason)
    requires !f.InvalidFrame?
    ensures ParseClose(DText(FatalName(f))) == None && FatalName(f) != "WRITER_PEER_DEVIATION"
  {
  }

  lemma FatalNames(f: FatalReason)
    ensures ParseFatal(DText(FatalName(f))) == Some(f)
    ensures ParseClose(DText(FatalName(f))) == None && FatalName(f) != "WRITER_PEER_DEVIATION"
  {
    hide ParseFrameError, ParseClose, FrameErrorName;
    if f.InvalidFrame? {
      FrameErrorNames(f.code);
      FrameErrorNotClose(f.code);
    } else {
      FatalNotFrame(f);
      FatalNotClose(f);
    }
  }

  lemma InvalidationNames(i: Invalidation)
    ensures ParseInvalidation(DText(InvalidationName(i))) == Some(i)
  {
    hide ParseClose, ParseFatal, CloseName, FatalName;
    match i
    case ByClose(reason) => CloseNames(reason);
    case ByFatal(reason) => FatalNames(reason);
    case WriterPeerDeviation =>
  }

  // ---------------------------------------------------------------------------------------------- parts

  function OptionalText(t: Option<string>): Doc {
    if t.Some? then DText(t.value) else DNull
  }

  function ParseOptionalText(d: Doc): Option<Option<string>> {
    match d
    case DNull => Some(None)
    case DText(t) => Some(Some(t))
    case _ => None
  }

  function ParseText(d: Doc): Option<string> {
    if d.DText? then Some(d.text) else None
  }

  /** A 16-bit id. */
  function ParseSmall(d: Doc): Option<nat> {
    if d.DInt? && 0 <= d.number <= 65535 then Some(d.number) else None
  }

  predicate IsI64(n: int) {
    -0x8000_0000_0000_0000 <= n < 0x8000_0000_0000_0000
  }

  function ParseInt(d: Doc): Option<int> {
    if d.DInt? && IsI64(d.number) then Some(d.number) else None
  }

  function Texts(items: seq<string>): Doc {
    DArray(seq(|items|, i requires 0 <= i < |items| => DText(items[i])))
  }

  function ParseTexts(items: seq<Doc>): Option<seq<string>> {
    if items == [] then Some([])
    else
      var (first, rest) := (ParseText(items[0]), ParseTexts(items[1..]));
      if first.Some? && rest.Some? then Some([first.value] + rest.value) else None
  }

  function Numbers(items: seq<nat>): Doc {
    DArray(seq(|items|, i requires 0 <= i < |items| => DInt(items[i])))
  }

  function ParseSmalls(items: seq<Doc>): Option<seq<nat>> {
    if items == [] then Some([])
    else
      var (first, rest) := (ParseSmall(items[0]), ParseSmalls(items[1..]));
      if first.Some? && rest.Some? then Some([first.value] + rest.value) else None
  }

  lemma {:induction false} TextsBack(items: seq<string>)
    ensures ParseTexts(Texts(items).items) == Some(items)
  {
    if items != [] {
      assert Texts(items).items[1..] == Texts(items[1..]).items;
      TextsBack(items[1..]);
      assert [items[0]] + items[1..] == items;
    }
  }

  lemma {:induction false} NumbersBack(items: seq<nat>)
    requires forall i | 0 <= i < |items| :: items[i] <= 65535
    ensures ParseSmalls(Numbers(items).items) == Some(items)
  {
    if items != [] {
      assert Numbers(items).items[1..] == Numbers(items[1..]).items;
      NumbersBack(items[1..]);
      assert [items[0]] + items[1..] == items;
    }
  }

  function Delivery(status: int, digest: string, uid: Option<string>, version: Option<string>): Doc {
    DObject(map["httpStatus" := DInt(status), "resultDigest" := DText(digest), "observedUid" := OptionalText(uid),
                "observedResourceVersion" := OptionalText(version)])
  }

  function Unsettled(status: int, digest: string): Doc {
    DObject(map["httpStatus" := DInt(status), "resultDigest" := DText(digest)])
  }

  function DetailsDoc(d: TerminalDetails): Doc {
    match d
    case Delivered(status, digest, uid, version) => Delivery(status, digest, uid, version)
    case Reconciliation(status, digest) => Unsettled(status, digest)
    case NoDetails => DObject(map[])
    case Aborted => DObject(map["aborted" := DText("UPSTREAM_TIMEOUT")])
  }

  function WriteDetailsDoc(d: WriteDetails): Doc {
    match d
    case WriteDelivered(status, digest, uid, version) => Delivery(status, digest, uid, version)
    case WriteReconciliation(status, digest) => Unsettled(status, digest)
    case WriteLost => DObject(map[])
    case WriteAborted(reason) => DObject(map["aborted" := DText(AbortName(reason))])
  }

  /** The members of a settled response, all four present and well typed. */
  datatype Members = Members(status: int, digest: string, uid: Option<string>, version: Option<string>)

  function ParseUnsettled(m: map<string, Doc>): Option<(int, string)> {
    if "httpStatus" !in m || "resultDigest" !in m then None
    else
      var (status, digest) := (ParseInt(m["httpStatus"]), ParseText(m["resultDigest"]));
      if status.Some? && digest.Some? then Some((status.value, digest.value)) else None
  }

  function ParseDelivery(m: map<string, Doc>): Option<Members> {
    var head := ParseUnsettled(m);
    if head.None? || "observedUid" !in m || "observedResourceVersion" !in m then None
    else
      var (uid, version) := (ParseOptionalText(m["observedUid"]), ParseOptionalText(m["observedResourceVersion"]));
      if uid.Some? && version.Some? then Some(Members(head.value.0, head.value.1, uid.value, version.value)) else None
  }

  function ParseDetails(d: Doc): Option<TerminalDetails> {
    if !d.DObject? then None
    else
      var m := d.members;
      if |m| == 0 then Some(NoDetails)
      else if |m| == 1 then if "aborted" in m && m["aborted"] == DText("UPSTREAM_TIMEOUT") then Some(Aborted) else None
      else if |m| == 2 then
        var u := ParseUnsettled(m);
        if u.Some? then Some(Reconciliation(u.value.0, u.value.1)) else None
      else if |m| == 4 then
        var s := ParseDelivery(m);
        if s.Some? then Some(Delivered(s.value.status, s.value.digest, s.value.uid, s.value.version)) else None
      else None
  }

  function ParseWriteDetails(d: Doc): Option<WriteDetails> {
    if !d.DObject? then None
    else
      var m := d.members;
      if |m| == 0 then Some(WriteLost)
      else if |m| == 1 then
        if "aborted" in m && ParseAbort(m["aborted"]).Some? then Some(WriteAborted(ParseAbort(m["aborted"]).value))
          else None
      else if |m| == 2 then
        var u := ParseUnsettled(m);
        if u.Some? then Some(WriteReconciliation(u.value.0, u.value.1)) else None
      else if |m| == 4 then
        var s := ParseDelivery(m);
        if s.Some? then Some(WriteDelivered(s.value.status, s.value.digest, s.value.uid, s.value.version)) else None
      else None
  }

  predicate DetailsInRange(d: TerminalDetails) {
    d.Delivered? || d.Reconciliation? ==> IsI64(d.httpStatus)
  }

  predicate WriteDetailsInRange(d: WriteDetails) {
    d.WriteDelivered? || d.WriteReconciliation? ==> IsI64(d.httpStatus)
  }

  lemma MemberCounts(status: int, digest: string, uid: Option<string>, version: Option<string>, reason: string)
    ensures |Delivery(status, digest, uid, version).members| == 4 && |Unsettled(status, digest).members| == 2
    ensures |(map["aborted" := DText(reason)])| == 1
  {
    var d, u := Delivery(status, digest, uid, version).members, Unsettled(status, digest).members;
    assert "httpStatus" != "resultDigest" && "httpStatus" != "observedUid" && "resultDigest" != "observedUid";
    assert d.Keys == {"httpStatus", "resultDigest", "observedUid", "observedResourceVersion"};
    assert u.Keys == {"httpStatus", "resultDigest"};
    assert |d| == |d.Keys| && |u| == |u.Keys|;
  }

  lemma DetailsBack(d: TerminalDetails)
    requires DetailsInRange(d)
    ensures ParseDetails(DetailsDoc(d)) == Some(d)
  {
    MemberCounts(0, "", None, None, "UPSTREAM_TIMEOUT");
    if d.Delivered? { MemberCounts(d.httpStatus, d.resultDigest, d.observedUid, d.observedResourceVersion, ""); }
    if d.Reconciliation? { MemberCounts(d.httpStatus, d.resultDigest, None, None, ""); }
  }

  lemma WriteDetailsBack(d: WriteDetails)
    requires WriteDetailsInRange(d)
    ensures ParseWriteDetails(WriteDetailsDoc(d)) == Some(d)
  {
    hide AbortName, ParseAbort;
    if d.WriteAborted? {
      MemberCounts(0, "", None, None, AbortName(d.reason));
      AbortNames(d.reason);
    }
    if d.WriteDelivered? { MemberCounts(d.httpStatus, d.resultDigest, d.observedUid, d.observedResourceVersion, ""); }
    if d.WriteReconciliation? { MemberCounts(d.httpStatus, d.resultDigest, None, None, ""); }
  }

  function PriorDoc(p: Option<Prior>): Doc {
    if p.None? then DNull
    else DObject(map["uid" := DText(p.value.uid), "resourceVersion" := DText(p.value.resourceVersion),
                     "projectionDigest" := DText(p.value.projectionDigest)])
  }

  function ParsePrior(d: Doc): Option<Option<Prior>> {
    match d
    case DNull => Some(None)
    case DObject(m) =>
      if "uid" !in m || "resourceVersion" !in m || "projectionDigest" !in m then None
      else
        var (uid, version, digest) := (ParseText(m["uid"]), ParseText(m["resourceVersion"]),
                                       ParseText(m["projectionDigest"]));
        if uid.Some? && version.Some? && digest.Some? then Some(Some(Prior(uid.value, version.value, digest.value)))
          else None
    case _ => None
  }

  // ---------------------------------------------------------------------------------------------- tuples

  datatype Kind =
    | KBind | KArm | KConsumed | KTerminal | KSealed | KDenied | KInvalidated | KClosed | KDrained | KDrainStarted
    | KChannelEnded | KExpired | KLateUpstream | KRestarted
    | KMaintRequested | KMaintOpen | KMaintHeld | KWriteForwarded | KWriteTerminal | KMaintEnded | KWriterSessionEnded
    | KWriteLateUpstream

  function Tag(k: Kind): string {
    match k
    case KBind => "BIND"
    case KArm => "ARM"
    case KConsumed => "CONSUMED"
    case KTerminal => "TERMINAL"
    case KSealed => "SEALED"
    case KDenied => "DENIED"
    case KInvalidated => "INVALIDATED"
    case KClosed => "CLOSED"
    case KDrained => "DRAINED"
    case KDrainStarted => "DRAIN_STARTED"
    case KChannelEnded => "CHANNEL_ENDED"
    case KExpired => "EXPIRED"
    case KLateUpstream => "LATE_UPSTREAM"
    case KRestarted => "RESTARTED"
    case KMaintRequested => "MAINT_REQUESTED"
    case KMaintOpen => "MAINT_OPEN"
    case KMaintHeld => "MAINT_HELD"
    case KWriteForwarded => "WRITE_FORWARDED"
    case KWriteTerminal => "WRITE_TERMINAL"
    case KMaintEnded => "MAINT_ENDED"
    case KWriterSessionEnded => "WRITER_SESSION_ENDED"
    case KWriteLateUpstream => "WRITE_LATE_UPSTREAM"
  }

  function ParseGateTag(d: Doc): Option<Kind> {
    if d == DText("BIND") then Some(KBind)
    else if d == DText("ARM") then Some(KArm)
    else if d == DText("CONSUMED") then Some(KConsumed)
    else if d == DText("TERMINAL") then Some(KTerminal)
    else if d == DText("SEALED") then Some(KSealed)
    else if d == DText("DENIED") then Some(KDenied)
    else if d == DText("INVALIDATED") then Some(KInvalidated)
    else if d == DText("CLOSED") then Some(KClosed)
    else if d == DText("DRAINED") then Some(KDrained)
    else if d == DText("DRAIN_STARTED") then Some(KDrainStarted)
    else if d == DText("CHANNEL_ENDED") then Some(KChannelEnded)
    else if d == DText("EXPIRED") then Some(KExpired)
    else if d == DText("LATE_UPSTREAM") then Some(KLateUpstream)
    else if d == DText("RESTARTED") then Some(KRestarted)
    else None
  }

  function ParsePolicyTag(d: Doc): Option<Kind> {
    if d == DText("MAINT_REQUESTED") then Some(KMaintRequested)
    else if d == DText("MAINT_OPEN") then Some(KMaintOpen)
    else if d == DText("MAINT_HELD") then Some(KMaintHeld)
    else if d == DText("WRITE_FORWARDED") then Some(KWriteForwarded)
    else if d == DText("WRITE_TERMINAL") then Some(KWriteTerminal)
    else if d == DText("MAINT_ENDED") then Some(KMaintEnded)
    else if d == DText("WRITER_SESSION_ENDED") then Some(KWriterSessionEnded)
    else if d == DText("WRITE_LATE_UPSTREAM") then Some(KWriteLateUpstream)
    else None
  }

  function ParseTag(d: Doc): Option<Kind> {
    if ParseGateTag(d).Some? then ParseGateTag(d) else ParsePolicyTag(d)
  }

  function KindOf(r: Record): Kind {
    match r
    case Bind(_, _, _, _, _) => KBind
    case Arm(_, _, _, _, _) => KArm
    case Consumed(_) => KConsumed
    case Terminal(_, _, _, _) => KTerminal
    case Sealed(_, _, _) => KSealed
    case Denied(_) => KDenied
    case Invalidated(_, _) => KInvalidated
    case Closed(_, _) => KClosed
    case Drained(_) => KDrained
    case DrainStarted => KDrainStarted
    case ChannelEnded(_) => KChannelEnded
    case Expired(_) => KExpired
    case LateUpstream(_) => KLateUpstream
    case Restarted(_) => KRestarted
    case MaintRequested(_) => KMaintRequested
    case MaintOpened(_) => KMaintOpen
    case MaintWasHeld(_) => KMaintHeld
    case WriteForwarded(_, _, _, _, _, _, _, _) => KWriteForwarded
    case WriteTerminal(_, _, _) => KWriteTerminal
    case MaintWasEnded(_, _, _) => KMaintEnded
    case WriterSessionEnded(_) => KWriterSessionEnded
    case WriteLateUpstream(_) => KWriteLateUpstream
  }

  function Fields(r: Record): seq<Doc> {
    match r
    case Bind(e, n, d, digests, identities) => [DText(e), DText(n), DText(d), Texts(digests), Texts(identities)]
    case Arm(id, verb, m, uid, t) => [DInt(id), DText(VerbName(verb)), DText(m), OptionalText(uid), DText(t)]
    case Consumed(id) => [DInt(id)]
    case Terminal(id, c, after, d) => [DInt(id), DText(ClassificationName(c)), DBool(after), DetailsDoc(d)]
    case Sealed(id, c, after) => [DInt(id), DText(ClassificationName(c)), DBool(after)]
    case Denied(id) => [DInt(id)]
    case Invalidated(i, s) => [DText(InvalidationName(i)), DText(StateName(s))]
    case Closed(c, s) => [DText(CloseName(c)), DText(StateName(s))]
    case Drained(s) => [DText(StateName(s))]
    case DrainStarted => []
    case ChannelEnded(e) => [DText(EndName(e))]
    case Expired(e) => [DText(e)]
    case LateUpstream(id) => [DInt(id)]
    case Restarted(s) => [DText(StateName(s))]
    case MaintRequested(g) => [DText(g)]
    case MaintOpened(s) => [DText(StateName(s))]
    case MaintWasHeld(s) => [DText(StateName(s))]
    case WriteForwarded(id, o, v, k, ns, n, d, p) =>
      [DInt(id), DText(OperationName(o)), DText(v), DText(k), OptionalText(ns), DText(n), DText(d), PriorDoc(p)]
    case WriteTerminal(id, c, d) => [DInt(id), DText(ClassificationName(c)), WriteDetailsDoc(d)]
    case MaintWasEnded(e, n, ids) => [DText(MaintenanceEndName(e)), DInt(n), Numbers(ids)]
    case WriterSessionEnded(h) => [DText(SessionName(h))]
    case WriteLateUpstream(id) => [DInt(id)]
  }

  /** The record's canonical tuple. */
  function ToDoc(r: Record): Doc {
    DArray([DText(Tag(KindOf(r)))] + Fields(r))
  }

  /** The ids and counts fit 16 bits, the statuses 64. */
  predicate InRange(r: Record) {
    match r
    case Arm(id, _, _, _, _) => id <= 65535
    case Consumed(id) => id <= 65535
    case Terminal(id, _, _, d) => id <= 65535 && DetailsInRange(d)
    case Sealed(id, _, _) => id <= 65535
    case Denied(id) => id <= 65535
    case LateUpstream(id) => id <= 65535
    case WriteForwarded(id, _, _, _, _, _, _, _) => id <= 65535
    case WriteTerminal(id, _, d) => id <= 65535 && WriteDetailsInRange(d)
    case MaintWasEnded(_, n, ids) => n <= 65535 && forall i | 0 <= i < |ids| :: ids[i] <= 65535
    case WriteLateUpstream(id) => id <= 65535
    case _ => true
  }

  // ---------------------------------------------------------------------------------------------- decoding

  /** The fields of a record that names an action, with what else it holds. */
  function FromActionFields(k: Kind, f: seq<Doc>): Option<Record> {
    match k
    case KArm =>
      if |f| != 5 then None
      else
        var (id, verb, m) := (ParseSmall(f[0]), ParseVerb(f[1]), ParseText(f[2]));
        var (uid, t) := (ParseOptionalText(f[3]), ParseText(f[4]));
        if id.Some? && verb.Some? && m.Some? && uid.Some? && t.Some?
        then Some(Record.Arm(id.value, verb.value, m.value, uid.value, t.value)) else None
    case KTerminal =>
      if |f| != 4 then None
      else
        var (id, c, d) := (ParseSmall(f[0]), ParseClassification(f[1]), ParseDetails(f[3]));
        if id.Some? && c.Some? && f[2].DBool? && d.Some?
          then Some(Record.Terminal(id.value, c.value, f[2].truth, d.value)) else None
    case KSealed =>
      if |f| != 3 then None
      else
        var (id, c) := (ParseSmall(f[0]), ParseClassification(f[1]));
        if id.Some? && c.Some? && f[2].DBool? then Some(Record.Sealed(id.value, c.value, f[2].truth)) else None
    case _ =>
      if |f| != 1 || ParseSmall(f[0]).None? then None
      else
        var id := ParseSmall(f[0]).value;
        (match k
         case KConsumed => Some(Record.Consumed(id))
         case KDenied => Some(Record.Denied(id))
         case KLateUpstream => Some(Record.LateUpstream(id))
         case _ => None)
  }

  /** The fields of a record that names an execution or a state. */
  function FromStateFields(k: Kind, f: seq<Doc>): Option<Record> {
    match k
    case KBind =>
      if |f| != 5 || !f[3].DArray? || !f[4].DArray? then None
      else
        var (e, n, d) := (ParseText(f[0]), ParseText(f[1]), ParseText(f[2]));
        var (digests, identities) := (ParseTexts(f[3].items), ParseTexts(f[4].items));
        if e.Some? && n.Some? && d.Some? && digests.Some? && identities.Some?
        then Some(Record.Bind(e.value, n.value, d.value, digests.value, identities.value)) else None
    case KInvalidated =>
      if |f| != 2 then None
      else
        var (i, s) := (ParseInvalidation(f[0]), ParseState(f[1]));
        if i.Some? && s.Some? then Some(Record.Invalidated(i.value, s.value)) else None
    case KClosed =>
      if |f| != 2 then None
      else
        var (c, s) := (ParseClose(f[0]), ParseState(f[1]));
        if c.Some? && s.Some? then Some(Record.Closed(c.value, s.value)) else None
    case KDrainStarted => if |f| != 0 then None else Some(Record.DrainStarted)
    case KChannelEnded =>
      if |f| != 1 || ParseEnd(f[0]).None? then None else Some(Record.ChannelEnded(ParseEnd(f[0]).value))
    case KExpired => if |f| != 1 || ParseText(f[0]).None? then None else Some(Record.Expired(ParseText(f[0]).value))
    case KMaintRequested =>
      if |f| != 1 || ParseText(f[0]).None? then None else Some(Record.MaintRequested(ParseText(f[0]).value))
    case _ =>
      if |f| != 1 || ParseState(f[0]).None? then None
      else
        var s := ParseState(f[0]).value;
        (match k
         case KDrained => Some(Record.Drained(s))
         case KRestarted => Some(Record.Restarted(s))
         case KMaintOpen => Some(Record.MaintOpened(s))
         case KMaintHeld => Some(Record.MaintWasHeld(s))
         case _ => None)
  }

  /** The fields of a record that names a write or ends a session. */
  function FromWriteFields(k: Kind, f: seq<Doc>): Option<Record> {
    match k
    case KWriteForwarded =>
      if |f| != 8 then None
      else
        var (id, o, v, kind) := (ParseSmall(f[0]), ParseOperation(f[1]), ParseText(f[2]), ParseText(f[3]));
        var (ns, n, d, p) := (ParseOptionalText(f[4]), ParseText(f[5]), ParseText(f[6]), ParsePrior(f[7]));
        if id.Some? && o.Some? && v.Some? && kind.Some? && ns.Some? && n.Some? && d.Some? && p.Some?
        then Some(Record.WriteForwarded(id.value, o.value, v.value, kind.value, ns.value, n.value, d.value, p.value))
          else None
    case KWriteTerminal =>
      if |f| != 3 then None
      else
        var (id, c, d) := (ParseSmall(f[0]), ParseClassification(f[1]), ParseWriteDetails(f[2]));
        if id.Some? && c.Some? && d.Some? then Some(Record.WriteTerminal(id.value, c.value, d.value)) else None
    case KMaintEnded =>
      if |f| != 3 || !f[2].DArray? then None
      else
        var (e, n, ids) := (ParseMaintenanceEnd(f[0]), ParseSmall(f[1]), ParseSmalls(f[2].items));
        if e.Some? && n.Some? && ids.Some? then Some(Record.MaintWasEnded(e.value, n.value, ids.value)) else None
    case KWriterSessionEnded =>
      if |f| != 1 || ParseSession(f[0]).None? then None else Some(Record.WriterSessionEnded(ParseSession(f[0]).value))
    case KWriteLateUpstream =>
      if |f| != 1 || ParseSmall(f[0]).None? then None else Some(Record.WriteLateUpstream(ParseSmall(f[0]).value))
    case _ => None
  }

  predicate NamesAction(k: Kind) {
    k.KArm? || k.KConsumed? || k.KTerminal? || k.KSealed? || k.KDenied? || k.KLateUpstream?
  }

  predicate NamesWrite(k: Kind) {
    k.KWriteForwarded? || k.KWriteTerminal? || k.KMaintEnded? || k.KWriterSessionEnded? || k.KWriteLateUpstream?
  }

  function FromFields(k: Kind, f: seq<Doc>): Option<Record> {
    if NamesAction(k) then FromActionFields(k, f) else if NamesWrite(k) then FromWriteFields(k, f)
      else FromStateFields(k, f)
  }

  function FromDoc(d: Doc): Option<Record> {
    if !d.DArray? || d.items == [] then None
    else
      var k := ParseTag(d.items[0]);
      if k.None? then None else FromFields(k.value, d.items[1..])
  }

  /** A payload back to its record: canonical text, one of the tuples, and exactly the gate's own tuple. */
  function DecodeRecord(j: Json, payload: Bytes): Option<Record> {
    var value := j.parse(payload);
    if value.None? || j.canonical(value.value) != payload then None
    else
      var record := FromDoc(value.value);
      if record.None? || j.canonical(ToDoc(record.value)) != payload then None else record
  }

  // ---------------------------------------------------------------------------------------------- round trips

  lemma GateTags(k: Kind)
    requires ParseGateTag(DText(Tag(k))).Some?
             || !(k.KMaintRequested? || k.KMaintOpen? || k.KMaintHeld? || NamesWrite(k))
    ensures ParseGateTag(DText(Tag(k))) == Some(k)
  {
  }

  lemma PolicyTags(k: Kind)
    requires k.KMaintRequested? || k.KMaintOpen? || k.KMaintHeld? || NamesWrite(k)
    ensures ParsePolicyTag(DText(Tag(k))) == Some(k)
  {
  }

  lemma Tags(k: Kind)
    ensures ParseTag(DText(Tag(k))) == Some(k)
  {
    hide ParseGateTag, ParsePolicyTag, Tag;
    if ParseGateTag(DText(Tag(k))).Some? || !(k.KMaintRequested? || k.KMaintOpen? || k.KMaintHeld? || NamesWrite(k)) {
      GateTags(k);
    } else {
      PolicyTags(k);
    }
  }

  lemma ActionFieldsBack(r: Record)
    requires NamesAction(KindOf(r)) && InRange(r)
    ensures FromActionFields(KindOf(r), Fields(r)) == Some(r)
  {
    hide ClassificationName, ParseClassification, DetailsDoc, ParseDetails;
    if r.Terminal? {
      ClassificationNames(r.classification);
      DetailsBack(r.details);
    }
    if r.Sealed? { ClassificationNames(r.classification); }
  }

  lemma TextsArray(items: seq<string>)
    ensures Texts(items).DArray?
  {
  }

  lemma StateFieldsBack(r: Record)
    requires !NamesAction(KindOf(r)) && !NamesWrite(KindOf(r))
    ensures FromStateFields(KindOf(r), Fields(r)) == Some(r)
  {
    hide StateName, ParseState, InvalidationName, ParseInvalidation, CloseName, ParseClose, Texts, ParseTexts;
    match r
    case Bind(_, _, _, digests, identities) =>
      TextsBack(digests);
      TextsBack(identities);
      TextsArray(digests);
      TextsArray(identities);
    case Invalidated(i, s) =>
      InvalidationNames(i);
      StateNames(s);
    case Closed(c, s) =>
      CloseNames(c);
      StateNames(s);
    case Drained(s) => StateNames(s);
    case Restarted(s) => StateNames(s);
    case MaintOpened(s) => StateNames(s);
    case MaintWasHeld(s) => StateNames(s);
    case _ =>
  }

  lemma PriorBack(p: Option<Prior>)
    ensures ParsePrior(PriorDoc(p)) == Some(p)
  {
  }

  lemma OperationNames(o: WriteOperation)
    ensures ParseOperation(DText(OperationName(o))) == Some(o)
  {
  }

  lemma EndNames(e: MaintenanceEnd, h: SessionEnd)
    ensures ParseMaintenanceEnd(DText(MaintenanceEndName(e))) == Some(e)
            && ParseSession(DText(SessionName(h))) == Some(h)
  {
  }

  lemma WriteFieldsBack(r: Record)
    requires NamesWrite(KindOf(r)) && InRange(r)
    ensures FromWriteFields(KindOf(r), Fields(r)) == Some(r)
  {
    hide ClassificationName, ParseClassification, WriteDetailsDoc, ParseWriteDetails, ParseSmalls, PriorDoc, ParsePrior,
         OperationName, ParseOperation, MaintenanceEndName, ParseMaintenanceEnd, SessionName, ParseSession;
    match r
    case WriteForwarded(_, o, _, _, _, _, _, p) =>
      OperationNames(o);
      PriorBack(p);
    case WriterSessionEnded(h) => EndNames(WriteEnd, h);
    case WriteTerminal(_, c, d) =>
      ClassificationNames(c);
      WriteDetailsBack(d);
    case MaintWasEnded(e, _, ids) =>
      EndNames(e, SessionEnded);
      NumbersBack(ids);
    case _ =>
  }

  /** Every record's tuple decodes to the record. */
  lemma DocBack(r: Record)
    requires InRange(r)
    ensures FromDoc(ToDoc(r)) == Some(r)
  {
    hide ParseTag, Tag, Fields, FromActionFields, FromStateFields, FromWriteFields, InRange;
    Tags(KindOf(r));
    assert ToDoc(r).items[1..] == Fields(r);
    if NamesAction(KindOf(r)) { ActionFieldsBack(r); }
    else if NamesWrite(KindOf(r)) { WriteFieldsBack(r); }
    else { StateFieldsBack(r); }
  }

  /** Decoding inverts encoding. */
  lemma RecordBack(j: Json, r: Record)
    requires IsJson(j) && InRange(r)
    ensures DecodeRecord(j, j.canonical(ToDoc(r))) == Some(r)
  {
    hide ToDoc, FromDoc, InRange;
    DocBack(r);
  }

  lemma ActionFieldsInRange(k: Kind, f: seq<Doc>)
    requires NamesAction(k) && FromActionFields(k, f).Some?
    ensures InRange(FromActionFields(k, f).value)
  {
  }

  lemma {:induction false} SmallsInRange(items: seq<Doc>)
    requires ParseSmalls(items).Some?
    ensures forall i | 0 <= i < |ParseSmalls(items).value| :: ParseSmalls(items).value[i] <= 65535
  {
    if items != [] { SmallsInRange(items[1..]); }
  }

  lemma WriteFieldsInRange(k: Kind, f: seq<Doc>)
    requires NamesWrite(k) && FromWriteFields(k, f).Some?
    ensures InRange(FromWriteFields(k, f).value)
  {
    hide ParseSmalls;
    if k.KMaintEnded? { SmallsInRange(f[2].items); }
  }

  lemma StateFieldsInRange(k: Kind, f: seq<Doc>)
    requires !NamesAction(k) && !NamesWrite(k) && FromStateFields(k, f).Some?
    ensures InRange(FromStateFields(k, f).value)
  {
  }

  lemma DecodedInRange(d: Doc)
    requires FromDoc(d).Some?
    ensures InRange(FromDoc(d).value)
  {
    hide ParseTag, FromActionFields, FromWriteFields, FromStateFields, InRange;
    var (k, f) := (ParseTag(d.items[0]).value, d.items[1..]);
    if NamesAction(k) { ActionFieldsInRange(k, f); }
    else if NamesWrite(k) { WriteFieldsInRange(k, f); }
    else { StateFieldsInRange(k, f); }
  }

  /** A payload decodes to a record if and only if the record is in range and the payload is the gate's own text of
      it. */
  lemma DecodesExactly(j: Json, payload: Bytes, r: Record)
    requires IsJson(j)
    ensures DecodeRecord(j, payload) == Some(r) <==> InRange(r) && payload == j.canonical(ToDoc(r))
  {
    hide ToDoc, FromDoc, InRange;
    if DecodeRecord(j, payload) == Some(r) { DecodedInRange(j.parse(payload).value); }
    if InRange(r) && payload == j.canonical(ToDoc(r)) { RecordBack(j, r); }
  }
}
