/** The policy writes a journal holds, as a restart rebuilds them: from the journal alone, torn entries skipped. */
module WriteReplay {
  import opened Vocabulary
  import opened Journal

  datatype WriteEntry = WriteSent | WriteDone(classification: Classification)

  type Writes = map<nat, WriteEntry>

  datatype MaintenanceReason = EndedFor(end: MaintenanceEnd) | RestartedGate | GenerationRebuilt

  /** What a rebuild of the writes accumulates over the journal; `lawful` when every write so far was forwarded under
      the next id and decided at most once. */
  datatype WritesReplayed = WritesReplayed(writes: Writes, begun: bool, ended: Option<MaintenanceEnd>, lawful: bool)

  const NO_WRITES := WritesReplayed(map[], false, None, true)

  function ReplayWrite(q: WritesReplayed, entry: Entry): WritesReplayed {
    match entry
    case Rec(WriteForwarded(id, _, _, _, _, _, _, _)) =>
      q.(writes := q.writes[id := WriteSent], lawful := q.lawful && id == |q.writes| + 1)
    case Rec(WriteTerminal(id, classification, _)) =>
      q.(writes := q.writes[id := WriteDone(classification)], lawful := q.lawful && id in q.writes
         && q.writes[id] == WriteSent)
    case Rec(MaintRequested(_)) => q.(begun := true)
    case Rec(MaintWasEnded(end, _, _)) => q.(ended := Some(end))
    case _ => q
  }

  function ReplayWrites(entries: seq<Entry>): WritesReplayed {
    if entries == [] then NO_WRITES
    else ReplayWrite(ReplayWrites(entries[..|entries| - 1]), entries[|entries| - 1])
  }

  /** The records a rebuild of the writes reads. */
  predicate IsWriteRecord(record: Record) {
    record.WriteForwarded? || record.WriteTerminal? || record.MaintRequested? || record.MaintWasEnded?
  }

  function ConcludedWrite(e: WriteEntry): WriteEntry {
    if e == WriteSent then WriteDone(IoAmbiguous) else e
  }

  /** A write still outstanding is ambiguous. */
  function ConcludeWrites(writes: Writes): Writes {
    map id | id in writes :: ConcludedWrite(writes[id])
  }

  function RebuildWrites(entries: seq<Entry>): (Writes, MaintenanceReason) {
    var q := ReplayWrites(entries);
    (ConcludeWrites(q.writes),
     if !q.begun then GenerationRebuilt else if q.ended.Some? then EndedFor(q.ended.value) else RestartedGate)
  }
}
