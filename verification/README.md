# Effect gate, broker channels and foundation engine: a verified model

The project models the parts of the harness operator where crashes, races and two-party protocols meet, and proves what they
keep over whole runs. Everything is Dafny; `dafny verify dfyconfig.toml` checks it all.

- **Effect gate** (`Vocabulary`, `Journal`, `GateModel`, `Lawful`, `GateInvariant`, `GateStorage`, `GateRecords`, `GateEvents`,
  `GateRestart`, `GateSteps`, `EffectGate`). One generation: write-ahead records, the action table, stamped connections, the drain
  fence, the storage-failure path and the restart that rebuilds memory from the journal. `GateModel` says what every event does to
  the gate as a value; `EffectGate` is the object with its fields updated in place, each method proved to go exactly there; the
  table names the methods that promise more. The invariant `GateInvariant.Sound` ties memory to the journal through folds over
  the journal: what a restart replays (`Replay`, `Derive`), what was armed, forwarded and bound (`AccountOf`), and what stopped
  the generation (`Quench`); and it ties memory to what the file holds, whatever failed appends left there (`Filed`, `Outlasts`).
- **Policy gate** (`WriteReplay`, `PolicyModel`, `PolicyInvariant`, `PolicySteps`, `PolicyRuns`, `PolicyGate`). The writer's
  protocol on the same journal, one event and one restart at a time, and the object, which carries the trace of its generation.
- **Lives** (`Recovery`, `Drift`, `Resting`, `Cuts`, `Lives`, `Agreement`, `LifeLaws`, `JournalLaws`, `Windows`, `OneEffect`,
  `OneWrite`). A generation lives through any number of processes. Each handles events and gate restarts and ends between events,
  inside an event after any append, or while it opens; the next one scans the file, not the mirror the last one held. What is said of forwards,
  settled outcomes, decided writes, rebuilding and the laws of the journal holds whatever the storage did. What is said of a hold
  holds as long as no process ended with a file other than its mirror (`Agreement.Unparted`), which `FileStore` decides byte by
  byte. `Windows` has the lives in which the code does not keep a promise, `OneEffect` and `OneWrite` the way of one effect and
  of one policy write, in the clear and in those windows.
- **Journal bytes** (`Frame`, `Scanner`, `RecordCodec`, `FileStore`, `Generations`, `ConfigCheck`). Frames, the streaming scanner
  that starts again at every 0xFF, the record codec, the two-phase append with its mirror, and generations opened one after another
  on the same directories.
- **Worker observation** (`Observation`). The five kernel calls with processes spawning, exiting and moving between any two.
- **Channels** (`Base64`, `Transcript`, `Lockstep`). The broker's hash-chained transcript, and the client composed with the gate,
  with frames in flight between them.
- **Foundation engine** (`Plan`, `Engine`, `Reconcile`). Plan validation, and any number of engines with one compare-and-swap store.
- **Process seal** (`Seal`). The two stages over a kernel that may fail or ignore any call.

## How the environment is modelled

- Storage is an oracle, quantified over: `World` says of every append whether it lasts, fails clean or fails torn, what a torn
  answer left in the file (`Leaving`), and of every marker write whether it succeeds. `Io` says the same of each file operation
  inside one append, and `FileStore.FileHasWorld` connects the two.
- A process that dies inside an append is one that dies after it in a world where that append left what the death left.
- SHA-256 and canonical JSON are function parameters with the laws that are used: `Frame.IsDigest` (64 lower-case hex digits),
  `Transcript.IsHasher` (absorbing bytes piecewise), `RecordCodec.IsJson` (parsing inverts writing, no 0xFF, never empty). Nothing
  about collisions is assumed.
- Schema checks and the rendering of requests are function or boolean parameters.
- Sequences that the source bounds by a 64-bit or 16-bit type are bounded where the source tests the bound.

## Where the code and its promises differ

- A held generation can be let go by a restart when the marker and the INVALIDATED record both failed clean. The gate records this
  in `untraced`; `LifeLaws.HeldIsAbsorbing` is stated up to it and `Windows.ResidualWindow` is a life that shows it.
  `PolicyRuns.RestartHeldExactly` says exactly when a restart comes up HELD, and `LifeLaws.HeldThroughoutExactly` exactly when a hold
  lasts.
- A mirror and its file can part although no revocation failed: when not a byte was written and the file's length cannot be read
  afterwards, the mirror gets a TORN the file does not hold; and when the write of the commit byte fails and has stored it all the
  same, the code does not know that it has something to revoke. `FileStore.EachParts` shows the ways of parting and
  `FileStore.MirrorAgreesExactly` says that there is no other.
- A process that ends after they parted can be let go of a hold it had evidence for (`Windows.UnmeasuredWindow`), or leave a CONSUMED
  record for what was not forwarded (`Windows.UnrevokedForward`, `OneEffect.UnrevokedEffect`).
- The classification of an action that is TERMINAL and not yet sealed can change when the process does: memory calls an outcome
  ambiguous whose TERMINAL append failed, and the next process reads the recorded one if that append left its record.
  `Windows.OutcomeKeptExactly` says of every answer exactly when the two agree, and `OneEffect.UnrevokedOutcome` is a life in which
  they do not. An action denied because its CONSUMED append failed is NOT_FORWARDED in memory, and IO_AMBIGUOUS in the next process
  if that append left its record and nothing later reached the file (`OneEffect.UnrevokedDenial`). A sealed outcome never changes (`LifeLaws.OutcomesAreFrozen`). The same
  holds of a policy write that memory calls ambiguous (`Windows.WriteKeptExactly`, `OneWrite.UnrevokedWrite`).
- A CONSUMED record without a forward is also what a death between the two leaves (`Windows.CutForward`), so the journal's account
  begins with the forwards, in order, and may hold more (`LifeLaws.RunKeeps`).

## Model

| member | source | states |
|---|---|---|
| LifeLaws.RunKeeps | host-enforcement/crates/effect-gate/src/gate.rs:680-1638 | Over any number of processes, each ending between events, inside an event after any append or while opening, whatever the storage did and left: all that was forwarded is, in order, what the CONSUMED records of the file begin with, and those of the journal in memory; every process satisfies the invariant or rests on its file. As long as no process ended with a file other than its mirror every process satisfies the invariant, and the journal holds no other CONSUMED record unless a process died inside an event |
| LifeLaws.HeldIsAbsorbing | host-enforcement/crates/effect-gate/src/gate.rs:748-844 | Once HELD, always HELD, over all later events, restarts and processes whose files agreed, unless a storage failure left neither marker, nor torn entry, nor durable INVALIDATED record |
| LifeLaws.HeldThroughoutExactly | host-enforcement/crates/effect-gate/src/gate.rs:821-845 | From a hold on, while files and mirrors agree, the generation is held at every later point if and only if every happening keeps the hold, by a condition on memory before it and the entries a dying process kept |
| LifeLaws.HeldStepExactly | host-enforcement/crates/effect-gate/src/gate.rs:1045-1058 | A hold outlasts one event, restart, stop, death or opening if and only if that happening keeps it: a restart finds in memory what holds it again; a process that ends leaves a marker, a torn entry or a recorded HELD, before or among the entries kept, or an action or write in doubt in memory that no kept entry seals or decides |
| Cuts.FirmExactly | host-enforcement/crates/effect-gate/src/gate.rs:821-845 | What a held process leaves, cut after any entry it was adding, holds every restart if and only if memory, the marker and the entries kept say so |
| Cuts.FirmRestartExactly | host-enforcement/crates/effect-gate/src/gate.rs:1045-1058 | The same of a process that dies inside a restart |
| LifeLaws.OpensHeldExactly | host-enforcement/crates/effect-gate/src/policy_gate.rs:453-462 | A new process comes up HELD if and only if the file it scanned, whatever it holds, has a marker, a torn entry, a record of an unknown action, no last state or one that neither closes nor invalidates, an action ambiguous or not settled, a write ambiguous or not decided, or its own RESTARTED record does not last |
| LifeLaws.OutcomesAreFrozen | host-enforcement/crates/effect-gate/src/gate.rs:1544-1603 | Between any two points of the lives, restarts and deaths included and whatever the storage did, a settled action of the bound execution keeps its classification and flag |
| LifeLaws.DecidedWritesStay | host-enforcement/crates/effect-gate/src/policy_gate.rs:1060-1088 | Between any two points of the lives no policy write is forgotten and one decided without doubt keeps its classification, whatever the storage did; every decided one does while files and mirrors agree |
| LifeLaws.RestIsEnduring | host-enforcement/crates/effect-gate/src/policy_gate.rs:532-566 | From any point on, whatever the storage did: the file only grows, settled outcomes stay, writes decided without doubt stay |
| LifeLaws.RestIsLasting | host-enforcement/crates/effect-gate/src/policy_gate.rs:532-566 | From any point on, while files and mirrors agree: the journal only grows, every decided write stays and a hold with evidence stays |
| LifeLaws.WritesAreRebuilt | host-enforcement/crates/effect-gate/src/policy_gate.rs:1060-1088 | In every process the journal rebuilds exactly the write table with the outstanding write IO_AMBIGUOUS, and write ids are 1..n |
| LifeLaws.ActionsAreRebuilt | host-enforcement/crates/effect-gate/src/gate.rs:765-845 | In every process a restart rebuilds the same action ids and seals, keeps TERMINAL classifications, turns CONSUMED into IO_AMBIGUOUS admitted before and ARMED into NOT_FORWARDED; `inconsistent` never arises |
| Lives.ForwardedAtMostOnce | host-enforcement/crates/effect-gate/src/gate.rs:1101-1181 | Over all lives, whatever the storage did and whatever the files hold, each (execution, action) is forwarded at most once; while more may be forwarded, the forwards are exactly the durable CONSUMED records, in order |
| Lives.NothingForwardedAfterStop | host-enforcement/crates/effect-gate/src/gate.rs:1288-1302 | Once the generation is not ACTIVE, its channel is shut, maintenance has begun or its process has ended, nothing is forwarded any more, whatever happens and whatever the file holds |
| Lives.MaintenanceExcludesEffects | host-enforcement/crates/effect-gate/src/policy_gate.rs:624-635 | At every point of all lives: OPEN maintenance means an open fence with nothing in flight; maintenance underway has an owning opened session; an outstanding write excludes every armed or in-flight effect |
| Lives.UpstreamFindsItsSession | host-enforcement/crates/effect-gate/src/policy_gate.rs:887-904 | The outstanding write has its session when its answer comes, so the branch for an answer without a session is unreachable |
| Lives.StampsNeverStale | host-enforcement/crates/effect-gate/src/gate.rs:1125-1163 | In every reachable state no request is answered STAMP_MISMATCH or ALREADY_CONSUMED |
| Lives.DeathEndures | host-enforcement/crates/effect-gate/src/gate.rs:740-763 | A process that dies inside an event, after any of its appends and whatever they left, leaves a file that keeps the outcomes settled before, the writes decided without doubt and the laws of journals |
| Agreement.DeathLasts | host-enforcement/crates/effect-gate/src/gate.rs:740-763 | While files and mirrors agree, a process that dies inside an event also leaves the evidence of a hold and every decided write |
| Lives.OpeningEndures | host-enforcement/crates/effect-gate/src/policy_gate.rs:453-462 | A process that opens on any file has the outcomes and the writes that file says |
| Agreement.OpeningLasts | host-enforcement/crates/effect-gate/src/policy_gate.rs:453-462 | While files and mirrors agree, a process that opens is sound and keeps the hold |
| Resting.NothingMoves | host-enforcement/crates/effect-gate/src/policy_gate.rs:532-566 | No event of a process that came up on a file changes an execution, an action or a write, in memory, in its mirror or in the file, whatever the file holds and the storage does |
| Resting.RestartRests | host-enforcement/crates/effect-gate/src/policy_gate.rs:698-712 | Every restart, on any journal, ends at rest, with the writes its journal rebuilds |
| Recovery.Recovers | host-enforcement/crates/effect-gate/src/gate.rs:766-840 | Every lawful journal, cut anywhere or not, rebuilds to a gate and a write table that satisfy the invariant |
| Recovery.PrefixOk | host-enforcement/crates/effect-gate/src/journal.rs:271-284 | Every prefix of a journal that obeys the laws obeys them |
| Drift.PolicyWanders | host-enforcement/crates/effect-gate/src/policy_gate.rs:532-566 | Every event of every gate whatever, sound or not: what is not ACTIVE stays so, a shut channel stays shut, a restarted gate forwards nothing, and a BIND record on file is one that passed every check |
| Windows.ResidualWindow | host-enforcement/crates/effect-gate/src/gate.rs:748-763 | The exception to the hold is real: lives in which a HELD generation comes up CLOSED, after a restart in its process and in a new one |
| Windows.UnmeasuredWindow | host-enforcement/crates/effect-gate/src/file_store.rs:274-294 | A second window: the append answers torn and leaves nothing, so memory keeps its evidence and the next process does not; it comes up CLOSED |
| Windows.OutcomeKeptExactly | host-enforcement/crates/effect-gate/src/file_store.rs:285-294 | For every answer to an in-flight action of any life: the process that read it and the next one give it the same classification if and only if the TERMINAL append was not one that failed and left the record of an outcome that is not ambiguous |
| Windows.WriteKeptExactly | host-enforcement/crates/effect-gate/src/policy_gate.rs:832-917 | For every answer to the outstanding policy write of any life: the process that read it and the next one classify the write alike if and only if the WRITE_TERMINAL append was not one that failed and left the record of an outcome that is not ambiguous |
| OneWrite.WriteGetsThrough | host-enforcement/crates/effect-gate/src/policy_gate.rs:937-1021 | For every write the policy table admits, the life in which a writer connects, begins its maintenance, drains the generation and asks for the write leaves it outstanding, when its five records last |
| OneWrite.UnrevokedWrite | host-enforcement/crates/effect-gate/src/policy_gate.rs:832-917 | Its outcome, final, committed and not revoked, is IO_AMBIGUOUS in memory and DELIVERED_RESULT in the next process |
| OneEffect.EffectGetsThrough | host-enforcement/crates/effect-gate/src/gate.rs:1101-1181 | For every configuration that lists an unused run and manifest, the life that opens the channel, binds, arms, stamps a connection and requests forwards the effect exactly once, when its three records last |
| OneEffect.UnrevokedOutcome | host-enforcement/crates/effect-gate/src/file_store.rs:285-294 | Its outcome, final, committed and not revoked, is IO_AMBIGUOUS in memory and DELIVERED_RESULT in the next process |
| OneEffect.UnrevokedDenial | host-enforcement/crates/effect-gate/src/gate.rs:1101-1181 | The action whose CONSUMED record was committed and not revoked is NOT_FORWARDED in memory and IO_AMBIGUOUS in the next process |
| OneEffect.UnrevokedEffect | host-enforcement/crates/effect-gate/src/file_store.rs:285-294 | Its CONSUMED record, committed and not revoked, is on file, and nothing was ever forwarded |
| Windows.UnrevokedForward | host-enforcement/crates/effect-gate/src/gate.rs:1101-1181 | For every request that would be forwarded: a CONSUMED record committed, answered as failed and not revoked is on file, and nothing was forwarded |
| Windows.CutForward | host-enforcement/crates/effect-gate/src/gate.rs:1101-1181 | For every effect an event forwards: a process that dies on its way out of the event leaves the CONSUMED record and forwards nothing |
| PolicyRuns.HandleKeeps | host-enforcement/crates/effect-gate/src/policy_gate.rs:532-566 | One event keeps the invariant and the agreement of maintenance and fence; it forwards only from ACTIVE with an open channel and no maintenance begun, and accounts for it exactly once |
| PolicyRuns.PolicyRestartKeeps | host-enforcement/crates/effect-gate/src/policy_gate.rs:698-712 | A restart on the same journal ends the maintenance and the session, shuts the channel, is not ACTIVE, forwards and binds nothing, and keeps a traced hold |
| PolicyRuns.RestartHeldExactly | host-enforcement/crates/effect-gate/src/gate.rs:821-845 | A restart of a sound policy gate comes up HELD if and only if there is a marker, a torn entry, a last recorded state HELD, an action ambiguous or not settled, a write ambiguous or outstanding, or its RESTARTED record does not last |
| PolicyRuns.JournalRestartExactly | host-enforcement/crates/effect-gate/src/gate.rs:821-845 | A restart on any journal whatever comes up HELD if and only if the journal alone says so, or its RESTARTED record does not last |
| PolicyRuns.SecondRestartChangesNothing | host-enforcement/crates/effect-gate/src/policy_gate.rs:698-714 | A restart right after a restart, when both records last, adds its record and changes nothing else, writes included |
| PolicyRuns.RestartRebuildsWrites | host-enforcement/crates/effect-gate/src/policy_gate.rs:698-714 | Rebuilt writes: decided ones unchanged, the outstanding one IO_AMBIGUOUS, the same ids |
| JournalLaws.EveryJournal | host-enforcement/crates/effect-gate/src/gate.rs:1466-1542 | At every two positions of the journal of all lives, in memory and in the file, whatever the storage did: nothing is consumed after a stop, no execution is bound twice, a CONSUMED follows its own ARM, an armed DELETE follows a 201 CREATE that observed its UID, and no action id, created manifest or deleted UID is armed twice in an execution |
| JournalLaws.ForwardFollowsArm | host-enforcement/crates/effect-gate/src/gate.rs:1166-1181 | Every CONSUMED record follows the ARM record of its action within the same execution |
| JournalLaws.DeleteFollowsCreate | host-enforcement/crates/effect-gate/src/gate.rs:1486-1506 | Every ARM of a DELETE follows, within the execution, a durable 201 for a CREATE of the same manifest with the recorded UID |
| JournalLaws.ArmsNeverRepeat | host-enforcement/crates/effect-gate/src/gate.rs:1486-1542 | Within an execution no action id, no created manifest and no deleted UID is armed twice |
| JournalLaws.BindsNeverRepeat | host-enforcement/crates/effect-gate/src/gate.rs:1396-1464 | No execution is bound twice in a generation |
| JournalLaws.NoForwardAfterStop | host-enforcement/crates/effect-gate/src/gate.rs:1288-1302 | No CONSUMED record follows a drain, close, invalidation, channel end, restart or opened maintenance |
| JournalLaws.StopsStop | host-enforcement/crates/effect-gate/src/gate.rs:931-972 | A process whose journal or file holds a stop can no longer forward, whatever the storage did |
| GateSteps.HandleStepped | host-enforcement/crates/effect-gate/src/gate.rs:680-688 | Every event but a restart keeps the invariant and the evidence and reverts nothing; a forward needs an ACTIVE generation, open channel, no drain and a live execution and is accounted for once; a drain request always leaves ACTIVE |
| GateRestart.RestartRebuildsMemory | host-enforcement/crates/effect-gate/src/gate.rs:766-840 | Replaying the journal gives back memory, concluded as a restart concludes it |
| GateRestart.RestartKeeps | host-enforcement/crates/effect-gate/src/gate.rs:1045-1058 | A restart keeps the invariant, shuts the channel, is never ACTIVE, comes up HELD or as memory was, and keeps a hold that has evidence or a floor |
| GateStorage.StorageFailureKeeps | host-enforcement/crates/effect-gate/src/gate.rs:748-761 | The recursive storage-failure path ends HELD with the invariant kept, and leaves evidence or notes that it left none |
| GateStorage.JournalledKeeps | host-enforcement/crates/effect-gate/src/gate.rs:740-746 | Appending any record that fits memory keeps the invariant whatever the storage does, and a failed append leaves a traced hold |
| GateStorage.DenyArmedKeeps | host-enforcement/crates/effect-gate/src/gate.rs:916-928 | Denying every armed action, with whatever its appends trigger, keeps the invariant and leaves nothing armed |
| GateInvariant.FittingKeeps | host-enforcement/crates/effect-gate/src/journal.rs:133-210 | A record that fits memory keeps the agreement of memory with the replay, the derivation and the account of the journal |
| GateInvariant.AppendedFolds | host-enforcement/crates/effect-gate/src/journal.rs:271-284 | What one append adds to every fold over the journal: the record, a torn entry, or nothing |
| GateEvents.ArmKept | host-enforcement/crates/effect-gate/src/gate.rs:1466-1542 | An ARM keeps the invariant, so its record is one the execution so far justifies, and only moves onward |
| GateEvents.OutcomeKept | host-enforcement/crates/effect-gate/src/gate.rs:1544-1600 | Sealing an outcome keeps the invariant and reverts nothing |
| GateEvents.UpstreamKept | host-enforcement/crates/effect-gate/src/gate.rs:1193-1261 | An upstream answer concludes its action in memory as its TERMINAL record does in the journal, or holds the generation |
| GateEvents.CloseKept | host-enforcement/crates/effect-gate/src/gate.rs:1605-1636 | A close keeps the invariant and reverts nothing, whichever of its records fail |
| EffectGate.EffectGate.Tell | host-enforcement/crates/effect-gate/src/gate.rs:740-746 | Appends one record in place; the gate is then exactly where `Journalled` says, the storage-failure path included |
| EffectGate.EffectGate.StorageFailure | host-enforcement/crates/effect-gate/src/gate.rs:748-763 | The guarded recursion, in place, ends where `FailStorage` says and runs at most once at a time |
| EffectGate.EffectGate.DenyEveryArmed | host-enforcement/crates/effect-gate/src/gate.rs:916-928 | The loop over armed actions ends where the recursive denial says, failures included |
| EffectGate.ReplayJournal | host-enforcement/crates/effect-gate/src/gate.rs:766-820 | The loop over the journal computes the fold `Replay`, about which the rebuild theorems are proved |
| EffectGate.FlushLoop | host-enforcement/crates/effect-gate/src/gate.rs:1508-1514 | The loop over the backlog computes `Flush`: every queued connection closed and unstamped |
| EffectGate.EffectGate.Restart | host-enforcement/crates/effect-gate/src/gate.rs:1045-1058 | A sound gate stays sound, is not ACTIVE, has its channel shut, comes up HELD or as it was, and keeps its actions, all of them concluded |
| EffectGate.EffectGate.HandleEvent | host-enforcement/crates/effect-gate/src/gate.rs:680-688 | Every event keeps the invariant and, but for a restart, reverts nothing; a forward comes only from an ACTIVE generation with an open channel, no drain and a live execution, and is accounted for exactly once; output and drain answer are those of `Handle` |
| PolicyGate.RebuildLoop | host-enforcement/crates/effect-gate/src/policy_gate.rs:1060-1088 | The loop over the journal computes `RebuildWrites`, about which the write theorems are proved |
| PolicyGate.PolicyGate.Open | host-enforcement/crates/effect-gate/src/policy_gate.rs:453-462 | A process on what earlier ones left joins the lives of its generation, sleeping, with nothing more forwarded, the actions and writes its journal rebuilds, and HELD exactly when the journal is firm or RESTARTED does not last; when their files agreed it is sound |
| PolicyGate.PolicyGate.HandleEvent | host-enforcement/crates/effect-gate/src/policy_gate.rs:532-566 | After every event the object is where the lives of its generation lead: no effect was forwarded twice over all of them, an inert gate forwards nothing, an outstanding write excludes effects, settled outcomes stay and so do writes decided without doubt; and while the files agreed the object is sound, every decided write stays and a hold stays exactly unless a restart finds nothing that holds it |
| Frame.HexRoundTrip | host-enforcement/crates/effect-gate/src/frame.rs:52-60 | A length written in hexadecimal reads back |
| Frame.ScanOfSum | host-enforcement/crates/effect-gate/src/frame.rs:137-160 | A scan distributes over concatenation wherever the right part is empty or starts with 0xFF |
| Frame.FrameReads | host-enforcement/crates/effect-gate/src/frame.rs:109-135 | A frame reads as its payload when its status is committed, and as one TORN with any other status |
| Frame.PartialFrameReads | host-enforcement/crates/effect-gate/src/frame.rs:195-223 | Every proper prefix of a frame reads as one TORN |
| Frame.FrameRecovered | host-enforcement/crates/effect-gate/src/frame.rs:137-223 | A committed frame is recovered after any bytes whatever |
| Scanner.Collect | host-enforcement/crates/effect-gate/src/frame.rs:195-222 | The incremental header and frame collector agrees with the declarative reading of all bytes so far |
| Scanner.Scanner.Extend | host-enforcement/crates/effect-gate/src/frame.rs:182-192 | An attempt grows by bytes without 0xFF, decided or not |
| Scanner.Scanner.Feed | host-enforcement/crates/effect-gate/src/frame.rs:139-159 | Feeding in any chunks is feeding the concatenation |
| Scanner.Scanner.Finish | host-enforcement/crates/effect-gate/src/frame.rs:162-165 | The items found are those of the declarative scan of everything fed |
| Scanner.Scanner.HoldsLessThanAFrame | host-enforcement/crates/effect-gate/src/frame.rs:182-223 | The scanner never holds a whole largest frame |
| Scanner.Scanner.Abort | host-enforcement/crates/effect-gate/src/frame.rs:169-172 | Whatever the unread rest holds, everything reported is what the scan of the whole finds first, in order, followed by one TORN |
| Scanner.ScanFile | host-enforcement/crates/effect-gate/src/file_store.rs:206-229 | A chunked scan is complete exactly when length and every chunk could be read within the bound; then it is the scan of the file, else it is what that scan finds first, then one TORN |
| RecordCodec.DocBack | host-enforcement/crates/effect-gate/src/journal.rs:135-209 | Every record in range decodes from its own document |
| RecordCodec.RecordBack | host-enforcement/crates/effect-gate/src/frame.rs:410-486 | Decoding inverts encoding, for all record kinds |
| RecordCodec.DecodesExactly | host-enforcement/crates/effect-gate/src/frame.rs:410-486 | A payload decodes to a record if and only if the record is in range and the payload is its canonical text |
| FileStore.WholeFrameReads | host-enforcement/crates/effect-gate/src/frame.rs:226-241 | A whole frame after any file reads as its record when committed, one TORN otherwise |
| FileStore.CutFrameReads | host-enforcement/crates/effect-gate/src/file_store.rs:243-263 | A frame cut anywhere adds nothing when no byte reached the file and one TORN otherwise |
| FileStore.CrashAddsAtMostOneEntry | host-enforcement/crates/effect-gate/src/file_store.rs:243-294 | A crash at any point of an append adds nothing, exactly one TORN, or exactly the record being appended |
| FileStore.AppendReads | host-enforcement/crates/effect-gate/src/file_store.rs:274-294 | One append, for every outcome of its file operations: what a scan reads more, and exactly when that is what the mirror got |
| FileStore.MirrorAgreesExactly | host-enforcement/crates/effect-gate/src/file_store.rs:508-517 | Over every sequence of appends a fresh scan decodes to the mirror if and only if no append parted them, and never to more entries |
| FileStore.EachParts | host-enforcement/crates/effect-gate/src/file_store.rs:243-294 | Every way of parting happens: a revocation that fails, a commit byte stored by a write that failed, and nothing written with the length unreadable |
| FileStore.StaysWithinBound | host-enforcement/crates/effect-gate/src/file_store.rs:276-282 | An append never takes a file past its bound |
| FileStore.JournalFile.TwoPhases | host-enforcement/crates/effect-gate/src/file_store.rs:243-263 | The file after the two phases, and every content it passed through is one a crash may leave |
| FileStore.JournalFile.AppendFrame | host-enforcement/crates/effect-gate/src/file_store.rs:275-294 | File and answer are those of `AppendBytes`; every intermediate content is one a crash may leave |
| FileStore.JournalFile.Append | host-enforcement/crates/effect-gate/src/file_store.rs:508-517 | The mirror gets the record, one TORN or nothing, as the answer says |
| FileStore.FileHasWorld | host-enforcement/crates/effect-gate/src/file_store.rs:274-294 | Every sequence of appends to a file, failing in any way at any step, is a sequence of appends in some `World`: mirror, scan of the file and whether they parted are what that world says |
| Generations.NothingIsBoundTwice | host-enforcement/crates/effect-gate/src/file_store.rs:389-469 | Across any history of openings, events, stops and deaths on the same directories, whatever the storage did, any two BIND records on file differ in execution and run nonce and share no manifest digest or identity |
| Generations.MoveKeeps | host-enforcement/crates/effect-gate/src/file_store.rs:323-332 | Every opening, event, stop or death keeps: each generation knows everything on file before it, and every BIND record on file passed its checks |
| Generations.HappeningKeepsBinds | host-enforcement/crates/effect-gate/src/gate.rs:484-521 | Every happening of a generation keeps the BIND records on its file lawful, an append that was not answered for included |
| Generations.CheckedBindIsLawful | host-enforcement/crates/effect-gate/src/gate.rs:1406-1440 | A BIND that passes the checks repeats nothing bound before, in this generation or an earlier one |
| ConfigCheck.CheckRuns | host-enforcement/crates/effect-gate/src/config.rs:143-153 | The size comparisons accept exactly the configurations whose listed manifests are in the profile with no digest and no identity listed twice |
| ConfigCheck.CheckedIsValid | host-enforcement/crates/effect-gate/src/config.rs:142-153 | An accepted configuration keeps its runs apart, which the uniqueness of bindings needs |
| Observation.ParseLeafProcs | host-enforcement/crates/effect-gate/src/observation.rs:202-224 | The loop computes the declarative parse of a member file |
| Observation.LeafBack | host-enforcement/crates/effect-gate/src/fake_kernel.rs:286-295 | A printed member file parses back to its members, or is refused when above its bound |
| Observation.ParseStatStart | host-enforcement/crates/effect-gate/src/observation.rs:231-255 | The loop computes the declarative parse of a stat file |
| Observation.StatBack | host-enforcement/crates/effect-gate/src/fake_kernel.rs:298-302 | A printed stat file gives its start time for every command name, parentheses and spaces included |
| Observation.OneHolder | host-enforcement/crates/effect-gate/src/fake_kernel.rs:204-245 | A process that holds a pid at two times holds it at every time between, with one start time |
| Observation.ObservedExactly | host-enforcement/crates/effect-gate/src/observation.rs:165-195 | Observed if and only if no call failed, the files were within their bounds, the worker leaf listed the pid at first, and one process with that start time held it from pidfd_open to the poll, in the leaf at the recheck |
| Observation.Observe | host-enforcement/crates/effect-gate/src/observation.rs:165-195 | The observation itself, with the kernel free between any two calls: that condition holds exactly when it answers Observed |
| Base64.StrictIsCanonicalExactly | host-enforcement/crates/i05-protocol/src/base64.rs:20-43 | What strict decoding accepts is the encoding of its result if and only if its unused bits are zero: after two pads the last symbol is a multiple of 16, after one of 4 |
| Base64.StrictIsNotCanonical | host-enforcement/crates/i05-protocol/src/base64.rs:20-43 | Non-zero unused bits are accepted, as documented: a text strict decoding accepts that is no encoding |
| Base64.EncodedBack | host-enforcement/crates/i05-protocol/src/base64.rs:46-60 | Strict decoding inverts encoding |
| Base64.CanonicalExactly | host-enforcement/crates/broker/src/i02.rs:904-911 | A text passes the canonical check with this result if and only if it is the encoding of that result |
| Transcript.Chained | host-enforcement/crates/broker/src/i02.rs:567-594 | Taken frames have sequence 1..n, an unbroken digest chain and the dispatch echoed |
| Transcript.StartedFirst | host-enforcement/crates/broker/src/i02.rs:596-610 | STARTED is the first frame and no other; REFUSED only ever comes alone |
| Transcript.ChunksInOrder | host-enforcement/crates/broker/src/i02.rs:645-670 | Chunks come with indices 0..k-1, canonical and within their bound |
| Transcript.TerminalBinds | host-enforcement/crates/broker/src/i02.rs:671-709 | TERMINAL binds size and digest of the concatenated chunks (1 to 171, at most 4 MiB) and repeats the digest of the one cleanup |
| Transcript.ActionsAnswered | host-enforcement/crates/broker/src/i02.rs:617-644 | Before TERMINAL every action has its own result with only aborts between, and every result its action |
| Transcript.AbortsOnce | host-enforcement/crates/broker/src/i02.rs:617-716 | At most one abort, and no action after it |
| Transcript.NothingAfterTheEnd | host-enforcement/crates/broker/src/i02.rs:556-565 | Nothing is taken after TERMINAL or REFUSED |
| Transcript.BuiltEnvelope | host-enforcement/crates/broker/src/i02.rs:778-800 | A frame the broker builds is refused only for its place |
| Transcript.BuiltChunk | host-enforcement/crates/broker/src/i02.rs:744-747 | A built chunk is taken if and only if it and the receipt stay within bounds |
| Transcript.BuiltTerminal | host-enforcement/crates/broker/src/i02.rs:751-762 | A built TERMINAL is always taken once cleaned |
| Transcript.Transcript.AcceptInput | host-enforcement/crates/broker/src/i02.rs:556-594 | The object keeps the frames it took: a datagram is added to them or ends the transcript; they are always one chain, and once TERMINAL is among them it binds size and digest of all they carried and every action has its result |
| Lockstep.AlwaysInStep | host-enforcement/crates/effect-gate/src/gate.rs:1306-1381 | From fresh sides, over any turns, frames in flight and any gate events between them: while the channel lasts, both hold the same next sequence and last digest, or one frame is in flight whose envelope the gate passes or which the client accepts, after which they do |
| Lockstep.I05Client.SendRequest | host-enforcement/crates/broker/src/i05_client.rs:286-313 | The object keeps the frames it exchanged: one unbroken chain, requests and answers in turn, sequence 1..n; a request is its next frame or ends it |
| Lockstep.I05Client.ReceiveReply | host-enforcement/crates/broker/src/i05_client.rs:329-373 | An accepted answer is the next frame of that chain, with the operation of its request; anything else ends the channel |
| Lockstep.ExchangeKeepsStep | host-enforcement/crates/broker/src/i05_client.rs:286-396 | One exchange: the client accepts every response and both sides are in step again; the gate is fatal only for a foreign peer qualification or a response outside its schema |
| Lockstep.EventKeepsChain | host-enforcement/crates/effect-gate/src/gate.rs:976-1039 | No event but a frame moves the chain |
| Lockstep.PerformAnswers | host-enforcement/crates/broker/src/i05_client.rs:383-396 | Every operation answers its own request |
| Plan.Flatten | internal/controller/foundation/engine.go:184-192 | The nested loops compute `Flattened` |
| Plan.FlattenedIs | internal/controller/foundation/engine.go:177-192 | Every flattened resource is the plan's resource at its recorded wave and index |
| Plan.FlattenedHas | internal/controller/foundation/engine.go:177-192 | Every resource of the plan is among the flattened ones |
| Plan.FlattenedInOrder | internal/controller/foundation/engine.go:186-190 | Flattened resources are in strictly ascending plan position |
| Plan.OrderedExactly | internal/controller/foundation/plan.go:105-137 | Comparing each key with the one before and with those seen is exactly strict order in each wave and no key twice in the whole plan |
| Plan.CheckWave | internal/controller/foundation/plan.go:116-136 | Accepts a wave exactly when its keys ascend, none was seen before and every resource is valid |
| Plan.CheckBaseline | internal/controller/foundation/plan.go:133-146 | Accepts exactly when the kinds are the required ones, in some order |
| Plan.ValidateWaves | internal/controller/foundation/plan.go:93-148 | Accepts exactly the plans in order whose first wave holds each required kind once |
| Engine.StoreAlwaysResumes | internal/controller/foundation/engine.go:63-175 | For any engines crashing anywhere: every stored inventory passes the resume checks, so its records are a prefix of the plan, and COMPLETE means an outcome for them was published |
| Engine.StoreAlwaysGrows | internal/controller/foundation/engine.go:91-173 | Between any two points stored records only grow, and COMPLETE is final |
| Engine.PublishedIsNeverStale | internal/controller/foundation/engine.go:150-174 | In every reachable world each published outcome is the outcome, at its times, of the records stored, which are the whole plan |
| Engine.CompleteReturnsPublished | internal/controller/foundation/engine.go:97-102 | An engine that finds COMPLETE returns what any publication at its times said |
| Engine.AppliedIsAPlanPrefix | internal/controller/foundation/engine.go:104-149 | For one engine at a time, re-run and crashing anywhere, what was applied with immediate repeats dropped is a prefix of the plan, at most one longer than the records |
| Engine.RecordsDistinct | internal/inventory/inventory.go:80-95 | Records that match a plan in order never repeat a key |
| Reconcile.ValidateRecords | internal/inventory/inventory.go:70-97 | Accepts exactly when every record is sound, with an identity, a wave and its digests, and no key comes twice |
| Reconcile.ValidateResume | internal/controller/foundation/engine.go:194-224 | For an accepted plan, accepts exactly the inventories whose records are a prefix of the plan with the cursor their state calls for |
| Reconcile.Obtain | internal/controller/foundation/engine.go:87-102 | Load, create or check: the engine then holds what the store holds at its revision, or has ended with the outcome of a COMPLETE inventory |
| Reconcile.MarkWave | internal/controller/foundation/engine.go:105-117 | The write-ahead mark is the step machine's, and skipped exactly when it is already this resource's |
| Reconcile.ApplyResource | internal/controller/foundation/engine.go:118-128 | One apply and its receipt check, as the step machine says |
| Reconcile.RecordReceipt | internal/controller/foundation/engine.go:129-148 | The record and the cursor written are the step machine's |
| Reconcile.Conclude | internal/controller/foundation/engine.go:150-159 | The status-pending write, skipped exactly when already made |
| Reconcile.Announce | internal/controller/foundation/engine.go:160-174 | Publishes, then completes, as the step machine says |
| Reconcile.CompleteIsWhole | internal/controller/foundation/engine.go:100-102 | In every reachable state a COMPLETE inventory records the whole plan, an outcome for its records was published, and every publication says the same |
| Reconcile.RunLoop | internal/controller/foundation/engine.go:87-175 | The loop makes only steps of the step machine, in its order, and returns an outcome exactly when the machine's engine does |
| Reconcile.Run | internal/controller/foundation/engine.go:63-175 | A whole reconcile among other engines, crashing anywhere: the store only grows, and an outcome is returned only over a COMPLETE inventory that records the whole plan, is the outcome of those records, and for those records one was published |
| Seal.WordsBack | host-enforcement/crates/effect-gate/src/seal.rs:103-116 | The two capability words carry the three sets unchanged |
| Seal.PlanIs | host-enforcement/crates/effect-gate/src/seal.rs:399-412 | The plan drops every visible capability but CAP_SETPCAP in stage 1 and CAP_SETPCAP, if present, in stage 2 |
| Seal.DropBounding | host-enforcement/crates/effect-gate/src/seal.rs:495-502 | A success leaves exactly the target visible, whatever the kernel ignored; a faithful kernel lets it succeed exactly when nothing is to be dropped or CAP_SETPCAP is effective |
| Seal.RunStage1 | host-enforcement/crates/effect-gate/src/seal.rs:512-533 | A success leaves at most CAP_SETPCAP, no ambient or inheritable capability, no core files and no new privileges; exact on a faithful kernel; no filter, nothing grows |
| Seal.RunStage2 | host-enforcement/crates/effect-gate/src/seal.rs:536-556 | A success has every set empty and the filter as its last call; exact on a faithful kernel |
| Seal.RunSeal | host-enforcement/crates/effect-gate/src/seal.rs:892-895 | For every kernel, whichever calls it fails or ignores: success means a sealed process with the filter last and only once, failure means no filter; a faithful kernel lets it succeed if and only if the start is sealable |
| Seal.Kernel.WriteCapabilities | host-enforcement/crates/effect-gate/src/seal.rs:805-830 | The kernel's capset rules |
| Seal.Kernel.DropOne | host-enforcement/crates/effect-gate/src/seal.rs:723-762 | The kernel's bounding-set drop |

## Left out

- Counters, snapshots and the documents built for display: they are written and never read by a decision.
- The schema checker: whether a response fits its schema (`fits`) and whether the worker was observed (`observed`) are inputs of an event.
- The signed configuration's parser: a configuration is a value; only the refusals that keep runs apart are modelled (`ConfigCheck`).
- Rendering of requests and the policy table (`check_write`, `render_write`): functions of the configuration.
- The marker file's bytes: the marker is present or not, and writing it succeeds or not.
- The document file that binds a generation to its configuration, a failing append to the generation index, and an earlier journal file that cannot be read whole: `Generations` models openings that pass these checks.
- Writes that the disk reorders across a sync: a crash leaves a prefix of the pending frame, the committed or the revoked frame.
- LifeLaws.HeldIsAbsorbing: holds up to `untraced`, the residual window, and while `Unparted`; `Windows.ResidualWindow` and `Windows.UnmeasuredWindow` are the lives in which the code does not meet it, and `LifeLaws.HeldThroughoutExactly` the exact condition while `Unparted`.
- LifeLaws.RunKeeps: the forwards are all of the journal's CONSUMED records only while `Unparted` and no process died inside an event; `OneEffect.UnrevokedEffect` and `Windows.CutForward` show the records without a forward.
- LifeLaws.DecidedWritesStay: a write that memory calls ambiguous is promised to stay so only while `Unparted`; `Windows.WriteKeptExactly` is the exact condition and `OneWrite.UnrevokedWrite` a life in which it does not.
- FileStore.MirrorAgreesExactly: equality up to the ways of parting in `Parts`, in which the code does not meet it.
- Observation.Observe: a call fails or answers from the process table; replies injected in its place and the diagnostic log are left out.
- Lockstep.AlwaysInStep: a frame in flight is delivered as sent, or the channel ends; an end of either side ends the claim.
- The dispatch document's checks and the frame decoder in front of the transcript: a datagram is a decoded frame, another document, or undecodable with a code.
- Inventories of other plans: all engines of `Engine` work on one plan, so the binding comparison is left out; refusal codes of the engine are one `None`.
- Reconcile.Run: starts after the checks of the backends, the plan digest, the namespace and the times, which refuse before any effect.
- The content rules of manifests and the pattern rules of names: one predicate for a wave's name and one for a resource (`Rules`).
- Seal.RunSeal: the status file's text, the prctl argument vectors and the failure codes; a failed step is a failure.
- Sockets, epoll, TLS, the system-call wrappers, the broker's lifecycle, the observer, the Kubernetes controller shell, the verifier and the command-line programs.
