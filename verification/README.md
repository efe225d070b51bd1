# Crash-safe bookkeeping of the autonomous builder control plane

A model of the parts of the control plane that must stay right across crashes, failed system calls, retries and competing
processes, and proofs that they do. Everything here is about the code's logic; JSON, digests, timestamps and the syntax of
identifiers are parameters, so a theorem holds for every codec and digest with the stated properties. `Witnesses` gives, for
each such set of properties, a codec that has them all, and shows on it a first record, a first identity, a first run and a first
reservation that are admitted.

## What is modelled

| files | component |
|---|---|
| `ByteLines`, `Journal`, `JournalTheorems`, `JournalOperations` | the per-run action journal: segments, reader, writer, and the three appending operations |
| `AppendDisk`, `AppendTheorems`, `AppendProtocol`, `RunJournal` | one append under its rollback marker, recovery, and whole lives of a journal |
| `Durability`, `LinkedHistory`, `ShardDisk`, `IdentityPublication`, `IdentityLives` | issuing and publishing request identities under a counted, linked history |
| `RunDisk`, `RunRegistration`, `RunLives`, `UnsyncedRuns` | registering run directories under a prepared authority, and what going on after a failed sync risks |
| `Admission` | admitting and replaying requests over the request index and the run journals together |
| `DecisionEffect` | the one effect of a human decision, by any number of workers |
| `CancelWatermark`, `CancelHistory` | delivering cancels up to a frozen watermark, and what the ledger proves about a cancel |
| `ActivityLog`, `ActivityStore`, `ActivityLosses` | the checksum-chained activity log, its anchor, its ordinals and its cache; one run's log through power losses |
| `ProviderBatch` | taking provider events without skipping one |
| `AttemptStore`, `Collection` | reserving CI evidence attempts within bounds, and publishing one bundle and one event for each |
| `Pagination` | collecting a provider's paged lists within the request budget |
| `ResourceCodec` | the binary form of the resource generation |
| `AppWatch`, `NumberLedger` | the app-health watch, its events and its cursor, and the numbers it gives over many processes |
| `Tokens`, `Witnesses`, `FullSegment` | codecs that meet the hypotheses of the theorems, and inputs at which the failures below show |

A file or an attribute on disk is a live value and the set of values a power loss may bring back: a write adds to the set, a
sync of the file or of its directory narrows it. Every system call may fail, and a failed one may have happened all the same
or in part. A process ends in one of two ways: a kill leaves the disk as it is, with whatever is not synced; a power loss
brings back one value of each set. The classes of the journal, the request index and the run registry carry a ghost record of
the disk states the current request passes (`passed`), so a claim about "every crash" is a claim about each of these states;
they and most others carry a ghost flag that some call has failed (`faulty`), so that an operation cannot give up without
cause. Methods take the abstract journal or history they are about as a ghost argument; the methods called `Serve` run whole
lives: after a failed call the process goes on, and any request may end in a kill or a power loss at any state it passed.
A shard of the request index stands for a `Book`, which says whether its last record is counted durably (`unsure`); a journal's
last commit may be undecided in the same way, and stays so through kills and requests until something decides it.
The admission, decision and cancel protocols are transition systems over all interleavings, because there the point is many
processes.

## Where the code does not do what it seems to promise

- A crash that leaves the rollback marker created and not filled makes every later scan refuse the run
  (`AppendTheorems.SettledReads`; such a crash: `Witnesses.TornMarkerLeft`); no record is lost.
- A process killed while it commits a record leaves the marker's removal unsynced. The next one reads the record, and a power
  loss may still take it back: exactly when the marker may come back (`RunJournal.KilledAppend`; such a state:
  `Witnesses.KilledFirstCommit`). No later record builds on it before it is decided (`RunJournal.Serve`), but for one case:
  a rollback that was cut back and not synced, and a next record that starts a new segment. Then a power loss may leave a
  journal that no scan reads: exactly when the cut-off line may come back (`RunJournal.LeftUndecided`; such a run:
  `FullSegment.LineComesBack`).
- The journal reader accepts lines that end in a carriage return, which no writer makes (exactly when: `JournalTheorems.AcceptedBytes`;
  such a segment: `Witnesses.FirstLineWithReturn`).
- `CreateClaim` does not compare the owner lease with the receipt's, and the reader does (exactly when:
  `JournalOperations.ClaimAdmitted`; such a claim: `Witnesses.OtherOwnersClaim`).
- After a failed sync of a shard's authority the running process goes on, and so does one that starts after a kill; its next
  reconciliation publishes the identity, and if the old authority then comes back the shard is refused
  (`IdentityLives.LinkedTooEarly`; exactly when: `IdentityLives.UnsyncedAuthority`).
- Staged names that were removed and not synced may come back together and exceed the bound of a shard, which is then refused
  (exactly when: `IdentityLives.CrowdedOut`).
- The same happens to the run registry. Recovery of a bound run does not sync the actions directory when it finds the run's
  name in place; and after a failed sync of the root authority the process uses the run or prepares another. A power loss may
  then leave actions no new process starts on: exactly when the old name or the old authority may come back
  (`UnsyncedRuns.UnsyncedRename`, `UnsyncedRuns.UnsyncedPrepared`, `UnsyncedRuns.UnsyncedEstablished`).
- An issued identity whose receipt was interrupted may never get one: exactly when another receipt of the run has taken its
  decision request meanwhile (`Admission.MaterialisesIff`, `Admission.NeverMaterialises`; a run that does it:
  `Admission.FirstIsForestalled`).
- The activity store accepts events whose lines its reader refuses: one with the longest source ids, title and detail, all in
  angle brackets (`ActivityStore.LongestCannotReload`; exactly when: `ActivityStore.ReloadsIffLineFits`). What the service
  writes carries digests as source ids, and always fits (`ActivityLog.ServiceLogFits`).
- A failed activity write is latched in memory only, so dropping the cached log changes the answer
  (exactly when: `ActivityStore.Store.EvictionChangesNothing`); and the load that follows commits an anchor for the unsynced
  line, after which a power loss that takes the line back leaves a log that is refused (`ActivityStore.AnchoredTooEarly`).
- If the commit of that anchor fails as well, and its rename shows, the load after it answers from the line, and a power loss
  may take line and anchor back and leave a log that loads (`ActivityLosses.ToldAndLost`; exactly when:
  `ActivityLosses.LossyLog.ToldKeptIff`). An event whose appending was acknowledged is never lost so (`ActivityLosses.Serve`).
- The decoder of the empty resource generation accepts root inode 0, and the encoder does not (`ResourceCodec.DecodedEncodes`).
- At cursor 2^64-1 the watch always says that events were lost (`AppWatch.TruncatedIff`).
- After a failed save and a restart, or a power loss that undoes the rename of its file, the watch gives numbers it had
  already given to other events (`NumberLedger.GivenTwice`): exactly when an event is told after a process started that did
  not know of all told before (`AppWatch.Watch.NumbersDistinct`, `NumberLedger.LastVersionLoses`).
- Two items of one page may name the same node under different ids (`Pagination.TwoIdsTaken`): over the pages taken each node
  has one id exactly if no page by itself names one under two (`Pagination.OneIdForEachNode`).

## Model

| member | source | states |
|---|---|---|
| `Journal.ScanRun` | internal/actioncontrol/journal_linux.go:1963-2055 | The directory scan returns a state exactly for the directories the reader's specification accepts: segments 1 to n and nothing else, each segment's lines decoded, numbered and linked, every operation's progress valid. |
| `Journal.ReadSegment` | internal/actioncontrol/journal_linux.go:2057-2098 | The line-by-line segment loop returns exactly the segment's bytes, record count, last digest and records, and refuses an unterminated, oversized or undecodable segment. |
| `Journal.FoldSegment` | internal/actioncontrol/journal_linux.go:2016-2038 | The record loop of one segment computes the fold of its records into the running state, refusing at the first record out of place. |
| `Journal.ValidateProgress` | internal/actioncontrol/journal.go:323-344 | The status loop accepts exactly the operations whose outcomes form a legal progression from received or claimed. |
| `JournalTheorems.SegmentsMatchFiles` | internal/actioncontrol/journal_linux.go:1963-2055 | A scan's segment list describes the files: their byte sizes, and record count zero exactly for an empty file without a last digest. |
| `JournalTheorems.SegmentAppend` | internal/actioncontrol/journal_linux.go:2057-2098 | A segment that reads, extended by one whole line, reads as the old records and the new one, with size, count and last digest brought up. |
| `JournalTheorems.TrailingEmpty` | internal/actioncontrol/journal_linux.go:1963-2055 | A trailing empty segment, as a rolled-back rotation leaves, is accepted and changes nothing a caller observes. |
| `JournalTheorems.PreparedShape` | internal/actioncontrol/journal_linux.go:2270-2321 | A prepared append carries the body with the next sequence, and goes to the last segment only if it has room, else to the next one with the prior segment's digest. |
| `JournalTheorems.WriterRefinesReader` | internal/actioncontrol/journal_linux.go:2145-2321 | If a journal reads to a state, the prepared line of an admitted body on disk makes it read to that state and exactly that record, across rotation, trailing empty segments, digest links and all bounds; that the line fits the reader's buffer follows from the validation. |
| `Journal.ValidLineFits` | internal/actioncontrol/journal.go:216-321 | No record the validation lets through has a line too long for the reader's buffer. |
| `JournalTheorems.ReadableIffLineFits` | internal/actioncontrol/journal_linux.go:2057-2071 | Whatever the encoding, the extended journal reads if and only if the new line fits the scanner's buffer, which the writer itself does not check. |
| `JournalTheorems.AcceptedBytes` | internal/actioncontrol/journal_linux.go:2057-2143 | An accepted segment is byte for byte what a writer makes of its records if and only if no line ends in a carriage return: the reader also accepts those. |
| `JournalTheorems.ReturnAccepted` | internal/actioncontrol/journal_linux.go:2057-2143 | Any valid record's line with a carriage return before its newline is such a segment, read as that record. |
| `Witnesses.FirstLineWithReturn` | internal/actioncontrol/journal_linux.go:2057-2143 | A first receipt so written is accepted. |
| `JournalOperations.ProgressHistory` | internal/actioncontrol/journal.go:323-348 | The legal outcome sequences are exactly: none, rejected, applied, reconciliation required, or the last and one reconciled outcome; rejected only when unclaimed, the others only when claimed. |
| `JournalOperations.ScannedJournal` | internal/actioncontrol/journal_linux.go:1963-2186 | In every accepted journal each operation has one of the known histories, rejected means never claimed, and no two operations share a lookup or a decision request. |
| `JournalOperations.ReceiptAdmitted` | internal/actioncontrol/journal_linux.go:617-728 | A new receipt the call would append is admitted by the reader if and only if its lookup is the digest of its principal and request. |
| `JournalOperations.ClaimAdmitted` | internal/actioncontrol/journal_linux.go:901-936 | A new claim is admitted by the reader if and only if its owner lease is the receipt's, which the call never compares. |
| `Witnesses.OtherOwnersClaim` | internal/actioncontrol/journal_linux.go:901-936 | On a journal with one receipt the call makes a claim under another owner's lease that the reader does not admit. |
| `JournalOperations.OutcomeAdmitted` | internal/actioncontrol/journal_linux.go:938-976 | Every new outcome the call would append is admitted by the reader. |
| `JournalOperations.TerminalAbsorbs` | internal/actioncontrol/journal.go:346-348 | A settled operation takes no further claim or outcome, whatever is asked of it. |
| `JournalOperations.OthersUnchanged` | internal/actioncontrol/journal_linux.go:2145-2186 | A record changes only its own operation. |
| `JournalOperations.OneStep` | internal/actioncontrol/journal_linux.go:2145-2186 | An admitted record starts an operation as received, claims a received one, or moves an unsettled one one legal step, keeping receipt and claim. |
| `AppendProtocol.RunDirectory.CreateAppendPending` | internal/actioncontrol/journal_linux.go:2323-2378 | Success leaves the rollback marker durable, bytes and name; at every disk state on the way every crash still reads as the old journal or refuses a torn marker. |
| `AppendProtocol.RunDirectory.RollbackPendingAppend` | internal/actioncontrol/journal_linux.go:2501-2535 | Success leaves the marked segment durably cut back to the old bytes; no disk state passed loses the old journal. |
| `AppendProtocol.RunDirectory.RecoverPendingAppend` | internal/actioncontrol/journal_linux.go:2453-2490 | Recovery of whatever a crash, a failed append or an undecided commit left keeps the journal at every step and, unless a system call fails or the marker is torn, leaves no marker and the journal the process goes on with. |
| `AppendProtocol.RunDirectory.RestoreAppendPending` | internal/actioncontrol/journal_linux.go:2384-2451 | Success makes the marker durable again, so that the line is taken back; on the way the disk stays one that reads as the old or the new journal. |
| `AppendProtocol.RunDirectory.ResolveAmbiguousAppend` | internal/actioncontrol/journal_linux.go:2256-2268 | After a failed marker removal either the old journal is settled, or the instance is failed closed and keeps its lock. |
| `AppendProtocol.RunDirectory.WriteLine` | internal/actioncontrol/journal_linux.go:2212-2238 | Puts the line into the marked segment, bytes and name durable, while every crash still rolls back to the old journal. |
| `AppendProtocol.RunDirectory.CommitLine` | internal/actioncontrol/journal_linux.go:2239-2249 | A nil return means the longer journal survives every crash; an error means the old journal is settled or the instance is failed closed with its lock. |
| `AppendProtocol.RunDirectory.AppendLine` | internal/actioncontrol/journal_linux.go:2188-2249 | The whole append, also where the last commit was left undecided: success leaves the journal durably longer by the line; an error, which takes a failed system call or a torn marker, leaves the old one, or what was undecided, or a failed-closed instance; every disk state passed reads as old or new. |
| `AppendTheorems.SettledReads` | internal/actioncontrol/journal_linux.go:2453-2490 | Every image a crash can leave of a settled disk recovers to exactly its journal, unless the marker is torn; then nothing is read. |
| `Witnesses.TornMarkerLeft` | internal/actioncontrol/journal_linux.go:2323-2378 | The first append's marker, created and not filled, may come back empty, and then no scan reads the run. |
| `AppendTheorems.CommittingReads` | internal/actioncontrol/journal_linux.go:2239-2249 | Every image a crash can leave while the line is being committed recovers to the old journal or the old journal and that line, or is refused for a torn marker. |
| `AppendTheorems.CrashSettled` | internal/actioncontrol/journal_linux.go:2453-2490 | A power loss between appends or during recovery leaves a settled disk for the same journal, so recovery may itself be cut off any number of times. |
| `AppendTheorems.CrashCommitting` | internal/actioncontrol/journal_linux.go:2239-2249 | A power loss during the commit leaves a settled disk for the old journal or for the new one. |
| `AppendTheorems.CrashUndecided` | internal/actioncontrol/journal_linux.go:2239-2268 | A power loss decides a commit that was left undecided, also after the next process has begun to replace its marker. |
| `AppendTheorems.DoubtfulReads` | internal/actioncontrol/journal_linux.go:2239-2268 | Where only an older marker may come back, every image reads as the journal seen or the one before its last record, or is refused for a torn marker. |
| `AppendTheorems.GrowsBy` | internal/actioncontrol/journal_linux.go:2270-2321 | The files extended at the prepared place read as the old contents and exactly the new record, whichever trailing empty segment is there. |
| `RunJournal.CaughtReads` | internal/actioncontrol/journal_linux.go:2188-2249 | Whatever disk state of an append, or left undecided by one, a crash catches, a scan that succeeds reads the old contents or the old contents and the new record. |
| `RunJournal.CaughtCrashes` | internal/actioncontrol/journal_linux.go:2188-2249 | Whatever disk state of an append, or left undecided by one, a power loss catches, it leaves a settled journal, the old one or the new one. |
| `AppendTheorems.KilledCommit` | internal/actioncontrol/journal_linux.go:2239-2268 | After a kill inside the commit, or while the marker is put back, what the next process finds, unless it refuses a torn marker, is what every power loss leaves if and only if it is there for good: the line in every version and no marker left, or the line in none or a marker in all. |
| `RunJournal.KilledAppend` | internal/actioncontrol/journal_linux.go:2188-2268 | The same of a record: what the process after a kill reads is the journal seen, and it stays, or a torn marker shows, exactly when it is there for good. |
| `Witnesses.KilledFirstCommit` | internal/actioncontrol/journal_linux.go:2239-2268 | After a kill that leaves the first record's marker removed and the removal not synced, the next process finds the record and it is not there for good. |
| `RunJournal.ScanJournal` | internal/actioncontrol/journal_linux.go:1963-2055 | Recovery and scan together return exactly the contents of the journal the disk stands for or, undecided, is seen as, and keep it at every step. |
| `RunJournal.AppendRecord` | internal/actioncontrol/journal_linux.go:2188-2249 | One scan and append: success gives the old contents and this record, durably; an error leaves the journal as it was, decided or not, or the instance failed closed with its lock kept; an unreadable journal takes a failed system call or a torn marker, a failed append a failed system call. |
| `RunJournal.Serve` | internal/actioncontrol/journal_linux.go:2188-2535 | Over any sequence of appends, failures, kills and power losses, the journal holds in order every acknowledged record, no declined one, and of those cut off each wholly or not at all; at most one, whose commit failed closed or was cut off by a kill, is undecided, until a durable marker or a power loss decides it. |
| `RunJournal.LifeThroughLoss` | internal/actioncontrol/journal_linux.go:2188-2535 | Wherever a life has got to, a power loss leaves a journal of the requests that took effect, the undecided one with or without. |
| `RunJournal.LeftUndecided` | internal/actioncontrol/journal_linux.go:2256-2321 | A process that starts a new segment over one cut back and not synced risks the journal: every power loss leaves a readable one if and only if the cut-off line cannot come back. |
| `FullSegment.CutBackBreaks` | internal/actioncontrol/journal_linux.go:2256-2321 | For every codec: where the writer puts one record into the first segment and another into the next, the first can be cut back, the second appended, and a power loss leave files that no scan reads. |
| `FullSegment.LineComesBack` | internal/actioncontrol/journal_linux.go:2256-2321 | There is such a run: a segment of receipts that the reader accepts, with room for a short record and none for a longest one, and a power loss that brings the short line back. |
| `LinkedHistory.LoadHistory` | internal/actioncontrol/journal_linux.go:2774-2839 | The loading loop returns exactly the counted records and the offset after them, or refuses. |
| `LinkedHistory.LoadsLines` | internal/actioncontrol/journal_linux.go:2774-2839 | A chained history's counted prefix loads back whatever follows it, as a torn or uncounted record may. |
| `LinkedHistory.LoadIsLines` | internal/actioncontrol/journal_linux.go:2774-2839 | Whatever loads is a chained history written line by line: sequence numbers, prior digests and distinct keys. |
| `LinkedHistory.DigestFixesHistory` | internal/actioncontrol/journal_linux.go:2774-2839 | Two chained histories of one length that end in the same digest are equal, for an injective digest, so the authority's checkpoint fixes the whole history. |
| `IdentityPublication.RequestShard.Reconcile` | internal/actioncontrol/journal_linux.go:2680-2772 | From every shard a book stands for, reconciliation is refused exactly when records and stray staged names together exceed the bound, and fails only if a system call failed; done, the history is exactly the counted one, no stray staged name is left, each counted identity is published and the authority is durable. |
| `IdentityPublication.RequestShard.StageIdentity` | internal/actioncontrol/journal_linux.go:2570-2624 | Success leaves the staged name and its bytes durable; no counted identity is touched. |
| `IdentityPublication.RequestShard.CommitIssuance` | internal/actioncontrol/journal_linux.go:2988-3071 | Committed means the process sees the record counted, ok that it is so durably; not committed, the old book is back, or the instance is failed closed; a line longer than a reader takes is not written; every state passed stands for the old book or the new one. |
| `IdentityPublication.RequestShard.Count` | internal/actioncontrol/journal_linux.go:3030-3071 | The authority is replaced: the process sees the record counted, or the old authority, or it fails closed; every state passed stands for the old book or the new one. |
| `IdentityPublication.RequestShard.Issue` | internal/actioncontrol/journal_linux.go:2570-2673 | Success leaves the identity counted and published for good; it fails only if a system call failed or the record is too long for a reader, and then nothing is issued; every state passed stands for the book without or with these bytes. |
| `IdentityPublication.RequestShard.CreateIdentity` | internal/actioncontrol/journal_linux.go:2570-2673 | Creates an identity only for a lookup that is not issued yet; an issued lookup, a full shard or an oversized identity is answered without issuing; it is refused exactly for crowding, and fails, or fails closed, only if a system call failed. |
| `IdentityPublication.RequestShard.ReadIdentity` | internal/actioncontrol/journal_linux.go:2537-2568 | A lookup is readable if and only if the authority counts it, and the bytes read are those first staged for it; refused exactly for crowding, and failing only if a system call failed. |
| `IdentityLives.SafeCrashes` | internal/actioncontrol/journal_linux.go:2570-2673 | Whatever step of issuing a power loss interrupts, a loss that is survived leaves the lookup issued with these bytes or not issued, and everything else as it was; one that is not leaves a shard no reader accepts. |
| `IdentityLives.Answer` | internal/actioncontrol/journal_linux.go:2570-2673 | One request to a running process, which may have had calls fail before: acknowledged means issued now, for good, and not before, with the request's bytes; declined means a failed system call, a failed-closed instance, an issued lookup, a full or crowded shard or an oversized identity. |
| `IdentityLives.Serve` | internal/actioncontrol/journal_linux.go:2570-2839 | Over any sequence of requests to processes that go on after failures, with kills and power losses: no lookup is acknowledged twice, every acknowledged identity keeps its first bytes for good, and nothing is issued but what a request asked for; the shard stays usable unless a power loss catches it linked too early or crowded. |
| `IdentityLives.UnsyncedAuthority` | internal/actioncontrol/journal_linux.go:3048-3064 | Every power loss keeps the last counted identity's name and record together if and only if the authority is durable, or that name cannot come back published. |
| `IdentityLives.LinkedTooEarly` | internal/actioncontrol/journal_linux.go:2680-2772 | Linking the identity of an authority that is not durable always opens this gap: some power loss then leaves a shard that is refused. |
| `IdentityLives.CrowdedOut` | internal/actioncontrol/journal_linux.go:2932-2986 | With a durable authority every power loss leaves an accepted shard if and only if the records and the staged names that may come back, removed and not synced, stay within the bound of a shard. |
| `IdentityLives.PowerLoss` | internal/actioncontrol/journal_linux.go:2680-2772 | What one power loss leaves is accepted by reconciliation exactly if it is survived in this sense and its staged names do not crowd it. |
| `RunDisk.CrashAt` | internal/actioncontrol/journal_linux.go:1313-1487 | Every power loss at every stage of a registration leaves the run registered with the prepared inode, or not registered, bound, staged or with a whole legacy record: each a state recovery starts from. |
| `RunDisk.TakenAt` | internal/actioncontrol/journal_linux.go:1313-1487 | A process that starts after a kill, or goes on after a failed call, sees one of the same states. |
| `RunRegistration.RunRegistry.ReconcileBound` | internal/actioncontrol/journal_linux.go:1390-1487 | A bound registration is completed with exactly the prepared inode; it is never refused, fails only if a system call failed, and every state passed on the way is one of this registration or its completion. |
| `RunRegistration.RunRegistry.ReconcileUnbound` | internal/actioncontrol/journal_linux.go:1313-1388 | With nothing bound, an unbound stage is dropped and a whole record beyond the authority is taken in; done, no stage is left and the directory is exactly the registered runs. |
| `RunRegistration.RunRegistry.CompleteHistory` | internal/actioncontrol/journal_linux.go:1442-1466 | Completes the bound run's history line from any durable or torn part of it. |
| `RunRegistration.RunRegistry.Bind` | internal/actioncontrol/journal_linux.go:1793-1840 | Binds the staged directory to the run in the authority; on failure the stage is dropped unless the authority may name it. |
| `RunRegistration.RunRegistry.Register` | internal/actioncontrol/journal_linux.go:1716-1897 | Success leaves the run registered with the staged inode; without it the run is registered, completable or absent, for a failed system call, a record that exists, a full registry or a line too long for a reader; nothing already registered changes. |
| `RunLives.ReachesCrashes` | internal/actioncontrol/journal_linux.go:1716-1897 | Any power loss, at any state an opening passes, leaves every registered run registered and a disk recovery accepts. |
| `RunLives.Reconcile` | internal/actioncontrol/journal_linux.go:1313-1388 | Reconciliation of what a process sees after a kill, a power loss or a failed call succeeds unless a system call fails, never refuses, and leaves the committed history a chained extension of the old one. |
| `RunLives.OpenRun` | internal/actioncontrol/journal_linux.go:1653-1697 | Opening returns the registered inode of the run as the process sees it, registering it if no record mentions it; without a failed system call it is refused only when the run bound is reached or the record is too long for a reader. |
| `RunLives.UseKeeps` | internal/actioncontrol/journal_linux.go:1653-1697 | Writing into an opened run's directory disturbs no recovery: only a registered directory is ever used. |
| `RunLives.Serve` | internal/actioncontrol/journal_linux.go:1716-1897 | Over any sequence of openings by processes that go on after failures, with kills and power losses, whoever is given a run's directory is given the same inode for good, and the history only grows; a life ends only with a power loss that brings back what a process had taken for overwritten. |
| `RunLives.Attend` | internal/actioncontrol/journal_linux.go:1716-1897 | Only where since the last power loss a call failed or a process was killed can a power loss undo what a process had taken for durable. |
| `RunDisk.RealIsWhole` | internal/actioncontrol/journal_linux.go:1313-1487 | What a process sees, with the versions it has taken for overwritten, is the whole disk: no power loss is left out. |
| `UnsyncedRuns.ReadyStartable` | internal/actioncontrol/journal_linux.go:1592-1651 | Every state recovery starts from is one a new process accepts: it reconciles and finds each registered run's directory and no other name. |
| `UnsyncedRuns.UnsyncedRename` | internal/actioncontrol/journal_linux.go:1390-1487 | After a failed sync of a run's final name, recovery, which does not sync the names again, leaves actions that every power loss keeps startable if and only if the private name cannot come back. |
| `UnsyncedRuns.UnsyncedPrepared` | internal/actioncontrol/journal_linux.go:1793-1849 | After a failed sync of the prepared authority, moving the directory into place leaves actions that every power loss keeps startable if and only if the earlier authority cannot come back. |
| `UnsyncedRuns.UnsyncedEstablished` | internal/actioncontrol/journal_linux.go:1442-1487 | After a failed sync of the authority that counts a run, using the run, or preparing another, leaves actions that every power loss keeps startable if and only if the prepared authority cannot come back. |
| `Admission.StepKeeps` | internal/actioncontrol/journal_linux.go:617-778 | Every issue, confirmation, take-back, materialisation and later record keeps index and journals in step. |
| `Admission.ReceiptsHaveIdentities` | internal/actioncontrol/journal_linux.go:617-778 | In every run over index and journals, failures and crashes included: every receipt in any journal has its identity in the index for good, with the same contents, and a lookup has one receipt in one run at most. |
| `Admission.MaterialisesIff` | internal/actioncontrol/journal_linux.go:733-778 | An identity whose receipt is missing can be given it later if and only if no other receipt of the run has taken its decision request meanwhile, bounds on size and number apart. |
| `Admission.NeverMaterialises` | internal/actioncontrol/journal_linux.go:3236-3257 | And once one has, the identity never gets its receipt, whatever happens. |
| `Admission.FirstIsForestalled` | internal/actioncontrol/journal_linux.go:617-731 | Two requests for one decision show it: the first is issued and cut off, the second, which the journal does not yet contradict, goes through. |
| `Admission.ReceiptsStay` | internal/actioncontrol/journal_linux.go:617-778 | Once in a journal a receipt stays there, and so does what it says. |
| `DecisionEffect.NextKeeps` | internal/actionapi/controller.go:354-536 | Every step of every worker, crash or other writer keeps the invariant that ties journal, ledger, lease holder and workers. |
| `DecisionEffect.HolderKept` | internal/actioncontrol/journal_linux.go:780-899 | What other workers rely on survives any step of one: only the lease holder acts on the decision. |
| `DecisionEffect.OneClaimant` | internal/actioncontrol/journal_linux.go:901-936 | At most one worker is the creator of the claim. |
| `DecisionEffect.RunKeeps` | internal/actionapi/controller.go:354-536 | The invariant holds in every state of every run, with any number of workers and crashes. |
| `DecisionEffect.AppliedAtMostOnce` | internal/actionapi/controller.go:411-479 | In every run the ledger is asked for the event at most once and holds it at most once; applied or reconciled applied means it is there; the resume hook runs at most once, after it. |
| `DecisionEffect.NotAppliedForGood` | internal/actionapi/controller.go:481-536 | A decision recorded as rejected or reconciled not applied has no event on the ledger, then or at any later state of the run. |
| `CancelWatermark.StepKeeps` | internal/actioncontrol/watcher.go:135-417 | Every admission, replay, claim, delivery, freeze, drain, retirement, outcome and crash keeps the invariant on leases, receipts, watchers and events. |
| `CancelWatermark.LeaseStep` | internal/actioncontrol/watcher.go:135-173 | Freezing takes in every receipt on the journal, so nothing delivered before lies beyond the watermark; retiring keeps it. |
| `CancelWatermark.ExecuteLater` | internal/actioncontrol/journal.go:350-366 | Over a run, sequences only grow, watermarks never move once frozen, and a receipt keeps its sequence and generation. |
| `CancelWatermark.DeliveredWithinWatermark` | internal/actioncontrol/watcher.go:353-417 | In every run no cancel-request event exists for a receipt beyond its lease's frozen watermark. |
| `CancelWatermark.RetiredIsDrained` | internal/actioncontrol/watcher.go:236-267 | In every run a retired lease has no receipt at or below its watermark still received or claimed. |
| `CancelWatermark.LateNeverDelivered` | internal/actionapi/controller.go:147-202 | A receipt that reaches the journal only after its lease was frozen, by replay, is never delivered. |
| `CancelWatermark.BeyondNeverDelivered` | internal/actioncontrol/watcher.go:658-667 | A receipt on the journal beyond the frozen watermark is never delivered, claimed or not. |
| `CancelHistory.ReconcileCancelHistory` | internal/actioncontrol/watcher.go:494-553 | The three loops compute the specified answer on every snapshot, payload, receipt and claim. |
| `CancelHistory.ExactAdmittedTransition` | internal/actioncontrol/watcher.go:604-623 | The loop finds the unique admitted transition, none, or refuses a history that spoils it. |
| `CancelHistory.AppliedIff` | internal/actioncontrol/watcher.go:494-553 | The answer is applied if and only if there is one exact request event after the unique admitted transition and one matching cancelled transition after it with no state change between; it names that transition. |
| `CancelHistory.EvidenceUnique` | internal/actioncontrol/watcher.go:494-553 | The evidence is unique: no two choices of events make it. |
| `CancelHistory.StableUnderUnrelated` | internal/actioncontrol/watcher.go:494-553 | Appending unrelated events keeps error and answer, an applied answer for good; only the run's end can settle an open one. |
| `ActivityLog.ReadLog` | internal/activity/store.go:290-403 | The reading loop with its running tail, offset and ordinal returns exactly the specified log, and refuses torn, overlong, unchained and unanchored files. |
| `ActivityLog.ReadFacts` | internal/activity/store.go:332-386 | A log that reads carries its file's bytes, last ordinal and chain tail, and no ordinal beyond the sequence. |
| `ActivityLog.ReadIndexed` | internal/activity/store.go:332-386 | Its identity index holds each event at its place, and its source index the digest each source was first recorded with. |
| `ActivityLog.TailFixes` | internal/activity/store.go:421-424 | A chain tail determines the header and the whole record list. |
| `ActivityLog.AnchoredPrefix` | internal/activity/store.go:332-403 | A file that loads under an anchor committed for some records has that header and begins with exactly those records. |
| `ActivityLog.ServiceEventFits` | internal/activity/event.go:107-138 | Every valid event that carries its source's ids as digests, as the service makes them, has a line that fits the reader's buffer, whatever ordinal it gets. |
| `ActivityLog.ProofFits` | internal/activity/provider.go:336-356 | So has every proof as the provider's reader makes it. |
| `ActivityLog.ServiceLogFits` | internal/activity/service.go:866-1003 | A log of such events and proofs always fits the reader's buffer, so everything the service writes can be loaded again. |
| `ActivityStore.WriteKeepsSound` | internal/activity/store.go:421-457 | After a whole-record write, with the old anchor or the new one, a cold load gives the old log and the record. |
| `ActivityStore.ReloadsIffLineFits` | internal/activity/store.go:421-457 | After a write to a log that reloads, a cold load accepts it if and only if the new line fits the reader's buffer, which the writer never checks. |
| `ActivityStore.LongestCannotReload` | internal/activity/store.go:405-457 | A valid event, both digests of 64 characters, with source ids, title and detail as long as allowed and all angle brackets, is accepted by the store as a new run's first, and leaves a log that no cold load accepts. |
| `ActivityStore.AnchoredTooEarly` | internal/activity/store.go:389-457 | Once a cold load has committed an anchor for a line whose sync failed, of the two logs a power loss may leave the one with the line loads and the one without it does not. |
| `ActivityStore.Store.SaveSequence` | internal/activity/store.go:198-237 | Allocates the next ordinal durably before use; issued ordinals strictly increase over all runs, failures and reopenings. |
| `ActivityStore.Store.Load` | internal/activity/store.go:240-403 | The log answered from the cache is the one a cold load rebuilds, as long as its lines fit the reader's buffer; after a longer one it is answered from memory only. |
| `ActivityStore.Store.Write` | internal/activity/store.go:421-457 | Success extends file, anchor and cached log by the record; a failure latches the log, whatever part of the write is on disk. |
| `ActivityStore.Store.Append` | internal/activity/store.go:459-493 | A new identity gets a fresh ordinal and is appended, whatever the length of its line; a known identity is answered with its own event and changes nothing. |
| `ActivityStore.Store.SaveProof` | internal/activity/store.go:614-632 | The provider proof is recorded, durably unless already known, and no ordinal is used; it may only grow. |
| `ActivityStore.Store.Reopen` | internal/activity/store.go:89-186 | A new process starts from what is on disk with no cache; no anchor is ahead of the sequence. |
| `ActivityStore.Store.EvictionChangesNothing` | internal/activity/store.go:499-519 | Dropping a cached log changes no answer if and only if no write on it failed and its lines fit the reader's buffer, or it would not load cold either. |
| `ActivityLosses.LoadsVersion` | internal/activity/store.go:290-403 | Of a log's versions under its anchor's versions, one loads exactly if its last line is whole, no line the anchor counts is missing, and all lines fit. |
| `ActivityLosses.LossyLog.Append` | internal/activity/store.go:421-493 | An event is acknowledged once line and anchor are durable; a failed call may leave nothing, part of the line, the line, or the line and its anchor. |
| `ActivityLosses.LossyLog.Load` | internal/activity/store.go:290-403 | A cold load takes a line not synced for the log's, and commits an anchor for it. |
| `ActivityLosses.LossyLog.Lose` | internal/activity/store.go:89-403 | A power loss leaves a log that loads, with every acknowledged record, or one that is refused. |
| `ActivityLosses.LossyLog.AckedKept` | internal/activity/store.go:421-493 | Every power loss that the log survives keeps all that was acknowledged. |
| `ActivityLosses.LossyLog.ToldKeptIff` | internal/activity/store.go:389-493 | What a caller was answered from, as a known event of a log read afresh, survives exactly if it is durable or no anchor that counts less loads a log without it. |
| `ActivityLosses.ToldAndLost` | internal/activity/store.go:389-493 | A line and its anchor, both there and neither synced, are answered from by the next load, and a power loss may take both back and leave a log that loads. |
| `ActivityLosses.Serve` | internal/activity/store.go:89-493 | Over any appends, loads, evictions, kills and power losses: what was acknowledged stays in order, no ordinal is issued twice, and a log ends only torn, short of a line its anchor counts, or with a line too long. |
| `ProviderBatch.Collector.Split` | internal/activity/service.go:918-939 | Succeeds if and only if the ids rise and every event the position has reached is recorded as it is; returns exactly the others, in order. |
| `ProviderBatch.Collector.NoteGap` | internal/activity/service.go:557-569 | A gap seen for the first time marks nothing and stops; the same gap seen again is marked once. |
| `ProviderBatch.Collector.Advance` | internal/activity/service.go:957-1000 | The position moves to an event only after its jump is marked or explained and the event is recorded, in this order. |
| `ProviderBatch.Collector.TakeAhead` | internal/activity/service.go:957-1000 | The loop takes the events ahead, each recorded with its jump accounted for, up to a failed call or a gap not seen before, and leaves the position at the last taken. |
| `ProviderBatch.Collector.CollectBatch` | internal/activity/service.go:866-1003 | Keeps for every batch that each source id up to the position is recorded or inside a marked jump; ids at or below the position are verified and never appended; the position moves to the last event taken. A batch is taken whole unless a call fails in it, a gap is seen for the first time, or the batch contradicts the log. |
| `ProviderBatch.MoveKeeps` | internal/activity/service.go:957-1000 | Moving on to an event whose jump is accounted for skips no source id. |
| `ProviderBatch.AheadRises` | internal/activity/service.go:918-939 | The events ahead are exactly those of the batch the position has not reached, still in increasing order. |
| `AttemptStore.TakeInventory` | internal/cilifecycle/attempt_store_linux.go:423-481 | The counting loop counts exactly the reservations, the incomplete ones, and the complete ones of each run. |
| `AttemptStore.ChargedToAll` | internal/cilifecycle/attempt_store_linux.go:423-481 | Charging every incomplete reservation to every run never undercounts what a run owns. |
| `AttemptStore.AttemptRoot.Acquire` | internal/cilifecycle/attempt_store_linux.go:158-320 | Leases the reservation if it is whole or a start of it, or makes it if the bounds allow; a poisoned one never; no other key is touched. It is refused only for a call that failed in it, a held lock, a spoilt file, no room, or bytes longer than a reader takes. |
| `AttemptStore.AttemptRoot.AcquireNew` | internal/cilifecycle/attempt_store_linux.go:236-320 | Without room nothing is reserved; with a lease the new file is empty and needs repair. |
| `AttemptStore.AttemptRoot.Repair` | internal/cilifecycle/attempt_store_linux.go:322-351 | Success leaves the whole reservation durable; a failure leaves a start of it, still repairable. |
| `AttemptStore.FilesBounded` | internal/cilifecycle/attempt_store_linux.go:158-170 | No version of a reservation's file is ever longer than a reader takes. |
| `AttemptStore.AttemptRoot.Poison` | internal/cilifecycle/attempt_store_linux.go:353-384 | A poisoned reservation is remembered as such by the disk, for good. |
| `AttemptStore.AttemptRoot.Crash` | internal/cilifecycle/attempt_store_linux.go:158-384 | A power loss at any moment keeps the bounds and every poison, and releases every lease. |
| `AttemptStore.AttemptRoot.Bounds` | internal/cilifecycle/limits.go:39-43 | At every moment each run owns at most 16 reservations, all runs 64, and the bytes charged stay within 576 MiB. |
| `Collection.Controller.Collect` | internal/cilifecycle/collector.go:89-175 | One call keeps the custody chain; an answer with a bundle is the same bundle, with the same outcome error, that any earlier call returned for the key; the poisoning branch is never reached. An answer without a bundle takes a call that failed in it or an attempt that cannot be leased. |
| `Collection.Controller.Replay` | internal/cilifecycle/collector.go:182-207 | An answer from an event is the durable bundle the event belongs to, with its own outcome error. |
| `Collection.Controller.PublishOrVerify` | internal/cilifecycle/collector.go:232-263 | Success leaves the bundle durable under its attempt; a failing call may have published it. |
| `Collection.Controller.CompleteEvent` | internal/cilifecycle/collector.go:265-278 | Success leaves the bundle's deterministic event durable; a failing call may have recorded it. |
| `Collection.Controller.Complete` | internal/cilifecycle/collector.go:112-133 | A reservation that still lacks its bytes has neither bundle nor event, so the branch that poisons it is unreachable. |
| `Collection.Controller.Settle` | internal/cilifecycle/collector.go:135-175 | An event is answered by its bundle, else the bundle is obtained and its event recorded; every answer agrees with all earlier ones. |
| `Collection.Controller.Crash` | internal/cilifecycle/collector.go:89-175 | A power loss over attempts, artifacts and ledger, each cell coming back as any version it may, keeps the invariant. |
| `Collection.Controller.Custody` | internal/cilifecycle/collector.go:89-317 | At every moment of every run an outcome event has its published bundle and is determined by it, and a published bundle has its complete reservation. |
| `Pagination.PageTracker.CheckPage` | internal/cilifecycle/github.go:610-654 | A page is taken if and only if its ids are positive, distinct and new, its nodes keep their ids, and its bytes and id set are new; a refused page changes nothing. |
| `Pagination.OneIdForEachNode` | internal/cilifecycle/github.go:610-654 | Over any sequence of pages taken each node has one id if and only if no page by itself names one node under two. |
| `Pagination.TwoIdsTaken` | internal/cilifecycle/github.go:610-654 | A new tracker takes a page that does: two items, one node. |
| `Pagination.ListNamesOnce` | internal/cilifecycle/github.go:666-896 | So in every collected list each node has one id exactly if each of its pages names it under one. |
| `Pagination.RequestSession.Counted` | internal/cilifecycle/github.go:666-827 | A successful suite or run list is the items of pages its tracker took, with distinct positive ids, as many as one unchanging declared total, every page but the last full; the pages-exhausted failure cannot happen, nor the request limit while the budget holds the pages. |
| `Pagination.RequestSession.Statuses` | internal/cilifecycle/github.go:837-896 | A successful status list is exactly the pages up to a short one or an empty last one, which its tracker took, distinct and within its bound; the loop never falls through to the panic. |
| `Pagination.RequestSession.Get` | internal/cilifecycle/github.go:241-244 | A request is sent exactly while the budget lasts. |
| `Pagination.RequestSession.Observe` | internal/cilifecycle/collector.go:509-576 | A whole observation whose page bounds fit the budget never meets the request limit. |
| `Pagination.NeverExhausted` | internal/cilifecycle/github.go:739-740 | Full pages up to the last allowed one would already hold more than a total may declare. |
| `Pagination.ProductionBudget` | internal/cilifecycle/limits.go:71-100 | The production limits are consistent, and an observation within their page bounds needs exactly the 30 requests. |
| `ResourceCodec.EncodeAuthority` | internal/actioncontrol/resource_guard_linux.go:698-758 | The encoder that fills its buffer returns exactly the specified bytes, or refuses exactly the authorities the specification refuses. |
| `ResourceCodec.PutUint64` | internal/actioncontrol/resource_guard_linux.go:750-752 | Writes a word's eight big-endian bytes at the offset and nothing else. |
| `ResourceCodec.ValueOfBigEndian` | internal/actioncontrol/resource_guard_linux.go:711-712 | A big-endian word of fixed width reads back as the number written. |
| `ResourceCodec.BigEndianOfValue` | internal/actioncontrol/resource_guard_linux.go:764-765 | And bytes read as a number are that number's big-endian form. |
| `ResourceCodec.EncodedDecodes` | internal/actioncontrol/resource_guard_linux.go:698-838 | What any authority encodes to, in each of the three forms, decodes for its root to that authority. |
| `ResourceCodec.DecodedEncodes` | internal/actioncontrol/resource_guard_linux.go:760-838 | Accepted bytes are what the decoded authority encodes to if and only if the root inode is not 0: the encoder refuses inode 0, the decoder of the empty form does not. |
| `ResourceCodec.DecodesIff` | internal/actioncontrol/resource_guard_linux.go:760-838 | The decoder accepts exactly the bytes of the three forms, said of the bytes alone: header, boundary, group size, length and each number pair; comparing with the re-encoded bytes refuses nothing more. |
| `ResourceCodec.EncodingIsInjective` | internal/actioncontrol/resource_guard_linux.go:698-758 | No two authorities have the same encoding. |
| `ResourceCodec.BindingStaysValid` | internal/actioncontrol/resource_guard_linux.go:1066-1092 | Binding the created identity file's numbers to a prepared group keeps the authority valid: the digest is not of them. |
| `ResourceCodec.CommitMovesOn` | internal/actioncontrol/resource_guard_linux.go:1105-1114 | Committing a group moves the authority along 0, 2, 4, 6, 15, 20 and no other way, and leaves it valid if and only if the identity file was bound. |
| `AppWatch.Watch.Record` | internal/appwatch/appwatch.go:103-150 | A sweep looks at its apps of the kind in order and tells exactly what is due, then forgets the unseen ones of that kind without an event; a failed save leaves the disk as it was. |
| `AppWatch.Watch.Observe` | internal/appwatch/appwatch.go:108-138 | One look leaves the file reflecting the trace with that look: app states, event count and kept events. |
| `AppWatch.Watch.Emit` | internal/appwatch/appwatch.go:153-160 | Numbers the event next, modulo 2^64, and keeps the last 500. |
| `AppWatch.Watch.Events` | internal/appwatch/appwatch.go:192-202 | The page found by binary search is the specified page of the whole event history, for every cursor and limit, while fewer than 2^64 events exist. |
| `AppWatch.Watch.Reopen` | internal/appwatch/appwatch.go:80-99 | A new process has the state last saved or, after a power loss that undoes unsynced renames, some version saved before; its events begin the ones told before. |
| `AppWatch.EventsAlternate` | internal/appwatch/appwatch.go:117-134 | Between two forgettings an app's events alternate. |
| `AppWatch.FirstIsDown` | internal/appwatch/appwatch.go:117-134 | The first event after an app becomes known, or known again, is a down. |
| `AppWatch.DownAfterStretch` | internal/appwatch/appwatch.go:127-134 | A down follows an unwell look at least ten minutes after the first unwell look of a stretch with no healthy look and no forgetting in it, and names that first look's time. |
| `AppWatch.NothingDueIsMissed` | internal/appwatch/appwatch.go:127-134 | An unwell look ten minutes into a stretch leaves the app reported down, with an event exactly if it was not. |
| `AppWatch.StretchIs` | internal/appwatch/appwatch.go:119-131 | The time a stretch began is that of its first unwell look since the last healthy look or forgetting. |
| `AppWatch.Numbers` | internal/appwatch/appwatch.go:153-157 | The events ever told are numbered from 1 without a gap. |
| `AppWatch.TruncatedIff` | internal/appwatch/appwatch.go:200-201 | A page says truncated exactly when an event past the cursor was lost, if and only if the cursor is below 2^64-1 or there are no events: there the sum wraps. |
| `AppWatch.ReadsEachOnce` | internal/appwatch/appwatch.go:192-202 | Paging by cursor while the watch goes on, pages none of which is truncated hold each event exactly once, in order and without a gap. |
| `AppWatch.ReadsNoneTwice` | internal/appwatch/appwatch.go:192-202 | No event is ever read twice, whatever was lost. |
| `AppWatch.NumberGivenAgain` | internal/appwatch/appwatch.go:103-160 | Two processes that go on from one saved state give the next event the same number, whatever each tells. |
| `AppWatch.Watch.NumbersDistinct` | internal/appwatch/appwatch.go:80-160 | Over all processes, failed saves, restarts and undone renames no number was given twice if and only if no event was told after a process had started that did not know of all told before. |
| `NumberLedger.DistinctIff` | internal/appwatch/appwatch.go:80-160 | The same said of the sequence of what was told, saved and gone back to alone. |
| `NumberLedger.LastVersionLoses` | internal/appwatch/appwatch.go:80-150 | A restart from the version saved last loses an event exactly if the last thing the process before did was to tell one whose save failed. |
| `NumberLedger.GivenTwice` | internal/appwatch/appwatch.go:80-160 | An event told and not saved, a restart, and the next event: both are number 1. |
| `AppWatch.IdsDiffer` | internal/appwatch/appwatch.go:38-43 | Two sites on targets without a space have one id only if they are the same. |
| `AppWatch.IdsAreUnique` | internal/remotetarget/remotetarget.go:57-57 | On target keys as the validation allows them, two apps have one id if and only if they are the same app. |

## Left out

- AppendProtocol.RunDirectory.LeaveBehind: a process that goes on to a later segment takes the ones it leaves behind for durable as it sees them; that is so but for a segment cut back by a rollback whose sync a kill cut off, and `RunJournal.LeftUndecided` says exactly what that risks.
- RunLives.Serve: a life ends with a power loss that brings back what a process had taken for overwritten, whether or not a new process could still start; for the steps a process takes next `UnsyncedRuns` says exactly when it could.
- RunLives.Reconcile: starts from what the process sees; what it has taken for overwritten is kept apart (`RunDisk.Stale`).
- RunLives.OpenRun: the same.
- ActivityStore.Store.Reopen: a restart of the whole store finds what was written; power losses are modelled for one run's log in `ActivityLosses`, where a failed call may be followed by a load at once.
- Collection.Controller.Collect: artifacts and ledger keep the bytes of a key once they are durable, and the provider's answer is any bundle bound to the attempt.
- Admission.StepKeeps: issuing and appending are single steps on the contents of index and journals; that each call is such a step, whatever fails or crashes, is said of the disk by `IdentityLives.Serve` and `RunJournal.Serve`.
- AppWatch.Watch.Events: requires fewer than 2^64 events; beyond that the numbers wrap and the binary search has no order to rely on.
- ResourceCodec.EncodeAuthority: the twenty names are symbols of an enumeration, not their strings, which are not part of the bytes.
- DecisionEffect.NextKeeps: a worker's call is a sequence of steps of a transition system and not a method, so that steps of others come between; the ledger and the resume hook are one step each.
- CancelWatermark.StepKeeps: the owner lease and the runtime catalog are the three states of one lease; the watcher's polling order and its timing are any order of its steps.
- Namespace pinning and file identity checks (owners, modes, link counts, no-follow opens) are assumed to hold; inode numbers are kept only where recovery compares them.
- An append that commits and then fails its last namespace check returns an error for a committed record; with those checks assumed it does not arise.
- Shard bootstrap, shard moves, the shard registry and the publication of namespace identities repeat the staged commit modelled here.
- File locks are mutual exclusion that the end of a process releases; waiting, cancellation and descriptor handling are not modelled.
- JSON, SHA-256, timestamps and regular expressions are parameters: an injective codec, an injective digest, a predicate.
- Operation reads (`Read`, `ReadByRequest`, `OperationsForLease`) return parts of a scanned state.
- The action queue, its workers' scheduling and `reconcileAbandonedCancel` add no step that the transition systems lack.
- The activity service's refresh, subscriptions, checkpoints and sidecars are input and output around `collectBatch`.
- Provider transport: requests, headers, response bounds, sessions and item decoding are a provider that answers pages or fails.
- The semantic comparison of the two sweeps of an observation, and the bundle's contents, are part of "any bundle bound to the attempt".
- Resource slots (`tryAcquire`, `releaseFiles`) are a count under a lock.
- `retireRuntimeOwner` in `cmd/abcp/main.go`, the command line, deployment, sign-in and log redaction are not modelled.
