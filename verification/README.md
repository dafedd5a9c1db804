# The push witness, modelled and proved

Installs enroll with a witness and push signed chain heads to it, each with a proof that its tree only
grew. The witness holds every push against what it remembers, writes what it adopts, and only then
countersigns. It rotates its own keys, forgets records whose license ran out long ago, and must stay
truthful across lost answers, retries, failed writes, crashes and restarts. This project models that
protocol and the few smaller pieces of the repository with the same shape, and proves what they promise
over every input and every run.

Check everything with `dafny verify dfyconfig.toml`.

| file | what it holds |
|---|---|
| `Options.dfy`, `SnocLists.dfy` | options, and lists that grow at their end |
| `Merkle.dfy` | trees, consistency proofs and the verifier, by section 2.1.2 of RFC 6962 |
| `Forest.dfy` | the incremental tree the audit scan folds leaves into |
| `PushRules.dfy`, `PushLaws.dfy`, `PushExact.dfy` | `Check` on one beat, `CheckPush`, the three ways a push is judged, and the exact answer to each |
| `HonestInstall.dfy` | an install whose chain only grows, under lost answers and rewound memory |
| `KeyLists.dfy` | signed key lists, endorsements, acceptance, `KeyAt` |
| `Keyring.dfy`, `KeyringRuns.dfy`, `KeyringWord.dfy`, `KeyringHeld.dfy` | rotation on disk with a stop after any step, runs of it, and what old memory and old lists are worth afterwards |
| `Record.dfy`, `Install.dfy`, `RecordRuns.dfy`, `Silence.dfy` | one install's record: every write of `hold`, the object that makes them, and every run |
| `Answers.dfy` | what a push is answered, exactly, and that doing as one is told works |
| `WitnessRuns.dfy` | the key directory and one record together, over a whole life of rotations and restarts |
| `Registry.dfy`, `Service.dfy`, `RegistryRuns.dfy` | all records: enrollment, the cap, retention and deletion under interleaving and crashes |
| `Interleaved.dfy` | all records with their real files and memories, every interleaving of everything above |
| `Limiter.dfy` | the token bucket and its bound |
| `Identity.dfy` | many processes creating one identity file |
| `Snapshot.dfy` | adoption's repeatable reads |
| `Chain.dfy`, `Anchors.dfy`, `Bundle.dfy` | the audit chain, the anchors recorded over it, the streaming walk that holds it to both, and the window cut from it |

How the model reads the code:

- Hashes, key ids and signatures are constructors of datatypes, so they are injective and unforgeable by
  construction. A tree hash is a term over its leaves; a signature names its signer and what it covers.
- Times are integers and zero is the zero time. The clock may step either way in every run of a record,
  of the record keeper and of the keys. One promise then fails, once-per-silence, and the model says exactly
  when: a start forgets a noted silence if and only if it finds the newest note on disk older than the
  newest trace of the install (`ForgottenExactly`). A run in which no start finds that notes each silence
  once (`SilenceNotedOnce`), a clock that never moves back being one way to get there (`TimelyNotedOnce`),
  and `SilenceNeedsTheClock` is a run that does not. The limiter's bound is over requests in time order.
- Every append, rename and link happens whole or not at all. A write may succeed, fail, or be where the
  process dies; one that dies may or may not have become durable. A write that succeeded stays: that is so
  when a process dies, and of the synced logs after a power loss too, but `Save` renames the checkpoint
  without syncing it (witness/witness.go:605-635), so "on disk" is said of process deaths, not of a power
  loss right after the rename.
- Code that changes state in place is a class whose methods are proved equal to a pure account of the
  same step, and the laws are proved of the account over all runs of it.
- Under two locks a step is one critical section. A push may act through any object its process ever
  made, which covers a push that looked its install up long before. The sweep writes its silence notes
  without looking at `gone`; that is sound because one goroutine sweeps, and the model has one sweep.
- Deletion is judged by the record's current term on the clock the sweep read. Nothing assumes that
  adding twelve months by the calendar is monotone, which it is not (February 29 and March 1 land on the
  same day).
- `RotateKey` asks to be run while the witness is stopped. `LeftRunningStrands` says exactly what happens
  otherwise: what a witness left running adopts with the retired key loads at the next start if and only
  if it was adopted before the rotation.
- `CheckPush`'s comment names three kinds of error. The code has more: an empty install id, a push naming
  another install, a memory of another install, and whatever `Check` refuses. The model follows the code.

## Model

| member | source | states |
|---|---|---|
| Merkle.FindSplitPoint | internal/witnessclient/proof.go:136-142 | the doubling loop finds the split: below n, and at least half of it |
| Merkle.SplitPointUnique | internal/witnessclient/proof.go:134-142 | the split is the one power of two in [n/2, n) |
| Merkle.ConsistencyProofLength | internal/witnessclient/proof.go:104-132 | over at most 2^e leaves every honest proof has at most e + 1 hashes |
| Merkle.VerifierExact | witness/tree.go:89-97 | some proof passes between two sized roots if and only if the newer root's tree has the older root over its first leaves |
| Merkle.HonestProofVerifies | internal/witnessclient/proof.go:88-132 | the client's proof from any earlier size passes the verifier |
| Merkle.OnlyHonestProof | internal/witnessclient/proof.go:104-132 | between the roots of a real tree at two sizes exactly one proof passes, the one the recursion builds |
| Merkle.NoRewritePasses | witness/tree.go:22-30 | when a proof passes between the roots of two leaf sequences, the older is a prefix of the newer, entry by entry |
| Merkle.RootDeterminesLeaves | internal/witnessclient/proof.go:88-99 | equal roots over equally many leaves mean equal leaves |
| Merkle.ExtendsTransitive | witness/tree.go:89-97 | a tree that extends one that extends a third extends the third |
| Forest.TreeFold.PushLeaf | internal/audit/scan.go:200-214 | carrying a leaf up the slots keeps them the perfect subtrees of everything fed |
| Forest.TreeFold.Root | internal/audit/scan.go:216-231 | the slots joined are the recursive tree root of everything fed |
| Forest.CarryFolds | internal/audit/scan.go:202-214 | one carry turns the fold of the old leaves into the fold of one more |
| Forest.CollectIsRoot | internal/audit/scan.go:218-231 | joining the slots from the smallest up is the tree root |
| PushRules.KeepNewest | witness/witness.go:404-424 | what a bounded memory drops is older than all it keeps |
| PushLaws.KeepNewestCount | witness/witness.go:405-428 | it forgets only past its cap, and then keeps exactly cap |
| PushLaws.NormalizeDropsSlashes | witness/witness.go:465-475 | normalizing an install id drops its trailing slashes and nothing else |
| PushLaws.CheckAccuses | witness/witness.go:299-371 | on the one beat a push gives it, `Check` accuses if and only if the beat is behind, its number was seen at another position or link, its position was seen with another link, or its position fell |
| PushLaws.ThreeWaySplit | witness/tree.go:57-118 | every judged push is a retry that changes nothing, a refusal that accuses and leaves memory as it was, or an adoption that holds the push and extends the held tree; the two `holdsPush` tests tell them apart |
| PushExact.FormExactly | witness/tree.go:121-146 | a push is in form exactly when its proof has at most sixty-four hashes, its beat, position and size lie in 1 to 2^40, and its link, root and proof are digests |
| PushExact.MemoryTells | witness/tree.go:148-165 | what memory holds, read off its fields: a tree once there is a root, a push when every member of its coordinate is the newest |
| PushExact.NotesAreCoverage | witness/enroll.go:64-75 | which four kinds are notes; every other accuses |
| PushExact.FormDecides | witness/tree.go:44-72 | out of form and not this install's are the two errors, each exactly when |
| PushExact.PushDecides | witness/tree.go:73-110 | told to prove again, stale, recognised, adopted or refused, each exactly when, over the fields of memory and push; a refusal leaves memory as it was |
| PushExact.AdoptionLeaves | witness/tree.go:110-118 | an adoption leaves exactly the push's coordinate, its beat and position remembered with the rest |
| PushExact.FindingsDecided | witness/tree.go:89-118 | a judged push that is no retry raises exactly what its beat and its tree raise, finding by finding |
| PushExact.PlausibleExactly | witness/witness.go:132-164 | which beats the witness remembers, exactly |
| PushExact.CheckDiscards | witness/witness.go:372-394 | a beat it does not remember moves nothing and reads as a feed that served none |
| PushExact.StalledExactly | witness/witness.go:396-403 | a newest beat is called stalled exactly when it has not moved for more than a day since first seen |
| HonestInstall.HonestProofFits | witness/tree.go:13-18 | at every 64-bit size an honest proof fits `maxProofHashes`, and at every size a push may claim it has at most forty-one hashes |
| HonestInstall.HonestPushWellFormed | witness/tree.go:125-146 | the client's own push is never out of form |
| HonestInstall.HonestPushNeverRefused | witness/tree.go:44-119 | against memory true to the chain, a growing install's push is held or told to prove again, never refused |
| HonestInstall.ProvingAgainIsHeld | witness/tree.go:76-80 | proving again from the size memory holds is held |
| HonestInstall.MemoriesTrue | witness/tree.go:73-118 | over any deliveries, repeats and rewinds to earlier memory, memory stays true to the chain |
| HonestInstall.NoGrowingInstallAccused | witness/tree.go:73-109 | no push of a growing install is ever accused of anything, in any such run |
| KeyLists.CheckKeyHistory | witness/keys.go:535-566 | accepts exactly the histories with distinct sound keys, sound periods, and one key in use, the current one |
| KeyLists.Endorse | witness/keys.go:578-605 | endorses exactly for distinct keys the list shows retired, in order |
| KeyLists.VerifyEndorsements | witness/keys.go:609-637 | on any list, accepts exactly endorsements by distinct keys whose first entry is shown retired, each over what the list covers |
| KeyLists.VerifyWitnessKeys | witness/enroll.go:817-845 | accepts exactly lists in form, signed by their current key, with endorsements that hold |
| KeyLists.SignedVerifies | witness/enroll.go:791-845 | whatever `SignWitnessKeys` signs, `VerifyWitnessKeys` accepts |
| KeyLists.VerifiedTells | witness/enroll.go:817-845 | a verified list is signed by its current key, the one key it shows in use; every key is listed once under its own digest with a sound period; every endorsement is a different retired key's signature over the list |
| KeyLists.VerifyKeyList | witness/keys.go:643-676 | accepts exactly a verified list that keeps every key of the held one and is signed or endorsed by its current key |
| KeyLists.AcceptedIsSigned | witness/keys.go:639-676 | whoever made a list, it is accepted only if the key the held list names current signed its very content |
| KeyLists.ChainKeeps | witness/keys.go:643-676 | along any chain of accepted lists the last keeps every key of the first with its public key, start and stated retirement |
| KeyLists.KeyAtNeverRewritten | witness/keys.go:681-693 | along such a chain `KeyAt` never changes its answer for a retired key, and never answers later what it did not answer before |
| Keyring.LoadTwice | witness/keys.go:158-202 | loading repairs the directory once: loading again finds the same keyring and changes nothing |
| Keyring.RotationAtomic | witness/keys.go:262-310 | stopped after any disk step, a rotation loads as exactly the old keyring or exactly the new one, and the history write decides which |
| Keyring.KeyDirectory.LoadRing | witness/keys.go:158-253 | the file-by-file load is the account of it |
| Keyring.KeyDirectory.Rotate | witness/keys.go:262-335 | the file-by-file rotation, stopped anywhere, leaves a directory that loads as the old keyring or the rotated one, and reports done exactly past the commit |
| KeyringRuns.FirstStartSound | witness/keys.go:204-217 | a first start leaves a sound directory |
| KeyringRuns.RotateKeeps | witness/keys.go:262-310 | a stopped or finished rotation leaves distinct keys, one in use, contiguous disjoint periods |
| KeyringRuns.RunKeeps | witness/keys.go:158-310 | over every run of rotations, stops, restarts and discarded old keys the history stays in that form and keeps every earlier key |
| KeyringWord.PublishVerifies | witness/enroll.go:446-455 | what the witness publishes verifies, in every reachable directory |
| KeyringWord.ClientAcceptsNewest | witness/keys.go:643-676 | a client holding any earlier list accepts the newest one if and only if the witness can still sign with the key that list named current |
| KeyringWord.MemoryLoadsExactly | witness/keys.go:708-730 | memory signed by a listed key loads if and only if it was observed before that key retired |
| KeyringWord.MemoryStillLoads | witness/keys.go:708-730 | memory that loads still loads after any rotations later than its adoption |
| KeyringWord.RetiredMemoryNeverLoads | witness/keys.go:708-730 | memory under a retired key observed at or after its retirement never loads, now or after any run |
| KeyringWord.MintingIsTheWordThen | witness/keys.go:733-743 | a countersignature is minted by the key that spoke for the witness when the memory was adopted, at that time |
| KeyringWord.StillSpeaks | witness/keys.go:117-147 | the adopting key still speaks for its time exactly while the witness holds it and its listed start covers it |
| KeyringWord.RetryMintsAlike | witness/keys.go:733-743 | after rotations the minting key and time are the adopting ones while that key is held and its period covers the time, and a retired key's only then |
| KeyringHeld.LoadExactly | witness/keys.go:158-253 | over a history in form a start reads exactly when the key in use is in place or staged and every retired file present holds its own key, and then holds that history and puts that key in place |
| KeyringHeld.FirstLoadExactly | witness/keys.go:204-217 | a first start publishes the one key it finds or makes, from when its file was written |
| KeyringHeld.HeldExactly | witness/keys.go:184-198 | a retired key is held exactly when the history shows it retired and its file is there, with its listed period |
| KeyringHeld.RotationLeaves | witness/keys.go:262-310 | without a key nothing changes; once committed the old key is retired at now and filed, the new one listed from now, and staged until the last step puts it in place |
| KeyringHeld.RotationRefused | witness/keys.go:274-293 | a rotation whose clock is not past the current key's start, or whose new key is listed already, records and files nothing |
| KeyringHeld.CanSignExactly | witness/keys.go:117-134 | the witness can sign with a key if and only if it is current, or retired with its file still there |
| KeyringHeld.StillSigns | witness/keys.go:262-310 | over every run of rotations, stops, restarts and other discards a key it could sign with still signs, unless its own file was deleted |
| KeyringHeld.ClientKeepsAccepting | witness/keys.go:643-676 | a client holding any earlier list accepts the newest, over every run that kept that list's current key |
| KeyringHeld.RetryKeepsMinting | witness/keys.go:733-743 | over every such run with rotations after the adoption, a retry is minted by the adopting key at the adopting time |
| KeyringHeld.MintingExactly | witness/keys.go:733-743 | whose word an answer is, and at what time, exactly: the current key, a held one whose period covers the adoption, or the current one now |
| Record.Delta.Fresh | witness/watcher.go:172-185 | returns what the previous set lacked, in order, and remembers this set |
| Record.FreshExactly | witness/watcher.go:172-194 | a finding is fresh exactly when it was raised now and its identity was not raised before |
| Record.CountAsOne | witness/watcher.go:187-194 | two findings count as one exactly when one rule raised both about one coordinate, or, for a rule with none, when they say the same |
| Record.FindingsRecordedOnce | witness/enroll.go:578-587 | what one attempt recorded the next does not record again, and what it could not write the next writes |
| Install.Install.LoadInstall | witness/enroll.go:942-1005 | the object read from disk is the account of a start |
| Install.Install.RecordFresh | witness/enroll.go:578-587 | records fresh findings in one write, counts what is on disk, and rolls the deduplication back on failure |
| Install.Install.AppendHead | witness/enroll.go:567-577 | one head line per coordinate, and the first sets memory-since |
| Install.Install.RefusePush | witness/enroll.go:597-612 | a refusal records, or fails whole |
| Install.Install.AdoptPush | witness/enroll.go:564-592 | head log, then findings, then checkpoint, then the countersignature |
| Install.Install.HoldPush | witness/enroll.go:515-592 | on an object in agreement with its files, at every fate of every write: it stays in agreement, its checkpoint file only moves to what extends it, a countersignature is of what that file and the head log hold; a deleted one touches nothing |
| RecordRuns.HoldGood | witness/enroll.go:515-612 | however a push ends, memory agrees with disk and a countersignature is only of what is saved and logged |
| RecordRuns.HoldForward | witness/enroll.go:549-592 | the saved checkpoint only ever moves to one that extends it, and one that loads leaves one that loads |
| RecordRuns.OneAppendOnlyHistory | witness/enroll.go:515-592 | over every run, whatever the clock does, of any two coordinates ever countersigned the later extends the earlier, sizes, beats and chain positions never fall, and one beat names one coordinate |
| RecordRuns.EarlierRootsArePrefixes | witness/tree.go:44-119 | if the later root is that of real leaves, every earlier one is that of their first ones |
| RecordRuns.MemoryBeforeTestimony | witness/enroll.go:564-591 | at every step of every run what is countersigned is what the checkpoint on disk then holds, it is in the head log, and neighbouring head lines differ |
| RecordRuns.RestartRebuilds | witness/enroll.go:942-1066 | whenever the process runs, a restart rebuilds the same checkpoint, memory-since, newest head line, refusal total and note total |
| RecordRuns.TotalsExactly | witness/enroll.go:223-231 | the totals count each recorded finding once, under its class |
| RecordRuns.RecordLoadsExactly | witness/enroll.go:975-983 | a record stops the start exactly when its checkpoint is another label's, or not signed by a key that was the witness's word then |
| RecordRuns.RetryRecognized | witness/tree.go:73-75 | a push the memory holds is a retry that raises nothing and changes nothing |
| RecordRuns.RetryAnswersAlike | witness/enroll.go:556-563 | a retry after any later rotations gets the same two attestations while the adopting key is held and its period covers the adoption |
| Answers.NotJudgedLeavesAll | witness/enroll.go:516-551 | a push of another label, past the rate or the term, or out of form, changes nothing |
| Answers.ProveFromExactly | witness/enroll.go:539-548 | the answer to prove again comes exactly when the push proves from another size or claims a smaller tree, names the size and beat saved, and writes nothing |
| Answers.CountersignedExactly | witness/enroll.go:552-592 | with every write made a push is countersigned, over its own link, size and root, exactly when held already or adoptable, and otherwise refused with what it raised; all but a retry count as hearing from the install |
| Answers.CountersignExactly | witness/keys.go:748-766 | a coordinate is countersigned exactly when its link and root are digests, its tree is not empty and there is a time to sign at |
| Answers.WorkingWrites | witness/enroll.go:564-591 | what each write of an adoption leaves: one head line per coordinate, the fresh findings, the checkpoint under the current key |
| Answers.DeathLeaves | witness/enroll.go:564-591 | a write the process dies at leaves on disk what it would have left done, or failed |
| Answers.AnsweredSizeWorks | internal/witnessclient/client.go:204-267 | a growing install's push answered with a size is countersigned when that beat is proved from that size, unless the answered beat has passed it |
| Silence.RebuiltNeverLater | witness/enroll.go:993-1002 | over every run, whatever the clock does, and under any keyring, a rebuilt last-seen is never later than the last judged push or the enrollment |
| Silence.RebuiltExactly | witness/enroll.go:993-1003 | a rebuilt last-seen is the newest of the enrollment, what pushes left on record and the adoption, and silence is known exactly when some note is no older |
| Silence.SweepNotesExactly | witness/enroll.go:1130-1147 | an install not known silent and quiet for more than a day, since last heard from and since the start, is noted, and no other |
| Silence.NoteFates | witness/enroll.go:1140-1147 | a note the process dies at is on disk whole or not at all, and one that fails leaves all as it was |
| Silence.SilenceNotedOnce | witness/enroll.go:1124-1153 | over every run in which no start finds the newest note older than the newest trace, two silence notes always have a judged push between them |
| Silence.ForgottenExactly | witness/enroll.go:1003 | after any run that noted a silence no push ended, a start can be followed by a second note of it if and only if it finds the newest note older than the newest trace |
| Silence.TimelyNotedOnce | witness/enroll.go:1118-1123 | a clock that never moves back notes each silence once |
| Silence.SilenceNeedsTheClock | witness/enroll.go:993-1003 | with one step back of the clock, under any keyring, a start forgets and the run notes silence twice with no push between |
| WitnessRuns.EveryStartLoads | witness/keys.go:708-730 | over every life of pushes, rotations after the newest adoption, discarded keys and restarts, every start loads the record |
| WitnessRuns.LeftRunningStrands | witness/keys.go:255-262 | what a witness left running over its rotation adopts with the retired key loads at the next start if and only if it was adopted before the rotation |
| WitnessRuns.RetryAfterLife | witness/enroll.go:556-563 | after any such life that left a push held, its retry gets the same two attestations while the adopting key can sign and its period covers the adoption |
| WitnessRuns.RetryAnswersForLife | witness/enroll.go:556-563 | and it does in every such life in which nobody deleted the adopting key's file |
| Service.Service.CountAtCap | witness/enroll.go:327-338 | the loop over the map counts exactly the records under the license, the excepted one left out |
| Service.Service.Enroll | witness/enroll.go:350-420 | a sound service stays sound, and the answer is worth what `EnrollOutcome` says |
| Service.Service.RenewHeld | witness/enroll.go:383-401 | a held key's renewal: label, then a later term, then the cap, then the write |
| Service.Service.AdmitNew | witness/enroll.go:402-419 | a new key: the cap, the directory, the enrollment, the object, with what each failed write leaves |
| Service.Service.DeleteRecord | witness/retention.go:74-97 | clear, rename, forget, remove, and what each failure leaves |
| Service.Service.RetireDue | witness/retention.go:55-67 | the second look under both locks keeps a sound service sound and deletes only what is still due |
| Service.Service.LoadInstalls | witness/enroll.go:912-938 | a start over a sound disk always succeeds and leaves a sound service, reading no retired directory |
| Service.Service.ReadRecords | witness/enroll.go:922-934 | each live directory is read once, skipped with no enrollment, and stops the start when it holds another key |
| RegistryRuns.EnrollOutcome | witness/enroll.go:340-420 | an admitted key is on record with its label and a term no earlier than it brought, the earlier answer or the new entitlement; any other answer leaves every record as it was and names its cause |
| RegistryRuns.EnrolledExactly | witness/enroll.go:350-420 | a request that passed every check before the locks and whose writes work is enrolled if and only if its key is new and the license has room, or its key is held under that label and the term is no later, the license the same, or there is room |
| RegistryRuns.EnrolledWasWritten | witness/enroll.go:392-419 | nothing is answered before it is written, and a renewal that could not be written changes nothing |
| RegistryRuns.RunKeeps | witness/enroll.go:350-420 | every interleaving of enrollments, pushes, the sweep, crashes and starts keeps the invariant below |
| RegistryRuns.OneKeeper | witness/retention.go:48-70 | a directory has at most one object that is not gone, it is the one the map holds, and its enrollment and directory are the ones on disk |
| RegistryRuns.OnlyTheKeeperWrites | witness/enroll.go:496-519 | a record changes or leaves only through that object, over the very directory it was made for |
| RegistryRuns.NothingDeletedEarly | witness/retention.go:29-67 | a record leaves only in the sweep, never without a term, and with one only after thirty days and the read-only months past it on the clock the sweep read |
| RegistryRuns.DueIsDeleted | witness/retention.go:48-97 | the record the sweep is at with both locks is deleted, directory, map entry and object together, if and only if it is overdue and the disk cleared and renamed; otherwise nothing is touched |
| RegistryRuns.PushWrites | witness/enroll.go:515-534 | a push of a deleted record, under another label, or more than thirty days past the term writes nothing |
| RegistryRuns.DeletionLeaves | witness/retention.go:74-97 | a deletion leaves nothing beside the live directories, or the whole old one under its retired name; no other name is touched |
| RegistryRuns.SweepMoves | witness/enroll.go:1124-1153 | a record not overdue, or that would not go, is looked at for silence, a deleted one is not, and then comes the next, all on the time the sweep began with |
| RegistryRuns.NotWrittenLeaves | witness/enroll.go:408-416 | an admission that could not be written leaves no record: its directory is removed, or stays empty |
| RegistryRuns.TermsOrdered | witness/enroll.go:292-300 | terms are ordered by date, with no term at the top |
| RegistryRuns.LoadsExactly | witness/enroll.go:957-963 | a start reads its directories exactly when each is filed under the key it holds |
| RegistryRuns.RecordSurvives | witness/retention.go:11-16 | over any run, renewals past any number of terms included, the record is the same directory with the same key, label and enrollment time, its term never earlier and nothing written in it lost, if and only if no sweep of the run took it when its then-current term, grace and months had passed |
| RegistryRuns.RetiredNeverReadAgain | witness/retention.go:20-25 | after a deletion no later state holds that directory live, no start reads it, and no living object stands over it |
| RegistryRuns.FreshMemory | witness/enroll.go:343-349 | a key the witness does not hold enrolls into an empty memory, whatever crash or deletion came before |
| RegistryRuns.CapHolds | witness/enroll.go:325-338 | no license ever holds more records than one may, on disk or in memory, renewals that move a record included |
| RegistryRuns.StartsAgain | witness/enroll.go:905-938 | no state left on disk stops the next start, and the start finds exactly the records on disk |
| RegistryRuns.KeptOrDue | witness/enroll.go:292-300 | one step keeps a record with its term only ever later, "no term" the latest, or deletes it when due |
| Interleaved.OneHistoryPerRecord | witness/enroll.go:496-592 | under every interleaving of enrollments, renewals, pushes through any object, the sweep, deletions, deaths and starts, what was countersigned from one record directory, deleted ones included, is one append-only history |
| Interleaved.IssuedIsHeld | witness/enroll.go:564-591 | a step that issues a countersignature leaves a live directory whose checkpoint holds it and whose head log lists it |
| Interleaved.MemoriesAgree | witness/enroll.go:942-1066 | in every reachable state each living object's memory is what its own directory says, and that directory loads |
| Limiter.Limiter.constructor | witness/limiter.go:44-49 | a new limiter keeps nothing, so every key is whole |
| Limiter.Limiter.Allow | witness/limiter.go:54-76 | admits and names the wait as the kept instant says, after forgetting at most budgets that are whole |
| Limiter.WindowBound | witness/limiter.go:54-76 | any window of one key admits at most burst plus one for each whole interval in it, whatever came before |
| Limiter.RunBound | witness/limiter.go:54-76 | the same bound over any run of requests of any keys with pruning |
| Limiter.BurstAdmitted | witness/limiter.go:67-69 | a whole budget admits burst requests at one instant, so the bound is met |
| Limiter.WaitExact | witness/limiter.go:51-53 | a refused request is admitted at a later time if and only if the named wait has passed |
| Limiter.SpendExactly | witness/limiter.go:64-75 | an admitted request waits for nothing and spends one interval; a refused one spends nothing |
| Limiter.PruningInvisible | witness/limiter.go:57-63 | pruning and other keys never change an answer |
| Identity.AllAgree | identity/identity.go:175-262 | every successful call in any process returned the one identity the file holds |
| Identity.LoserAdopts | identity/identity.go:247-259 | a process that finds the name taken when it links returns the identity of the file that took it, if sound, and never its own |
| Identity.WinnerKeeps | identity/identity.go:244-261 | the first to link returns its own identity, and that is what the file holds |
| Identity.FinderReads | identity/identity.go:175-184 | a process that finds the file returns what it holds and makes nothing |
| Identity.FirstComer | identity/identity.go:205-262 | a process that comes to an empty directory and is not stopped makes the file and returns what it made |
| Identity.ParseExactly | identity/identity.go:271-285 | a stored identity is its key with the id it names or the id the key was born to, and nothing without a sound seed |
| Identity.StoppingHarmless | identity/identity.go:222-239 | stopping a process changes no linked file and takes nothing back |
| Identity.FileNeverChanges | identity/identity.go:244-261 | the file, once there, never changes, whoever comes later and however they end |
| Identity.FileComplete | identity/identity.go:222-247 | a file these calls put there is complete and carries the id its own key was born to |
| Snapshot.AdoptSnapshot.Get | cmd/cmd_adopt.go:1142-1163 | a read of one row is the account of it, and what it returns is the reader's own to change |
| Snapshot.AdoptSnapshot.Steps | cmd/cmd_adopt.go:1166-1182 | the same for a workflow's steps |
| Snapshot.AdoptSnapshot.AllNonTerminal | cmd/cmd_adopt.go:1125-1139 | the same for the runs not ended, an empty answer kept like any other |
| Snapshot.AdoptSnapshot.Append | cmd/cmd_adopt.go:1210-1217 | only the adoption record's append switches the reads to the stores |
| Snapshot.CloneRuns | cmd/cmd_adopt.go:1107-1113 | copies that are new objects with the same contents |
| Snapshot.ReadsRepeat | cmd/cmd_adopt.go:1057-1080 | until the record's append begins, a read of a key that was answered repeats its first answer, whatever the stores say by then and whatever else is read |
| Snapshot.KeptWasAnswered | cmd/cmd_adopt.go:1057-1080 | what is kept for a key is an answer the store gave to a read of it |
| Snapshot.LiveReadsStore | cmd/cmd_adopt.go:1194-1217 | once that append began every read goes to the stores |
| Snapshot.EntryReads | cmd/cmd_adopt.go:1193-1206 | before the record, an entry is the one the verified walk gave, or not there; the record is always read from the chain |
| Snapshot.FirstReadAnswers | cmd/cmd_adopt.go:1125-1182 | a first read answers what the store says, and an error is never kept |
| Chain.ChainScanner.Feed | internal/audit/scan.go:32-72 | feeding one entry at a time keeps the first position that does not check out |
| Chain.Verify | internal/audit/audit.go:677-684 | reports the first position that does not check out, zero when all do |
| Chain.NewestLinkFixesChain | internal/audit/scan.go:32-72 | two intact chains that share a link share every entry up to it |
| Chain.BodiesFixChain | internal/audit/scan.go:32-72 | two intact chains whose entries say the same are the same, links and all |
| Chain.IntactExactly | internal/audit/audit.go:666-684 | intact chains are exactly those an honest store writes, each entry the one appending it to those before it gives |
| Chain.SliceSound | internal/audit/audit.go:686-699 | any part of an intact chain checks out as a range |
| Chain.RangeNumbered | internal/audit/audit.go:686-699 | a range that checks out is numbered in order, linked entry to entry, and its first has no link before it exactly when it is entry one |
| Anchors.NamedFold.Feed | internal/audit/treefold.go:40-54 | folding one entry in keeps the root at every size asked for, or stops answering at an entry that is no leaf |
| Anchors.AnchorScanner.Feed | internal/audit/scan.go:172-198 | one entry more keeps the link at every anchored position and the root at every anchored size, under both names |
| Anchors.AnchorScanner.Verdict | internal/audit/anchorcheck.go:70-157 | an anchor passes exactly when the chain holds its link at its position, or its root at its size under a name this key wrote under |
| Anchors.CheckAnchors | internal/audit/anchorcheck.go:38-67 | passes exactly when every anchor is reached |
| Anchors.ReachedExactly | internal/audit/anchorcheck.go:70-157 | which anchors an intact chain reaches, exactly: by link at the position, or by root under the name its key writes under, or under its other name for an anchor of that name or of none |
| Anchors.EveryAnchorCounts | internal/audit/anchorcheck.go:47-67 | one anchor not reached fails them all |
| Anchors.AnchorFixesHistory | internal/audit/anchorcheck.go:15-37 | two intact chains that reach one anchor hold the same entries up to it, and neither lost its tail |
| Bundle.WalkChain | cmd/cmd_audit_bundle.go:227-234 | the slice walk reports that break, its sequence and the count |
| Bundle.StreamChainWalk | cmd/cmd_audit_bundle.go:433-475 | the streaming walk reports the same, the newest sequence, and whether every anchor is reached |
| Bundle.WalksAgree | cmd/cmd_audit_bundle.go:224-234 | the two walks report the same thing |
| Bundle.ReportTells | cmd/cmd_audit_bundle.go:206-234 | a report names the first unsound entry and the sequence it carries, zero when it is not there to carry one |
| Bundle.CheckBundleWindow | cmd/cmd_audit_bundle.go:374-400 | passes exactly the windows that name a bounded count or a bounded range from one, not both |
| Bundle.WindowsAsked | cmd/cmd_audit_bundle.go:374-400 | every count up to 25,000 and every range of that length may be asked for, and nothing else |
| Bundle.SliceExact | cmd/cmd_audit_bundle.go:405-427 | over an intact chain the cut holds exactly the asked sequences, within the chain and the ceiling, and is refused only when it cannot be served whole |
| Bundle.ScanWindow | cmd/cmd_audit_bundle.go:479-492 | the second read carries exactly the walked entries of the cut, though entries were appended meanwhile |
| Bundle.CutBundle | cmd/cmd_audit_bundle.go:98-133 | a window comes back exactly when the chain is intact, not empty, reaches every anchor, and the asked entries can be served whole, and it is those entries |

## Left out

- HTTP handlers, status codes, body decoding, announcements, Slack and webhooks: plumbing with easy claims.
- Ed25519, base64, canonical JSON and hex: symbolic here, so a push's signature check before `hold` (`VerifyPush`) and the born-to check of labels are not modelled.
- The verifier of `loomseal/merkle` is not part of this model: `VerifyConsistency` here is the inverse of the proof recursion in section 2.1.2 of RFC 6962, as section 2.1.4 of RFC 9162 describes it. A stored root that is not lowercase hex counts as undecodable.
- PushLaws.CheckAccuses: covers one plausible beat, which is all a push gives `Check`; the pull feeds of many beats are not modelled, nor is the lowercasing of a URL's scheme and host.
- Install.Install.LoadInstall: starts from an enrollment already read; parsing it and the born-to check of its label are not modelled, and the check of its key against the directory's name is in `Service.ReadRecords`.
- Directory overlap, symbolic links and file permissions: facts about the file system.
- Calendar arithmetic is a parameter: any function may add the twelve months.
- Duration overflow in the limiter, and integer widths where the code bounds its inputs first.
- Restoring a record's files from a backup inside a run of one record: only `HonestInstall.NoGrowingInstallAccused` covers rewound memory. Lines of a log that do not parse are not modelled.
- RegistryRuns.OnlyTheKeeperWrites: lets a push leave any record that keeps the logs it found; what it really writes is joined to it in `Interleaved`.
- Service.Service.Enroll: takes the outcomes of the signature check, the policy and the rate limiter as inputs, and leaves the signing of the answer to `KeyLists`.
- Snapshot.ReadsRepeat: leaves out the adoption record itself, which is always read from the chain.
- Identity.AllAgree: does not model the environment override or the check that a witness's key is not the producer's.
- Anchors.AnchorScanner.Verdict: says whether an anchor is reached, not which of the explanations is given when it is not.
- `AttestInstall`, the license check, the dispatcher, the stores, the importers and the desktop and demo commands.
