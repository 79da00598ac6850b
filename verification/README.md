# A verified model of the history daemon

The daemon watches the transcript files of coding assistants, turns them into chunks, stores the chunks
in a Spanner table and embeds them for search. This project models the parts of it whose correctness is
a statement about whole runs, and proves those statements in Dafny.

| files | what they model |
|---|---|
| `DurableSlot`, `DurableRoot`, `ForwardStore` | atomic replacement and content-bound removal in a directory that can crash after every system call |
| `ForwardState`, `Forward`, `ForwardRuns`, `ForwardBaseline`, `ForwardGuarantees`, `ForwardStarts`, `ForwardCutoff`, `ForwardRefusals`, `ForwardProgress`, `ForwardSessions`, `ForwardScans` | forward-only capture: cutoff, baseline, scans, refusals, acknowledgements, restarts and crashes |
| `JsonWalk` | the duplicate-name check on the capture state file |
| `Splitter`, `Assembly`, `Grouping`, `Pairing`, `Codex`, `Gemini`, `ChatGPT`, `ChatGPTOrder`, `Claude` | splitting long turns, and the four parsers' turn assembly |
| `Eligibility`, `Capture`, `CaptureSessions` | the timestamp and session tests on a snapshot, and how they relate to the chunks made from it |
| `Takeover` | replacing the process named in the pid record |
| `Shards`, `Plans`, `Oversized`, `OversizedRuns`, `Backfill`, `BackfillRuns`, `BackfillOutside` | upsert plans and the concurrent, sharded embedding backfill |
| `StatsCache`, `RankFusion` | the statistics cache under concurrency, and the hybrid search score |
| `UploadQueue`, `UploadQueueRuns` | the durable upload queue |
| `Options`, `Text`, `Chunk` | shared values |

Code that updates state is a class or a loop with a contract that ties it to a function of the old state;
the whole-run results are about that function. Everything outside the process answers through values that
the theorems quantify over: file trees, snapshots, the sink, every system call, process tables, signals,
clocks, query results and thread interleavings. A write of a durable file has four ends: confirmed, failed
before the rename, failed after the rename was visible, and failed after it was already synced. A slot
keeps what is visible now and what a machine crash may bring back; `DurableRoot.Root.WriteAtomic` shows
that the system calls behave like such a slot.

## What the proofs found

- A refusal is permanent exactly when its state write was acknowledged. One that failed after its rename is
  on disk but not in memory: it lasts until the tracker's next write reaches the directory, and the refused
  file itself can then be uploaded (`ForwardRefusals`).
- `docs/NATIVE_COMPATIBILITY_CONTRACT.md` speaks of one persisted cutoff. After an upload that promise holds
  for the future exactly when no crash can take the state file away; a first write that is never confirmed
  leaves the other case (`ForwardCutoff`).
- Excluded sessions are stored trimmed, but the second test only lower-cases the session of a chunk, and the
  first test does not look at the sessions of a Gemini event log. A log whose session has white space around
  an excluded name is uploaded; nothing else escapes (`ForwardSessions`).
- An accepting verdict covers every chunk time for Codex, Gemini and ChatGPT. For Claude it does so exactly
  when the transcript has no stale reply: an assistant entry without message or summary whose old time
  stamps the turn of a current question. The second test in `processForwardPath` then refuses the file.
- The Codex, Gemini and ChatGPT splitters emit 1500 extra one-byte-shifted suffixes for any content over
  8000 bytes, so an upload with such a turn is always over the 500-chunk limit. With the store as sink the
  scan then fails at that file, and files after it in walk order are never handled (`Oversized`).
- In hybrid search a distance below one half needs more than being in both lists: the two ranks, counted
  from zero, must multiply to less than (k+1) squared.
- `Prepare` reports an error, and leaves the record, when the process exits between a termination that timed
  out or could not be sent and the kill. Removal also counts as done when the record has meanwhile disappeared.
- `Optimize` and `DiscoverIndexes` do not invalidate cached statistics. A cached answer shows the wrong index
  flag exactly when the flag changed an odd number of times since it was made. Counts do not lag behind
  writes of this store that have returned nil; they may lag, within the time to live, behind other processes
  and behind a backfill that ends without invalidating (cancelled, incomplete, or reporting nothing embedded).
- A batch size above 500 is a valid configuration, but a shard with more than 500 pending rows then embeds
  nothing.
- A row that another writer changes or deletes between a backfill read and its write is put back as it was
  read. Outside writes are kept exactly when every write back agrees with them (`BackfillOutside`).
- A nil from a repeated `Enqueue` is safe exactly when a settled write stored the item and no later write
  that reached the directory lacked it. An `Ack` or a first `Enqueue` that failed behind its rename breaks
  this, and a restart or a crash then loses the item (`UploadQueueRuns`).
- `json.Marshal` makes path names valid UTF-8. An excluded path that this changes does not come back from
  the state file, and two paths made equal make the file fail its own duplicate check (`ForwardStore`).

## Model

| member | source | states |
|---|---|---|
| `DurableRoot.Root.WriteAtomic` | internal/history/durable/durable.go:231-304 | After a crash at any step the name holds its old content or the complete payload; a nil error means only the payload can survive; an error before the rename leaves the name untouched; other names keep what they hold and gain no outcome; the slot changes as `Slot.Write` says; with every call succeeding the write is confirmed |
| `DurableRoot.Root.SaveQueue` | internal/history/uploadqueue/queue.go:156-187 | The queue's own save has the same crash law, with no end between sync and return |
| `DurableRoot.Root.CreateTemporary` | internal/history/durable/durable.go:250-263 | The temporary is a name that did not exist and is not the target, found in at most 128 attempts, or nothing happened |
| `DurableRoot.Root.Stage` | internal/history/durable/durable.go:276-291 | While the temporary is written nothing else is touched; success means its data is complete and synced |
| `DurableRoot.Root.Commit` | internal/history/durable/durable.go:292-303 | Rename, directory sync and final check: each intermediate crash shows old or new, and the three ends are told apart |
| `DurableRoot.Root.Remove` | internal/history/durable/durable.go:306-354 | Only content with the expected hash is moved away; a crash at any step shows the old content or nothing; nil means gone for good or never there; the slot changes as `Slot.Remove` says; with every call succeeding matching content is removed |
| `DurableRoot.Root.MoveAway` | internal/history/durable/durable.go:337-353 | The same for the steps after the hash matched, by end of the sequence |
| `DurableRoot.CommitIsSafe` | internal/history/durable/durable.go:292-298 | The rename adds exactly the complete payload to what a crash may show |
| `DurableRoot.RenameIsLocal` | internal/history/durable/durable.go:292-294 | A rename changes the two names it mentions and no other, now and after a crash |
| `DurableRoot.SealedSurvivors` | internal/history/durable/durable.go:231-304 | For a name that never held unsynced data, the slot's survivors are exactly the contents a crash may leave |
| `ForwardStore.WriteForwardState` | internal/history/watch/forward.go:308-317 | The state file becomes, for readers and for crashes, what loading makes of the encoded state, by the outcome of the write - the state itself exactly when the codec returns it; an oversized state is not written |
| `ForwardStore.MergedPathsAreRefused` | internal/history/watch/forward.go:194-227 | Loading refuses the file by its own duplicate check exactly when two path names were made equal by the encoding |
| `ForwardStore.ExcludedPathComesBack` | internal/history/watch/forward.go:308-317 | An excluded path comes back from the file exactly when the encoding leaves its name alone |
| `Forward.BaselinePaths` | internal/history/watch/forward.go:141-183 | The walk succeeds exactly when no entry blocks it, and then excludes exactly the paths and file objects of the recognised regular files, and exactly the sessions their names hold: the leftmost UUID of the last path element, in lower case |
| `ForwardState.SessionIsNamedByPath` | internal/history/watch/forward.go:185-188 | On the path alone: the session is the leftmost UUID after the last '/', in lower case, and there is none exactly when no such UUID is there |
| `Forward.RecognisedSessionsAreNamed` | internal/history/watch/forward.go:171-173 | A session is excluded for a walk exactly when the path of one of its recognised files names it |
| `Forward.BaselineIsExact` | internal/history/watch/forward.go:141-183 | The same as a law: the result is the initial state with the set of recognised files added, and nothing else |
| `Forward.Producer.WriteState` | internal/history/watch/forward.go:442-447 | Disk changes by the write's outcome; memory advances only on nil |
| `Forward.Producer.RefuseForwardPath` | internal/history/watch/forward.go:451-465 | The refused path, object and all reliable sessions are added to the exclusions in one write |
| `Forward.Producer.UploadChunks` | internal/history/watch/forward.go:439-448 | The sink is called before progress is written, and progress only after the sink accepted |
| `Forward.Producer.DispatchAndUpload` | internal/history/watch/forward.go:423-448 | The second test refuses at the first stale chunk and uploads only when there is none |
| `Forward.Producer.ProcessForwardPath` | internal/history/watch/forward.go:391-449 | The whole decision for one snapshot: changed source, excluded, acknowledged, wait, refuse or upload |
| `Forward.Producer.VisitEntry` | internal/history/watch/forward.go:343-382 | One walk callback, with its error order, its exclusion tests and the 1024-file limit |
| `Forward.Producer.ScanForward` | internal/history/watch/forward.go:340-389 | A scan is its callbacks in order until one fails; readiness is exactly success |
| `ForwardState.ClassifyTimes` | internal/history/watch/forward.go:639-651 | Wait without times, accept exactly when all are set and not before the cutoff, refuse otherwise |
| `ForwardState.ContainsExcludedSession` | internal/history/watch/forward.go:479-486 | True exactly when some trimmed, lower-cased session is excluded |
| `ForwardState.ReliableIsNotBlank` | internal/history/watch/forward.go:455-459 | A session that a refusal stores never makes the stored state invalid |
| `ForwardState.RefusalStoresNames` | internal/history/watch/forward.go:467-477 | A refusal stores every session that has a character other than a digit and is not a name the parsers make up |
| `ForwardState.UuidIsReliable` | internal/history/watch/forward.go:467-477 | So it stores every UUID |
| `ForwardState.SessionFromPathIsNotBlank` | internal/history/watch/forward.go:171-173 | Nor does a session the baseline takes from a path |
| `ForwardRuns.NewForwardProducer` | internal/history/watch/forward.go:77-127 | An existing state is loaded and never rebuilt; otherwise cutoff and baseline are written before the producer exists |
| `ForwardRuns.RunInvariant` | internal/history/watch/forward.go:77-465 | After any sequence of enablements, scans, exits and crashes, every state in memory or recoverable from disk is valid, covers all acknowledged exclusions and records only true progress |
| `ForwardRuns.PersistKeeps` | internal/history/watch/forward.go:442-447 | A state write keeps that invariant for each of its outcomes |
| `ForwardRuns.UploadKeeps` | internal/history/watch/forward.go:431-448 | So does an upload, accepted or not |
| `ForwardRuns.VisitKeeps` | internal/history/watch/forward.go:343-449 | So does any callback with any answers |
| `ForwardGuarantees.UploadsAreForwardOnly` | internal/history/watch/forward.go:391-449 | In every run each upsert has only current chunk times and collected times, and avoids every path and object of each baseline and refusal acknowledged before it, and every session as the two tests compare them: collected ones trimmed and in lower case, those of chunks in lower case |
| `ForwardSessions.UploadsAvoidExcludedSessionsExactly` | internal/history/watch/forward.go:412-438 | With chunk sessions trimmed too: an upload carries no session of an earlier acknowledged baseline or refusal if and only if its source is not a Gemini event log with an event whose session is excluded once trimmed and not before; so always for Claude, Codex, ChatGPT and Gemini documents |
| `CaptureSessions.SessionsEscapeExactly` | internal/history/source/gemini/gemini.go:128-134 | The same condition for one source that passed both tests, against any set of exclusions |
| `CaptureSessions.ChunkSessions` | internal/history/source/gemini/gemini.go:119-201 | Every chunk session is one the first test collects, one the parser supplies, or the raw session of an event of a log |
| `ForwardSessions.SpacedSessionEscapes` | internal/history/watch/forward.go:455-459 | The failing input: a log refused under " abc" stores "abc", and a current log of " abc" passes both tests |
| `ForwardSessions.SpacedLogIsUploaded` | internal/history/watch/forward.go:434-448 | And is uploaded by a producer that holds that exclusion |
| `ForwardSessions.ExclusionsAreNormal` | internal/history/watch/forward.go:451-465 | In every run excluded sessions are stored trimmed and in lower case, and never a name a parser makes up |
| `ForwardBaseline.ExistingFilesAreNeverUploaded` | docs/NATIVE_COMPATIBILITY_CONTRACT.md:48-52 | Enablement that finds no state file and returns a producer fixes for all continuations: no upsert has the path or file object of a recognised file that existed then, nor a chunk whose lower-cased session is the UUID its name holds |
| `ForwardBaseline.UploadsAreSinceEnablement` | docs/NATIVE_COMPATIBILITY_CONTRACT.md:48-54 | The clock reading of that enablement is the cutoff for good: every later upsert, in every continuation, has only chunk times and collected times from then on |
| `ForwardBaseline.EnablementStores` | internal/history/watch/forward.go:110-127 | What it stores: the clock reading, the roots, the recognised paths and objects, and no progress |
| `ForwardSessions.ExistingSessionsEscapeExactly` | internal/history/watch/forward.go:170-175 | With chunk sessions trimmed too: no upsert carries a session that the path of an existing file names, if and only if its source has no escaping event |
| `ForwardStarts.UploadsAvoidTheirStart` | internal/history/watch/forward.go:98-127 | In every run each upsert also avoids everything its producer started with, be it a stored baseline or a loaded state |
| `ForwardSessions.StartSessionsEscapeExactly` | internal/history/watch/forward.go:98-127 | The same for every session the producer started with |
| `ForwardGuarantees.AcknowledgedExclusionsPersist` | internal/history/watch/forward.go:98-127 | Acknowledged exclusions are in memory, on disk and in everything a crash can restore, after any continuation |
| `ForwardGuarantees.TrackedExclusionsPersist` | internal/history/watch/forward.go:451-465 | Without machine crashes, whatever a tracker ever excluded stays excluded, also when its write was not acknowledged but reloaded |
| `ForwardGuarantees.ProgressIsSound` | internal/history/watch/forward.go:439-448 | A recorded digest stands for an earlier accepted upsert of exactly that snapshot's chunks |
| `ForwardGuarantees.RestartReloads` | internal/history/watch/forward.go:98-108 | A state the daemon wrote is always accepted again for the same roots |
| `ForwardGuarantees.CutoffIsFixedOnceStored` | internal/history/watch/forward.go:98-127 | After the first stored write there is one cutoff and no crash can remove it |
| `ForwardCutoff.OneCutoffExactlyWhenPinned` | internal/history/watch/forward.go:98-127 | After any run with an upload and one cutoff so far, every continuation keeps that cutoff if and only if no crash can take the state file away |
| `ForwardScans.CompleteScanDropsNothing` | internal/history/watch/forward.go:340-449 | A scan that returns nil leaves each path, as last seen, acknowledged, excluded, waiting or without chunks |
| `ForwardScans.RescansAreQuiet` | internal/history/watch/forward.go:340-449 | Within one process, any number of further scans over an unchanged tree makes no upsert and never newly meets the file limit |
| `ForwardProgress.AcknowledgedIsNotResubmitted` | docs/NATIVE_COMPATIBILITY_CONTRACT.md:54-56 | In every run, restarts and crashes included: between an acknowledgement that returned nil and a later upsert of the same path and digest, the sink accepted another version of that file |
| `ForwardScans.CountDoesNotGrow` | internal/history/watch/forward.go:366-380 | The files counted against the limit only become fewer |
| `ForwardScans.ScanLimitIsMet` | internal/history/watch/forward.go:377-380 | A scan handles 1024 files and fails exactly at the next one |
| `ForwardRefusals.RefusalIsPermanentExactlyWhenAcknowledged` | internal/history/watch/forward.go:451-465 | A refused path stays in the state file through every continuation if and only if its state write was acknowledged |
| `ForwardRefusals.UnacknowledgedRefusalLasts` | internal/history/watch/forward.go:451-465 | A refusal that failed behind its rename is on disk after a whole scan of other files if and only if no state write of that scan reached the directory |
| `ForwardRefusals.LosingVisit` | internal/history/watch/forward.go:431-448 | The visit that loses it, for every valid state: the refused file itself is uploaded and acknowledged |
| `ForwardCutoff.CrashMovesCutoff` | internal/history/watch/forward.go:110-127 | If a crash can take it away, a continuation that uploads under another cutoff, for every such state |
| `ForwardCutoff.FirstWriteMayBeUnpinned` | internal/history/watch/forward.go:119-127 | Such a state is reachable: the first write is never confirmed, a restart loads it and uploads |
| `JsonWalk.WalkForwardJSON` | internal/history/watch/forward.go:229-273 | The recursive loops over the decoder compute the walk of the remaining tokens |
| `JsonWalk.WalkTokens` | internal/history/watch/forward.go:229-273 | Walking a value consumes exactly its tokens and succeeds exactly when every object at every depth has distinct names |
| `JsonWalk.WalkSound` | internal/history/watch/forward.go:229-273 | Whatever the walk accepts is the token stream of one such value |
| `JsonWalk.RejectDuplicateKeys` | internal/history/watch/forward.go:217-227 | Accepts exactly the token streams of one value with distinct names and nothing after it |
| `Splitter.FindCut` | internal/history/source/claude/claude.go:377-387 | A part ends right after the last paragraph break of its last 1000 bytes; without one, one byte after the start of the last sentence break or line end there; without either, at 8000 bytes - said of the content itself |
| `Splitter.CutIsAtLastBreak` | internal/history/source/codex/codex.go:461-470 | The same of the cut that every claim about the splitters rests on |
| `Splitter.SplitClaude` | internal/history/source/claude/claude.go:371-392 | The Claude loop returns the specified parts |
| `Splitter.ClaudeRoundTrip` | internal/history/source/claude/claude.go:371-392 | Parts of at most 8000 bytes, neighbours sharing exactly 1500, and the content back by dropping each overlap |
| `Splitter.SpansAreTiled` | internal/history/source/claude/claude.go:376-390 | Every step but the last advances by 5502 to 6500 bytes |
| `Splitter.ClaudePartCount` | internal/history/source/claude/claude.go:371-392 | Lower and upper bound on the number of parts, from the length alone |
| `Splitter.SplitCodex` | internal/history/source/codex/codex.go:455-475 | The looping splitter returns its specified parts |
| `Splitter.CodexIsClaudeAndSuffixes` | internal/history/source/codex/codex.go:455-475 | Up to 8000 bytes both splitters agree; beyond, the looping one appends exactly the 1500 one-byte-shifted suffixes |
| `Assembly.MakeChunks` | internal/history/source/codex/codex.go:360-375 | One turn chunk per part, all with the turn's time and session and no children yet |
| `Assembly.TurnKeepsParts` | internal/history/source/codex/codex.go:360-375 | The chunks end with the splitter's parts in order and carry session, project, model and line |
| `Assembly.FileChunks` | internal/history/source/codex/codex.go:376-384 | One file_change chunk per operation, in order, naming the given parent |
| `Grouping.OutputIsOneGroupPerOpening` | internal/history/source/codex/codex.go:108-210 | The output is the records before the first opening one by one and then exactly one group for each slice, in order |
| `Grouping.EachOpeningHasOneSlice` | internal/history/source/codex/codex.go:108-210 | The slices start at the openings, each opening once, in record order, and run to the next one |
| `Grouping.TurnSaysEverythingInOrder` | internal/history/source/codex/codex.go:114-116 | A turn's text is the opening's own text after its label and then the texts of all replies of the slice, whole, in record order and one line end apart, up to white space at the ends |
| `Assembly.JoinIsInOrder` | internal/history/source/codex/codex.go:114 | Each joined part stands at its offset, so parts are in order and apart |
| `Grouping.GroupFields` | internal/history/source/codex/codex.go:108-127 | A group's chunks carry the opening's time and line, and session, project and model in force where its slice ends |
| `Grouping.SettingsAreLastNamed` | internal/history/source/codex/codex.go:129-150 | Session, working directories and model are those last named before a record |
| `Grouping.ProjectIsWorkingDirectory` | internal/history/source/codex/codex.go:399-407 | The project is the turn's working directory, else the session's, else unknown |
| `Grouping.StandaloneSays` | internal/history/source/codex/codex.go:348-359 | Text on its own stands whole after the label of who spoke |
| `Grouping.FileChunkSays` | internal/history/source/codex/codex.go:376-384 | A file chunk names project, file and kind and ends with the summary |
| `Grouping.PartsNameOneParent` | internal/history/source/codex/codex.go:360-375 | Parts after the first name the whole content's id as parent, the first names none, and a single part has that id |
| `Assembly.EveryOperationOnce` | internal/history/source/codex/codex.go:108-210 | Every file operation found becomes exactly one file_change chunk, in record order |
| `Grouping.AssembledIsInBlocks` | internal/history/source/codex/codex.go:108-127 | The output falls into blocks whose first chunk lists exactly the file chunks of its own block, each of which names it as parent |
| `Grouping.GroupIsBlock` | internal/history/source/codex/codex.go:108-127 | A group is one such block, headed by its own first turn chunk |
| `Assembly.AssembledTimes` | internal/history/source/codex/codex.go:108-210 | Every chunk carries the time of a record that emits |
| `Codex.ReadRecord` | internal/history/source/codex/codex.go:129-207 | One round of the record switch keeps the loop in step with the grouping specification |
| `Codex.Chunks` | internal/history/source/codex/codex.go:90-210 | The pending/fragments/operations loop computes the grouping specification |
| `Codex.CodexFileChunks` | internal/history/source/codex/codex.go:90-285 | For every source: each extracted operation once, in order, in blocks linked to their own first chunk both ways |
| `Codex.CodexTimes` | internal/history/source/codex/codex.go:108-210 | Each chunk time is the time of some record |
| `Codex.ToolSays` | internal/history/source/codex/codex.go:247-285 | What each tool record reads as, with its payload whole up to white space at the end, and which operations are kept |
| `Codex.SessionBeforeRecords` | internal/history/source/codex/codex.go:420-430 | Before a record names one, the session is the last 36 characters of the file name if they are hexadecimal digits and dashes, else unknown |
| `Codex.WordsAreInOrder` | internal/history/source/codex/codex.go:247-285 | The parts of a reasoning summary are in order, a space apart |
| `Gemini.ReadMessage` | internal/history/source/gemini/gemini.go:161-198 | One round of the message switch keeps the loop in step with the grouping specification |
| `Gemini.Chunks` | internal/history/source/gemini/gemini.go:119-201 | Event logs chunk event by event; documents are assembled by the grouping specification |
| `Gemini.GeminiFileChunks` | internal/history/source/gemini/gemini.go:119-201 | For every document: each extracted operation once, in order, in blocks linked to their own first chunk both ways |
| `Gemini.GeminiTimes` | internal/history/source/gemini/gemini.go:119-201 | With all records timed, each chunk time is the time of some record |
| `Gemini.GeminiTextSays` | internal/history/source/gemini/gemini.go:243-259 | A message reads as its content, its thoughts and its tool calls, whole and in that order, each in its own paragraph |
| `Gemini.CallOpsInOrder` | internal/history/source/gemini/gemini.go:263-279 | The operations of a message are those of its calls, call by call |
| `Gemini.PendingIndexIsFirst` | internal/history/source/gemini/gemini.go:352-359 | A turn is placed at the first message with its opening's id |
| `Pairing.WaitingIsPending` | internal/history/source/chatgpt/chatgpt.go:100-118 | The pending variable holds exactly the question with only ignored messages after it |
| `Pairing.PairsAreDisjoint` | internal/history/source/chatgpt/chatgpt.go:100-118 | No question is used by two answers and no answer uses two questions |
| `ChatGPT.PairMessages` | internal/history/source/chatgpt/chatgpt.go:100-118 | The pairing loop over one conversation emits, answer by answer, the turns of waiting questions |
| `ChatGPT.Chunks` | internal/history/source/chatgpt/chatgpt.go:90-121 | The loop over the export computes the chunks of all conversations in order |
| `ChatGPT.TurnChunks` | internal/history/source/chatgpt/chatgpt.go:266-282 | One chunk per part, with the answer's time, both message ids and the conversation's session |
| `ChatGPT.TurnTextSays` | internal/history/source/chatgpt/chatgpt.go:267 | The question stands whole after its label and then the answer after its own, and nothing else |
| `ChatGPT.TurnKeepsParts` | internal/history/source/chatgpt/chatgpt.go:268-281 | The chunks end with the parts of that text, in order |
| `ChatGPT.LinesAreDistinct` | internal/history/source/chatgpt/chatgpt.go:114-115 | Made-up lines differ as long as conversations have fewer than 100000 messages |
| `ChatGPT.ChatGPTEmitsPairs` | internal/history/source/chatgpt/chatgpt.go:90-121 | A chunk is emitted if and only if it belongs to an answered question |
| `ChatGPTOrder.OrderMessages` | internal/history/source/chatgpt/chatgpt.go:178-187 | The sort returns a sorted permutation of the mapping's messages |
| `ChatGPTOrder.SortedMeans` | internal/history/source/chatgpt/chatgpt.go:178-187 | Timed messages come first, by time, and equal times by node |
| `ChatGPTOrder.OrderIsDeterministic` | internal/history/source/chatgpt/chatgpt.go:154-188 | There is only one sorted list of the same messages, so map iteration order cannot show |
| `Claude.CollectText` | internal/history/source/claude/claude.go:332-361 | The text loop collects each block's line in order |
| `Claude.CollectOperations` | internal/history/source/claude/claude.go:290-319 | The operation loop collects each Write and each complete Edit in order |
| `Claude.OperationsHaveText` | internal/history/source/claude/claude.go:290-362 | A message with file operations never counts as silent |
| `Claude.TurnChunks` | internal/history/source/claude/claude.go:217-250 | A turn is emitted exactly when either side has text, stamped by the answer, else the question, else the line |
| `Claude.TurnKeepsText` | internal/history/source/claude/claude.go:217-250 | The turn text comes back from its chunks by dropping part labels and overlaps; in it each visible side stands whole and directly after its own label, question before answer; each chunk names both entries, session, model and line |
| `Claude.EntryFileChunks` | internal/history/source/claude/claude.go:263-286 | One file_change chunk per operation, stamped by the entry |
| `Claude.OperationChunkSays` | internal/history/source/claude/claude.go:273-283 | A file chunk names file and kind, ends with the prompt cut to 200 bytes, and carries the answer's id, model, line and session |
| `Claude.PairPrompts` | internal/history/source/claude/claude.go:130-141 | The file chunks after a turn answer that turn's question |
| `Claude.SummarySays` | internal/history/source/claude/claude.go:252-261 | A summary chunk holds the summary, or without one the message |
| `Claude.OperationKinds` | internal/history/source/claude/claude.go:301-316 | Which blocks are file operations, of which kind, on which file |
| `Claude.EditSays` | internal/history/source/claude/claude.go:309-315 | An edit reads as what was replaced and then what replaced it |
| `Claude.OneLineMeans` | internal/history/source/claude/claude.go:347-349 | A command is shown on one line, otherwise unchanged |
| `Claude.BlocksRead` | internal/history/source/claude/claude.go:338-359 | How each kind of block reads |
| `Claude.Chunks` | internal/history/source/claude/claude.go:102-146 | The pending loop emits summaries, unpaired file changes and answered questions entry by entry |
| `Claude.ClaudeFileChunks` | internal/history/source/claude/claude.go:102-146 | Every file operation of an assistant entry becomes exactly one file_change chunk, paired or not |
| `Eligibility.InspectClaude` | internal/history/watch/forward.go:503-518 | Collects the times of meaningful entries and all sessions, or stops at the first meaningful entry without a time |
| `Eligibility.InspectCodex` | internal/history/watch/forward.go:532-547 | The same for Codex, with the path's session and every session_meta id |
| `Eligibility.InspectGemini` | internal/history/watch/forward.go:553-566 | The same for Gemini, blaming the document's or the event's session |
| `Eligibility.InspectChatGPT` | internal/history/watch/forward.go:599-613 | The same for ChatGPT, over non-blank messages of all conversations |
| `Eligibility.AcceptMeansAdmitted` | internal/history/watch/forward.go:488-651 | Accept if and only if some record counts and all that count are timed and current |
| `Capture.InspectForwardEligibility` | internal/history/watch/forward.go:488-637 | Parse errors and issues wait, invalid timestamps refuse, otherwise the source's own pass decides |
| `Capture.AcceptedTimesAreCurrent` | internal/history/watch/forward.go:488-651 | For Codex, Gemini and ChatGPT, accept implies every chunk time is at or after the cutoff |
| `Capture.ClaudeAcceptIsExact` | internal/history/watch/forward.go:489-518 | For Claude, accept rules out line-number times, and covers all chunk times if and only if there is no stale reply |
| `Capture.AcceptedClaudeMayBeStale` | internal/history/source/claude/claude.go:217-250 | A concrete accepted transcript with a chunk older than the cutoff |
| `ForwardSessions.SecondTestFindsOnly` | internal/history/watch/forward.go:434-438 | In every reachable state, after accept and a clear first test, the second refuses only for a Claude stale reply, the raw session of an event of a Gemini log, or the session a Codex file name ends with |
| `Takeover.Controller.ReadRecord` | internal/history/process/process.go:185-214 | Absent, unreadable, or the bytes read with the valid record they decode to |
| `Takeover.Controller.WaitForExit` | internal/history/process/process.go:159-183 | Polling sends no signal; it says exited exactly when looks show the process itself up to one where it is gone, and ends by time-out exactly when they show it up to an expired one |
| `Takeover.Controller.EndProcess` | internal/history/process/process.go:112-149 | One termination first, at most one kill after a fresh look at the recorded process; exited exactly under the answers that end the process and show it |
| `Takeover.Controller.Retire` | internal/history/process/process.go:153-156 | Removal is bound to the bytes that were read, even if the file was replaced meanwhile |
| `Takeover.Controller.Prepare` | internal/history/process/process.go:85-157 | For all answers: signals only directly after a look that shows the recorded pid, executable, checkout and start; a first look at any other process ends in an error and no signal; removal only directly after a not-found answer and only of the read bytes; true exactly when the record was absent or so retired; start mode sends no signal and declines a live process; removal is attempted exactly when the process was gone at first or is ended and seen to be; and it is seen gone without a removal exactly under the answers of a late exit |
| `Takeover.ValidExecutableIsBelow` | internal/history/process/process.go:245-254 | The executable of a valid record lies strictly below its checkout |
| `Takeover.TakeOverTooLate` | internal/history/process/process.go:137-149 | The late exit happens, for every recorded process: a termination that fails or times out, then an exit before the kill, ends in an error and leaves the record |
| `Takeover.AtMostOneOfEach` | internal/history/process/process.go:85-157 | Any such trace sends each kind of signal at most once, and no termination where the kill stands in for it |
| `Shards.BackfillShards` | internal/history/store/backfill.go:10-16 | The 256 two-digit names, in order |
| `Shards.HasLowerHexShardPrefix` | internal/history/store/plans.go:485-495 | True exactly for ids that start with two lower-case hexadecimal digits |
| `Shards.ExactlyOneShard` | internal/history/store/plans.go:485-495 | Such an id is in exactly one shard and any other id in none |
| `Plans.BuildUpsertPlan` | internal/history/store/plans.go:78-124 | Accepts exactly 1 to 500 valid chunks, all or none with valid vectors, deferred ones with a shard prefix; and which operation results |
| `Plans.ValidateChunk` | internal/history/store/plans.go:439-483 | The loops over the field lists accept exactly the valid chunks |
| `Plans.FiveHundredAtMost` | internal/history/store/plans.go:82-87 | More than 500 chunks, or none, refuse any batch, and up to 500 the number is no reason |
| `Plans.BackfillRows` | internal/history/store/backfill.go:129-203 | Decodes all rows in order, or fails exactly if one is bad |
| `Plans.RewriteKeepsColumns` | internal/history/store/plans.go:509-536 | Reading a row and writing it back keeps every other column up to empty and NULL |
| `Plans.StoredRowsRoundTrip` | internal/history/store/plans.go:497-536 | For rows an upsert stored the round trip is exact |
| `Oversized.LongCodexTurnIsRefused` | internal/history/source/codex/codex.go:455-475 | A Codex source with a turn over 8000 bytes has more than 1500 chunks and no upsert takes it |
| `Oversized.LongGeminiTurnIsRefused` | internal/history/source/gemini/gemini.go:398-418 | The same for a Gemini document |
| `Oversized.LongChatGPTTurnIsRefused` | internal/history/source/chatgpt/chatgpt.go:306-326 | The same for a ChatGPT export with an answered question of that length |
| `Oversized.LongFileStarvesTheRest` | internal/history/watch/forward.go:340-449 | With the store as sink, every scan of a tree where a file with over 500 chunks follows idle files fails, records nothing, and handles no file after it, however often it is repeated |
| `OversizedRuns.LongSourceIsTooLong` | internal/history/watch/forward.go:423-441 | A new file whose source has a Codex, Gemini or ChatGPT turn over 8000 bytes and passes both tests is such a file |
| `OversizedRuns.StarvesThroughRestarts` | cmd/history-ragd/main.go:196-203 | Through every sequence of scans of that tree, exits, restarts and crashes the settled state file stays as it is and only failed uploads of that file are made |
| `Plans.ValidateVector` | internal/history/store/plans.go:415-432 | Accepts exactly vectors of 3072 entries that are not all below 1e-10 |
| `Backfill.StoredCompletes` | internal/history/store/plans.go:146-170 | The remote-model statement completes exactly the rows of its batch |
| `Backfill.EmbedBatch` | internal/history/store/backfill.go:92-124 | One batch succeeds whenever its rows are readable and at most 500, and then completes exactly those rows |
| `Backfill.RunBackfillShard` | internal/history/store/backfill.go:82-127 | Only pending rows of the shard change; with readable rows, success exactly when n <= (M-1)*B, min(n, M*B) embedded, and nothing at all when both n and B exceed 500 |
| `BackfillRuns.RunKeeps` | internal/history/store/backfill.go:18-80 | In every interleaving, with any failures, each row is original or completed, each shard has one owner, and pending writes still match the table |
| `BackfillRuns.BadBatchFails` | internal/history/store/backfill.go:99-108 | A batch over 500 rows, or with an unreadable row, ends the shard as failed and writes nothing |
| `BackfillRuns.LastBatchFails` | internal/history/store/backfill.go:84-126 | The last batch a shard may have is written and counted, and ends it as failed |
| `BackfillRuns.BackfillCompletes` | internal/history/store/backfill.go:18-80 | If all shards succeed, exactly the pending rows of accepted ids are completed and exactly their number is reported |
| `BackfillRuns.InterleavingDoesNotMatter` | internal/history/store/backfill.go:18-80 | Two successful runs give the same table and total, whatever their concurrency, order and batches |
| `BackfillRuns.BackfillNeverDamages` | internal/history/store/backfill.go:18-80 | With the pool as the only writer, at every moment no other row or column differs and no more is reported than was embedded |
| `BackfillOutside.OutsideWritesAreKept` | internal/history/store/backfill.go:92-117 | Next to other writers that leave batches in flight alone, each row is as they last left it, up to the embedding of rows they left pending |
| `BackfillOutside.OutsideWritesKeptExactly` | internal/history/store/backfill.go:92-117 | Over every run: rows stay throughout as the others left them, up to embedding, if and only if every write back agreed with what they had left by then |
| `BackfillOutside.WriteKeepsExactly` | internal/history/store/backfill.go:113-117 | The same at one write: each row it writes is still there, and is either that row already or pending and embedded to it |
| `BackfillOutside.ReadRowComesBack` | internal/history/store/backfill.go:92-117 | Whatever happens between a worker's read and its write - outside writes, deletions, other workers - the row that was read comes back embedded |
| `BackfillOutside.DeletedRowComesBack` | internal/history/store/backfill.go:92-117 | A run that brings a deleted row back, for every table with a readable pending row in the first shard |
| `BackfillRuns.OneByOne` | internal/history/store/backfill.go:82-127 | One worker taking the shards in turn succeeds on every table whose shards have at most (M-1)*B readable pending rows, for B up to 500 |
| `BackfillRuns.OthersStayFresh` | internal/history/store/backfill.go:92-117 | A batch read by one worker is not changed by another worker's write |
| `BackfillRuns.Collect` | internal/history/store/backfill.go:61-79 | The report sums all shard counts, has no failures exactly if all succeeded, and is complete exactly with 256 results |
| `StatsCache.SpannerStore.ReadStats` | internal/history/store/store.go:214-267 | Under the lock: a cached answer inside its time to live, else a fresh one that becomes the cache and the next sample, else an error that leaves both |
| `StatsCache.ThreadRunsReadStats` | internal/history/store/store.go:214-267 | The interleaved steps of one thread alone are the contract of `ReadStats` |
| `StatsCache.PaceIsConsistent` | internal/history/store/store.go:243-255 | The rate is rows per 60 seconds since the sample and never negative; an estimate exists exactly while rows wait at a positive rate, and that rate over that time embeds exactly those rows |
| `StatsCache.SpannerStore.InvalidateStats` | internal/history/store/store.go:383-387 | The cache is empty afterwards |
| `StatsCache.SpannerStore.SetIndexed` | internal/history/store/retrieval.go:34-36 | Sets the index flag, to either value, and leaves the cache alone |
| `StatsCache.StatsAgreeWithQueries` | internal/history/store/store.go:210-268 | In every interleaving each answer's counts come from a version no older than any write that had returned when the call began, and cached answers are younger than the TTL |
| `StatsCache.InvalidateKeeps` | internal/history/store/store.go:383-387 | Because invalidation waits for the lock, no older query can be cached after it |
| `StatsCache.LaterCallsSeeTheWrite` | internal/history/store/store.go:78-116 | A write whose invalidation took effect at step i: every call begun at any later step, on any thread, is answered from that write's version or a later one |
| `StatsCache.FlagLagsExactly` | internal/history/store/retrieval.go:19-38 | An answer shows the index flag of the moment its statistics were made; it differs from the one in force if and only if it comes from the cache and the flag changed an odd number of times since; its mode differs from its own flag if and only if the flag changed an odd number of times between the two reads |
| `StatsCache.IndexFlagMayLag` | internal/history/store/store.go:335-370 | Both lags happen: a cached answer may deny an index that is there and claim one that is gone |
| `RankFusion.FusionDistance` | internal/history/store/plans.go:275-295 | The clamp never binds, distances are in [0,1), 0 exactly for first in both, below one half exactly for ids in both lists with small enough ranks |
| `RankFusion.ScoreOrderIsDistanceOrder` | internal/history/store/plans.go:290-294 | Score-descending order is distance-ascending order |
| `UploadQueue.Queue.Enqueue` | internal/history/uploadqueue/queue.go:66-88 | Invalid, repeated, conflicting, full or saved; memory changes only on a nil save |
| `UploadQueue.InvalidExactly` | internal/history/uploadqueue/queue.go:136-141 | What Enqueue turns away as invalid: missing id, source or payload, negative attempts, no next time, or a conflict with the item queued under its id |
| `UploadQueue.Queue.Ack` | internal/history/uploadqueue/queue.go:104-135 | Removes the item if the save returns nil |
| `UploadQueue.Queue.Retry` | internal/history/uploadqueue/queue.go:107-135 | Counts the attempt and sets the next time if the save returns nil |
| `UploadQueue.Queue.Ready` | internal/history/uploadqueue/queue.go:89-103 | Only items whose next time has come, in id order, at most a positive limit of them; all of them when the limit is not reached; and none left out before one returned |
| `UploadQueue.Listing` | internal/history/uploadqueue/queue.go:149-155 | The saved list holds exactly the items, in id order |
| `UploadQueue.DecodeItems` | internal/history/uploadqueue/queue.go:52-64 | Opening refuses too many, invalid or repeated items |
| `UploadQueue.SaveOpenRoundTrip` | internal/history/uploadqueue/queue.go:52-64 | What was saved is what opening reads |
| `UploadQueue.FailureIsContained` | internal/history/uploadqueue/queue.go:113-135 | A failed operation leaves memory unchanged and disk at the old or the attempted map |
| `UploadQueueRuns.CommandsAreOperations` | internal/history/uploadqueue/queue.go:66-135 | In a run, each write command does to memory and file what the queue's operation does |
| `UploadQueueRuns.SizesAreBounded` | internal/history/uploadqueue/queue.go:36-135 | In every run memory and file fit the capacity of the open queue, and every recoverable map the largest capacity used |
| `UploadQueueRuns.EnqueuedItemSurvives` | internal/history/uploadqueue/queue.go:66-135 | An item whose Enqueue wrote it survives failed writes, restarts and crashes until an Ack of it is attempted |
| `UploadQueueRuns.RepeatIsSafeExactly` | internal/history/uploadqueue/queue.go:72-77 | After any run, a nil for an item already queued makes it survive if and only if a settled write stored it and no later write that reached the directory lacked it |
| `UploadQueueRuns.RepeatAfterFailedAckIsLost` | internal/history/uploadqueue/queue.go:72-77 | First way to lose it, from every state: an Ack that failed behind its rename, a repeat, a plain restart |
| `UploadQueueRuns.RepeatAfterFailedEnqueueIsLost` | internal/history/uploadqueue/queue.go:72-77 | Second way, from every state: an Enqueue that failed behind its rename, a restart, a repeat, a crash |

## Left out

- JSON bytes, regular expressions, time and UTF-8 decoding: parsed records, token streams and integer times are inputs; strings are sequences of one-byte characters, and lower-casing is the ASCII part.
- File descriptors, link checks, ownership tests and the Windows variants: only file identity, content and success or failure remain.
- SHA-256, random names and decimal formatting are arbitrary functions; fresh temporary names come only from exclusive creation, and no claim is made that chunk ids do not collide.
- SQL text, DDL, query filters and the Spanner client: each statement is modelled by its meaning on a map of rows, with vectors over reals.
- That a parent chunk id names an emitted chunk: parts after the first point to the id of the whole content, which no multi-part chunk carries.
- The Antigravity and Claude app parsers and their eligibility branches: they add only easy cases.
- The extraction of file operations from shell commands and patches: the operations found in a record are inputs.
- The sorting and compaction of session names before they are compared: only membership is used afterwards.
- Authentication, cursors, configuration, HTTP, metrics, the debounce loop and the plain (not forward-only) producer.
- The scan mutex and polling loop of the producer: scans are steps of a run, one at a time.
- The race between the last check and a signal or rename by another process: only the order of this program's calls is decided here.
- Takeover.Controller.WaitForExit: the polling loop is bounded by the list of answers it is given, and a run that is cut off while polling is reported as still waiting, because its real bound is the clock.
- BackfillRuns.BackfillNeverDamages: the pool is the only writer of the table there; other writers are the subject of `BackfillOutside`.
- Backfill.RunBackfillShard: assumes that reads fill their LIMIT and that affected counts are exact; failing reads and writes are covered by the interleaved runs.
- UploadQueue.Queue.Ready: leaves out the order in which Go iterates the map, which the sort hides.
- UploadQueue.Queue.Enqueue: compares instants, where Go's `==` on `time.Time` also compares location and monotonic reading; two items that differ only there count as equal here.
- DurableRoot.Root.SaveQueue: assumes that the queue file's own name does not start with the prefix of its temporaries.
- ForwardGuarantees.RestartReloads: takes the state codec to return the state it was given, which `ForwardStore` shows to fail for path names that are not valid UTF-8; the next four rest on the same assumption.
- ForwardGuarantees.AcknowledgedExclusionsPersist: a path whose name the encoding changes loses its exclusion at the next load.
- ForwardGuarantees.UploadsAreForwardOnly: the same path may then be uploaded after a restart.
- ForwardBaseline.ExistingFilesAreNeverUploaded: likewise for an existing file with such a path.
- ForwardProgress.AcknowledgedIsNotResubmitted: progress under such a path is not found again after a load.
- Capture.InspectForwardEligibility: leaves out the Antigravity and Claude app branches, which test each record or message the way the Codex and ChatGPT branches do.
- Rounding in the rate and estimate of the statistics: they are computed over reals.
