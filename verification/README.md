# Affent: models and proofs

Affent is an agent runtime: a server (`affentserve`), a command-line client
(`affentctl`) and an evaluation driver (`affenteval`). This project models the
parts of it whose promises are about unbounded runs, inputs or files, and proves
those promises, or states exactly when they hold.

| file | what it models |
|---|---|
| `EventHistory.dfy` | the paged reader over a session's append-only event log, and the loop that chains pages |
| `ReplaySplice.dfy` | appends, fan-out, subscribing, page reads and live receives as interleaved steps of one connection |
| `CommandTurns.dfy` | concurrent workbench commands, the active-turn counter and the event stream |
| `LoopProtocol.dfy` | LOOP.md, its state record and its event log under update, activation, calibration, deletion, each as one step |
| `LoopResults.dfy` | what each of those requests accepts, stores and records |
| `LoopRaces.dfy` | the same requests taken apart into checks, reads and writes that interleave |
| `ChatFolds.dfy` | the buffered and the streamed chat answer as two folds over one event stream |
| `SshCodec.dfy` | the `openssh-key-v1` writer and reader (strings as in section 5 of RFC 4251, key blob as in section 4 of RFC 8709) |
| `ShellQuoting.dfy` | two shell quoters against a word reader for sections 2.2.1 to 2.2.3 of the POSIX Shell Command Language |
| `StringOrder.dfy`, `BoundedCandidates.dfy`, `Artifacts.dfy` | bounded selection, artifact listing, cursors, chunked reads |
| `ArtifactPaths.dfy` | where a cleaned path leads, and that none that is accepted leaves the directory |
| `AccountEnv.dfy` | the account environment store and its in-place filters |
| `MemorySizes.dfy` | byte sizes as text and the Go heap limit |
| `DotEnv.dfy` | the `.env` loader |
| `ToolAllowlist.dfy`, `ToolNames.dfy` | the allowlist parsers of the three binaries and the registry filter; tokens, aliases and switches |
| `RuntimeConfig.dfy`, `CapabilityResults.dfy` | capability resolution, the effective configuration, validation |
| `Folds.dfy`, `BatchSummary.dfy`, `BatchCounts.dfy` | the batch summary, and what its numbers are of the results |
| `QualityGates.dfy`, `GateResults.dfy` | quality gates, their metadata, the test whether any is in force, and what gates fail on |
| `Options.dfy`, `GoText.dfy` | shared helpers |

Code that changes state is modelled as classes and methods whose contracts tie the
new state to a specification function; the theorems are lemmas about those
functions. `dafny verify dfyconfig.toml` checks everything.

## Where the code and its promise part

Each of these is a theorem with its exact condition, not an assumption.

* **Released twice.** A finished command is released by its own call and again when
  the fan-out dispatches its turn end: it takes the event from the channel, logs it
  and only then releases. A call admitted before that second release has come can
  lose its place, even when no call runs and the channel is empty:
  `OverlappingCalls` has two calls running with the counter at one and their events
  interleaved. `ProtectedIffQuiescent` says exactly which admissions are safe.
* **Ids drift.** Live ids count events, replay ids count lines. After a torn last
  line (or a failed write) they differ and a client gets an event twice.
  `RestDecides` says which logs a client can safely reconnect to; one failed write is
  enough to spoil one (`FailureDecides`).
* **Checks that lapse.** Loop requests hold no lock. An update that was allowed to say
  running can be written after a deletion and bring LOOP.md back without an activation
  (`DeleteInBetween`), and two requests can take one event number (`SharedNumber`).
  `RunningIsAccountedIff` and `RunIsSoundIff` say which runs keep the promises.
* **A status without activation.** LOOP.md is running only after a ready activation,
  but the state record beside it can say so after a plain update
  (`FreshUpdateStatus`).
* **Two finish reasons.** On a turn end that does not decode, the buffered answer
  keeps the model's reason and the stream says "stop" (`SameFinishIff`). A turn that
  ends in an error nobody put into words is an error to the buffered answer only
  (`EndErrorIsBufferedOnly`); `SameErrorIff` says when the two report the same error.
* **Cursors that do not read back.** An artifact whose name holds a percent sign or
  ends in a space is listed under a cursor the next request reads as something else
  (`CursorReadsBackIff`), so paging can skip, repeat or stop. `PagingIff` says exactly
  for which names it does not, `ListsAllIff` for which directories.
* **A store that locks itself out.** The settings writer checks the size before it
  adds the line end. An encoding of exactly the limit is answered as saved and
  never read again (`StaysReadableIff`, `ExactFitLocksOut`, `LockedOut`).
* **Wrapped arithmetic.** SSH string lengths wrap at 32 bits (`ReadableIff`) and
  three times the memory wraps at 64, which gives "6442450944g" a limit of 512 GiB
  (`GoMemIff`, `LimitCanBeWrong`).
* **Counted once or twice.** A domain listed twice by a scenario counts twice in the
  tally and once in its own totals (`DomainCountsAgreeIff`).
* **A name that depends on order.** When scenarios tie for the most tokens, the first one
  names the maximum (`TieDecidesName`, `NameSurvivesIff`).
* **Limits of `.env`.** A line that fills the scanner's 64 KiB or holds a NUL is not
  read back (`LoadsIff`, `QuotedLineLoadsIff`), and a key that is the word export, with a
  blank behind it, is lost (`DefinitionIs`).

## Model

| member | source | states |
|---|---|---|
| EventHistory.ReadHistoryPage | cmd/affentserve/events.go:374-443 | the reading loop computes the page specification: records, next cursor, whether more remain, counts of bad lines, schema, and both refusals |
| EventHistory.PageIsPrefix | cmd/affentserve/events.go:374-443 | a page is the longest run of events past the cursor that fits, `hasMore` holds exactly when one is left over, and page plus what follows the next cursor is what followed the old cursor |
| EventHistory.PageReport | cmd/affentserve/events.go:374-443 | a page's counts are the numbers of oversized and of invalid lines it took in, its schema is the one announced last among the lines it saw, and it is refused for its schema exactly when one of those announces an unsupported one |
| EventHistory.FollowPagesComplete | cmd/affentserve/events.go:291-372 | following pages with any limit ends and gives every event past the cursor once, in order; served in full exactly for valid cursors over supported logs |
| EventHistory.CursorAheadAgrees | cmd/affentserve/events.go:193-213 | a page read refuses exactly the cursors the up-front replay check refuses, unless it meets an unsupported schema first |
| EventHistory.ReplaySessionEvents | cmd/affentserve/events.go:215-232 | the replay loop sends a prefix of the events past the cursor, all of them exactly when it succeeds, and leaves its cursor at the last one sent |
| EventHistory.PrefixIsRange | cmd/affentserve/events.go:215-232 | however short a replay is cut, what was sent is exactly the events up to its cursor |
| ReplaySplice.StepKeeps | cmd/affentserve/events.go:96-141 | every step of append, fan-out, subscribe, page read, receive and disconnect keeps the alignment, order and no-gap invariant |
| ReplaySplice.ReplayThenLive | cmd/affentserve/events.go:96-141 | over every interleaving the client gets lines past its cursor in increasing order under their own numbers, with a gap exactly where its buffer overflowed past the replay |
| ReplaySplice.SentIsTheLog | cmd/affentserve/events.go:215-232 | without overflow and oversized lines, what was sent is the log itself from the cursor to the last event sent |
| ReplaySplice.IdleClientIsUpToDate | cmd/affentserve/sessions.go:1214-1240 | a live client with nothing in flight has every event past its cursor but those dropped on overflow |
| ReplaySplice.ReplayGoesLive | cmd/affentserve/events.go:215-232 | from any point of a replay of a supported log some number of pages, each written in full, sends exactly the events past the cursor and goes live |
| ReplaySplice.ClientCatchesUp | cmd/affentserve/events.go:96-141 | from every point of every run a client that is still connected can, just by being written to, be brought to a live state with an empty buffer and every event past its cursor but those dropped on overflow |
| ReplaySplice.ClosedOnlyBy | cmd/affentserve/events.go:96-141 | a step ends a connection exactly when the client leaves, a page is refused or not written in full, or a live event past the replay cannot be delivered |
| ReplaySplice.FewEventsAreKept | cmd/affentserve/sessions.go:1214-1268 | nothing is dropped before the buffer has had to hold more than 256 events |
| ReplaySplice.FailedWriteIsOffered | cmd/affentserve/sessions.go:1242-1268 | an event whose write failed is offered all the same, under the next id, and is not in the log |
| ReplaySplice.DriftDuplicates | cmd/affentserve/sessions.go:1242-1268 | once ids are ahead of line numbers, a concrete run sends one event under two ids |
| ReplaySplice.RestDecides | cmd/affentserve/sessions.go:1242-1268 | with nothing in flight, all failure-free continuations for all cursors keep order and numbering if and only if the next id is the line count and the last line is whole |
| ReplaySplice.IdsStayAhead | cmd/affentserve/sessions.go:1242-1268 | over every run, failed writes included, ids never fall behind line numbers |
| ReplaySplice.OpenDecides | cmd/affentserve/sessions.go:978-1013 | so after opening a log they do if and only if it did not end in a torn line |
| ReplaySplice.FailureDecides | cmd/affentserve/sessions.go:1242-1268 | after one failed write some failure-free continuation breaks the promise |
| CommandTurns.Session.RunWorkbenchCommand | cmd/affentserve/session_commands.go:117-200 | for a call with nothing running meanwhile: busy exactly when a turn is active; on every exit of an admitted call the counter is back where it was, and as much of its block as the channel has room for was published |
| CommandTurns.Session.Dispatch | cmd/affentserve/sessions.go:1242-1268 | dispatching logs the oldest event and releases a turn when it is a turn end |
| CommandTurns.StepKeepsGood | cmd/affentserve/session_commands.go:117-200 | every step of any number of concurrent calls and of the fan-out, which takes, logs and releases in separate steps, keeps exclusion, counter and bracketing, provided admissions are quiescent |
| CommandTurns.CounterIsExact | cmd/affentserve/session_commands.go:117-200 | the counter is 0 or 1 and is 1 exactly while a call runs whose turn end is not yet published or not yet released by the fan-out |
| CommandTurns.CalmRunsAreExclusive | cmd/affentserve/session_commands.go:117-200 | over every run whose admissions find every earlier call done and no turn end in the channel or in the fan-out's hands, one call runs at a time, the log is complete blocks and at most one open block, and no event is dropped |
| CommandTurns.CalmRunsAreOrdered | cmd/affentserve/session_commands.go:117-200 | in what such a run publishes and in what it logs, a tool's result comes right after its own request, the request after its user's message, the message after its turn's start, and a turn starts only after a turn's end |
| CommandTurns.ProtectedIffQuiescent | cmd/affentserve/sessions.go:1793-1807 | the counter keeps other calls out for as long as an admitted call publishes if and only if at its admission every earlier call is done and none of their turn ends is in the channel or in the fan-out's hands |
| CommandTurns.OverlappingCalls | cmd/affentserve/sessions.go:1242-1268 | a concrete run in which a call is admitted while none runs, the channel is empty and a turn end is being dispatched, and which ends with two calls at once and a log that is not bracketed |
| CommandTurns.BracketedNeighbours | cmd/affentserve/session_commands.go:117-200 | in a bracketed log only a turn end is followed by another call's event |
| LoopProtocol.LoopStore.WriteProtocol | cmd/affentserve/session_loop_protocol.go:195-283 | writing or activating changes document, state and event log as specified, with every rejection |
| LoopProtocol.LoopStore.RecordServerEvent | cmd/affentserve/session_loop_protocol.go:363-429 | one event is appended and the state stamped with its number, status and update count |
| LoopProtocol.LoopStore.Clear | cmd/affentserve/session_loop_protocol.go:299-329 | deletion removes the document and records a disabled state, or does nothing where there is nothing |
| LoopProtocol.LoopStore.AnswerIfReady | cmd/affentctl/cmd_chat.go:602-628 | a message that is not blank is recorded as an answer exactly while a draft has an open question |
| LoopProtocol.LoopStore.ActivateIfReady | cmd/affentctl/cmd_chat.go:666-693 | the client activates exactly a calibrated, complete, maintainable draft |
| LoopProtocol.RunKeepsConsistent | cmd/affentserve/session_loop_protocol.go:363-429 | over every run of whole requests the event count is the last event's number, updates, questions and answers count their events, answers stay within questions, and the status is never empty |
| LoopProtocol.OnlyActivationStarts | cmd/affentserve/session_loop_protocol.go:285-297 | a whole request makes LOOP.md running only if it is an activation that passed the readiness check, and every such activation does |
| LoopProtocol.RunningWasActivated | cmd/affentserve/session_loop_protocol.go:195-329 | over any run of whole requests from a stopped loop, a running LOOP.md goes back to a ready activation since which it has been running throughout |
| LoopResults.AcceptedIff | cmd/affentserve/session_loop_protocol.go:195-329 | which requests go through, told from the documents and counts before them |
| LoopResults.RepairReadyIff | internal/loopstate/file.go:365-424 | repairing makes a loop ready exactly when it was, or when it is a draft without answers and its document holds a pair for each question and at least one |
| LoopResults.ActivationStores | internal/loopstate/file.go:310-343 | an activation stores the submitted document, or the saved one where the submitted one names no status, with no line changed but the first status line, which says running |
| LoopResults.DocumentAfter | cmd/affentserve/session_loop_protocol.go:195-329 | what every request leaves of the document, and that one that does not go through leaves it alone |
| LoopResults.EventsAfter | cmd/affentserve/session_loop_protocol.go:363-429 | a request that goes through logs one event of its own kind under the next number, behind nothing but repaired calibration |
| LoopResults.StateAfter | cmd/affentserve/session_loop_protocol.go:363-429 | the status and the feed flag of the state record after every kind of request |
| LoopRaces.RunningIsAccountedIff | cmd/affentserve/session_loop_protocol.go:195-329 | over any interleaving of the requests' steps, that holds at every point if and only if no update that says running is written after LOOP.md stopped running, that is, after its guard lapsed |
| LoopRaces.ActivationWasReady | cmd/affentserve/session_loop_protocol.go:217-239 | every activation about to write passed its own readiness check earlier in the run |
| LoopRaces.WritesAtOnceAreFresh | cmd/affentserve/session_loop_protocol.go:195-283 | it holds in every run in which each write directly follows its check |
| LoopRaces.DeleteInBetween | cmd/affentserve/session_loop_protocol.go:285-329 | a concrete race in which a deletion falls between an update's check and its write |
| LoopRaces.RunIsSoundIff | internal/loopstate/state.go:699-745 | over any interleaving, events stay numbered without gaps and the state record accounts for the events stored, if and only if every event is logged while its number is the next one and every record is stored in log order over the counters it was made from |
| LoopRaces.SharedNumber | internal/loopstate/state.go:699-745 | two requests that count before either appends put one number on two events |
| LoopRaces.UpdateAlone | cmd/affentserve/session_loop_protocol.go:253-283 | without anything in between, an update's steps have the effect of the whole update |
| LoopRaces.DeleteAlone | cmd/affentserve/session_loop_protocol.go:299-329 | and a deletion's that of the whole deletion |
| LoopRaces.ActivationAlone | cmd/affentctl/cmd_chat.go:666-693 | and a client activation's that of the whole activation |
| LoopRaces.ServerActivationAlone | cmd/affentserve/session_loop_protocol.go:217-239 | and a server activation's, once the calibration record is repaired |
| LoopRaces.QuestionAlone | internal/loopstate/file.go:763-797 | and a question's |
| LoopRaces.AnswerAlone | internal/loopstate/file.go:799-833 | and an answer's |
| LoopProtocol.RepairKeeps | internal/loopstate/file.go:365-424 | repairing calibration from the document leaves the document alone and never answers more than was asked |
| LoopProtocol.DeleteDisables | cmd/affentserve/session_loop_protocol.go:299-329 | deleting anything that exists leaves status disabled and no document, and keeps the calibration counts |
| LoopProtocol.FreshUpdateStatus | internal/loopstate/file.go:1010-1065 | after a session's first update the state record says running exactly when the document's last status line does or there is none, though LOOP.md is not running |
| LoopProtocol.FreshUpdateCanSayRunning | internal/loopstate/file.go:1010-1065 | a first document of one line of text is one for which it does |
| LoopProtocol.StateTurnsRunning | cmd/affentserve/session_loop_protocol.go:363-429 | otherwise the state record turns running only by a ready activation, or by a question before anything exists |
| ChatFolds.BufferChatCompletion | cmd/affentserve/chat_completions.go:268-358 | the buffered drain computes its fold over the turn's payloads |
| ChatFolds.StreamChatCompletion | cmd/affentserve/chat_completions.go:429-605 | the streaming drain computes its fold, chunk by chunk |
| ChatFolds.OtherTurnsChangeNothing | cmd/affentserve/chat_completions.go:380-388 | an event of another turn, anywhere in the stream, changes neither answer |
| ChatFolds.TurnKeepsItsEvents | cmd/affentserve/chat_completions.go:380-388 | an event of the turn counts where it stands, and nothing after the turn's end does |
| ChatFolds.SameReasoningAndTokens | cmd/affentserve/chat_completions.go:474-601 | both paths give the same reasoning and token totals, and the stream carries every delta, for all payloads |
| ChatFolds.SameFinishIff | cmd/affentserve/chat_completions.go:369-376 | the finish reasons agree exactly when the turn end decodes or the last reason the model gave, other than tool calls, is none or "stop" |
| ChatFolds.FinishIs | cmd/affentserve/chat_completions.go:369-376 | both reasons, for every turn end: "length" when it ran out of steps, the model's last reason when it completed, "stop" otherwise |
| ChatFolds.TotalsAreSums | cmd/affentserve/chat_completions.go:268-358 | token totals are the sums over all usage events, and the reasoning is all the model thought |
| ChatFolds.FinishCanDiffer | cmd/affentserve/chat_completions.go:268-358 | a concrete stream where they differ |
| ChatFolds.StreamShape | cmd/affentserve/chat_completions.go:429-605 | a finished stream is a role chunk, middle chunks, one finish chunk, the usage chunk if asked for, and the end mark |
| ChatFolds.SuffixIff | cmd/affentserve/chat_completions.go:268-358 | the buffered content is a suffix of the streamed content exactly when the last replacing message text was |
| ChatFolds.MatchingDonesGiveSuffix | cmd/affentserve/chat_completions.go:268-358 | so it is whenever each done text equals its deltas |
| ChatFolds.SameErrorIff | cmd/affentserve/chat_completions.go:268-601 | for every finished turn the buffered error is the last error streamed exactly when the last fatal failure has a message, or the last message any fatal failure has is what the turn end supplies |
| ChatFolds.EndErrorIsBufferedOnly | cmd/affentserve/chat_completions.go:268-358 | a turn that just ends in an error: an error in the buffered answer, none in the stream, which says "stop" |
| SshCodec.StringRoundTripIff | cmd/affentserve/account_settings.go:1004-1021 | reading a written string gives it back with the rest exactly under the stated 32-bit length condition |
| SshCodec.ReadBackOrRefused | cmd/affentserve/account_settings.go:1004-1014 | a string that fits is read back or refused, never misread |
| SshCodec.MarshalPrivateKey | cmd/affentserve/account_settings.go:965-1002 | the buffer writes build the container payload; a wrong key size is refused |
| SshCodec.PrivateSectionReadsBack | cmd/affentserve/account_settings.go:965-1002 | the private section reads back field by field, its length is divisible by eight, and its padding is fewer than eight bytes 1, 2, 3, ... |
| SshCodec.PayloadReadsBack | cmd/affentserve/account_settings.go:965-1002 | read with the reader's own steps, the whole payload yields no cipher, no key derivation, one key, this public key and, in the private section, both check copies, this public key, this private key and the trimmed comment, then only padding |
| SshCodec.AcceptedIsWellFormed | cmd/affentserve/account_settings.go:905-951 | the reader accepts nothing but the container format with one key and a named key type, and answers with the line of the blob in it |
| SshCodec.PublicKeyLineFields | cmd/affentserve/account_settings.go:953-963 | the public key line has the key type, the encoded blob of this key and the trimmed comment as its fields, in this order |
| SshCodec.PublicKeyReadsBackIff | cmd/affentserve/account_settings.go:905-963 | the public key derived from a written private key is the line the public key writer prints, exactly when the private part's length does not upset the reader |
| SshCodec.ReadableIff | cmd/affentserve/account_settings.go:905-936 | which lengths do: only some within 75 bytes below a multiple of 2^32 |
| SshCodec.LongCommentNotReadBack | cmd/affentserve/account_settings.go:905-936 | a key with a comment just short of 4 GiB is written and not read back |
| ShellQuoting.QuotedReadsBack | cmd/affentserve/account_settings.go:1079-1084 | for every text, the quoted form reads as one word equal to it and reading stops right after |
| ShellQuoting.QuotersAgree | cmd/affentctl/cmd_sandbox.go:1811-1813 | both quoters denote the same word, and neither quotes two texts alike |
| ShellQuoting.PrintedLineReadsBack | cmd/affentctl/cmd_sandbox.go:1796-1808 | a line of words, each plain text, quoted text by either quoter or one after the other, reads back as exactly what they stand for |
| ShellQuoting.ExportReadsBack | cmd/affentctl/cmd_sandbox.go:1796-1800 | a printed export line reads back as the command and the assignment, whatever the value |
| ShellQuoting.ExportText | cmd/affentctl/cmd_sandbox.go:1796-1800 | that line is the text the program puts together |
| ShellQuoting.GitSshCommandReadsBack | cmd/affentserve/account_settings.go:773-782 | the command given to git reads back as ssh with the key at exactly its path and the options |
| ShellQuoting.GitSshText | cmd/affentserve/account_settings.go:773-782 | that command is the text the program puts together |
| BoundedCandidates.Candidates.Add | cmd/affentserve/bounded_candidates.go:5-19 | adding with a cap keeps exactly the smallest names; a cap of zero or less changes nothing |
| BoundedCandidates.EvictionLosesNothing | cmd/affentserve/bounded_candidates.go:5-19 | an evicted name never has to come back: the smallest of what was kept and one more are the smallest of all seen |
| BoundedCandidates.SmallestIsPrefix | cmd/affentserve/bounded_candidates.go:21-28 | the kept names in order are the first names of everything sorted |
| BoundedCandidates.SmallestIsUnique | cmd/affentserve/bounded_candidates.go:5-19 | the result does not depend on the order of arrival |
| Artifacts.ListArtifactNames | cmd/affentserve/artifacts.go:140-182 | the listing is the sorted prefix of the names past the cursor, with `hasMore` exact, whatever the directory order; it fails exactly on a read error |
| Artifacts.ListsAllIff | cmd/affentserve/artifacts.go:64-113 | chained pages of every size list the whole directory once, in order, if and only if the cursor of every name but the last is accepted and stands between the name and the next |
| Artifacts.PagingIff | cmd/affentserve/artifacts.go:264-289 | for a name, every directory of it and a later name is listed so if and only if the name has no percent sign and does not end in a space |
| Artifacts.CursorReadsBackIff | cmd/affentserve/artifacts.go:264-289 | a listed path reads back as itself exactly when its name has no percent sign and does not end in a space |
| Artifacts.CleanShortens | cmd/affentserve/artifacts.go:264-289 | cleaning a path never lengthens it |
| ArtifactPaths.CleanKeepsPlace | cmd/affentserve/artifacts.go:264-289 | walked from where it starts, a cleaned path leads to the same place as the path |
| ArtifactPaths.AcceptedStaysInside | cmd/affentserve/artifacts.go:264-289 | whatever text a request sends, a path that is accepted begins with the directory's three names, goes on with at least one more, and has no element that leads up or nowhere |
| ArtifactPaths.EscapedReadsBack | cmd/affentserve/artifacts.go:264-289 | every byte string sent as percent escapes is decoded as itself |
| ArtifactPaths.NamesBeyondIs | cmd/affentserve/artifacts.go:140-182 | a name is a candidate exactly when an entry that is no link or directory has it and its path is past the cursor |
| Artifacts.PlainNamesAreListed | cmd/affentserve/artifacts.go:64-138 | a directory of such names is always listed so |
| Artifacts.PercentRepeatsAPage | cmd/affentserve/artifacts.go:64-138 | a concrete directory whose second page starts no later than the first |
| Artifacts.ReadChunk | cmd/affentserve/artifacts.go:240-261 | one read answers the clamped range, the next offset and whether more remains |
| ArtifactPaths.ChunkFits | cmd/affentserve/artifacts.go:240-261 | a chunk is as long as asked for, as far as the content reaches, and holds the content from its offset on |
| Artifacts.ChunksAreTheContent | cmd/affentserve/artifacts.go:240-261 | chained chunks of any size are the rest of the content |
| AccountEnv.NormalizeInPlace | cmd/affentserve/account_settings.go:662-680 | the in-place filter computes the normalized list and overwrites nothing unread |
| AccountEnv.RemoveInPlace | cmd/affentserve/account_settings.go:540-556 | the deleting filter leaves all entries but those of the name |
| AccountEnv.FirstEntryWins | cmd/affentserve/account_settings.go:662-680 | a lookup after normalizing finds the first entry in the file whose trimmed name matches, for every name |
| AccountEnv.FirstEntryIsKept | cmd/affentserve/account_settings.go:662-680 | of that entry everything is kept, but of a value over 32 KiB only the front |
| AccountEnv.NormalizeNameIff | cmd/affentserve/account_settings.go:662-680 | a name is read as a valid name exactly when it is that name with white space around it |
| AccountEnv.TidyIffNormal | cmd/affentserve/account_settings.go:662-680 | a list is left alone exactly when its names are valid and unique and its values within the cap |
| AccountEnv.NormalizingTwice | cmd/affentserve/account_settings.go:662-680 | normalizing is idempotent |
| AccountEnv.Settings.SetEnv | cmd/affentserve/account_settings.go:510-538 | setting computes the new file and the outcome, with every error |
| AccountEnv.Settings.DeleteEnv | cmd/affentserve/account_settings.go:149-166 | deleting computes the new file and the outcome |
| AccountEnv.SetChangesOnlyItsName | cmd/affentserve/account_settings.go:510-538 | a saved set stores its value and leaves every other name; a failed one changes nothing; it succeeds under exactly the stated guards and never grows the list past 128 |
| AccountEnv.DeleteChangesOnlyItsName | cmd/affentserve/account_settings.go:540-556 | a saved delete removes its name and leaves every other |
| AccountEnv.OutcomeIs | cmd/affentserve/account_settings.go:510-660 | how every set and delete ends: the first guard to fail in the code's order, then the size of the list to write, then the disk; past all of them it is saved |
| AccountEnv.RunRefinesMap | cmd/affentserve/account_settings.go:510-556 | over any run from any file, what can be read is the map the saved requests make |
| AccountEnv.RunKeepsTidy | cmd/affentserve/account_settings.go:569-680 | over any run names stay unique and valid, values within the cap, and the list within 128 or its starting length |
| AccountEnv.WriteIff | cmd/affentserve/account_settings.go:608-660 | a tidy list is saved exactly when its encoding fits and the disk takes it, is stored as it is, and reads back exactly when its encoding is shorter than the limit |
| AccountEnv.StaysReadableIff | cmd/affentserve/account_settings.go:510-556 | a set or delete leaves a readable file readable unless it passes its guards, the disk takes the write, and the list it is about to write encodes to exactly the limit |
| AccountEnv.LockedOut | cmd/affentserve/account_settings.go:569-606 | a file that cannot be read is never changed again |
| AccountEnv.ExactFitLocksOut | cmd/affentserve/account_settings.go:608-660 | a readable file with seven values of 32 KiB, measured by the length of the indented encoding, and an eighth value within its cap that is saved and then cannot be read |
| MemorySizes.SizeReadsBack | cmd/affentctl/cmd_doctor.go:381-391 | parsing a printed size gives it back for every positive int64 whose printed count a float64 holds; others are refused |
| MemorySizes.PrintedParses | cmd/affentctl/cmd_sandbox.go:1368-1413 | a number with its unit parses as their product, and zero or less as nothing |
| MemorySizes.EveryUnitParses | cmd/affentctl/cmd_sandbox.go:1368-1413 | so does a number with any of the ten units, in either case |
| MemorySizes.FractionIsCut | cmd/affentctl/cmd_sandbox.go:1368-1413 | a fraction of a byte is cut off, and zero or less is refused |
| MemorySizes.GoMemIff | cmd/affentctl/cmd_sandbox.go:1344-1354 | for valid memory the limit is three quarters rounded down exactly when three times it fits an int64 |
| MemorySizes.SmallMemoryHasNoLimit | cmd/affentctl/cmd_sandbox.go:1344-1354 | memory gets no limit exactly when three quarters of it are less than 64 MiB |
| MemorySizes.LimitIsThreeQuarters | cmd/affentctl/cmd_sandbox.go:1344-1424 | the emitted text is never empty and, parsed by the same rules, is within one MiB below three quarters of the memory |
| MemorySizes.LimitCanBeWrong | cmd/affentctl/cmd_sandbox.go:1344-1424 | "6442450944g" passes validation and gets a limit a ninth of three quarters of it |
| DotEnv.Process.LoadDotEnvFile | cmd/affentctl/dotenv.go:40-79 | the scanning loop sets names as specified and stops with the stated error |
| DotEnv.Process.LoadDotEnv | cmd/affentctl/dotenv.go:27-38 | the files are loaded in order up to the first failure |
| DotEnv.FirstDefinitionWins | cmd/affentctl/dotenv.go:27-79 | every name keeps its value if set, else gets its first definition across the files; nothing else appears, even when loading fails |
| DotEnv.LoadsIff | cmd/affentctl/dotenv.go:40-79 | a file loads in full exactly when its lines fit the scanner and the definitions taken hold no NUL |
| DotEnv.SecondLoadChangesNothing | cmd/affentctl/dotenv.go:27-79 | a second load changes nothing and ends the same way |
| DotEnv.QuotedLineParses | cmd/affentctl/dotenv.go:40-79 | `k="v"` parses as k and v for every v and every plain k |
| DotEnv.DefinitionIs | cmd/affentctl/dotenv.go:40-79 | a key, exported or not, and a value, with white space around either, define the key as the value without its quotes; only the key "export" with a blank behind it is lost |
| DotEnv.NothingDefined | cmd/affentctl/dotenv.go:40-79 | blank lines, comments and lines without an equals sign define nothing |
| DotEnv.PaddedLine | cmd/affentctl/dotenv.go:40-79 | white space around a line, a carriage return among it, means nothing |
| DotEnv.UnquoteIff | cmd/affentctl/dotenv.go:40-79 | one pair of matching quotes of either kind is taken off, and nothing else is |
| DotEnv.LinesJoin | cmd/affentctl/dotenv.go:40-79 | a text falls into its lines |
| DotEnv.QuotedLineLoadsIff | cmd/affentctl/dotenv.go:40-79 | loading it sets k to v exactly when the line fits and has no NUL |
| ToolAllowlist.ParseAllowlist | cmd/affentctl/common.go:1030-1084 | the parsing loop computes the requested list, and the allowed set is its members |
| ToolNames.TokensJoin | cmd/affentctl/common.go:1030-1084 | what stands before and after a separator is read on its own |
| ToolNames.PlainIsOneToken | cmd/affentctl/common.go:1030-1084 | text without a separator is one token, trimmed |
| ToolNames.ListReadsBack | cmd/affentctl/common.go:1030-1084 | names joined by commas read back as these names |
| ToolNames.BrowserIsFamily | cmd/affentserve/config.go:593-642 | the alias "browser" stands for exactly the known tools whose names begin with "browser_" |
| ToolNames.WebIsFamily | cmd/affentserve/config.go:593-642 | the alias "web" stands for exactly the known tools whose names begin with "web_" |
| ToolNames.ReadonlyIsPart | cmd/affentctl/common.go:1086-1092 | the read-only workspace is the workspace without the shell and the two tools that write |
| ToolAllowlist.RequestedIsDistinct | cmd/affentctl/common.go:1030-1084 | the requested list has no duplicates and holds exactly the non-blank names mentioned |
| ToolAllowlist.RequestedInOrder | cmd/affentctl/common.go:1030-1084 | it stands in order of first mention |
| ToolAllowlist.EnabledRuntimeTools | cmd/affenteval/main.go:6810-6864 | the third parser computes its enabled set, stopping at "all" |
| ToolAllowlist.EnabledIsRequested | cmd/affenteval/main.go:6810-6864 | it enables what the others request, and its own marker exactly when a source tool is among them |
| ToolNames.SwitchesEnable | cmd/affenteval/main.go:6810-6838 | what the command-line switches alone enable |
| ToolAllowlist.ParsersAgree | cmd/affentserve/config.go:593-642 | without "all", two parsers request the same list and the third enables the same set apart from its marker |
| ToolAllowlist.AllowedDifference | cmd/affentctl/common.go:1098-1103 | on every list, affentctl allows what affentserve allows and, with "all", exactly its own two tools more |
| ToolAllowlist.Registry.Remove | internal/agent/tool.go:106-120 | removing takes the tool out of map and order alike |
| ToolAllowlist.Registry.FilterEvalModeTools | cmd/affentctl/common.go:1152-1209 | filtering leaves exactly the allowed registered tools in their order and fails exactly when a requested tool was not there, judged on the registry before |
| ToolNames.SwitchedToolsStay | cmd/affentctl/common.go:1152-1190 | with nothing requested a known tool stays exactly when the switch of its family, and its own if it has one, is on |
| ToolNames.ServerToolsStay | cmd/affentctl/common.go:1152-1190 | and what a server provides exactly when servers are on |
| RuntimeConfig.EffectiveResolvesAlike | cmd/affentserve/config.go:535-591 | the effective configuration resolves to the same capabilities |
| RuntimeConfig.EffectiveIsIdempotent | cmd/affentserve/config.go:681-705 | taking it twice changes nothing more |
| RuntimeConfig.FamiliesAreClosed | cmd/affentserve/config.go:535-591 | in eval mode a resolved web search has web and a resolved screenshot has the browser |
| CapabilityResults.EvalCapabilityIff | cmd/affentserve/config.go:535-591 | in eval mode a capability is there exactly when a tool asked for needs it, or it was switched on by hand and its family is there |
| CapabilityResults.PlainCapabilityIff | cmd/affentserve/config.go:535-591 | outside eval mode it is what its switch says, within its family |
| CapabilityResults.AllToolsResolve | cmd/affentserve/config.go:535-591 | with all tools every capability is there; eval mode has no loops and no schedule |
| CapabilityResults.ValidIff | cmd/affentserve/config.go:835-924 | validation passes exactly when none of 22 faults applies, and the fault it reports applies |
| RuntimeConfig.EffectiveKeepsValidity | cmd/affentserve/config.go:835-924 | a configuration is valid exactly when its effective one is and it sets nothing for a family eval mode leaves off |
| BatchSummary.Summary.Add | cmd/affenteval/main.go:1371-1777 | adding one result updates the modelled counters and tallies as specified |
| BatchSummary.SummarizeBatchResults | cmd/affenteval/main.go:1350-1356 | the summary is the fold over all results |
| BatchCounts.PassesAndFailures | cmd/affenteval/main.go:1371-1377 | the total is the number of results, passed of those that are ok, failed of the others |
| BatchCounts.EndsAreCounted | cmd/affenteval/main.go:1371-1777 | each end counter is the number of results that ended so |
| BatchCounts.VerifierIsCounted | cmd/affenteval/main.go:1371-1777 | runs, passes, failures and truncations are the numbers of results whose verifier ran and did so |
| BatchCounts.UsageIsSummed | cmd/affenteval/main.go:1371-1777 | durations, tool calls, tool errors and tokens are the sums over the results |
| BatchCounts.ErrorsAreSummed | cmd/affenteval/main.go:1371-1777 | errors and repairs, in all and of each kind, are the sums over the results; a blank repair is unknown |
| BatchCounts.NamesAreTallied | cmd/affenteval/main.go:1819-1847 | every tally of suites, domains and capabilities is the number of mentions over the results |
| BatchCounts.PassesAreTallied | cmd/affenteval/main.go:1819-1847 | the pass tallies are the mentions of the results that are ok |
| BatchCounts.DomainIsSummed | cmd/affenteval/main.go:1849-1885 | a domain's scenarios, passes and failures are the numbers of results that declare it |
| BatchCounts.DomainCostIsSummed | cmd/affenteval/main.go:1849-1885 | its costs are the sums over those results |
| BatchSummary.SummaryBalances | cmd/affenteval/main.go:1371-1847 | passes and failures, the five ways to end and the verifier counts make up their totals, error counts are the sums of their kinds, and every domain and capability splits into passes and failures |
| BatchSummary.DomainCountsAgreeIff | cmd/affenteval/main.go:1849-1885 | a domain's own scenario count is at most its tally, and equal exactly when no result declares it twice |
| BatchSummary.OrderDoesNotMatter | cmd/affenteval/main.go:1350-1356 | every permutation of the results has the same counters, maxima and tallies |
| BatchSummary.NameSurvivesIff | cmd/affenteval/main.go:1685-1693 | the scenario named with the token maximum survives every permutation if and only if no result uses any tokens or all results that use the most carry one name |
| BatchSummary.TieDecidesName | cmd/affenteval/main.go:1685-1693 | two results that tie, whose order decides the name |
| QualityGates.QualityGateFailures | cmd/affenteval/main.go:2835-2944 | the evaluator finds exactly the failures of the specification, over all 49 gates, seven named maps and four required lists |
| GateResults.LowRates | cmd/affenteval/main.go:2857-2900 | on a batch of results, the pass, completion and verifier rates are those of the results themselves |
| GateResults.HighAverages | cmd/affenteval/main.go:2857-2927 | so are the tool error rate and the averages of tool calls and tokens |
| GateResults.HighErrors | cmd/affenteval/main.go:2857-2927 | and that of runtime errors |
| GateResults.MeasuredFails | cmd/affenteval/main.go:2833-2856 | such a gate fails, from below, when there is nothing to measure or too little, from above, when there is something and too much |
| GateResults.CostlyScenarioFails | cmd/affenteval/main.go:2928-2934 | the token limit of a scenario fails exactly when some result used more |
| GateResults.RequiredNameMissing | cmd/affenteval/main.go:2874-2883 | a required capability or domain is missing exactly when no result mentions it |
| GateResults.CapabilityIsMeasured | cmd/affenteval/main.go:5394-5483 | the rate asked of each capability is the part of its mentions by results that are ok |
| GateResults.DomainIsMeasured | cmd/affenteval/main.go:5484-5560 | and so is that asked of each domain |
| GateResults.DomainOverLimit | cmd/affenteval/main.go:5620-5685 | a domain fails its limits exactly when no result declares it or those that do cost too much |
| QualityGates.MetadataKeepsVerdict | cmd/affenteval/main.go:4194-4213 | recorded thresholds give the verdict of the configured ones, so nil and negative ones are inert |
| QualityGates.HasThresholdsIff | cmd/affenteval/main.go:5303-5364 | without gates no summary fails, and with any gate in force some counters, reachable or not, fail |
| QualityGates.PlausibleFailureIff | cmd/affenteval/main.go:2835-2944 | some summary without negative counters and with no part above its whole fails if and only if a gate in force is not a share allowed to be whole, or a name is required; forced answers without tools are no part of the tool calls |
| QualityGates.ForcedAnswersExceedCalls | internal/agent/loop.go:1387-1471 | two answers forced without tools over one tool call fail a forced-answer gate at 1.0 |
| QualityGates.TighteningKeepsFailures | cmd/affenteval/main.go:2835-2944 | tightening thresholds or requiring more removes no failure |

## Left out

- HTTP routing, headers, JSON encoding, server-sent-event framing, timers and access logs.
- File system failures other than those named as parameters (read errors of a directory, failed writes, an unreadable settings or `.env` file). Links, renames and directory creation are not modelled.
- Clocks: time stamps are values handed in.
- CommandTurns: chat turns share the active-turn counter and are not modelled; the shell's own behaviour, result capping and the drop of events at a closed session are not either.
- ReplaySplice: clients that do not ask for replay, and keep-alive messages; a torn last line is taken to hold at least one character.
- LoopRaces: status changes and the template of a first activation are not taken apart, nor is the repair of calibration records; writing LOOP.md and summarizing it are one step.
- LoopProtocol: the size limit of a document is part of the maintenance check; the agent's own loop tool and its section patches; the text checks for complete and maintainable documents and for recorded calibration pairs are functions handed in with stated contracts (`RulesOk`). A metadata heading inserted together with a status line is part of that line.
- SshCodec: PEM armour, base64 and the trimming of comments are a record of functions handed in; key generation is not modelled.
- ShellQuoting: a NUL cannot be passed in a shell word; the reader here takes it as any other character. Expansions are refused rather than performed.
- Artifacts: files that vanish between listing and reading, previews, and the decoding of a query string before a cursor is read. Strings are bytes; a name that is not valid UTF-8, whose cursor the JSON answer would change, is taken to be answered as it is.
- AccountEnv.Normalized: cutting a value at its cap can split a character, which encoding would then replace; values are byte strings and the encoding is taken to be lossless. The theorems hold for any encoding length; the example uses that of indented JSON.
- MemorySizes.ParseMemory: numbers are reals; only integers up to 2^53 are taken to be read exactly, rounding is not modelled. The value the machine makes of exactly 2^63 is handed in. Only ASCII letters are lowered.
- DotEnv: invalid UTF-8; the copies of the loader in the other two binaries have the same logic and are not repeated.
- ToolAllowlist: `ParseAllowlist` stands for two parsers that differ only in what a token stands for; how the filter's switches follow from the other flags is not modelled.
- RuntimeConfig: settings eval mode does not look at are grouped into `Basics`; the sampling check, the search backend's environment and duration parsing are handed in.
- BatchSummary.Summary.Add: covers one counter of each kind, every counter a law speaks of, and the scenario named with the token maximum; the remaining plain sums and maxima, the task-state and runtime-surface tallies, and all example lists are left out. Integers are unbounded.
- QualityGates: a summary's counters are free values; `PlausibleFailureIff` asks that parts stay within their wholes, as they do for complete traces, not that some list of results gives them. Rates are exact rationals. Messages and their order are not modelled.
- QualityGates.BasisOf: which counters a gate compares is a table, as in the source; `GateResults` ties the gates on counters of the batch summary to the results, and the counters of the others are not part of this model.
- Help text, printing, hints, prompts, the web interface, browser tools, servers for tools, and language-model clients.
