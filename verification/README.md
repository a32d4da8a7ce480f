# A verified model of the DeepSeek Harness desktop shell

The desktop shell owns a `dsh web` process, waits for its page, keeps itself up to date, and shows its update state to a
client. These modules state what that code does, step by step, and prove what it promises for all inputs, all runs and
all crashes. `dafny verify dfyconfig.toml` checks everything.

## The parts

**The readiness probe** (`Bytes`, `Ascii`, `Numerals`, `Utf8`, `ChunkGrammar`, `ChunkLines`, `ChunkedBody`,
`ChunkInspector`, `HttpHead`, `HttpResponse`, `HttpHeadGrammar`, `AcceptedResponses`, `ProbeLoop`, `ReadBoundaries`,
`LateTerminator`). `ChunkGrammar` is the accepted part of RFC 9112 sections 7.1, 7.1.1 and 7.1.2 as a syntax tree with
a printer. The offset-driven loops of the source are methods; they compute a scanner, and the scanner is the exact
inverse of the printer. `HttpHeadGrammar` does the same for heads, and `AcceptedResponses` puts both together into the
language of accepted responses. On top of it stand the verdicts on a growing buffer and the read loop.

**The owned process** (`HostProtocol`, `HostInvariant`, `HostFrames`, `HostSteps`, `HostTheorems`, `HostAbandoned`,
`HostHistory`, `HostRace`, `HostRules`, `HostWitness`). Attempt threads, retry workers, the shutdown worker, requests,
main-thread navigation, page events and process exits interleave freely; the lifecycle gate and the navigation gate
are part of the state, and a section under the event gate is an opening and a closing step with any ungated steps
between them. An inductive invariant gives the safety theorems; a monitor over the log of publications gives the
ordering theorems. The modules named `Rules` read a transition function the other way round: when a step is possible,
and for every field who writes it and what.

**One process** (`StopProcess`, `CliProcess`, `CliRules`). Bounded stopping against an arbitrary process and clock,
and the classification of its exit under every interleaving of the threads that observe, stop and reap it.

**Windows printers** (`Utf16`, `WindowsCommandLine`, `WindowsEnvironment`). The quoting loops against the documented
parsing rules of `CommandLineToArgvW`, and the environment loops against a case-folded map.

**Updates** (`UpdateController`, `UpdateHistory`, `UpdateRules`, `UpdateSystemRules`, `StagingDisk`, `Staging`,
`StagingHistory`, `UpdateSystem`, `UpdateWitness`, `UpdateAdapter`). The controller object against a transition
function and theorems over its histories; the repository on a disk whose calls may fail and whose unsynced changes
survive a crash in any subset; and controller, repository, pending update, checks, downloads, timers and users as one
system. `UpdateAdapter` shows that operations on the real objects are moves of that system.

**The client** (`SnapshotWire`, `SnapshotClient`). What the controller writes, the client reads; and the client
object, one method per turn of the event loop, ends with the newest state whatever is duplicated, delayed or
reordered.

## Where the code does less than its description

Each is in the table below, with the exact condition where it depends on the input.

- A rejected response can become acceptable again if the buffer stopped inside an empty line at offset 16382 to 16384.
- Whether an acceptable response is accepted depends on how it is cut into reads if its empty line is beyond offset
  16381, or if it is close-delimited and exactly as long as the wire cap.
- The same holds for a complete response followed by further bytes: it is accepted only if some read stops at its end.
- A retry worker that read the shutdown flag in time publishes Starting after Stopping; besides it only a first start
  still to come can.
- The ignored stop failure at line 1103 of `main.rs` is the only way to abandon a process tree; such a tree is never
  stopped later, and an installation can run over it.
- Checks and downloads can overlap: due retries, user retries and switching automatic download on do not look at the
  operation in flight.
- The state can be "up to date" while an update is staged.
- A recovery does not sync its removals, so metadata it discarded can come back during the next stage if its signature
  fits the new package.
- Staged versions grow between clears, but a failed stage can also lose the old update in its recovery, if its signature
  does not fit the new package or a read fails, and any version may be staged after that.
- A clear that fails half-way keeps its record; verifying for installation then succeeds without looking at the metadata.
- A program name with a quote character, or with a trailing backslash when it needs quoting, does not survive the command
  line; an environment name that is empty or has a later "=" does not survive the block.
- Generation 0 could never be classified as requested, since 0 stands for "no request"; it is never handed out.

## Model

| member | source | states |
|---|---|---|
| `Ascii.TokenExactly` | src-tauri/src/main.rs:600-624 | A token is a nonempty text of digits, letters and the fifteen marks, each spelled out. |
| `Ascii.IgnoreCaseExactly` | src-tauri/src/main.rs:715-716 | Texts equal without case have the same characters or the two forms of the same letter, position by position. |
| `Ascii.InkExactly` | src-tauri/src/main.rs:792-796 | A body counts as nonempty when some byte is none of the five ASCII blanks. |
| `Numerals.HexExactly` | src-tauri/src/main.rs:699-705 | The value of a chunk size is the number its digits denote: the hexadecimal numeral built from the literal alphabet, behind any zeros, in either case; nothing else is a number. |
| `Numerals.DecimalExactly` | src-tauri/src/main.rs:874-880 | The same for the decimal numbers of content-length and of the status code. |
| `ChunkLines.ParseExtensions` | src-tauri/src/main.rs:627-687 | An extension list that is accepted is the printed form of a list of well-formed extensions: tokens with an optional token or quoted-string value, without any whitespace around them. |
| `ChunkLines.QuotedRoundTrip` | src-tauri/src/main.rs:661-684 | A quoted string of plain bytes and quoted pairs is read back item by item, up to its own closing quote, whatever follows. |
| `ChunkLines.ExtensionsRoundTrip` | src-tauri/src/main.rs:627-687 | Every list of well-formed extensions is accepted and read back as itself. |
| `ChunkLines.SizeLineRoundTrip` | src-tauri/src/main.rs:690-706 | Every size line within the cap, with 1 to 16 hexadecimal digits and well-formed extensions, is read back as itself and contains no line end. |
| `ChunkLines.TrailerRoundTrip` | src-tauri/src/main.rs:709-721 | Every trailer that does not change the framing is read back as itself and contains no line end. |
| `ChunkInspector.ValidChunkExtensions` | src-tauri/src/main.rs:627-687 | The offset-driven loops accept a byte string if and only if it is the printed form of some list of well-formed extensions. |
| `ChunkInspector.ScanQuoted` | src-tauri/src/main.rs:661-684 | The inner loop over a quoted string decides well-formedness of the string and of what follows it. |
| `ChunkInspector.ParseChunkSize` | src-tauri/src/main.rs:690-706 | A size is returned if and only if the line is a printed size line; it is the number that the hexadecimal digits denote. |
| `ChunkInspector.HexValueFits` | src-tauri/src/main.rs:699-705 | Sixteen hexadecimal digits always fit the 64-bit size type, so the conversion cannot fail. |
| `ChunkInspector.InspectTrailers` | src-tauri/src/main.rs:750-776 | The trailer loop computes the verdict of the trailer scanner: the accumulated cap, the empty line that must end the body, and refused lines. |
| `ChunkInspector.InspectData` | src-tauri/src/main.rs:777-799 | Checked additions, the decoded cap, the data and its closing line end: one turn of the loop computes one step of the scanner. |
| `ChunkInspector.InspectChunkedBody` | src-tauri/src/main.rs:724-801 | Ready if and only if the body is the printed form of a valid message: nonempty data chunks, a last chunk and trailers within all caps, with some non-blank byte; otherwise exactly the verdict of the scanner. All indexing is in bounds. |
| `ChunkedBody.ScanSound` | src-tauri/src/main.rs:724-801 | A complete scan has read exactly the printed form of a valid message. |
| `ChunkedBody.MessageRoundTrip` | src-tauri/src/main.rs:724-801 | The printed form of every valid message is scanned back to that message. |
| `ChunkedBody.ReadyExactly` | src-tauri/src/main.rs:724-801 | The scanner is Ready exactly on the printed valid messages, at end of stream or not. |
| `ChunkedBody.DecodingUnique` | src-tauri/src/main.rs:724-801 | Two valid messages with the same bytes are the same message, so the decoding is unique. |
| `ChunkedBody.ScanExtends` | src-tauri/src/main.rs:724-801 | Appending bytes never repairs a malformed body and always spoils a complete one. |
| `ChunkedBody.AcceptedBodyIsExact` | src-tauri/src/main.rs:725-731 | Every proper prefix of an accepted body is NeedMore (Reject at end of stream or at the wire cap) and every proper extension is Reject. |
| `HttpHead.CollectFields` | src-tauri/src/main.rs:836-857 | The header loop accepts exactly the valid fields and collects the trimmed values of the three named fields in order. |
| `HttpHead.DistinctNames` | src-tauri/src/main.rs:850-856 | No field line matches two of the three names, so the order of the tests does not matter. |
| `HttpHead.InspectHead` | src-tauri/src/main.rs:818-891 | The status line, the header fields and the framing rules are decided as one function of the head. |
| `HttpHeadGrammar.TrimExactly` | src-tauri/src/main.rs:850-865 | Trimming a text leaves exactly what is between a prefix and a suffix of whole white-space characters and neither begins nor ends with one, for every byte string. |
| `HttpHeadGrammar.HtmlExactly` | src-tauri/src/main.rs:859-865 | The one content type passes exactly when it is the word text/html in either case between white space, perhaps with a semicolon and any parameters behind it. |
| `HttpHeadGrammar.FramingExactly` | src-tauri/src/main.rs:866-903 | Chunked is announced by the one word "chunked" without a length, a length by one number from 1 to the body cap without a coding, and the end of the stream by neither. |
| `Utf8.ValidUtf8Exactly` | src-tauri/src/main.rs:821-823 | The texts that pass are exactly the UTF-8 encodings of sequences of code points that are no surrogates. |
| `Utf8.LeadingSpaceExactly` | src-tauri/src/main.rs:850-856 | What trimming removes at the front is exactly the encodings of the 25 white-space code points. |
| `Utf8.TrailingSpaceExactly` | src-tauri/src/main.rs:850-856 | And at the end the same characters. |
| `HttpHeadGrammar.HeadRoundTrip` | src-tauri/src/main.rs:818-891 | The printed form of every valid head (status line, well-formed fields, announced framing, valid UTF-8) is accepted with its framing. |
| `HttpHeadGrammar.HeadParses` | src-tauri/src/main.rs:818-891 | Every accepted head is the printed form of a valid head: blanks, the version, blanks, a code from 200 to 299 that nothing prolongs, and well-formed fields. |
| `HttpHeadGrammar.HeadExactly` | src-tauri/src/main.rs:818-891 | A head is accepted with a framing if and only if it is the printed form of a valid head that announces it. |
| `AcceptedResponses.ReadyIsPrinted` | src-tauri/src/main.rs:804-916 | End to end: Ready is said of exactly the responses within the wire cap that are a printed valid head within its cap, an empty line, and a body of the announced framing: a printed valid chunked message, so many bytes, or whatever came until the end of the stream. |
| `HttpResponse.InspectHttpClientResponse` | src-tauri/src/main.rs:804-916 | The verdict is the function of buffer and end-of-stream about which the following rows speak. |
| `HttpResponse.EofSettles` | src-tauri/src/main.rs:804-916 | End of stream never yields NeedMore, and leaves a Ready or Reject reached before it unchanged, in all three framings. |
| `HttpResponse.SettledExtends` | src-tauri/src/main.rs:804-916 | Once the empty line has been seen, every settled verdict is Reject under every proper extension. |
| `HttpResponse.ReadyIsExact` | src-tauri/src/main.rs:804-916 | Ready becomes Reject under every proper extension. |
| `HttpResponse.RejectIsPermanentExactly` | src-tauri/src/main.rs:808-817 | Reject stays Reject under every extension if and only if the buffer does not stop inside an empty line at offset 16382 to 16384 behind an acceptable head. |
| `HttpResponse.RejectAtEof` | src-tauri/src/main.rs:808-817 | The same when the extension is judged at end of stream. |
| `LateTerminator.RejectionIsUndone` | src-tauri/src/main.rs:808-817 | A concrete response that is rejected after 16385 bytes and waits for its body after 16388. |
| `ProbeLoop.ProbeClientPage` | src-tauri/src/main.rs:934-965 | The loop ends for every schedule of reads (the remaining capacity decreases), never holds more than the cap, and answers true only on a Ready prefix of the stream, judged with end of stream at its end. |
| `ProbeLoop.AnswerExactly` | src-tauri/src/main.rs:934-965 | The answer is true exactly when every turn up to some one finds the response incomplete, no deadline passed and a read that delivers, and that one finds it complete or sees the end of the stream complete it. |
| `ProbeLoop.SafeSplits` | src-tauri/src/main.rs:934-965 | Every split of a split-safe response into nonempty reads is answered with true. |
| `ProbeLoop.LateHeadRefused` | src-tauri/src/main.rs:808-814 | Reading byte by byte refuses an acceptable response whose empty line starts beyond offset 16381. |
| `ProbeLoop.FullWireRefused` | src-tauri/src/main.rs:945-947 | A close-delimited response of exactly the wire cap is refused however it is read. |
| `ProbeLoop.ReadBoundariesDoNotMatterExactly` | src-tauri/src/main.rs:934-965 | For a response acceptable as a whole, every split is answered with true if and only if its empty line is at offset 16381 or less and, when close-delimited, it is shorter than the wire cap. |
| `LateTerminator.LateHeadIsUnsafe` | src-tauri/src/main.rs:808-817 | A concrete acceptable page below the wire cap whose late empty line makes it unsafe. |
| `LateTerminator.FullWireIsUnsafe` | src-tauri/src/main.rs:945-947 | A concrete acceptable page with an early empty line that fills the wire cap and is unsafe for that reason. |
| `LateTerminator.OrdinaryPageIsSafe` | src-tauri/src/main.rs:934-965 | A concrete page for which the way of reading does not matter. |
| `ReadBoundaries.AcceptedBySomeSplitExactly` | src-tauri/src/main.rs:934-965 | For every stream: some way of reading it is answered with true if and only if some prefix is a whole response, by itself or because the stream ends there below the cap. |
| `ReadBoundaries.SameForEverySplitExactly` | src-tauri/src/main.rs:934-965 | For every stream, acceptable or not: all ways of reading it get the same answer if and only if every such end lies behind an empty line at offset 16381 or less and has no byte behind it that could still be read. |
| `HostSteps.StepKeeps` | src-tauri/src/main.rs:1081-1615 | Every step of every attempt thread, retry worker, shutdown worker, request, navigation task, page event and process exit keeps the invariant. |
| `HostTheorems.RunKeeps` | src-tauri/src/main.rs:1081-1746 | The invariant holds after every run. |
| `HostTheorems.SpawnFindsNoLivingTree` | src-tauri/src/main.rs:1090-1094 | At each call of `spawn_cli`, in any run, every tree an earlier call returned has been confirmed exited by `stop_process`, without exception, and the slot is empty. |
| `HostTheorems.SlotIsNeverOccupied` | src-tauri/src/main.rs:1106-1120 | The occupied-slot branch is unreachable. |
| `HostTheorems.InstallFindsAllSettled` | src-tauri/src/main.rs:1662-1746 | `install_staged` is reached only when every tree is confirmed exited, except those abandoned after their own stop failed. |
| `HostTheorems.AbandonedOnlyByDiscard` | src-tauri/src/main.rs:1102-1105 | A tree becomes abandoned only by the ignored failure of the stop at line 1103, in the attempt that spawned it, and only during shutdown. |
| `HostAbandoned.AbandonedIsNeverConfirmed` | src-tauri/src/main.rs:1331-1364 | A tree whose own stop failed silently is out of reach: in no run is it confirmed afterwards. |
| `HostAbandoned.InstallFindsAllConfirmedExactly` | src-tauri/src/main.rs:1695-1720 | When `install_staged` is called, all trees are confirmed exited if and only if none has been abandoned. |
| `HostWitness.InstallOverLivingTreeHappens` | src-tauri/src/main.rs:1102-1105 | A concrete run in which `install_staged` is called while an abandoned tree still lives. |
| `HostTheorems.TokensAreCurrent` | src-tauri/src/main.rs:404-423 | In every reachable state each observation token is empty or belongs to the current generation. |
| `HostHistory.ReadyIsEarnedInOrder` | src-tauri/src/main.rs:496-589 | Publishing Ready is preceded, in this order and with no generation bump between, by a successful probe of one generation, its host origin, the arming of its fragment URL, Started on that URL and Finished on it. |
| `HostHistory.GatedStepsSeeTheProcessAlive` | src-tauri/src/main.rs:448-463 | Each of the gated steps towards Ready happens only while the process of that generation is in the slot with a living leader. |
| `HostHistory.ShutdownIsFinal` | src-tauri/src/main.rs:1662-1746 | After the gated section of shutdown no state other than Starting or Stopping is ever published. |
| `HostRace.StartingAfterShutdownExactly` | src-tauri/src/main.rs:1513-1615 | In every reachable state with the shutdown flag raised: some continuation publishes Starting behind the entry of shutdown if and only if the first start is still to come or some retry worker is past its reading of the flag. |
| `HostHistory.RestartRacesShutdown` | src-tauri/src/main.rs:1596-1597 | A retry worker that read the flag before it was raised publishes Starting after Stopping. |
| `HostWitness.StartingAfterStoppingHappens` | src-tauri/src/main.rs:1541-1615 | A concrete run from the initial state in which that happens. |
| `HostWitness.ReadyHappens` | src-tauri/src/main.rs:564-589 | A concrete run from the initial state that gets to Ready. |
| `HostRules.PossibleExactly` | src-tauri/src/main.rs:1081-1746 | When each step of an attempt, a worker, a section, a request, a navigation or a page event is possible, condition by condition. |
| `HostRules.StepFollows` | src-tauri/src/main.rs:1081-1746 | Every field of the state has one rule that names all its writers: announcements and published state, slot, gates, trees, tokens, sections, tasks, flags and the places of all agents; each step follows all of them. |
| `HostRules.RetryGrantedExactly` | src-tauri/src/main.rs:1533-1582 | A retry hands out a generation, publishes Stopping and queues a worker if and only if the start failed or takes long; otherwise only the flags of the request go down. |
| `HostWitness.RetryOfLongStartHappens` | src-tauri/src/main.rs:1533-1582 | A concrete run from the initial state that retries out of a prolonged startup. |
| `StopProcess.WaitUntilExited` | src-tauri/src/lifecycle.rs:31-42 | For every process and clock: the wait goes on exactly while a probe finds the tree running and the clock, which reads the time passed plus the sleeps of min(25 ms, timeout), is before the timeout; the result is what the last probe said, confirmed exactly when the exit is seen in time; and there are at most ceil(timeout / min(25 ms, timeout)) + 1 probes, one for a zero timeout. |
| `StopProcess.WaitIsDetermined` | src-tauri/src/lifecycle.rs:31-42 | So the answers and the clock determine the number of probes and the result. |
| `StopProcess.MaxProbesAreMade` | src-tauri/src/lifecycle.rs:31-42 | The bound on the probes is reached. |
| `StopProcess.SleepsAreBounded` | src-tauri/src/lifecycle.rs:31-42 | The sleeps before the deadline are at most ceil(timeout / interval). |
| `StopProcess.GracefulPhase` | src-tauri/src/lifecycle.rs:51-52 | The graceful phase kills and reaps nothing; it succeeds only on a probe that found the tree exited, and otherwise is a complete failed phase. |
| `StopProcess.StopProcess` | src-tauri/src/lifecycle.rs:45-64 | Success exactly when the last call is a successful reap; then the call before it is a probe that found the whole tree exited. A tree that accepts the request and is seen to exit within the graceful timeout is never killed, every other tree is; Graceful and Forced are returned exactly when the exit is seen in the first or only in the second wait and the reap succeeds. All calls and their order follow from the environment; a kill only follows a whole failed graceful phase, and the number of calls is bounded. |
| `StopProcess.KilledAtMostOnce` | src-tauri/src/lifecycle.rs:45-64 | Such a history holds at most one kill. |
| `CliProcess.StepKeeps` | src-tauri/src/cli_supervisor.rs:1470-1590 | Every access of every thread to the child lock, the observed status, the requested generation and the classified reason keeps the invariant. |
| `CliProcess.NewlyUnnoticed` | src-tauri/src/cli_supervisor.rs:1527-1547 | When a stop is about to be registered, its poll under the child lock found the child alive, and no thread knows of an exit. |
| `CliProcess.FirstClassification` | src-tauri/src/cli_supervisor.rs:778-808 | The reason is Requested exactly when a stop was registered, Stale exactly for another generation with an exit code other than 130, and Unexpected otherwise. |
| `CliProcess.RequestedExactly` | src-tauri/src/cli_supervisor.rs:1502-1562 | Over all interleavings, a classified exit is Requested if and only if some graceful stop had found the child alive under the child lock (for the generations that are handed out). |
| `CliProcess.WrittenOnce` | src-tauri/src/cli_supervisor.rs:1470-1522 | The reason and the observed status are written once; every answer given stays the answer. |
| `CliProcess.AnswersAgree` | src-tauri/src/cli_supervisor.rs:1502-1522 | Any two answers of `try_exit` agree with each other and with the exit of the child; an exit with code 130 is never classified as stale. |
| `CliProcess.ExitFirstIsNeverRequested` | src-tauri/src/cli_supervisor.rs:1527-1562 | An exit that precedes every successful stop poll is never classified as Requested, whatever happens later. |
| `CliRules.PossibleExactly` | src-tauri/src/cli_supervisor.rs:1470-1590 | A call waits exactly for the child lock, and the final wait for the exit of the child. |
| `CliRules.StepFollows` | src-tauri/src/cli_supervisor.rs:1470-1590 | Every field has one rule that names its writers: child lock, observed status, registered stop, reason, answers, and the place of each thread. |
| `WindowsCommandLine.BlanksExactly` | src-tauri/src/cli_supervisor.rs:114-118 | The separators and special characters by their letters. |
| `WindowsCommandLine.QuoteWindowsArgument` | src-tauri/src/cli_supervisor.rs:111-138 | The loop with the backslash counter computes the quoting function. |
| `WindowsCommandLine.ReadQuoted` | src-tauri/src/cli_supervisor.rs:111-138 | By the rules of `CommandLineToArgvW`, a quoted argument reads back as itself and reading stops behind it. |
| `WindowsCommandLine.ReadJoined` | src-tauri/src/cli_supervisor.rs:850-855 | The list of arguments reads back as itself. |
| `WindowsCommandLine.ReadProgram` | src-tauri/src/cli_supervisor.rs:845-849 | The program name reads back as itself if and only if it has no quote character and, when it needs quoting, no trailing backslash. |
| `WindowsCommandLine.CommandLineRoundTrip` | src-tauri/src/cli_supervisor.rs:842-861 | Parsing the command line returns the program and the arguments if and only if the program name is such, for every list of arguments. |
| `WindowsCommandLine.BuildCommandLine` | src-tauri/src/cli_supervisor.rs:842-861 | An error if and only if some string holds a NUL; otherwise the command line followed by one NUL and holding no other. |
| `WindowsEnvironment.MergeInherited` | src-tauri/src/cli_supervisor.rs:894-900 | The retain-and-push loop keeps names unique and binds each folded name to its last inherited value. |
| `WindowsEnvironment.ApplyRemovals` | src-tauri/src/cli_supervisor.rs:901-906 | Removals unbind exactly the removed names. |
| `WindowsEnvironment.ApplySets` | src-tauri/src/cli_supervisor.rs:907-915 | Sets bind each folded name to its last set value, wherever removals stand among them. |
| `WindowsEnvironment.MergeWindowsEnvironment` | src-tauri/src/cli_supervisor.rs:890-918 | Without folding: an entry is in the result exactly when some override sets it and no later one sets a name that agrees unit by unit under the upper-casing table, or no override mentions such a name and it is the last inherited one; and the result is in the order of the first differing folded units. |
| `WindowsEnvironment.MergeExactly` | src-tauri/src/cli_supervisor.rs:863-918 | The computed environment, sorted and bound key by key, is that merge, in both directions. |
| `WindowsEnvironment.NoEqualNames` | src-tauri/src/cli_supervisor.rs:890-918 | No two names of a merge agree unit by unit under the upper-casing table. |
| `WindowsEnvironment.MergeIsDetermined` | src-tauri/src/cli_supervisor.rs:916-917 | These conditions determine the result, so the choice of sorting algorithm does not matter. |
| `WindowsEnvironment.WindowsEnvironmentBlock` | src-tauri/src/cli_supervisor.rs:922-946 | An error if and only if some name or value holds a NUL; otherwise the encoded block. |
| `WindowsEnvironment.LineRoundTrip` | src-tauri/src/cli_supervisor.rs:936-939 | A line parses to its own entry if and only if the name is nonempty and has no "=" after its first character. |
| `WindowsEnvironment.BlockRoundTrip` | src-tauri/src/cli_supervisor.rs:929-945 | The block parses back to the list if and only if all names are such; the empty environment is two NULs. |
| `UpdateController.UpdateController.constructor` | src-tauri/src/desktop_capabilities/app_update/mod.rs:181-201 | The initial controller, with automatic download on unless the preference says otherwise. |
| `UpdateController.UpdateController.Handle` | src-tauri/src/desktop_capabilities/app_update/mod.rs:209-288 | The new value of the object and the answer are those of the transition function, for every input; the following rows are about it. |
| `UpdateHistory.InvKept` | src-tauri/src/desktop_capabilities/app_update/mod.rs:209-487 | Every version held or shown exceeds the running one, a Staged state names exactly the staged version, what is available or downloading is the current release; and a download effect is for the current release. |
| `UpdateHistory.NoDowngrade` | src-tauri/src/desktop_capabilities/app_update/mod.rs:305-353 | On every input sequence from the start all of that holds and every StartDownload effect exceeds the running version. |
| `UpdateHistory.SequenceAndErrors` | src-tauri/src/desktop_capabilities/app_update/mod.rs:283-288 | The sequence grows by one on Ok, the snapshot is unchanged on Err, and the three inputs that end in Err. |
| `UpdateHistory.RetryStep` | src-tauri/src/desktop_capabilities/app_update/mod.rs:406-445 | One input within an episode either schedules nothing or exactly the next retry, with the delay of its number. |
| `UpdateHistory.EpisodeDelays` | src-tauri/src/desktop_capabilities/app_update/mod.rs:406-493 | Within an episode of any length the retries have consecutive numbers up to three. |
| `UpdateHistory.RetryBudget` | src-tauri/src/desktop_capabilities/app_update/mod.rs:406-493 | Between events that clear the pending retry or switch its operation: at most three retries, each delay a consecutive power of two, seven seconds in all. |
| `UpdateHistory.OverlapExactly` | src-tauri/src/desktop_capabilities/app_update/mod.rs:448-487 | An operation is started while another is active if and only if a retry timer fires with something to replay, the user retries a retryable failure, or automatic download is switched on while an update is available. |
| `UpdateHistory.OverlapHappens` | src-tauri/src/desktop_capabilities/app_update/mod.rs:448-465 | A concrete history in which two checks overlap. |
| `UpdateHistory.StagedBehindUpToDateExactly` | src-tauri/src/desktop_capabilities/app_update/mod.rs:312-325 | The state becomes "up to date" with an update staged if and only if a check reports nothing above the running version while one is staged. |
| `UpdateHistory.StagedBehindUpToDateHappens` | src-tauri/src/desktop_capabilities/app_update/mod.rs:312-316 | A concrete history in which that happens. |
| `UpdateRules.InputFollows` | src-tauri/src/desktop_capabilities/app_update/mod.rs:209-487 | Every field has one rule that names the inputs that write it, the next check included; every input is refused with its error, or has exactly the effects listed: a check, the next periodic check, a download, a retry. |
| `StagingDisk.UnsyncedExactly` | src-tauri/src/desktop_capabilities/app_update/staging.rs:218-224 | A restart finds exactly what was synced, and may find anything in place of contents that were not. |
| `StagingDisk.AccidentsInventNothing` | src-tauri/src/desktop_capabilities/app_update/staging.rs:330-362 | Crashes and interrupted recoveries, in any number and order, leave no content that could not survive the first of them. |
| `StagingDisk.YieldsASurvivor` | src-tauri/src/desktop_capabilities/app_update/staging.rs:330-362 | After any such accidents a recovery finds nothing, or metadata that could survive the first crash and that verifies against the package on the disk. |
| `StagingDisk.DurableSurvives` | src-tauri/src/desktop_capabilities/app_update/staging.rs:365-375 | After a successful stage every restart finds exactly the new update. |
| `StagingDisk.DurablyEmpty` | src-tauri/src/desktop_capabilities/app_update/staging.rs:318-326 | After a successful clear every restart finds nothing. |
| `Staging.RecoverMetadata` | src-tauri/src/desktop_capabilities/app_update/staging.rs:330-362 | Only removals happen; what is found is what the disk holds afterwards; nothing found means that both files are gone; and unless a read fails, it is what could be found before. |
| `Staging.WriteMetadata` | src-tauri/src/desktop_capabilities/app_update/staging.rs:365-375 | The metadata is published by one rename of a synced file, with the new package durable before; success makes it durable. |
| `Staging.Promote` | src-tauri/src/desktop_capabilities/app_update/staging.rs:215-235 | Every state on the way is before, between or after the two renames, in this order; the package is renamed only after it verified. |
| `Staging.Repository.Open` | src-tauri/src/desktop_capabilities/app_update/staging.rs:179-191 | Opening only removes files, its record is what a recovery finds on the disk, and only a failing read makes it overlook an update. |
| `Staging.Repository.Stage` | src-tauri/src/desktop_capabilities/app_update/staging.rs:201-247 | NotNewer exactly for versions not above the record; success caches what a recovery would find and makes it durable; after a failure whose recovery succeeded the record is what the disk holds: the new update, the old one, or none, exactly as the place of the stop and the old signature say, unless a read failed; otherwise it is unchanged. Every state on the way is one of the promotion or a removal after it, and a storage error takes a failing call. |
| `Staging.Repository.VerifyForInstall` | src-tauri/src/desktop_capabilities/app_update/staging.rs:250-266 | Success exactly when the package on the disk verifies against the record; otherwise everything is cleared; and when success implies that the record is what the disk holds. |
| `Staging.Repository.CompleteInstall` | src-tauri/src/desktop_capabilities/app_update/staging.rs:268-280 | Clears exactly for the handle of the recorded update, and durably. |
| `Staging.Repository.ReconcileCurrentVersion` | src-tauri/src/desktop_capabilities/app_update/staging.rs:282-298 | Clears exactly when the running version has reached the recorded one. |
| `Staging.Repository.DiscardIfOlderThan` | src-tauri/src/desktop_capabilities/app_update/staging.rs:300-316 | Clears exactly when the replacement is above the recorded version. |
| `Staging.Repository.Clear` | src-tauri/src/desktop_capabilities/app_update/staging.rs:318-326 | Success leaves no file, durably, and no record; a failure keeps the record, which the disk still holds if and only if the first removal failed. |
| `Staging.StoppedSomewhere` | src-tauri/src/desktop_capabilities/app_update/staging.rs:237-241 | Wherever a promotion stops, a recovery finds the new metadata, the metadata that was there, or nothing. |
| `Staging.KilledBefore` | src-tauri/src/desktop_capabilities/app_update/staging.rs:229-230 | If changes persist in order, a crash before the package rename keeps the old update. |
| `Staging.KilledBetween` | src-tauri/src/desktop_capabilities/app_update/staging.rs:229-232 | Between the renames the old update is found exactly if its signature fits the new package, and nothing otherwise. |
| `Staging.PublishedIsFound` | src-tauri/src/desktop_capabilities/app_update/staging.rs:365-375 | After the metadata rename the new update is found. |
| `Staging.StageIsCrashSafe` | src-tauri/src/desktop_capabilities/app_update/staging.rs:201-247 | For a crash at any state of a stage, then any accidents: nothing, the new metadata, or metadata that could survive already before; and it verifies. |
| `Staging.OldOrNewOrNothing` | src-tauri/src/desktop_capabilities/app_update/staging.rs:201-247 | If the directory was in sync when the stage began: nothing, the old update or the new one. |
| `Staging.RemovalIsCrashSafe` | src-tauri/src/desktop_capabilities/app_update/staging.rs:318-362 | The same for clears and recoveries. |
| `Staging.PowerLossWhenPublished` | src-tauri/src/desktop_capabilities/app_update/staging.rs:365-375 | After the metadata rename even an unsynced crash finds the new update, or the old one exactly if it fits the new package. |
| `Staging.RestartYieldsExactly` | src-tauri/src/desktop_capabilities/app_update/staging.rs:330-362 | A restart can yield an update if and only if its metadata and a package it verifies against can both survive. |
| `Staging.DiscardedMetadataMayReturn` | src-tauri/src/desktop_capabilities/app_update/staging.rs:336-340 | Opening a directory with only a metadata file removes it without syncing; the metadata can come back during the next stage. |
| `StagingHistory.Perform` | src-tauri/src/desktop_capabilities/app_update/staging.rs:177-327 | One call of the repository, or its reopening by the next process, failures included: the record stays or is replaced by a strictly newer one, or is cleared by a call that clears, or is lost. A record the disk holds is lost only if a read failed, or if a call failed while a good package was staged that the old signature does not fit. Unless a clear or a recovery failed, the disk goes on holding the record, and reopening always restores this. |
| `StagingHistory.VersionsGrow` | src-tauri/src/desktop_capabilities/app_update/staging.rs:206-212 | Along such calls the staged version stays or strictly grows from any record to any later one, as long as none in between cleared or lost it. |
| `StagingHistory.StaysFound` | src-tauri/src/desktop_capabilities/app_update/staging.rs:177-327 | Along such calls, from any opening or reopening on, the record is what a recovery would find until a clear or a recovery fails; no other failure ends this. |
| `StagingHistory.NothingIsLost` | src-tauri/src/desktop_capabilities/app_update/staging.rs:201-247 | Through any number of failing calls and restarts no update is lost, unless a clear, a recovery or a read fails, the update is cleared, or a good package is staged that its signature does not fit. |
| `StagingHistory.Histories` | src-tauri/src/desktop_capabilities/app_update/staging.rs:177-327 | For every list of calls on a disk, whichever of them fail, the records, files and fates that really occur are such a history, and begin with a record the disk holds. |
| `StagingHistory.LossHappens` | src-tauri/src/desktop_capabilities/app_update/staging.rs:229-239 | A real repository loses its update by one failing call: the directory sync between the renames of the second stage. |
| `StagingHistory.HalfClearHappens` | src-tauri/src/desktop_capabilities/app_update/staging.rs:268-326 | A real repository whose completion fails at its second removal keeps a record that the next process cannot find, and prepares the same installation again. |
| `UpdateSystem.BystandersKeep` | src-tauri/src/desktop_capabilities/app_update/mod.rs:226-287 | Users, timers, progress and failures touch neither the staged version nor the current release. |
| `UpdateSystem.CheckedIsSettled` | src-tauri/src/desktop_capabilities/app_update/tauri_adapter.rs:649-659 | Dispatching a prepared check closes the window between the repository change and the controller. |
| `UpdateSystem.StageKeeps` | src-tauri/src/desktop_capabilities/app_update/tauri_adapter.rs:1086-1103 | A stage that succeeds stored the pending version while the controller held nothing staged; one that fails leaves controller and repository in agreement. |
| `UpdateSystem.StepKeeps` | src-tauri/src/desktop_capabilities/app_update/tauri_adapter.rs:831-1103 | Every step of a check, a download, a user or a timer keeps the invariant, in both windows. |
| `UpdateSystem.InstallIsConsistent` | src-tauri/src/desktop_capabilities/app_update/tauri_adapter.rs:1137-1144 | From any start, under any interleaving: in every state in which `staged_install_allowed` holds, the repository holds exactly the version the controller shows as staged, and it exceeds the running version. |
| `UpdateSystem.InstalledIsNewer` | src-tauri/src/desktop_capabilities/app_update/tauri_adapter.rs:1105-1134 | The repository and the snapshot are read one after the other and the repository is taken once more, with checks and downloads in between: whatever version verification hands out then exceeds the running version. |
| `UpdateWitness.InstallIsReachable` | src-tauri/src/desktop_capabilities/app_update/tauri_adapter.rs:868-1134 | Every newer version can be found, downloaded, staged and handed out for installation. |
| `UpdateSystem.PublishedInOrder` | src-tauri/src/desktop_capabilities/app_update/tauri_adapter.rs:636-646 | In every run from a start the published snapshots have consecutive sequence numbers and end with the current one. |
| `UpdateSystemRules.PossibleExactly` | src-tauri/src/desktop_capabilities/app_update/tauri_adapter.rs:831-1144 | When each step of a check, a download, a user, a timer or an installation is possible. |
| `UpdateSystemRules.StepFollows` | src-tauri/src/desktop_capabilities/app_update/tauri_adapter.rs:636-1144 | Which input each step sends to the controller, and one rule each for repository, pending update, holder of the operation gate, installer, queue and publications. |
| `UpdateSystemRules.TasksExactly` | src-tauri/src/desktop_capabilities/app_update/tauri_adapter.rs:831-862 | Checks and downloads are started once for each effect that asks for them. |
| `UpdateSystemRules.StartFollows` | src-tauri/src/desktop_capabilities/app_update/tauri_adapter.rs:679-718 | The system starts with what opening found: a record above the running version is shown as staged. |
| `UpdateAdapter.StartRepository` | src-tauri/src/desktop_capabilities/app_update/tauri_adapter.rs:689-696 | Opening and reconciling, failures included, end in a state the system can start from. |
| `UpdateAdapter.PrepareCheckedRelease` | src-tauri/src/desktop_capabilities/app_update/tauri_adapter.rs:649-659 | On a real repository object this is a preparing move of the update system. |
| `UpdateAdapter.StageDownloadedPackage` | src-tauri/src/desktop_capabilities/app_update/tauri_adapter.rs:506-516 | On a real repository object this is a staging move of the update system; if the file cannot be rewound, nothing changes. |
| `UpdateAdapter.Publisher.TransitionAndPublish` | src-tauri/src/desktop_capabilities/app_update/tauri_adapter.rs:636-646 | Publishes exactly the snapshot of an accepted input, with the next sequence number. |
| `UpdateAdapter.InstallVerifiedOffline` | src-tauri/src/desktop_capabilities/app_update/tauri_adapter.rs:81-102 | The installer runs exactly on a package that has just verified; the repository is cleared only after it succeeded and asked for it. |
| `UpdateAdapter.Places.ReplaceWithRollback` | src-tauri/src/desktop_capabilities/app_update/tauri_adapter.rs:281-298 | The original application is always in its place or in the backup, and which of them for each outcome. |
| `SnapshotWire.NormalizeExactly` | packages/desktop-capabilities/src/tauri-adapter.ts:134-193 | A value is accepted as a snapshot exactly when it has its shape: a sequence that is a safe integer, and one of the kinds of state with its fields; everything else is refused. |
| `SnapshotWire.StateRoundTrip` | packages/desktop-capabilities/src/tauri-adapter.ts:134-181 | Every state the controller serialises is read as what it says. |
| `SnapshotWire.SnapshotRoundTrip` | packages/desktop-capabilities/src/tauri-adapter.ts:184-193 | Every snapshot the controller serialises is accepted as what it says exactly while its sequence is a safe integer. |
| `SnapshotClient.FinalIsHighest` | packages/desktop-capabilities/src/tauri-adapter.ts:39-45 | Whatever is delivered, the client ends with the highest sequence among valid snapshots and the state of such a snapshot. |
| `SnapshotClient.OrderDoesNotMatter` | packages/desktop-capabilities/src/tauri-adapter.ts:39-45 | Duplication, delay and reordering of the same snapshots come to the same. |
| `SnapshotClient.TauriAppUpdateCapability.AcceptNative` | packages/desktop-capabilities/src/tauri-adapter.ts:39-45 | Every current observer gets exactly one strictly newer delivery when the snapshot is accepted, and none otherwise. |
| `SnapshotClient.TauriAppUpdateCapability.Observe` | packages/desktop-capabilities/src/tauri-adapter.ts:48-56 | The observer gets the current snapshot at once, and a connection exists or is under way. |
| `SnapshotClient.TauriAppUpdateCapability.Dispose` | packages/desktop-capabilities/src/tauri-adapter.ts:52-55 | The last observer takes the native listener with it. |
| `SnapshotClient.TauriAppUpdateCapability.ReadEnded` | packages/desktop-capabilities/src/tauri-adapter.ts:92-97 | A failed or invalid read releases the listener. |
| `SnapshotClient.TauriAppUpdateCapability.ConnectionEnded` | packages/desktop-capabilities/src/tauri-adapter.ts:74-79 | No listener outlives a connection without observers. |
| `SnapshotClient.TauriAppUpdateCapability.ListenersAreReleased` | packages/desktop-capabilities/src/tauri-adapter.ts:71-110 | No native listener remains once there is no observer and no connection in progress, and there is never more than one. |
| `SnapshotClient.ClientShowsController` | src-tauri/src/desktop_capabilities/app_update/tauri_adapter.rs:636-646 | End to end, for every run of the update system: once the latest published snapshot has arrived, among any others and in any order, the client shows the state of the controller. |

## Left out

- HostProtocol.Do: the checks made before a gate is taken may be stale when the request goes on, so they put no condition
  on the steps of a request; this allows more runs than the code has.
- HostProtocol.Run: says nothing about progress; a run may stop anywhere, and deadlock freedom of the three gates is not
  treated.
- HostProtocol.Move: `wait_for_readiness` (lifecycle.rs:79-118) appears as its steps (cancel, exit seen, probe, prolonged
  callback, confirmation), not as a loop; its polling interval and its thirty-second mark are not modelled.
- StopProcess.StopProcess: answers of a process depend on the number of the probe, not on the calls made to it.
- CliProcess.Do: the stop lock, which only one caller uses, is left out, so stops may interleave as well.
- ProbeLoop.ProbeClientPage: connecting, writing the request and the clock are part of the schedule of reads.
- HttpHead.Head: text trimming is stated on UTF-8 bytes; the list of white-space characters is fixed.
- WindowsEnvironment.Key: the upper-casing table of the system is a parameter; the comparison is the lexicographic one on
  folded code units.
- WindowsEnvironment.Sort: the library's stable sort is an insertion sort; `MergeIsDetermined` shows that it does not
  matter.
- UpdateController.VersionText: a version that parses is its place in the total order of versions; build metadata and
  pre-release rules are that order, and printing a parsed version gives back its text.
- StagingDisk.Disk: the Windows variant, where replacing writes through and syncing a directory does nothing, is not
  modelled; a failed call changes nothing on the disk, except that a failed write leaves any contents.
- StagingDisk.Verifier: signature verification is a function of contents and signature and never fails by chance; nor
  does looking whether a file is there.
- Staging.Repository.Open: creating the directory is left out, as is the construction of candidates
  (staging.rs:64-92), which only refuses empty fields and foreign install kinds.
- UpdateSystem.InstallDo: a second installation, and what goes on after the first one has been handed a package, are not
  followed.
- UpdateSystem.Outside: timers and users send their inputs at any time, not only after the delays that were scheduled.
- SnapshotClient.TauriAppUpdateCapability.Observe: observers do not call back into the client and do not throw;
  disposing and observing again during the first read can leave an observer without a listener, which only safety is
  claimed about.
- SnapshotWire.Normalize: numbers are exact; rounding of byte counts above the safe integers is not modelled.
- Sequence numbers and generations are unbounded here; wrap-around of 64-bit counters is not modelled.
- Poisoned mutexes, reuse of process identifiers, and processes leaked inside `spawn_owned_command` when taking over a
  child fails.
- Navigation allow-lists, diagnostics, tray and menu code, the WebView itself, network transfer, archive extraction,
  path resolution and patch materialisation: input and output, or facts of one branch.
- The directory lock of the build scripts, stable promotion and release workflows: not part of the running shell.
