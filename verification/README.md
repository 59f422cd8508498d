# TinDox server: a Dafny model

TinDox (TDS) is a file server with a private text protocol. A client sends requests made of
lines (a command, fields, a blank line) over one TCP connection; the same connection carries
the bytes of uploads in one direction and, in the other, replies and the bodies of downloads.
Many clients share one file tree, a table of logins and a table of path locks; a handful of
threads serve all connections through one epoll set.

The project models five parts and proves what holds of them for every input, every run and
every interleaving.

- **Wire format** (`Text`, `Decimal`, `Fields`, `Interpreter`, `Requests`, `Responses`): the
  request assembler in three forms (line fragments as in the code, byte by byte, and a one-shot
  reading of the whole stream) that are proved to agree; field typing; the console client's
  request printer and response parser with their round trips.
- **One connection** (`ProtocolMode`, `Widths`, `Connection`, `Client`, `ClientProgress`,
  `Pipelining`): the command/download/upload automaton, its input loop, its output queue and
  partial transfers, over whole runs of readiness events: that what it does is right, and that
  it gets on.
- **Files** (`Paths`, `Disks`, `Copy`, `Uploads`): the textual lock test, moving and removing
  subtrees with the files that uploads have open in them, the configuration directory `.tds`
  with the temporary files of uploads as part of the tree, the name search of `cp`, and one
  session of an upload.
- **Shared state** (`ServerState`, `ServerSafety`, `ServerRuns`, `ServerFrames`,
  `ServerTheorems`, `CommandEffects`, `UploadPaths`, `UploadTheorems`, `RetryTheorems`,
  `DownloadTheorems`, `WireToFile`, `Scenarios`, `ServerContexts`): every command of every
  client as one atomic step, an invariant kept by every run, what each command does in the
  states it allows, and what follows.
- **Threads** (`Dispatch`) and **permissions** (`Permissions`).

Code that updates objects is modelled by classes (`ProtocolInterpreter`, `TDPService`,
`ResponseBuilder`, `ResponseAnalyzer`, `Sender`, `DownloadManager`, `Client`, `UploadManager`,
`ServerContext`, `ClientContext`, `AuthCommand`, `UserPermsCommand`) whose methods are proved
against functions on values; the theorems are about those functions. Each command of the shared
state machine and each step of a worker thread is a function from state to state, since their
properties are about interleavings.

Steps too small for a theorem of their own are pinned by lemmas that say what each does to the
whole state (`Dispatch.AcceptEffect` and its neighbours, `CommandEffects.ConnectEffect`,
`CommandEffects.KillEffect`); the table lists those whose proof needs the invariant.

Bytes are characters. The log of a connection, the file a user means to upload and the
generation of a connection are history: they are not in the code, and no branch depends on them.

## Main results

1. The incremental interpreter refines the one-shot reading of the stream, from every reachable
   state and for every chunking (`Interpreter.RefinesOneShot`, `Interpreter.CuttingIrrelevant`),
   and every request the console client prints comes back (`Requests.RequestRoundTrip`). A field
   line means what its layout says, and is refused if and only if it is not laid out as one or
   its value is a number of more than 64 bits (`Fields.LaidOutMeans`, `Fields.RefusedExactly`,
   `Fields.ParsedIsLaidOut`).
2. What a connection does with its input depends only on the bytes it reads
   (`Client.StreamDecides`); what it writes is exactly what it owes, in order
   (`Client.OutputConserved`, `Client.AllAnswered`); its loop always ends (`Connection.Batch`).
   It asks for input if and only if everything owed has gone and no file is being sent
   (`ClientProgress.InputAskedExactly`), and from a printed request to the last byte an upload or
   a download gets through, however it is cut (`ClientProgress.UploadSession`,
   `ClientProgress.DownloadSession`).
3. In every run of any number of clients, nothing a client relies on is pulled away, and files
   change under a token exactly when upload bytes overwrite them
   (`ServerTheorems.EveryRunIsSafe`); no two uploads ever go to the same destination
   (`UploadPaths.UploadsGoApart`). Every command does exactly what it is for, when nothing is in
   the way, and nothing at all otherwise: in terms of tree entries, locks and logins, for all
   reachable states (`CommandEffects.MvEffect` and its neighbours).
4. Over any chunks, disconnections and retries a finished upload is exactly the file meant, as
   long as nobody touches the configuration directory (`UploadTheorems.FinishedUploadIsExact`),
   and a retry is exact if and only if the partial file is what its record says
   (`RetryTheorems.RetryExact`). The bytes on the wire are the bytes of the file
   (`WireToFile.StoredBytesAreTheFile`).
5. What `dl` announces is what is sent, unless upload bytes overwrite the file in between; when
   they do, exactly when the length still fits (`DownloadTheorems.AnnouncedIsSent`,
   `DownloadTheorems.DeliveredAsAnnounced`).
6. In every interleaving one worker at most handles a client, never one that is gone; stop can
   always be completed, and once it has returned no worker ever has to do with a client again
   (`Dispatch.OneWorkerPerClient`, `Dispatch.StopCanComplete`, `Dispatch.StopIsFinal`). Unless a
   worker dies of an exception, a dead client is on its way out of the pool
   (`Dispatch.DeadDoNotLinger`), and all workers are at work until stop is called
   (`Dispatch.WorkersServe`).
7. Responses round-trip and are framed exactly (`Responses.MultilineRoundTrip`,
   `Responses.FramingExact`), and any text is accepted exactly for the response it begins with
   (`Responses.MultilineExactly`, `Responses.SimpleExactly`); the lock test means exactly what `Paths.LockTestExact` says; `cp`
   finds the least free name on every tree (`Copy.Execute`); permission flags fold exactly
   (`Permissions.Folded`).

## Where the code falls short of what one would expect

The members named state each of these exactly: what goes wrong, and when it does not.

- A request has room for 14 fields, not 16 as the protocol document says: the command and the
  closing blank line count among the 16 lines (`Requests.RequestRoundTrip`).
- Bytes that follow `dls` in the same read are parked and then thrown away by the next event
  (`Client.PipelinedAfterDlsLost`; a run: `Pipelining.DlsThenLs`).
- `exit` and the third bad password do not end the batch they came in: requests behind them in
  the same read are still executed (`Client.ExitDoesNotEndBatch`; a run: `Pipelining.ExitThenLs`).
- A download survives every behaviour of the socket if and only if what is to be sent is not
  empty and shorter than 2^32 - 1 bytes. `dl` with the size of a non-empty file as offset leads
  to a `dls` that kills the client, and a longer rest can turn into the -1 of a failed call when
  its length is stored in an `int` (`Client.DownloadSafe`, `ClientProgress.NothingLeftSession`).
- `rm`, `rename` and `mv` refuse a name only when it is locked, so they accept the configuration
  directory. Moving it away, removing a partial file and moving it back makes a resumed upload
  end with the wrong content (`Scenarios.TamperedUploadIsWrong`; exactly when:
  `RetryTheorems.RetryExact`, and for an upload that goes on without a retry
  `RetryTheorems.FinishIsSourceExactly`; it takes one of these three commands on `.tds` in the root:
  `UploadTheorems.HonestRunKeeps`).
- `ul` with `retry` takes name and size from the record of the interrupted upload and ignores
  the ones sent; the record is gone even if the retry is then refused
  (`RetryTheorems.RetryUsesUpRecord`; a run: `Scenarios.RefusedRetryIsLost`).
- An upload replaces a file that came to its destination in the meantime, even one that another
  client holds a download token for (`ServerTheorems.DataExact`; a run:
  `Scenarios.FileReplacedUnderToken`).
- The main thread goes through the whole batch of events it has got, also after a signal in it
  has stopped the server. The pool stays empty after stop if and only if no connection that can
  be admitted is left in that batch (`Dispatch.EmptyExactlyWhen`; a run:
  `Dispatch.ClientAfterStop`).
- The client refuses the codes 410 to 415, which the server does send
  (`Responses.MultilineRoundTrip`), and its test for a complete response fires early if and only
  if the body has an empty line (`Responses.FramingExact`).
- The lock test compares texts, so a lock on `/r/abc` also keeps `/r/ab` from being removed; it
  never lets an ancestor through (`Paths.LockTestExact`, `Paths.AncestorsAreCovered`).
- The usage text of `tds user perms` offers a symbol `t` that is not a permission
  (`Permissions.ParsedExact`).

## Model

| member | source | states |
|---|---|---|
| `Decimal.DecimalRoundTrip` | server/src/protocol/field.cpp:92-100 | every natural number is read back from its decimal text |
| `Decimal.TextRoundTrip` | server/src/protocol/field.cpp:92-100 | conversely, digits without a leading zero are the text of the number they denote |
| `Fields.LaidOutParses` | server/src/protocol/field.cpp:54-108 | however a name and a value are laid out with blanks, the line is read as exactly that name and that typed value |
| `Fields.ParsedIsLaidOut` | server/src/protocol/field.cpp:57-86 | conversely, every accepted line is laid out that way |
| `Fields.LaidOutMeans` | server/src/protocol/field.cpp:83-108 | by the form of its value, the field a laid-out line denotes: a truth value, a number below 2^64, the text between apostrophes, or the value itself |
| `Fields.RefusedExactly` | server/src/protocol/field.cpp:92-100 | a laid-out line is refused if and only if its value is all digits and 2^64 or more |
| `Fields.PlainTextParses` | server/src/protocol/field.cpp:101-106 | text that is no truth value, no number and not in apostrophes is read as it stands |
| `Fields.FieldRoundTrip` | server/src/protocol/field.cpp:83-108 | quoted text (empty or with embedded apostrophes), 64-bit integers and truth values come back unchanged |
| `Fields.IntegerRange` | server/src/protocol/field.cpp:92-100 | a decimal is accepted if and only if it is below 2^64 |
| `Interpreter.CommitKeepsValid` | server/src/protocol/protocol_interpreter.cpp:21-72 | over arbitrary bytes the interpreter holds at most 16 lines, none empty, none over 2048 bytes with its LF, only the last one able to grow |
| `Interpreter.FirstByte` | server/src/protocol/protocol_interpreter.cpp:34-54 | cutting a fragment of a line after its first byte changes nothing but which limit is reported |
| `Interpreter.CommitIsFeed` | server/src/protocol/protocol_interpreter.cpp:21-54 | a chunk has the effect of its bytes one by one, with the same remainder; a limit is exceeded in one form exactly when it is in the other |
| `Interpreter.FeedIsOneShot` | server/src/protocol/protocol_interpreter.cpp:21-86 | a stream read from the initial state gives exactly what the one-shot reading says: over the limits, incomplete with the text held, or the parsed lines with the exact remainder |
| `Interpreter.RefinesOneShot` | server/src/protocol/protocol_interpreter.cpp:21-86 | the same from every reachable state: the interpreter refines "drop leading blank lines, cut at LF, take what precedes the first blank line" |
| `Interpreter.CuttingIrrelevant` | server/src/protocol/protocol_interpreter.cpp:21-54 | for every way of cutting a stream within the limits into chunks, the outcome and the remainder are those of its bytes |
| `Interpreter.TwoLFsRecover` | server/src/server/client.cpp:94-110 | from every reachable state two LFs in command mode bring the interpreter back to its initial state |
| `Interpreter.ProtocolInterpreter.CommitBytes` | server/src/protocol/protocol_interpreter.cpp:21-32 | the loop computes the chunk function: state, remainder and error; after a limit error the state is initial |
| `Interpreter.ProtocolInterpreter.AddLine` | server/src/protocol/protocol_interpreter.cpp:34-54 | appending, checking and closing a line computes the fragment function |
| `Interpreter.ProtocolInterpreter.CheckForProtocolErrors` | server/src/protocol/protocol_interpreter.cpp:56-72 | which limit is reported, and that exceeding one restarts |
| `Interpreter.ProtocolInterpreter.CommitRequest` | server/src/protocol/protocol_interpreter.cpp:74-86 | the request is there if and only if every field line parses, and has exactly those fields in order |
| `Interpreter.ProtocolInterpreter.GetRequest` | server/src/protocol/protocol_interpreter.cpp:92-96 | hands over the request and restarts |
| `Interpreter.ProtocolInterpreter.Restart` | server/src/protocol/protocol_interpreter.cpp:15-19 | the initial state |
| `Requests.TDPService.PrepareRequest` | cli/src/tdpservice/tdpservice.cpp:203-227 | the length guard exactly, and the text printed as command, present fields and blank line |
| `Requests.FieldLinesParse` | cli/src/tdpservice/tdpservice.cpp:207-224 | the guard keeps every printed field within the server's line limit, and the lines parse to the fields |
| `Requests.RequestTextShape` | server/src/protocol/protocol_interpreter.cpp:56-86 | a printed request is complete for the one-shot reading, with nothing left over, if and only if it has fewer than 16 lines before the blank one |
| `Requests.RequestRoundTrip` | cli/src/tdpservice/tdpservice.cpp:203-227 | for every command and field list the guard accepts and every chunking, the server obtains exactly that request with nothing left over; more than 14 fields are a limit error |
| `Responses.ResponseBuilder.AddLine` | server/src/protocol/response_builder.cpp:14-17 | appends one line |
| `Responses.ResponseBuilder.GetResponse` | server/src/protocol/response_builder.cpp:19-21 | header, the lines in order, a blank line |
| `Responses.ResponseAnalyzer.NextReadChar` | cli/src/tdpservice/responseanalyzer.cpp:92-100 | one step, refused when it reaches the end |
| `Responses.ResponseAnalyzer.GetErrorCode` | cli/src/tdpservice/responseanalyzer.cpp:58-76 | succeeds exactly on three digits with more behind them that are an accepted code, and gives their value |
| `Responses.ResponseAnalyzer.CheckRestOfResponseHeader` | cli/src/tdpservice/responseanalyzer.cpp:78-90 | succeeds exactly when the expected command ends the header and something follows |
| `Responses.ResponseAnalyzer.GetResponseHeader` | cli/src/tdpservice/responseanalyzer.cpp:48-56 | both together |
| `Responses.ResponseAnalyzer.GetResponseLine` | cli/src/tdpservice/responseanalyzer.cpp:102-121 | exactly the bodies of one non-empty line up to the first blank line |
| `Responses.ResponseAnalyzer.GetMultipleLineResponse` | cli/src/tdpservice/responseanalyzer.cpp:123-144 | the body is the text up to and including the first blank line, whatever it is; none when there is none |
| `Responses.ResponseAnalyzer.AnalyseSimpleResponse` | cli/src/tdpservice/responseanalyzer.cpp:4-29 | code, body and reprinted text, or a refusal, for every input |
| `Responses.ResponseAnalyzer.AnalyseMultilineResponse` | cli/src/tdpservice/responseanalyzer.cpp:31-46 | code, body and reprinted text, or a refusal, for every input |
| `Responses.MultilineRoundTrip` | cli/src/tdpservice/responseanalyzer.cpp:31-46 | for every protocol code and every list of non-empty lines, what the builder prints is read back with the same code, body and text, or refused exactly when the code is one of 410 to 415 |
| `Responses.SimpleRoundTrip` | cli/src/tdpservice/responseanalyzer.cpp:4-29 | the same for one-line replies and the simple analyser, which also refuses a line under code 100 where no answer is expected |
| `Responses.EmptyRoundTrip` | cli/src/tdpservice/responseanalyzer.cpp:11-16 | replies without lines are understood exactly with code 100 where no answer is expected |
| `Responses.MultilineExactly` | cli/src/tdpservice/responseanalyzer.cpp:31-76 | for any text: accepted with a code and a body if and only if it begins with one of the codes 100, 300 to 303 and 401 to 409, the command and that body up to its first blank line; the reprint is that text |
| `Responses.SimpleExactly` | cli/src/tdpservice/responseanalyzer.cpp:4-29 | the same for the simple analyser: exactly one line, or none under code 100 where none is expected |
| `Responses.FramingExact` | cli/src/tdpservice/connection.cpp:142-145 | the completeness test holds of a whole response, and of no proper prefix if and only if no body line is empty |
| `Connection.WriteOne` | server/src/protocol/response.cpp:10-24 | one write moves a prefix of the unsent text from the queue to the socket, no more and no less |
| `Connection.Write` | server/src/protocol/sender.cpp:29-44 | whatever the socket takes of each write, sent bytes followed by unsent ones are what was unsent before; a write that takes nothing ends the loop |
| `Connection.Sender.AddResponse` | server/src/protocol/sender.cpp:12-14 | a reply joins the end of the queue |
| `Connection.Sender.SendFront` | server/src/protocol/sender.cpp:31-42 | one turn of the loop |
| `Connection.Sender.Send` | server/src/protocol/sender.cpp:20-52 | the loop computes the queue function; an error that is not "try again" is thrown |
| `Connection.SendBody` | server/src/protocol/download_manager.cpp:21-40 | sent bytes followed by the rest are the rest before; the transfer ends only without an error |
| `Connection.DownloadManager.StartDownload` | server/src/protocol/download_manager.cpp:12-19 | an empty file is not kept |
| `Connection.DownloadManager.Send` | server/src/protocol/download_manager.cpp:21-40 | computes the transfer function |
| `Connection.RoundProgress` | server/src/server/client.cpp:75-118 | every round of the input loop uses up a byte, or throws, or leaves upload mode with the input intact |
| `Connection.Batch` | server/src/server/client.cpp:75-92 | the loop ends on every input and in every mode, with all input used up unless an exception was thrown |
| `Connection.RunAppend` | server/src/server/client.cpp:75-118 | reading byte by byte composes over concatenation |
| `Connection.FeedRuns` | server/src/server/client.cpp:94-118 | the interpreter's outcome on an input is what the run over its bytes shows |
| `Connection.UploadRuns` | server/src/server/client.cpp:112-118 | upload bytes taken at once are stored as they are one by one |
| `Connection.UploadEnds` | server/src/server/client.cpp:112-118 | the bytes missing and no others are stored, and what follows is read as requests |
| `Connection.UploadFails` | server/src/protocol/upload_manager.cpp:56-60 | a file that cannot be put in place ends the reading of the batch |
| `Connection.BatchIsRun` | server/src/server/client.cpp:75-118 | a batch within the limits and with nothing behind a `dls` has exactly the effect of its bytes one by one, and parks nothing |
| `Connection.BatchParks` | server/src/server/client.cpp:82-85 | what follows a `dls` in its batch is parked whole and changes nothing else |
| `Connection.CleanSplit` | server/src/server/client.cpp:75-92 | a clean batch stays clean when it is cut in two |
| `Client.OutputConserved` | server/src/server/client.cpp:120-180 | at every point of every run, bytes written, then queued replies, then the rest of the current file are the answers to everything handled, in order |
| `Client.AllAnswered` | server/src/server/client.cpp:33-43 | from the start of a connection nothing is written that is not owed, and whenever the server asks for input everything owed has been written |
| `ClientProgress.InputAskedExactly` | server/src/server/client.cpp:33-43 | in every run of events that were asked for, input is asked for if and only if everything owed has been written and no file is being sent |
| `ClientProgress.UploadGetsOn` | server/src/server/client.cpp:33-118 | for every way of cutting the missing bytes of an upload there is a run in which they are asked for, read and stored, and which ends in command mode if the file can be put in place |
| `ClientProgress.RequestIsExecuted` | server/src/server/client.cpp:94-133 | a request the console client prints, read by a connection that waits for one, is executed with exactly its command and fields |
| `ClientProgress.ReplySession` | server/src/server/client.cpp:94-158 | a request that is answered: over the two events asked for, exactly that request is executed, exactly its reply written, and the connection waits again |
| `ClientProgress.ExitSession` | server/src/protocol/execution/exit.cpp:6-8 | a request that kills: the connection is dead when it has been handled |
| `ClientProgress.UploadSession` | server/src/server/client.cpp:94-158 | a whole upload: request, reply, and exactly the bytes from the offset to the size, however cut; all are asked for and stored, and the connection waits again |
| `ClientProgress.DownloadSession` | server/src/server/client.cpp:120-180 | a whole download: over every long enough sequence of transfers exactly the file from the offset is written, and the connection waits again |
| `ClientProgress.NothingLeftSession` | server/src/protocol/download_manager.cpp:12-33 | a download from the end of a file: that of an empty file is over with the next event for writing, that of any other kills the client; nothing is written |
| `ClientProgress.RepliesGo` | server/src/protocol/sender.cpp:20-52 | when the socket takes all of it, everything queued is written and the queue is empty |
| `ClientProgress.SomethingGoes` | server/src/protocol/sender.cpp:29-44 | when the socket takes anything, at least a byte is written |
| `ClientProgress.EmptyFileGoes` | server/src/server/client.cpp:173-180 | an empty file ends its download with the next event for writing, and nothing is written |
| `ClientProgress.ReadFailureKills` | server/src/server/client.cpp:45-60 | a read that fails kills the client |
| `ClientProgress.WriteFailureKills` | server/src/server/client.cpp:45-60 | so does a write that fails |
| `Client.StreamDecides` | server/src/server/client.cpp:45-118 | requests executed, refusals, bytes stored and what the interpreter holds are those of the stream read byte by byte, whatever the batches, write readiness and transfers |
| `Client.SameStreamSameLog` | server/src/server/client.cpp:45-118 | two runs that read the same bytes, cut differently, did the same |
| `Client.PipelinedAfterDlsLost` | server/src/server/client.cpp:62-67 | bytes behind a `dls` in its batch are dropped by the next event, whatever it is, and never read |
| `Client.ExitDoesNotEndBatch` | server/src/server/client.cpp:75-92 | at any point of a connection: requests behind one that kills the client are executed when they came with it and not when they came later |
| `Pipelining.ExitThenLs` | server/src/server/client.cpp:75-92 | a concrete pair of runs: `exit` and `ls` in one read are both executed, in two reads only `exit` is |
| `Pipelining.DlsThenLs` | server/src/server/client.cpp:62-67 | a concrete pair of runs: `ls` behind `dls` in one read is never executed, in two reads it is |
| `Client.DownloadExact` | server/src/server/client.cpp:173-180 | over every sequence of partial transfers the client is sent exactly the rest of the file, and is back in command mode exactly when the last byte has gone |
| `Client.DownloadSafe` | server/src/protocol/download_manager.cpp:26-36 | a download survives every sequence of partial transfers if and only if the part to be sent is not empty and shorter than 2^32 - 1 |
| `Client.Client.ExecuteCommand` | server/src/server/client.cpp:120-158 | reply, upload, download or fatal error, with or without a reply queued before it, as the automaton says |
| `Client.Client.HandleRequestBytes` | server/src/server/client.cpp:94-110 | a request is executed, an error answered and the interpreter restarted |
| `Client.Client.HandleUploadBytes` | server/src/server/client.cpp:112-118 | stores what is missing, returns the rest, leaves upload mode with the last byte, or throws when the file cannot be put in place |
| `Client.Client.HandleRound` | server/src/server/client.cpp:77-90 | one round by mode |
| `Client.Client.HandleBytes` | server/src/server/client.cpp:75-92 | the loop terminates and computes the batch function |
| `Client.Client.HandleOutput` | server/src/server/client.cpp:160-180 | replies first, a file body only when there are none |
| `Client.Client.HandleEvent` | server/src/server/client.cpp:45-73 | pending input before new input, then output; an exception kills |
| `Paths.LockTestExact` | server/src/protocol/path_lock.cpp:13-19 | the test holds if and only if the paths agree on all but the last component of the tested one, and that one is a textual prefix of the locked path's component there |
| `Paths.AncestorsAreCovered` | server/src/protocol/path_lock.cpp:13-19 | it holds of a locked path and of every ancestor of it |
| `Paths.MovedExact` | server/src/protocol/execution/rename.cpp:45-45 | moving loses and invents nothing: what is below the target is exactly what was below the origin |
| `Disks.RelocatedOk` | server/src/protocol/execution/rename.cpp:29-45 | a permitted move leaves every entry in a directory under the root, and every open file where its handle says |
| `Disks.ErasedOk` | server/src/protocol/execution/rm.cpp:31-31 | so does a removal |
| `Disks.TemporaryApart` | server/src/protocol/server_context.cpp:106-112 | no two temporary files of any users have the same path |
| `Disks.TemporaryOrdinary` | server/src/user/user_table.cpp:13-19 | a user name that the table lets through makes proper file names |
| `Copy.TargetInjective` | server/src/protocol/execution/cp.cpp:16-19 | different attempts name different entries |
| `Copy.TakenBound` | server/src/protocol/execution/cp.cpp:16-19 | so there are at most as many failed attempts as entries |
| `Copy.Search` | server/src/protocol/execution/cp.cpp:14-19 | the least attempt that names nothing, and it is at most the number of entries in the tree |
| `Copy.Execute` | server/src/protocol/execution/cp.cpp:11-21 | the loop ends on every tree; the plain name or else the least free copy, nothing overwritten, nothing else changed |
| `Uploads.OpenedHolds` | server/src/protocol/upload_manager.cpp:17-26 | opening for a retry keeps the partial file the prefix it was, opening afresh empties it, and the file written to is the partial file |
| `Uploads.CommittedHolds` | server/src/protocol/upload_manager.cpp:28-60 | bytes that continue the source keep the partial file a prefix of it; with the last one the destination is exactly the source |
| `Uploads.CommittedOk` | server/src/protocol/upload_manager.cpp:28-60 | in every state of the disk, committing bytes keeps the tree well formed, and outside the configuration directory nothing is gone and files stay files |
| `Uploads.UploadManager.StartUpload` | server/src/protocol/upload_manager.cpp:17-26 | computes the opening function, record gone, or throws with nothing changed when the temporary file cannot be opened |
| `Uploads.UploadManager.CommitBytes` | server/src/protocol/upload_manager.cpp:28-38 | computes the committing function: files, offset, remainder |
| `Uploads.UploadManager.Finish` | server/src/protocol/upload_manager.cpp:56-60 | whatever is at the partial path replaces the destination, or the upload stays and an exception is thrown |
| `Uploads.UploadManager.Close` | server/src/protocol/upload_manager.cpp:11-15 | an unfinished upload leaves its record |
| `ServerState.Sweep` | server/src/protocol/server_context.cpp:119-121 | exactly the live entries remain |
| `ServerSafety.UnlockedIsFree` | server/src/protocol/server_context.cpp:96-104 | no live lock lies at or below a path that tests as not locked |
| `ServerSafety.RmKeeps` | server/src/protocol/execution/rm.cpp:24-34 | `rm` keeps the invariant |
| `ServerSafety.RenameKeeps` | server/src/protocol/execution/rename.cpp:29-55 | `rename` keeps the invariant |
| `ServerSafety.MvKeeps` | server/src/protocol/execution/mv.cpp:9-31 | `mv` keeps the invariant |
| `ServerSafety.CpKeeps` | server/src/protocol/execution/cp.cpp:11-32 | `cp` keeps the invariant |
| `ServerSafety.MkdirKeeps` | server/src/protocol/execution/mkdir.cpp:22-30 | `mkdir` keeps the invariant |
| `ServerSafety.CdKeeps` | server/src/protocol/execution/cd.cpp:13-17 | `cd` keeps the invariant |
| `ServerSafety.AllowedOutside` | server/src/protocol/server_context.cpp:87-94 | a path that the textual test lets through is not in the configuration directory |
| `ServerSafety.DlKeeps` | server/src/protocol/execution/dl.cpp:31-36 | `dl` keeps the invariant |
| `ServerRuns.DlsKeeps` | server/src/protocol/execution/dls.cpp:12-18 | `dls` hands the token over and keeps the invariant |
| `ServerRuns.SentKeeps` | server/src/protocol/download_manager.cpp:21-40 | a transfer keeps the invariant, whether it ends the download, goes on or kills the client |
| `ServerRuns.AuthoriseKeeps` | server/src/protocol/execution/auth.cpp:25-39 | `auth` keeps the invariant: live logins listed, owned and unique |
| `ServerRuns.LogoutKeeps` | server/src/protocol/client_context.cpp:52-54 | `logout` keeps the invariant |
| `ServerRuns.UlKeeps` | server/src/protocol/execution/ul.cpp:31-38 | `ul` keeps the invariant |
| `ServerRuns.UlRetryKeeps` | server/src/protocol/execution/ul.cpp:83-106 | `ul` with `retry` keeps the invariant |
| `ServerRuns.DataKeeps` | server/src/protocol/upload_manager.cpp:28-38 | upload bytes keep the invariant, finished or failed |
| `ServerRuns.CloseKeeps` | server/src/protocol/upload_manager.cpp:11-15 | a disconnection releases what the client held and keeps the invariant |
| `ServerRuns.OneClientPerUser` | server/src/protocol/server_context.cpp:33-51 | two clients are never logged in under one name |
| `ServerRuns.UploadsApart` | server/src/protocol/execution/ul.cpp:31-38 | two uploads have different tokens and different temporary files |
| `ServerRuns.StepKeeps` | server/src/protocol/server_context.cpp:33-147 | every step of every client, those on the configuration directory included, keeps the invariant on files, locks, logins and clients |
| `ServerRuns.RunKeeps` | server/src/protocol/server_context.cpp:33-147 | so does every run of any number of clients |
| `ServerFrames.StepSpares` | server/src/protocol/client_context.cpp:56-90 | what a client holds, and the lock itself, changes only by its own commands or goes with it |
| `ServerTheorems.DataExact` | server/src/protocol/upload_manager.cpp:28-60 | upload bytes leave an entry outside the configuration directory as it is if and only if they neither finish the upload there with something else nor are written to it through the open file |
| `ServerTheorems.AnchorsStay` | server/src/protocol/server_context.cpp:96-104 | no step removes or relocates a current directory, a file held by a download token or the parent of an upload; and it changes exactly when upload bytes overwrite it |
| `ServerTheorems.ThirdFailureKills` | server/src/protocol/execution/auth.cpp:25-39 | a bad password kills the client if and only if it is the third since the last login |
| `ServerTheorems.DeadStayDead` | server/src/protocol/client_context.cpp:13-19 | no step revives a client |
| `ServerTheorems.EveryRunIsSafe` | server/src/protocol/server_context.cpp:33-147 | after every run from the start and whatever happens next: anchors stay and change exactly when overwritten, names are apart, who uploads has the token of its own name, and a living client has a try count equal to its failures since login, at most 2 |
| `CommandEffects.ReadyExactly` | server/src/protocol/client_context.cpp:29-31 | a client can give commands if and only if it is logged in and in command mode |
| `CommandEffects.LockedExactly` | server/src/protocol/server_context.cpp:96-104 | a path is locked if and only if some live lock agrees with it up to its last name |
| `CommandEffects.ForbiddenExactly` | server/src/protocol/server_context.cpp:87-94 | a path is forbidden if and only if it agrees with `.tds` in the root up to that name |
| `CommandEffects.RmEffect` | server/src/protocol/execution/rm.cpp:24-34 | if the entry exists and no live lock is in the way, it and all below are gone, files open there have lost their place, and nothing else has changed; otherwise nothing has |
| `CommandEffects.RenameEffect` | server/src/protocol/execution/rename.cpp:29-56 | if moreover the new name is free, every entry at or below the old name is at the new one with its content, nothing is left behind, open files have moved along, and nothing else has changed; otherwise nothing has |
| `CommandEffects.MvEffect` | server/src/protocol/execution/mv.cpp:9-31 | the same for `mv` to an allowed directory that is not below the origin |
| `CommandEffects.MkdirEffect` | server/src/protocol/execution/mkdir.cpp:22-30 | a directory is added if and only if the name is free |
| `CommandEffects.CpEffect` | server/src/protocol/execution/cp.cpp:11-32 | a regular file is copied to the plain name or else the least free "(copy k)", and nothing else changes |
| `CommandEffects.CdEffect` | server/src/protocol/execution/cd.cpp:13-17 | the lock on the current directory moves if and only if the path is an allowed directory |
| `CommandEffects.LogoutEffect` | server/src/protocol/client_context.cpp:52-54 | exactly this login ends; all others stay |
| `CommandEffects.BadPasswordEffect` | server/src/protocol/execution/auth.cpp:25-39 | a failure is counted, and a living client survives if and only if it is not the third |
| `CommandEffects.GoodPasswordEffect` | server/src/protocol/execution/auth.cpp:25-39 | the client is logged in at the root if and only if it was not logged in and nobody is under that name |
| `CommandEffects.NameTakenExactly` | server/src/protocol/server_context.cpp:41-46 | a name tests as taken if and only if a live login has it |
| `CommandEffects.DlRefused` | server/src/protocol/execution/dl.cpp:31-36 | without a file, or with an offset beyond it, no token is given and nothing changes |
| `CommandEffects.DlsEffect` | server/src/protocol/execution/dls.cpp:12-18 | the token of the last `dl` passes to the download manager, or dies if its file is empty; without one nothing happens |
| `CommandEffects.FreeExactly` | server/src/protocol/server_context.cpp:67-85 | an upload is admitted if and only if nothing is at the path, its parent exists, it fits and no live lock has that path |
| `CommandEffects.UlEffect` | server/src/protocol/execution/ul.cpp:31-38 | the client is in upload mode with a token for the path if and only if that holds, and survives if and only if its temporary file can be opened; otherwise nothing changes |
| `CommandEffects.DataEffect` | server/src/protocol/upload_manager.cpp:28-60 | the offset counts the bytes; with the last one the client is back in command mode without its token if the file can be put in place, and dead if not |
| `CommandEffects.OpenAfterData` | server/src/protocol/upload_manager.cpp:28-60 | which files are open afterwards, and where: the client's own is closed with the last byte, and a file put in place displaces the one that was there |
| `CommandEffects.DisconnectEffect` | server/src/protocol/upload_manager.cpp:11-15 | exactly the client, its login and its locks go; an upload in progress leaves its record if that can be written |
| `UploadPaths.PathsStayApart` | server/src/protocol/server_context.cpp:129-137 | every step keeps the destinations of uploads apart |
| `UploadPaths.UploadsGoApart` | server/src/protocol/server_context.cpp:129-137 | in every run from the start, two uploads in progress have different destinations |
| `Scenarios.FileReplacedUnderToken` | server/src/protocol/server_context.cpp:67-85 | a concrete run after which upload bytes replace the file that another client has a download token for |
| `DownloadTheorems.AnnouncedIsSent` | server/src/protocol/execution/dl.cpp:31-36 | whatever happens between `dl` and `dls`: the file is there, its text is what the overwriting upload bytes made of it, and the body has the announced length if and only if that text is long enough; undisturbed it is exactly the announced part |
| `DownloadTheorems.DeliveredAsAnnounced` | server/src/protocol/download_manager.cpp:12-40 | from `dl` to the last byte: undisturbed, over every sequence of partial transfers, exactly the announced bytes are written and the client is back in command mode exactly when all have gone |
| `DownloadTheorems.AnnouncedExactly` | server/src/protocol/execution/dl.cpp:31-36 | a length is announced if and only if there is a file and the offset is within it: what is left from there |
| `DownloadTheorems.SenderFetches` | server/src/protocol/download_token.cpp:29-35 | in every reachable state the token of a file being sent has an offset within its size |
| `DownloadTheorems.LockedTillLastByte` | server/src/protocol/download_manager.cpp:21-40 | the lock is released and the mode is command exactly with the last byte; when a transfer kills the client, exactly |
| `UploadTheorems.HonestStep` | server/src/protocol/upload_manager.cpp:11-67 | every step in which clients send what they mean to send and the configuration directory is not removed, renamed or moved keeps: a record or upload with offset o means that the partial file is exactly the first o bytes, and its path is the one asked for |
| `UploadTheorems.HonestRunKeeps` | server/src/protocol/upload_manager.cpp:11-67 | so does every such run, with any chunks, disconnections and retries |
| `UploadTheorems.FinishExact` | server/src/protocol/upload_manager.cpp:33-60 | when an upload ends, the destination asked for is exactly the file meant, the partial file is gone and nothing else in the tree changed |
| `UploadTheorems.FinishedUploadIsExact` | server/src/protocol/execution/ul.cpp:83-106 | the same after every honest run from the start that leaves the configuration directory alone |
| `UploadTheorems.TreeConf` | server/src/protocol/execution/path_based_command.cpp:56-60 | no command reaches the configuration directory, except `rm`, `rename` or `mv` of that directory itself |
| `Scenarios.TamperedUploadIsWrong` | server/src/protocol/execution/rename.cpp:29-45 | a concrete run with honest clients in which the configuration directory is renamed, a partial file removed and the directory put back: the finished upload is not the file meant |
| `RetryTheorems.RetryExact` | server/src/protocol/execution/ul.cpp:83-106 | in every reachable state, a retry with the rest of the file ends with the file in place if and only if the destination is free and in a directory, the temporary file can be opened, and it is still what the record says |
| `RetryTheorems.FinishIsSourceExactly` | server/src/protocol/upload_manager.cpp:28-60 | in every state, an upload that ends with the rest of its source makes the destination the source if and only if its open file is still at the partial path with what the offset says, or it is elsewhere and the whole source is there |
| `RetryTheorems.RetryUsesUpRecord` | server/src/protocol/execution/ul.cpp:83-106 | a retry uses up the record in any case and starts an upload if and only if nothing is at the destination, its parent exists, it fits and no live lock has that path; refused, it does nothing else |
| `RetryTheorems.RetryStarts` | server/src/protocol/execution/ul.cpp:83-106 | one that starts has the path, size and offset of the record, and the client survives if and only if the temporary file can be opened |
| `RetryTheorems.NothingToRetry` | server/src/protocol/execution/ul.cpp:88-92 | without a record nothing changes |
| `RetryTheorems.RefusedIsLost` | server/src/protocol/execution/ul.cpp:97-97 | after a refused retry there is nothing to resume |
| `Scenarios.RefusedRetryIsLost` | server/src/protocol/server_context.cpp:67-74 | a concrete run in which a directory made at the destination costs the user its upload |
| `WireToFile.ConnectionStores` | server/src/server/client.cpp:112-118 | whatever the batches, a connection stores exactly the bytes its upload is missing and goes on with requests |
| `WireToFile.ChunksAreOne` | server/src/protocol/upload_manager.cpp:28-38 | however the missing bytes are cut, the shared state is that of all of them at once |
| `WireToFile.StoredBytesAreTheFile` | server/src/protocol/upload_manager.cpp:28-60 | the bytes a connection logs as stored are the bytes that complete the file on the disk |
| `ServerContexts.ServerContext.IsPathLocked` | server/src/protocol/server_context.cpp:96-104 | the search finds a live lock if and only if there is one that covers the path |
| `ServerContexts.ServerContext.IsFileUploaded` | server/src/protocol/server_context.cpp:129-137 | the search finds a live lock on exactly this path if and only if there is one |
| `ServerContexts.ServerContext.EraseExpired` | server/src/protocol/server_context.cpp:145-147 | the loop computes the sweep |
| `ServerContexts.ServerContext.InsertPathLock` | server/src/protocol/server_context.cpp:139-143 | expired entries go, the new lock comes last |
| `ServerContexts.ServerContext.IsNameTaken` | server/src/protocol/server_context.cpp:41-46 | the search finds a live login under the name if and only if there is one |
| `ServerContexts.ServerContext.AuthorizeUser` | server/src/protocol/server_context.cpp:33-51 | bad credentials before a taken name; a token exactly when neither applies; the lists after each |
| `ServerContexts.ClientContext.SetAuthToken` | server/src/protocol/client_context.cpp:33-42 | a missing token counts a failure, a second login is refused and changes nothing, a login resets the count |
| `ServerContexts.GrantWorkDir` | server/src/protocol/client_context.cpp:56-58 | taking a new current path releases exactly the one held before |
| `ServerContexts.AuthCommand.Enter` | server/src/protocol/execution/auth.cpp:28-28 | the client takes the root as current directory |
| `ServerContexts.AuthCommand.Fail` | server/src/protocol/execution/auth.cpp:29-35 | a failure is counted and the third kills |
| `ServerContexts.AuthCommand.Execute` | server/src/protocol/execution/auth.cpp:25-39 | with its exception path it computes the `auth` step of the state machine; it throws exactly when no new login results |
| `Dispatch.NextKeeps` | server/src/server/client_service.cpp:31-58 | every step of acceptor and workers keeps: what a worker claims is open, disarmed, the connection it was, and claimed by nobody else |
| `Dispatch.RunKeeps` | server/src/server/client_service_supervisor.cpp:34-92 | so does every interleaving |
| `Dispatch.RearmKeeps` | server/src/server/client_service_supervisor.cpp:69-79 | arming again or closing gives up the claim, even when the descriptor number is reused |
| `Dispatch.RearmEffect` | server/src/server/client_service_supervisor.cpp:69-79 | a live client stays in the pool and is armed; a dead one is out of the pool, its socket closed and its descriptor free; all other descriptors are as before |
| `Dispatch.DeadDoNotLinger` | server/src/server/client_service.cpp:47-58 | in every interleaving without a crash, a client in the pool that is not alive has just been handled by a worker, which is about to close it |
| `Dispatch.WorkersServe` | server/src/server/client_service.cpp:31-63 | in every interleaving without a crash, while the server runs no worker has ended or been told to |
| `Dispatch.DeliverEffect` | server/src/server/client_service_supervisor.cpp:65-67 | exactly the descriptors handed out are disarmed |
| `Dispatch.GetEffect` | server/src/server/client_pool.cpp:29-36 | in every reachable state the client looked for is found, and is the one the event was for |
| `Dispatch.HandleEffect` | server/src/server/client_service.cpp:47-58 | only the client at hand may die, and none comes back to life |
| `Dispatch.OneWorkerPerClient` | server/src/server/client_service.cpp:36-58 | in every interleaving a worker works on a client that is in the pool and is the one its event was for, and no other worker has or can get an event for it |
| `Dispatch.StopReturns` | server/src/server/client_service_supervisor.cpp:81-92 | when stop returns, all workers have ended, the pool is empty and no connection is open |
| `Dispatch.StopIsFinal` | server/src/server/client_service_supervisor.cpp:81-92 | the pool never exceeds the limit; once stop has returned, whatever happens: no worker ever claims or touches a client again, and there is one client at most |
| `Dispatch.EmptyExactlyWhen` | server/src/server/server.cpp:95-109 | after stop the pool stays empty whatever happens if and only if the main thread has no connection left in its batch that can be admitted |
| `Dispatch.ClientAfterStop` | server/src/server/server.cpp:76-117 | a concrete run in which a client enters the pool after stop has returned |
| `Dispatch.Closer` | server/src/server/client_service.cpp:31-45 | once stop has been called, every worker that has not ended can take a step of its own that brings it closer to its end |
| `Dispatch.StopCanComplete` | server/src/server/client_service_supervisor.cpp:81-92 | so from every reachable state stop can be completed by steps of the workers alone |
| `Permissions.ToString` | server/src/user/permissions.cpp:17-27 | the loop prints the symbols of the permissions that are set |
| `Permissions.PermsFromString` | server/src/user/permissions.cpp:29-39 | the loop computes the parsing function; an unknown symbol is an error wherever it stands |
| `Permissions.ParsedExact` | server/src/user/permissions.cpp:29-39 | a text is accepted if and only if it has only known symbols, and denotes exactly the permissions it names |
| `Permissions.TextRoundTrip` | server/src/user/permissions.cpp:17-39 | printing and parsing keeps exactly the five permissions |
| `Permissions.TextAndBits` | server/src/user/permissions.cpp:10-27 | which bit prints as which symbol, in which order, and that parsing gives those bits back |
| `Permissions.UserPermsCommand.ParseArguments` | server/src/cli/user_commands/user_perms_command.cpp:20-42 | succeeds if and only if there are flags and all are well formed; the two sets are what '+' and '-' flags name |
| `Permissions.Folded` | server/src/cli/user_commands/user_perms_command.cpp:44-49 | a bit ends up set if and only if no '-' flag names it and it was set before or a '+' flag names it; other bits stay |
| `Permissions.UserPermsCommand.Execute` | server/src/cli/user_commands/user_perms_command.cpp:44-49 | that update |

## Left out

- Sockets, epoll, pipes, signals and `sendfile` (server/src/linux, server/src/ip): foreign calls; they appear as byte counts, batches and an armed set chosen by the environment.
- Console, desktop and mobile user interfaces, and the console client's transfer loops: only the request printer, the response parser and the completeness test are modelled; that a client sends the rest of its file after a retry is an assumption (`UploadTheorems.Honest`).
- Configuration, TOML, password hashing, the user table and logging: a password check is a parameter of `auth`, size limits a parameter of `ul`. A record is a file that holds a path, a size and an offset.
- ServerRuns.UlRetryKeeps: a file that users put in the place of a record, through a renamed `.tds`, is not read as a record, because what the TOML reader makes of arbitrary text is not part of the model; the code would take its path and offset as they are.
- ServerRuns.StepKeeps: the same gap, for the `ul` step with `retry` only.
- ServerRuns.RunKeeps: the same gap over runs; it needs a run in which `.tds` is renamed or removed.
- `ls`, `tree`, `pwd`, `name` and `perms`: listings through library iterators and one-line replies.
- Field parsing and permission checks of the commands: a command that is refused there is no step of the state machine.
- The commands of the shared state machine are atomic functions on values, except `auth` and `cp`, which are also methods: races between a check and the action inside one command, and the sharing of tokens by pointer, are not captured.
- A whole connection is not joined with the whole shared state machine in one system: the connection takes the server behind it as an arbitrary function of what happened so far. They are joined for the bytes of an upload (`WireToFile`) and the body of a download (`DownloadTheorems`).
- The error text of limit errors (read from the list of lines after it was cleared), and texts of replies in general.
- After a line that is too long or a line too many, where reading goes on depends on the chunks: the code does not promise otherwise, and the chunking theorems are about streams within the limits.
- Paths that are not normalised, names "." and "..", symbolic links, and containment in the root.
- Corners that only a renamed `.tds` opens: two uploads that have the same file open both write at its end; a directory put at the path of a temporary file makes the final rename fail; and a connection whose second upload cannot open its temporary file leaves no record, where the code leaves one under the name of the first.
- A write to a partial file takes all its bytes or none; running out of disk space is not modelled.
- Failures to open a file when a transfer starts are part of the fatal outcome of a command on a connection; for uploads the shared state machine has them as well.
- ClientProgress.InputAskedExactly: replies are taken not to be empty, as every response has a header (`Responses.ResponseBuilder.GetResponse`); an empty one would stay queued for good.
- Client.DownloadExact: `sendfile` moving nothing kills the client, so every transfer is taken to move at least one byte.
- Copy.Execute: the copy number is unbounded, where the code has an `int`; since it never exceeds the number of entries (`Copy.Search`), the two agree on every tree of fewer than 2^31 entries.
- Dispatch.OneWorkerPerClient: safety only; the first event of a connection may be lost, since its socket is registered before the client enters the pool.
- Dispatch.StopCanComplete: the steps exist; that the scheduler takes them is not modelled.
- Dispatch: `ClientPool` and the supervisor are fields of one state whose operations are atomic, as their mutexes make them.
