# HomeCTL: verified models of its protocols

HomeCTL is a Go server and a Go agent on each managed machine, which exchange JSON messages over one
WebSocket. This project models the state machines around that link and proves properties of all their
runs. There is one module per component:

| module | what it models |
|---|---|
| `Prelude` | options, bytes and counting, used everywhere |
| `PendingRequests` | the server's bounded, once-closed reply queue of one request |
| `Download` | a whole file download: HTTP handler, both reader loops, the agent's worker, four queues |
| `DownloadProgress` | that a download in which nothing fails comes to an end, and to which |
| `UploadSessions` | one upload session's temporary file: writing a chunk, finishing |
| `Upload` | a whole credit-windowed upload, from the request body to the renamed target file |
| `UploadProgress` | that an upload in which nothing fails comes to an end, and to which |
| `UploadTable` | any number of upload sessions sharing the agent's `uploads` map |
| `UploadRefinement` | the agent of `Upload` as a session of `UploadTable` |
| `Tokens` | the formats of enrollment tokens, device tokens and device ids |
| `StateFiles` | the agent's state file, replaced through a temporary file, with crashes and power losses |
| `Enrollment` | the agent's identity, the hello handshake and the enrollment transaction, with losses, restarts and power losses |
| `Listings` | enumerating a finite set along a total order |
| `DeviceOrder` | the `devices` table with `sort_order`, reordering and the first migration |
| `Throttle` | the fixed-window failure counter with lockout |
| `Totp` | the matching window of one-time passwords |
| `TwoStageLogin` | password sign-ins, pre-auth entries, the TOTP requests that use them, the login transaction and the account handlers |
| `LoginThrottle` | how the failure counter throttles whole runs of that machine |
| `PeakWindow` | network rates and their sliding-window peaks |
| `TerminalSlots` | terminal sessions, their slots and their input queues |
| `HeartbeatMailbox` | the one-place heartbeat channel of a connection |

How to read them. A protocol is a function `Step` from a state and an event to a state; an event is one
critical section, one channel operation, one SQL transaction or one act of the environment. An event that
is not `Enabled` changes nothing, so every sequence of events is a run, `After` is the state it leads to,
and a theorem about `After(run)` for every `run` covers every interleaving. Each machine has an inductive
invariant `Inv`; the lemmas called `Inv...` show that every event keeps it. What the program changes in
place is also a class, whose methods are proved equal to the functions that `Step` is made of, or, where
a method spans several steps (`QueueHeartbeat`, `Bootstrap`), to what those steps do together.
Progress is stated for runs in which nothing fails (`CleanRun`): such a run cannot be longer than a
measure of the initial state, and until it is at rest some clean event is enabled.

Assumptions. Each direction of a connection is FIFO and lossless until it closes. Base64 decoding undoes
encoding (a message that does not decode is modelled as such). The hash of tokens is injective on the
tokens in play, and random tokens, ids and pre-auth keys are fresh. SQL transactions are atomic. A file's
synced content survives a power loss, and its name then stands for one of the files it has stood for since
the directory was last synced. A clock read under a mutex does not go back where the theorem says
`Chronological`. Nobody but the agent sends its device token, and no imported row has its hash. Floating-point rates are real numbers.

`dafny verify dfyconfig.toml` checks the project.

## Model

| member | source | states |
|---|---|---|
| PendingRequests.PendingRequest.Finish | internal/server/server.go:851-858 | only the first cause closes `done` |
| PendingRequests.PendingRequest.Deliver | internal/server/server.go:869-884 | a closed request ignores, an open one with room queues at the end, a full one is finished with backpressure and queues nothing |
| Download.WindowConserved | internal/server/files.go:131-219 | in every reachable state credits in the channel, in hand, and those turned into chunks or credit messages anywhere are at most 4, and exactly 4 while both ends are transferring |
| Download.QueuesNeverOverflow | internal/server/server.go:869-884 | the reply queue holds at most 6 of 8 messages, so backpressure is unreachable; a `file_credit` for a registered session always fits into the agent's channel |
| Download.BodyIsExact | internal/server/files.go:144-219 | the response body is a prefix of the first `size` bytes of the opened file even if it grows, all of them at an error-free `file_end`; `total` is its length unless the write to the client failed; no exit that blames the agent can be taken |
| Download.StretchBound | cmd/agent/files.go:317-363 | any stretch of the agent's replies has at most `file_meta` and `file_end` besides its chunks, which is what bounds the reply queue by the window |
| DownloadProgress.MeasureDrops | cmd/agent/files.go:320-363 | every event of a failure-free download strictly lowers a measure over remaining bytes and message stages |
| DownloadProgress.NeverStuck | cmd/agent/files.go:320-363 | a failure-free download that is not at rest has a failure-free event enabled |
| DownloadProgress.CleanDownloadCompletes | cmd/agent/files.go:262-363 | a failure-free download ends within the initial measure; the client then has the whole file, or the device's error and no byte if the file exceeds the effective limit |
| Download.AddCredits | cmd/agent/files.go:399-416 | adding credits never takes any away and never exceeds the channel's capacity |
| Download.CreditChannel.HandleFileCredit | cmd/agent/files.go:399-416 | the loop of non-blocking sends adds exactly the credits that fit, for amounts of any sign |
| Download.DownloadLoop.OnReply | internal/server/files.go:148-219 | one pass over a reply changes the handler's variables, and asks for `file_cancel`, exactly as the machine's step does |
| UploadSessions.WriteAcceptsExactly | cmd/agent/files.go:534-555 | a chunk is accepted if and only if it decodes, is at most 512 KiB, keeps `written` within int64 and the maximum, and is written whole; then the file grows by exactly it; the bounds hold after every outcome |
| UploadSessions.Upload.WriteChunk | cmd/agent/files.go:534-555 | the in-place write has that effect, counting also the bytes of a short write |
| UploadSessions.Upload.FinishUpload | cmd/agent/files.go:557-577 | the temporary file becomes the target only if the size matches, every system call succeeded and no target existed; the file is closed either way |
| Upload.WindowConserved | internal/server/files.go:303-368 | credits at the server, in chunks, in events, with the worker, in credit messages and lost ones are always 4; none is lost while nothing has failed, and no credit message is clipped by the window |
| Upload.QueuesNeverOverflow | cmd/agent/files.go:579-594 | neither the server's reply queue nor the agent's event queue overflows, and `file_upload_end` finds its session in the table with an empty queue and an idle worker |
| Upload.FailedWriteNeverEnds | internal/server/files.go:354-369 | after a step in which the agent fails to write a chunk, or drops it because its session was stopped, no continuation of the run reaches the sending of `file_upload_end` or the answer ok |
| Upload.LostForEver | internal/server/files.go:315-345 | a credit that has been lost is lost over every continuation |
| Upload.OkMeansWholeBody | internal/server/files.go:313-380 | when the server answers ok the target holds exactly the request body, `total` is its length and Content-Length if that was known; `written` never passes the maximum or int64 |
| UploadProgress.MeasureDrops | internal/server/files.go:315-369 | every event of a failure-free upload strictly lowers a measure over remaining bytes and message stages |
| UploadProgress.NeverStuck | internal/server/files.go:315-369 | a failure-free upload that is not at rest has a failure-free event enabled |
| UploadProgress.CleanUploadCompletes | internal/server/files.go:239-380 | a failure-free upload of any body ends within the initial measure; it is answered ok, with the body in the target, if and only if the body fits both maxima and its announced length; otherwise the answer is that it is too large, or the refusal of the device, and there is no target |
| Upload.FinishedIsEmpty | internal/server/files.go:354-369 | by conservation, once the drain loop has let `file_upload_end` go no chunk, credit or byte is anywhere on the way |
| Upload.UploadLoop.OnReply | internal/server/files.go:274-327 | `wait` and its callers react to a message exactly as the machine's step does, including messages of another type |
| Upload.UploadLoop.OnBytes | internal/server/files.go:328-344 | bytes read from the body are counted, checked against the maximum, and sent at the price of one credit |
| UploadTable.RemovedExactlyOnce | cmd/agent/files.go:579-681 | a session leaves the table by one critical section for good: no continuation maps it again or changes its remover, and unless that was the taker of `file_upload_end` it never commits |
| UploadTable.TableIsExact | cmd/agent/files.go:473-487 | at most 4 uploads are mapped, and a session is mapped if and only if nobody has removed it |
| UploadTable.CommitIsAtomic | cmd/agent/files.go:557-577 | apart from the outside world only a successful finish of a session taken with `file_upload_end`, and not told to stop, changes any target; it never replaces an existing file and writes exactly the session's bytes |
| UploadTable.CommittedWasNeverStopped | cmd/agent/files.go:633-660 | an aborted, replaced, overflowed or torn-down session never commits |
| UploadTable.RemovedIsCleanedUp | cmd/agent/files.go:596-666 | over every continuation a removed session takes at most Rank + 10 steps of its own; until it has exited one is enabled, and then clean-up has run exactly once and the temporary file is gone |
| UploadTable.CommittedAtAFinish | cmd/agent/files.go:557-577 | every committed session has a finish in the run at which its target did not exist and got exactly its bytes |
| UploadRefinement.AgentIsASession | cmd/agent/files.go:426-681 | over every run of a whole upload, with all its failures, the agent is the one session of the table run that its steps make, so that what holds of table runs holds of it |
| UploadRefinement.SimStep | cmd/agent/files.go:473-666 | each step of the agent is a short script of critical sections, channel operations and file operations of the table machine, and they lead to the same session |
| UploadRefinement.OkCommitsToAFreePath | internal/server/files.go:369-380 | an upload answered ok has a finish at which its path was free and became exactly the request body, of a session taken by `file_upload_end` and never stopped |
| UploadTable.GoodRemoved | cmd/agent/files.go:596-651 | whichever way the worker calls removeUpload it leaves a session that is consistent, finishing if it owned the table entry and leaving otherwise |
| UploadTable.Uploads.Install | cmd/agent/files.go:473-493 | a start is refused only if its id is new and 4 uploads are active; otherwise the session is mapped and a prior one under its id is taken away |
| UploadTable.Uploads.RemoveUpload | cmd/agent/files.go:643-651 | removes only the session that the table still maps, and says whether it did |
| UploadTable.Uploads.AbortUpload | cmd/agent/files.go:633-641 | takes whatever session the table maps for the id, and owes it a stop |
| Tokens.ValidLowerHexToken | internal/protocol/protocol.go:119-129 | accepts exactly the strings of the given length over 0-9 and a-f |
| Tokens.ValidAgentDeviceID | cmd/agent/state.go:87-98 | accepts exactly the strings of 1 to 128 characters of the device id alphabet |
| Enrollment.RowMatchesStateFile | cmd/agent/main.go:181-199 | over all runs with losses, crashes, restarts and power losses that leave the token on file, a row created by this agent's enrollment carries the hash of the token in its state file |
| Enrollment.TokenIsNeverReplaced | cmd/agent/main.go:311-330 | once chosen, and if no file without a token can come back, the token and id on file survive every continuation, every ack and power loss included |
| Enrollment.TokenSurvivesExactly | cmd/agent/state.go:138-145 | the token on file survives every continuation if and only if nothing the file may read as after a power loss lacks it, which is so once a save has synced the directory |
| Enrollment.SyncedRunsAreKept | cmd/agent/state.go:142-145 | if the directory sync works whenever a token is saved, no power loss takes the token off the file |
| Enrollment.PowerLossKeepsRowExactly | cmd/agent/state.go:142-145 | after a power loss the row that enrollment created matches the file if and only if the token is still there; if it is not, the server turns away every hello with the id and a new token as long as the row exists |
| Enrollment.TokenMayBeLost | cmd/agent/state.go:142-145 | that every row matches its state file is false when the directory sync fails: a run of eight steps enrolls the agent and then brings the file without the token back |
| Enrollment.LostAckRecovers | internal/server/server.go:405-445 | as long as the row created by this agent's enrollment is there and its token on file, the server accepts every hello of the agent that is on its way or would be sent now, whatever was lost and although the enrollment token is used up; an ack that arrives and can be saved ends the pending state and changes neither token nor tables |
| Enrollment.NotPendingMeansEnrolled | cmd/agent/main.go:317-330 | an agent whose token was never lost from the file and that is not pending had its row created at some earlier point of the run |
| Enrollment.EnrollmentIsConserved | internal/server/store.go:750-805 | over the whole run the token table has marked exactly as many tokens as used as enrollment has added rows to the device table; no token is used twice; a token in the table is marked if and only if enrollment has used it |
| Enrollment.EnrollMarksAndAdds | internal/server/store.go:750-805 | an enrollment step marks one token and adds one row, or none of either |
| Enrollment.EnrollIsAtomic | internal/server/store.go:750-805 | a row is created if and only if the token is usable, the id is non-empty and new; then exactly that token is used and the device is listed last; otherwise both tables are unchanged |
| Enrollment.EnrollmentStore.EnrollDevice | internal/server/store.go:750-805 | the transaction in place has that effect if its calls work, and changes nothing if begin, update, insert or commit fails |
| StateFiles.StateFile.Save | cmd/agent/state.go:100-147 | at every moment of a save, whichever call fails or is the last before a crash or power loss, reading the file gives what it gave before or the whole new value; success means the new value, and after the directory sync nothing else can come back |
| StateFiles.StateFile.Prepare | cmd/agent/state.go:113-137 | up to the rename the name of the file stands for what it stood for, and only a written, synced and closed temporary file is renamed |
| Enrollment.AgentIdentity.Bootstrap | cmd/agent/main.go:177-199 | a token on file is never replaced; a new one is saved as pending before the agent runs, and only with a valid enrollment token; the exact condition for starting; whenever the start is cut short the file holds what it held, that with an id, or the whole new identity; once the directory is synced after drawing a token no other file can come back |
| Enrollment.BootstrapEvents | cmd/agent/main.go:177-199 | in the machine bootstrap is the three events ChooseId, ChooseToken and Boot, and a token it draws is safe from power losses if and only if the directory sync worked |
| Enrollment.AgentIdentity.ReceiveAck | cmd/agent/main.go:314-330 | an invalid token is refused; otherwise the pending mark goes, in memory first, on file if the save works, and only then the enrollment token is dropped; the file is old or new at every moment |
| DeviceOrder.TableRefinesList | internal/server/store.go:320-458 | over every sequence of operations the table keeps distinct sort orders and lists as the ordered list that the same operations give |
| DeviceOrder.ApplyRefines | internal/server/store.go:320-458 | one operation of any kind does so |
| DeviceOrder.InsertAppends | internal/server/store.go:797-798 | a new device is listed after all others, the others unmoved |
| DeviceOrder.DeleteRemoves | internal/server/store.go:430-433 | deleting takes one id out of the list and keeps the order of the rest |
| DeviceOrder.AcceptsPermutations | internal/server/store.go:402-416 | the length, duplicate and existence checks accept exactly the permutations of the existing ids |
| DeviceOrder.ReorderLists | internal/server/store.go:417-428 | after an accepted reorder the list is the argument |
| DeviceOrder.MigrationKeepsOrder | internal/server/store.go:285-293 | counting ranks gives n devices the numbers 0 to n-1, each once, and the list by (sort_order, id) afterwards is the list by (name, id) before |
| DeviceOrder.LessIsTotal | internal/server/store.go:436 | the order of text values is strict and total, so that there is one listing |
| DeviceOrder.LessIsTransitive | internal/server/store.go:436 | the order of text values is transitive |
| Listings.ListingIsUnique | internal/server/store.go:435-458 | a finite set has only one listing along a total order, so `List` is determined by the rows |
| Listings.RankIsPosition | internal/server/store.go:288-291 | the number of elements up to one of them is its position in the listing, plus one |
| DeviceOrder.DeviceStore.NextSortOrder | internal/server/store.go:335-336 | finds the number after the largest, 0 for an empty table |
| DeviceOrder.DeviceStore.Insert | internal/server/store.go:797-801 | inserts the row under that number unless the id is there already |
| DeviceOrder.DeviceStore.Put | internal/server/store.go:320-345 | refuses an empty id, updates an existing row but for its cards and order, appends a new one |
| DeviceOrder.DeviceStore.CheckOrder | internal/server/store.go:402-416 | the loop over `seen` and `existing` decides exactly whether the argument is accepted |
| DeviceOrder.DeviceStore.WriteOrder | internal/server/store.go:417-426 | the loop of updates, unless one of them fails, numbers every row by its place in the argument and changes nothing else |
| DeviceOrder.DeviceStore.Reorder | internal/server/store.go:384-428 | installs the whole order if and only if the argument is accepted and every database call works, and otherwise changes nothing |
| DeviceOrder.DeviceStore.Update | internal/server/store.go:347-382 | heartbeat, rename, cards and delete touch one row, and only if it exists |
| Throttle.CounterIsBounded | internal/server/auth.go:342-367 | after every sequence of calls the counter is at most the maximum, locked exactly at it, and open exactly while it is positive |
| Throttle.FailuresAreThrottled | internal/server/auth.go:342-367 | between two clears at most maxFailures times (length / min(window, lockout) + 2) failures are counted in any interval |
| Throttle.FailureCounter.ResetExpired | internal/server/auth.go:342-350 | clears the state after the lockout, or after the window if it is not locked |
| Throttle.FailureCounter.RecordFailure | internal/server/auth.go:352-367 | counts unless locked, locks at the maximum, and returns the time to wait |
| Throttle.FailureCounter.IsLocked | internal/server/auth.go:469-478 | expires the state first, then tells whether a lockout is running and how long it still lasts |
| Totp.MatchIsTheWindow | internal/server/totp.go:31-47 | a code is accepted if and only if, trimmed, it is that of the current step or a neighbour; the current step is preferred, then the earlier one; the numeric check never decides |
| Totp.MatchIsNear | internal/server/totp.go:31-47 | whatever the code generator does, an accepted step is within one of the clock's step and its code is the one given |
| Totp.MatchTOTP | internal/server/totp.go:31-47 | trimming and the loop over drifts return the first match of that window |
| Totp.Trimmed | internal/server/totp.go:32 | what is left neither begins nor ends with white space |
| TwoStageLogin.OneSessionPerPreAuth | internal/server/auth.go:165-178 | one pre-auth entry yields at most one session under every interleaving, persistent exactly as its password stage asked |
| TwoStageLogin.SessionsHaveTheirLogin | internal/server/store.go:642-670 | a TOTP request answered ok has stored a session and no request stores two; a live session has a consumed step stored with it if and only if no sign-in stored it, and a sign-in stores one only if it read an empty secret |
| TwoStageLogin.SignInOvertaken | internal/server/auth.go:78-96 | a sign-in that read an empty secret before TOTP was enabled leaves a live session without a step beside the secret: that every live session has one is false |
| TwoStageLogin.ExposedExactly | internal/server/auth.go:78-96 | such a session comes about exactly when a sign-in that read no secret stores its session although one is set by then, or when a secret is set without revoking sessions |
| TwoStageLogin.NeverExposedExactly | internal/server/auth.go:78-96 | over every run in which setting a secret revokes the sessions, as the handlers do, every live session has its consumed step at every moment if and only if no sign-in stores its session while a secret is set |
| TwoStageLogin.OvertakenReadEarlier | internal/server/auth.go:78-96 | a live session that a sign-in stored beside a secret belongs to a sign-in that read it in an earlier epoch, and has no step |
| TwoStageLogin.PreAuthIsBounded | internal/server/auth.go:212-283 | whenever the mutex is free there are at most 32 entries, all with attempts left, and an entry is busy if and only if one request holds it |
| TwoStageLogin.SpentEntriesStayClosed | internal/server/auth.go:256-269 | an entry that has led to a session can never be claimed again |
| TwoStageLogin.StepsIncrease | internal/server/store.go:648-670 | between two resets of the secret consumed steps strictly increase, none above the stored one, which is itself the step of a login; each matches its code within one step of the clock |
| TwoStageLogin.LoginsAreBounded | internal/server/auth.go:143-189 | between two resets of the secret the logins matched at readings in [t1, t2] are at most step(t2) - step(t1) + 3 |
| LoginThrottle.CodesAreThrottled | internal/server/auth.go:469-496 | in the whole machine the failures counted since the counter was last cleared obey the throttle bound, and the lockout runs exactly at the maximum |
| LoginThrottle.RunsAreThrottled | internal/server/auth.go:342-496 | over a whole run the failures counted in an interval are at most one bound's worth, and one more for each clear, by a login or an account handler, between two of them |
| LoginThrottle.FailuresComeFromCalls | internal/server/auth.go:469-496 | the counter of the machine is the one that the calls since the last clear produce |
| TwoStageLogin.PreAuthTable.Cleanup | internal/server/auth.go:233-239 | keeps exactly the entries that have not expired |
| TwoStageLogin.PreAuthTable.Oldest | internal/server/auth.go:219-228 | finds an entry of earliest expiry, whatever the order of iteration |
| TwoStageLogin.PreAuthTable.Create | internal/server/auth.go:212-231 | drops expired entries, then an oldest one if 32 remain, then adds a fresh one |
| TwoStageLogin.PreAuthTable.Bump | internal/server/auth.go:241-254 | counts an attempt, deletes at the limit, and says whether the entry is gone |
| TwoStageLogin.PreAuthTable.Claim | internal/server/auth.go:256-269 | succeeds exactly for an entry that is live, idle and has attempts left, and marks it busy |
| TwoStageLogin.PreAuthTable.Release | internal/server/auth.go:271-277 | makes the entry idle if it is still there |
| TwoStageLogin.LoginStore.ConsumeTOTPLoginStepAndCreateSession | internal/server/store.go:648-670 | step and session are stored together or neither is, whichever database call fails; a step not above the last is not consumed |
| PeakWindow.PeaksAreTheWindow | cmd/agent/telemetry.go:145-189 | after every call that found an interface the kept samples are the last 600 of all in-window samples since the interface last changed, strictly ordered in time |
| PeakWindow.DroppedStaysDropped | cmd/agent/telemetry.go:168-178 | trimming after every call keeps what trimming once over everything would keep |
| PeakWindow.DropIsFilter | cmd/agent/telemetry.go:168-175 | on ordered samples dropping a prefix is filtering by time |
| PeakWindow.TelemetryState.ResetChangedCollectors | cmd/agent/telemetry.go:123-130 | the samples start afresh exactly when the policy starts or stops showing the network card |
| PeakWindow.TelemetryState.DropOldSamples | cmd/agent/telemetry.go:168-178 | both trimming steps in place |
| PeakWindow.TelemetryState.Record | cmd/agent/telemetry.go:154-178 | takes a sample only against a reading of the same interface, with time passed and no counter gone back |
| PeakWindow.TelemetryState.Peaks | cmd/agent/telemetry.go:179-186 | the loop finds the maxima, 0 without samples |
| PeakWindow.TelemetryState.Network | cmd/agent/telemetry.go:145-189 | the reported peaks are the maxima of that window over the whole history of calls, and the rates those of the last interval |
| TerminalSlots.SlotsAreConserved | cmd/agent/main.go:383-397 | the slot channel holds one token for each open attempt that has not released its slot, never more than 4 |
| TerminalSlots.ReleasedExactlyOnce | cmd/agent/main.go:58-76 | no attempt receives from the slot channel twice, it has done so exactly when it was stopped or failed to open, and a release that is due never blocks |
| TerminalSlots.HeldSlotsAreReachable | cmd/agent/main.go:533-599 | an attempt that holds a slot has not registered yet, is about to be stopped, or is mapped under its own id |
| TerminalSlots.OnlyOwnersRemove | cmd/agent/main.go:601-668 | a terminal leaves the table only by its own exit or overflow, closing its id, a newer terminal with its id or teardown, and is then stopped; a superseded session never removes its replacement |
| TerminalSlots.InputIsOrdered | cmd/agent/main.go:78-109 | what the shell was given is an in-order prefix of the accepted input, at most 17 messages short |
| TerminalSlots.Terminals.StartTerm | cmd/agent/main.go:423-429 | takes a slot if fewer than 4 are taken, and refuses otherwise |
| TerminalSlots.Terminals.RegisterTerm | cmd/agent/main.go:567-574 | maps the terminal and hands back the one it replaces, to be stopped |
| TerminalSlots.Terminals.TermClose | cmd/agent/main.go:638-644 | takes whatever terminal is mapped for the id off the table |
| TerminalSlots.Terminals.FinishTerm | cmd/agent/main.go:646-655 | takes the terminal off the table only if it is the one mapped |
| TerminalSlots.Terminals.CloseTerms | cmd/agent/main.go:657-668 | the loop empties the table and dooms exactly the mapped terminals |
| TerminalSlots.Terminals.StopTerm | cmd/agent/main.go:58-76 | only the first call stops the terminal and gives its slot back |
| HeartbeatMailbox.TakenInOrder | internal/server/server.go:516-551 | the values taken are at strictly increasing places among those queued |
| HeartbeatMailbox.DefaultIsUnreachable | internal/server/server.go:546-550 | the box is empty whenever the second send is reached, so its default is never taken |
| HeartbeatMailbox.NewestIsKept | internal/server/server.go:531-551 | between calls, while the connection is open, the newest heartbeat is in the box or was the last one taken |
| HeartbeatMailbox.HeartbeatsAreConserved | internal/server/server.go:531-551 | every queued heartbeat is taken, waiting, replaced by a newer one, or refused because `done` had closed |
| HeartbeatMailbox.SubsequenceHasPlaces | internal/server/server.go:516-529 | the recursive notion of subsequence means strictly increasing places |
| HeartbeatMailbox.AgentConn.QueueHeartbeat | internal/server/server.go:531-551 | the method, with other goroutines acting between its selects, only makes steps of the machine, and leaves the newest heartbeat in the box of an open connection |

## Left out

- WebSocket, HTTP, cookies, JSON, PTYs, processes, the file system and SQLite: replaced by FIFO sequences, byte sequences, persistent cells and atomic transactions.
- Cryptography and password hashing: TOTP codes are an arbitrary function of secret and step, and hashing is injective; password verification and its admission limit are not part of this model.
- Web UI, configuration loading, release scripts, /proc and /sys parsing, temperature and process scans, path handling, reconnect back-off, metric-card normalisation, the other file operations: not part of this model.
- HTTP status codes, headers and message texts: only which exit is taken is modelled.
- Peers without credits: the composed transfers always have them; `UploadTable` has sessions of both kinds.
- Timers: a timeout may happen at any moment in which the program waits, so nothing depends on durations.
- Two adjacent actions are one step where nobody can see between them: sending an abort and dropping the pending request, a failed write with the removal of its session in `Upload`. In `UploadTable`, whose subject is the removal, they are separate.
- In `UploadTable` the reader loop does not wait while it finishes or stops a session itself, so the machine has more interleavings than the program.
- UploadProgress.CleanUploadCompletes: is about a target that does not exist; one that does makes the last rename fail, which is a failure like the others.
- UploadRefinement.AgentIsASession: the table run has that one session, and the target appears or disappears just before the finish that looks for it.
- Enrollment.RowMatchesStateFile: is about runs in which no power loss takes a token off the file. A failed directory sync is ignored (cmd/agent/state.go:142-145), so this can happen, and `TokenSurvivesExactly` and `PowerLossKeepsRowExactly` say exactly when and what follows.
- Enrollment.LostAckRecovers: assumes that nobody has deleted the device in between; a deleted device needs a new enrollment token.
- StateFiles.StateFile.Save: an encoded identity is one value, so that encoding and decoding are each other's inverse; permissions and the checks on the kind and size of the file are left out.
- The int64 overflow of `sort_order`, an empty token hash or invalid metric cards in `Put`, and the normalisation of enrollment labels: not modelled.
- The per-client password counters with their eviction at 4096 clients, and the limits of reauthentication: their counter is the one of `Throttle`, the map around it is left out.
- A sign-in begins when its password has been found right, and a TOTP request when it has presented a pre-auth cookie; what is answered before that is left out. `SetAdminTOTP`, which sets a secret without revoking sessions, is part of the model although no handler calls it.
- TwoStageLogin.LoginsAreBounded: is per epoch of the secret; nothing is claimed about a request that read the secret before a reset and consumes its step after it, beyond the epoch it counts for.
- LoginThrottle.CodesAreThrottled: bounds counted failures; codes tried concurrently by requests that had already passed the first check are counted when they are recorded.
- TerminalSlots: a terminal that registers after `closeTerms` stays until its shell exits; no claim is made that the table is empty after a disconnect. Resizing and the output direction are left out.
- PeakWindow.PeaksAreTheWindow: is about calls in clock order. `now` is read before the lock is taken, and the heartbeat loop of a connection that has just ended may overlap the next one, so two calls can come in the other order; nothing is claimed then. Rounding of floating-point numbers is not modelled.
