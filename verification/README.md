# LTE modem stack: verified model

This project models the core of an embedded LTE modem stack and proves what every run of it keeps. The stack drives a
Telit xE310 modem over a serial line: a network state machine reacts to unsolicited reports and queues one action at a
time, an AT layer splits the byte stream into answers and reports, and a set of small concurrent parts (queues,
channels, event flags, a one-shot timer, a request protocol) connects it to client threads.

Everything the modem answers, every clock reading and every choice of thread interleaving is an input of the model, so a
list of inputs is a run with an arbitrary environment, and the main results quantify over all such lists.

| file | part of the stack |
|---|---|
| `NetworkModel.dfy` | the network state machine as a function from state and inputs to state |
| `NetworkInvariants.dfy`, `NetworkReach.dfy` | what every run keeps: sockets and address, reachable states, the state path in the trace |
| `NetworkAttach.dfy`, `NetworkClock.dfy` | laws over whole runs: attach attempts, state timer and time counters, forced PSM |
| `NetworkTransparent.dfy`, `NetworkTraffic.dfy`, `NetworkSockets.dfy` | transparent mode and reports, what is sent and in which order, the socket slots |
| `NetworkProgress.dfy` | progress to attaching with a faithful modem, and what loses a pending action |
| `NetworkTables.dfy` | what each turn, event, report, expiry and target leads to, and the ways to data_ready |
| `NetworkLte.dfy`, `TraceRing.dfy`, `NetworkRuns.dfy` | the machine and its trace ring as objects, and the laws on the fields of the object |
| `MessageQueue.dfy` | the payload queue on POSIX and on Zephyr, both proved to be one global queue |
| `MessageChannel.dfy`, `EventFlags.dfy` | the frame channel (ring buffer) and the 32-bit event word |
| `RadioProtocol.dfy` | request, ACK and completion between the network thread and a client |
| `OneShotTimer.dfy` | the one-shot timer: owner thread, waiter threads, mutex and condition variable |
| `UrcStream.dfy`, `AtResponse.dfy`, `Leftover.dfy`, `ModemController.dfy` | report lines, answers, what an answer leaves behind, deadlines and retries |
| `Xe310.dfy` | AT#BND and AT+CPSMS printing and parsing |
| `Buffers.dfy`, `Text.dfy` | bytes, bounded buffers, ring positions, bounded text |

`dafny verify dfyconfig.toml` checks the whole project.

## How the state machine is modelled

`NetworkModel.Next` is one step: a turn of `loop`, a turn of `go_to_state`, a public call, a timer expiry. A `Net` value
holds the fields of the source's object, the reports the modem has been told to send, and history that no step reads:
all trace entries ever pushed, completed stays in timed states, attach attempts and retry increments since the last
registration, messages handed to the modem. `NetworkLteMachine.NetworkLte` has the fields of the source's class and
changes them in place; each of its methods is proved to take the object's value (`View()`) to what `NetworkModel` says, and
`NetworkRuns.Run` that any list of calls, turns and expiries on a fresh object is a run. All laws are proved of the
function, over every list of steps, and `NetworkRuns` restates them on the fields of the object.

## Properties that fail, and exactly when they hold

- The attach attempts since the last registration stay within `max(1, max_attach_retries)` if and only if the 8-bit
  retry counter has been incremented at most 256 times since; after that it wraps to 0 and the attempts start over.
- The time counters are exact on every run without a forced PSM. Forcing it is harmless to them on all continuations if
  and only if the machine is not in data_ready: an accepted one loses the part of the stay before it, a refused one leaves
  the timer running in idle_mode, which has none, and the next sleep is counted from there. The comment on `StateTimers`
  promises the time per visit.
- A client that gives up waiting leaves the protocol sound if and only if the reply it waited for is too large for a
  channel frame. After any other timeout a later request of any kind can consume the abandoned frame; it takes it for its
  own if and only if the two have the same length on the wire (two bytes for `bool` and enumeration responses and for
  completions), and refuses it otherwise. A kind that takes it always exists.
- A command is meant to keep what follows the status line for the next poll. It does if and only if the status word
  occurs in no earlier line; otherwise it keeps everything behind the first line with that word, and a line of the answer
  itself can come out as a report.
- Polled reports equal those of the whole stream if and only if no poll meets more than eight recognised lines.
- A power saving configuration comes back as it was if and only if its timer strings have at most 30 characters, no comma
  and no NUL, although the buffers hold 32 characters.
- Attaching starts with a faithful modem if and only if the wanted technology can be set, or is in force already and is
  not asked for again without a change of bands.
- A send request while an attach is pending overwrites it, and a faithful modem is then never attached; the calls and
  loop turns that lose a pending action are listed exactly.
- `server_connect` returning true means that the slot is connected. Exactly these calls return false and leave it connected:
  outside data_ready those on a connected slot, in data_ready those that close a suspended socket and do not open it
  again. Messages written afterwards are handed to the closed socket.
- Leaving transparent mode or GNSS mode restores the reports if and only if `leave_transparent_mode` is executed, which is
  decided by call, target, pending event and action, reports and missing answers. Leaving GNSS mode by `leave_gnss_fix`,
  or transparent mode after a missing answer, does not: there are runs to data_ready with the reports off.
- A `stop` that returns not_running can be followed by a callback without a new arming if and only if a waiter has expired
  and is about to call back. In the state machine such a late callback is a `UserTimerExpires` step, so its laws cover it.
- The comment on `send_data` promises that data is buffered and sent when data_ready is reached. Nothing is sent on any run
  without a send request, and one that is executed outside data_ready is lost.
- POSIX and Zephyr queues created with the same capacity agree on all calls with payloads of one message if and only if
  that capacity is at most five.

Each of these is a lemma in both directions. Beside it, or for the queues in its proof, stand inputs on which the property
breaks.

Where the code and its comments disagree the model follows the code. Besides the above: the read loop of a command is
written to accumulate an answer over several reads, but the status of a fresh answer is `error`, so the first non-empty
read always ends it (`ModemControllers.AnswersAreDecided`).

## Model

| member | source | states |
|---|---|---|
| `MessageQueues.RunPosix` | src/hal/posix_message_queue.cpp:55-119 | for every list of push, pop and pop_next calls, five deques plus an order deque answer exactly as one bounded global queue |
| `MessageQueues.RunZephyr` | src/hal/zephyr_message_queue.cpp:64-153 | the same for kernel queues of slots with a drained and refilled order queue, payloads over 256 bytes refused |
| `MessageQueues.PlatformsAgreeIff` | src/hal/zephyr_message_queue.cpp:20-21 | created with the same capacity, POSIX and Zephyr give equal outcomes on every call list with payloads of at most 256 bytes if and only if that capacity is at most five |
| `MessageQueues.LongPayloadTellsApart` | src/hal/zephyr_message_queue.cpp:67-67 | at equal capacity a push tells the platforms apart if and only if its payload is over 256 bytes and there is room |
| `MessageQueues.Outcomes` | src/hal/posix_message_queue.cpp:55-112 | for push, pop and pop_next exactly when each error is reported: id outside 1..5, no room, nothing queued with and without a timeout |
| `MessageQueues.LongPayloads` | src/hal/zephyr_message_queue.cpp:67-67 | a payload over 256 bytes is cut on POSIX and refused on Zephyr |
| `MessageQueues.RunConserves` | src/hal/posix_message_queue.cpp:55-119 | on every call list and for each connection, messages taken followed by messages left are those there at the start followed by the accepted pushes: none lost, doubled or reordered |
| `MessageQueues.PopNextIsGlobalFifo` | src/hal/posix_message_queue.cpp:94-112 | without selective pops the same holds across connections, and the queue never exceeds its capacity |
| `MessageQueues.RemoveOldestSplits` | src/hal/posix_message_queue.cpp:75-92 | a selective pop takes the oldest message of its connection and keeps everything before and after it in order |
| `MessageQueues.RemoveOldestProjects` | src/hal/posix_message_queue.cpp:75-92 | a selective pop shortens one connection's deque at its front and the order by its first matching entry, and no other deque |
| `MessageQueues.ProjectsPush` | src/hal/posix_message_queue.cpp:55-73 | a push keeps order the connection-id projection and each deque the per-connection filter of the global queue |
| `MessageQueues.ProjectsPop` | src/hal/posix_message_queue.cpp:75-119 | a pop keeps them so, hence an order entry never names an empty deque |
| `MessageQueues.RemoveOrderEntry` | src/hal/posix_message_queue.cpp:114-119 | find-and-erase gives the order without its first matching entry, unchanged when there is none |
| `MessageQueues.PosixQueue.PushTo` | src/hal/posix_message_queue.cpp:55-73 | appends to the global queue or reports invalid_id or full and changes nothing; the deque's own capacity test never decides |
| `MessageQueues.PosixQueue.PopFrom` | src/hal/posix_message_queue.cpp:75-92 | takes the oldest message of one connection off the global queue, or reports empty, timeout or invalid_id |
| `MessageQueues.PosixQueue.PopNextFrom` | src/hal/posix_message_queue.cpp:94-112 | takes the oldest message of all; the branch for an order entry with an empty deque is unreachable |
| `MessageQueues.SlotsProjectPush` | src/hal/zephyr_message_queue.cpp:64-84 | encoding a payload into a slot and decoding it gives the message back, and the kernel queues keep projecting the global queue |
| `MessageQueues.SlotsProjectPop` | src/hal/zephyr_message_queue.cpp:86-135 | popping a slot keeps the kernel queues projecting the global queue, and finds one whenever the order names it |
| `MessageQueues.ZephyrQueue.PushTo` | src/hal/zephyr_message_queue.cpp:64-84 | appends to the global queue, or refuses a long payload, a full queue or a bad id |
| `MessageQueues.ZephyrQueue.PopFrom` | src/hal/zephyr_message_queue.cpp:86-105 | takes the oldest message of one connection off the global queue |
| `MessageQueues.ZephyrQueue.PopNextFrom` | src/hal/zephyr_message_queue.cpp:107-127 | takes the oldest message of all off the global queue |
| `MessageQueues.ZephyrQueue.DrainAndRefill` | src/hal/zephyr_message_queue.cpp:137-153 | drain and refill through a five-entry array removes the same entry as find-and-erase and keeps the order of the rest |
| `MessageChannels.Channel.Send` | src/hal/posix_message_channel.cpp:19-40 | the modulo-16 ring appends the frame to its FIFO exactly when it fits 512 bytes and the logical capacity is not reached |
| `MessageChannels.Channel.Receive` | src/hal/posix_message_channel.cpp:42-56 | takes the oldest frame of the FIFO, or reports empty or timeout and changes nothing |
| `EventFlags.OrIsUnion` | src/hal/posix_event_flags.cpp:12-18 | setting bits of the 32-bit word posts every event of the mask and loses none |
| `EventFlags.AndNotIsDifference` | src/hal/posix_event_flags.cpp:36-39 | clearing takes back exactly the events of the mask |
| `EventFlags.Flags.Wait` | src/hal/posix_event_flags.cpp:20-34 | gives exactly the wanted events that were posted and, when asked, takes those and no others back, although only the matched bits are cleared; without a match the word is unchanged |
| `EventFlags.PostAndWait` | src/hal/posix_event_flags.cpp:12-34 | what was posted is got by the first clearing wait for it and by no second one |
| `EventFlags.BitsOfEvents` | include/modem/i_radio_lte.h:23-28 | which bit of the word stands for which event |
| `RadioProtocol.NetworkKeepsInv` | src/i_radio_lte.cpp:26-182 | each step of the dispatcher (receive, enqueue reply, raise flag, work, enqueue completion, raise flag) keeps the two threads synchronised |
| `RadioProtocol.ClientKeepsInv` | examples/desktop/app_rpc_server.cpp:87-144 | each step of the client keeps the threads synchronised and its log of reads faithful |
| `RadioProtocol.LostTimeoutKeepsInv` | examples/desktop/app_rpc_server.cpp:139-143 | giving up on a reply that never fits a frame keeps them synchronised |
| `RadioProtocol.RunsAreFaithful` | include/modem/i_radio_lte.h:194-223 | every interleaving keeps the invariant, as long as only waits for unpublishable replies run out |
| `RadioProtocol.EveryReadIsItsOwn` | include/modem/i_radio_lte.h:194-223 | in every interleaving each signalled receive consumes the frame of its own request, and takes it when the request has the right length; an ACK is followed by exactly its completion when the type is blocking and by none otherwise; no request is answered twice |
| `RadioProtocol.ResultsAreGenuine` | src/i_radio_lte.cpp:102-182 | on every run, also with timeouts, every frame read answers a request that some step sent with that kind and length, an ACK says whether the length was right, and a completion carries what that request's own operation returned |
| `RadioProtocol.ToldItsOwnResult` | examples/desktop/app_rpc_server.cpp:98-108 | under the protocol's discipline the result a client is told is the one its own operation returned |
| `RadioProtocol.BlockingRoundTrip` | src/i_radio_lte.cpp:102-178 | for each of the seven blocking kinds and either result a whole exchange: ACK, result, client ready again |
| `RadioProtocol.PlainRoundTrip` | src/i_radio_lte.cpp:45-175 | for every other kind whose answer fits a frame: one reply, both threads back at the start |
| `RadioProtocol.SizesOfAnswers` | include/modem/i_radio_lte.h:123-126 | which kinds answer in two bytes and which never fit a frame |
| `RadioProtocol.WaitsIffYes` | examples/desktop/app_rpc_server.cpp:89-97 | what a blocking client makes of the two-byte frame it takes for its ACK |
| `RadioProtocol.RepliesAreNeverRefused` | include/modem/i_radio_lte.h:194-218 | the response channel never holds more than an ACK and its completion, so its capacity of 8 never refuses one |
| `RadioProtocol.SizesDiffer` | include/modem/i_radio_lte.h:268-279 | the length check of a receive tells two response layouts apart exactly when they are different |
| `RadioProtocol.AbandonedReplyIsRead` | examples/desktop/app_rpc_server.cpp:139-143 | after giving up on a publishable reply a request of any kind can consume it, and takes it for its own if and only if the two have the same shape, otherwise refuses it |
| `RadioProtocol.AbandonedCompletionIsRead` | examples/desktop/app_rpc_server.cpp:98-101 | the same for an abandoned completion: taken by exactly the requests whose response is of two bytes |
| `RadioProtocol.GivingUpIsSafeIffReplyIsLost` | examples/desktop/app_rpc_server.cpp:87-144 | after a timeout no later run without timeouts takes a foreign frame for its own if and only if it was waiting for a reply too large to be published |
| `RadioProtocol.StallsForReply` | examples/desktop/app_rpc_server.cpp:134-142 | for every kind a run from the start to a stalled wait for its reply |
| `RadioProtocol.StallsForCompletion` | examples/desktop/app_rpc_server.cpp:87-101 | for every blocking kind a run from the start to a stalled wait for its completion |
| `OneShotTimer.RunsKeepInv` | src/hal/posix_timer.cpp:33-130 | every interleaving of owner calls and waiter threads keeps the timer's invariant |
| `OneShotTimer.HandleHeldWhileRunning` | src/hal/posix_timer.cpp:33-130 | the thread handle is non-empty exactly while the timer runs, so no arming overwrites a joinable thread |
| `OneShotTimer.FiresOnceAndNotEarly` | src/hal/posix_timer.cpp:105-130 | each arming calls back at most once and never before its latest deadline, also when a reset races with expiry |
| `OneShotTimer.DeadlinesAreAskedFor` | src/hal/posix_timer.cpp:33-87 | on every run the deadline of each arming is the time of the start or reset that last asked for it plus the timeout in its label |
| `OneShotTimer.NeverBeforeAskedFor` | src/hal/posix_timer.cpp:105-130 | no callback starts before that time, counted over the run itself |
| `OneShotTimer.ExpiredCallsBack` | src/hal/posix_timer.cpp:105-130 | once it has passed, at most five steps of the waiter itself call back, wherever the waiter was |
| `OneShotTimer.StartedFires` | src/hal/posix_timer.cpp:33-45 | from the start, any timeout: nothing before, one call when it has passed |
| `OneShotTimer.StartArms` | src/hal/posix_timer.cpp:33-45 | a start arms a timer that does not run, and does nothing to one that does |
| `OneShotTimer.ResetArms` | src/hal/posix_timer.cpp:69-87 | a reset arms a stopped timer that has a callback, and keeps a running one armed |
| `OneShotTimer.StopStops` | src/hal/posix_timer.cpp:47-67 | stopping a running timer takes its arming out within three further steps, without a callback |
| `OneShotTimer.StopIsFinal` | src/hal/posix_timer.cpp:47-67 | once stop has returned ok for an arming, no continuation of the run calls it back |
| `OneShotTimer.JoinUnblocks` | src/hal/posix_timer.cpp:59-66 | a joining stop needs at most two more steps of the waiter itself |
| `OneShotTimer.StopCompletes` | src/hal/posix_timer.cpp:47-67 | from every reachable joining state those steps let stop return |
| `OneShotTimer.RefusedStopIsFinalIff` | src/hal/posix_timer.cpp:47-53 | in every reachable state where stop returns not_running, no run without a new arming calls back if and only if no waiter is about to |
| `OneShotTimer.StopTooLate` | src/hal/posix_timer.cpp:112-126 | a run in which the timer expires, stop returns not_running, and then the callback comes |
| `AtResponses.ParseResponse` | src/at_command.cpp:20-57 | the splitting loop gives the meaning of the answer: status of the last status line, remaining non-empty lines joined and cut to 2048 |
| `AtResponses.ParsesRendered` | src/at_command.cpp:20-57 | any non-empty, terminator-free, non-status lines rendered with CR LF and a final status line are read back as their join with that status |
| `AtResponses.LinesOfRendered` | src/at_command.cpp:31-36 | splitting undoes rendering for all terminator-free lines |
| `AtResponses.LastStatusLineWins` | src/at_command.cpp:42-47 | for arbitrary input the last status line decides, and without one the status is error |
| `AtResponses.StatusLines` | src/at_command.cpp:42-47 | exactly which lines are status lines, and of which status |
| `AtResponses.JoinedLines` | src/at_command.cpp:20-26 | nothing read is a timeout; body lines stay apart by CR LF |
| `AtResponses.BodyIsNotTruncated` | src/at_command.cpp:48-53 | an answer of at most 2048 bytes never loses a character of its body |
| `AtResponses.ExtendClipped` | include/hal/fixed_string.h:84-94 | cutting the body at every append gives the cut of the whole body |
| `UrcStream.SplitResumes` | src/modem_controller.cpp:328-346 | lines of a text are those of any front part, then those of its leftover followed by the rest, also between CR and LF |
| `UrcStream.RestIsTail` | src/modem_controller.cpp:328-346 | the leftover holds no newline and is exactly what follows the last one |
| `UrcStream.ChoppingDoesNotMatter` | src/modem_controller.cpp:309-347 | for every chopping into reads without overrun, the final buffer is the text after the last newline, and the reports handed out equal the batch split of the whole stream if and only if no poll meets more than eight |
| `UrcStream.NinthReportIsLost` | src/modem_controller.cpp:341-346 | nine RING lines in one read: eight reports come out of a stream that holds nine |
| `UrcStream.KnownBeginnings` | src/modem_controller.cpp:290-307 | exactly which beginnings make a line a report |
| `UrcStream.TidyLines` | src/modem_controller.cpp:329-333 | one trailing CR is trimmed and at most 256 characters are kept |
| `UrcStream.HandedOutIff` | src/modem_controller.cpp:336-346 | a line is handed out, tidied, exactly when it is not empty and known |
| `UrcStream.FullBufferIsStuck` | src/modem_controller.cpp:322-352 | a full buffer without newline is a fixed point of every later poll and yields nothing |
| `ModemControllers.ModemController.PollUrc` | src/modem_controller.cpp:280-354 | one poll is the batch split of buffer plus read; the buffer stays within 1024, so the trim above 1024 is dead |
| `ModemControllers.ModemController.DrainLines` | src/modem_controller.cpp:328-347 | the in-place loop hands out the first eight recognised lines and leaves the text after the last newline |
| `ModemControllers.IsKnown` | src/modem_controller.cpp:341-346 | the prefix scan accepts a line exactly when some known prefix starts it |
| `ModemControllers.AwaitAnswer` | src/modem_controller.cpp:84-99 | reading ends at the first read that answers or at the deadline, and no read gets a zero or underflowed budget |
| `ModemControllers.ModemController.SendCommand` | src/modem_controller.cpp:51-137 | the status follows from lock, port, write and the last read alone; the response is that read's meaning, and its leftover is appended to the report buffer |
| `ModemControllers.Verdicts` | src/modem_controller.cpp:51-137 | how a command ends for every lock, port, write and last read |
| `Leftovers.CutIsBehindFirst` | src/modem_controller.cpp:110-126 | what is kept of an answer is the text behind the first line that holds the status word, nothing without such a line |
| `Leftovers.LeftoverIsBehindStatusIff` | src/modem_controller.cpp:110-126 | what is kept is the text behind the status line if and only if the status word occurs in no earlier line |
| `Leftovers.AnswerLinesAreKept` | src/modem_controller.cpp:110-126 | for any rendered answer: the lines behind the first one with the word are kept, status line and all |
| `Leftovers.AnswerLineBecomesReport` | src/modem_controller.cpp:110-126 | a report-like line behind such a line comes out of the next poll as a report |
| `Leftovers.BookRings` | src/modem_controller.cpp:110-126 | the answer BOOK, RING, OK has nothing behind its status line, and a ringing is reported |
| `ModemControllers.ModemController.SendRaw` | src/modem_controller.cpp:139-153 | one to three sendings, each but the last a timeout; a timeout is reported only when all are used up |
| `ModemControllers.AnswersAreDecided` | src/modem_controller.cpp:100-107 | a non-empty answer always has a decided status, so one non-empty read ends a command |
| `ModemControllers.ReturnsByDeadline` | src/modem_controller.cpp:84-99 | with reads that honour their timeout a command is over by its deadline |
| `ModemControllers.RetriesAreBounded` | src/modem_controller.cpp:139-153 | n sendings take at most n times the timeout, so at most three times |
| `Bands.ReadBands` | src/xe310.cpp:606-661 | the token loop and the strtoull checks read exactly the configuration the parameter list denotes, or report an AT error and no bands |
| `Bands.MaskRoundTrip` | src/xe310.cpp:636-645 | every 64-bit mask printed in decimal, with blanks before it, is read back |
| `Bands.BandsRoundTrip` | src/xe310.cpp:590-661 | all five masks survive printing by set_bands and parsing by get_bands |
| `Bands.CommandIsNeverCut` | src/xe310.cpp:590-598 | the command is at most 111 characters, so the 128-byte buffer never cuts it |
| `Bands.TooFewFields` | src/xe310.cpp:632-634 | fewer than five fields, or nothing behind the fourth comma, is an AT error |
| `Bands.QuotedMask` | src/xe310.cpp:620-628 | quotes, blanks and tabs around a field do not matter |
| `Bands.MalformedMask` | src/xe310.cpp:636-645 | a field is refused exactly when it is empty or holds anything but digits |
| `Bands.HugeMask` | src/xe310.cpp:636-645 | a number beyond 64 bits saturates, and a minus sign negates modulo 2^64 |
| `Bands.LongField` | src/xe310.cpp:617-630 | a field is cut to 31 characters |
| `Parameters.SplitFields` | src/xe310.cpp:240-253 | the shrinking-view loop gives the first n tokens, without an empty token behind the last comma |
| `Parameters.TokensOfCommas` | src/xe310.cpp:240-253 | splitting undoes joining with commas, up to one lost empty last token |
| `Psm.ReadPsm` | src/xe310.cpp:222-264 | present fields replace those of the configuration at hand, missing ones stay; the mode is read as atoi reads it, kept in one byte |
| `Psm.MissingFieldsStay` | src/xe310.cpp:257-261 | an answer with the mode alone leaves the timers as they were; one without a colon is an error |
| `Psm.ModeAsAtoi` | src/xe310.cpp:257-257 | what stands behind the digits of the mode does not matter |
| `Psm.HalfQuotedStays` | src/xe310.cpp:236-241 | quotes are taken off a string only in pairs |
| `Psm.StringSurvivesIff` | src/xe310.cpp:232-253 | a stored timer string survives quoting, the 32-character field and unquoting if and only if it has at most 30 characters and no NUL |
| `Psm.PsmRoundTripIff` | src/xe310.cpp:201-264 | a configuration printed by set_psm and parsed by get_psm into a default one comes back if and only if all its strings are such, for all patterns of empty fields |
| `Psm.LongTimerIsLost` | src/xe310.cpp:239-247 | a timer string of 31 characters fits its buffer and does not come back |
| `Answers.BandsThroughAnswer` | src/xe310.cpp:600-661 | the round trip of the masks also holds through a whole modem answer with its status line |
| `Answers.PsmThroughAnswerIff` | src/xe310.cpp:222-264 | the same for the power saving configuration, when its strings hold no carriage return |
| `NetworkInvariants.NextKeepsCore` | src/network_lte.cpp:533-666 | every kind of step keeps: offline states have no address and no open socket, states are reachable ones, trace entries follow the state path |
| `NetworkInvariants.RunKeepsCore` | src/network_lte.cpp:533-740 | so does every run, whatever the modem answers |
| `NetworkInvariants.OfflineMeansDisconnected` | src/network_lte.cpp:1399-1423 | after every run, network_detached and pdp_context_closed imply an empty IP address and five disconnected slots |
| `NetworkInvariants.UnreachableStates` | src/network_lte.cpp:489-505 | no run reaches setup_mode, pdp_context_opening or modem_fota, so a modem update never starts |
| `NetworkInvariants.TraceIsTailOfPath` | src/network_lte.cpp:1762-1799 | the state changes held in the ring are a contiguous tail of the state path: neighbours link, the last one ends in the present state |
| `NetworkAttachLaw.RunKeepsLaw` | src/network_lte.cpp:968-1100 | with a fixed configuration every run keeps the number of attempts a function of the retry increments since the last registration |
| `NetworkAttachLaw.AttemptsAreBounded` | src/network_lte.cpp:968-1100 | on every run the attempts, in closed form, are within max(1, max_attach_retries) if and only if there were at most 256 increments; reboot detours do not count |
| `NetworkAttachLaw.HistoryIsTheRun` | src/network_lte.cpp:968-1100 | on every run the recorded attempts and increments are those of the run's own steps since the last one that heard a registration |
| `NetworkAttachLaw.AttemptsSinceRegistration` | src/network_lte.cpp:1482-1484 | the bound on these counts: within max(1, max_attach_retries) if and only if at most 256 tries; the 8-bit counter is the tries modulo 256 |
| `NetworkAttachLaw.RegistrationStartsOver` | src/network_lte.cpp:1482-1484 | after a report of registration 1 or 5 the counter is 0 and the next attach is an attempt again |
| `NetworkAttachLaw.AnyNumberOfIncrements` | src/network_lte.cpp:1099-1100 | for every configuration and every k, with a modem that stays mute, some run has incremented the retry counter k times since the last registration |
| `NetworkAttachLaw.BoundIsExceeded` | src/network_lte.cpp:1099-1100 | so for every configuration some run exceeds the bound |
| `NetworkClock.MovingKeepsClock` | src/network_lte.cpp:1277-1397 | a state change finds the timer idle when it arms it and keeps every counter exact |
| `NetworkClock.RunKeepsClock` | src/network_lte.cpp:1277-1397 | on every run without a forced PSM the timer runs only in timed states, armed at their entry |
| `NetworkClock.CountersAreExact` | include/modem/i_radio_lte.h:134-145 | each counter is, modulo 2^32, the total time from timer start to exit over all completed visits |
| `NetworkClock.ForcedPsmIsHarmlessIff` | src/network_lte.cpp:321-409 | from every state with right counters: a forced PSM leaves them right on every continuation without another one if and only if the machine is not in data_ready, whether an operator accepts (at an instant other than that of entry modulo 2^32) or not |
| `NetworkClock.AcceptedPsmLosesTime` | src/network_lte.cpp:387-400 | after an accepted one in data_ready some continuation has wrong counters: the stay before it is never booked |
| `NetworkClock.RefusedPsmOvercounts` | src/network_lte.cpp:387-400 | after a refused one too: the next sleep is booked from the refusal on |
| `NetworkClock.SkewedTimerMiscounts` | src/network_lte.cpp:1277-1340 | a timer not armed at the entry of a timed state makes the counters wrong when it is left |
| `NetworkReach.DataReadyIsReachable` | src/network_lte.cpp:1101-1121 | one step of a run gets to data_ready |
| `NetworkTransparent.TransparentIsSilent` | src/network_lte.cpp:1190-1207 | with report commands that succeed, every run has all reports off whenever it is in transparent mode |
| `NetworkTransparent.TransparentPollsNothing` | src/network_lte.cpp:537-541 | in transparent mode a loop step does not depend on pending reports |
| `NetworkTransparent.GnssIsMuted` | src/network_lte.cpp:1227-1251 | with report commands that succeed, every run has PSM, cell, registration and PDP reports off whenever it is in gnss_fix_mode |
| `NetworkTransparent.RunKeepsBounded` | src/network_lte.cpp:669-740 | on every run, what can be pending in transparent or GNSS mode: none of the actions that configure the radio |
| `NetworkTransparent.ExitRestoresReportsIff` | src/network_lte.cpp:1209-1260 | on every run with report commands that succeed, exactly which steps in these two modes turn all reports on again, by call, target, pending event and action, reports and missing answers; every other step leaves them off |
| `NetworkTransparent.DataReadyWithReportsOff` | src/network_lte.cpp:1253-1260 | for either mode a run from the start that turns the reports on, enters the mode, is taken out by a missing answer or a position, and ends in data_ready with them off |
| `NetworkTraffic.StepTraffic` | src/network_lte.cpp:1133-1168 | any step leaves the sent messages alone, or is in data_ready, empties the TX queue and sends exactly the messages whose slot is connected over UDP, in queue order |
| `NetworkTraffic.SentInOrder` | src/network_lte.cpp:1133-1168 | on every run, accepted writes leave the queue in the order written and what is sent is a subsequence of that |
| `NetworkTraffic.OutgoingIsSubsequence` | src/network_lte.cpp:1142-1166 | what one drain sends keeps the sent messages a subsequence of those taken from the queue |
| `NetworkTraffic.NothingSentUnrequested` | include/modem/network_lte.h:97-97 | whatever is queued and whatever states are reached, a run without a send request sends nothing |
| `NetworkTraffic.RequestOutsideDataReadyIsLost` | src/network_lte.cpp:1133-1137 | a send request executed outside data_ready is used up: no later run without a new one sends anything |
| `NetworkTraffic.BufferedIsNotSent` | include/modem/network_lte.h:97-97 | a run from the start to data_ready with the message written and requested before still in the queue |
| `NetworkSockets.ClosedSlotSendsNothing` | src/network_lte.cpp:200-282 | from a slot that is not connected nothing is sent on any run without a server_connect of that slot |
| `NetworkSockets.NewConnectionIsSilent` | src/network_lte.cpp:189-198 | a slot configured anew sends nothing until it is connected, whatever it was before and whatever is queued |
| `NetworkSockets.ConnectSucceedsIff` | src/network_lte.cpp:200-282 | exactly which inputs make server_connect succeed |
| `NetworkSockets.ConnectedSlot` | src/network_lte.cpp:200-282 | what it leaves in the slot on success, on failure and outside data_ready, and that no other slot and nothing else changes |
| `NetworkSockets.DisconnectSucceedsIff` | src/network_lte.cpp:284-309 | exactly when server_disconnect closes the socket, and that nothing but its slot changes |
| `NetworkSockets.OutgoingIff` | src/network_lte.cpp:1142-1166 | exactly which queued messages go out |
| `NetworkSockets.ConnectedSocketSends` | src/network_lte.cpp:252-268 | for every configuration a run from the start: online, ordinary connect, write, request; the message goes out once |
| `NetworkSockets.ConnectedWithoutSuccessIff` | src/network_lte.cpp:200-282 | exactly which inputs make it return false and leave the slot connected |
| `NetworkSockets.ClosedSocketIsUsed` | src/network_lte.cpp:219-259 | for every configuration a run from the start in which it fails, having closed the socket, and the message written next is handed to the modem |
| `NetworkProgress.PhaseDescends` | src/network_lte.cpp:855-1100 | with a faithful modem each loop step lowers the phase by one, and only phase 5 reboots |
| `NetworkProgress.PhaseReaches` | src/network_lte.cpp:743-1100 | from phase k exactly k steps lead to network_attaching |
| `NetworkProgress.FutileForever` | src/network_lte.cpp:895-917 | with a technology that can neither be set nor is in force, no number of steps gets there |
| `NetworkProgress.AttachesIff` | src/network_lte.cpp:743-1100 | from network_detached with an attach pending: network_attaching in at most seven steps with at most one reboot if the technology can be set or is in force and not asked for alone, never otherwise |
| `NetworkProgress.FirstAttachIff` | src/network_lte.cpp:974-1046 | the same in the fields of the configuration: the first attempt attaches with the default technology and bands |
| `NetworkProgress.RetryAttachIff` | src/network_lte.cpp:1047-1092 | every later attempt below the limit with the fallback technology and bands |
| `NetworkProgress.AttemptOutcome` | src/network_lte.cpp:968-1100 | one attempt with both settings read: attaching at once, the flags of the differences, or giving up at the limit, in the fields of the configuration |
| `NetworkProgress.UnsupportedNeverAttaches` | src/network_lte.cpp:895-917 | one call from the start gets to such a pending attach with an unsupported technology, and it is in vain |
| `NetworkProgress.SendRequestStrands` | examples/desktop/main.cpp:92-92 | a send request while an attach is pending keeps a faithful modem from ever attaching |
| `NetworkProgress.CallLosesActionIff` | src/network_lte.cpp:1640-1650 | exactly which calls between two loop turns lose a pending action |
| `NetworkProgress.TurnLosesAttachIff` | src/network_lte.cpp:533-658 | exactly which loop turns lose a pending attach: a registration, a missing answer, or a position reported last |
| `NetworkTables.PowerTurn` | src/network_lte.cpp:747-837 | state, pending action and event after a turn with each action that changes the power state, by the modem's answers |
| `NetworkTables.ModeTurn` | src/network_lte.cpp:838-854 | the same for waking up and the two special modes |
| `NetworkTables.NetworkTurn` | src/network_lte.cpp:953-1132 | the same for registration, context and address |
| `NetworkTables.SetupTurn` | src/network_lte.cpp:886-952 | the same for the radio setup, with flags and reports |
| `NetworkTables.EventOutcome` | src/network_lte.cpp:553-655 | what each event leads to before an action is executed |
| `NetworkTables.DetachedAsleep` | src/network_lte.cpp:569-579 | a detachment while off or asleep drops the sockets only |
| `NetworkTables.TimeoutOutcome` | src/network_lte.cpp:624-647 | what a timeout leads to in each state |
| `NetworkTables.MissingAnswer` | src/network_lte.cpp:544-548 | a missing answer queues the responsiveness check |
| `NetworkTables.ReportOutcome` | src/network_lte.cpp:1426-1619 | what each report raises or queues |
| `NetworkTables.TargetOutcome` | src/network_lte.cpp:683-722 | what go_to_state queues for each state and target |
| `NetworkTables.ArmedOnEntry` | src/network_lte.cpp:1340-1397 | which states arm the timer on entry and in which its expiry is an event |
| `NetworkTables.BookedOnExit` | src/network_lte.cpp:1277-1338 | what leaving each timed state books, and in which counter |
| `NetworkTables.ExpiryOutcome` | src/network_lte.cpp:1835-1837 | what an expiry of the state timer changes |
| `NetworkTables.TraceOutcome` | src/network_lte.cpp:1623-1650 | what events, actions and state changes record |
| `NetworkTables.TraceKeepsTen` | src/network_lte.cpp:1762-1784 | the ring keeps the newest ten |
| `NetworkTables.ConfigureOutcome` | src/network_lte.cpp:189-198 | what new_connection leaves in its slot, and that nothing else changes |
| `NetworkTables.CallOutcome` | src/network_lte.cpp:1640-1643 | what set_config, a send request, the user timer and pop_trace change |
| `NetworkTables.DisconnectOutcome` | src/network_lte.cpp:174-187 | network_disconnect leads to network_detached with an attach pending, or does nothing |
| `NetworkTables.BadIdOutcome` | src/network_lte.cpp:189-309 | in the model a connection id outside 1..5 changes nothing |
| `NetworkTables.WriteOutcome` | src/network_lte.cpp:311-314 | a write is queued exactly when its id is one of the five and fewer than five messages wait |
| `NetworkTables.ForcePsmOutcome` | src/network_lte.cpp:321-409 | state, timer and reports after a forced PSM, accepted, refused, or outside data_ready |
| `NetworkTables.ReportSwitches` | src/network_lte.cpp:1190-1234 | what entering and leaving the two modes does to each report, if the modem takes the commands |
| `NetworkTables.FourTurnsToDataReady` | src/network_lte.cpp:669-740 | with a registered modem go_to_state takes four turns from switched_off to data_ready, for every configuration |
| `NetworkTables.RegistrationLeadsToDataReady` | src/network_lte.cpp:1482-1485 | while attaching, a registration and an activated context lead to data_ready in two turns |
| `TraceRings.TraceRing.Push` | src/network_lte.cpp:1762-1784 | the ring holds the newest ten entries at most, in push order |
| `TraceRings.TraceRing.Pop` | src/network_lte.cpp:1786-1799 | takes the oldest entry held; later pushes and pops still see the rest in order |
| `NetworkRuns.Run` | src/network_lte.cpp:533-740 | a fresh object that takes any list of loop turns, public calls and timer expiries is where the run model says |
| `NetworkRuns.OfflineObject` | src/network_lte.cpp:1399-1423 | after any such list, in network_detached or pdp_context_closed the address is empty and the five slots are disconnected; the dead states are not reached |
| `NetworkRuns.BoundedObject` | src/network_lte.cpp:968-1100 | the attempts of the object are within the bound exactly up to 256 increments |
| `NetworkRuns.TracedObject` | src/network_lte.cpp:1762-1799 | the state changes in its ring are a contiguous tail of the state path that ends in its state |
| `NetworkRuns.TimedObject` | include/modem/i_radio_lte.h:134-145 | its counters are the time spent in each timed state modulo 2^32, unless PSM was forced in data_ready |
| `NetworkRuns.SendingObject` | src/network_lte.cpp:1133-1168 | what it has sent is, in order, part of the accepted writes that have left its queue |
| `NetworkLteMachine.NetworkLte.Do` | src/network_lte.cpp:533-740 | any one step takes the object where the run model says |
| `NetworkLteMachine.NetworkLte.DisconnectServers` | src/network_lte.cpp:1402-1408 | marks all five slots disconnected and keeps their protocol, address and port |
| `NetworkLteMachine.NetworkLte.SendDataNow` | src/network_lte.cpp:1133-1168 | the drain loop ends with an empty queue, having sent exactly the deliverable messages in global order, and sends nothing outside data_ready |
| `NetworkLteMachine.NetworkLte.HandleUrcs` | src/network_lte.cpp:1426-1619 | a list of reports is folded in order, later ones overwriting event and action |
| `NetworkLteMachine.NetworkLte.GoToState` | src/network_lte.cpp:669-740 | the machine takes the turns of the run model; true implies the target is reached, false that it stopped in done or modem_fota, with an error event, or is still under way |
| `NetworkLteMachine.NetworkLte.ServerConnect` | src/network_lte.cpp:200-282 | true implies data_ready and a connected slot; every error path leaves the slot as the run model says |
| `NetworkLteMachine.NetworkLte.ForcePsm` | src/network_lte.cpp:321-409 | true exactly when an operator accepts in data_ready, and then the machine is still there; timer and reports are on again whatever the outcome |
| `NetworkLteMachine.NetworkLte.LeaveTransparentMode` | src/network_lte.cpp:453-462 | true exactly when the machine was in transparent mode, and afterwards it never is |
| `NetworkLteMachine.NetworkLte.TxWrite` | src/network_lte.cpp:311-314 | returns the error of the global queue, which takes the message exactly when there is none |
| `NetworkLteMachine.NetworkLte.PopTrace` | src/network_lte.cpp:1786-1799 | gives the oldest entry held, or false when there is none |

## Left out

- Serial drivers, sockets, IPC servers, RPC text commands, JSON, logging: device input and output or easy text.
- Win32 queue, channel, flags and timer: the same logic as POSIX. Zephyr flags, timer and channel rest on kernel calls.
- TX and RX: both directions of the payload queue are instances of one queue class. The zero fill of a message buffer
  behind its length is not modelled.
- Waits on condition variables: a wait with a timeout that finds nothing reports timeout; that another thread satisfies it
  is a later call here. In the timer and the request protocol, waking is a step of its own.
- Clients of the request protocol: one, with one request at a time. Unknown request types and frames too short to hold a
  type behave as wrongly sized requests. State and log notifications carry no reply and are left out.
- Callbacks that call the timer, and a stop from the timer's own thread.
- Report text: `handle_urc` takes reports that are already classified; its field splitting is easy and left out, as are
  survey, operator, GNSS and clock parsing and `set_iot_tech`/`get_iot_tech` as text. Which technologies can be set
  follows the ME310M1 build, the one the header selects.
- APN comparison, cached radio information, the GNSS position and `acquire_gnss_position`, the RX queue and the data
  callback: they do not influence the state machine.
- `check_responsiveness` polls without bound in the source; here the modem answers in the end. Delays are not modelled.
- `go_to_state` need not terminate: the source has no timeout. `GoToState` is watched for as many turns as it is given.
- Report switches: the commands of one step all succeed or all fail. AT commands a user types in transparent mode, test
  hooks that set state, event or counters, and other threads writing the event during a step are not steps.
- Connection ids outside 1..5 in `new_connection`, `server_connect`, `server_disconnect` index out of bounds in the
  source; such a step does nothing here.
- ModemControllers.ModemController.SendCommand: time passes only in reads, and a read that returns nothing with status ok
  is taken to have lasted at least a millisecond, without which the source's loop need not end.
- ModemControllers.ModemController.SendRaw: binary sending and prompts are not modelled.
- Psm.ReadPsm: a number in the mode field that overflows `int` is undefined in the source; here it is taken modulo 256.
- RadioProtocol.EveryReadIsItsOwn: values inside replies are represented by the request they answer; wire sizes are those
  of a 64-bit target.
- AtResponses.ParsesRendered: line content is any text without CR LF; bytes above 127 are plain characters.
