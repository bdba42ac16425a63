# Telegram-to-Discord relay: queue, drain loop and event normalization

This project models the two pieces of `server.js` that carry behaviour of their
own, and proves properties of them in Dafny.

- **The outbound queue and its drain** (`messageQueue`, `isProcessingQueue`,
  `processMessageQueue`). The class `Pipeline.Relay` holds the queue as a
  sequence, the re-entrancy flag, a record of every send attempt and sleep, and
  the temporary-file deletions scheduled so far. `ProcessMessageQueue` runs the
  source's `while` loop: it shifts the head, sends it, and sleeps. It is proved
  against the pure specification `Dispatch.Drained`. Lemmas about that
  specification state the guarantees:
  - messages are sent in push order, each exactly once;
  - a failed send, 429 included, is never repeated;
  - the pause accounting is 1000 ms per delivery, 5000 ms per 429 and 0 otherwise;
  - a failed channel lookup leaves the flag set for good.
- **Event normalization** (the Telegram handler and `downloadMedia`'s file name).
  `Normalizer.Normalize` maps an update, the monitored channel id, the channel
  username and the download's outcome to an optional message. The message
  records the embed fields, the attached file, and the deletion scheduled for
  that file.

The environment is passed in as inputs:
- the outcome of the Discord channel lookup (found, or throws);
- the outcome of each send (delivered, or an error with a code);
- the outcome of the photo download (failed, or succeeded at a given `Date.now()` reading).

Sleeps are recorded as `Pause` steps. The `setTimeout` deletion of a temporary
file becomes a `Deletion` value with a 5000 ms delay.

Numbers become text the way JavaScript's `toString()` writes integers (module
`Decimal`). The channel filter compares the decimal texts of the two ids, as the
source does. `Decimal.IntTextInjective` proves this is the same as comparing the
ids, and `Normalizer.TempPathInjective` proves that distinct clock readings give
distinct temporary paths.

### Behaviour of the code worth knowing

- A failed send is never retried, whatever its code. The message is shifted off
  the queue before the send (server.js:40-41), and a 429 only adds a 5000 ms
  sleep (server.js:46-48) (`Dispatch.RateLimitedMessageDropped`).
- Every matching event is pushed, even with no text and no media
  (server.js:133, `Normalizer.EmptyUpdateStillRelayed`).
- The drain is guarded by a flag (server.js:33). If the channel lookup throws
  (server.js:36), the flag is never cleared, and every later call returns at
  once (`Dispatch.FetchFailureBlocksForever`).
- Temporary names come from `Date.now()` alone (server.js:57), so two downloads
  in the same millisecond get the same path: equal clock readings give equal
  paths, the "if" half of `Normalizer.TempPathInjective`.

## Model

| member | source | states |
|---|---|---|
| Decimal.NatText | server.js:57 | the text of a natural number is non-empty, all digits, and starts with '0' exactly for zero |
| Decimal.IntText | server.js:93 | the text of an integer is non-empty and starts with '-' exactly for negative numbers |
| Decimal.IntTextInjective | server.js:93 | two ids have equal decimal texts if and only if they are equal, so the string comparison of ids is id equality |
| Normalizer.TempPath | server.js:57 | the temporary path starts with "./temp_" and ends with ".jpg" |
| Normalizer.TempPathInjective | server.js:57 | two clock readings give the same temporary path if and only if they are equal |
| Normalizer.Build | server.js:94-130 | fixed colour, author and icon; timestamp in ms = date in s × 1000; description present iff the text is non-empty, and then equal to it; file `[TempPath(clock)]` iff a photo was downloaded; footer "Error: Could not process media attachment" iff handling a photo threw; one 5000 ms deletion per written file |
| Normalizer.Normalize | server.js:87-139 | a message is produced if and only if the update is a new channel message from a channel peer whose id is the monitored id; the message is then the one `Build` describes |
| Normalizer.EmptyUpdateStillRelayed | server.js:106-134 | a matching update with no text and no media still yields a message, with no description, footer or file |
| Normalizer.NonPhotoMediaIgnored | server.js:110-123 | media other than a photo sets neither file nor footer, whatever the download outcome |
| Dispatch.PauseAfter | server.js:42-48 | a delivery is followed by one 1000 ms sleep, a 429 failure by one 5000 ms sleep, and any other failure by no sleep |
| Dispatch.DrainTrace | server.js:38-50 | a drain records one send per queued message, each followed by at most one sleep, starting with the head message and its own outcome |
| Dispatch.Pushed | server.js:133 | a push adds the message at the tail and leaves the queued messages, the flag and the record unchanged |
| Dispatch.PushedAll | server.js:133 | successive pushes append the messages to the queue in push order |
| Dispatch.Drained | server.js:32-53 | the early return changes nothing; a failed lookup leaves queue and record untouched with the flag set; a drain past the guard with the channel found ends with an empty queue and the flag cleared |
| Dispatch.DrainAttemptsInOrder | server.js:38-41 | the messages sent by a drain are exactly the queued messages, in queue order, each once |
| Dispatch.DrainOutcomesUsedOnce | server.js:38-49 | the i-th send's outcome belongs to the i-th message alone, so no failed send is repeated |
| Dispatch.DrainDelay | server.js:42-48 | a drain sleeps 1000 ms × deliveries + 5000 ms × sends failing with 429, and nothing for other failures |
| Dispatch.CompletedDrain | server.js:35-52 | a drain past the guard with the channel found keeps the earlier record as a prefix and extends it by the whole queue in order with its own outcomes and the pause total above, empties the queue and clears the flag |
| Dispatch.PushesThenDrain | server.js:133-134 | any number of messages pushed at the tail while idle are sent by the next completed drain after those already queued, in push order |
| Dispatch.FifoAcrossCalls | server.js:38-49 | over any sequence of later pushes and drain calls, the messages sent followed by those still queued are the earlier sends, the earlier queue and the pushed messages, in that order |
| Dispatch.RateLimitedMessageDropped | server.js:40-48 | with A, B, C queued and B's send rate-limited, the sends are A, B, C once each, B is not sent again, and the sleeps total 7000 ms |
| Dispatch.StuckForever | server.js:33 | once the flag is set with no drain running, any later pushes and drain calls leave the flag set, only append to the queue and send nothing |
| Dispatch.FetchFailureBlocksForever | server.js:35-36 | a drain whose channel lookup throws leaves the queue as it was with the flag set, and no later call ever sends again |
| Pipeline.Relay.constructor | server.js:29-30 | the queue starts empty, the flag cleared, nothing recorded or scheduled |
| Pipeline.Relay.ProcessMessageQueue | server.js:32-53 | the loop that shifts and sends leaves exactly the state `Dispatch.Drained` specifies and schedules nothing |
| Pipeline.Relay.HandleUpdate | server.js:87-135 | a non-matching update changes nothing; a matching one schedules its file's deletion, is pushed at the tail, and a drain runs as `Dispatch.Drained` specifies |

## Left out

- Telegram client construction, login prompts and session printing (server.js:64-84): library calls and console I/O.
- Discord client setup, login, the `ready` status message and the `error` handler (server.js:21-26, 142-186): network I/O with no logic of their own.
- Real sleeps, the file write and the `unlink` (server.js:42, 47, 58, 116-122): sleeps are recorded as `Pause` steps, and staging is a scheduled `Deletion` value. There is no filesystem, and a failed deletion is only logged in the source.
- Concurrency: the handler starts the drain without awaiting it (server.js:134). While a drain sleeps, other handlers may push, and the running loop would pick those messages up. The model runs one drain to completion per call and sees only the queue it started with.
- The rejected promise of a drain whose channel lookup throws is never handled (server.js:36, 134). The model keeps the module state after it. Whether the Node.js process survives an unhandled rejection depends on the runtime's settings, outside this code.
- Pipeline.Relay.ProcessMessageQueue and Dispatch.Drained require at least as many send outcomes as queued messages: the destination answers every send.
- Normalizer.Build: the timestamp is `date * 1000` as an integer. JavaScript's floating-point multiplication and the range limit of `Date` are not modelled. Telegram dates are small enough for both to be exact.
- Normalizer.Normalize: a message without text (`message.message` undefined) is modelled as empty text. Both are falsy at server.js:106.
- Embed cosmetics (colour, author name, icon URL) are kept as plain fields with their constant values.
- The commented-out hourly status report (server.js:188-207) is dead code. The signal handlers and configuration loading (server.js:10-18, 213-220) are process plumbing.
