# Jupyter kernel-gateway client: execution driver model

This project models the command-line client in `src/client.go`. The client
asks a Jupyter kernel gateway for a kernel, or uses one named on the command
line. It opens the kernel's websocket channel and runs the configured code
`times` times. Each round has four parts:

- It builds an `execute_request` envelope with a fresh message id and writes it.
- It reads inbound envelopes until one ends the round. An `error` reply ends the round whatever it answers. A `stream` reply ends it only when its parent header names the round's request. Every other message is discarded.
- A message that cannot be decoded ends the whole run.
- After every 30th round the client calls `time.Sleep(1)`.

Modules:

- `Envelope` (`envelope.dfy`): the `Header` and `Message` records, and the construction of the execute request.
- `Correlation` (`correlation.dfy`): how one inbound message is classified against the outstanding request id (`Classify`). Also the per-round receive loop, both as a function (`Receive`) and as the client's loop (`ReceiveLoop`).
- `Driver` (`driver.dfy`): the outer round loop. It is a state machine over the trace a run leaves.
  - `Advance` plays one round.
  - `AdvanceAll` repeats it.
  - `Run` is a whole run.
  - `PlayRound` and `Drive` are the loops as the client writes them.
  - The pacing rule is here too.
- `Provisioner` (`provisioner.dfy`): the provisioning request of `createKernel`, and the reading of the kernel id from its reply.
- `Client` (`client.dfy`): the session in `main`.
  - It chooses the kernel, either the named one or a provisioned one.
  - It applies the two URL defaults.
  - It opens the channel, then runs.
- `Scenarios` (`scenarios.dfy`): concrete two-round runs.

Inputs the client gets from the outside world are parameters of the model:

- the fresh message ids (`ids`, one per round);
- whether each write succeeds (`writeOk`, one per round);
- the decoded inbound messages (`inbound`, one sequence shared by all rounds);
- what provisioning got back (`HttpOutcome`);
- whether the dial succeeded (`dialOk`);
- the environment settings (fields of `Config`).

Each element of `inbound` stands for one read followed by one decode. When a read fails, the client only reports it and goes on to decode the data it got. So a failed read shows up as the undecodable element `ParseFail`.

Each round reads the shared inbound sequence from where the previous round stopped, up to and including its own terminal message. If the sequence runs out before a terminal message arrives, the run ends as `Blocked`. A real client would wait on the socket forever at that point.

The two unchecked type assertions in the source become explicit outcomes:

- a matching `stream` reply whose `text` is not a string ends the run with `Aborted(_, OutputNotText)`;
- a provisioning reply whose `id` is not a string gives `Panicked`.

A run's request ids are distinct only when the ids the oracle hands out are distinct. The source relies on random UUIDs for this and does not check it. The lemmas that need distinct ids (`Driver.DistinctRequestIds`, `Correlation.StaleReplyDiscarded`) therefore take distinct ids as a precondition.

## Model

| member | source | states |
|---|---|---|
| `Envelope.BuildRequest` | src/client.go:140-156 | The request is an execute request on the shell channel: protocol version 5.0, empty username and session, no parent, metadata or buffers, exactly the five content keys with silent=false, store_history=true, allow_stdin=false, stop_on_error=true. Its msg_id is the round's fresh id and its code is the configured code. |
| `Envelope.RequestRoundTrip` | src/client.go:63-78 | A fresh execute request is rebuilt exactly from its msg_id and code string; nothing else varies between requests. |
| `Envelope.BuildRequestInjective` | src/client.go:138-156 | Two requests are equal iff they have the same id and the same code, so distinct fresh ids give distinct requests. |
| `Correlation.Classify` | src/client.go:179-201 | A message is passed over iff it decodes and is neither an `error` nor a `stream` reply whose parent is the request. Only an undecodable message is reported as undecodable. An error reply hands back the error message itself. Output comes only from a stream reply to the request, and it is that reply's string `text`. |
| `Correlation.ErrorEndsRoundForAnyParent` | src/client.go:190-194 | An `error` message ends the round with that message as the reply, and it does so in the same way whatever request id its parent header names. |
| `Correlation.StreamEndsRoundIffCorrelated` | src/client.go:196-201 | A `stream` message ends the round iff its parent msg_id is the outstanding request's id. It then yields its string `text`; a missing or non-string `text` ends the run instead, which is the failed type assertion. |
| `Correlation.OtherTypesDiscarded` | src/client.go:179-201 | A decoded message that is neither `error` nor `stream` is discarded, whatever it answers. An undecodable one ends the run. |
| `Correlation.StaleReplyDiscarded` | src/client.go:196-198 | With pairwise distinct fresh ids, a late stream reply to an earlier round's request never ends a later round. |
| `Correlation.Receive` | src/client.go:172-202 | The round ends at the first inbound position whose message is terminal for the request. That message's dispatch is the result, and every message before it is a discard. The round starves iff every remaining message is a discard. |
| `Correlation.DiscardedPrefixConsumed` | src/client.go:172-202 | Messages that are discards for the round are consumed with no effect: skipping a stretch of them does not change the round's outcome. |
| `Correlation.SuffixIrrelevant` | src/client.go:172-202 | Once a terminal message is present, messages after it never change the round's outcome. |
| `Correlation.FirstTerminalDecides` | src/client.go:172-202 | The first-terminal description determines the outcome: any result that stops on a terminal message with only discards before it, or that starves on discards, is `Receive`'s result. |
| `Correlation.ReceiveLoop` | src/client.go:172-202 | The read–decode–dispatch loop returns the first terminal message and its position, with only discards before it, or starves on discards. It agrees with `Receive`. |
| `Driver.PacingRule` | src/client.go:204-206 | A pause follows 0-based round i iff i+1 is a positive multiple of 30: after rounds 30, 60 and 90, never after rounds 15 or 29. |
| `Driver.ScheduleMembers` | src/client.go:204-206 | The pauses after the first n rounds are exactly the rounds p < n that the pacing rule picks. |
| `Driver.ScheduleCount` | src/client.go:204-206 | The first n rounds pause n div 30 times. |
| `Driver.Advance` | src/client.go:135-206 | One round never undoes what the run already did. It sends one request unless the write fails. It keeps one reply exactly when the round finishes. A round that ends the run names itself as the round it stopped in. Reading goes forward from where the previous round stopped, and strictly forward unless the write failed or the messages ran out. |
| `Driver.AdvanceAll` | src/client.go:135-207 | Repeated rounds extend the trace. A run that was not cut short has finished exactly `times` rounds (none if `times` is negative). A run that was cut short stopped before the last round. A run that has already stopped stays as it is. |
| `Driver.ReplayedExtends` | src/client.go:172-202 | A round that ends on the first terminal message after where the last finished round stopped extends the replayed rounds by that message's position and reply. |
| `Driver.AdvanceKeepsCoherent` | src/client.go:135-206 | One round keeps the trace coherent. The requests are the first rounds' requests in order, one per finished round plus one for a round cut short after its write, and every one of those writes succeeded. Every finished round is replayed: it read from where the round before it stopped, and its kept reply is what the receive loop returns there for that round's id. The pauses are the pacing schedule of the finished rounds. A stopped run is explained: a failed write, a first terminal message that is a fault, or no terminal message at all. |
| `Driver.AdvanceAllKeepsCoherent` | src/client.go:135-207 | Any number of rounds keep the trace coherent. |
| `Driver.CoherentFacts` | src/client.go:135-206 | A coherent trace's request k is built from the k-th fresh id. A failed write names a round whose write failed. An aborted run's last consumed message classifies as that abort for the stopped round's id. Its pauses are exactly the rounds the pacing rule picks. |
| `Driver.Run` | src/client.go:135-207 | Request k is built from the k-th fresh id, and every request that went out was written successfully. A run that is not cut short finishes exactly `times` rounds and writes exactly `times` requests. Reply k is what the receive loop returns for id k when it reads on from where round k-1 stopped, so an error reply does not cut the run short. A run that is not cut short has read up to and including its last reply. A run cut short stops in the round after its last finished one, for the reason that round met. A failed write sends nothing in that round. An abort comes after that round's request went out: the last message consumed classifies as that abort for the round's id, and it is the first terminal message after the previous round's reply. A block means no message after that point was terminal. Pauses come exactly after the rounds the pacing rule picks, one per 30 finished rounds. |
| `Driver.DistinctRequestIds` | src/client.go:138 | With pairwise distinct fresh ids, no two requests of a run share a msg_id. |
| `Driver.AbortOnlyOnFault` | src/client.go:179-201 | A run never aborts on an `error` message. It aborts on an undecodable message exactly when the fault is `Undecodable`; otherwise on a `stream` reply to the stopped round's own request whose `text` is not a string. |
| `Driver.RoundFinishes` | src/client.go:190-200 | A round whose receive loop meets a reply (including an error reply) finishes, keeps that reply, and lets the next round read on from the message right after it. |
| `Driver.RoundEndsRun` | src/client.go:172-186 | A round whose receive loop meets an undecodable message or a bad stream reply aborts the run. A round that runs out of messages blocks it. Either way the round's request has gone out. |
| `Driver.PlayRound` | src/client.go:138-206 | The statement form of `Advance`, using `ReceiveLoop` for the inner loop: the client's round (build, write, receive loop, pause check) computes exactly `Advance`. It adds no property beyond that agreement. |
| `Driver.Drive` | src/client.go:135-207 | The client's round loop, with its early returns, computes exactly `Run`. |
| `Provisioner.RequestBody` | src/client.go:17 | The body is `{"name": "` + language + `"}`, and the language can be read back from it. |
| `Provisioner.VerbIgnored` | src/client.go:16-18 | The verb argument of `createKernel` never changes the request. |
| `Provisioner.LanguageRecoverable` | src/client.go:17 | Two provisioning bodies are equal iff they name the same language. |
| `Provisioner.CreateKernel` | src/client.go:18-60 | Provisioning panics exactly when the reply's `id` is not a string. A non-empty result is always the reply's `id` string. A failure before the id is read gives the empty id; such failures are a bad request, a transport failure, an undecodable or null body, or a missing `id`. |
| `Provisioner.IdReturned` | src/client.go:50-60 | A reply whose `id` is a string yields that id, whatever other fields it has. |
| `Provisioner.NonStringIdPanics` | src/client.go:60 | A reply whose `id` is not a string panics. |
| `Client.ChannelsUrl` | src/client.go:127 | The channel URL is exactly the websocket base, then `/api/kernels/`, then the kernel id, then `/channels`. |
| `Client.KernelOf` | src/client.go:114-117 | A kernel named on the command line is used as named. Otherwise a usable id is the provisioning reply's string `id`. The empty id and the panic come only from provisioning, and the panic happens exactly on a non-string `id`. |
| `Client.ProvisionRequest` | src/client.go:99-117 | Provisioning is a POST of the language body to `<base>/api/kernels`. The base defaults to `http://localhost:8888`. |
| `Client.Session` | src/client.go:114-207 | Rounds run iff a non-empty kernel id is at hand and the channel opened; the run is then `Run`. A named kernel is used as named. Provisioning failure or panic happens only when no kernel is named. A dial failure reports the channel URL of the chosen kernel. |
| `Client.NamedKernelSkipsProvisioning` | src/client.go:114-117 | With a kernel named on the command line, the session does not depend on provisioning. |
| `Client.MissingIdEndsSession` | src/client.go:116-121 | With no kernel named and no `id` in the provisioning reply, the session ends before it dials, with zero rounds. |
| `Scenarios.WrongParentSkipped` | src/client.go:196-201 | The run has two rounds. In round 1 a stream reply to another request is skipped and the matching reply ends the round with "hello". Round 2 goes out with its own id. |
| `Scenarios.ErrorReplyRunContinues` | src/client.go:190-194 | An error reply ends round 1, and round 2's request still goes out. |
| `Scenarios.UndecodableStopsRun` | src/client.go:181-186 | An undecodable message in round 1 ends the run with one request sent. |

## Left out

- Network I/O is given as parameters rather than performed: the HTTP POST, the websocket dial, and the writes and reads.
- JSON encoding and decoding are not modelled byte-level. Inbound messages and the provisioning reply arrive already decoded. JSON numbers are kept as integers, because the client never looks at one.
- `json.Marshal` of the request (lines 158-163) is not modelled. It cannot fail for a message made of strings, booleans, maps and slices, so its error branch is unreachable.
- `uuid.New()` is an oracle sequence of ids. The source does not guarantee uniqueness; the lemmas that need it assume it.
- Flag parsing and printing are left out. So is `time.Sleep`: only the decision to pause is modelled, as the trace's `pauses`.
- The pause is not a real back-off. `time.Sleep(1)` takes a `time.Duration` in nanoseconds, so the client sleeps one nanosecond. The model records only where the call happens.
- A client waiting forever on a silent socket is modelled as the `Blocked` ending on a finite inbound sequence.
- `ioutil.ReadAll`'s ignored error: the bytes it returns are taken as the decoded reply body.
- Go zero values of the decoded envelope are empty strings, maps and sequences. A nil map and an empty map are not told apart, and the client treats them alike.
