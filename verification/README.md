# Verified model of the OpenAI gateway service

A Dafny 4.11 model of the parts of the gateway whose correctness depends on whole runs, and of the
dependency audit gate in `tools/`. `dafny verify dfyconfig.toml` checks everything.

| files | models |
|---|---|
| `StreamEvents`, `GatewayFrames`, `Downstream`, `Relays`, `RelayExamples` | upstream lines and their accounting; how the placeholder coordinator reads a write; the client's transcript and the buffered writer |
| `NativeRelay`, `NativeRelayProofs`, `NativeRelayOutput`, `NativeRelayFailover`, `NativeRelayExits`, `NativeRelayFrames`, `NativeRelayLoop` | `handleStreamingResponse`: transitions, what every run guarantees, what has reached the client, when failover is safe, how a run ends, the gateway's own frames, and the loop |
| `PassthroughRelay`, `PassthroughRelayProofs`, `PassthroughRelayOutput`, `PassthroughRelayFailover`, `PassthroughRelayExits`, `PassthroughRelayFrames`, `PassthroughRelayLoop` | `handleStreamingResponsePassthrough`, likewise |
| `HttpRetry`, `HttpRetryProofs`, `HttpRetryOutcome`, `HttpRetryLoop` | the HTTP retry loop of `Forward` with its re-entry |
| `WsReconnect`, `WsTraces`, `WsReconnectLoop` | the WebSocket reconnect loop and its backoff |
| `AccountSelection`, `Reservoir`, `AccountFairness` | `selectBestAccount`: optimality, and fairness by counting |
| `SlotScheduling` | `selectAccountWithLoadAwareness`: who holds a concurrency slot |
| `WriteThrottle` | `accountWriteThrottle` against a throttle that never forgets |
| `BodyPatch` | the single-field patch recorder against full serialization |
| `SseFrames` | SSE line extractors, control-line sanitizer, frame parser |
| `ReasoningTrim` | the in-place trim of encrypted reasoning items |
| `FastPolicy` | rule matching and its three appliers |
| `QuotaPause` | usage snapshots and the auto-pause clock |
| `AuditGate` | `tools/check_pnpm_audit_exceptions.py` |
| `Strings`, `Durations` | trimming and lower case; 64-bit durations |

## How it is built

Each stateful part is a transition function over a record of the source's local variables, lemmas
about all runs of it, and the source's loop as a method whose contract carries those results to the
caller. Objects with fields (the throttle, the patch recorder, the frame parser, the slots, the trimmed
request) are classes. Whatever the code asks the outside world (network answers, classifiers, clocks, random
draws, write outcomes) is an arbitrary function or record in the model's environment, so every
statement holds for all of them. A run of a relay is a sequence of steps: an upstream line, one of
the timers, a read error, the end of the stream. Client writes succeed, or break after any prefix,
as the environment decides. Bytes in a transcript keep their origin, upstream or gateway.

## What the proofs found

Where a natural statement is false of the code, the model keeps the code, shows a run, and proves
when exactly the statement holds.

- Transparent failover is decided by what the coordinator reads into each write, and blank lines,
  comments and events that look like its own placeholder read as gateway frames. No real output is ever
  with the client at a coordinated failover (`NoRealOutputAtFailover`), but bytes of the upstream can be:
  in the native relay a keepalive flushes buffered lines under the coordinator's eyes
  (`KeepaliveLeaks`; exactly when is `FailoverFreeExactly`), in the passthrough relay only when the
  connection breaks while held-back lines are written (`BrokenWriteLeaks`).
- For an account without a coordinated feature, failover happens only when nothing at all was sent, as long
  as the upstream sends no event that looks like the gateway's own placeholder
  (`UncoordinatedFailoverIsEmpty`, for both relays and with the delayed bootstrap comment). Such an event
  activates the coordinator, and failover can follow relayed output (`PlaceholderEventLeaks`).
  `FailoverFreeConfigurations` puts it together: which configurations, over which upstreams, are safe.
- Both relays take their writer before the coordinator may wrap the response writer. A relay called with
  an unobserved writer while output is coordinated can fail over after relayed output
  (`UnobservedWriterLeaks`). That is an input of the functions only: `Forward` creates the coordinator
  before the relay runs.
- The native relay reports success without flushing when the upstream breaks after its terminal
  event (`BrokenDeliversExactly`).
- A passthrough run in which no line opens the output succeeds with all its lines still held back
  (`FinishedDeliversExactly`).
- Without coordination the delayed bootstrap comment lets later lines overtake held-back ones
  (`ConservingExactly`).
- The parsed request body is not told when a rejected `status` or `max_tokens` is removed, nor of
  changes made to the bytes only, so the encrypted-content retry sends them as they were
  (`FieldsStayGoneExactly`). As long as the bytes have the encrypted content of the
  parsed form, the memory of earlier bodies never refuses a field retry (`NeverADuplicate`).
- The tie predicate of `selectBestAccount` compares the time of last use only, so a pooled account can
  displace an equally used account that is not pooled (`OptimalExactly`) and takes a share of the draws
  from the best ones (`CodeIsFairExactly`).
- Without load batching, one candidate that lacks compact support turns "wait for a busy account" into
  an error (`BusyPoolWaitsExactly`).
- The dropped `text.verbosity` is never recorded, and the flat `reasoning_effort` is recorded under
  another path (`PatchFaithfulExactly`).
- `Forward` has no case for `force_priority` (`ForwardLikeBodyExactly`).
- A usage snapshot without reset seconds can pause an account for ever (`PauseIsBoundedExactly`).
- An exception whose severity is white space matches every severity (`BlankSeverityExactly`), and the
  audit validator's omission check cannot fail (`OmissionCheckIsRedundant`).
- Very large reconnect settings panic in the random draw or wrap the delay to zero
  (`BackoffAroundExactly`, `LargeJitterPanics`).
- The configuration comment for the reconnect backoff says that a value of zero or less turns it off
  (backend/internal/config/config.go:1560); the code then uses the default of 120 ms, and the model
  follows the code.

## Model

| member | source | states |
|---|---|---|
| `StreamEvents.Sanitize` | review-artifacts/MODIFIED_FILE.go:9669-9693 | an error payload is replaced by one without usage, images or searches; every other payload is left as it is |
| `StreamEvents.ReplacementExactly` | review-artifacts/MODIFIED_FILE.go:9669-9693 | the type, the wording and the id of a replacement, and that it counts as no output |
| `StreamEvents.SanitizeBillsAlike` | review-artifacts/MODIFIED_FILE.go:8622-8639 | how the replacement is phrased, which depends on the client, never changes the accounting |
| `StreamEvents.LastUsageIsBilled` | review-artifacts/MODIFIED_FILE.go:9171-9188 | the usage billed for a line sequence is the one of its last terminal event that carries usage |
| `StreamEvents.FirstIdIsKept` | review-artifacts/MODIFIED_FILE.go:8634-8636 | the response id is the first one that any line carries |
| `StreamEvents.EvidenceAddsUp` | review-artifacts/MODIFIED_FILE.go:8637-8638 | exactly the images and the searches of all lines that are relayed as they are count, whatever line they come in |
| `StreamEvents.LatestNameCounts` | review-artifacts/MODIFIED_FILE.go:9033-9065 | a data line without a type of its own has that of the last event line since the last blank one |
| `StreamEvents.EventClasses` | backend/internal/service/openai_gateway_service.go:9273-9280 | which types end a response, which of them are neutral, and which announce one |
| `Downstream.Append` | backend/internal/service/openai_first_token_placeholder_coordinator.go:64-82 | the transcript grows by exactly the bytes written, and its upstream part by their upstream part |
| `GatewayFrames.AcceptedDataIsPlaceholder` | backend/internal/service/openai_first_token_placeholder_coordinator.go:325-361 | every data line in a write that the coordinator takes for gateway frames is a placeholder |
| `GatewayFrames.BlockwiseExactly` | backend/internal/service/openai_first_token_placeholder_coordinator.go:325-361 | reading line by line comes to the same as reading block by block: each block is white space, a comment in which no data line hides, or event lines and placeholders with at least one placeholder |
| `GatewayFrames.DataLineReads` | backend/internal/service/openai_first_token_placeholder_coordinator.go:325-361 | a data line written on its own is taken for a gateway frame exactly when it is a placeholder |
| `GatewayFrames.BareLinesRead` | backend/internal/service/openai_first_token_placeholder_coordinator.go:325-361 | a blank line and a bare comment always are |
| `GatewayFrames.BlankBeforeComment` | backend/internal/service/openai_first_token_placeholder_coordinator.go:325-361 | and so is a blank line of the upstream in front of a keepalive comment |
| `GatewayFrames.EventsExactly` | backend/internal/service/openai_first_token_placeholder_coordinator.go:163-222 | across writes, event by event: an event that a blank line has ended counts as upstream output exactly when it does not read as gateway frames, and as a token event exactly when it does and has a placeholder |
| `GatewayFrames.TameIsInactive` | backend/internal/service/openai_first_token_placeholder_coordinator.go:211-222 | text in which no complete line is a placeholder does not activate the coordinator, however it was cut into writes |
| `GatewayFrames.PlaceholderEvent` | backend/internal/service/openai_first_token_placeholder_coordinator.go:211-222 | a placeholder line and the blank line after it activate the coordinator and commit nothing |
| `Downstream.PutObserved` | backend/internal/service/openai_first_token_placeholder_coordinator.go:163-222 | a delivered write adds its bytes; an observed one commits the response exactly when it, or an event put together from this and earlier writes, does not read as gateway frames, and activates the coordinator exactly when such an event carries a placeholder; a broken one adds at most a prefix |
| `Downstream.PutFrame` | backend/internal/service/openai_first_token_placeholder_coordinator.go:646-765 | a gateway frame adds no upstream byte and never commits the response |
| `Downstream.FrameExactly` | backend/internal/service/openai_first_token_placeholder_coordinator.go:646-765 | what becomes of a frame: sent, it is received and shows; queued, or refused after a commit, it changes nothing; otherwise the connection is lost |
| `Downstream.VisibleExactly` | review-artifacts/MODIFIED_FILE.go:5786-5798 | what rules failover out: a commit while the coordinator is active, else output of the relay's own or a started response |
| `Downstream.EmptyFlush` | review-artifacts/MODIFIED_FILE.go:8243-8251 | flushing nothing writes nothing and starts the response |
| `Downstream.WriteConserves` | review-artifacts/MODIFIED_FILE.go:8243-8251 | the 4096-byte buffered writer loses, repeats and reorders no upstream byte, also when a write overflows it |
| `Downstream.FlushConserves` | review-artifacts/MODIFIED_FILE.go:8243-8251 | flushing moves the buffer to the client and changes nothing else of what is under way |
| `NativeRelayProofs.LineDecides` | review-artifacts/MODIFIED_FILE.go:8540-8761 | event name, verdict, last terminal type and bill after a line are functions of the line and what was known before, never of the client |
| `NativeRelayProofs.BillingIgnoresTheClient` | review-artifacts/MODIFIED_FILE.go:8455-8761 | any two runs over the same lines that get past all of them bill the same, namely what the lines say, however they end, whichever step a client disconnects at, whatever timers fire and however the relays are configured |
| `NativeRelayProofs.PassiveRunsOn` | review-artifacts/MODIFIED_FILE.go:8540-8761 | without a response.failed event no client, frame or harmless timer stops a run before its stream ends |
| `NativeRelayProofs.FailoverIsClean` | review-artifacts/MODIFIED_FILE.go:8457-8467 | every run that ends in transparent failover has relayed only what the coordinator reads as gateway frames, and sent nothing at all while the coordinator is inactive |
| `NativeRelayProofs.ReportedTerminal` | review-artifacts/MODIFIED_FILE.go:8437-8454 | the terminal type reported with any ended run, read off its lines: response.failed if one failed, else the last neutral type, else response.failed if the client got the gateway's error event, else the last terminal type |
| `NativeRelayProofs.FailureIsAbsorbing` | review-artifacts/MODIFIED_FILE.go:8584-8633 | once a line failed, response.failed is reported whatever follows |
| `NativeRelayProofs.RunConserves` | review-artifacts/MODIFIED_FILE.go:8640-8761 | while the client is connected, what it received followed by what is buffered equals what it had before followed by every kept line since, none lost, repeated or moved |
| `NativeRelayProofs.NoErrorPasses` | review-artifacts/MODIFIED_FILE.go:8622-8640 | what any run relays is each line itself, in order, with a safe text in the place of every error body, blank event or invalid JSON |
| `NativeRelayProofs.FinishedDelivers` | review-artifacts/MODIFIED_FILE.go:8455-8497 | a run that finishes with the stream has handed a connected client every kept line |
| `NativeRelayProofs.SideEffectsOnlyOnSuccess` | review-artifacts/MODIFIED_FILE.go:8426-8436 | the response is bound to the account, or its latency sampled, only in runs without a failed and without a neutral event |
| `NativeRelayOutput.RunMatches` | review-artifacts/MODIFIED_FILE.go:8640-8761 | while the client is connected, the steps alone say how much the buffered writer holds, whether output has started, and whether any byte of the upstream has reached the client |
| `NativeRelayOutput.FailoverByExposure` | review-artifacts/MODIFIED_FILE.go:8457-8467 | at a failover the client has nothing of the upstream if no step let anything out; a client still connected has nothing exactly then: no opening line, no keepalive behind a kept line, no more than 4096 kept bytes |
| `NativeRelayOutput.BrokenAfterTerminalLosesOutput` | review-artifacts/MODIFIED_FILE.go:8498-8508 | a run reported as completed after a read error of which a connected client received nothing |
| `NativeRelayOutput.BrokenDeliversExactly` | review-artifacts/MODIFIED_FILE.go:8498-8508 | such a run has delivered everything exactly when its steps leave nothing in the buffered writer |
| `NativeRelayFailover.UncoordinatedFailoverIsEmpty` | review-artifacts/MODIFIED_FILE.go:8457-8467 | without coordination, over lines none of which is a placeholder, a run fails over only when nothing at all was sent; delayed bootstrap comment included |
| `NativeRelayFailover.UnobservedFailoverIsEmpty` | review-artifacts/MODIFIED_FILE.go:8457-8467 | with a writer the coordinator does not observe the same holds over any lines |
| `NativeRelayFailover.FailoverFreeExactly` | review-artifacts/MODIFIED_FILE.go:8457-8467 | both halves for every ended run: nothing sent at a failover without coordination and without placeholders; otherwise nothing of the upstream at a connected client exactly when no step let anything out |
| `NativeRelayFailover.FailoverFreeConfigurations` | review-artifacts/MODIFIED_FILE.go:8906-8924 | all failovers of a configuration are free of upstream bytes exactly when output is not coordinated and the writer is not observed or the upstream sends no placeholder |
| `NativeRelayFailover.KeepaliveLeaks` | review-artifacts/MODIFIED_FILE.go:8906-8924 | the coordinated, observed run that fails over with a byte of the upstream at a connected client |
| `NativeRelayFailover.PlaceholderEventLeaks` | backend/internal/service/openai_first_token_placeholder_coordinator.go:211-222 | the uncoordinated run in which an upstream event that looks like a placeholder activates the coordinator and failover follows |
| `NativeRelayFailover.UnobservedWriterLeaks` | review-artifacts/MODIFIED_FILE.go:8524-8531 | with a writer the coordinator does not observe a delta goes out and failover follows |
| `NativeRelayFailover.NoRealOutputAtFailover` | review-artifacts/MODIFIED_FILE.go:8600-8619 | at a coordinated failover every data line relayed is a placeholder: no real output has reached the client |
| `NativeRelayExits.ExitExactly` | review-artifacts/MODIFIED_FILE.go:8455-8539 | which step ends a run and with which exit, if and only if, read off the lines before it: a failed response that no policy match explains is an error; a terminal event means success, also after a read error unless the response failed; without one the run fails over while nothing is visible, and ends with an error event otherwise; a failed event that nobody has seen the start of is answered by its rule or fails over; a stall ends the run when it is claimed, or when reasoning and nothing visible was shown |
| `NativeRelayExits.LastWord` | review-artifacts/MODIFIED_FILE.go:8354-8380 | when the gateway ends the stream itself, a client still there has received everything relayed and then the error event; a rule's answer follows what was received; a completed response is flushed; every other exit adds nothing |
| `NativeRelayExits.PreambleFailsOver` | review-artifacts/MODIFIED_FILE.go:8600-8619 | a retryable failure after nothing but the preamble fails over, for every client and whatever timers fire, as long as the preamble fits the buffered writer and no keepalive comes due |
| `NativeRelayFrames.FewPlaceholders` | review-artifacts/MODIFIED_FILE.go:8376-8424 | besides the coordinator's own frames a run writes at most one safe and one timeout placeholder, each only if configured, and none after one was sent for the request before |
| `NativeRelayFrames.SafePlaceholderExactly` | review-artifacts/MODIFIED_FILE.go:8376-8392 | for a connected client the safe placeholder has been handed over once a blank line has ended a response.created event, and for no other reason than that, a timeout placeholder or an earlier one |
| `NativeRelayFrames.TimeoutPlaceholderExactly` | review-artifacts/MODIFIED_FILE.go:8392-8424 | for a connected client: once its timer has fired the timeout placeholder was sent, or a token came first, or the stream is inside an event, after which it follows; and it is sent for no other reason |
| `NativeRelayFrames.BootstrapIsServed` | review-artifacts/MODIFIED_FILE.go:8806-8870 | when its timer fires the bootstrap comment is written at once if nothing is visible and the stream is between events, and is wanted again exactly while nothing is visible |
| `NativeRelayFrames.CoordinatorIsHarmless` | backend/internal/service/openai_first_token_placeholder_coordinator.go:646-765 | a frame of the coordinator's own timer never ends the connection, starts no output and uses up no placeholder of the relay |
| `NativeRelayFrames.NoTimeoutAfterToken` | review-artifacts/MODIFIED_FILE.go:8393-8424 | after a token that counts the timeout placeholder is not written any more |
| `NativeRelayFrames.FramesBetweenEvents` | review-artifacts/MODIFIED_FILE.go:8376-8424 | no step but the coordinator's own writes a placeholder or a bootstrap comment inside an event: the last line so far is blank or dropped, or there is none |
| `NativeRelayLoop.HandleStreamingResponse` | review-artifacts/MODIFIED_FILE.go:8212-8927 | the select loop computes the specified run and stops with the event that ends it; which event that is and with which exit, what it bills, what it reports, and what the client has at a failover |
| `PassthroughRelayProofs.BillingIgnoresTheClient` | review-artifacts/MODIFIED_FILE.go:6876-7212 | the same statement for the passthrough relay |
| `PassthroughRelayProofs.PassiveRunsOn` | review-artifacts/MODIFIED_FILE.go:6876-7045 | without a response.failed event no client, frame or harmless timer stops a run before its stream ends |
| `PassthroughRelayProofs.FailoverIsClean` | review-artifacts/MODIFIED_FILE.go:6902-6917 | every failover of the passthrough relay has relayed only what the coordinator reads as gateway frames |
| `PassthroughRelayProofs.RunConserves` | review-artifacts/MODIFIED_FILE.go:7003-7044 | while the client is connected, the transcript without gateway frames followed by the held-back lines equals what it was before followed by every kept line |
| `PassthroughRelayProofs.NoErrorPasses` | review-artifacts/MODIFIED_FILE.go:6922-6931 | what any run relays is each line itself, in order, with a safe text in the place of every error body, blank event or invalid JSON |
| `PassthroughRelayProofs.ConservingExactly` | review-artifacts/MODIFIED_FILE.go:6771-6783 | that holds for all runs of a configuration exactly when output is coordinated or no delayed bootstrap comment is configured |
| `PassthroughRelayProofs.BootstrapReorders` | review-artifacts/MODIFIED_FILE.go:6771-6783 | the uncoordinated run in which a later line overtakes a held-back one |
| `PassthroughRelayProofs.ReportedTerminal` | review-artifacts/MODIFIED_FILE.go:6857-6948 | the terminal type reported with any ended run, read off the lines before the step that ended it: response.failed if one failed, else the last neutral type, else response.failed if the gateway's own terminal event went out, else the last terminal type; a line that stops the run itself does not count |
| `PassthroughRelayProofs.RunOpens` | review-artifacts/MODIFIED_FILE.go:6980-6990 | where only lines start the output, it has started exactly when it had before or one of the lines opened it |
| `PassthroughRelayProofs.RunHoldsBack` | review-artifacts/MODIFIED_FILE.go:7003-7021 | until then nothing of the upstream is written |
| `PassthroughRelayProofs.FinishedDeliversExactly` | review-artifacts/MODIFIED_FILE.go:7181-7212 | a run that finishes with the stream has delivered every kept line exactly when output had started before, one of the lines opened it, or there were none |
| `PassthroughRelayOutput.FailoverByExposure` | review-artifacts/MODIFIED_FILE.go:7003-7044 | at a failover the client has nothing of the upstream if no line went out; a client still connected has nothing exactly then; and with coordinated output and an observed writer it never has anything |
| `PassthroughRelayFailover.UncoordinatedFailoverIsEmpty` | review-artifacts/MODIFIED_FILE.go:6902-6917 | without coordination, over lines none of which is a placeholder, a run fails over only when nothing at all was sent; delayed bootstrap comment included |
| `PassthroughRelayFailover.UnobservedFailoverIsEmpty` | review-artifacts/MODIFIED_FILE.go:6902-6917 | with a writer the coordinator does not observe the same holds over any lines |
| `PassthroughRelayFailover.FailoverFreeExactly` | review-artifacts/MODIFIED_FILE.go:7003-7044 | for every ended run, coordinated or not: nothing sent at a failover without coordination and without placeholders; otherwise nothing of the upstream at a connected client exactly when no line went out, and never anything when output is coordinated and the writer observed |
| `PassthroughRelayFailover.FailoverFreeConfigurations` | review-artifacts/MODIFIED_FILE.go:7120-7194 | for connected clients all failovers are free of upstream bytes exactly when an observed writer goes with coordinated output or an upstream without placeholders, or an unobserved one with uncoordinated output; for all clients exactly when output is not coordinated and the writer is not observed or the upstream sends no placeholder |
| `PassthroughRelayFailover.BrokenWriteLeaks` | review-artifacts/MODIFIED_FILE.go:7159-7167 | the coordinated run whose connection breaks while held-back lines are written, and which then fails over |
| `PassthroughRelayFailover.PlaceholderEventLeaks` | backend/internal/service/openai_first_token_placeholder_coordinator.go:211-222 | the uncoordinated run that an upstream placeholder event makes fail over |
| `PassthroughRelayFailover.UnobservedWriterLeaks` | review-artifacts/MODIFIED_FILE.go:7191-7194 | the run with a writer the coordinator does not observe |
| `PassthroughRelayFailover.NoRealOutputAtFailover` | review-artifacts/MODIFIED_FILE.go:6902-6917 | at a coordinated failover every data line relayed is a placeholder |
| `PassthroughRelayExits.ExitExactly` | review-artifacts/MODIFIED_FILE.go:7136-7212 | the same for the passthrough relay, where a missing terminal event is an error only for a client that is still there and a context that is still alive |
| `PassthroughRelayExits.LastWord` | review-artifacts/MODIFIED_FILE.go:6755-6770 | when the gateway ends the stream itself, the client has received the held-back lines and then the error event; a rule's answer follows what was received; every other exit adds nothing |
| `PassthroughRelayExits.PreambleFailsOver` | review-artifacts/MODIFIED_FILE.go:6902-6917 | a retryable failure after nothing but the preamble fails over, for every client and whatever timers fire |
| `PassthroughRelayFrames.FewPlaceholders` | review-artifacts/MODIFIED_FILE.go:6784-6829 | at most one safe and one timeout placeholder, as in the native relay |
| `PassthroughRelayFrames.SafePlaceholderExactly` | review-artifacts/MODIFIED_FILE.go:6784-6796 | the safe placeholder follows the end of a response.created event, as in the native relay |
| `PassthroughRelayFrames.TimeoutPlaceholderExactly` | review-artifacts/MODIFIED_FILE.go:6800-6829 | the same for the passthrough relay |
| `PassthroughRelayFrames.BootstrapIsServed` | review-artifacts/MODIFIED_FILE.go:6771-6783 | the same for the passthrough relay |
| `PassthroughRelayFrames.CoordinatorIsHarmless` | backend/internal/service/openai_first_token_placeholder_coordinator.go:646-765 | the same for the passthrough relay |
| `PassthroughRelayFrames.NoTimeoutAfterToken` | review-artifacts/MODIFIED_FILE.go:6797-6829 | after a token that counts the timeout placeholder is not written any more |
| `PassthroughRelayFrames.FramesBetweenEvents` | review-artifacts/MODIFIED_FILE.go:6741-6743 | while lines are held back, no step but the coordinator's own writes a frame behind anything but a blank line |
| `PassthroughRelayLoop.WritePendingLines` | review-artifacts/MODIFIED_FILE.go:6744-6754 | the loop writes the held-back lines in order until the connection breaks: a client still there has received all of them |
| `PassthroughRelayLoop.HandleStreamingResponsePassthrough` | review-artifacts/MODIFIED_FILE.go:6654-7213 | the loop computes the specified run and stops with the event that ends it; which event that is and with which exit, what it bills, what it reports, and what the client has at a failover |
| `HttpRetry.TurnExplained` | review-artifacts/MODIFIED_FILE.go:4682-4901 | every turn that sends again is one of seven recoveries with its exact effect, and none follows a committed response |
| `HttpRetry.RetryShrinks` | review-artifacts/MODIFIED_FILE.go:4682-4901 | every retry shrinks the measure: optimization still applied, then unspent recoveries |
| `HttpRetryProofs.SendsBounded` | review-artifacts/MODIFIED_FILE.go:4682-4901 | from every state of the loop, sends are bounded by one plus what the measure leaves |
| `HttpRetryProofs.AtMostTwentyThreeSends` | review-artifacts/MODIFIED_FILE.go:4677-4901 | a request is sent at most 23 times, 12 without the cache optimization |
| `HttpRetryProofs.BoundIsReached` | review-artifacts/MODIFIED_FILE.go:4682-4901 | an upstream with statuses the classifiers accept for which a request is sent exactly 23 times |
| `HttpRetryProofs.NoSendAfterCommit` | review-artifacts/MODIFIED_FILE.go:4719-4793 | only the last send can have found the response committed |
| `HttpRetryProofs.EachRecoveryOnce` | review-artifacts/MODIFIED_FILE.go:4677-4871 | per pass each one-shot recovery happens at most once and field retries at most six times; token refresh and re-entry once per request |
| `HttpRetryProofs.NeverADuplicate` | backend/internal/service/openai_responses_rejected_field_retry.go:349-366 | as long as the bytes have the encrypted content of the parsed form, in no turn does the memory of earlier bodies refuse a field retry: only the limit of six does |
| `HttpRetryProofs.FieldsStayGoneExactly` | review-artifacts/MODIFIED_FILE.go:4835-4865 | without the optimization the bodies of a request only lose fields, for all plausible upstreams, exactly when it does not combine encrypted content with something the parsed form would bring back |
| `HttpRetryProofs.TrimAfterRejection` | review-artifacts/MODIFIED_FILE.go:4835-4865 | the run in which a removed field is sent again |
| `HttpRetryLoop.ForwardOverHttp` | review-artifacts/MODIFIED_FILE.go:4677-4901 | the loop and its recursive re-entry compute the specified run, end, stay within the bound, send nothing after a commit, and have the outcome that the last answer and the recoveries left make it |
| `HttpRetryOutcome.TurnDecides` | review-artifacts/MODIFIED_FILE.go:4740-4901 | after an error answer before any commit the first of the seven recoveries that applies is taken, or fails the request when it does not work out; when none applies the request fails over or is answered with an error, as the classifier says |
| `HttpRetryOutcome.TurnEffect` | review-artifacts/MODIFIED_FILE.go:4794-4865 | the next request has exactly the fields that the recovery did not drop, in the bytes and in the parsed form |
| `HttpRetryOutcome.RefreshIsSpent` | review-artifacts/MODIFIED_FILE.go:4794-4799 | the token is refreshed at most once, also when the refresh fails |
| `HttpRetryOutcome.OutcomeExactly` | review-artifacts/MODIFIED_FILE.go:4682-4901 | the outcome of every request, if and only if, by the answer to its last send and the recoveries that were left then |
| `Durations.Wrap` | review-artifacts/MODIFIED_FILE.go:970-999 | a product of durations that fits 64 bits is itself; one that does not can only become shorter |
| `WsReconnect.BaseIdealExactly` | review-artifacts/MODIFIED_FILE.go:959-1004 | the doubled delay equals the one over unbounded integers exactly when doubling fits 64 bits or wraps to something that is capped anyway |
| `WsReconnect.BackoffAroundExactly` | review-artifacts/MODIFIED_FILE.go:994-1016 | as long as doubling does not overflow, every draw gives a delay within the jitter around the doubled one exactly when the longest of them is a 64-bit number |
| `WsReconnect.BackoffBounded` | review-artifacts/MODIFIED_FILE.go:994-1016 | then every delay lies in [0, 2*max] |
| `WsReconnect.BackoffBoundsReached` | review-artifacts/MODIFIED_FILE.go:1004-1016 | both bounds are reached with full jitter |
| `WsReconnect.LargeJitterPanics` | review-artifacts/MODIFIED_FILE.go:1004-1011 | settings for which the draw panics, whatever the random numbers |
| `WsReconnect.ReasonableSettingsNeverOverflow` | review-artifacts/MODIFIED_FILE.go:959-1016 | for every attempt the loop makes, settings up to 576460752303 ms do not overflow |
| `WsReconnect.DelayExactly` | review-artifacts/MODIFIED_FILE.go:959-1016 | in plain numbers, for such settings: the initial delay doubled with every attempt up to the ceiling, moved by the draw within the jitter's share; with the defaults of 120 ms, 2 s and one fifth |
| `WsReconnect.NoDelay` | review-artifacts/MODIFIED_FILE.go:959-985 | no delay before the first attempt, nor when the initial delay wraps to nothing |
| `WsReconnect.LargeSettingsOverflow` | review-artifacts/MODIFIED_FILE.go:994-999 | one more millisecond wraps to a negative delay |
| `WsReconnect.AtMostSixForwards` | review-artifacts/MODIFIED_FILE.go:4461-4639 | every run makes at most six forwards, each recovery at most once, and keeps the previous response id next to a function-call output |
| `WsReconnect.RunCounts` | review-artifacts/MODIFIED_FILE.go:4468-4580 | the request at any point is the first one minus exactly what the recorded recoveries dropped |
| `WsReconnect.NoForwardAfterCommit` | review-artifacts/MODIFIED_FILE.go:4552-4557 | nothing is forwarded after a committed or a successful forward |
| `WsReconnect.SixForwardsReached` | review-artifacts/MODIFIED_FILE.go:4461-4639 | with sensible settings and no budget, a connection that keeps failing in a retryable way is tried six times |
| `WsReconnect.EveryDelayFits` | review-artifacts/MODIFIED_FILE.go:4582-4619 | every scheduled delay is the one of its attempt and fits the remaining budget, unless the sum overflows 64 bits |
| `WsReconnect.DelaysWithinBudget` | review-artifacts/MODIFIED_FILE.go:4582-4619 | with sensible settings all delays of a run together stay within the budget |
| `WsTraces.EveryForwardAnswered` | review-artifacts/MODIFIED_FILE.go:4534-4639 | what follows each forward, if and only if: the drop of the previous response id, of the encrypted content, or the mark of the agent recovery when the answer calls for it and it has not been made; else a delay that attempts and budget allow; else nothing; and then, while attempts are left, a forward of the request so changed with the latest reason |
| `WsTraces.ResultExactly` | review-artifacts/MODIFIED_FILE.go:4552-4639 | success exactly when the last forward succeeded, a cancellation exactly when the context ended during a delay, a panic exactly when a delay could not be drawn, failure otherwise |
| `WsReconnectLoop.ForwardOverWebSocket` | review-artifacts/MODIFIED_FILE.go:4461-4639 | the loop computes the specified run: at most six forwards, the request changed by exactly the recorded recoveries, what follows each forward and the result as above, every delay scheduled as it should, all of them within the budget |
| `AccountSelection.BetterIsAStrictWeakOrder` | review-artifacts/MODIFIED_FILE.go:2477-2507 | isBetterAccount inside a tier is the documented lexicographic order, a strict weak order |
| `AccountSelection.TierCountsForCompact` | review-artifacts/MODIFIED_FILE.go:2437-2447 | the compact tier comes first for compact requests and counts for nothing in others |
| `AccountSelection.SelectBestAccount` | review-artifacts/MODIFIED_FILE.go:2378-2470 | the loop selects what folding over the accepted candidates selects, which is an eligible one if there is any, reports compact blocking exactly when it happened, and collects the due probes in order |
| `AccountSelection.SelectedIsAccepted` | review-artifacts/MODIFIED_FILE.go:2378-2470 | an account is returned exactly when one is accepted, and it is one of them |
| `AccountSelection.FiltersExactly` | review-artifacts/MODIFIED_FILE.go:2387-2423 | the accounts offered are exactly those of the candidates that are not excluded, resolved, not restricted, have compact support where needed and are not cooling down, in order; those due for a probe likewise |
| `AccountSelection.HonestTieIsOptimal` | review-artifacts/MODIFIED_FILE.go:2425-2463 | if the tie predicate implies that neither is better, the selected account is minimal for every candidate list and every random sequence |
| `AccountSelection.OptimalExactly` | review-artifacts/MODIFIED_FILE.go:2450-2463 | with the code's tie predicate the selection is minimal for all draws exactly when no pooled account last used together with the best one follows the last best account |
| `Reservoir.EachCandidateEquallyOften` | review-artifacts/MODIFIED_FILE.go:2456-2461 | each of k candidates is kept by exactly (k-1)! of the k! ideal choice vectors |
| `AccountFairness.LastZeroWins` | review-artifacts/MODIFIED_FILE.go:2425-2463 | counting restarts at the first best account, ignores everything worse, and keeps the last one that drew zero |
| `AccountFairness.FairAmongTheBest` | review-artifacts/MODIFIED_FILE.go:2384-2466 | of the k! ways the best accounts can draw, each is selected by exactly (k-1)!, whatever was drawn before |
| `AccountFairness.CodeIsFairExactly` | review-artifacts/MODIFIED_FILE.go:2450-2463 | with the code's own tie each of the k best accounts is selected by one k-th of the choice vectors exactly when no pooled account last used together with them follows the first of them |
| `AccountFairness.PooledRivalIsUnfair` | backend/internal/service/openai_account_balancer.go:208-220 | a list on which it is not |
| `SlotScheduling.Slots.NewAcquiredSelection` | review-artifacts/MODIFIED_FILE.go:3258-3264 | a slot becomes a selection, or is released when hydration fails |
| `SlotScheduling.Slots.SelectWithoutBatching` | review-artifacts/MODIFIED_FILE.go:2531-2573 | the loop without batching terminates, computes the specified result, and leaves one more slot held, of the selected account, exactly when it returns an acquired selection |
| `SlotScheduling.Slots.TryInOrder` | review-artifacts/MODIFIED_FILE.go:2814-2842 | a layer takes the first account in its order that is usable and grants a slot, none exactly when there is no such account, and holds exactly that one |
| `SlotScheduling.Slots.SelectWithBatching` | review-artifacts/MODIFIED_FILE.go:2514-2919 | through all three layers: the account as the layers settle it, and one slot held exactly when an acquired selection is returned |
| `SlotScheduling.LayersExactly` | review-artifacts/MODIFIED_FILE.go:2583-2919 | through the three layers, if and only if: a usable sticky account that grants is taken; else the first usable account to grant a slot in the order of the loads, of the fresh loads when the first reading granted nothing, or of the plain list when loads cannot be read; else the caller waits for the first usable account; and which error there is otherwise |
| `SlotScheduling.LoopExactly` | review-artifacts/MODIFIED_FILE.go:2531-2573 | every run of the loop: accounts are chosen in vain and set aside one by one, and the first choice after them settles the result; a wait is for the first of them |
| `SlotScheduling.ChoiceExactly` | review-artifacts/MODIFIED_FILE.go:2231-2272 | whom a round chooses: the sticky account as long as it was not set aside, else the best account |
| `SlotScheduling.ChosenIsNew` | review-artifacts/MODIFIED_FILE.go:2231-2272 | the account chosen for a round is known and not yet excluded, so that the loop ends |
| `SlotScheduling.BatchingAvoidsExcluded` | review-artifacts/MODIFIED_FILE.go:2583-2660 | an excluded account is neither selected nor waited for in any layer |
| `SlotScheduling.LoopAvoidsExcluded` | review-artifacts/MODIFIED_FILE.go:2531-2573 | nor in the loop without batching |
| `SlotScheduling.BusyPoolWaitsExactly` | review-artifacts/MODIFIED_FILE.go:2539-2549 | when every account is busy the caller is told to wait for the first choice exactly when no candidate was passed over for lacking compact support |
| `WriteThrottle.AccountWriteThrottle.Allow` | review-artifacts/MODIFIED_FILE.go:335-374 | the decision, the allowed next memories, and at most 4096 entries after every call |
| `WriteThrottle.AccountWriteThrottle.DropOldest` | review-artifacts/MODIFIED_FILE.go:355-371 | only oldest entries go, and only as many as needed |
| `WriteThrottle.MemoryIsBounded` | review-artifacts/MODIFIED_FILE.go:346-371 | no run remembers more than 4096 accounts |
| `WriteThrottle.FaithfulExactly` | review-artifacts/MODIFIED_FILE.go:335-374 | the bounded throttle answers every possible next call like one that never forgets exactly when at no moment more than 4096 accounts were written within one interval |
| `WriteThrottle.DecisionsAgree` | review-artifacts/MODIFIED_FILE.go:335-374 | in such a run every decision is that of the unbounded throttle |
| `WriteThrottle.WritesAreApart` | review-artifacts/MODIFIED_FILE.go:335-345 | in such a run two allowed writes of one account are at least the interval apart |
| `WriteThrottle.BurstOverflows` | review-artifacts/MODIFIED_FILE.go:346-371 | 4097 accounts at one moment are too many |
| `BodyPatch.PatchRecorder.MarkPatchSet` | review-artifacts/MODIFIED_FILE.go:3954-3974 | recording a set |
| `BodyPatch.PatchRecorder.MarkPatchDelete` | review-artifacts/MODIFIED_FILE.go:3975-3992 | recording a delete |
| `BodyPatch.PatchRecorder.Serialize` | review-artifacts/MODIFIED_FILE.go:4384-4404 | patching or full serialization, whichever the record allows |
| `BodyPatch.PatchRefinesMarshal` | review-artifacts/MODIFIED_FILE.go:3946-3995 | for every sequence of recorded sets, deletes and disabling transformations on any paths, what is sent equals the changed body |
| `BodyPatch.PatchFaithfulExactly` | review-artifacts/MODIFIED_FILE.go:4143-4193 | with the two steps the recorder misses it does exactly when the body is serialized in full, or the flat effort was not raised and no existing verbosity was dropped |
| `BodyPatch.VerbosityIsSent` | review-artifacts/MODIFIED_FILE.go:4143-4147 | a request whose dropped verbosity still reaches the upstream |
| `SseFrames.ExtractDataLine` | review-artifacts/MODIFIED_FILE.go:9001-9013 | the scanning loop extracts the data of a line |
| `SseFrames.ExtractEventLine` | review-artifacts/MODIFIED_FILE.go:9015-9027 | the scanning loop extracts the event name of a line |
| `SseFrames.ControlIsPlain` | review-artifacts/MODIFIED_FILE.go:9041-9065 | a forwarded control line is blank, a bare comment or an event line with a plain name |
| `SseFrames.ControlExactly` | review-artifacts/MODIFIED_FILE.go:9041-9065 | which control lines are kept, as what, and which event name is in force after each |
| `SseFrames.ControlIsStable` | review-artifacts/MODIFIED_FILE.go:9041-9065 | and passes the sanitizer again unchanged |
| `SseFrames.FrameParser.AddLine` | review-artifacts/MODIFIED_FILE.go:9078-9093 | one line: the new parser state and the frame it completes |
| `SseFrames.ParseLines` | review-artifacts/MODIFIED_FILE.go:9078-9107 | feeding all lines and finishing yields the specified parse |
| `SseFrames.BlankLineSplits` | review-artifacts/MODIFIED_FILE.go:9078-9107 | lines before and after a blank line parse independently |
| `SseFrames.RoundTripExactly` | review-artifacts/MODIFIED_FILE.go:9001-9107 | printing frames and parsing them gives them back exactly when each has data, no data line starts with a blank, and its event type is trimmed |
| `ReasoningTrim.Entry.Sanitize` | review-artifacts/MODIFIED_FILE.go:10194-10222 | which items change, which are dropped, and what happens to the shared map of each |
| `ReasoningTrim.FateExactly` | review-artifacts/MODIFIED_FILE.go:10194-10222 | encrypted reasoning is sealed, and dropped exactly when it has nothing but its type besides; an encrypted compaction is dropped; anything else stays |
| `ReasoningTrim.UntypedStays` | review-artifacts/MODIFIED_FILE.go:10194-10222 | an item that is no object or has no text for a type stays as it is |
| `ReasoningTrim.CompactInPlace` | review-artifacts/MODIFIED_FILE.go:10126-10140 | in place: the surviving entries in front, the other positions as they were, the encrypted content gone from every shared reasoning map, changed exactly when something was sealed |
| `ReasoningTrim.SurvivorsHold` | review-artifacts/MODIFIED_FILE.go:10126-10140 | the entries in front hold exactly the filtered items |
| `ReasoningTrim.RequestInput.Trim` | review-artifacts/MODIFIED_FILE.go:10114-10192 | for list, single item, other and missing input: the trimmed input, and true exactly when it differs |
| `ReasoningTrim.SurvivorsInOrder` | review-artifacts/MODIFIED_FILE.go:10126-10140 | the survivors are the originals in order, each without its encrypted content, and exactly the dropped ones are missing |
| `ReasoningTrim.NothingSealedLeft` | review-artifacts/MODIFIED_FILE.go:10194-10222 | no sealed item is left |
| `ReasoningTrim.TrimIsIdempotent` | review-artifacts/MODIFIED_FILE.go:10114-10192 | trimming twice is trimming once, so a second call returns false |
| `FastPolicy.Evaluate` | review-artifacts/MODIFIED_FILE.go:11598-11627 | the two-pass loop is first match over the stable partition of the rules |
| `FastPolicy.WhoDecides` | review-artifacts/MODIFIED_FILE.go:11598-11627 | in configured order: the first applicable rule naming users, else the first applicable global rule, else pass |
| `FastPolicy.PartitionKeepsRules` | review-artifacts/MODIFIED_FILE.go:11604-11625 | the partition is a permutation of the rules |
| `FastPolicy.ScopesExactly` | backend/internal/service/gateway_service.go:9122-9135 | which accounts a scope names |
| `FastPolicy.AppliesExactly` | review-artifacts/MODIFIED_FILE.go:11598-11627 | when a rule applies: to everybody or a user it names, in its scope, and to any tier, all tiers or its own, in any case |
| `FastPolicy.ResolveExactly` | backend/internal/service/gateway_service.go:9151-9162 | a rule's action for the models on its whitelist or for all without one, else its fallback, else pass |
| `FastPolicy.NormalTierExactly` | review-artifacts/MODIFIED_FILE.go:11526-11544 | which texts name which tier |
| `FastPolicy.FateExactly` | review-artifacts/MODIFIED_FILE.go:11693-11735 | what becomes of a body: refused with the rule's message or one that names tier and model, stripped, raised to priority, or sent with the tier's proper name |
| `FastPolicy.FrameLikeBodyExactly` | review-artifacts/MODIFIED_FILE.go:11693-11839 | a frame meets the fate of the same body exactly when it is a response.create, or its tier does not count, or the action neither blocks nor removes it and the field already says what it should |
| `FastPolicy.ForwardLikeBodyExactly` | review-artifacts/MODIFIED_FILE.go:4322-4348 | Forward treats a request like the other two exactly when the action is not force_priority or the tier already reads priority |
| `FastPolicy.ForceIsIgnored` | review-artifacts/MODIFIED_FILE.go:4322-4348 | a forced priority that Forward ignores |
| `FastPolicy.NormalTierIsCanonical` | review-artifacts/MODIFIED_FILE.go:11526-11544 | normalizing yields one of five tiers or none, and normalizes to itself |
| `QuotaPause.NormalizeIgnoresOrder` | review-artifacts/MODIFIED_FILE.go:146-217 | with both windows known and different, which header carries which does not matter and the shorter one is 5h |
| `QuotaPause.WindowsExactly` | review-artifacts/MODIFIED_FILE.go:146-217 | which limit is taken for which window, with both, one or no window known |
| `QuotaPause.StampRoundTrip` | review-artifacts/MODIFIED_FILE.go:1971-2007 | a stored moment is read back to the second, unless it lies outside the years 0 to 9999 |
| `QuotaPause.MergeExactly` | review-artifacts/MODIFIED_FILE.go:11197-11283 | what a snapshot does not say stays as stored, and what it says replaces it |
| `QuotaPause.SecondsShorten` | review-artifacts/MODIFIED_FILE.go:11210-11220 | overflow of a duration can only shorten it |
| `QuotaPause.PauseEnds` | review-artifacts/MODIFIED_FILE.go:11197-11283 | a snapshot with reset seconds for a window ends that window's pause by base plus max(0, seconds), whatever was stored before, and for good |
| `QuotaPause.PauseEndsExactly` | review-artifacts/MODIFIED_FILE.go:1971-2007 | without overflow exactly at that moment rounded down to the second |
| `QuotaPause.PauseIsBoundedExactly` | review-artifacts/MODIFIED_FILE.go:1971-2007 | for every stored map: a pause is bounded exactly when usage is below the threshold or the map knows when the window resets |
| `QuotaPause.PausesExactly` | review-artifacts/MODIFIED_FILE.go:1854-1970 | an account pauses exactly when one of its windows is not disabled, has reached its own limit or else the standard one, at most all of it, and has not been reset |
| `QuotaPause.AccountResumes` | review-artifacts/MODIFIED_FILE.go:1854-1878 | the account resumes once every window that can pause it has reset |
| `QuotaPause.HeaderEndsItsWindow` | review-artifacts/MODIFIED_FILE.go:146-217 | the reset seconds of either header end the pause of whichever window it turns out to be |
| `QuotaPause.PausedForever` | review-artifacts/MODIFIED_FILE.go:1971-2007 | a snapshot that pauses an account for ever |
| `AuditGate.CheckConsistent` | tools/check_pnpm_audit_exceptions.py:43-51 | the dictionary of first severities finds every conflict |
| `AuditGate.ValidatedExactly` | tools/check_pnpm_audit_exceptions.py:12-56 | the validator accepts a report exactly when one kind of collection is populated, every entry is readable with a known severity, the totals of high and critical are the numbers of such entries, no total is negative or says something about an empty report, and no two findings of one key differ |
| `AuditGate.OmissionCheckIsRedundant` | tools/check_pnpm_audit_exceptions.py:38-54 | once the totals agree with the collection the check for omitted details cannot fail |
| `AuditGate.FindingsExactly` | tools/check_pnpm_audit_exceptions.py:98-161 | the findings of a report are exactly what its advisories report and, for each vulnerable package, every usable cause or, without one, a finding with no identifier |
| `AuditGate.CausesExactly` | tools/check_pnpm_audit_exceptions.py:98-161 | every usable cause of a package becomes a finding with its severity, and nothing else does |
| `AuditGate.BuildIndex` | tools/check_pnpm_audit_exceptions.py:205-239 | no problem is recorded exactly when all exceptions are well-formed with distinct keys, and then the index holds exactly them |
| `AuditGate.CheckCoverage` | tools/check_pnpm_audit_exceptions.py:245-276 | the loop stays quiet exactly when no first finding of a key is in trouble |
| `AuditGate.SkippingIsSafe` | tools/check_pnpm_audit_exceptions.py:245-263 | in a consistent report skipping seen keys hides nothing |
| `AuditGate.SkippingHidesConflicts` | tools/check_pnpm_audit_exceptions.py:245-263 | without the validator it would |
| `AuditGate.RunGate` | tools/check_pnpm_audit_exceptions.py:191-300 | exit 0 exactly when the report is valid, every exception is well-formed with its own key, and every high or critical finding is named, identified and excused |
| `AuditGate.BlankSeverityExactly` | tools/check_pnpm_audit_exceptions.py:268-272 | being excused means equal severity exactly when no excusing exception has a severity of white space only |
| `AuditGate.BlankSeverityIsAccepted` | tools/check_pnpm_audit_exceptions.py:211-217 | such an exception, which is accepted for a critical finding |

## Left out

- JSON syntax, gjson and sjson: a body is a tree or a set of fields, an SSE payload a record of the facts that are read out of it.
- Text classifiers for errors, output and policy matches: answers of the environment, constant for one payload.
- Event types other than the known names are one constructor with a name; spellings that differ only in case are different names.
- Image and search counting: sets of ids whose size is the count; sizes and prices of images are not modelled.
- Where exactly inside the processing of one line a coordinator frame is written: frames come between steps.
- Keepalive comments of the native relay and frames after the passthrough output has started: neither checks for an event boundary, and nothing is claimed about where they land.
- Downstream.PutObserved: whether a payload is JSON of the placeholder's type is an arbitrary function of its text; events end at an empty line, so carriage returns are not modelled, nor is the limit of 8 MiB after which the coordinator stops collecting an event.
- The closures of the relays and of the retry loops as separate procedures: they are transitions on a record of the local variables they update.
- NativeRelayFailover.FailoverFreeExactly: what reached a connected client is not read off the steps for an uncoordinated relay with a delayed bootstrap comment whose upstream sends placeholders, where also a frame can start the output; without placeholders nothing is left out.
- PassthroughRelayFailover.FailoverFreeExactly: likewise.
- NativeRelayOutput.BrokenDeliversExactly: not for the uncoordinated relay with a delayed bootstrap comment, where also a frame can start the output.
- PassthroughRelayProofs.FinishedDeliversExactly: likewise.
- Model replacement, tool correction, usage normalization for the client and latency metrics: they change the text of a line, which the model takes as given.
- The WebSocket relay, the retry loop of forwardOpenAIPassthrough, chat-completions and messages entry points: they would repeat the patterns proved here.
- The re-entry of the HTTP loop is taken to reach the HTTP loop again, with the optimization off; request building before the loop is a given request.
- SHA-256 hashes of bodies stand for the bodies themselves.
- Items of a request are identified by position when fields are removed; the renumbering after whole items are dropped is not modelled in `HttpRetry`.
- QuotaPause.PauseEnds: supposes that the snapshot's base time lies in the years 0 to 9999, the range its timestamps can express.
- WsReconnect.BackoffBounded: jitter is computed over reals; rounding of 64-bit floating point is not modelled.
- FastPolicy.FrameLikeBodyExactly: frames and bodies are valid JSON objects; the source leaves other frames untouched.
- AccountFairness.FairAmongTheBest: supposes that the equally ranked accounts are distinct, and counts ideal draws rather than 64-bit random numbers.
- The order in which load-aware selection tries its candidates (health scores, loads, shuffling): an arbitrary order of the candidates.
- Sticky-session bindings: which account a session is bound to afterwards is not modelled.
- Token refresh, databases, Redis, TLS, proxies, header building and logging.
- Cost pricing, the usage log, and the edge lease and settlement protocols, which the repository only describes.
- `parse_exceptions` of the audit gate: the exception list is given; upper case outside ASCII is not folded.
- Generated builders, the frontend and deployment files: no deep property.
