# Model of the LLM router's request path

The router accepts OpenAI and Anthropic chat requests, chooses a backend, fails over while nothing has
been written, translates between the two protocols while streaming, and watches the health of its
backends. These modules model that path from the requested model name to the last byte on the client's
connection, and prove what the design documents promise about it.

## How it is built

| layer | modules |
|---|---|
| bytes and records | `Bytes`, `Sse`, `EventStream` |
| what JSON carries | `Codec`, `CodecWitness` |
| client connection and sinks | `Wire`, `SinkStates`, `Sinks` |
| backends, bodies, relays | `Upstream`, `Relay` |
| selection | `Fleet`, `StableSort`, `Selectors`, `Resolve` |
| strategies and server | `ProxyRun`, `Proxy`, `Fusion`, `Server` |
| background owners | `Monitor`, `Metrics`, `InFlight` |
| requests across protocols | `Requests` |
| theorems | the modules ending in `Laws` |

Objects that the program updates in place are classes (`ResponseWriter`, the two sinks, `Client`, the two
response bodies, `Scanner`, `ProxyStrategy`, `RoundRobinSelector`, `Monitor`, `Owner`). Each method is
proved against a function of the state before it; the theorems are about those functions. The Go
interfaces `ResponseSink` and `io.ReadCloser` are datatypes with one constructor per implementation.

Three things stand outside the program and are arguments:

- **Backends.** An `Answer` per dispatch says what the upstream does: no connection, or a status and a
  body in pieces that ends cleanly or with a read error. The panel, the judge and the synthesis of a
  fusion run answer as functions of what they are asked.
- **Cancellation.** `Ctx` counts the checks of the request context; cancellation may arrive before any of
  them, and then stays.
- **The client.** A connection takes `fuse` more bytes and then fails, at any byte.

JSON stands behind `Codec`, a record of functions. The theorems that need more than some function use
`Faithful`: an encoded chunk is one non-empty, trimmed line without newlines, other than the terminator,
and decoding reads back model, text and finish reason.

The main theorems, from the outside in:

- `Server.HandleChat`: every request gets exactly one of the error envelope, with the status its reason calls
  for, one whole reply or one stream.
- `FailoverLaws.ExecutionLaw`, `FirstAnswerWins`, `ClientGetsTheReply`: what a proxy run dispatches, counts,
  suspects, and sends; `AnswerLaws` tells it from the upstream's answers, `PlanLaws` says in which order the
  candidates are tried.
- `FusionLaws.WorkflowLaw`, `ClientGetsTheSynthesis`, `SynthesisChain`: the panel gate, the one response of a
  fusion run, and its stream through both translations.
- `StreamLaws.Chain`, `PrintParse`: translation and relaying keep text and boundaries; `EventLaws` says which
  events which text holds, without the reader.
- `Monitor.Loop`, `InFlight.EveryScheduleConserves`, `Metrics.Owner.Render`: what the background numbers mean.
- `ParetoLaws.ParetoIsUnique`, `SelectorLaws.Fairness`, `LoadShare`: what the selectors choose.
- `RequestLaws.RequestRoundTrip`: which requests pass through the canonical form unchanged.

## Where the code and its comments differ

- A record ends only at `\n\n`; records separated by CRLF blank lines are joined into one payload, and
  `LineLaws.CrlfIsNotSplit` says for which lists of payloads that does no harm.
- A payload gathered from several data lines does not survive re-framing (`LineLaws.NewlineIsLost`;
  `Sse.FrameRoundTrip` says which payloads do).
- A suspicion dropped on a full channel need not be covered by a pending re-probe, as the comment at
  `internal/backend/health.go:61` has it (`MonitorLaws.DroppedIsNotCovered`); the next tick covers it
  (`TickCovers`).
- An attempt whose outbound body cannot be built is counted as a failover and never dispatched, so
  `failovers` can exceed the dispatches less one (`EncodingLaws.OneDispatchOneFailover` is such an input,
  `ExactIffUniform` says for which candidates it cannot happen). Through `handleChat` it does not happen: a
  body decoded from valid JSON always encodes again (`internal/router/proxy.go:397-416`), which
  `FailoverLaws.ExecutionLaw` states as a case of its own.
- A streamed 2xx status other than 200 is logged as it is and sent to the client as 200
  (`FailoverLaws.StatusIsSeen`, `CreatedIsSentAs200`).
- Streamed input usage towards Anthropic consumers is always 0 (`AnthropicLaws.Grammar`).
- The round-robin rotation is unfair across the counter's wrap, unless the list length divides 2^64
  (`SelectorLaws.FairIffDivides`, `WrapIsUnfairForThree`). One counter serves all aliases, so fairness is
  about consecutive calls on one list.
- A fusion panel whose entries with a healthy backend are fewer than `MinPanel` resolves to a plan that can
  only end in 502 (`AliasLaws.GateCanOpen`, `OneDownOfTwo`).

## Model

| member | source | states |
|---|---|---|
| `Sse.SplitIsStable` | internal/router/proxy.go:494-505 | a record split off a buffer stays the same record however the buffer grows and whether or not the stream ends |
| `LineLaws.CrlfIsOneToken` | internal/router/proxy.go:494-505 | any list of records ended by CRLF blank lines is scanned as one record, or as none when it fills the scanner |
| `LineLaws.CrlfDelivered` | internal/router/proxy.go:494-532 | a live relay is given those records joined by newlines as one payload, the terminator text among them unless it is alone |
| `LineLaws.CrlfIsNotSplit` | internal/router/proxy.go:494-532 | CRLF-separated payloads are delivered as they are if and only if there is at most one and it fits; with a CRLF terminator record, if and only if there is none |
| `Sse.ScanSplits` | internal/router/proxy.go:494-505 | scanning splits the whole stream: no record holds a blank line, the records with their separators are a prefix of the stream in order, and all of it unless the scan fails |
| `Sse.ScanFirst` | internal/router/proxy.go:251-255 | the first decided record can be delivered before the rest of the stream is known |
| `Sse.ScanFull` | internal/router/proxy.go:251-253 | a full 16 MiB buffer without a blank line ends the scan with an error, whatever follows |
| `Sse.ExtractData` | internal/router/proxy.go:511-532 | the loop over the lines gathers the data fields: trimmed, joined by newlines, an all-blank one forgotten when it comes first, the terminator recognised |
| `Sse.FrameRoundTrip` | internal/router/proxy.go:511-532 | framing a payload and extracting it gives it back if and only if it is non-empty, trimmed, free of newlines and not the terminator text |
| `LineLaws.RecordIs` | internal/router/proxy.go:511-532 | from a record of any lines with any returns behind them a relay takes the trimmed values of its data lines, from the first that is not blank on, joined by newlines; event names, ids and comments do not count |
| `Relay.Scanner.Next` | internal/router/proxy.go:251-255 | one Scan delivers the next record of the whole byte stream, independent of how reads cut it, and reports a read error or an oversized record only after the records before it |
| `Relay.RelayStream` | internal/router/proxy.go:244-281 | the sink, the context, the usage and the error after a relay are a function of the body's bytes alone; the body is released exactly once |
| `Relay.RelayRecords` | internal/router/proxy.go:255-280 | the scan loop is the fold of the record step over the records ahead, with the terminator also written after a read error |
| `Relay.RelayOne` | internal/router/proxy.go:255-270 | one record: stop on cancellation or terminator, skip an empty one, give up on a write error, otherwise update usage and pass it on |
| `Relay.RelayRawStream` | internal/router/proxy.go:342-368 | the raw relay writes the reads in order until the end, a cancellation or a failed write, and releases the body once |
| `RelayLaws.RelayServes` | internal/router/proxy.go:255-280 | every relay leaves the sink as the delivered payloads followed by one terminator leave it; it is silent only if the client missed nothing, and if the client missed nothing the only error is the upstream's |
| `RelayLaws.UsageIsLast` | internal/router/proxy.go:485-490 | unless a write fails the recorded usage is the last one reported that is not all zero |
| `RelayLaws.DeliveredIsPlain` | internal/router/proxy.go:259-265 | no empty payload and no terminator is ever passed to the sink |
| `RelayLaws.CancellationCuts` | internal/router/proxy.go:255-258 | cancellation at any check delivers a prefix of what a live request is delivered |
| `RelayLaws.OpenAIServes` | internal/server/sink.go:69-95 | the OpenAI sink writes each payload framed once, in order, and one terminator, cut at the byte where the connection fails |
| `RelayLaws.RawCopies` | internal/router/proxy.go:342-368 | a raw relay copies the upstream bytes up to a cancellation, cut at the byte where the connection fails; without a cancellation all of them, and its error says which side failed |
| `StreamLaws.RenderedIsDelivered` | internal/router/proxy.go:244-281 | scanning and extracting a rendered stream gives back its payloads up to the first that does not fit the token bound, and nothing after the terminator |
| `StreamLaws.OpenAIStream` | internal/router/proxy.go:244-281 | every relay of any bytes to an OpenAI consumer commits one head and writes the delivered payloads framed, then one terminator |
| `StreamLaws.PrintParse` | internal/router/proxy.go:244-281 | relaying a rendered stream of valid payloads is byte-identical if and only if every record fits the scanner; bytes after the terminator never reach the client |
| `LineLaws.NewlineIsLost` | internal/server/sink.go:69-85 | the data lines of one record are joined by newlines, and framing the result under one prefix gives it back if and only if there was one line |
| `StreamLaws.AnthropicStream` | internal/server/anthropic.go:314-418 | every relay of any bytes to a fresh Anthropic sink commits one head and writes exactly one message in protocol order, cut where the connection fails |
| `StreamLaws.TranslationIsMessage` | internal/server/anthropic.go:326-418 | the message made from a reader's chunks holds the upstream's non-empty text deltas in order and the stop reason of both maps composed, end_turn if none |
| `StreamLaws.ReaderIsDelivered` | internal/backend/anthropic.go:339-472 | relaying the reader's output delivers its chunks one by one, fewer only when one exceeds the token bound or the request is cancelled |
| `StreamLaws.Chain` | internal/backend/anthropic.go:339-472 | Anthropic to OpenAI to Anthropic, for every upstream byte sequence, cancellation point and connection: the consumer receives one well-formed message with the non-empty text deltas before message_stop or the end, boundaries kept, and the stop reason of both maps composed |
| `EventStream.OutputIsRendered` | internal/backend/anthropic.go:339-472 | for every upstream byte sequence the reader's output is the records of the complete events before message_stop or the end, then exactly one terminator record |
| `EventLaws.RecordsAreRead` | internal/backend/anthropic.go:355-374 | for every list of records written line by line, with event names, ids and comments between and LF or CRLF ends, the events read are what the trimmed data lines, joined without newlines, decode to, in order, whatever follows |
| `EventLaws.TailIsNoEvent` | internal/backend/anthropic.go:355-374 | lines without a blank line behind them are no event |
| `EventLaws.EveryStream` | internal/backend/anthropic.go:355-390 | every byte sequence is such a list of records and an unfinished one |
| `EventLaws.StopCuts` | internal/backend/anthropic.go:394-438 | nothing from the first message_stop on counts |
| `EventLaws.ChunksAreTold` | internal/backend/anthropic.go:394-463 | the chunks of any events: a role, non-empty text or thinking, or a mapped stop reason each, under the last non-empty id and model named so far |
| `EventLaws.WrittenOutput` | internal/backend/anthropic.go:339-472 | on written records the output is what their events tell before message_stop, framed, and one terminator |
| `EventLaws.WrittenChain` | internal/backend/anthropic.go:339-472 | on written records an Anthropic consumer receives the texts and the stop reason of the events the data lines decode to |
| `Upstream.StreamReader.Read` | internal/backend/anthropic.go:339-350 | a read delivers the next non-empty piece of that output, or nothing at its end; pumping terminates |
| `Upstream.StreamReader.ReadInto` | internal/backend/anthropic.go:339-350 | any sequence of non-empty reads delivers the output in order and makes progress at every read |
| `Upstream.StreamReader.PumpOne` | internal/backend/anthropic.go:355-374 | one event moves from the upstream bytes to the buffer; what is ahead of the reader does not change |
| `Upstream.StreamReader.HandleEvent` | internal/backend/anthropic.go:394-438 | each event kind queues its chunk, remembers id and model, or ends the stream |
| `Upstream.StreamReader.ReadEvent` | internal/backend/anthropic.go:355-374 | lines up to a blank one are gathered into one event's data; an incomplete event at the end is dropped |
| `Upstream.StreamReader.EmitDone` | internal/backend/anthropic.go:466-472 | the terminator record is queued at most once |
| `Upstream.StreamReader.Close` | internal/backend/anthropic.go:476-487 | every close closes the upstream body; the first also cancels the call and gives the in-flight slot back |
| `Upstream.GuardedBody.Close` | internal/backend/client.go:315-330 | every close closes the upstream body; the first also cancels the call and gives the in-flight slot back |
| `Upstream.Client.Chat` | internal/backend/client.go:107-112 | the reply follows the backend's protocol; the gauge rises by one exactly when a response is handed out, whose body owns the slot |
| `Upstream.Client.ChatNative` | internal/backend/client.go:128-153 | a transport error gives the slot back before returning, any reply hands it to the body unread |
| `Upstream.Client.ChatAnthropic` | internal/backend/anthropic.go:24-97 | all four exits: transport error, non-200 reply, stream, unary translation that may fail; the slot is released or handed over, never both |
| `Codec.StopSurvives` | internal/backend/anthropic.go:302-313 | through both stop-reason maps a reason survives if and only if it is max_tokens, tool_use or end_turn |
| `CodecWitness.SomeCodecIsFaithful` | internal/backend/anthropic.go:442-463 | the contract assumed of the JSON encoding of a chunk can be met |
| `Sinks.OpenAISink.WriteEvent` | internal/server/sink.go:69-85 | the three writes of an event equal one framed write cut where the connection fails; the terminator payload is skipped |
| `Sinks.AnthropicSink.WriteEvent` | internal/server/anthropic.go:326-366 | a chunk opens the message once, emits its text if any, then updates stop reason and usage; an undecodable one is ignored |
| `Sinks.AnthropicSink.EndStream` | internal/server/anthropic.go:369-390 | the closing events are written once, opening the message first if nothing had |
| `Sinks.AnthropicSink.Emit` | internal/server/anthropic.go:421-441 | one event is written as its name line and its data line, cut where the connection fails |
| `AnthropicLaws.AnthropicServes` | internal/server/anthropic.go:326-418 | any payloads then EndStream write the rendered events of the chunks read, cut where the connection fails |
| `AnthropicLaws.Grammar` | internal/server/anthropic.go:326-418 | the events of any chunks are message_start (input tokens 0), content_block_start, deltas, content_block_stop, message_delta with the last stop reason and the last positive completion count, message_stop |
| `EventLaws.SinkIsReadBack` | internal/server/anthropic.go:421-441 | what the sink writes is a list of named records, and the repository's own reader reads back from it what each event was encoded to |
| `Codec.FinishIsTold` | internal/server/anthropic.go:551-562 | which finish reasons are told as max_tokens, tool_use and end_turn |
| `Proxy.HandleUnaryResponse` | internal/router/proxy.go:192-211 | retry on 502, 503, 504 or a truncated body with the sink untouched, otherwise the reply is written whole with its usage; the slot is released on every path (native form: lines 288-307) |
| `Proxy.HandleStreamResponse` | internal/router/proxy.go:218-238 | retry on 502, 503, 504 with the sink untouched, other non-2xx relayed whole, 2xx relayed as a stream; the slot is released on every path (native form: lines 314-334) |
| `Proxy.ProxyStrategy.Execute` | internal/router/proxy.go:43-179 | the whole method refines the failover machine: context, sink, suspicions, failover counter, dispatches, outcome and ending are those of the machine on the ordered candidates, the rotation counter moves as ordering says, and every in-flight gauge is back at its old value |
| `Proxy.ProxyStrategy.TryOne` | internal/router/proxy.go:72-165 | one turn of the loop is one attempt of the machine |
| `Proxy.ProxyStrategy.Serve` | internal/router/proxy.go:138-164 | the router headers are buffered, the handler runs, a retry suspects the backend unless cancelled |
| `Proxy.ProxyStrategy.Ordered` | internal/router/proxy.go:49-62 | the selector named by the plan orders the candidates; protocol preference is applied unless it is pareto |
| `Proxy.ProxyStrategy.GiveUp` | internal/router/proxy.go:152-160 | a failed attempt is suspected exactly when the request is not cancelled |
| `ProxyLaws.HandleCommits` | internal/router/proxy.go:192-238 | a handler that is done has committed exactly one head with the candidate's headers and status (200 for a 2xx stream) and no retryable status |
| `ProxyLaws.LoopLaw` | internal/router/proxy.go:72-178 | in every run: at most 3 dispatches in list order, each while nothing is written; failovers and retries are the attempts after the first; at most one commit, under the committing candidate's headers; the suspected names are exactly those of the attempts that failed with a live context |
| `ProxyLaws.LoopTrace` | internal/router/proxy.go:72-178 | every attempt but the answering one failed before writing, and the final sink, context and outcome are those of handling the answering reply on the untouched sink |
| `FailoverLaws.ExecutionLaw` | internal/router/proxy.go:43-179 | both laws for whole executions, with status 503 iff there is no candidate, 502 when attempts run out, 400 when the body cannot be built; with an encodable body failovers are the dispatches less one |
| `EncodingLaws.ExactIffUniform` | internal/router/proxy.go:83-123 | failovers are the dispatches less one in every run over a candidate list, whatever is answered and whenever it is cancelled, if and only if among the candidates it may try none that cannot be sent to follows a first one that can |
| `EncodingLaws.MixedIsNot` | internal/router/proxy.go:83-123 | otherwise a run whose backends are unreachable counts as many failovers as dispatches |
| `EncodingLaws.OneDispatchOneFailover` | internal/router/proxy.go:83-123 | an input: an unreachable Anthropic backend, then an OpenAI backend no body can be built for, give one dispatch and one failover |
| `FailoverLaws.FirstAnswerWins` | internal/router/proxy.go:72-178 | without cancellation and encoding errors the run ends at the first attempt among the first three known candidates that does not fail, and in 502 if and only if all of them fail |
| `FailoverLaws.ClientGetsTheReply` | internal/router/proxy.go:125-164 | after a reply the client has exactly the answer of the last candidate dispatched to, told from the answer itself, and the outcome names that candidate and its dispatch |
| `FailoverLaws.StatusIsSeen` | internal/router/proxy.go:233-237 | the recorded status is the client's if and only if the reply is no stream with a 2xx status other than 200 |
| `FailoverLaws.CreatedIsSentAs200` | internal/router/proxy.go:233-237 | an input: a streamed 201 is recorded as 201 and sent as 200 |
| `FailoverLaws.OrderedAreHealthy` | internal/router/proxy.go:49-62 | the candidates tried are exactly the plan's healthy ones, under either selector and any rotation |
| `AnswerLaws.ReceiveIs` | internal/backend/client.go:107-153 | what a strategy receives, told from the upstream's answer: no reply when it cannot be reached or its unary Anthropic document cannot be read and translated; otherwise its status, its content type, and its document as it is, translated whole, or translated as a stream |
| `AnswerLaws.FailsIff` | internal/router/proxy.go:125-161 | an attempt fails over if and only if no reply comes, its status is 502, 503 or 504, or a unary document is cut off |
| `AnswerLaws.HandleSends` | internal/router/proxy.go:192-368 | whichever handler takes an answer, the client has exactly that answer: its head with every header, its bytes whole, raw or streamed and cut where the connection fails, and the recorded status and usage are its own |
| `AnswerLaws.UnaryIsTranslated` | internal/backend/anthropic.go:79-96 | a unary Anthropic document reaches an OpenAI consumer translated and an Anthropic one translated back; one that cannot be translated, or is cut off, is lost |
| `FailoverLaws.InTierFirst` | internal/router/proxy.go:49-62 | on a pareto plan a below-bar candidate is dispatched to only after every healthy in-tier one has been and has failed |
| `PlanLaws.ParetoPlanOrder` | internal/router/proxy.go:49-62 | a pareto plan is tried in the only order arranged by tier, cost and position, under the request's own bar when it names one |
| `PlanLaws.ParetoPlanInTierFirst` | internal/router/proxy.go:49-165 | in a whole execution of a pareto plan a below-bar candidate is dispatched to only after every healthy in-tier one has been and has failed |
| `PlanLaws.RoundRobinPlanOrder` | internal/router/proxy.go:49-62 | any other plan is tried in the only order that puts the consumer's protocol first and keeps the rotation, started at the counter, within both groups |
| `PlanLaws.RoundRobinPlanHead` | internal/router/proxy.go:49-62 | such a plan is tried first on the leading candidate of the consumer's protocol, or is the plain rotation when there is none or no preference |
| `PlanLaws.TurnAdvances` | internal/router/selector.go:31-43 | each ordering of a round-robin plan with a healthy candidate moves the turn on by one modulo 2^64, every other one leaves it |
| `PlanLaws.HealthyInOrder` | internal/router/selector.go:88-96 | the healthy candidates keep their positions' order |
| `FailoverLaws.NobodyHealthy` | internal/router/proxy.go:44-67 | a plan yields 503 if and only if none of its candidates is healthy in the snapshot Execute reads |
| `Selectors.RoundRobinSelector.Order` | internal/router/selector.go:31-43 | the healthy candidates rotated by the counter's old value, the counter advanced modulo 2^64, untouched when none is healthy |
| `Selectors.FilterHealthy` | internal/router/selector.go:88-96 | the healthy candidates in order |
| `Selectors.ParetoOrder` | internal/router/selector.go:53-82 | the candidates clearing the bar by cost, then the others by cost, with the request's own bar taking precedence |
| `Selectors.RankByCost` | internal/router/selector.go:99-103 | the slice is sorted in place, stably, by cost |
| `Selectors.PreferSameProtocol` | internal/router/proxy.go:432-446 | a stable partition by protocol |
| `SelectorLaws.Fairness` | internal/router/selector.go:31-43 | over any consecutive calls two indices differ by at most one in how often they come first, also across the counter's wrap when the list length divides 2^64 |
| `SelectorLaws.WrapIsUnfair` | internal/router/selector.go:31-43 | for every other length the wrap lets one index come first twice before another comes first at all |
| `SelectorLaws.WrapIsUnfairForThree` | internal/router/selector.go:31-43 | an input: of three candidates the first leads twice in the two calls around the wrap, the second not at all |
| `SelectorLaws.FairIffDivides` | internal/router/selector.go:31-43 | the rotation of n candidates is fair over every run of calls if and only if n divides 2^64 |
| `SelectorLaws.WrapKeepsTurn` | internal/router/selector.go:31-43 | the rotation survives the counter's wrap if and only if the list length divides 2^64 |
| `SelectorLaws.LoadShare` | internal/router/proxy.go:432-446 | over the n rotations a same-protocol candidate leads in 1 plus the length of the cyclic run of other-protocol candidates just before it |
| `SelectorLaws.LoadShareSum` | internal/router/proxy.go:432-446 | these shares add up to n when there is a same-protocol candidate |
| `SelectorLaws.LeadIsFirst` | internal/router/proxy.go:60-62 | the head of the rotated and partitioned list is the candidate those shares count |
| `ParetoLaws.ParetoIsArranged` | internal/router/selector.go:53-82 | the pareto order lists every healthy position once, sorted by tier, cost and position |
| `ParetoLaws.ParetoIsUnique` | internal/router/selector.go:53-82 | it is the only such list |
| `ParetoLaws.CostIsWeight` | internal/router/selector.go:106-109 | one backend is cheaper than another exactly when twice its median latency and a second per request in flight weigh less; an unknown backend costs nothing |
| `ParetoLaws.SecondIsTwoRequests` | internal/router/selector.go:106-109 | a second of median latency costs as much as two requests in flight |
| `StableSort.SortInPlace` | internal/router/selector.go:99-103 | the array becomes the stable sort of its old contents |
| `StableSort.SortedIsUnique` | internal/router/selector.go:99-103 | two lists of the same positions sorted by an asymmetric order are equal |
| `Fusion.RunPanel` | internal/router/fusion.go:53-98 | for every arrival order the answers are the non-empty successful texts in panel order |
| `Fusion.CallUnary` | internal/router/fusion.go:214-232 | the text of a 2xx reply read to its end, nothing on any failure; the slot is released |
| `Fusion.RunJudge` | internal/router/fusion.go:103-124 | the judge's text, empty on any failure |
| `Fusion.RunSynthesis` | internal/router/fusion.go:129-200 | 503 without a backend, 502 when the call or a unary read fails, otherwise any reply is relayed, a 2xx stream as a stream |
| `Fusion.Execute` | internal/router/fusion.go:38-49 | the whole workflow is a function in which the arrival order does not occur; every slot taken is released |
| `FusionLaws.WorkflowLaw` | internal/router/fusion.go:38-49 | one committed head under the synthesis headers or an untouched client; too few answers give 502 with nothing sent; 503 iff enough answered and the synthesis backend is unknown |
| `FusionLaws.JudgeNeverBlocks` | internal/router/fusion.go:103-124 | the gate never depends on the judge, and a failed judge leaves the run with an empty analysis |
| `FusionLaws.JudgeIsHeard` | internal/router/fusion.go:46-48 | past the gate the synthesis is asked with exactly what the judge said, or with nothing when it said nothing usable |
| `FusionLaws.PanelistIsHeard` | internal/router/fusion.go:63-81 | a panelist contributes exactly what it said, or nothing |
| `FusionLaws.SpokenIs` | internal/router/fusion.go:214-232 | what an answer says: the content of a 2xx document that arrived whole, translated first when an Anthropic backend sent it with status 200 |
| `FusionLaws.ClientGetsTheSynthesis` | internal/router/fusion.go:129-200 | a run that replies has sent exactly the synthesis backend's answer to this run's analysis: its head, its bytes whole or as one stream, and its usage, for either consumer and either backend protocol |
| `FusionLaws.SynthesisDecides` | internal/router/fusion.go:38-49 | a run replies if and only if enough panelists answered and the synthesis backend is known, can be sent to and answers, a unary reply being read to its end |
| `FusionLaws.SynthesisChain` | internal/router/fusion.go:129-200 | an Anthropic consumer whose synthesis streams from an Anthropic backend receives it through both translations as one message with the backend's texts and stop reason |
| `AliasLaws.SmallPanelFails` | internal/router/fusion.go:40-44 | a plan with fewer panelists than MinPanel ends in 502 whatever the backends answer |
| `AliasLaws.GateCanOpen` | internal/router/resolve.go:68-98 | a fusion alias resolves to a plan that some answers carry past the gate if and only if at least MinPanel of its panel entries have a healthy backend |
| `AliasLaws.RolesAreFilled` | internal/router/resolve.go:68-98 | a fusion plan carries the alias's settings; judge, synthesis and each panelist have their own entry's model and its least-loaded healthy backend, the panel in order |
| `AliasLaws.PoolIsExpanded` | internal/router/resolve.go:43-51 | a pareto plan has one candidate per entry and backend, in the pool's order, with the entry's model and quality |
| `AliasLaws.ProxyPlanIs` | internal/router/resolve.go:34-61 | what the two kinds of proxy alias resolve to |
| `AliasLaws.OneDownOfTwo` | internal/router/resolve.go:68-98 | an input: two panel entries, both required, one down, resolve to a plan no answers can help |
| `FusionLaws.AnswerAt` | internal/router/fusion.go:91-97 | a non-empty text stands behind exactly those of the panelists before it |
| `Resolve.PickIsLeast` | internal/router/resolve.go:126-142 | the chosen backend is healthy, has the least load, and is the first such; none is chosen iff none is healthy |
| `Resolve.LeastIsOne` | internal/router/resolve.go:126-142 | that describes one position only |
| `Resolve.PickHealthyBackend` | internal/router/resolve.go:126-142 | the loop makes that choice |
| `Resolve.ResolveAlias` | internal/router/resolve.go:29-62 | round-robin, expanded pareto pool, or fusion roles |
| `Resolve.ResolveFusion` | internal/router/resolve.go:68-98 | panelists without a healthy backend are dropped, a role nobody can take is 503 |
| `Resolve.AliasFails` | internal/router/resolve.go:29-98 | an alias never gives 404, and 503 iff it is a fusion alias with no panelist, judge or synthesis backend healthy |
| `Resolve.BackendsServing` | internal/model/snapshot.go:57-65 | each healthy backend advertising the model, once, in some order |
| `Resolve.ResolveDirect` | internal/router/resolve.go:105-121 | 404 iff nobody advertises the model, 503 iff only unhealthy backends do, otherwise a round-robin plan over all healthy ones |
| `Resolve.Resolve` | internal/router/resolve.go:19-24 | aliases first, then direct ids |
| `Server.Router.Route` | internal/router/router.go:72-84 | routing sends one reply of a backend the name resolves to, or leaves the client untouched and reports the status the reason calls for; every slot is released |
| `Server.HandleChat` | internal/server/server.go:187-216 | the client gets exactly one of: one answer, whole, copied or streamed, of a healthy candidate of the resolved plan or of the synthesis backend, as the record says; or, if and only if the sink never committed, the error envelope with the recorded status: 404 and 503 for names that cannot be routed, 503 when no candidate is healthy, 400 when a body cannot be built, 502 otherwise |
| `Server.ProxyRouted` | internal/router/proxy.go:43-179 | every proxy execution has sent one reply of a healthy candidate of its plan, or left the client untouched with an error that carries the recorded status |
| `Server.ProxyFails` | internal/router/proxy.go:64-178 | why a proxy execution sent nothing: 503 iff no candidate is healthy, 400 only when the body for a healthy one cannot be built, 502 only when it was cancelled or up to three healthy candidates, all there are if fewer, were asked and every answer was lost |
| `Server.FusionRouted` | internal/router/fusion.go:38-49 | every fusion run has sent the synthesis reply, or left the client untouched with its error |
| `Server.FusionFails` | internal/router/fusion.go:38-49 | why a fusion run sent nothing: 502 when too few answered or the synthesis could not be asked or answered, 503 iff enough did and its backend is unknown |
| `Monitor.Loop` | internal/backend/health.go:89-107 | after any ticks, suspicions and re-probes the snapshot is the function of the whole probe log and covers exactly the clients; no backend ever leaves it |
| `Monitor.Monitor.ProbeAll` | internal/backend/health.go:121-148 | results in any order build a snapshot with every client, equal to the function of the longer log |
| `Monitor.Monitor.ProbeOne` | internal/backend/health.go:154-177 | one state is replaced and the others carried over, an unknown name changes nothing |
| `Monitor.Monitor.Fold` | internal/backend/health.go:182-212 | health and load of the last probe, models of the last successful one, median of the last 20 successful latencies |
| `MonitorLaws.StateIs` | internal/backend/health.go:182-212 | a published state by positions in the log: health and load of the last probe, models of the last successful one, and the middle of the last twenty successful latencies |
| `Monitor.Monitor.Suspect` | internal/backend/health.go:64-69 | the name is queued unless the channel of 64 is full |
| `Monitor.Median` | internal/backend/health.go:264-271 | the upper median of a sorted copy, 0 for no samples |
| `MonitorLaws.MedianIsMiddle` | internal/backend/health.go:264-271 | it is a sample with at most half of the samples below it and more than half not above it |
| `MonitorLaws.MiddleIsMedian` | internal/backend/health.go:264-271 | no other number is |
| `MonitorLaws.PendingUnlessFull` | internal/backend/health.go:59-69 | a suspicion is pending afterwards if and only if there was room or the name was pending |
| `MonitorLaws.DroppedIsNotCovered` | internal/backend/health.go:61-63 | contrary to the comment a dropped suspicion need not be covered by a pending one: after 64 suspicions of another backend, one of this one leaves no trace |
| `MonitorLaws.TickCovers` | internal/backend/health.go:99-104 | a client suspected, dropped or not, has been probed again once a tick has passed |
| `MonitorLaws.PendingIsServed` | internal/backend/health.go:101-105 | pending suspicions are served in order: the one at position j waits for j + 1 reads of the channel |
| `InFlight.EveryScheduleConserves` | internal/backend/client.go:189-200 | under every interleaving of any number of calls the gauge is the number of calls holding a slot, never negative, and every slot is released at most once |
| `InFlight.QuiescentIsZero` | internal/backend/client.go:243-253 | the gauge is zero if and only if every call has not started, failed or been closed |
| `InFlight.CloseOnce` | internal/backend/client.go:315-330 | from any reachable state one close releases the slot and a second changes nothing |
| `Metrics.Owner.Apply` | internal/observability/metrics.go:61-108 | every counter stays the function of all operations processed |
| `Metrics.Owner.Place` | internal/observability/metrics.go:81-91 | a latency goes to the first bucket whose bound it does not exceed, or to the last |
| `Metrics.Owner.Render` | internal/observability/metrics.go:147-203 | each cumulative row counts the recorded latencies within its bound, +Inf counts all and equals the count; the other numbers are those of all operations processed |
| `Metrics.BelowIsWithin` | internal/observability/metrics.go:172-177 | the first i+1 buckets hold exactly the latencies within bound i |
| `Metrics.RowsRise` | internal/observability/metrics.go:172-179 | the rows never fall and +Inf closes them |
| `Metrics.CountIsFilter` | internal/observability/metrics.go:75-80 | a counter is the number of processed operations of its kind |
| `Metrics.HealthIsLast` | internal/observability/metrics.go:96-101 | a backend's health gauge shows what was last said of it |
| `Requests.ParseAnthropicRequest` | internal/server/anthropic.go:69-96 | the system text leads as a system message, then every message with its content translated |
| `Requests.AnthropicSystemText` | internal/server/anthropic.go:103-133 | the non-empty texts, one a line |
| `Requests.OpenAIToAnthropicRequest` | internal/backend/anthropic.go:150-172 | system messages are joined by blank lines and hoisted, the others keep their order |
| `Requests.AnthropicContent` | internal/backend/anthropic.go:181-223 | parts become blocks or nothing, no block at all becomes the empty string |
| `RequestLaws.DataURLRoundTrip` | internal/backend/anthropic.go:226-240 | a data URL gives back media type and data if and only if the media type is non-empty and has no comma |
| `RequestLaws.BlockRoundTrip` | internal/server/anthropic.go:172-210 | a block survives inbound then outbound if and only if it is non-empty text, base64 data with a non-empty comma-free media type, or a URL that is not a data URL |
| `RequestLaws.RequestRoundTrip` | internal/server/anthropic.go:69-96 | the message list survives if and only if every message is not a system one and its content is a string or a non-empty list of such blocks |
| `RequestLaws.SystemSurvives` | internal/server/anthropic.go:74-88 | without system-role messages the outbound system field is the flattened inbound one |
| `RequestLaws.FlatIsLines` | internal/server/anthropic.go:118-129 | flattened system texts read back line by line as the non-empty ones, in order |
| `RequestLaws.SystemIsParagraphs` | internal/backend/anthropic.go:154-171 | the outbound system field holds the texts of all system messages in order, blank lines between them |
| `RequestLaws.TextIsLines` | internal/model/content.go:62-80 | the plain text of content is a string as it is, and of a list the non-empty texts, one a line |
| `RequestLaws.CanonicalForms` | internal/server/anthropic.go:172-210 | the canonical part of each kind of block, and the parts the way out drops |

## Left out

- JSON encoding and decoding, which stand behind `Codec`; a chunk's `created` time is part of the encoding.
- HTTP transport, dialing, TLS, flushing, idle timers, deadlines and informational replies; a read may
  fail and the context may be cancelled.
- Reads that return data together with an error: the model returns the data first and the error at the
  next read.
- The scanner's give-up after many empty reads: no modelled body returns an empty read before its end.
- Upstream statuses outside 100 to 999, which the server library refuses to write, and panics.
- Response headers other than Content-Type, the stream headers and the two X-Router headers.
- Tool blocks, cache control and provider extras, which translation documents as dropped.
- The fields of a request other than its system text and messages, and the map update that rewrites the
  model name and strips the plugins field: copied one by one.
- Content that is a JSON object or scalar is one constructor, `Neither`, on the inbound side.
- The translation of a complete unary reply: two functions of the codec. A reply translated twice gets the
  id prefix twice.
- The wording of error documents and of the judge and synthesis prompts.
- Audio proxying, authentication, configuration loading and validation, logging, and the models, health and
  readiness endpoints.
- Metrics dropped on a full channel.
- Metrics.Owner.Render: gives the numbers of a scrape, not its text format or the order of its lines.
- Requests.ParseAnthropicRequest: covers the messages and the system text; a body that is not JSON, the
  plugins and the fields copied under their own or another name are not part of it.
- A body on a 204 or 304 reply: the model writes it, where the server library refuses and the client gets none.
- The health callback of the monitor.
- Floating-point rounding of costs, qualities and latencies, which are reals here.
- The sort of the Go library: a stable insertion sort in place with the same result stands for it.
- Proxy.HandleUnaryResponse: stands for the translated and the native handler, which differ in the two
  calls that the `native` flag selects; so does Proxy.HandleStreamResponse.
- InFlight.EveryScheduleConserves: takes the gauge's additions as atomic steps and a second, concurrent
  close as a step without effect; the blocking inside the one-shot clean-up is not modelled.
- Fusion.RunPanel: performs the panel calls one by one in their order of arrival; their overlap shows only
  in the in-flight gauge, which `InFlight` models.
