# InferFabric: a verified model of its state machines and codecs

InferFabric is a local inference gateway: it keeps one GPU between exclusive and shared models,
forwards streaming responses, limits request rates, logs requests, applies tuning scenarios with
rollback, curates cloud models, and draws its own dashboard. This project models the parts of it
that are hard to get right and proves what they promise, for every input, every cut of a stream and
every interleaving.

Each file follows one component of the source. Objects that the source updates in place are classes
whose methods state their new state outright, and the laws are lemmas about the functions those
methods are tied to. Two components that are protocols between threads (the request log and the
concurrency gate) are state machines over their atomic steps.

| File | Component | Main results |
|---|---|---|
| `ChunkedFraming.dfy` | chunked printer and incremental parser (section 7.1 of RFC 9112) | parsing inverts printing for every cut; whatever is not unframed comes through byte for byte |
| `Forwarder.dfy` | forwarding of streamed responses | no payload is torn; a client that stays gets all of them and the end exactly if the observer does not raise |
| `GpuModes.dfy`, `GpuManager.dfy` | tri-state GPU machine | in every run an exclusive model is the only GPU process; swap with rollback; what every operation starts, stops and refuses, and why |
| `SseBuffer.dfy` | event-stream observer (section 9.2 of the WHATWG HTML standard) | up to an exception what is learned does not depend on the cuts; exactly when what is recorded after one does |
| `StreamProtocols.dfy` | the two protocols of those streams | the first generated text and the counts are found in both, for every cut |
| `RequestLog.dfy` | request-log buffer and flusher | conservation and no lost wakeup under every interleaving; what a flush and a shutdown store |
| `RateLimit.dfy` | token buckets, two-level limiter | grants in any window are bounded by the requests per minute although tokens are refunded; calls that keep to them are granted |
| `DualGate.dfy` | concurrency gate | permits are conserved; exactly when the global ones are not; exactly who is refused |
| `Tune.dfy` | scenario tuning | the applied entry is the old or the new one in every outcome; exactly when memory comes back |
| `CloudRegistry.dfy` | cloud model registry | only listed models route; a provider's part is exact |
| `DeepMerge.dfy` | chart option merge | idempotent; associative exactly where trees agree; exactly when every rebuild replays the patches |
| `Watchdog.dfy` | health watchdog | restarts are capped, spaced and earned by failures; a model that keeps failing gets them |
| `PowerStats.dfy` | wall-clock buckets and energy | the sweep is the bucket index; samples are partitioned; energy is bounded |
| `AgentRegistry.dfy` | client agent rules | ids are unique; who gets a request after a claim |
| `MetricsText.dfy` | metrics exporter and parser | parsing the page gives back the totals of the rows; a printed histogram is read back |
| `Quantiles.dfy` | sample and histogram percentiles | growing in q, bounded, the median at one half |

`Wrappers.dfy` and `Json.dfy` hold the shared value types. `dafny verify dfyconfig.toml` checks the project.

What the environment does (processes, probes, restarts, upstream answers, clocks, files, JSON
decoding, regular expressions) is a parameter or a nondeterministic choice under the contracts stated
in the files.

## Findings

- `state.py` describes exclusive to exclusive as a valid transition in the docstring of
  `validate_transition`; the table and the code say it is not, and `switch` handles it as a special
  case. The model follows the code.
- A health scan is not enough to guard a deploy on an idle GPU: `HealthScanDoesNotSuffice`. The port
  scan is what makes the invariant inductive.
- An exclusive service is stopped by going idle, and that stops only what the health scan finds. One that runs
  but was missed is reported as stopped without being asked to stop: `StopService`, `OnlyFoundIsStopped`.
- A shutdown stores everything if its write succeeds; the final flush is tried once, and what it fails to
  store is lost: `ShutdownLosesNothing`, `FailedFinalWriteLoses`.
- In observe mode a model timeout returns the global permit and yet hands out a handle that still holds
  it, so every such timeout adds one permit: `GlobalConservationIff`, `ObserveModeTimeoutLeaks`.
- A rolled-back scenario leaves values in memory when the previous overrides do not cover its fields:
  `MemoryIsRestoredIff`, `RollbackCanLeaveResidue`.
- When the restart of a scenario fails and the rollback to the default cannot read the YAML values, the
  file is back at the default while memory and preset keep the scenario, although a comment in `apply`
  says that both were restored. The values then agree with the file exactly if the scenario set nothing but
  YAML values; the preset in memory names the scenario in any case: `Tuner.Apply`, `UnreadableYamlAgreesIff`,
  `RollbackWithoutYaml`.
- The network-blip protection of a discovery round covers a provider that gives no answer exactly if it
  had nothing but its specs, or if the whole round collected nothing. Otherwise its discovered models leave
  the registry, although they are still remembered as candidates: `SilentProviderKeepsPartIff`,
  `SilentProviderLosesPart`, `CandidatesSurviveBlips`.
- A provider in front of a model name is ignored while any provider holds the short name, so the request can go
  to another one: `PrefixedRoutesIff`, `ProviderInFrontIsIgnored`.
- A data line that decodes to something else than an object makes the observer raise out of `feed` or
  `flush`: the calls go through and learn everything exactly if there is no such line: `LearnsAllIff`.
- `pipe_stream_response` does not catch that exception. So a client that stays gets all chunks and the
  terminator exactly if no `feed` raises; otherwise it gets the chunks up to that one, and its response
  never ends: `StayingClientGetsAllIff`, `PipeStreamResponse`, `ObserverEndsResponse`.
- The callers flush the observer after that exception too. What it then holds is what it had learned up to
  the exception exactly if the rest of its buffer teaches nothing, and that depends on how the stream was
  cut: `RecordedIff`, `RecordDependsOnCut`.
- Deep merge is not associative where a patch takes an object away and a later one brings it back:
  `MergeAssociatesIff`, `MergeDoesNotAlwaysAssociate`.
- A claimed alias can be lost: it reaches a so far unknown request that matches exactly if no file that is
  read after the written one defines the owner anew: `AliasGoesToOwner`, `AliasCanBeLost`. The owner is the
  agent named inside the parent's file, which need not be the parent: `AliasCanGoElsewhere`.
- Claiming a fresh id overwrites a file of that name even when it defines another agent. Who gets a request
  afterwards is then exact: the new agent if its rule matches and no agent of the files before would have got
  it, else whoever gets it without the overwritten file. So the others lose nothing but what the new agent
  gets exactly if that file did not matter: `ClaimGoesToNewAgent`, `ClaimCanDropAnotherAgent`.
- An error text with a line break is printed into a label as it is. The parser then loses the count of that
  line and may read a gauge that does not exist: `TwoLineErrorIsLost`.

## Model

| member | source | states |
|---|---|---|
| ChunkedFraming.HexRoundTrip | inferfabric/forwarder.py:132-146 | every size printed in hexadecimal is parsed back to itself |
| ChunkedFraming.HeadIsStable | inferfabric/proxy/async_server.py:128-157 | bytes that arrive later never change a recognised frame head |
| ChunkedFraming.DrainSettles | inferfabric/proxy/async_server.py:128-157 | what a pass over the buffer keeps yields nothing when drained again |
| ChunkedFraming.DrainSplits | inferfabric/proxy/async_server.py:128-157 | cutting any byte stream anywhere changes neither the items nor their order, until a terminator or malformed size |
| ChunkedFraming.FrameIsRead | inferfabric/forwarder.py:132-146 | a printed frame is read back whole, whatever follows it |
| ChunkedFraming.CutFrameWaits | inferfabric/proxy/async_server.py:128-157 | every proper prefix of a frame is kept, nothing is emitted |
| ChunkedFraming.DrainPrefix | inferfabric/proxy/async_server.py:128-157 | every prefix of a framed stream yields the first payloads and keeps the cut frame, or all of them and the sentinel |
| ChunkedFraming.TrailerIsSilent | inferfabric/proxy/async_server.py:101-157 | after the sentinel the rest of the last line end is swallowed, however it is cut |
| ChunkedFraming.WriteAdvances | inferfabric/proxy/async_server.py:101-115 | one write emits exactly the frames it completes |
| ChunkedFraming.DeliversPrefix | inferfabric/proxy/async_server.py:101-157 | for every cut, what was emitted is a prefix of the payloads in order, the sentinel only after all of them and certainly at the end |
| ChunkedFraming.UnframingInvertsFraming | inferfabric/proxy/async_server.py:101-157 | the inverse law: for every list of non-empty payloads and every cut of their stream, exactly the payloads and one sentinel come out |
| ChunkedFraming.PassthroughKeepsBytes | inferfabric/proxy/async_server.py:101-115 | with unframing off every byte of every write comes out unchanged and in order, and it stays off |
| ChunkedFraming.WritesAreOnePass | inferfabric/proxy/async_server.py:101-157 | any bytes up to a terminator, however cut: the bytes and the mode are those of one pass over the whole, and so are the items as long as no size line is malformed |
| ChunkedFraming.MalformedComesThrough | inferfabric/proxy/async_server.py:136-146 | behind a malformed size line: the payloads before it and then that line and every later byte unchanged, for every cut |
| ChunkedFraming.ExtensionIsIgnored | inferfabric/proxy/async_server.py:138-140 | a chunk extension behind the size is skipped |
| ChunkedFraming.UpperCaseParses | inferfabric/proxy/async_server.py:138-140 | the case of a size does not matter |
| ChunkedFraming.FullReadSize | inferfabric/forwarder.py:124-133 | a full read of 8192 bytes is announced as 2000 |
| ChunkedFraming.DrainFrames | inferfabric/proxy/async_server.py:128-157 | the parsing loop computes the drain function, malformed sizes and terminator included |
| ChunkedFraming.WfileSink.Write | inferfabric/proxy/async_server.py:101-115 | a write refuses a gone client without change, else passes data through or drains buffer and data together |
| ChunkedFraming.WfileSink.SetUnframe | inferfabric/proxy/async_server.py:120-123 | only switches the mode |
| StreamForwarding.Chunks | inferfabric/forwarder.py:123-126 | the reads before the first empty one |
| StreamForwarding.Send | inferfabric/forwarder.py:133-142 | a write moves the stream on by its bytes, or finds the client gone and changes nothing |
| StreamForwarding.SendFrame | inferfabric/forwarder.py:132-142 | the three writes of a frame deliver its payload, or nothing when the client is found gone at one of them |
| StreamForwarding.ForwardChunks | inferfabric/forwarder.py:123-142 | the loop shows every chunk it has served to the observer and ends at the first that raises, at a client that is gone, or at the end |
| StreamForwarding.PipeStreamResponse | inferfabric/forwarder.py:94-152 | for every reads, departure and observer: exactly the chunks served whole, up to the first whose feed raises; the terminator exactly if neither has happened; the observer is flushed in any case, and the call raises exactly if feed or flush does |
| StreamForwarding.FirstRaiseIs | inferfabric/forwarder.py:138-140 | the chunk at which the run raises: none before it does, and nothing is fed after it |
| StreamForwarding.NothingIsTorn | inferfabric/forwarder.py:123-152 | the client always has the first chunks in order, none torn, and the terminator only after all of them |
| StreamForwarding.StayingClientGetsAllIff | inferfabric/forwarder.py:123-152 | a client that stays gets all chunks and the terminator exactly if no feed raises, in particular if every data line is an object or no JSON |
| StreamForwarding.ObserverEndsResponse | inferfabric/forwarder.py:138-152 | a run in which the client stays, gets the chunk, and never the terminator |
| GpuModes.ModeDescribesRecord | inferfabric/state.py:167-192 | the derived mode tells no, exactly one exclusive, or only shared recorded GPU services, and what may run beside them |
| GpuModes.SafeToStartIsExact | inferfabric/manager.py:355-380 | the start condition holds if and only if no outcome of the start can break safety |
| GpuModes.PortScanSuffices | inferfabric/manager.py:355-380 | a port scan that finds none but the target makes the deploy from idle safe |
| GpuModes.HealthScanDoesNotSuffice | inferfabric/gpu_state.py:62-69 | a health scan alone lets a second exclusive model in exactly when it has missed the running one |
| GpuManagers.GpuManager.GpuMode | inferfabric/state.py:167-192 | the two scans over the record compute the mode |
| GpuManagers.GpuManager.ScanActualServices | inferfabric/gpu_state.py:62-69 | probes every known model in order and returns those that answered; only running models, perhaps not all |
| GpuManagers.GpuManager.ScanPortOwners | inferfabric/gpu_state.py:71-90 | asks GPU models only and returns those whose port is owned; finds every running GPU model |
| GpuManagers.GpuManager.ReconcileState | inferfabric/gpu_state.py:244-298 | the record becomes what the scan found healthy, in its order if it names the same services; keeps the invariant |
| GpuManagers.GpuManager.CleanupDeadServices | inferfabric/gpu_state.py:302-327 | probes every recorded known service and removes exactly the unknown ones and those that did not answer |
| GpuManagers.GpuManager.DeployModel | inferfabric/model_lifecycle.py:69-177 | a safe deploy keeps every moment safe; it asks the budget, starts, and stops what failed to start; success records the model and the kept CPU-only services, failure leaves no GPU service |
| GpuManagers.GpuManager.SharedAddService | inferfabric/model_lifecycle.py:181-250 | asks the budget and starts; adds the service to the record only on success and keeps the invariant |
| GpuManagers.GpuManager.StopAllActive | inferfabric/model_lifecycle.py:264-277 | stops exactly the named known services in order, CPU-only ones only when asked to, up to the first stop that raises; after it returns none of them runs |
| GpuManagers.GpuManager.HandOver | inferfabric/model_lifecycle.py:281-310 | stops exactly the recorded GPU services in order and keeps the CPU-only ones recorded in order |
| GpuManagers.GpuManager.RollBack | inferfabric/model_lifecycle.py:311-347 | tries the previous GPU services until one starts, which is recorded then; gives up only after each of them has |
| GpuManagers.GpuManager.SwitchExclusive | inferfabric/model_lifecycle.py:281-347 | stops the old service, then starts the new one, or after that was given up the old one; the record ends with the new model, the old one, or none, and `switched` names the one started last; success keeps the CPU-only services |
| GpuManagers.GpuManager.SwitchIndependent | inferfabric/model_lifecycle.py:349-387 | starts a CPU-only model, which never changes the mode, and records it on success |
| GpuManagers.GpuManager.SwitchToIdle | inferfabric/model_lifecycle.py:389-466 | scans, takes the lock, stops exactly the GPU services of the record the scan left, waits for the GPU; success reports those services, none of which runs, and leaves the CPU-only ones recorded |
| GpuManagers.GpuManager.StopService | inferfabric/model_lifecycle.py:470-544 | a service that is reported stopped was stopped, it alone, and does not run; an exclusive one is stopped by going idle, if the scan finds it; refuses unknown ones without change |
| GpuManagers.GpuManager.StopIndependent | inferfabric/model_lifecycle.py:548-575 | stops and removes exactly that CPU-only service, which does not run afterwards |
| GpuManagers.GpuManager.ResetByForce | inferfabric/gpu_state.py:331-373 | stops every recorded known service in order, so none of them runs, and empties the record; or, when a stop raises, keeps it |
| GpuManagers.GpuManager.DeployFromIdle | inferfabric/manager.py:355-380 | the occupancy guard makes every deploy on an idle GPU safe; it refuses exactly when a scan found another GPU model, or the lock or the budget says no |
| GpuManagers.GpuManager.SwitchModel | inferfabric/manager.py:267-447 | dispatch by role and mode keeps the invariant; forbidden transitions change nothing, every refusal has a reason, every success is a start that worked, and a drifted service is taken down first |
| GpuManagers.OccupiedIff | inferfabric/manager.py:355-380 | the guard refuses exactly when a health or port scan found another GPU model's process |
| GpuManagers.OnlyFoundIsStopped | inferfabric/model_lifecycle.py:389-446 | going idle stops exactly the GPU services of the record that the scan left |
| GpuManagers.GpuManager.Run | inferfabric/manager.py:267-447 | for every sequence of commands, deaths and missed probes: at no moment does a second GPU process run beside an exclusive model |
| TokenUsage.ProtocolsAgree | inferfabric/proxy/usage.py:19-45 | both protocols' reports of one request are normalised to the same whole prompt, cached part and output |
| SseBuffers.LinesAndJoin | inferfabric/proxy/sse_buffer.py:79-90 | splitting a text into lines loses nothing |
| SseBuffers.NormalizingIsInvisible | inferfabric/proxy/sse_buffer.py:61-71 | replacing CRLF inside a chunk does not change what is learned, also when a chunk ends in its middle |
| SseBuffers.EventEnds | inferfabric/proxy/sse_buffer.py:61-71 | the blank line that ends an event adds nothing |
| SseBuffers.FeedFollowsStream | inferfabric/proxy/sse_buffer.py:61-71 | after any chunks the observer stands where a byte-by-byte scan of the whole stream stands |
| SseBuffers.FlushCloses | inferfabric/proxy/sse_buffer.py:73-77 | flushing reads the open line and nothing else, also when it raises |
| SseBuffers.CutsDoNotMatter | inferfabric/proxy/sse_buffer.py:61-139 | up to the end of the stream or the first exception: usage, first-token flag, callbacks and exception equal one fold over the stripped non-blank lines of the whole stream |
| SseBuffers.LearnsAllIff | inferfabric/proxy/sse_buffer.py:103-112 | the calls go through and learn the fold over all object lines exactly if no data line decodes to anything else |
| SseBuffers.RecordedIff | inferfabric/proxy/chat_handlers.py:505-510 | what the observer holds after the flush that follows in any case: the fold over the stream if no feed raised; else the fold up to the exception exactly if the rest of the buffer teaches nothing |
| SseBuffers.RecordedWhole | inferfabric/proxy/chat_handlers.py:488-510 | a stream without such lines is recorded as a whole for every cut |
| SseBuffers.RecordDependsOnCut | inferfabric/proxy/chat_handlers.py:505-510 | two events that record n tokens when they come in one chunk and none when they come in two |
| SseBuffers.BadChunkRaises | inferfabric/proxy/sse_buffer.py:103-112 | a chunk that starts with an event of no object raises and leaves the rest of the chunk in the buffer |
| StreamProtocols.ContentIff | inferfabric/proxy/sse_buffer.py:137-166 | over the fields of every event of both protocols: a content token is exactly a generated text that is not empty, never a role, a count or a frame |
| StreamProtocols.ReportIs | inferfabric/proxy/sse_buffer.py:103-131 | the counts of an event, nested or not, are whole prompt, cached part and output |
| StreamProtocols.StreamIsRead | inferfabric/proxy/sse_buffer.py:79-166 | a stream of such events: the callback runs once, on the first generated text, and never without one; the counts are those reported |
| StreamProtocols.CutStreamIsRead | inferfabric/proxy/sse_buffer.py:61-166 | the same for every cut into chunks, the flush included |
| StreamProtocols.BothAreMeasured | inferfabric/proxy/sse_buffer.py:103-131 | a stream of either protocol about one request ends with the same counts |
| StreamProtocols.LinesSay | inferfabric/proxy/sse_buffer.py:87-102 | data lines are decoded; the end mark, comments and other fields say nothing |
| SseBuffers.ParseGrows | inferfabric/proxy/sse_buffer.py:79-139 | usage fields never decrease and the callback never runs again |
| SseBuffers.FiresOnFirstContent | inferfabric/proxy/sse_buffer.py:79-166 | for any stream of lines: the callback runs on the first line with a content token and on no other |
| SseBuffers.UsageIsMaximum | inferfabric/proxy/sse_buffer.py:109-131 | each count ends at the largest value any event reported |
| SseBuffers.SseLineBuffer.ParseEvent | inferfabric/proxy/sse_buffer.py:79-139 | the loop over an event's lines is the fold over them, left with the exception |
| SseBuffers.SseLineBuffer.ParseLine | inferfabric/proxy/sse_buffer.py:87-139 | one line is one step of the fold: skipped, merged, or raising |
| SseBuffers.SseLineBuffer.Feed | inferfabric/proxy/sse_buffer.py:61-71 | one chunk is one step of the observer; an event that raises is taken off the buffer |
| SseBuffers.SseLineBuffer.Flush | inferfabric/proxy/sse_buffer.py:73-77 | the rest is read once and the buffer is empty, unless reading raises |
| RequestLogs.StepConserves | inferfabric/proxy/request_logger.py:198-221 | every step keeps stored, in flight and buffered together exactly the appended entries in order, without the dropped ones |
| RequestLogs.StepKeepsInv | inferfabric/proxy/request_logger.py:187-196 | every step keeps conservation and the wakeup invariant |
| RequestLogs.EveryRunIsSound | inferfabric/proxy/request_logger.py:128-221 | both hold in every reachable state of every interleaving |
| RequestLogs.DropFront | inferfabric/proxy/request_logger.py:205-218 | an overflow removes exactly the front of the failed batch |
| RequestLogs.FrontIsOldest | inferfabric/proxy/request_logger.py:205-218 | what is dropped is older than all that stays |
| RequestLogs.FailedFlush | inferfabric/proxy/request_logger.py:198-221 | a failed flush drops only the oldest entries, only on overflow, and leaves at most the limit or what was logged meanwhile |
| RequestLogs.FullBufferWakesFlusher | inferfabric/proxy/request_logger.py:128-196 | a flusher that waits or is about to finds the event set when the buffer is full, also after a stop |
| RequestLogs.StoredOnlyGrows | inferfabric/proxy/request_logger.py:198-221 | entries reach the database in order and stay there |
| RequestLogs.FlushStores | inferfabric/proxy/request_logger.py:198-210 | after a successful write every entry logged before its buffer was swapped out is stored or dropped, whatever is logged meanwhile |
| RequestLogs.NothingToFlush | inferfabric/proxy/request_logger.py:198-203 | an empty buffer is not written, and all entries are stored or dropped already |
| RequestLogs.ShutdownStoresAll | inferfabric/proxy/request_logger.py:156-196 | told to stop, the flusher ends within nine steps, and with successful writes everything is stored |
| RequestLogs.ShutdownLosesNothing | inferfabric/proxy/request_logger.py:156-210 | so from every state a run reaches before the final swap |
| RequestLogs.FailedFinalWriteLoses | inferfabric/proxy/request_logger.py:205-218 | a run whose only write fails and whose entry is lost |
| TokenBuckets.TryKeepsWellFilled | inferfabric/ratelimit.py:78-111 | tokens stay between zero and the burst through tries and refunds |
| TokenBuckets.TokenBucket.TryAcquire | inferfabric/ratelimit.py:78-86 | refills, then takes one token if there is one |
| TokenBuckets.TokenBucket.Release | inferfabric/ratelimit.py:88-92 | gives one token back, clamped at the burst |
| RateLimiters.RunIsSound | inferfabric/ratelimit.py:140-161 | token bounds hold after any sequence of calls |
| RateLimiters.WindowBound | inferfabric/ratelimit.py:63-111 | tokens left plus tokens spent never exceed burst plus refill, refunds included |
| RateLimiters.ServerRateBound | inferfabric/ratelimit.py:140-161 | over any window the server grants at most its burst plus rate times window |
| RateLimiters.ModelRateBound | inferfabric/ratelimit.py:140-179 | the same for every model's bucket, also one created in the window |
| RateLimiters.ServerKeepsRpm | inferfabric/ratelimit.py:49-55 | in requests per minute, in every window of every run: at most the capacity plus rpm / 60 a second |
| RateLimiters.ModelKeepsRpm | inferfabric/ratelimit.py:170-179 | the same for every model |
| RateLimiters.MinuteKeepsRpm | inferfabric/ratelimit.py:113-130 | within a minute at most twice the limit |
| RateLimiters.WaitedBucketGrants | inferfabric/ratelimit.py:78-111 | a bucket grants that was not asked for 60 / rpm seconds, and one without a limit always |
| RateLimiters.SpacedCallsAreGranted | inferfabric/ratelimit.py:140-161 | calls that keep to both limits are all granted |
| RateLimiters.RefundIsExact | inferfabric/ratelimit.py:149-161 | a call the model's bucket refuses costs the server nothing |
| RateLimiters.RateLimiter.TryAcquire | inferfabric/ratelimit.py:149-156 | server first, refund on a refusal by the model, verdict and state exactly so |
| RateLimiters.RateLimiter.GetModelBucket | inferfabric/ratelimit.py:170-179 | a model's bucket is created full on first use and then reused |
| DualGates.StepConserves | inferfabric/ratelimit.py:243-305 | every semaphore step keeps free permits plus holders at the configured maximum |
| DualGates.EveryRunConserves | inferfabric/ratelimit.py:243-305 | so does every interleaving of requests |
| DualGates.LimitsHold | inferfabric/ratelimit.py:243-305 | a model's permits are never exceeded; in reject mode neither are requests in flight, per model and in all |
| DualGates.LeaksAreTimeouts | inferfabric/ratelimit.py:279-285 | the surplus of global permits is the number of model timeouts in observe mode under a global limit |
| DualGates.GlobalConservationIff | inferfabric/ratelimit.py:279-305 | the global semaphore conserves its permits exactly as long as there is no such timeout |
| DualGates.ObserveModeTimeoutLeaks | inferfabric/ratelimit.py:279-285 | a run of two requests that ends with three of two permits free |
| DualGates.RefusedIff | inferfabric/ratelimit.py:243-290 | in every run: reject mode refuses exactly the requests over the rate or out of time, observe mode nobody |
| ScenarioCaps.ClampMeetsCaps | inferfabric/tune.py:82-100 | clamped values meet the engine's limits, values that did are untouched, clamping twice changes nothing |
| ScenarioCaps.Clamp | inferfabric/tune.py:82-100 | the loop clamps every field by its own cap |
| ScenarioCaps.CapsInNumbers | inferfabric/engine_adapter/ninfer.py:110-122 | the limits of every field in numbers; prefill chunks are rounded down to a multiple of 128 |
| ScenarioCaps.BlockedIff | inferfabric/engine_adapter/ninfer.py:135-144 | refused is exactly a scenario whose context window is larger than the pool it leaves |
| Tuning.SmokeIff | inferfabric/tune.py:409-410 | tested is exactly a scenario, not the default, that drafts two tokens or more |
| Tuning.OverlayShows | inferfabric/config.py:942-962 | overrides count for the fields that the YAML has, and no other field appears |
| Tuning.WriteAndUndo | inferfabric/tune.py:150-163 | writing an entry shows it and no other change; writing back the previous one undoes it |
| Tuning.MemoryIsRestoredIff | inferfabric/tune.py:269-286 | a rollback restores memory exactly if every changed field that the previous overrides do not set had its YAML value |
| Tuning.CoveringOverridesRestore | inferfabric/tune.py:269-286 | it does whenever the previous overrides cover the new fields |
| Tuning.RollbackCanLeaveResidue | inferfabric/tune.py:269-286 | a case where a value stays behind |
| Tuning.UnreadableYamlAgreesIff | inferfabric/tune.py:269-286 | after a rollback that cannot read the YAML, memory and file agree exactly if the scenario set YAML values only |
| Tuning.RollbackWithoutYaml | inferfabric/tune.py:419-430 | a run where they do not |
| Tuning.MemoryMatchesDiskIff | inferfabric/config.py:942-962 | after applying, memory is what a fresh load gives exactly if the replaced overrides set nothing else |
| Tuning.Tuner.SaveEntry | inferfabric/tune.py:150-163 | replaces the file atomically or leaves it |
| Tuning.Tuner.SetMemory | inferfabric/tune.py:372-380 | the loop sets exactly these fields and the active preset |
| Tuning.Tuner.RestorePrevious | inferfabric/tune.py:269-286 | restores file entry, values and preset of the previous state, or raises before memory changes |
| Tuning.Tuner.Apply | inferfabric/tune.py:333-437 | in every outcome the entry is exactly the new or the previous one as the outcome says, other models are untouched, and memory and preset are the new, the restored or the old ones as stated, exceptions included |
| CloudNames.PrefixedIsInjective | inferfabric/cloud_discovery.py:322-327 | provider and slash-free id can be read back from a prefixed key |
| CloudRegistries.CandidatesSurviveBlips | inferfabric/cloud_discovery.py:310-314 | an answer without models keeps the remembered candidates, any other replaces them |
| CloudRegistries.RoundIsSound | inferfabric/cloud_discovery.py:298-340 | after a round every key is its model's id or provider/id, and the id is whitelisted or a spec |
| CloudRegistries.RebuiltIsSound | inferfabric/cloud_discovery.py:427-443 | a rebuild after a changed whitelist or spec keeps that |
| CloudRegistries.RebuiltIsExact | inferfabric/cloud_discovery.py:427-443 | right after a curation call a provider's part is exactly its whitelisted candidates and, if enabled, its specs, each under both keys |
| CloudRegistries.RoundIsExact | inferfabric/cloud_discovery.py:298-340 | after a round the part is the whitelisted part of this round's answer and the specs |
| CloudRegistries.SilentProviderKeepsPartIff | inferfabric/cloud_discovery.py:331-337 | a provider without an answer keeps its part exactly if that was its specs or the round collected nothing |
| CloudRegistries.SilentProviderLosesPart | inferfabric/cloud_discovery.py:306-337 | two providers, one silent: its routed model is routed no more |
| CloudRegistries.OnlyAllowedRoutes | inferfabric/cloud_discovery.py:450-459 | nothing routes to a provider that does not list the model |
| CloudRegistries.RouteServesShortName | inferfabric/cloud_discovery.py:450-459 | with slash-free ids the last part of a routed name is listed by the provider it routes to |
| CloudRegistries.PartRoutes | inferfabric/cloud_discovery.py:450-459 | a slash-free name routes to the provider exactly if it is in its part |
| CloudRegistries.LocalComesFirst | inferfabric/cloud_discovery.py:450-454 | a local model is never asked for in the cloud, by either of its names |
| CloudRegistries.PrefixedRoutesIff | inferfabric/cloud_discovery.py:452-458 | a name with a provider in front routes to it exactly if it holds the short key, or nobody does and it holds the prefixed one |
| CloudRegistries.ProviderInFrontIsIgnored | inferfabric/cloud_discovery.py:452-458 | two providers of one model where the name of the second leads to the first |
| CloudRegistries.AnswerIff | inferfabric/cloud_discovery.py:306-311 | only an enabled provider with discovery is asked |
| CloudRegistries.RoutableIsPart | inferfabric/cloud_discovery.py:445-448 | the slash-free keys that are counted are exactly the part |
| CloudRegistries.CloudDiscovery.RegisterSpecOnly | inferfabric/cloud_discovery.py:628-650 | the loops register the missing specs of all enabled providers |
| CloudRegistries.CloudDiscovery.Rebuild | inferfabric/cloud_discovery.py:427-443 | drops and rebuilds one provider's entries |
| CloudRegistries.CloudDiscovery.Curate | inferfabric/cloud_discovery.py:427-448 | a changed provider is rebuilt, counted, and exact when separate from the others |
| CloudRegistries.CloudDiscovery.EnableModel | inferfabric/cloud_discovery.py:372-381 | ticking adds the id to the whitelist once and rebuilds; an unknown provider changes nothing |
| CloudRegistries.CloudDiscovery.DisableModel | inferfabric/cloud_discovery.py:383-392 | unticking removes the first occurrence and rebuilds |
| CloudRegistries.CloudDiscovery.AddManualModel | inferfabric/cloud_discovery.py:394-402 | adds a spec once and rebuilds |
| CloudRegistries.CloudDiscovery.RemoveManualModel | inferfabric/cloud_discovery.py:404-413 | removes a spec and rebuilds; a missing key changes nothing |
| CloudRegistries.CloudDiscovery.DropProvider | inferfabric/cloud_discovery.py:415-425 | removes the configuration, the candidates and every entry of the provider |
| CloudRegistries.CloudDiscovery.DiscoverAll | inferfabric/cloud_discovery.py:298-340 | replaces the registry by what the round yields, or keeps it when that is nothing; when a silent provider keeps its part |
| CloudRegistries.CloudDiscovery.ResolveRoute | inferfabric/cloud_discovery.py:450-459 | local first, then short name, then full name, and only to a provider that lists the model |
| CloudRegistries.CloudDiscovery.Run | inferfabric/cloud_discovery.py:298-425 | after any sequence of rounds and curation calls every entry is allowed |
| DeepMerging.CoversIff | inferfabric/dashboard/js/charts.js:136-171 | merging leaves nothing of the base exactly when the patch covers it |
| DeepMerging.MergeIsIdempotent | inferfabric/dashboard/js/charts.js:152-171 | merging the same patch twice is merging it once, for all trees |
| DeepMerging.MergeAssociatesIff | inferfabric/dashboard/js/charts.js:152-171 | merging associates exactly on the trees that agree at every path where the first and third meet |
| DeepMerging.MergeDoesNotAlwaysAssociate | inferfabric/dashboard/js/charts.js:152-171 | three trees where it does not |
| DeepMerging.SameKindAgrees | inferfabric/dashboard/js/charts.js:152-171 | trees of the same kind at common paths agree |
| DeepMerging.SameKindAsMerge | inferfabric/dashboard/js/charts.js:136-171 | a merge is of the same kind as what it was merged from |
| DeepMerging.RebuildIsReplay | inferfabric/dashboard/js/charts.js:281-305 | merging the accumulated option into a new base is replaying every patch on it if they agree (for one list, a sufficient condition) |
| DeepMerging.RebuildStep | inferfabric/dashboard/js/charts.js:249-305 | where a rebuild has been a replay so far, it still is after one more patch exactly if that one agrees |
| DeepMerging.RebuildIsReplayIff | inferfabric/dashboard/js/charts.js:281-305 | a rebuild after any number of the patches is a replay exactly if they agree |
| DeepMerging.RebuildIsReplayForSameKind | inferfabric/dashboard/js/charts.js:281-305 | in particular for patches that never change the kind of a value |
| DeepMerging.Chart.Update | inferfabric/dashboard/js/charts.js:249-266 | accumulates an object or array and draws base and accumulated option, which is the replay of all patches where they agree |
| DeepMerging.Chart.Rebuild | inferfabric/dashboard/js/charts.js:281-305 | a theme change draws the replay of all patches on the new base |
| WatchdogLogs.RestartsAreCapped | inferfabric/watchdog.py:131-140 | between two healthy observations at most the configured number of restarts is launched |
| WatchdogLogs.RestartsAreSpaced | inferfabric/watchdog.py:121-148 | a restart after the k-th comes at least min(300, step * 2^k) seconds later |
| WatchdogLogs.RestartsNeedFailures | inferfabric/watchdog.py:113-120 | every restart follows a run of bad checks of at least the threshold, without a healthy check or successful restart in it |
| WatchdogLogs.BackoffDoubles | inferfabric/watchdog.py:141-142 | the pause doubles with every restart, up to five minutes |
| WatchdogLogs.FailingIsRestarted | inferfabric/watchdog.py:113-148 | a model that keeps failing is restarted at every check from the threshold on until the cap |
| WatchdogLogs.FailingAlarms | inferfabric/watchdog.py:113-154 | and the alarm comes exactly between the two thresholds and after the cap |
| WatchdogLogs.WithoutRestarts | inferfabric/watchdog.py:113-154 | without automatic restarts there are none, and the alarm comes from the first threshold on |
| Watchdogs.ModelWatchdog.Check | inferfabric/watchdog.py:92-103 | skips a model whose restart began less than two minutes ago, else clears a stuck one |
| Watchdogs.ModelWatchdog.Judge | inferfabric/watchdog.py:107-154 | books a check; launches a restart exactly when allowed, raises the alarm exactly when not |
| Watchdogs.ModelWatchdog.RestartSucceeded | inferfabric/watchdog.py:176-182 | a successful restart clears the failure count only |
| Watchdogs.ModelWatchdog.Run | inferfabric/watchdog.py:92-217 | for every sequence of checks and restart steps the log of launches is lawful |
| Bucketing.BucketIndex | inferfabric/bucketing.py:91-101 | the first slot that holds the moment, or -1 exactly when none does |
| Bucketing.SlotsPartition | inferfabric/bucketing.py:91-101 | every moment of the window lies in exactly one slot |
| Bucketing.WallSlotsHoldNow | inferfabric/bucketing.py:33-49 | minute and hour slots are contiguous and now is in the last one |
| Bucketing.DashboardWindows | inferfabric/bucketing.py:33-49 | the minute and hour windows: length, end, and now in slot 11 and 23 |
| Bucketing.ClosedSlotsStay | inferfabric/bucketing.py:33-49 | as now advances old slots move down the list unchanged |
| PowerStats.BucketStats | inferfabric/power_stats.py:151-188 | the sweep gives every bucket exactly the samples the bucket index assigns to it, with their average, energy and running sum |
| PowerStats.Summarize | inferfabric/power_stats.py:171-181 | average and trapezoid energy of the samples of a bucket, with the one-sample and empty cases |
| PowerStats.AssignedIsInside | inferfabric/bucketing.py:91-101 | the bucket index assigns to a slot exactly the samples in it |
| PowerStats.EnergyIsBounded | inferfabric/power_stats.py:171-179 | the energy of several samples lies between lowest and highest power over their span |
| PowerStats.AverageIsBounded | inferfabric/power_stats.py:171 | the average lies between lowest and highest power; only an empty bucket has none |
| PowerStats.ConstantPower | inferfabric/power_stats.py:171-177 | constant power in numbers: that average, and its watts times seconds by 3.6 million, a minute for one sample |
| PowerStats.SampleOnLineChangesNothing | inferfabric/power_stats.py:175-177 | a further sample on the line between two others does not change the energy |
| PowerStats.CostIsEnergy | inferfabric/power_stats.py:182-188 | a kilowatt hour costs one yuan |
| PowerStats.CumulatedNeverDecreases | inferfabric/power_stats.py:182-188 | with non-negative powers the running sum never decreases and ends at the sum of all buckets |
| PowerStats.BucketsPartitionSamples | inferfabric/power_stats.py:151-188 | together the buckets hold the samples of the window once each, in order |
| AgentRegistries.CollectDefs | inferfabric/agent_registry.py:189-215 | whatever the files, ids are unique and the index agrees with the list |
| AgentRules.HeaderValueIff | inferfabric/agent_registry.py:85-90 | the first header of that name, whatever the case; without one the empty text |
| AgentRules.MatchesIff | inferfabric/agent_registry.py:80-95 | which protocol, header text and value or pattern a rule takes |
| AgentRules.CaseDoesNotMatter | inferfabric/agent_registry.py:85-92 | the case of header names, and of texts compared with a value, does not matter |
| AgentRegistries.ShownName | inferfabric/agent_registry.py:245-252 | what is shown of a definition: at most forty characters of its name or id |
| AgentRegistries.ShapeStep | inferfabric/agent_registry.py:189-215 | reading one more definition keeps two lists apart in one agent only |
| AgentRegistries.ShapeClassifies | inferfabric/agent_registry.py:159-179 | two such lists classify alike except for that agent |
| AgentRegistries.ShapeRecognises | inferfabric/agent_registry.py:159-179 | a request nobody claimed is claimed after it exactly if it matches the added rule and that was kept |
| AgentRegistries.OneMoreRule | inferfabric/agent_registry.py:189-215 | a rule added in one file: what it changes, and that it works exactly if no later file defines the agent anew |
| AgentRegistries.AliasGoesToOwner | inferfabric/agent_registry.py:288-327 | an alias claim changes a classification only to the agent named in the parent's file, and an unknown request is recognised exactly if the alias matches and no later file defines that agent anew |
| AgentRegistries.AliasGoesToParent | inferfabric/agent_registry.py:288-327 | for a parent stored under its own name, or not at all, only to the parent, and exactly under that condition |
| AgentRegistries.AliasCanBeLost | inferfabric/agent_registry.py:196-209 | a claim that has no effect because a later file replaces it |
| AgentRegistries.AliasCanGoElsewhere | inferfabric/agent_registry.py:304-312 | a claim that goes to another agent |
| AgentRegistries.ClaimSplits | inferfabric/agent_registry.py:189-215 | a fresh agent appears behind all agents of the files read before its own, and every other keeps its definition and place |
| AgentRegistries.NewAgentTakes | inferfabric/agent_registry.py:159-179 | in such a list it gets what it claims unless an agent before it does |
| AgentRegistries.ClaimGoesToNewAgent | inferfabric/agent_registry.py:255-286 | who gets a request after claiming a fresh id, whatever file is overwritten: the new agent exactly if its rule matches and no agent known from earlier files would get it, else whoever gets it without that file; so the others lose nothing else exactly if that file did not matter |
| AgentRegistries.UselessFileIsNotMissed | inferfabric/agent_registry.py:272-284 | an overwritten file that defines nothing did not matter |
| AgentRegistries.KnownIffDefined | inferfabric/agent_registry.py:189-215 | an id is known exactly if some file defines it |
| AgentRegistries.ClaimCanDropAnotherAgent | inferfabric/agent_registry.py:272-284 | an overwritten file that did matter: another agent loses a request that the new one does not get |
| AgentRegistries.PutSplits | inferfabric/agent_registry.py:189-197 | writing a file replaces the one of its name or inserts it in directory order; what is read before and after it |
| AgentRegistries.AgentRegistry.Classify | inferfabric/agent_registry.py:159-179 | the nested loops return the first agent with a matching rule or alias, else the unknown one |
| AgentRegistries.AgentRegistry.AddFromUi | inferfabric/agent_registry.py:255-286 | refuses invalid and known ids without change; otherwise writes the file, and every request goes exactly where ClaimGoesToNewAgent says |
| AgentRegistries.AgentRegistry.AddAlias | inferfabric/agent_registry.py:288-327 | refuses without change, or writes the file, moves requests only to its owner, and unknown ones exactly if the alias takes effect |
| TextTools.SplitInvertsJoin | inferfabric/prometheus.py:11-14 | joining lines and splitting the text gives the lines back |
| TextTools.DecimalRoundTrip | inferfabric/proxy/metrics_exporter.py:38-44 | a printed count is read back |
| Prometheus.ParsePrometheusText | inferfabric/prometheus.py:7-56 | the loop over the lines is the fold of their effects, exceptions included |
| Prometheus.SampleLineReads | inferfabric/prometheus.py:15-20 | name and value of a printed line are found whatever quotes and braces the labels hold |
| Prometheus.SampleLineRaises | inferfabric/prometheus.py:26-54 | a printed counter line adds its count to its counter and does nothing else |
| Prometheus.RaisesAddUp | inferfabric/prometheus.py:50-52 | counters add up across label sets |
| Prometheus.GaugeLineReads | inferfabric/prometheus.py:21-54 | a line without labels sets its gauge |
| Prometheus.BucketLineReads | inferfabric/prometheus.py:33-39 | a printed bucket line adds its bucket, the infinite one too |
| Prometheus.HistogramIsRead | inferfabric/prometheus.py:33-49 | a printed histogram is read back: its buckets in order, sum and count |
| MetricsExporter.RequestsAreCounted | inferfabric/proxy/metrics_exporter.py:69-81 | the counts by label add up to the number of rows |
| MetricsExporter.ErrorsAreCounted | inferfabric/proxy/metrics_exporter.py:83-96 | the error counts add up to the failed rows, a NULL status among them |
| MetricsExporter.TokensAreCounted | inferfabric/proxy/metrics_exporter.py:98-109 | the token counts by model add up to the tokens of all rows |
| MetricsExporter.AnomaliesAreCounted | inferfabric/proxy/metrics_exporter.py:111-120 | the anomaly counts add up to the events |
| MetricsExporter.RequestsByLabel | inferfabric/proxy/metrics_exporter.py:69-81 | every set of labels has the number of the rows that show it, with defaults for what is absent or empty |
| MetricsExporter.ErrorsByLabel | inferfabric/proxy/metrics_exporter.py:83-96 | the same for failed rows |
| MetricsExporter.TokensByModel | inferfabric/proxy/metrics_exporter.py:98-109 | every model has the tokens of its rows |
| MetricsExporter.AnomaliesByLabel | inferfabric/proxy/metrics_exporter.py:111-120 | every category and severity has the number of its events |
| MetricsExporter.LinesArePrinted | inferfabric/proxy/metrics_exporter.py:38-64 | the sample lines letter by letter |
| MetricsExporter.Generate | inferfabric/proxy/metrics_exporter.py:28-67 | the page is exactly these headings and samples, joined by line feeds |
| MetricsExporter.SectionIsRead | inferfabric/proxy/metrics_exporter.py:41-45 | reading a printed section raises its counter by the section's total |
| MetricsExporter.PageIsLines | inferfabric/proxy/metrics_exporter.py:66-67 | when no label has a line break, the page splits into the printed lines |
| MetricsExporter.ParserInvertsExporter | inferfabric/proxy/metrics_exporter.py:28-67 | if no label has a line break, parsing the page gives the numbers of rows, failed rows, tokens in and out, events, and the uptime, each from the rows its own query returned |
| MetricsExporter.TwoLineErrorIsLost | inferfabric/proxy/metrics_exporter.py:47-51 | without that condition: an error of two lines, the second a word, loses its count and leaves a gauge named after that word |
| SampleQuantiles.QuantileGrows | inferfabric/metrics_aggregator.py:28-37 | the sample quantile grows with q |
| SampleQuantiles.QuantileIsBounded | inferfabric/metrics_aggregator.py:28-37 | it lies between the smallest and the largest sample, which it reaches at 0 and 1 |
| SampleQuantiles.HalfIsMedian | inferfabric/metrics_aggregator.py:28-37 | at one half it is the median |
| SampleQuantiles.RanksAreReached | inferfabric/metrics_aggregator.py:28-37 | the samples in order are the quantiles at the ranks, with a straight line in between |
| SampleQuantiles.ReportedPercentilesAreOrdered | inferfabric/metrics_aggregator.py:284-291 | the reported p50, p95 and p99 are ordered |
| HistogramQuantiles.Quantile | inferfabric/prometheus.py:61-77 | the scan finds the first bucket that reaches the target and interpolates in it |
| HistogramQuantiles.ValueIsInBucket | inferfabric/prometheus.py:61-77 | the value lies between the bounds of its bucket and the one before |
| HistogramQuantiles.ValueHitsTarget | inferfabric/prometheus.py:68-76 | inside a bucket the value is where a straight line of the counts reaches the target |
| HistogramQuantiles.HistogramQuantileGrows | inferfabric/prometheus.py:61-77 | for non-negative bounds the quantile grows with q and stays between zero and the largest bound, the infinite one included |

## Left out

- ChunkedFraming.HexRoundTrip: size tokens are unsigned hexadecimal digits, which is all the printer produces; the other spellings Python's `int(s, 16)` takes (sign, blanks, `0x`, underscores) count as malformed here.
- StreamForwarding.PipeStreamResponse: the observer's exception is a flag, and a disconnect is the client being marked gone before a chosen write; response headers, retries and time-to-first-token are not modelled.
- GpuManagers.GpuManager.Run: operations are atomic and the models' roles and ports do not change during a run; every GPU model has a port, a probe never invents a running model, and a stop that returns has killed its process. What the lock, the budget, the drift check, the probes, the ports and the GPU answer is arbitrary, and logged with every start and stop.
- Sleep and wake, PID recovery and orphan clearing, VRAM numbers, CUDA reset and history rows of the GPU manager.
- SseBuffers.CutsDoNotMatter: the JSON decoder is abstract, counts are numbers, and the callback is attached; a run ends with the first call that raises, and what the callers' flush does after it is `RecordedIff`.
- SseBuffers.RecordedIff: is about what the observer holds; a flush that raises itself leaves the chat handler before it stores that.
- RequestLogs.EveryRunIsSound: the log is a state machine over atomic steps instead of a class, because its threads interleave; the join timeout of `close`, the JSON-lines file, the queue and pruning are not modelled.
- RateLimiters.ServerRateBound: the blocking `acquire`, re-registration of buckets and `clear` are not modelled.
- DualGates.EveryRunConserves: a state machine over semaphore steps instead of a class; each handle is released once and only when granted, whether a refused request keeps its rate tokens is not modelled, a timeout happens only while no permit is free, and the outcome of the rate gate is a parameter.
- Tuning.Tuner.Apply: values are integers, or booleans in fields without caps (strings and floats are not coerced), the applied file is readable, and restart, smoke request and file writes answer as parameters; the lock file and the emitted event are not modelled.
- CloudRegistries.CloudDiscovery.Run: models carry their id and provider only (no specs' attributes), discovery answers are parameters, and adding providers, `reload` and `save_config` are not modelled.
- CloudRegistries.RebuiltIsExact: needs slash-free ids that no other provider lists; with shared ids the short key belongs to whoever registered first.
- DeepMerging.Chart.Update: `replaceSeries` and the house rules applied before drawing are not modelled; trees hold JSON values (no functions, no `undefined`).
- Watchdogs.ModelWatchdog.Run: what a restart does to the GPU manager is the subject of the GPU modules; here it succeeds or not. Clock readings are non-negative.
- PowerStats.BucketStats: averages are not rounded for display; day, week and month slots depend on local time and are left out, but the sweep takes any contiguous slots.
- AgentRegistries.CollectDefs: regular expressions are an abstract search function, case folding is ASCII, removing an agent and the user-agent facts of a hit are not modelled; failures to read a directory are left out.
- MetricsExporter.ParserInvertsExporter: numbers other than plain digits are read by an abstract function, special float values are left out, and a failing log query is one that returns no rows.
- SampleQuantiles.QuantileGrows: for q between 0 and 1, the only values used; sorting is a stable sort proved to be one.
- HTTP handlers, the dashboard beside the merge algebra, the command line, benchmarks, SQLite, and subprocess and docker calls.
