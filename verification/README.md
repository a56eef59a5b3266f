# Javex: a model of the resumable sandbox and its proofs

Javex runs untrusted JavaScript on Wasmtime from Elixir. A run can call host callbacks, and it can
execute in the BEAM's own process or behind a supervisor in a restricted child process. This project
models the parts whose correctness is a matter of protocol and arithmetic, and proves what the
implementation relies on.

The modules, from the bottom up (`Wrappers` holds the option type):

- `Text`, `Wire`: JSON escaping and its size, the texts of requests and completions, and the frame
  limits that each side computes for itself.
- `Codec`: reading those texts back, and UTF-8.
- `Bridge`, `GuestRuns`: the guest side, as a class with the bridge's closure variables; the provider
  step; the execution driver's reading of a step; and exactly what calls, jobs and advances do.
- `Broker`, `BrokerRun`, `Batches`, `Answers`, `Deadlines`: the callback broker's reactions to arbitrary
  frames, all its runs together with callback processes, timers and its mailbox, exactly which requests
  it takes, where its answers come from, and that every callback is timed.
- `Flow`, `InProcess`: guest, driver, broker and callbacks as one transition system with explicit
  queues, and the invariant that says where every call id is.
- `Pipeline`, `Finality`: the isolated backend, with child, supervisor and port, as a refinement of
  `InProcess`, and exactly when a result that the child has returned is final.
- `Framing`, `Events`, `PortDecoder`, `Supervisor`: the bytes between them. Length-prefixed frames under
  budgets, the BEAM's incremental decoder, the supervisor's two loops, and what comes out end to end.
- `Seccomp`: an interpreter for the classic BPF instructions in use, the filter generator, and the
  policy.
- `Admission`: the runtime server's slots, against results, timers and deaths in any order.
- `ModuleCache`: the cache of compiled modules, against true recency order.
- `OutputLog`: the guest's shared output buffer.

Code that updates state in place is modelled by classes and loops that are proved against
specification functions; the laws are lemmas about those functions and about all runs of the
transition systems. A transition system takes one event at a time; every interleaving of its parts is
some sequence of events.

## Where the code differs from what one would expect

- The guest checks its concurrency before it stringifies the argument, and a `toJSON` hook can call
  again in between. `pending` is bounded by `maxConcurrent` plus the depth of nesting less one, not by
  `maxConcurrent` (`Bridge.PendingBound`, `Bridge.ReentrancyExceedsConcurrency`). The theorems about
  honest guests are stated for calls without such hooks; the broker's are for arbitrary frames.
- The supervisor charges headers and payloads against 64 MiB, the BEAM counts the length prefixes as
  well. A response can pass one and fail the other (`Supervisor.RawBytesExceedCharge`,
  `Supervisor.LargestOutputIsLost`).
- The child truncates its terminal event against one limit for all kinds, the supervisor has one for
  each kind. An error message between the two is not reported: the call fails with the supervisor's
  status (`Supervisor.ResponseIsForwardedExactly`, `Supervisor.ErrorMessageIsLost`).
- A result that the child has returned is not final while a call that the guest did not await is
  still running (`Finality.ResultIsFinalExactly`). On the isolated backend the call's answer, written
  after the child is gone, can turn the result into a cancellation, and the call's timer into a
  timeout; the in-process driver, having returned, looks at neither
  (`Finality.ReturnedResultCanBeLost`, `Finality.TimeoutOverrules`).
- An honest guest can end its own run with an argument that it can print and the BEAM cannot read,
  such as a string with an unpaired surrogate (`InProcess.LoneSurrogateEndsRun`).
- The failure that the broker reports is replaced by a decoding error or an oversized message that
  arrives later (`PortDecoder.ReportedFailureWinsExactly`, `PortDecoder.ReportedFailureCanBeReplaced`).
- A larger byte budget for the module cache can have fewer hits (`ModuleCache.LargerBudgetCanLose`).

## Model

| member | source | states |
|---|---|---|
| Text.QuoteRoundTrip | native/javex_plugin/src/bridge.js:40-41 | a quoted string inside any text is self-delimiting: scanning it gives back the string and what follows it |
| Text.EscapeBytes | native/javex_nif/src/sandbox.rs:202-220 | JSON escaping expands the UTF-8 of any string by at most a factor of six, the factor the frame limits assume |
| Text.QuoteBytes | native/javex_nif/src/sandbox.rs:202-220 | a JSON string literal takes at most six bytes per byte of its string, and two for the quotes |
| Codec.BytesAreUtf8 | native/javex_plugin/src/bridge.js:24-33 | the size by which names, arguments and answers are limited is the length of the UTF-8 encoding, which determines the text |
| Codec.RequestReads | native/javex_plugin/src/bridge.js:40-41 | whatever follows it, a request record is read back: id, name and argument, each from its own place, whatever characters they hold |
| Codec.StateReads | native/javex_plugin/src/bridge.js:69 | the state that a step reports is read back: both flags, and every request of the list in order |
| Codec.CompletionReads | lib/javex/callbacks.ex:80 | a completion is read back: whether it resolves or rejects, the id, and the value or the code and the message |
| Wire.RequestLimitsAgree | native/javex_nif/src/sandbox.rs:203-212 | for every budget, validated or not, and every `usize` that can hold 64 MiB, the saturating native request limit is the one the BEAM computes on unbounded integers |
| Wire.CompletionLimitExact | native/javex_nif/src/sandbox.rs:214-219 | on validated budgets the 64 MiB cap never cuts the completion limit |
| Wire.StateFits | native/javex_nif/src/sandbox.rs:203-212 | the state text of at most `max_callback_concurrency` requests within the guest's quotas fits the uncapped request limit |
| Wire.CompletionFits | native/javex_nif/src/sandbox.rs:214-219 | every completion whose value or encoded error is within the output budget fits the completion limit, whatever its characters |
| Bridge.Provider.constructor | native/javex_plugin/src/bridge.js:8-15 | a new instance is the initial bridge state with no root promise and no job |
| Bridge.Provider.HostCall | native/javex_plugin/src/bridge.js:17-43 | the update of `count`, `pending`, `requests` and `fatal` by a call, with the calls that `toJSON` hooks make during stringification nested between the check and the registration |
| Bridge.Provider.Complete | native/javex_plugin/src/bridge.js:50-64 | completions settle pending promises in order, each under its own id, up to the first that matches none |
| Bridge.Provider.Step | native/javex_plugin/src/lib.rs:125-169 | one step: deliver, then run jobs until the root settles or none is runnable; a step that reports an unsettled root leaves no job runnable |
| Bridge.Provider.Advance | native/javex_nif/src/sandbox.rs:477-536 | what the driver makes of a step: a stopped run or an oversized completion is not stepped; then faults, limit checks, diagnostics, the fatal flag, the result |
| Bridge.FatalAdvanceFails | native/javex_nif/src/sandbox.rs:516-535 | if the guest is fatal before or after an advance, the advance fails and the guest stays fatal, whatever completions, jobs and root |
| Bridge.FatalIsSticky | native/javex_plugin/src/bridge.js:19-36 | once the guest is fatal every later advance of every series of advances fails |
| Bridge.SettledRootReportsQuota | native/javex_plugin/src/lib.rs:157-164 | a root that settles, fulfilled or rejected, never hides a terminal quota: the advance reports the callback limit |
| Bridge.PendingBound | native/javex_plugin/src/bridge.js:17-43 | a call whose hooks nest calls to a depth d leaves at most `maxConcurrent + d - 1` pending, since the check at line 19 precedes the hooks at line 28 |
| Bridge.ReentrancyExceedsConcurrency | native/javex_plugin/src/bridge.js:17-43 | that bound is attained at every depth: `maxConcurrent` alone is not an invariant of reentrant guests |
| Bridge.AtomicCallEffect | native/javex_plugin/src/bridge.js:17-43 | a call without nested calls registers exactly one request under a fresh id within all quotas, or leaves the map and the requests alone |
| Bridge.AtomicCallKeepsSound | native/javex_plugin/src/bridge.js:17-43 | atomic calls keep pending ids fresh, bounded by the concurrency and disjoint from settled ids |
| Bridge.DeliverKeepsSound | native/javex_plugin/src/bridge.js:52-63 | delivering a completion of a pending call settles exactly that call, once |
| GuestRuns.AtomicCallExactly | native/javex_plugin/src/bridge.js:17-43 | exactly what a call without nested calls does: the guest is fatal afterwards if and only if it was, or the call is beyond `maxCalls` or `maxConcurrent`, or has a good name and an argument longer than `maxInput`; it registers its request if and only if it passes no quota, has a good name and a JSON argument; and it throws, rejects or returns a pending promise in exactly the stated cases |
| GuestRuns.CallFatalExactly | native/javex_plugin/src/bridge.js:17-43 | and of any call, reentrant or not: it makes the guest fatal exactly if it, or a call that one of its hooks makes, passes a quota at the moment it is made |
| GuestRuns.DeliverExactly | native/javex_plugin/src/bridge.js:51-64 | completions are delivered exactly if they belong to different pending calls; then exactly those calls are settled, in order |
| GuestRuns.JobsRunExactly | native/javex_plugin/src/lib.rs:145-155 | jobs run in order, with all their calls, until one settles the root or none is left, and not one more |
| GuestRuns.AdvanceExactly | native/javex_nif/src/sandbox.rs:505-536 | exactly what an advance reports that delivers and meets no fault: done if and only if the guest is not fatal and the root is fulfilled; a JavaScript error or the diagnostic limit, by the size of the message, if and only if it is rejected; exactly the buffered requests if and only if it is unsettled and the frame fits; the callback limit if and only if the guest is fatal; a trap if and only if the frame of an unsettled root does not fit |
| GuestRuns.AdvanceFails | native/javex_nif/src/sandbox.rs:486-520 | a fault is what the advance reports, whatever the guest did; a stopped run or an oversized completion leaves the guest alone and fails; so does a completion of no pending call |
| GuestRuns.QuotaEndsSeries | native/javex_nif/src/sandbox.rs:527-529 | a guest that passes a quota, in any call of any job of any advance, gets no result: that advance and every later one fails, whatever it does with the error, however its root settles and whatever it is fed |
| Broker.EncodeError | lib/javex/callbacks.ex:227-231 | an error is answered under its own id and within the output budget, or ends the run |
| Broker.Invoke | lib/javex/callbacks.ex:195-225 | whatever a host callback does, its report is under its own id and within the output budget, or ends the run |
| Answers.InvokeConveys | lib/javex/callbacks.ex:195-231 | exactly what a callback's process reports: its value if and only if it returned one that fits, its own error or the broker's for an invalid result or an exception if and only if that error fits, and the end of the run in the remaining cases |
| Broker.BatchKeepsSafe | lib/javex/callbacks.ex:113-158 | a batch of arbitrary entries keeps the broker's ledger and budgets however far it gets, also when a later entry is refused after earlier ones started |
| Broker.FinishKeepsSafe | lib/javex/callbacks.ex:57-83 | the exit of a job moves its id from the running to the answered ones |
| Broker.ResultKeepsSafe | lib/javex/callbacks.ex:51-52 | storing a report keeps the ledger |
| Batches.BatchExactly | lib/javex/callbacks.ex:113-193 | exactly what becomes of a batch of arbitrary entries: they are taken one by one up to the first that is malformed, used before, beyond the call count or the concurrency, too long, or neither granted nor deniable; of those taken exactly the granted start a callback, each under its own id, and exactly the others are denied; the batch is refused if and only if not all were taken |
| Batches.TurnEndsExactly | lib/javex/callbacks.ex:40-94 | exactly when a turn ends the broker, and how: quietly on a stop or the owner's death, with a timeout for a job that runs, with the callback limit for a frame that is oversized or has a request that cannot be taken, or for an answer that does not fit |
| BrokerRun.NextKeepsGood | lib/javex/callbacks.ex:40-94 | every event of the broker and its callback processes keeps the invariant, exits being accounted for exactly once among the living and the mailbox |
| BrokerRun.BrokerSafety | lib/javex/callbacks.ex:96-164 | in every run, for arbitrary frames: jobs and calls within budget, no id run or answered twice, admitted ids are exactly the running and the answered ones, and a finished cleanup leaves no callback process |
| BrokerRun.CleanupNeverBlocks | lib/javex/callbacks.ex:247-258 | whatever ended the run, each process that cleanup waits for is alive and killed, or its DOWN message is still in the mailbox |
| BrokerRun.CleanupCompletes | lib/javex/callbacks.ex:242-258 | from every state of cleanup there is a run of at most two events per job after which nothing is waited for and nothing lives |
| BrokerRun.ExitAnswersReport | lib/javex/callbacks.ex:51-83 | a process that exits is answered with exactly what it reported, and with a generic failure if it reported nothing |
| BrokerRun.RunKeepsFaithful | lib/javex/callbacks.ex:51-83 | in every run of a living broker each report reaches its job before the exit of the process that made it |
| BrokerRun.NextKeepsBudgeted | lib/javex/callbacks.ex:195-231 | every answer, stored report and queued report stays within the output budget |
| Answers.AnswersAreSourced | lib/javex/callbacks.ex:40-94 | in every run from the start, for arbitrary frames: no two processes run for the same id; every answer sent is within the output budget and is the denial of an id that no process ran for, or exactly what the callback of its id said, or the generic failure of a callback that never ended; and while the broker lives every process that is gone has been answered so |
| Answers.ExitAnswersOutcome | lib/javex/callbacks.ex:57-83 | in every run, when a process exits whose callback has ended, the broker answers what the callback said if it fits, and ends the run if not |
| Deadlines.EveryCallbackIsTimed | lib/javex/callbacks.ex:171-193 | in every run each job of a living broker has its timer armed or its timeout in the mailbox, no other timer is armed, and none when the broker has ended |
| Flow.SumUnderSet | lib/javex/callbacks.ex:160-164 | queues whose ids add up to at most a set hold pairwise different ids |
| Flow.HonestBatch | lib/javex/callbacks.ex:113-135 | a batch of well-formed, unseen, distinct entries with room for all is admitted to the last entry |
| Flow.HonestBatchFlow | lib/javex/callbacks.ex:113-158 | the ids of such a batch are afterwards, each once, among the broker's jobs and the answers it sent |
| Flow.HonestReact | lib/javex/callbacks.ex:40-94 | one turn of the broker on a welcome message moves ids between message, jobs and answers and neither loses nor repeats one |
| InProcess.NextKeepsInv | lib/javex/runtime.ex:269-290 | every event of guest, driver, broker and callbacks keeps the global invariant |
| InProcess.IdConservation | native/javex_plugin/src/bridge.js:37-64 | in every run the pending ids of a live run are, each exactly once, buffered in the guest, in a frame under way, running as a job or in an answer under way; completions are consumed in the order sent, and an id settles at most once |
| InProcess.NoUnknownCompletion | native/javex_plugin/src/bridge.js:52-56 | in every run each completion taken belongs to a pending call and resumes the guest: "Unknown callback completion" is never thrown |
| InProcess.HonestGuestIsNeverRefused | lib/javex/callbacks.ex:104-132 | in every run a frame of an honest guest is taken whole, never refused for length, duplicate id, call count or concurrency; the run ends at a frame exactly if an argument does not decode, or a denial does not fit `max_callback_output` and some name in it is not granted |
| InProcess.UndecodableArgumentEndsRun | lib/javex/callbacks.ex:122-132 | from the start: a granted call whose argument text the BEAM does not decode ends the run with the callback limit |
| InProcess.LoneSurrogateEndsRun | lib/javex/callbacks.ex:126 | and a guest has such a text: an unpaired surrogate, which `JSON.stringify` writes as the escape `\ud800`, if the decoder rejects it |
| InProcess.NoLostWakeup | lib/javex/runtime.ex:269-288 | in every run a driver that waits has the broker's failure coming, or for each of its pending calls a frame that carries it, a live job, an exit or an answer under way; one that waits with none pending has no job and no answer |
| InProcess.SignalReachable | lib/javex/runtime.ex:272-288 | from every such state the broker's and callbacks' own steps can bring the driver a signal |
| Pipeline.StepSimulates | native/javex_nif/src/worker.rs:123-137 | a step of child, supervisor or BEAM that trips no limit is one step of the in-process backend or none |
| Pipeline.NextKeepsInv | native/javex_nif/src/worker.rs:177-251 | every step keeps the invariant of the pipeline: the child's outcome is in one place, and each loop has used one round for each item that passed it |
| Pipeline.IsolatedRefinesInProcess | lib/javex/runtime.ex:269-290 | every isolated run that no limit, no stop from outside and no broker failure cuts short is a run of the in-process backend with the same guest, the same completions in the same order and the same outcome, except that a reply written after the child is gone can turn the outcome into a cancellation |
| Pipeline.AwaitedRunsAgree | native/javex_nif/src/worker.rs:189-195 | that exception needs a call still outstanding when the root settled: if none was, the outcomes are equal |
| Pipeline.StoppedRunsAgree | lib/javex/isolated.ex:113-133 | a run that the broker's failure, the caller or the deadline stops agrees too: the in-process backend has a run with the same guest, completions and position of the driver, in which the same failure is next, or from which the same stop is possible, with the same outcome |
| Finality.ResultIsFinalExactly | lib/javex/isolated.ex:113-133 | in every reachable state in which the child has returned, every continuation that nobody stops from outside keeps the result if and only if no call is running, under way or answered and nothing has been written late; otherwise some continuation ends with a failure instead |
| Finality.AbandonedCallReachable | native/javex_plugin/src/lib.rs:125-169 | such a state is reached from the start: a guest calls two callbacks, the first is answered, and the root settles while the second still runs |
| Finality.TimeoutOverrules | lib/javex/isolated.ex:132-133 | from every state with one call running, its timer ends the isolated call with a callback timeout, while the in-process backend keeps the result it has returned in the same state |
| Finality.LateAnswerCancels | native/javex_nif/src/worker.rs:189-195 | and its answer, written after the child is gone, ends it as cancelled |
| Finality.ReturnedResultCanBeLost | lib/javex/isolated.ex:113-133 | so from the start, for all two names of which one is granted and all outputs, there is a run in which the child returns and a continuation for each of the two losses |
| Pipeline.OnlyByteBudgetsCutRuns | native/javex_nif/src/worker.rs:177-206 | in every reachable state the channel of capacity `max_callback_concurrency` is never full and neither loop runs out of rounds: a supervisor that gave up was over a byte budget |
| Seccomp.Steps | native/javex_nif/src/isolation.rs:62-135 | a run of any program terminates within the program's length, whatever its jumps |
| Seccomp.RunSuffix | native/javex_nif/src/isolation.rs:107-110 | jumps are relative: a block means the same wherever it is placed |
| Seccomp.AllowsMeaning | native/javex_nif/src/isolation.rs:107-110 | a block of allowances answers for its values and hands every other word on |
| Seccomp.ProgramMeansPolicy | native/javex_nif/src/isolation.rs:62-135 | for every allowlist, pid and command list, and on every system call, the generated program computes the policy and never faults |
| Seccomp.AllowedExactly | native/javex_nif/src/isolation.rs:62-135 | the program kills exactly under a wrong architecture, allows exactly the listed calls, tgkill to the own process and fcntl with a listed command, and answers EPERM in every other case |
| Seccomp.KernelDoesExactly | native/javex_nif/src/isolation.rs:62-135 | in the kernel's reading of the returned word: the process is killed exactly under a wrong architecture, the allowed calls pass, and every other call fails with errno 1 |
| Seccomp.RestrictSyscalls | native/javex_nif/src/isolation.rs:51-135 | the loops build a program of `13 + 2n + 2m` instructions that computes the policy on every system call |
| Admission.NextKeepsInv | lib/javex/runtime.ex:137-181 | every arrival, result, timer, worker death and caller death, taken in any order, keeps the invariant of the admission machine |
| Admission.AnsweredExactlyOnce | lib/javex/runtime.ex:137-223 | in every run no call is answered twice, none is answered while it waits or holds a slot, and one that does neither has been answered unless its caller is dead |
| Admission.AdmittedExactly | lib/javex/runtime.ex:197-223 | in every run a call that the server takes gets a slot, a worker, a timer at its deadline if and only if validation found nothing, fewer than `max_concurrency` jobs exist and its deadline is not reached; otherwise it is answered at once with what validation found, else as busy if and only if no slot is free, else as timed out |
| Admission.SlotsOutliveWork | lib/javex/runtime.ex:328-332 | in every run there are at most `max_concurrency` jobs, and every worker that has not finished holds one: a timeout or a dead caller frees no slot; and a valid call is told that the runtime is busy only when `max_concurrency` jobs exist |
| Admission.RepliesAreMeant | lib/javex/runtime.ex:109-149 | in every run a success carries what the call's own worker sent and is sent before the deadline; a crash reply means that the worker sent nothing; a timer never reports early; a call that is refused was invalid, or found every slot taken, or else was past its deadline |
| Admission.NoCallHangs | lib/javex/runtime.ex:153-179 | in every run, once no message waits and no timer is due, each call past its deadline is answered unless its caller is dead, every slot belongs to a worker at work, and a worker that nobody waits for has been cancelled |
| Admission.NothingLeaks | lib/javex/runtime.ex:338-342 | in every run timers, monitors and DOWN messages belong to jobs that exist; when no job is left there are none |
| ModuleCache.Cache.constructor | native/javex_nif/src/sandbox.rs:177-182 | a new cache is empty |
| ModuleCache.Cache.Get | native/javex_nif/src/sandbox.rs:111-118 | a lookup returns the entry under the key and makes it the most recent, or changes nothing |
| ModuleCache.Cache.Insert | native/javex_nif/src/sandbox.rs:120-137 | an insertion appends to what eviction leaves, or changes nothing for a present key or an image that can never fit; neither subtraction underflows and no empty queue is popped |
| ModuleCache.EvictionsAreShortest | native/javex_nif/src/sandbox.rs:129-134 | the loop evicts the shortest prefix of the queue that makes room |
| ModuleCache.TouchedKeepsSound | native/javex_nif/src/sandbox.rs:113-115 | a lookup keeps keys unique, the total size and both limits |
| ModuleCache.InsertedKeepsSound | native/javex_nif/src/sandbox.rs:129-136 | an insertion keeps keys unique and both limits |
| ModuleCache.CacheIsSuffixOfRecency | native/javex_nif/src/sandbox.rs:110-137 | after any history of lookups that insert what they miss, the entries are the most recent of the cacheable keys, in order of recency |
| ModuleCache.CacheIsMostRecent | native/javex_nif/src/sandbox.rs:129-131 | if the most recent keys always fit the byte budget, the entries are exactly the `max_cached_modules` most recent keys |
| ModuleCache.LargerCacheIncludes | native/javex_nif/src/sandbox.rs:129-134 | a larger count limit, or a larger byte budget that makes no further key of the history cacheable, never loses an entry that the smaller cache keeps and never has fewer hits, also where the byte budget binds |
| ModuleCache.LargerBudgetCanLose | native/javex_nif/src/sandbox.rs:123-134 | a larger byte budget can have fewer hits, by a history of three lookups for any two budgets |
| ModuleCache.MoreBytesNeverLoseExactly | native/javex_nif/src/sandbox.rs:123-134 | so over all histories of non-empty images more bytes never cost a hit exactly when the budgets are the same, or the smaller one or the count limit is zero, which disables the cache |
| ModuleCache.LookupsAreCompiles | native/javex_nif/src/sandbox.rs:410-420 | after any interleaving of lookups and stores by concurrent executions, a lookup finds nothing or what compiling the same Wasm gives, provided that the hash does not collide |
| ModuleCache.CacheHoldsLastUsed | native/javex_nif/src/sandbox.rs:110-137 | after any such interleaving the entries are in the order of their last uses, and no key outside the cache was used after any of them; a hit and an effective store are uses, a store of a key that is present is not |
| Framing.WordRoundTrip | native/javex_nif/src/worker.rs:46 | a 32-bit length is read back from its four bytes |
| Framing.WordInverse | native/javex_nif/src/worker.rs:35-37 | and four bytes are the encoding of the length read from them |
| Framing.FrameRoundTrip | native/javex_nif/src/worker.rs:34-49 | a written frame is read back, leaving what follows it, exactly if it is within the budget, and otherwise reading fails |
| Framing.ReadInverts | native/javex_nif/src/worker.rs:34-43 | what is read from any stream was written there, and the budget paid its length |
| Framing.ReadFrame | native/javex_nif/src/worker.rs:34-43 | the method reads that frame, takes its length from the budget before reading it, and never leaves more budget than it had |
| Framing.WriteFrame | native/javex_nif/src/worker.rs:45-49 | the method appends the frame, or nothing for a length beyond 32 bits |
| Framing.ManyRoundTrip | native/javex_nif/src/worker.rs:51-61 | frames that share a budget are read back exactly if together they are within it |
| Framing.ManyInverts | native/javex_nif/src/worker.rs:51-61 | frames read under a shared budget were written there and are within it together |
| Framing.ReadsStayWithinBudget | native/javex_nif/src/worker.rs:34-43 | however many reads of a hostile stream succeed, together they never exceed the initial budget |
| Framing.ReadRequest | native/javex_nif/src/worker.rs:51-61 | the method reads the header and then three frames that share what the header leaves; the subtraction never underflows |
| Framing.RequestRoundTrip | lib/javex/isolated.ex:38-60 | the request that the BEAM writes is read back exactly if its header is at most 1 MiB and the four frames at most 64 MiB together; otherwise it is refused, never misread |
| Framing.RequestInverts | native/javex_nif/src/worker.rs:180-188 | whatever request the supervisor reads, the child reads the same from what the supervisor writes on |
| Events.WriteEvent | native/javex_nif/src/worker.rs:63-69 | an event is appended as a frame of its quoted kind and a frame of its payload |
| Events.NamesAreDistinct | lib/javex/isolated.ex:7-10 | the kinds of the two sides name each other uniquely |
| Events.StreamLength | native/javex_nif/src/worker.rs:63-69 | a stream is eight bytes per event longer than its headers and payloads |
| PortDecoder.DecodeResumes | lib/javex/isolated.ex:151-199 | decoding can stop at any byte and resume: the verdict on a buffer is that on its start continued on the rest |
| PortDecoder.OversizedIsRefusedAtOnce | lib/javex/isolated.ex:151-160 | a length beyond its limit is refused as soon as its four bytes are there, whatever follows: the decoder never buffers a frame that it would refuse |
| PortDecoder.ChunkingDoesNotMatter | lib/javex/isolated.ex:93-135 | for any two message lists whose data join to the same bytes, within the transport limit and without a broker failure: the result is the same for every exit status, whatever answers, cancellations and owner deaths come between the pieces, and without the latter two the same payloads are dispatched in the same order |
| PortDecoder.AnswersAreWritten | lib/javex/isolated.ex:128-130 | while the call is not cancelled, exactly the broker's answers are written to the worker, in order, wherever they come between its output |
| PortDecoder.CancelStopsWork | lib/javex/isolated.ex:116-120 | a cancellation writes one empty frame, and nothing is dispatched or written after it, whatever arrives |
| PortDecoder.FailureIsSticky | lib/javex/isolated.ex:101-114 | after a decoding error, an oversized stream or a broker failure nothing is dispatched or written again, whatever arrives, and no exit status makes the call succeed |
| PortDecoder.ReportedFailureWinsExactly | lib/javex/isolated.ex:101-133 | the failure that the broker reports is the result, for every later message list and exit status, if and only if no later message fails to decode or exceeds the transport limit |
| PortDecoder.BrokerDeathIsReportedExactly | lib/javex/isolated.ex:122-126 | the same of a broker that dies, if nothing failed before |
| PortDecoder.ReportedFailureCanBeReplaced | lib/javex/isolated.ex:101-111 | and there are such messages: four bytes of output, and one message that is too long, replace the reported failure |
| PortDecoder.SucceedsExactly | lib/javex/isolated.ex:93-212 | for every message list: a call succeeds exactly if the worker exits with status 0, the broker neither fails nor dies, and the worker has written, in whatever pieces and with whatever answers between them, callbacks events and one "ok" event within the limits and nothing else; and then with that event's payload |
| PortDecoder.EventsRoundTrip | lib/javex/isolated.ex:176-212 | a stream of allowed callbacks events and one terminal event, in any pieces and with answers between them, dispatches exactly its callback payloads and returns its terminal event: decoding inverts `event` |
| PortDecoder.TooMuchFails | lib/javex/isolated.ex:106-111 | a worker that writes more than 64 MiB fails the call, in whatever pieces and whatever arrives between them |
| PortDecoder.OtherStatusFails | lib/javex/isolated.ex:137-144 | only exit status 0 can mean success |
| PortDecoder.StatusIsReported | lib/javex/isolated.ex:137-144 | for every message list after which no failure is recorded: a timeout is reported exactly for status 124, a cancellation exactly for 125, an error that names the status exactly for every other but 0, and for 0 what the worker said or that it said nothing valid |
| Supervisor.ReadEvent | native/javex_nif/src/worker.rs:224-239 | the method reads the next event of a known kind under its own limit and the traffic budget; the subtractions never underflow |
| Supervisor.ForwardEvents | native/javex_nif/src/worker.rs:216-251 | the loop forwards exactly the events of the relay's specification and reports whether they were a whole response |
| Supervisor.OnlyResponsesAreForwarded | native/javex_nif/src/worker.rs:216-248 | whatever the child writes, only callbacks events and at most one terminal event, last, are forwarded, each within its own limit, within 64 MiB together and within the rounds; success means that the response is complete |
| Supervisor.ForwardedEventsAreAllowed | lib/javex/isolated.ex:41-76 | every forwarded event of a run is within the per-frame limits that the BEAM computes for itself |
| Supervisor.TerminalLimitsAgree | native/javex_nif/src/worker.rs:152-158 | for terminal events within 64 MiB the supervisor's limit of each kind is exactly the BEAM's |
| Supervisor.WholeResponseArrives | lib/javex/isolated.ex:93-135 | a whole response within the raw limit is returned as it was written, and its callbacks are dispatched, in whatever pieces and with whatever answers between them |
| Supervisor.SuccessIsTheChildsWord | native/javex_nif/src/worker.rs:252-280 | end to end, for every output of the child and every message list that carries what the supervisor forwards of it: a call succeeds exactly if the child exits with status 0 after one whole response that ends in that "ok" event, asks for callbacks only in a run and is within the BEAM's raw limit, and the broker neither fails nor dies |
| Supervisor.Await | native/javex_nif/src/worker.rs:252-280 | the loop ends at the first look that decides, an exit before a cancellation before a failure to forward before the deadline; the status is the child's, or 125, 126 or 124, and 126 for a child that exits with 0 without a whole response |
| Supervisor.ForwardedNeverFails | lib/javex/isolated.ex:98-111 | what the supervisor forwards of any child's output never makes the BEAM record a failure, within the raw limit |
| Supervisor.EndIsReported | native/javex_nif/src/worker.rs:252-280 | end to end, for every output and every end of the child: the call is reported as timed out exactly for 124, as cancelled exactly for 125, with a status exactly if the child ended with it, where 126 also stands for a child that exits with 0 without a whole response, and otherwise as the child said |
| Supervisor.ResponsePasses | native/javex_nif/src/worker.rs:223-246 | a whole response within the limits, the traffic budget and the rounds passes the supervisor unchanged |
| Supervisor.ChildsResponseArrives | native/javex_nif/src/worker.rs:221-223 | the rounds suffice for an initial state, one state for each allowed completion and the final event; with the completions arriving between the events, the call then ends as the child said, exactly if the response is within the BEAM's raw limit |
| Supervisor.RawBytesExceedCharge | lib/javex/isolated.ex:98-111 | a stream is within the BEAM's raw limit exactly if its charge at the supervisor and eight bytes per event are within 64 MiB |
| Supervisor.LargestOutputIsLost | native/javex_nif/src/worker.rs:219-240 | so an output of 64 MiB less four bytes passes the supervisor and fails at the BEAM |
| Supervisor.ResponseIsForwardedExactly | native/javex_nif/src/worker.rs:71-82 | what the child ends with, after any callbacks, is forwarded and is the result of the call if and only if its text is within the limit of its own kind or beyond the common response limit, and within what the callbacks left of the traffic budget; otherwise only the callbacks are forwarded and the call ends with the supervisor's status 126 |
| Supervisor.ErrorMessageIsLost | native/javex_nif/src/worker.rs:158 | under the default limits there is such a message: 64 KiB of diagnostics that are not UTF-8, which are decoded to 192 KiB |
| Supervisor.ForwardReplies | native/javex_nif/src/worker.rs:197-212 | the reply loop queues exactly the replies of its specification |
| Supervisor.RepliesAreBounded | native/javex_nif/src/worker.rs:197-212 | whatever the stream, the queued replies were written there in order, each non-empty and within the completion limit, within 64 MiB together and within the rounds |
| Supervisor.RepliesPass | native/javex_nif/src/worker.rs:197-212 | as many completions as the call budget allows, and then a cancellation, fit the loop: all are queued once and in order, and the cancellation ends it |
| OutputLog.Output.Append | native/javex_nif/src/output.rs:42-53 | a write keeps what fits and fails unless everything fitted; the subtraction never underflows |
| OutputLog.Output.CheckWrite | native/javex_nif/src/output.rs:88-95 | a stream asks for exactly what is left, and for one byte when it is full, so that the next write fails and does not wait |
| OutputLog.Output.Clone | native/javex_nif/src/output.rs:14-18 | a clone shares buffer and quota |
| OutputLog.ContentsArePrefix | native/javex_nif/src/output.rs:42-53 | after any sequence of writes through any clones the buffer is the first `capacity` bytes of everything attempted, and `exceeded` holds exactly if that was longer |

## Left out

- Pipeline.OnlyByteBudgetsCutRuns: the byte budgets of the two relays are events that may trip at any moment, because cumulative traffic is the host's choice; they are concrete in `Supervisor`.
- Pipeline.IsolatedRefinesInProcess: covers runs that nobody stops; `Pipeline.StoppedRunsAgree` covers those that the broker's failure, the caller or the deadline stops.
- Pipeline.StoppedRunsAgree: says that the same stop is possible in-process and not when it takes effect; the two backends look for it at different points.
- InProcess.IdConservation: covers guests whose calls are atomic and whose names are well-formed Unicode; see the first point above for the others.
- InProcess.LoneSurrogateEndsRun: which argument texts the BEAM decodes is a parameter, so that Jason rejects an unpaired surrogate is a premise; the texts' escapes are those of `JSON.stringify`.
- InProcess.SignalReachable: shows that a signal can always come, not that a fair scheduler must bring it; a host callback may run until its timer.
- ModuleCache.LargerCacheIncludes: for byte budgets, covers histories in which no image is too large for the smaller budget only; the exact condition for a single history is not characterised.
- Bridge.Provider.HostCall: promise resolvers are represented by the ids they are stored under, and resolving by the list `settled`; the order of promise reactions is a script of jobs.
- Supervisor.Await: the polling loop takes what it sees from a list; killing the child and sleeping are not modelled.
- Supervisor.ErrorMessageIsLost: that decoding invalid UTF-8 triples its length is Rust's and not modelled.
- Supervisor.ForwardEvents: a failed write to the BEAM is not modelled; the BEAM is gone then.
- Supervisor.ForwardReplies: the writing thread that drains the channel is represented by whether there is room at each attempt.
- Seccomp.RestrictSyscalls: architecture, system call and command numbers are parameters; installing the filter and the other process restrictions are kernel calls.
- JSON parsing and printing by Jason, serde and QuickJS: frames are structured values with a size, and headers are decoded by a function of which only the honest headers are known.
- Wasmtime, WASI, QuickJS and Cranelift: a guest is any sequence of calls and settlements.
- Clocks and scheduling: time advances by events, and a server reads the clock once for each message.
- Process creation, ports, pipes and signals: only their messages, bytes and exit statuses.
- Keyword, environment and callback validation in options: only the numeric ranges, as preconditions.
- The compiler, its permit counter, the memory limiter and the precedence of error kinds in the sandbox: one-function facts.
- Release of the output lock, atomics and memory ordering: each locked section is one step.
