# An image service behind a plugin boundary, in Dafny

A Go plugin owns a helper process and multiplexes calls to it over length-prefixed frames. The helper,
written in Python, spreads the images of a request over OAuth credentials under one deadline. This
project models the parts of both sides that schedule, count references, share a pipe or interpret
untrusted input, and proves what they keep in every run.

There are two kinds of model. Where threads or processes meet, the model is a transition system: a state,
an action for every operation on a lock, channel, pipe or table, and `Run`, which applies any sequence of
actions; the results are about all such sequences. Where one thread works on its own data, the model is a
method or a class with the fields of the source, proved against a specification function, and the results
are lemmas about that function. Times are integer nanoseconds.

| file | models |
|---|---|
| `CredentialTable.dfy` | cooldowns, per-key try-locks, rotation (`helper/protocol.py`) |
| `Scheduler.dfy` | any number of workers in `generate_one`, interleaved at every lock and table operation |
| `GenerateOne.dfy` | `generate_one` as the loop of one worker amid interference, with its termination |
| `HelperClient.dfy` | the critical sections of the Go client (`helper_client.go`) |
| `Multiplexer.dfy` | calls, readers, Close, cancel frames and helper processes, interleaved |
| `MultiplexerSafety.dfy` | the invariant of that system |
| `MultiplexerResults.dfy` | what callers can rely on, and some behaviours that surprise |
| `MultiplexerDelivery.dfy` | that no request, answer or cancel frame is lost |
| `Framing.dfy`, `FrameWriters.dfy` | the frame codec, truncation, and concurrent writers on one pipe |
| `Lease.dfy`, `Plugin.dfy` | leasing and hot-swapping the helper (`plugin.go`) |
| `Control.dfy` | the request's deadline and the race between cancel and register (`helper/control.py`) |
| `ActiveControls.dfy` | the helper's table of active requests (`helper/main.py`) |
| `Executor.dfy` | credential selection and the retry under one deadline (`credentials.go`, `executor.go`) |
| `TurnstileValues.dfy`, `Turnstile.dfy` | the values and instructions of the interpreter (`helper/turnstile.py`) |
| `TurnstileMachine.dfy`, `TurnstileResults.dfy` | the interpreter as it runs in place, and what every program keeps |
| `TurnstilePrograms.dfy` | when an instruction that raises leaves effects, and how much one can write |
| `TurnstileLaws.dfy` | what each instruction stores, and what whole programs spell |
| `Wrappers.dfy` | the option type |
| `Json.dfy`, `InvalidToken.dfy`, `References.dfy`, `Sse.dfy` | the event recognisers, folds and line parser (`helper/backend.py`) |
| `JsonPaths.dfy`, `ReferencePaths.dfy` | values by their paths, and what the folds find, by paths |
| `Pow.dfy` | the proof-of-work search (`helper/pow.py`) |

Some of what one would expect does not hold of the code. Those results are stated as exact conditions or as
concrete runs:

- A call can write to a nil pipe and panic: exactly when no process was left at the moment it registered
  (`PanicsIffProcessGone`, reached in `NilPipeIsReachable`).
- A reader or a caller that fails on a process that is gone takes down whatever process is current, and the
  calls waiting for it: exactly the current one (`FailureHarmsCurrent`), and only after somebody else had taken
  its own process down (`FailureIsLate`); `StaleReaderFailsNewCalls` and `StaleWriterFailsNewCalls` are runs of
  that kind.
- A Turnstile program whose outermost value is a number, a boolean or null makes the interpreter raise
  (`RaisesIffNotIterable`), and an instruction that raises may already have written registers
  (`RaisingInstructionsLeaveEffects`), exactly under the condition of `RaisesCleanlyIff`. Everything else
  about programs is total: a nested call has strictly fewer arguments than the call it is made from, which
  is the termination measure of `Turnstile.Exec`.
- A frame survives the trip only if it is within the readers' limits, which the writers do not check
  (`SurvivesIffSendable`).
- Two rotations start with the same credential exactly when their distance in the queue for the cursor and the
  distance of their image indices add up to a multiple of the number of credentials
  (`StartsCoincideIff`).

## Model

| member | source | states |
|---|---|---|
| `Scheduler.NextKeepsInv` | helper/protocol.py:149-189 | Every step of every worker, and the passing of time, keeps the scheduling invariant: locks belong to the workers that are inside their critical sections, one lock per key, and each worker accounts for its keys. |
| `Scheduler.RunKeepsInv` | helper/protocol.py:149-189 | So does every run, for any number of workers and keys. |
| `Scheduler.StepIsWithinRely` | helper/protocol.py:156-189 | One step of a worker changes nothing that another worker relies on: other locks, the cooldowns of keys the other has locked, and cooldowns only grow. |
| `Scheduler.RunIsWithinRely` | helper/protocol.py:156-189 | Nor does any run of the others, however long. |
| `GenerateOne.InterferenceIsOthersRunning` | helper/protocol.py:149-194 | What the one-worker model lets happen between two of its steps covers every run of the others, in which moreover the clocks do not go back and a cancellation lasts. |
| `Scheduler.AttemptsAreExclusiveAndWarm` | helper/protocol.py:159-170 | In every reachable state at most one worker is inside generate_with_credential for a key, and the key is not cooling, at the start or at any time during the attempt. |
| `Scheduler.TableOnlyAdvances` | helper/protocol.py:208-223 | No step moves a cooldown earlier or replaces the lock object of a key. |
| `Scheduler.RunOnlyAdvances` | helper/protocol.py:208-223 | No run does. |
| `Scheduler.PenaltiesAreServed` | helper/protocol.py:178-187 | Once a worker has set a penalty, no worker attempts the key, however the run goes on, before that much time has passed. |
| `Scheduler.NoLockIsLeftBehind` | helper/protocol.py:159-189 | A lock is held only by a worker still dealing with the key it belongs to; a worker that has left by any path (return, 401, 503, 504, unexpected exception) holds none. |
| `Scheduler.BusyMeansSameKey` | helper/protocol.py:160-162 | A try-lock fails only because another worker is dealing with the same key at that moment. |
| `Scheduler.FailuresAreExplained` | helper/protocol.py:149-199 | No key is tried twice; 504 only after expiry; any other failure only after every key was tried or found cooling, and it is 401 exactly when some attempt ended in an error with a status and all that did had 401 or 403. |
| `Scheduler.TimeoutIffExpired` | helper/protocol.py:190-199 | The step with which a worker gives up reports 504 exactly if the request has expired by then. |
| `Scheduler.ReturnsIffSucceeded` | helper/protocol.py:170-174 | A worker returns exactly if an attempt of its own has succeeded, which then was its last. |
| `Scheduler.EndsArePunished` | helper/protocol.py:174-189 | What follows each kind of end: a cooldown of 300 s after 401 or 403, 120 s after 429, 30 s if retryable, 15 s after an unexpected exception, and none after any other end; the lock is let go of. |
| `Scheduler.FreeKeysAreAttempted` | helper/protocol.py:159-172 | In every reachable state a key that is not cooling and whose lock is free is attempted with the next three steps of the worker that has come to it. |
| `Scheduler.NapsLast` | helper/protocol.py:190-192 | A nap lasts 20 ms or reaches the deadline, and is left earlier only after a cancellation. |
| `CredentialTable.StatusesAreReported` | helper/protocol.py:174-187 | Exactly the attempts that end in an error with a status leave one, whichever kind of error it is. |
| `CredentialTable.Registry.IsCooling` | helper/protocol.py:214-217 | True exactly while the recorded end, 0 if there is none, is later than now. |
| `CredentialTable.Registry.SetCooldown` | helper/protocol.py:220-223 | The new table; an end that is not earlier than the old one moves no cooldown earlier; locks are untouched. |
| `CredentialTable.Registry.LockOf` | helper/protocol.py:208-211 | A key keeps the lock it has; otherwise it gets the one just made; nobody comes to hold a lock by this. |
| `CredentialTable.Registry.TryAcquire` | helper/protocol.py:159-162 | Succeeds iff the lock is free and then makes the worker its owner; the other holders stay. |
| `CredentialTable.Registry.Release` | helper/protocol.py:188-189 | Frees this lock and no other. |
| `CredentialTable.Registry.RotateCredentials` | helper/protocol.py:226-232 | The list rotated by cursor plus offset; the cursor advances on every call. |
| `CredentialTable.RotationOffersEach` | helper/protocol.py:229-232 | A rotation offers every credential exactly once, in cyclic order. |
| `CredentialTable.StartOfRotation` | helper/protocol.py:226-232 | Whatever the order in which images, of one request or of several, get hold of the cursor, the k-th of them starts k plus its own image index after the cursor, since both advance. |
| `CredentialTable.StartsCoincideIff` | helper/protocol.py:226-232 | In any such order two images start with the same credential iff their distance in that order plus the distance of their indices is a multiple of the number of credentials; in index order that is twice their distance. |
| `GenerateOne.Environment.Nap` | helper/control.py:22-33 | The sleep in the scheduling loop: it ends in the timeout error iff the request has expired by then, and otherwise 20 ms have passed and one more nap is counted; nothing else counts naps. |
| `GenerateOne.TakeTurn` | helper/protocol.py:153-189 | One credential in one round: skipped only if cooling, busy only if its lock is taken, otherwise tried once; afterwards the cooldown is 300, 120, 30 or 15 s from the attempt as its end demands, or what it was; no lock is held, whatever the others did meanwhile. |
| `GenerateOne.UseCredential` | helper/protocol.py:163-189 | The part under the lock: the recheck, the attempt, and exactly the cooldown that its end demands, or none; the release on every path. |
| `GenerateOne.Round` | helper/protocol.py:151-189 | One pass: tried keys are new and distinct, skipped keys were cooling, a success ends it, and unless some lock was taken every key is accounted for afterwards. |
| `GenerateOne.EndRound` | helper/protocol.py:190-194 | Another round only with progress made, or after a nap that ended before the deadline. |
| `GenerateOne.Iterate` | helper/protocol.py:149-194 | An iteration that goes on without a new attempt has taken one nap of 20 ms that ended before the deadline; none takes two. |
| `GenerateOne.Loop` | helper/protocol.py:149-194 | The loop terminates by (keys not attempted, time left) and raises the count of naps by at most ceil(timeout / 20 ms), even with duplicate tokens. |
| `GenerateOne.Generate` | helper/protocol.py:140-199 | Returns exactly when an attempt succeeds, which is the last one; fails with 504 iff expired, and otherwise with every key accounted for and 401 iff some attempt ended in an error with a status and all that did had 401 or 403, else 503; no lock is left; naps are bounded as in Loop. |
| `HelperClient.HelperClient.EnsureStarted` | helper_client.go:122-146 | Keeps a running process; otherwise installs the new one with its pipe, or fails and changes nothing. |
| `HelperClient.HelperClient.NextId` | helper_client.go:51 | Draws the next id. |
| `HelperClient.HelperClient.Register` | helper_client.go:53-56 | Registers the channel and takes whatever pipe is current, possibly none. |
| `HelperClient.HelperClient.Forget` | helper_client.go:75-77 | Removes the entry of a call that has given up. |
| `HelperClient.HelperClient.TakeChannel` | helper_client.go:187-190 | Takes the channel of an id out of the table, so nobody else can. |
| `HelperClient.HelperClient.TakeAll` | helper_client.go:199-206 | Takes the process and all registered channels and leaves the client empty; Close does the same. |
| `MultiplexerSafety.NextKeepsInv` | helper_client.go:47-213 | Every step of every caller, reader, Close and helper process keeps the protocol invariant. |
| `MultiplexerSafety.RunKeepsInv` | helper_client.go:47-213 | So does every run. |
| `MultiplexerSafety.SendKeepsInv` | helper_client.go:191-212 | A sender holds the channel alone, so its send fills an empty slot. |
| `MultiplexerSafety.TakeDownKeepsInv` | helper_client.go:198-206 | failProcess and Close become the only holders of every registered channel. |
| `MultiplexerSafety.LookupKeepsInv` | helper_client.go:187-193 | The reader that finds a channel becomes its only holder. |
| `MultiplexerSafety.HelperKeepsInv` | helper/main.py:50-100 | What the helper does with frames, requests and cancels keeps the invariant: responses carry the answer computed for their id. |
| `MultiplexerResults.SendsNeverBlock` | helper_client.go:187-212 | Whoever is about to send finds the one slot of the channel free. |
| `MultiplexerResults.FourPlaces` | helper_client.go:51-81 | The channel of a call is in at most one of three places: registered, held by a single sender, or filled with its only message; and if in none, its caller has given up. |
| `MultiplexerResults.WaitersAreNotForgotten` | helper_client.go:62-81 | The channel of a waiting caller is registered, held by a sender, or has its message. |
| `MultiplexerResults.EndToEnd` | helper_client.go:47-73 | A call that gets a response gets what process_request computed for its id from its payload, whatever the order of completion, restarts, cancels and other calls; never an acknowledgement of a cancel frame. |
| `MultiplexerResults.StartsAtMostOnce` | helper/main.py:82-100 | process_request starts at most once for an id, over all processes. |
| `MultiplexerResults.OnlyUnwantedWorkIsCancelled` | helper/main.py:71-79 | A cancel frame marks only work whose caller has already given up. |
| `MultiplexerResults.RunGrows` | helper_client.go:47-213 | A message once sent, an answer once computed and the process a frame went to never change. |
| `MultiplexerResults.TakenDownCallsGet502` | helper_client.go:198-213 | Every call registered when failProcess or Close runs gets the 502 and nothing else, whatever happens next. |
| `MultiplexerResults.PanicsIffProcessGone` | helper_client.go:53-58 | A call writes to a nil pipe iff no process was left at the moment it registered. |
| `MultiplexerResults.NilPipeIsReachable` | helper_client.go:48-58 | A run in which that happens. |
| `MultiplexerResults.RunKeepsCurrent` | helper_client.go:53-58 | In every run a registered call whose frame has been written was written to the current process. |
| `MultiplexerResults.FailureHarmsCurrent` | helper_client.go:58-213 | A failing reader or writer kills another live process iff that one is current, and the registered calls that get its 502 are those written to that process iff it is current; a writer does so only after its own call was taken out of the table. |
| `MultiplexerResults.FailureIsLate` | helper_client.go:58-61 | A read or a write fails on a process that is not current only if somebody else had taken that process down before. |
| `MultiplexerResults.StaleReaderFailsNewCalls` | helper_client.go:166-206 | A run in which that happens: a reader of a dead process takes down a live newer one and fails its caller. |
| `MultiplexerResults.StaleWriterFailsNewCalls` | helper_client.go:58-61 | Another, in which a caller does it whose write to the dead process fails. |
| `MultiplexerDelivery.RunKeepsDelivery` | helper_client.go:47-213 | In every run no request, answer or cancel frame is lost: the invariant behind the next results. |
| `MultiplexerDelivery.RequestsAreNotLost` | helper_client.go:57-81 | A waiting caller has sent its request, which is in front of its process, at work in it, or answered; while the call is in the table the answer is about to be written, on the pipe or in a reader's hands, unless it could not be decoded. |
| `MultiplexerDelivery.AnswersAreDelivered` | helper_client.go:187-193 | A response in a reader's hands whose call is in the table reaches the caller. |
| `MultiplexerDelivery.AnswersAreReachable` | helper_client.go:47-73 | A run in which a call gets the answer computed from its payload. |
| `MultiplexerDelivery.CancelsArrive` | helper/main.py:71-92 | A cancel frame that was written is still unread with no request of its call behind it, or its call will not start any more in that process nor go on there uncancelled. |
| `MultiplexerDelivery.GivingUpCancels` | helper_client.go:74-92 | A call that gives up writes its cancel frame, under a new id, to the current process. |
| `MultiplexerDelivery.GivenUpCallsAreForgotten` | helper_client.go:74-79 | And it is never again in the table, so that a late response is dropped. |
| `Framing.Stream.Read` | helper/main.py:22-34 | Reading takes the requested bytes, or what is left, off the front. |
| `Framing.ReadFrameFrom` | helper/main.py:22-34 | Reads one frame, and distinguishes a clean end, a bad length and an incomplete header or body. |
| `Framing.WriteFrameTo` | helper_client.go:149-163 | Appends the header and the payload, whatever the length; the header is that of the length modulo 2^32. |
| `Framing.ReadAllFrom` | helper_client.go:166-182 | Draining a stream yields the frames and the reason it stopped. |
| `Framing.HeaderRoundTrip` | helper_client.go:156-157 | The header decodes to the length modulo 2^32. |
| `Framing.HeaderIsBijective` | helper_client.go:173 | Every four bytes are the header of the length they decode to, so both ends agree. |
| `Framing.HeaderIsBigEndian` | helper_client.go:156-157 | The bytes of the header carry the weights 2^24, 2^16, 2^8 and 1, in that order. |
| `Framing.RoundTrip` | helper/main.py:22-47 | Decoding the concatenation of any frames of 1 to 2^29 bytes returns them and a clean end. |
| `Framing.CutFirst` | helper/main.py:24-34 | A cut inside the first frame yields nothing from it, and is a clean end only at its start. |
| `Framing.Truncation` | helper/main.py:24-34 | After a cut anywhere the reader gets exactly the frames before it; a clean end iff the cut is on a boundary. |
| `Framing.SurvivesIffSendable` | helper_client.go:149-163 | A frame is read back iff its length is within the limits the writers do not check. |
| `FrameWriters.NextKeepsInv` | helper_client.go:149-163 | Under the write lock the pipe always holds whole frames and at most the beginning of one more, wherever writes fail. |
| `FrameWriters.RunKeepsInv` | helper_client.go:149-163 | In every interleaving of any number of writers. |
| `FrameWriters.RunKeepsOrder` | helper_client.go:149-163 | Completed writes are recorded once each and never reordered or forgotten. |
| `FrameWriters.ReaderGetsWhatWasSent` | helper/main.py:41-47 | The reader at the other end gets exactly one payload for each writer that succeeded, in the order their writes completed. |
| `Lease.NextKeepsInv` | plugin.go:84-147 | Every step of acquireHelper, reconfigure, retire, close and shutdown keeps the lease invariant. |
| `Lease.RunKeepsInv` | plugin.go:84-147 | So does every run. |
| `Lease.ReplacedSlotsDrain` | plugin.go:84-103 | A slot that reconfigure replaced is closed only when it has no leases; no slot is closed twice; no counter goes below zero; no thread is about to be counted on a replaced slot. |
| `Lease.ReplacedSlotsGainNoLease` | plugin.go:106-136 | The counter of a replaced slot never rises again, so Add never races a Wait that has begun. |
| `Lease.QuiescentMeansClosed` | plugin.go:84-147 | When nobody is on the way to closing a slot, it has been closed exactly once, or it is the current one and open; leases elsewhere and waiting callers make no difference. |
| `Lease.LeasesAreConsistent` | plugin.go:106-117 | A lease pairs a client with a configuration that was in force and made for that client's path. |
| `Lease.CountersCountLeases` | plugin.go:113-116 | The counter of a slot is the number of threads counted on it and not yet returned, so a return always finds it above zero. |
| `Lease.SlotsCountPathChanges` | plugin.go:120-136 | Until a shutdown the helpers started are one plus the number of path changes. |
| `Lease.TurnedAwayOnlyWithoutHelper` | plugin.go:106-112 | In every run a caller is sent away without a lease only if there is no helper. |
| `Lease.CountedCallersGetLeases` | plugin.go:106-117 | A caller that has counted itself gets the current helper with the configuration in force. |
| `Lease.LeasesAreReachable` | plugin.go:106-117 | A run that hands out a lease. |
| `Lease.ReconfigureInstalls` | plugin.go:120-136 | When reconfigure installs its configuration, the current helper is one for its path. |
| `Lease.IdleHelpersAreClosed` | plugin.go:84-103 | A replaced helper on which nobody is counted is closed with the next two steps of the goroutine that waits for it. |
| `Plugin.ImagePlugin.AcquireHelper` | plugin.go:106-117 | A lease of the current slot with the configuration of its path, counted once; none iff there is no helper. |
| `Plugin.ImagePlugin.Reconfigure` | plugin.go:120-136 | Installs the configuration; keeps the slot iff there is one with the same path. |
| `Plugin.ImagePlugin.Shutdown` | plugin.go:139-147 | Closes the current slot at once, whatever leases it has. |
| `Control.TimeoutsEndInTime` | helper/control.py:22-37 | No wait once expired; a wait ends less than 1 ms after the deadline and reaches its maximum or the deadline. |
| `Control.RequestControl.Timeout` | helper/control.py:22-27 | Hands out exactly that wait, or the error. |
| `Control.RequestControl.Expired` | helper/control.py:35-37 | True iff cancelled or the deadline has come. |
| `Control.RequestControl.Register` | helper/control.py:39-45 | After a cancel the resource is closed and refused; before, it is kept open. |
| `Control.RequestControl.Unregister` | helper/control.py:47-50 | Removes the resource and closes nothing. |
| `Control.RequestControl.Cancel` | helper/control.py:52-61 | Sets the flag and closes every registered resource. |
| `ControlRaces.NextKeepsInv` | helper/control.py:39-61 | Every step of register, unregister and cancel keeps the invariant, also when the flag is set between the check and the insertion. |
| `ControlRaces.RunKeepsInv` | helper/control.py:39-61 | So does every run. |
| `ControlRaces.CancelLeavesNothingOpen` | helper/control.py:39-61 | Once a cancel has finished, every resource whose register call has ended is closed or was unregistered. |
| `ActiveControls.Service.Admit` | helper/main.py:95-99 | A new request gets a fresh control with its own deadline under its id. |
| `ActiveControls.Service.Finish` | helper/main.py:64-67 | Removes the entry only if it is this request's own control. |
| `ActiveControls.OnlyItsOwn` | helper/main.py:64-67 | Ending a request never removes another request's control, even under the same id. |
| `ActiveControls.Service.CancelTarget` | helper/main.py:71-79 | Reports whether the target is active; if so it is cancelled and all it had open is closed, and no other request is touched. |
| `ActiveControls.Service.CancelAll` | helper/main.py:101-105 | At the end every active request is cancelled and everything any of them had open is closed. |
| `Credentials.SortIsStable` | credentials.go:25 | The order in which credentials are offered is a stable sort by descending priority. |
| `Credentials.LoadCredentials` | credentials.go:20-63 | Selects, in that order, the usable entries that live long enough, each judged at its own moment. |
| `Credentials.PicksAreSound` | credentials.go:29-57 | Every selected token and proxy is the trimmed text of a usable entry, and what that entry stores expires, if it says so, more than 30 s after the validity asked for. |
| `Credentials.PicksAreComplete` | credentials.go:29-57 | No usable entry is passed over unless its token says it expires too soon. |
| `Credentials.PicksKeepOrder` | credentials.go:25-57 | The credentials come from distinct entries, in the order of the sorted entries. |
| `Executor.CeilSecondsIsCeiling` | executor.go:116-122 | The seconds given to the helper are the remaining time rounded up. |
| `Executor.HasRefreshedCredential` | executor.go:102-113 | True iff some current token was not among the previous ones. |
| `Executor.LoadForDeadline` | executor.go:60-70 | What an attempt may offer outlives the deadline by more than 30 s and leaves out no token that would. |
| `Executor.ExecuteHelper` | executor.go:37-99 | At most two calls, each with tokens that outlive the deadline and with the remaining time rounded up; a second call only after a 401 and with a new token; a call is missing only for want of time or of a new token that outlives the deadline by the margin and the time its selection took; the caller gets the last answer. |
| `Executor.TokensOutliveHelperDeadline` | executor.go:59-79 | A token that was sent outlives the helper's own deadline if delivery took at most 29 s, despite the round-up, and no wait the helper hands out ends more than 1 ms after it expires. |
| `TurnstileValues.SameKeyIffEqual` | helper/turnstile.py:136-139 | Two values name the same register iff op20 would find them equal. |
| `TurnstileValues.XorIsBitwise` | helper/turnstile.py:51 | The exclusive or sets exactly the bits in which the operands differ. |
| `TurnstileValues.XorUndoes` | helper/turnstile.py:51 | Applying it twice gives the code back. |
| `TurnstileValues.MaskTwice` | helper/turnstile.py:47-51 | Masking twice with the same key gives the text back whenever the first mask does not fail. |
| `TurnstileValues.OrderedMap.Add` | helper/turnstile.py:19-23 | Adds in place; the keys stay distinct and are those of the values. |
| `TurnstileValues.FirstOrderLastValue` | helper/turnstile.py:12-23 | After any additions each key is listed once, in the order of its first addition, with the value of its last. |
| `TurnstileMachine.Machine.Params` | helper/turnstile.py:95 | The contents of the named registers, or the KeyError. |
| `TurnstileMachine.Machine.Call` | helper/turnstile.py:153-160 | Calls terminate, by the number of arguments, and run the operation that Turnstile.Exec describes. |
| `TurnstileMachine.Machine.Execute` | helper/turnstile.py:156-162 | One turn of the loop, with whatever it raised before it was swallowed. |
| `TurnstileMachine.SolveToken` | helper/turnstile.py:54-163 | The in-place interpreter computes Turnstile.Solve. |
| `TurnstileResults.ExecIsFine` | helper/turnstile.py:92-147 | An operation called with closed values calls built-in operations only, directly or through others, and leaves only those in the registers. |
| `TurnstileResults.OnlyBuiltInsAreCallable` | helper/turnstile.py:153-162 | After any number of instructions of any program, every callable in a register is built in, and the next instruction returns or raises. |
| `TurnstileResults.ExecWrites` | helper/turnstile.py:64-151 | A call with k arguments, nested calls included, writes registers and the result at most ceil(k/2) times, changes no more registers than that, and makes at most k + 1 calls. |
| `TurnstilePrograms.BoundIsReached` | helper/turnstile.py:113-126 | For every k there is a program whose last instruction has k operands and makes exactly ceil(k/2) writes. |
| `TurnstileResults.CallsAreBounded` | helper/turnstile.py:156-162 | A whole program makes at most as many calls, nested ones included, as it has elements. |
| `TurnstileResults.RunsCompose` | helper/turnstile.py:156-162 | Running one program after another is running their concatenation. |
| `TurnstilePrograms.LeavesAreAtomic` | helper/turnstile.py:64-151 | An operation that calls no other returns or leaves registers and result alone. |
| `TurnstilePrograms.SettledBeforehand` | helper/turnstile.py:92-147 | Whether a call returns, and what it leaves behind if it does not, is settled by the registers before its first write. |
| `TurnstilePrograms.RaisesCleanlyIff` | helper/turnstile.py:113-126 | A call that raises leaves registers and result alone iff no op17 in its chain of calls has an unhashable first operand after a call that returned and wrote something. |
| `TurnstilePrograms.NoListsNoSpoils` | helper/turnstile.py:113-126 | In particular as long as no operand and no register but the one with the program holds a list or a dict, and nothing names that one. |
| `TurnstilePrograms.StartHoldsNames` | helper/turnstile.py:153-155 | Which the registers fulfil at the start, for every program. |
| `TurnstilePrograms.RaisingInstructionsLeaveEffects` | helper/turnstile.py:156-162 | A program of two instructions whose second raises and leaves a new register behind. |
| `TurnstileResults.TokensAreEncoded` | helper/turnstile.py:72-75 | A token is never empty and always the base64 form of some text. |
| `TurnstileResults.RaisesIffNotIterable` | helper/turnstile.py:156 | The interpreter raises iff the outermost value of the program is a number, a boolean or null. |
| `TurnstileResults.RunsTheProgramSent` | helper/turnstile.py:56-59 | A program masked with the key and encoded is the program that runs. |
| `TurnstilePrograms.XorTwice` | helper/turnstile.py:64-66 | Two op1 with the same operands restore the register iff the browser shows nothing else for the text or its masked form. |
| `TurnstileLaws.TokenSpellsItsPieces` | helper/turnstile.py:56-163 | A program that puts a text together from any pieces and outputs it makes the token the base64 form of the whole. |
| `TurnstileLaws.TextGrows` | helper/turnstile.py:77-83 | op5 with any registers in turn appends their texts in order, as long as the browser shows no intermediate text differently. |
| `TurnstileLaws.ListGrows` | helper/turnstile.py:77-81 | On a list it appends the contents in order as members. |
| `TurnstileLaws.OddOperandsOfOp5` | helper/turnstile.py:82-85 | A missing value before a text reads as undefined; two missing values give NaN. |
| `TurnstileLaws.ListsAreJoined` | helper/turnstile.py:42-43 | A list of texts reads as its members with commas between them. |
| `TurnstileLaws.StartIsSetUp` | helper/turnstile.py:153-155 | At the start every operation is in the register of its number, the program in 9, the page's window in 10 and the key in 16. |
| `TurnstileLaws.ConstantsAndCopies` | helper/turnstile.py:68-70 | op2 writes its operand; op8 (lines 101-103) copies a register; neither does anything else. |
| `TurnstileLaws.OutputIsEncoded` | helper/turnstile.py:72-75 | op3 makes the base64 form of its operand the result. |
| `TurnstileLaws.MaskingIsBitwise` | helper/turnstile.py:47-66 | op1 masks each character with one of the key in turn, bit by bit, and raises iff some masked code is beyond Unicode. |
| `TurnstileLaws.PathsAreJoined` | helper/turnstile.py:87-90 | op6 and op24 join two texts with a dot; op6 redirects the path of the document's location. |
| `TurnstileLaws.RedirectsIff` | helper/turnstile.py:89-90 | Only two pairs of texts have that path. |
| `TurnstileLaws.JsonRoundTrip` | helper/turnstile.py:105-111 | What op15 serialises op14 parses back, given that the library does. |
| `TurnstileLaws.Base64RoundTrip` | helper/turnstile.py:128-134 | What op19 encodes op18 decodes, likewise. |
| `TurnstileLaws.Op7Calls` | helper/turnstile.py:92-99 | op7 calls the operation in a register with the contents of others, and ignores a target that is neither an operation nor the one that sets properties. |
| `TurnstileLaws.Op7SetsProperties` | helper/turnstile.py:96-97 | With that one it puts a content into an object under a key, as the last key if it is new. |
| `TurnstileLaws.Op17Calls` | helper/turnstile.py:113-126 | op17 stores None after an operation that returns; what raises is not stored. |
| `TurnstileLaws.Op17Simulates` | helper/turnstile.py:117-124 | The browser's functions give a new object without keys, the names of the stored items, or a number. |
| `TurnstileLaws.Op17Ignores` | helper/turnstile.py:115-126 | Any other target is ignored. |
| `TurnstileLaws.Op20CallsIfEqual` | helper/turnstile.py:136-139 | op20 calls iff two registers name the same key, and does nothing otherwise. |
| `TurnstileLaws.Op23CallsIfDefined` | helper/turnstile.py:144-147 | op23 calls with its operands as they are unless the register holds None. |
| `TurnstileLaws.WordsGiveNoToken` | helper/turnstile.py:156-163 | A program that is a text or an object gives no token. |
| `InvalidToken.RecognisesExactlyMarkedPaths` | helper/backend.py:343-361 | True iff the string at some path contains one of the five patterns, once folded, and the path starts in error context or goes through a field named like an error or an object of an error type. |
| `InvalidToken.ContextIsMonotone` | helper/backend.py:349-361 | Error context never hides a finding. |
| `InvalidToken.OrderIsIrrelevant` | helper/backend.py:349-361 | The order of dict fields, at any depth, makes no difference. |
| `References.UniqueList.Append` | helper/backend.py:364-368 | Appends in place what is not there yet. |
| `References.SameMembers` | helper/protocol.py:345-349 | The list has exactly the non-empty members of what was appended. |
| `References.NoDuplicates` | helper/protocol.py:345-349 | It has each of them once. |
| `References.AppendIsFirstOccurrences` | helper/protocol.py:345-349 | Appending to first occurrences gives the first occurrences of the whole. |
| `References.Collector.Walk` | helper/backend.py:377-390 | The nested walk appends, in pre-order, what the traversal lists. |
| `References.ExtractReferences` | helper/backend.py:371-394 | The three lists are the first occurrences of the pre-order traversal. |
| `References.ConversationIdIsFirst` | helper/backend.py:397-411 | The conversation id is the first one the pre-order traversal names. |
| `References.ConcatOccurrences` | helper/protocol.py:256-261 | A list of events mentions what its parts mention, in order. |
| `References.FoldEvents` | helper/protocol.py:253-261 | Folding event by event gives the lists and the id of one walk over all events. |
| `References.BatchingIsIrrelevant` | helper/protocol.py:256-261 | So does any split into batches, for the lists. |
| `References.BatchedIdIsFirst` | helper/protocol.py:257 | And for the id. |
| `ReferencePaths.TraversesAllPathsInOrder` | helper/backend.py:377-391 | The traversal goes through all paths into the value, in lexicographic order, and takes at each what the value there contributes. |
| `ReferencePaths.SortedListsAreUnique` | helper/backend.py:377-391 | There is only one list of all paths in that order. |
| `ReferencePaths.FilesAreMentioned` | helper/backend.py:379-381 | A file is found iff it is not empty and the string at some path mentions it. |
| `ReferencePaths.SedimentsAreMentioned` | helper/backend.py:382 | So is a sediment. |
| `ReferencePaths.ImagesAreCarried` | helper/backend.py:384-386 | An image is found iff the object at some path is a finished image call whose result has it after its first comma, or as a whole. |
| `ReferencePaths.InOrderOfFirstOccurrence` | helper/backend.py:364-368 | The lists are in the order of the first occurrences. |
| `ReferencePaths.ConversationIdByPath` | helper/backend.py:397-411 | The conversation id is the one that the object at the lexicographically first naming path gives, and empty iff no path leads to one. |
| `Sse.IterSseJson` | helper/backend.py:317-340 | Yields the events of the lines read; raises 401 iff one of them reports an invalid token, after yielding all before it; times out only when the request has. |
| `Sse.ParseConcat` | helper/backend.py:317-340 | Parsing can be cut anywhere and resumed with the carried buffer. |
| `Sse.OtherLinesAreIgnored` | helper/backend.py:324-340 | Non-empty lines that are not data may stand anywhere. |
| `Sse.UnterminatedBlockIsDropped` | helper/backend.py:317-340 | A last block without its blank line is dropped. |
| `Sse.StreamRoundTrip` | helper/backend.py:317-340 | The printed objects come back in order, up to the first that reports an invalid token. |
| `Sse.StreamOfBlocks` | helper/backend.py:317-340 | Whatever the blocks of data lines contain: the events are the objects among their texts in order, up to the first that is an object with an invalid-token error or no JSON with an invalid-token pattern in it, and the parse fails iff there is one; other JSON, empty text and the end marker are skipped. |
| `Sse.JoinConcat` | helper/backend.py:326 | The lines of a block are joined with one line break between neighbours. |
| `Sse.StripTrims` | helper/backend.py:326 | Trimming takes white space off both ends and leaves none there. |
| `Sse.ResponseRoundTrip` | helper/protocol.py:63-67 | The body that handle_images writes reads back as its one chunk and a clean end. |
| `Pow.DecRoundTrip` | helper/pow.py:96 | The decimal digits of a number read back as the number. |
| `Pow.AssembleIsSerialisation` | helper/pow.py:92-96 | The fast assembly equals serialising the modified array iff the array has at least 11 elements. |
| `Pow.NumberInCandidate` | helper/pow.py:92-96 | The number tried can be read back from its candidate. |
| `Pow.CandidatesDiffer` | helper/pow.py:95-96 | No two numbers are tried on the same bytes. |
| `Pow.LexIsNumeric` | helper/pow.py:98 | Byte comparison is big-endian integer comparison on the common length. |
| `Pow.FromHexIsHexadecimal` | helper/pow.py:89 | The bytes read from hexadecimal text are, as a number, what its digits write, and so are the leading ones. |
| `Pow.ReadsIffPairs` | helper/pow.py:89 | Text is read iff it consists of pairs of hexadecimal digits with blanks between them. |
| `Pow.DifficultyIsNumeric` | helper/pow.py:89-98 | The leading bytes of the digest must be at most the number that the digits of the difficulty write; of a difficulty longer than the digest only as many bytes count. |
| `Pow.BuildProofToken` | helper/pow.py:86-100 | Finds the least number below 500000 whose digest meets the difficulty, with the token of the array that has the number and its half in it, or fails iff none does or the difficulty is not hexadecimal. |

## Left out

- HTTP, uploads, downloads, headers, cookies and browser fingerprints: an attempt is any of success, an upstream error with a status and a retryable flag, a helper error with a status, or another exception.
- The C ABI, host calls, `embedded_helper.go`, `resolveHelperPath` and the Windows module lookup: host answers are parameters of `Executor`.
- `routeModel`, `registrationInfo`, `parseConfig` and the field normalisation of `parse_image_request`: one-branch claims.
- SHA-256, SHA3-512, base64, JSON text, regular expressions, str(), lower(), trimming and the `exp` claim are parameters; laws that a result needs are hypotheses of that result. The image compositing and the multipart parsing are not modelled.
- Keys, not tokens: the scheduler identifies a credential with the digest of its token, so two tokens with the same SHA-256 digest would be one key.
- Error messages, and which of several errors lends a failure its text.
- Fairness of thread scheduling: the results are safety, bounds and quiescence.
- Memory below the steps: fields accessed under a lock change one critical section at a time, and the flag in `helper/control.py` is read and written atomically.
- uint64 ids are unbounded numbers; the wrap after 2^64 calls is not modelled.
- NaN, infinities and the rounding of floats in the interpreter; numbers are reals. Python's recursion limit, which would turn a very deep nested call into one more swallowed exception, is not modelled either.
- TurnstileMachine.Machine.Call: ordered maps live in a table indexed by identity, so aliasing between registers is by reference number rather than by Dafny reference.
- MultiplexerSafety.HelperKeepsInv: a cancel marks the request and does not stop it; the effect of a cancel on the work itself is in Control.
- MultiplexerDelivery.CancelsArrive: a request leaves the table of active requests in the step that computes its answer; in the source a cancel can still find it for a moment after that.
- MultiplexerResults.FailureHarmsCurrent: a kill is recorded in the critical section that decides on it and comes some time after; what a process does until then is in the model, since its steps do not depend on the record.
- MultiplexerResults.EndToEnd: a write to a pipe succeeds whole or not at all there; partial writes are in FrameWriters, which assumes that a broken pipe stays broken.
- MultiplexerResults.WaitersAreNotForgotten: a response that cannot be decoded is dropped by the reader, and its caller then waits for its context.
- Sse.IterSseJson: the lines are given; how the HTTP library splits the body into lines, and its decoding of bytes, are not modelled. The parser strips all leading white space of a data line, where the standard strips one space; the model follows the parser.
- Pow.BuildProofToken: arrays of at least 11 elements, of which `build_pow_config` returns one; its random and clock content is arbitrary.
- Plugin.HelperSlot.Release: a wait group panics when its counter would go below zero, which is a precondition there; `Lease.CountersCountLeases` shows that a lease always meets it.
- Framing.ReadFrameFrom: a payload is bytes; the parsing that follows, with the helper's refusal of what is not a JSON object (`helper/main.py:35-38`), is not modelled.
- Framing.WriteFrameTo: the helper's own writer (`helper/main.py:41-47`) raises from 2^32 bytes on, where the Go writer wraps; up to there both write the same.
- CredentialTable.StartOfRotation: all rotations are of lists of one length; requests that loaded different numbers of credentials share the cursor too.
- GenerateOne.Environment.Nap: a wait that is not cut short by a cancellation lasts as long as it was asked to.
- Executor.ExecuteHelper: decoding the body of the last answer, and turning its status of 400 or more into an error, come after the loop and are not modelled. A token is judged by the `exp` claim of the stored text and sent trimmed, as in the source.
