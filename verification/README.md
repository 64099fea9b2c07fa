# Notification pipeline: a verified model

The pipeline takes notifications over HTTP (the writer), carries them encrypted over a Pulsar topic, and pushes
them to a provider (the deliverer). This project models that path in Dafny and proves what it keeps, for every
input, every environment and every interleaving.

`dafny verify dfyconfig.toml` checks everything.

## What is modelled

**Deliverer.** `Retry` is the backoff iterator, with Go's 64-bit wrap-around written out. `Dispatching` is one
dispatch as a pure function of what the environment answers; `Dispatcher` is the dispatcher as it is written, a
loop over a mutable recorder and mutable counters (`Ledger`), proved to refine that function. `DispatchTiming`
bounds its sleeps and its duration, `LatePushes` how long after an expiry it can still push. `ErrorTrees` holds Go
error values as trees, with `errors.As` over them. `Sandbox` and `Pushover` are the two providers. `Consumer` is the
receive, handle, acknowledge loop of one worker. `Pool` is N such workers over one shared subscription as an
interleaved step system with publishing, cancellation, reader errors, crashes and redelivery; each outcome it records
is proved to be the one the sequential dispatch records.

**Keys.** `KeyNames` is the in-place filter that reads the list of active key names, `Keys` the key directory and
the start-up gate, `Rotation` the key rotation runbook as a protocol over any number of writer and deliverer
replicas, each with its own directory, and a live backlog. It gives the weakest condition under which each step
is safe and shows that the runbook's rules imply it; `RotationExamples` holds two ways to misread them. `Deployment`
joins the protocol to the worker pool. Key names are resolved to cleaned paths, as the code does, and a message is
opened only by the private key of the public key it was encrypted to.

**Writer.** `Ingest` is validation against a declared rule set and the accept path, `Bearer` the token file and its
index, `HttpServer` the chain from request to response. `EndToEnd` joins the writer to the deliverer.

`Text` and `Notifications` hold what they share: the string operations and the canonical message.

Clock readings, sleep results, random draws, provider responses, publisher answers, drawn ids and body decoding
are parameters or streams; every statement holds for all of them.

## Where the code differs from its documentation

The model follows the code.

- Expiry is tested once, before the retry loop (`internal/deliverer/dispatcher/dispatcher.go:95`), so a push can be
  made after the expiry (`LatePushes.DeliveredAfterExpiry`). `LatePushes.LatePushIff` gives the exact margin that
  rules it out, with and without a draw of 1 (`rand.Float64` stays below it). The outcome of an expired notification
  carries the time of the test.
- Cancellation during a backoff is recorded as `retry-budget-exhausted` with budget left
  (`Dispatching.GivenUpEarlyIff`), and the message is then acknowledged.
- `internal/pulsarlib/pulsarlib.go:85-90` asks for an undecryptable message to be acknowledged. A policy violation
  arrives without its message, so it cannot be (`Consumer.RunAcknowledges`): it stays in the backlog and can be
  recorded again and again, never under its id (`Pool.UnopenableStays`, `Pool.ViolationsRepeat`). The Pulsar adapter
  never returns the violation error at all (`internal/pulsarlib/apachepulsar.go:146-158`): with it a decrypt failure
  ends the worker, and one such message can end them all (`Pool.PoolStopsIff`).
- The first value of `Next` is discarded; sleeping starts at the second attempt, whose base is already twice the
  initial backoff. `Next` does not return 0 first, as its comment says (`Retry.FirstBackoffZeroIff`).
- The backoff equals the documented capped doubling at every attempt only if a doubling reaches the cap inside int64.
  Otherwise the base turns negative at some attempt (`Retry.BackoffExactIff`, `Retry.LongestCapOverflows`), within a
  budget of N exactly if Initial·2^(N-1) leaves int64 as well (`Retry.BudgetExactIff`). An initial backoff below 2^62 ns
  with a cap up to 2^62 ns is never affected; one of 2^62 ns always is, from the second attempt
  (`Retry.LargeInitialOverflows`). The bounds on sleeps and durations hold all the same.
- `Dispatch` does not call `retry.Classify`; `ErrorTrees.ClassifiersAgreeIff` says exactly where the two orders part.
- The sandbox's `Attempts()` counts a scripted success twice (`Sandbox.ScriptedSuccessCountsTwice`) and an unscripted
  nil notification not at all.
- `Validate` looks at neither edge white space of a title, nor the sound, nor whether the caller set the server's
  fields, and it takes some lengths in bytes that the data model gives in characters. `Ingest.AcceptedIsDocumentedIff`
  and `Ingest.DocumentedIsAcceptedIff` say exactly where the two schemas part.
- The expiry is held against the caller's `created_at`, not the assigned one. What is published can therefore break
  the schema's own rule (`specs/001-notification-pipeline/data-model.md:46`): exactly when it expires before the
  assigned `created_at` (`EndToEnd.AcceptedMeetsSchemaIff`).
- More than one `Idempotency-Key` header reaches an error handler that is not set; the panic becomes a plain 500
  (`HttpServer.RepeatedKeyFails`).
- A request refused by the authentication middleware is not counted as a submission, so the handler's
  `auth_failed` label never occurs in the assembled server (`HttpServer.ExchangeConsistent`).
- The runbook removes a key once no pending message references it. A weaker reading, that no message may be left on
  the old key alone, can fail over two rotations (`RotationExamples.OldKeyOnlyRuleFails`);
  `Rotation.OldKeyOnlySafeIff` says exactly when it does not.
- The runbook speaks of key names, the code of files: `v1` and `./v1` are one key. The rule about removal is proved for
  files. Read by names it says the same if and only if no name in use is another spelling of the unused one
  (`Rotation.NamesSufficeIff`), so always for names without a slash. Otherwise the removal is safe if and only if
  everything still opens by a name that leads elsewhere (`Rotation.RemovalSafeIff`), which can fail
  (`RotationExamples.PathNamesDeceive`).

## Model

| member | source | states |
|---|---|---|
| Retry.Iterator.Next | internal/deliverer/retry/retry.go:107-121 | One call advances the attempt by one and returns the truncated product of the draw and `Base`; the ghost result counts the rounds of the doubling loop. `base *= 2` wraps at 64 bits. |
| Retry.BaseIsCappedDoubling | internal/deliverer/retry/retry.go:107-119 | For settings that fit int64, the loop's result at every attempt is min(Initial·2^(attempt-1), Max). |
| Retry.BackoffExactIff | internal/deliverer/retry/retry.go:107-119 | That closed form holds at every attempt if and only if Initial is 0 or some doubling of Initial reaches Max while still an int64. |
| Retry.BudgetExactIff | internal/deliverer/retry/retry.go:93-119 | With a budget of N attempts the closed form holds at each of them if and only if that condition holds or Initial·2^(N-1) is still an int64. |
| Retry.BudgetNeverShrinksIff | internal/deliverer/retry/retry.go:93-119 | The same is the condition for backoffs that never shrink over the budget. |
| Retry.NoCapFitsBudget | internal/deliverer/retry/retry.go:55-80 | Five attempts from 500 ms with the longest cap: no doubling reaches it, and the budget fits all the same. |
| Retry.BaseBounded | internal/deliverer/retry/retry.go:107-119 | For every in-range policy, whether doublings wrap around or not, the base is at most Max and at most Initial·2^(attempt-1). |
| Retry.OverflowingAttempt | internal/deliverer/retry/retry.go:109-116 | Otherwise there is an attempt whose computed base is negative. |
| Retry.LongestCapOverflows | internal/deliverer/retry/retry.go:109-116 | A concrete policy that fails: with 1 ns and the longest cap of int64 the base is negative within a budget of 64 attempts. |
| Retry.FirstBackoffZeroIff | internal/deliverer/retry/retry.go:99-120 | The first value is drawn like any other: it is 0 if and only if the draw times min(Initial, Max) is below one nanosecond. |
| Retry.ModerateSettingsFit | internal/deliverer/retry/retry.go:107-119 | All settings with Initial < 2^62 and Max ≤ 2^62 meet that condition. |
| Retry.LargeInitialOverflows | internal/deliverer/retry/retry.go:109-116 | At Initial = 2^62 no cap fits: whatever Max is, the base of the second attempt is negative. |
| Retry.BaseNeverShrinks | internal/deliverer/retry/retry.go:99-119 | The base is non-decreasing in the attempt, never above Max, and stays at Max once there. |
| Retry.DoublingsBounded | internal/deliverer/retry/retry.go:110-116 | For any settings, the doubling loop runs at most min(attempt-1, j) rounds, j being any doubling that, as int64 leaves it, is at or above the cap. |
| Retry.RoundsBoundedIff | internal/deliverer/retry/retry.go:110-116 | For any settings, some bound holds for the rounds at every attempt if and only if one of the first 64 doublings is such a one. |
| Retry.LargeInitialRoundsGrow | internal/deliverer/retry/retry.go:110-116 | For 2^62 ns and the longest cap none is: every attempt makes attempt-1 rounds. |
| Retry.JitterWithinBase | internal/deliverer/retry/retry.go:120 | A draw from the unit interval gives a backoff in [0, base]; the draw 1 gives the base itself. |
| ErrorTrees.AsFindsHeld | internal/deliverer/provider/provider.go:40-72 | On every tree of wraps and joins `errors.As` finds a kind exactly when a node of it is outside the hidden causes, or when a marked error implies the sentinel. |
| ErrorTrees.ClassifiersAgreeIff | internal/deliverer/retry/retry.go:28-42 | On every error tree `Classify` and the order `Dispatch` uses agree, except exactly on trees with a `PermanentError` next to a transient mark and on trees with a bare `ErrPermanent` and neither. |
| ErrorTrees.ClassifiersAgreeOnChains | internal/deliverer/provider/provider.go:40-72 | On unjoined chains they agree if and only if the chain does not end in a bare `ErrPermanent`. |
| ErrorTrees.CauseIsHidden | internal/deliverer/provider/provider.go:54-72 | The stored cause of a marked error changes neither classification, whatever it is. |
| ErrorTrees.ClassifiersPart | internal/deliverer/dispatcher/dispatcher.go:176-200 | One smallest tree of each of the two families on which they differ. |
| Ledger.Recorder.Record | internal/deliverer/outcomes/outcomes.go:43-49 | Recording appends exactly this outcome. |
| Ledger.Metrics.RecordConsumed | internal/metrics/metrics.go:138-141 | Adds one to the consumed counter and changes no other instrument. |
| Ledger.Metrics.RecordOutcome | internal/metrics/metrics.go:144-161 | Counts the outcome, puts a positive attempt count into the histogram, and counts a decrypt failure exactly for that reason. |
| Ledger.Metrics.RecordProviderAttempt | internal/metrics/metrics.go:164-170 | The provider-attempt total and this class rise by one; every other class and every other instrument stays as it was. |
| Ledger.RecordingReconciles | internal/metrics/metrics.go:144-161 | Recording an outcome and counting it keeps log and counters reconciled: outcome total, decrypt failures and the attempts histogram equal what the log says. |
| Ledger.CountingAttempt | internal/metrics/metrics.go:164-170 | The same for any counters, of any class. |
| Dispatching.FirstStopFixesOutcome | internal/deliverer/dispatcher/dispatcher.go:132-200 | The first attempt within the budget that succeeds, fails for good or whose sleep fails fixes status, reason, provider response, attempt count and last time of the outcome. |
| Dispatching.NoStopExhaustsBudget | internal/deliverer/dispatcher/dispatcher.go:203-214 | Without such an attempt the outcome is `retry-budget-exhausted` with max(MaxAttempts, 0) attempts and the last failure's text. |
| Dispatching.DeliveredIff | internal/deliverer/dispatcher/dispatcher.go:161-173 | A dispatch delivers if and only if some attempt within the budget succeeds and nothing stopped before it. |
| Dispatching.AttemptsAreCounted | internal/deliverer/dispatcher/dispatcher.go:95-214 | On every exit the recorded attempts are the pushes made, at most the budget, under the notification's id; only a started, unfinished budget can be aborted. |
| Dispatching.OnlyLastIsFinal | internal/deliverer/dispatcher/dispatcher.go:161-196 | No attempt but the last of a dispatch is final, and the outcome says delivered exactly when the last was accepted. |
| Dispatching.GivenUpEarlyIff | internal/deliverer/dispatcher/dispatcher.go:132-200 | `retry-budget-exhausted` is recorded with budget left if and only if the first stop within the budget is a failed sleep, or a permanent error before the last attempt that carries this very reason. |
| Dispatching.GivenUpEarlyHappens | internal/deliverer/dispatcher/dispatcher.go:135-150 | One concrete dispatch of each kind, each with one attempt of five. |
| Dispatching.RecordedTimes | internal/deliverer/dispatcher/dispatcher.go:128-158 | First and last time are those of the attempts made, and one and the same reading when none was made. |
| Dispatching.CountAttemptsTotal | internal/deliverer/dispatcher/dispatcher.go:161-198 | The attempts of a dispatch raise the provider-attempt total by exactly their number and no other counter. |
| Dispatcher.AfterNextTurn | internal/deliverer/dispatcher/dispatcher.go:132-158 | One turn of the loop seen from the environment: one draw, a sleep of the drawn backoff unless it is the first turn, two clock readings and one push. |
| Dispatcher.Dispatcher.Dispatch | internal/deliverer/dispatcher/dispatcher.go:89-217 | For every environment the method records the one outcome and makes the pushes, sleeps, clock reads and counter updates that the pure dispatch function gives; only a nil notification fails, recording nothing. |
| Dispatcher.Dispatcher.Route | internal/deliverer/dispatcher/dispatcher.go:95-127 | Expired, unresolvable, or the retry loop, in that order, each with its one outcome. |
| Dispatcher.Dispatcher.RetryLoop | internal/deliverer/dispatcher/dispatcher.go:124-217 | The loop's four exits refine the recursive run: same pushes, same outcome, same use of sleeps, draws and clock. |
| Dispatcher.Dispatcher.BackOff | internal/deliverer/dispatcher/dispatcher.go:133-151 | Advances the iterator and sleeps only from the second attempt on. |
| Dispatcher.Dispatcher.PushOnce | internal/deliverer/dispatcher/dispatcher.go:153-158 | Reads the clock before and after exactly one push. |
| Dispatcher.Dispatcher.Settle | internal/deliverer/dispatcher/dispatcher.go:161-200 | A response either ends the loop with its recorded outcome or leaves the text kept for a later give-up; it is counted in its class either way. |
| Dispatcher.Dispatcher.RecordExhausted | internal/deliverer/dispatcher/dispatcher.go:203-214 | Records the give-up outcome of the run. |
| DispatchTiming.SleepsBounded | internal/deliverer/retry/retry.go:107-121 | For every in-range policy any number of sleeps keeps the loop at most min(count·Max, Initial·2^(count+1) - 2·Initial); as long as the budget fits, that time is the sum of the sleeps. |
| DispatchTiming.DispatchSleepBounded | internal/deliverer/dispatcher/dispatcher.go:132-151 | The same for all sleeps one dispatch asks for, for its attempt budget, on every exit. |
| DispatchTiming.DispatchDurationBounded | internal/deliverer/dispatcher/dispatcher.go:132-171 | For every in-range policy: with pushes of at most P and pauses of at most the backoff asked for, the recorded first and last attempt are at most N·P plus the ceiling apart. |
| DispatchTiming.FirstNotAfterLast | internal/deliverer/dispatcher/dispatcher.go:128-158 | For any clock that does not go back, the recorded first attempt is not after the last. |
| DispatchTiming.DefaultPolicyCeiling | internal/deliverer/retry/retry.go:68-80 | Under the default policy one dispatch sleeps at most 15 s. |
| DispatchTiming.ZeroBackoffNeverAborts | internal/deliverer/dispatcher/dispatcher.go:60-72 | With the default sleep a dispatch whose backoffs are zero cannot be aborted by cancellation. |
| LatePushes.LatePushIff | internal/deliverer/dispatcher/dispatcher.go:95-158 | For every policy, lead and push time, and for random sources that can return 1 as for those that, like the default, stay below: a push after the expiry, and even a delivery, is possible if and only if the expiry leaves less than the lead, N-1 pushes and the longest sleeps. |
| LatePushes.NoLaterPush | internal/deliverer/dispatcher/dispatcher.go:132-158 | No push of a dispatch that keeps the pace starts later than that, whatever the environment answers. |
| LatePushes.CeilingIsEnough | internal/deliverer/dispatcher/dispatcher.go:95-158 | A margin of the lead, N-1 pushes and the sleep ceiling rules out every push after the expiry. |
| LatePushes.DeliveredAfterExpiry | internal/deliverer/dispatcher/dispatcher.go:231-240 | A concrete dispatch, tested at its very expiry, that delivers ten nanoseconds after it. |
| Sandbox.Provider.Push | internal/deliverer/provider/sandbox/sandbox.go:51-66 | The answer is the script's for this call number, else success for a real notification; the delivered list grows exactly on success. |
| Sandbox.Provider.Delivered | internal/deliverer/provider/sandbox/sandbox.go:68-75 | Exactly the notifications answered with success, in call order. |
| Sandbox.Provider.Attempts | internal/deliverer/provider/sandbox/sandbox.go:77-83 | What the provider counts: its calls plus the scripted successes minus the unscripted nil notifications. |
| Sandbox.AttemptsExactly | internal/deliverer/provider/sandbox/sandbox.go:77-83 | `Attempts()` is the number of calls plus the scripted successes minus the unscripted nil notifications. |
| Sandbox.AttemptsIsCallsIff | internal/deliverer/provider/sandbox/sandbox.go:77-83 | On real notifications it is the number of calls if and only if no nil script entry was reached. |
| Sandbox.ScriptedSuccessCountsTwice | internal/deliverer/provider/sandbox/sandbox.go:77-83 | The smallest double count: one call under a script with one nil entry counts as two. |
| Pushover.FindRecipientRejection | internal/deliverer/provider/pushover/pushover.go:161-169 | The loop finds a rejection exactly when some error mentions user, token or device in any case. |
| Pushover.ExchangeClasses | internal/deliverer/provider/pushover/pushover.go:127-159 | A push that gets past the guards succeeds exactly on a 2xx with JSON status 1, fails for good exactly on 400, 401 and 403, and is retried on everything else. |
| Pushover.ReasonIff | internal/deliverer/provider/pushover/pushover.go:71-159 | What a recorded reason says: recipient, payload or auth exactly when the first exchange that is not retried is a 400 that names a recipient, a 400 that does not, or a 401 or 403; `retry-budget-exhausted` exactly when none was in reach. |
| Pushover.PushoverDeliversIff | internal/deliverer/provider/pushover/pushover.go:71-159 | Dispatch over Pushover delivers if and only if the first response that is not merely retried is a success, within budget and with no failed sleep before it. |
| Consumer.Consumer.Run | internal/deliverer/consumer/consumer.go:73-101 | For every inbox the loop ends with the books, acknowledgements and result of the pure run, and refuses (nacks) nothing. |
| Consumer.Consumer.Take | internal/deliverer/consumer/consumer.go:80-99 | One turn of the loop: a violation is recorded without an acknowledgement, a message is handled and then acknowledged. |
| Consumer.Consumer.Handle | internal/deliverer/consumer/consumer.go:103-130 | Malformed bodies get one payload-rejected outcome under the property id; others are dispatched under their own id or the property. |
| Consumer.Consumer.RecordPolicyViolation | internal/deliverer/consumer/consumer.go:135-144 | One `encryption-policy-violation` outcome and its counters. |
| Consumer.HandledParts | internal/deliverer/consumer/consumer.go:103-130 | Whatever the message, handling adds exactly one outcome, counts exactly its attempts and pushes exactly that often, under the message's id. |
| Consumer.RunAcknowledges | internal/deliverer/consumer/consumer.go:73-101 | A run acknowledges exactly the messages it took, in order, and stops only for cancellation or a reader error; a policy violation is never acknowledged. |
| Consumer.RunConserves | internal/deliverer/consumer/consumer.go:73-144 | After any run: recorded attempts = pushes = provider-attempt counts; outcomes = consumed + violations = outcome counter; decrypt failures = outcomes with that reason. |
| Consumer.OneOutcomePerItem | internal/deliverer/consumer/consumer.go:73-144 | A run records exactly one outcome per item taken, in order, each under that item's id. |
| Consumer.SandboxHoldsDelivered | internal/deliverer/provider/sandbox/sandbox.go:51-75 | With a scripted sandbox and one worker, the delivered list is exactly the delivered messages, in order. |
| Consumer.ProviderHoldsDelivered | internal/deliverer/provider/sandbox/sandbox.go:51-83 | The same for the provider object called once for each push; its `Attempts()` is the number of pushes if and only if no nil script entry was reached. |
| Pool.StepKeepsInv | cmd/deliverer/main.go:125-149 | Every step of every worker, every publish, cancel, crash and redelivery keeps all ten parts of the pool's invariant. |
| Pool.Reachable | cmd/deliverer/main.go:125-149 | The invariant holds after every schedule of any number of workers. |
| Pool.ExactlyOnePlace | internal/deliverer/consumer/consumer.go:73-101 | In every reachable state a published message is once in the backlog, or with exactly one worker, or acknowledged exactly once. |
| Pool.AckedHasOutcome | internal/deliverer/consumer/consumer.go:91-99 | No message is acknowledged before an outcome for it is recorded, crashes included. |
| Pool.OutcomesCarryId | internal/deliverer/consumer/consumer.go:110-129 | In every reachable state each outcome of a message carries that message's own id, or its property when the body gives none. |
| Pool.ActionJustified | internal/deliverer/dispatcher/dispatcher.go:89-217 | Whatever the interleaving, the outcome a worker records is the one the sequential dispatch gives for its message and answers. |
| Pool.UnopenableStays | internal/deliverer/consumer/consumer.go:75-90 | A message no key opens may be handed out any number of times: it stays in the backlog, is never acknowledged, no outcome is recorded under it, and those it causes carry no id. |
| Pool.ViolationNeedsUnopenable | internal/deliverer/consumer/consumer.go:80-87 | No violation is ever counted unless such a message is pending. |
| Pool.ViolationsRepeat | internal/deliverer/consumer/consumer.go:80-87 | One such message can be recorded as a violation any number of times. |
| Pool.PoolStopsIff | internal/pulsarlib/apachepulsar.go:146-158 | With the Pulsar adapter's plain error, and only then, all workers can come to return without a cancellation or a reader fault, the backlog left as it is: if and only if a message no key opens is pending. |
| Pool.ReturnNeedsUnopenable | cmd/deliverer/main.go:133-139 | In every reachable state without reader faults a worker has returned only if the pool was cancelled or the adapter has such a message. |
| Pool.OneOutcomePerAck | internal/deliverer/consumer/consumer.go:73-130 | Without crashes an acknowledged message has exactly one outcome and one acknowledgement, and at quiescence no message has an outcome without one. |
| Pool.QuiescentBooksBalance | internal/metrics/metrics.go:138-170 | At quiescence of any crash-free interleaving: attempts recorded = pushes = provider attempts; outcomes = consumed + violations = outcome counter; decrypt failures = outcomes with that reason. |
| Pool.QuiescentDespiteCrashes | internal/deliverer/consumer/consumer.go:91-99 | With crashes: a message has an outcome for each acknowledgement and at most one more for each crash of a worker that held it; an id was accepted as often as recorded delivered, and at most once more for each crash of a worker dispatching it. |
| Pool.BooksDespiteCrashes | internal/metrics/metrics.go:138-170 | With crashes: the counters match the log, and each crash costs at most one handling and one budget of pushes. |
| Pool.QuiescentDeliveriesMatch | internal/deliverer/dispatcher/dispatcher.go:161-173 | At quiescence the multiset of ids the provider accepted is the multiset of ids recorded as delivered. |
| Pool.SandboxHoldsDeliveredUnordered | internal/deliverer/provider/sandbox/sandbox.go:68-75 | N workers over one sandbox: at quiescence it holds exactly the delivered messages as a multiset. |
| Pool.DrainingShrinks | cmd/deliverer/main.go:141-148 | Every step of a worker but a receive or a crash brings it nearer to its return. |
| Pool.DrainingBounded | cmd/deliverer/main.go:141-148 | In every order of receive-free, crash-free steps, all workers together take no more steps than the work they have left. |
| Pool.PoolDrains | cmd/deliverer/main.go:141-148 | Once cancelled, or stopped by the adapter, all workers can be run to their return within that bound. |
| Pool.StuckIsReturned | cmd/deliverer/main.go:141-148 | Once cancelled, or stopped by the adapter, workers that can take no such step, reader faults aside, have all returned. |
| Pool.EveryMaximalRunReturns | cmd/deliverer/main.go:141-149 | So from then on every order of their steps is bounded by the work left, and one that cannot be continued ends with all returned: what the shutdown waits for. |
| Pool.ReturnedHoldsNothing | cmd/deliverer/main.go:141-149 | When all workers have returned every published message is in the backlog or acknowledged, and not both. |
| KeyNames.CompactInPlace | internal/writer/config/config.go:34-41 | The in-place filter over the shared backing array leaves trim-then-drop-empty of the original entries in front and every entry behind untouched: nothing unread is overwritten. |
| KeyNames.EncryptionKeyNames | internal/writer/config/config.go:32-42 | Returns that list for every setting; every entry is trimmed, non-empty and comma-free. |
| KeyNames.ParseJoin | internal/writer/config/config.go:32-42 | Parsing the comma-join of any list of names returns that list. |
| KeyNames.ParseJoinParse | internal/writer/config/config.go:32-42 | Parse, join, parse gives what the first parse gave. |
| KeyNames.ActiveIffListed | internal/writer/config/config.go:30-42 | A name is active exactly when some comma-separated entry trims to it and it is not empty. |
| Text.TrimSpaceSlice | internal/writer/config/config.go:36 | `TrimSpace` removes exactly the outer white space. |
| Keys.LoadKeySet | internal/pulsarlib/keys.go:60-73 | Succeeds exactly on a non-empty list of readable names, returning it, and otherwise blames the first unreadable name. |
| Keys.FilesShared | internal/pulsarlib/keys.go:34-50 | Two names lead to one public and one private key file exactly when their cleaned paths have the same directory and last part; public and private files never collide. |
| Keys.PlainNamesSeparate | internal/pulsarlib/keys.go:34-50 | Different names without a slash never share a key file. |
| Keys.PathsCanShare | internal/pulsarlib/keys.go:34-50 | A name and the same name after a slash or a dot and a slash do. |
| Rotation.StepKeepsIff | docs/key-rotation.md:45-106 | From a safe state, each operator or traffic step leads to a safe state if and only if its condition holds; key files have contents, so writing one over another has a condition as well. |
| Rotation.RunbookKeeps | docs/key-rotation.md:45-106 | Every step that respects the runbook's order meets that condition. |
| Rotation.RunbookIsSafe | docs/key-rotation.md:36-108 | After any run that follows the runbook, over any number of rotations, replicas and interleavings, no policy violation and no failed publish happened, and every pending message and running writer is served. |
| Rotation.UnsafeBreaks | internal/pulsarlib/pulsarlib.go:85-90 | From every unbroken state a run can lead to that is not safe, at most one publish and one consume reach a violation or a failed publish. |
| Rotation.ShapeKept | docs/key-rotation.md:36-108 | What that asks of a state, names on every message and every running writer, is kept by every step whatever operators do. |
| Rotation.SafeIffTrafficUnbroken | docs/key-rotation.md:36-108 | A state is safe if and only if no run of ordinary traffic from it meets a violation or a failed publish. |
| Rotation.OtherwiseBreaks | docs/key-rotation.md:50-52 | So a step that fails its condition is at most one publish and one consume away from a violation or a failed publish: the condition is the weakest. |
| Rotation.OldKeyOnlySafeIff | docs/key-rotation.md:78-106 | If a key may go once no message is on it alone, a removal is safe if and only if each pending message has another key that the deliverer still holds. |
| RotationExamples.OldKeyOnlyRuleFails | docs/key-rotation.md:78-106 | A run over two rotations that keeps that rule and every other one, and ends in a violation. |
| Rotation.DirectoryKeepsIff | internal/pulsarlib/keys.go:43-50 | Changing or adding one deliverer directory is safe exactly when the new directory opens everything sent and pending. |
| Rotation.UnusedKeyServes | docs/key-rotation.md:99-106 | Removing a private key file that no running writer's names and no pending message's names lead to closes nothing. |
| Rotation.RemovalSafeIff | docs/key-rotation.md:99-106 | Whatever rule led to it, removing a private key file is safe if and only if all that running writers send and all that is pending opens on that deliverer by a name that does not lead to the file. |
| Rotation.NamesSufficeIff | docs/key-rotation.md:99-106 | Looking at names, as the runbook does, is looking at files if and only if the name is in use or no name in use is another spelling of it. |
| Rotation.PlainNamesSuffice | docs/key-rotation.md:99-106 | That is so as long as key names contain no slash. |
| RotationExamples.SubdirectoryNamesSuffice | docs/key-rotation.md:99-106 | And also when every name in use is the same path. |
| RotationExamples.PathNamesDeceive | internal/pulsarlib/keys.go:43-50 | A concrete safe system in which nobody uses the name v1 and removing it breaks a writer that uses ./v1. |
| Rotation.WriterKeepsIff | docs/key-rotation.md:63-72 | Replacing one writer replica's state is safe exactly when that replica is. |
| Deployment.RunbookRecordsNoViolation | docs/key-rotation.md:36-108 | Writers, changing key directories and the worker pool in one system: while operators follow the runbook, no violation outcome is recorded, no publish fails, and every pending or held message opens on every deliverer. |
| Deployment.RunProjects | docs/key-rotation.md:36-108 | The pool then goes through a run it could make if every message could be opened, so whatever holds of the pool's runs holds while keys change. |
| Deployment.DeploymentBalances | internal/metrics/metrics.go:138-170 | In particular, without crashes and at quiescence: outcomes = consumed = outcome counter; attempts = pushes = provider attempts; accepted = recorded as delivered. |
| Deployment.DeploymentAccounts | internal/deliverer/consumer/consumer.go:73-130 | And in every state, crashes or not: each message in exactly one place, none acknowledged before an outcome, every outcome under its message's id. |
| Deployment.StepKeepsSound | cmd/deliverer/main.go:125-149 | Each operator step of the runbook, send, worker action, crash and cancellation keeps the keys safe, the pool's whole invariant, and the topic's and the pool's view of the backlog the same. |
| Deployment.RunKeepsSound | docs/key-rotation.md:36-108 | From any such state, every run in which operators follow the runbook leads to one. |
| Deployment.HeldOpens | internal/deliverer/consumer/consumer.go:91-99 | A message a worker holds could still be opened on its host if it were handed out again. |
| Deployment.ReceivesSucceed | internal/deliverer/consumer/consumer.go:75-90 | In such a system no receive meets a message that cannot be opened. |
| Ingest.Validate | internal/writer/ingest/ingest.go:143-155 | No error exactly for a notification that meets the schema; otherwise one field error per violation and nothing else, each with a published code, whatever order the data map is read in. |
| Ingest.ValidateContent | internal/writer/ingest/ingest.go:157-197 | Appends one error for each broken content rule and no other. |
| Ingest.ValidateData | internal/writer/ingest/ingest.go:189-196 | The loop over the data map, in arbitrary order, reports each bad key and each long value once. |
| Ingest.ValidateTitle | internal/writer/ingest/ingest.go:165-172 | The first case of the switch that applies, and only it, is reported. |
| Ingest.ValidateBody | internal/writer/ingest/ingest.go:173-178 | Likewise for the body. |
| Ingest.ValidateNumbers | internal/writer/ingest/ingest.go:179-188 | Priority range and number of data entries. |
| Ingest.ValidateEntry | internal/writer/ingest/ingest.go:190-195 | One data entry: key and value are judged independently. |
| Ingest.ValidateTarget | internal/writer/ingest/ingest.go:199-208 | Unset, Pushover or another arm, each with exactly its errors. |
| Ingest.ValidatePushover | internal/writer/ingest/ingest.go:210-246 | An arm without a message misses its key; otherwise one error per broken field rule. |
| Ingest.ValidateUserKey | internal/writer/ingest/ingest.go:217-222 | Empty and malformed user keys, one error. |
| Ingest.ValidateDevice | internal/writer/ingest/ingest.go:223-230 | Device length and characters, judged independently. |
| Ingest.ValidateUrl | internal/writer/ingest/ingest.go:231-237 | URL length, else absoluteness. |
| Ingest.ValidateUrlTitle | internal/writer/ingest/ingest.go:238-245 | URL title length, and the URL it requires. |
| Ingest.ValidateTimestamps | internal/writer/ingest/ingest.go:248-254 | Expiry before the caller's own created_at. |
| Ingest.ValidateIdempotency | internal/writer/ingest/ingest.go:256-260 | Idempotency key length in bytes. |
| Ingest.WellFormedIffNothingBroken | internal/writer/ingest/ingest.go:143-260 | Breaking none of the rules is the same as meeting the schema written as one condition. |
| Ingest.OrderDoesNotMatter | internal/writer/ingest/ingest.go:189-196 | Two reports on one notification are the same multiset. |
| Ingest.ReportedCodesPublished | internal/writer/httpserver/server.gen.go:48-77 | Every code a rule reports is a member of the published enum. |
| Ingest.UnreadFields | internal/writer/ingest/ingest.go:143-155 | For every notification, validation reads neither the sound nor the caller's id and service: changing them changes no report. |
| Ingest.AcceptedIsDocumentedIff | specs/001-notification-pipeline/data-model.md:41-118 | What the code accepts is what the data model asks for if and only if the server's fields are absent, the title has no outer white space and the sound has at most 25 characters. |
| Ingest.DocumentedIsAcceptedIff | specs/001-notification-pipeline/data-model.md:41-118 | What the data model asks for is accepted if and only if values, url, url title and idempotency key also fit their limits in bytes. |
| Ingest.SchemasPart | internal/writer/ingest/ingest.go:189-260 | A request of each kind: documented and refused, accepted and not documented. |
| Ingest.Ingester.Accept | internal/writer/ingest/ingest.go:93-127 | Every effect on the notification, the publisher and the caller is one the effect relation allows; a nil notification is refused and publishes nothing. |
| Ingest.AtMostOnePublish | internal/writer/ingest/ingest.go:93-127 | At most one publish, exactly when valid, identified and encodable, of the encoding of the stamped notification under its id; acceptance exactly when that publish succeeded. |
| Ingest.ServerFieldsIgnored | internal/writer/ingest/ingest.go:111-121 | Callers cannot change what is published by setting id, service or created_at; created_at can at most make the notification invalid. |
| Ingest.StampedWellFormedIff | internal/writer/ingest/ingest.go:111-113 | What an accepted notification is turned into meets the schema if and only if it has no expiry or one not before the assigned created_at. |
| Ingest.AnyExpiryPasses | internal/writer/ingest/ingest.go:248-254 | Any expiry is accepted, both without a caller's created_at and with one equal to it. |
| Ingest.TruncateToMillis | internal/writer/ingest/ingest.go:103 | The last full millisecond not after the reading. |
| Bearer.NewBearer | internal/writer/auth/bearer.go:43-79 | Loading succeeds exactly on a file read to its end that has an entry, and the index then agrees with a scan of its lines. |
| Bearer.ScanLines | internal/writer/auth/bearer.go:58-73 | The scan loop builds an index in which each token has the service of the last line naming it. |
| Bearer.TrimmedEntry | internal/writer/auth/bearer.go:60-64 | The loop's test on the trimmed line is the test for an entry, and trimming loses no field. |
| Bearer.LookupIsScan | internal/writer/auth/bearer.go:83-92 | `Authenticate` returns a service exactly when the last line naming the token gives it, and rejects exactly when no line names it or there is no token. |
| Bearer.ScanDeterminesIndex | internal/writer/auth/bearer.go:57-79 | A file determines its index. |
| Bearer.RenderedFileLoads | internal/writer/auth/bearer.go:38-73 | Rendering any non-empty list of entries and loading the text gives the last-wins map. |
| HttpServer.ParametersIgnored | internal/writer/httpserver/handlers.go:161-167 | Parameters after a semicolon never change the media type. |
| HttpServer.MappingsAgree | internal/writer/httpserver/handlers.go:116-131 | On every error tree label and status agree: 400 exactly with a ValidationError in the tree, 503 with Retry-After exactly for an outage, else 500. |
| HttpServer.Server.Serve | internal/writer/httpserver/router.go:75-106 | Every request is served in one of the ways the chain allows, with at most one submission counted. |
| HttpServer.Server.Dispatch | internal/writer/httpserver/server.gen.go:200-243 | The generated wrapper and the recovery around it: without exactly one bindable key value, 500 and nothing else. |
| HttpServer.Server.SubmitNotification | internal/writer/httpserver/handlers.go:65-114 | One submission counted, and response and publisher calls as decoding, principal and Accept determine. |
| HttpServer.PublishIsAuthenticated | internal/writer/auth/auth.go:71-96 | A publish implies POST /notifications, a token of the loaded file, and a published notification that names the service of the file's last line for it. |
| HttpServer.StatusTellsHistory | internal/writer/httpserver/handlers.go:65-131 | Never more than one publish; 202 exactly for one that succeeded; 503 after a publish exactly for an outage; 400 or 415 after a publish exactly when the publisher's own error holds a validation error. |
| HttpServer.ExchangeConsistent | internal/writer/httpserver/handlers.go:116-131 | For every request status, submission label and Retry-After agree; no 401 is ever counted. |
| HttpServer.ServedParts | internal/writer/httpserver/router.go:124-132 | A submission is counted exactly for requests that reach the handler, and only decoded ones can publish. |
| HttpServer.ApachePublishEnds | internal/pulsarlib/apachepulsar.go:117-132 | With the real publisher a publish ends in 202 or 503 and nothing else. |
| HttpServer.RepeatedKeyFails | internal/writer/httpserver/server.gen.go:214-220 | A repeated Idempotency-Key header on an authenticated submission is answered 500, uncounted and unpublished. |
| EndToEnd.AcceptedIsSendable | internal/writer/ingest/ingest.go:93-127 | What Accept published resolves to the Pushover provider and gets past both guards of its Push. |
| EndToEnd.AcceptedNeverMissing | internal/deliverer/provider/pushover/pushover.go:71-80 | No push of an accepted notification is answered with a missing target or missing content. |
| EndToEnd.AcceptedOutcome | internal/deliverer/consumer/consumer.go:103-130 | An accepted message ends malformed, expired, or as its retry loop ends, never unresolved, and always under the id Accept returned. |
| EndToEnd.AcceptedIsAccountedFor | internal/writer/httpserver/handlers.go:65-114 | The id in a 202 response is the id of the outcome recorded when any worker takes that message, whatever else is in its inbox. |
| EndToEnd.AcceptedIsAccountedForInPool | internal/writer/httpserver/handlers.go:65-114 | With any number of workers, in every reachable state, each outcome recorded for the message of a 202 carries the id of that response. |
| EndToEnd.AcceptedMeetsSchemaIff | internal/writer/ingest/ingest.go:93-127 | The published notification meets the schema if and only if it does not expire before its created_at; if it does, and only then, every delivery from acceptance on finds it expired. |
| EndToEnd.AcceptedMayBeExpired | internal/deliverer/dispatcher/dispatcher.go:231-240 | Both ways past the expiry test lead to an accepted notification that every later delivery finds expired. |

## Left out

- Cryptography, PEM files and the Pulsar client: a message is encrypted to names and their keys, and opens if and only
  if the private key file of one of those names holds that key.
- Symbolic links and case-insensitive file systems: two key files are the same when their cleaned paths are.
- Redelivery to another worker while a live one holds the message, as after a lost connection: the pool hands a held
  message out again only after a crash of its holder, and a message no key opens at any time.
- The data key that the Pulsar producer keeps between two reads of the public key files: a message is encrypted to what
  the files hold when it is sent.
- Protobuf, JSON and URL parsing, UUIDs and time formatting: a codec that returns what it was given where that
  property is needed, and arbitrary functions otherwise. Timestamps out of protobuf's range are not treated apart.
- Invalid UTF-8: texts are sequences of Unicode characters, with byte lengths computed from them.
- Rounding of the jitter product in float64: it is a product of reals, truncated. From 2^53 ns on the original may
  differ by the rounding error.
- Durations as histogram values, metric attributes and log lines: instruments are integer counters.
- Response headers other than Retry-After, problem titles and details, request ids and access logging.
- The router's own matching: anything but /healthz and POST /notifications gets an arbitrary 301, 404 or 405.
- Building the Pushover form, and the truncation of a snippet in the middle of a character.
- Errors joined with nil entries, and error values whose own `As` or `Is` methods change the walk.
- Memory effects of goroutines: the pool interleaves whole receive, handle, push, settle and acknowledge steps, which
  the provider's mutex and the channel-safe Pulsar client allow. Negative acknowledgement exists in the interface
  but no code path calls it.
- Idempotency de-duplication and 409, which the code does not implement.
- The defensive copy of the name list in `WithEncryptionKeyNames`: lists of names are values here.
- Emergency rotation: it accepts violations by design. Deliverer restarts change nothing, because keys are read at
  use time.
- Functional options and their required-option checks, the shutdown grace period, the notification client, the
  linter and the generated code apart from the code enum and the submission wrapper.
- HttpServer.Server.Serve: does not model the request id and access log layers, because they change neither response
  status nor publishing.
- Sandbox.Provider.Push: does not model the mutex, because the pool takes a push as one step.
- Rotation.RunbookIsSafe: states safety only, because whether operators finish a rotation is up to them.
