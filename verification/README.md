# Verified model of the Azure Service Bus transport

A Dafny model of the protocol logic of this request-response transport, and proofs
of what it guarantees. Check the whole of it with `dafny verify dfyconfig.toml`.

## What is modelled

| Part | Files |
|---|---|
| Encoding a handler's response as reply messages, and decoding them on the client | `ReplyCodec.dfy` |
| `sendReply()` of the server: batching, the promise chain, failures, the cut by `close()` | `ReplyPipeline.dfy` (steps and invariant), `ReplyGuarantees.dfy`, `ReplyEventLoop.dfy` (in the turns of the event loop), `ReplyStream.dfy` (objects) |
| The promise chains of the server's publishes and the client's deliveries | `PromiseChain.dfy`, `ReplyChains.dfy` |
| `ReplyRouter` of the client: one receiver per reply queue, shared and re-opened | `RouterModel.dfy`, `RouterInvariant.dfy`, `RouterGuarantees.dfy`, `RouterProgress.dfy`, `ReplyRouter.dfy` (objects), `RecentIds.dfy` |
| Settling and handing over replies, up to what the caller of `send()` sees | `ReplyDelivery.dfy`, `ReplyDemux.dfy`, `ReplyQueue.dfy` (the queue between the two ends), `ReplyWaits.dfy` (what a new request can rely on), `PendingRequest.dfy` (objects) |
| `close()` of the client, timed, with any number of calls at once | `ClientClose.dfy`, `ClientCloseInvariant.dfy`, `ClientClosePatience.dfy`, `ClientCloseGuarantees.dfy`, `ClientCloseLate.dfy`, `AzureServiceBusClient.dfy` (objects), `Timers.dfy` |
| That `close()` and the router together | `ClientShutdown.dfy`, `ClientLateRequests.dfy` |
| Shutdown of the server: what is waited for, and the give-up | `ServerShutdown.dfy`, `ServerGuarantees.dfy`, `AzureServiceBusServer.dfy` (objects) |
| Settlement of the messages the server receives | `MessageSettlement.dfy`, `MessageHandling.dfy` (with the handlers), `ServerTurns.dfy` (those in the turns of the event loop), `Outcomes.dfy` |
| Rate-limited warnings | `RateLimitedWarning.dfy` |

Each asynchronous part is a state machine whose step is what runs between two
awaits. `Enabled` says when a step can happen, `Apply` what it does, and a run is
any `Legal` sequence of steps: the order is the event loop's, the broker's and the
callers' to choose. An invariant is kept by every step, and the guarantees are
about every reachable state or every run. Beside the machines, classes hold the
fields the source updates in place; each of their methods is proved to make
exactly the machine's step, through a ghost `model` of the run so far.

## Assumptions

- The broker and the SDK are oracles: a send, a settlement, an `acceptSession()` or
  a `close()` settles at any later step, with success or failure, or never.
- A publish is on the reply queue, or it is not; and one that is there may still
  count as failed, because its sender could not be closed (`SentNotClosed`).
- A JavaScript value is opaque but for being undefined, null, falsy or an `Error`;
  a message body arrives as it was sent. The deserializer leaves the message
  alone, or fails.
- Callbacks of `process.nextTick` run in order. In `ReplyPipeline` a cut by `close()`
  may fall between any two steps. `ReplyEventLoop` and `ServerTurns` add the turns of
  Node's event loop, since Node 11: after each callback of a timer or of I/O the whole
  tick queue runs, then every promise callback that is due, and again until both queues
  are empty. The give-up runs in the promise callbacks that follow the timer of
  `close()`, whose own callback queues no tick. A source may emit anywhere in a turn.
- Request ids are fresh. The clients of a shared queue use different ids.
- A receiver hands over one message at a time, as the SDK does by default, and none
  once it is closed. In `ReplyQueue` the queue hands out its messages in the order they
  were sent, the next one once the one before is settled by this client or another, and
  one that was abandoned or could not be completed once more.
- What a failed request's callback runs may stop any request, but does not send one
  synchronously: `send()` connects asynchronously first.
- A promise leaves the set that tracks it in the same step in which it settles.
- In `ClientClose` the clock does not go back, timers fire exactly on time, and what
  can run does so before time passes. Time is real-valued.

## Where the code and what it promises differ

- A handler that fails with a falsy value other than null and undefined (`""`, `0`,
  `false`) is seen by its client as one that completed: `ReplyCodec.RoundTrip` says
  that this is the only exception, `ReplyCodec.FalsyErrorSeenAsCompletion` shows it.
- When the end of a response goes out but its sender cannot be closed, an error
  reply follows the end. `ReplyGuarantees.NothingFollowsEnd` says that this is the
  only way two messages are marked as the last, and
  `ReplyGuarantees.ErrorReplyCanFollowEnd` is such a run. A client that saw the end
  is not affected (`ReplyGuarantees.ObserveErrorReply`).
- "No reply: the message must not be completed" does not hold of a response whose first
  reply is queued and not started when `close()` cuts it: the reply is skipped, and still
  counts as sent. `ReplyGuarantees.ReplyBeforeCompletion` says that this is exactly when
  a request is completed unanswered. In the turns of the event loop a 1.2.0 client's
  response is never cut there: its replies are queued by a tick's callback, their jobs
  start in the promise callbacks right after it, and no tick is due when the timer of
  `close()` fires (`ReplyEventLoop.NeverUnanswered`, and `ServerTurns.CompletedMeansAnswered`
  for the settlement of the message). With only a batch pending, the call rejects before
  the batch is flushed. What remains is a 1.1.0 client, whose reply is queued by the
  emission itself: from inside the loop of the give-up, or from a promise callback ahead
  of it. `ReplyEventLoop.UnansweredExactly` says that it is the only case,
  `ReplyEventLoop.OldClientUnanswered` is such a run. Where `respond()` and the start of
  its job are one step, `ReplyGuarantees.CutWithNothingQueued` is the result.
- The connection is to be closed only once nothing is being attached or closed on it. A
  `send()` made after `close()` closed the replies opens a receiver on the old connection,
  and `close()` does not wait for it: in the run of `ClientCloseLate.LateReceiver`, open to
  every client that closes with nothing in flight, the connection is closed and that
  receiver starts to close afterwards.
  `ClientCloseLate.OnlyLateReceivers` says that only receivers that start to close when
  their connection is no longer in use can be caught so,
  `ClientCloseLate.RunIsSafeExactly` that a run is free of it exactly when no receiver
  came too late, and `ClientCloseLate.UnsafeUntilSettled` that one that did is caught
  until it has closed. A caller that sends no request between the close of the replies
  and the moment the connection is taken is safe
  (`ClientLateRequests.SafeWithoutLateRequests`); one request is enough to break it
  (`ClientLateRequests.LateRequestBreaks`).
- With `replySessions` a client's own replies are meant for the request that waits for
  them. When a request ends, its listener closes; a request sent meanwhile to the same
  entity waits for the session, and a reply to it that comes before the old receiver is
  released is completed there and dropped: `ReplyQueue.OldListenerCanReceive` with
  `ReplyQueue.ReplyIsMissed`. `ReplyWaits.CanMissExactly` says that a request can miss a
  reply exactly when, with sessions, a closing listener of its queue still receives as
  the request starts to wait; with no closing of the queue under way it gets them all
  (`ReplyWaits.RepliesAreSafe`).
- A deserializer that fails with a falsy value does not fail its request: the caller is
  given an undefined value and goes on (`ReplyDemux.FailedDeserializer`); likewise a
  failure that is falsy (`PendingRequest.FailureIsHeard`).

## Model

| member | source | states |
|---|---|---|
| `ReplyCodec.RoundTrip` | lib/server/azure-service-bus.server.ts:897-946 | For every response and every split into ticks, what the client observes is the handler's events, if and only if it does not end in a falsy error that is not null or undefined |
| `ReplyCodec.FalsyErrorSeenAsCompletion` | lib/server/azure-service-bus.server.ts:568-581 | A handler that fails with a falsy value is observed as one that completed |
| `ReplyCodec.MessageCount` | lib/server/azure-service-bus.server.ts:900-924 | One message per value, plus one exactly when some tick's end is an error or has no value before it in the tick |
| `ReplyCodec.DecodeToMessage` | lib/client/azure-service-bus.client.ts:81-99 | One message carries exactly the events of its packet, undefined and null values included |
| `ReplyCodec.BatchOfEvents` | lib/server/azure-service-bus.server.ts:908-917 | The batch of a tick stands for the tick's events in order, and only its last packet ends the response |
| `ReplyCodec.ObserveMessages` | lib/client/azure-service-bus.client.ts:340-355 | Messages of which only the last ends the response are observed as the events of their packets, one after another |
| `ReplyCodec.ObservePrefix` | lib/client/azure-service-bus.client.ts:340-355 | What is observed of the first k messages is a prefix of the handler's events, ended exactly when the k-th message is marked as the last |
| `ReplyPipeline.StepInv` | lib/server/azure-service-bus.server.ts:866-949 | Every step of `sendReply()` keeps the invariant of the source, the chain, the wire and the end |
| `ReplyPipeline.RunInv` | lib/server/azure-service-bus.server.ts:866-949 | Every state of every run satisfies that invariant |
| `ReplyPipeline.OnlyLastDisposed` | lib/server/azure-service-bus.server.ts:900-924 | Of the packets ever scheduled only the last may end the response, and they encode the events of the ticks that are over |
| `ReplyGuarantees.WireIsPrefix` | lib/server/azure-service-bus.server.ts:876-895 | In every run the messages on the queue are a prefix of the scheduled replies, then at most one generic error reply, which needs a failed publish and a 1.2.0 client |
| `ReplyGuarantees.NothingFollowsEnd` | lib/server/azure-service-bus.server.ts:876-895 | Nothing follows the end of the response if and only if it is not the case that the end was sent but not closed and the error reply went out |
| `ReplyGuarantees.ErrorReplyCanFollowEnd` | lib/server/azure-service-bus.server.ts:582-588 | A run in which an error reply follows the end |
| `ReplyGuarantees.ClientSees` | lib/client/azure-service-bus.client.ts:340-355 | A 1.2.0 client sees a prefix of the handler's events, then perhaps the generic error; all of them and the end once a response nobody stopped finished |
| `ReplyGuarantees.ClientSeesState` | lib/client/azure-service-bus.client.ts:340-355 | The same of every state that satisfies the invariant |
| `ReplyGuarantees.ObserveErrorReply` | lib/server/azure-service-bus.server.ts:969-970 | The error reply adds an error to what the client sees, unless it had seen an end |
| `ReplyGuarantees.SingleReplyClient` | lib/server/azure-service-bus.server.ts:901-907 | In every run a 1.1.0 client gets at most one message, marked as the last, with the first event of the response, never an error reply; exactly one once an uncut response finished |
| `ReplyGuarantees.NoPublishOnceQuiet` | lib/server/azure-service-bus.server.ts:878-891 | Once `close()` cut a response, no run starts another publish, the error reply included |
| `ReplyGuarantees.FinishedIsDrained` | lib/server/azure-service-bus.server.ts:926-930 | When `finished` settles no publish is in flight or to come, and every reply of a response nobody stopped went out |
| `ReplyGuarantees.ReplyBeforeCompletion` | lib/server/azure-service-bus.server.ts:947-950 | `sendReply()` rejects as cancelled only if `close()` cut it before any reply was acknowledged; it resolves unanswered exactly when the first reply was skipped |
| `ReplyGuarantees.CutWithNothingQueued` | lib/server/azure-service-bus.server.ts:878-894 | After a cut with nothing queued, or something published, no continuation resolves unanswered |
| `ReplyGuarantees.CutBeforeFirstJob` | lib/server/azure-service-bus.server.ts:878-894 | A cut that falls between queueing the first reply and starting its job: skipping that job and returning resolves unanswered |
| `ReplyEventLoop.TurnsOnlyOrder` | lib/server/azure-service-bus.server.ts:919-933 | A run in turns is a run of `sendReply()`: the turns only order its steps |
| `ReplyEventLoop.OneValueRun` | lib/server/azure-service-bus.server.ts:908-945 | A value and a completion emitted together: the flush and the end run in one tick queue, then the first job publishes the one reply, marked as the last |
| `ReplyEventLoop.LoopStepKeeps` | lib/server/azure-service-bus.server.ts:876-950 | Every step and every change of phase keeps a response that is cut before its first publish free of queued replies, or its call rejected |
| `ReplyEventLoop.NeverUnanswered` | lib/server/azure-service-bus.server.ts:947-950 | In every run in turns, subscribed at any moment of one, the call for a 1.2.0 client resolves only if the client was answered |
| `ReplyEventLoop.UnansweredExactly` | lib/server/azure-service-bus.server.ts:947-950 | A cut in a run in turns can lead to an unanswered resolution if and only if it finds the first reply queued and its job not started, and only a 1.1.0 client's response is ever found so |
| `ReplyEventLoop.OldClientUnanswered` | lib/server/azure-service-bus.server.ts:901-907 | A run in turns that completes a 1.1.0 client's request unanswered |
| `PromiseChain.OneAtATime` | lib/server/azure-service-bus.server.ts:876-890 | In every run of a chain of `then()` at most one job runs, and jobs start and settle in the order they were added |
| `ReplyChains.PublishingFollowsLinks` | lib/server/azure-service-bus.server.ts:876-890 | Every step of a response is legal for its chain of links, which stays as the counts of the response say |
| `ReplyChains.LinksStartNoOther` | lib/server/azure-service-bus.server.ts:876-890 | Whenever the links let a job start, it is the next one, none runs, and the response can start it: one publish at a time, in order |
| `ReplyChains.DeliveriesKeepOrder` | lib/client/azure-service-bus.client.ts:173-181 | However long each deserializer takes, the deliveries end in the order of the replies, and the caller is told what the replies mean in that order |
| `ReplyGuarantees.InternalStepsWork` | lib/server/azure-service-bus.server.ts:876-930 | Every step the process takes on its own uses up a finite amount of work |
| `ReplyGuarantees.EndedResponseFinishes` | lib/server/azure-service-bus.server.ts:926-934 | Until it is finished, an ended or stopped response has such a step: it cannot hold `close()` for ever |
| `ReplyStream.FollowedObservable.Stop` | lib/server/azure-service-bus.server.ts:173-182 | The first stop unsubscribes, records who stopped it and calls `onStop`; later ones change nothing |
| `ReplyStream.FollowedObservable.Start` | lib/server/azure-service-bus.server.ts:159-166 | It ends subscribed exactly if nothing stopped it, before or while it subscribed; a stop meanwhile calls `onStop` and decides who stopped it |
| `ReplyStream.SendReply.constructor` | lib/server/azure-service-bus.server.ts:857-875 | The fields start in the first state of the run |
| `ReplyStream.SendReply.Next` | lib/server/azure-service-bus.server.ts:936-937 | A value makes the machine's step; for a 1.1.0 client it is also the end |
| `ReplyStream.SendReply.Error` | lib/server/azure-service-bus.server.ts:938-941 | An error makes the machine's step |
| `ReplyStream.SendReply.Complete` | lib/server/azure-service-bus.server.ts:942-945 | A completion makes the machine's step |
| `ReplyStream.SendReply.Flush` | lib/server/azure-service-bus.server.ts:919-923 | The loop at the end of the tick queues its replies in order |
| `ReplyStream.SendReply.StartJob` | lib/server/azure-service-bus.server.ts:876-880 | The next reply of the chain is published, or skipped after a failure or a stop |
| `ReplyStream.SendReply.PublishSettles` | lib/server/azure-service-bus.server.ts:879-895 | How a publish that settled moves the chain, and whether the error reply replaces it |
| `ReplyStream.SendReply.ErrorSettles` | lib/server/azure-service-bus.server.ts:969-983 | The error reply's end is the job's end, sent or not |
| `ReplyStream.SendReply.Cut` | lib/server/azure-service-bus.server.ts:173-182 | `close()` giving up makes the machine's step and unsubscribes |
| `ReplyStream.SendReply.EndTick` | lib/server/azure-service-bus.server.ts:933-933 | The tick after the end ends the response |
| `ReplyStream.SendReply.AwaitEnded` | lib/server/azure-service-bus.server.ts:926-930 | `finished` awaits the chain as long as it is then |
| `ReplyStream.SendReply.Return` | lib/server/azure-service-bus.server.ts:947-950 | The call ends as cancelled exactly if `close()` cut it with nothing replied |
| `RecentIds.RecentIds.Add` | lib/client/reply-router.ts:78-84 | After any adds the contents are the last `limit` distinct ids, by most recent add |
| `RecentIds.RecentIds.Delete` | lib/client/reply-router.ts:79-79 | The set without the id, its order kept |
| `RecentIds.RecentIds.Has` | lib/client/reply-router.ts:86-88 | Membership in the last `limit` distinct ids of the history |
| `RecentIds.AddKeepsMostRecent` | lib/client/reply-router.ts:78-84 | Adding to the last `limit` distinct ids of a history gives those of the longer history |
| `RecentIds.OrderedByLastAdd` | lib/client/reply-router.ts:78-84 | The ids are in the order of their last adds, so without duplicates |
| `RecentIds.RemembersRecent` | lib/client/reply-router.ts:52-53 | An id is remembered while fewer than `limit` adds came after its last |
| `RateLimitedWarning.RateLimitedWarning.Emit` | lib/utils/index.ts:117-132 | A warning is logged, with the count suppressed since the last one, exactly when the interval has passed; warnings stay spaced and every call stays accounted for |
| `RateLimitedWarning.CallKeeps` | lib/utils/index.ts:107-132 | One more call keeps warnings an interval apart, and calls = warnings + reported + pending |
| `RouterInvariant.StepKeeps` | lib/client/reply-router.ts:130-356 | Every step of the router keeps the registrations, lifecycles, closings, session order and the ledger of requests |
| `RouterInvariant.RunKeeps` | lib/client/reply-router.ts:130-356 | Every state of every run satisfies the invariant |
| `RouterInvariant.FailAllKeeps` | lib/client/reply-router.ts:305-313 | Failing a listener keeps the invariant whatever requests its callbacks stop |
| `RouterGuarantees.NoStrandedRequest` | lib/client/reply-router.ts:130-165 | Every request that waits is served by the open, registered listener of its queue, subscribed or opening; every other was stopped, or failed exactly once; registered listeners are open and waited on, closed ones have no waiters |
| `RouterGuarantees.FinishedAreNotWaiting` | lib/client/reply-router.ts:157-161 | No remembered id waits |
| `RouterGuarantees.CloseFailsEveryone` | lib/client/reply-router.ts:150-153 | After the loop of `close()` no request waits and no listener is registered, even if failing one request stopped others |
| `RouterGuarantees.EveryListenerCloses` | lib/client/reply-router.ts:150-153 | The loop leaves every listener of the router closed, whatever the callbacks stop, and creates none |
| `RouterGuarantees.SessionIsExclusive` | lib/client/reply-router.ts:174-191 | With sessions at most one listener of a queue holds or asks for the session, and their closings settle in the order of opening |
| `RouterGuarantees.ClosingsAwaitedCoverAll` | lib/client/reply-router.ts:154-154 | With sessions every listener still closing is covered by a closing that `close()` awaits |
| `RouterGuarantees.ReceiverClosedOnce` | lib/client/reply-router.ts:325-342 | A receiver is closed exactly once, for every order of opening and closing; a subscribed one is aborted only after its close settled, an opening one at once |
| `RouterGuarantees.SubscribesOpenListenersOnly` | lib/client/reply-router.ts:192-201 | Only an open listener whose signal is not aborted is subscribed |
| `RouterProgress.SomeListenerGoesOn` | lib/client/reply-router.ts:174-180 | No deadlock: while a listener is opening or closing, it or an older one of its queue has a step to take, however their closings wait for each other |
| `RouterProgress.StepsGoForward` | lib/client/reply-router.ts:179-213 | No step moves a listener backward, and each opening and closing takes at most seven steps |
| `ReplyRouter.ReplyRouter.Wait` | lib/client/reply-router.ts:130-137 | The objects make the machine's step; new listeners are new objects |
| `ReplyRouter.ReplyRouter.StopWaiting` | lib/client/reply-router.ts:157-165 | The request leaves, is remembered, and the last one closes its listener |
| `ReplyRouter.ReplyRouter.Open` | lib/client/reply-router.ts:167-180 | A new listener is registered and awaits the queue's closing, with sessions |
| `ReplyRouter.ReplyListener.OpenResumes` | lib/client/reply-router.ts:180-201 | The opening after its first await, on the listener's fields |
| `ReplyRouter.ReplyListener.Received` | lib/client/reply-router.ts:192-201 | The listener that got its receiver subscribes unless it closed |
| `ReplyRouter.ReplyRouter.OpenResumes` | lib/client/reply-router.ts:180-201 | The objects make the machine's step |
| `ReplyRouter.ReplyRouter.SessionSettles` | lib/client/reply-router.ts:185-201 | The objects make the machine's step |
| `ReplyRouter.ReplyRouter.OpenFails` | lib/client/reply-router.ts:202-213 | A failed opening fails the requests, unless the listener closed |
| `ReplyRouter.ReplyRouter.ProcessMessage` | lib/client/reply-router.ts:223-257 | Which of the three settlement calls a reply gets |
| `ReplyRouter.ReplyRouter.FatalError` | lib/client/reply-router.ts:268-300 | A fatal receive error fails the listener's requests unless it is closing |
| `ReplyRouter.ReplyRouter.FailAll` | lib/client/reply-router.ts:305-313 | The loop over the copied waiters, whatever each callback stops |
| `ReplyRouter.ReplyRouter.CloseListener` | lib/client/reply-router.ts:315-327 | The listener leaves the registry if it is the one registered, and starts closing once |
| `ReplyRouter.ReplyRouter.CloseResumes` | lib/client/reply-router.ts:328-338 | The receiver, if any, is closed once the opening is over |
| `ReplyRouter.ReplyRouter.ReceiverCloses` | lib/client/reply-router.ts:336-342 | The signal is aborted after the receiver's close settled |
| `ReplyRouter.ReplyRouter.SubscriptionCloses` | lib/client/reply-router.ts:341-353 | The closing settles and removes its own entry only |
| `ReplyRouter.ReplyRouter.Close` | lib/client/reply-router.ts:150-153 | The loop of `close()` over the listeners registered when it starts |
| `ReplyRouter.ReplyRouter.RegisteredNow` | lib/client/reply-router.ts:151-151 | The listeners registered now, in the order they were |
| `ReplyDelivery.ForeignReplyIsGivenBack` | lib/client/reply-router.ts:229-250 | Without sessions a reply to a generated request id is never dead-lettered, and abandoned by a client that did not send the request |
| `ReplyDelivery.UnaddressedReplyIsDeadLettered` | lib/client/reply-router.ts:229-242 | A reply whose id no client can have sent is dead-lettered |
| `ReplyDelivery.CompletesOnlyItsOwn` | lib/client/reply-router.ts:225-228 | Without sessions a client completes only replies to requests it sent |
| `ReplyDelivery.OnlyOneClientCompletes` | lib/client/reply-router.ts:225-228 | Two clients never both complete replies to one request |
| `ReplyDelivery.OwnReplyIsCompleted` | lib/client/reply-router.ts:225-228 | A reply to a waiting request, or to one of the last thousand finished, is completed, in every reachable state |
| `ReplyDemux.EachGetsItsOwnReplies` | lib/client/reply-router.ts:223-267 | For every interleaving a request is handed exactly the replies with its id that its listener completed while it waited, in order, each delivered in turn |
| `ReplyDemux.DemuxStepKeeps` | lib/client/reply-router.ts:223-267 | Every step of router, receivers and deliveries keeps that |
| `ReplyDemux.SlowDeserializerKeepsOrder` | lib/client/azure-service-bus.client.ts:340-355 | Deliveries that succeed tell the caller what their messages, in order, mean; that they end in order is `ReplyChains.DeliveriesKeepOrder` |
| `ReplyDemux.FailedDeserializer` | lib/client/azure-service-bus.client.ts:173-181 | The first deserializer that fails, whatever with, tells the caller its error after what came before, and ends the Observable if and only if the error is truthy |
| `ReplyDemux.EndToEnd` | lib/client/azure-service-bus.client.ts:340-355 | For a request that got a prefix of its response's messages, the caller has seen a prefix of the handler's events and perhaps the generic error, and exactly the events once all was delivered; that it gets such a prefix is `ReplyQueue.ThroughTheQueue` |
| `ReplyQueue.LineStepKeeps` | lib/client/reply-router.ts:223-267 | Every step of the queue, its receivers, the router and the deliveries keeps each request in line: what it got is a prefix of what left the queue for it, unless it missed one |
| `ReplyQueue.RepliesArriveInOrder` | lib/client/reply-router.ts:255-261 | In every reachable state a waiting request got all its replies that left the queue, in order, if and only if it missed none; without sessions none is ever missed, redelivery or not |
| `ReplyQueue.ThroughTheQueue` | lib/client/azure-service-bus.client.ts:340-355 | What `ReplyDemux.EndToEnd` promises, for a response published to the queue, with no more said of the order of its messages |
| `ReplyQueue.MissesExactlyElsewhere` | lib/client/reply-router.ts:257-267 | A reply is missed if and only if it is completed on a listener other than the one its request waits on, which takes sessions |
| `ReplyQueue.OldListenerCanReceive` | lib/client/reply-router.ts:174-180 | With sessions, a run in which a request waits for the session while the closing listener of the request before it still receives |
| `ReplyQueue.ReplyIsMissed` | lib/client/reply-router.ts:225-267 | A reply to such a request that comes then is completed and dropped |
| `ReplyWaits.CanMissExactly` | lib/client/reply-router.ts:174-180 | Known before a request is sent: in some run it misses a reply if and only if, with sessions, a closing listener of its queue still receives as it starts to wait |
| `ReplyWaits.RepliesAreSafe` | lib/client/reply-router.ts:174-180 | A request that starts to wait with no closing of its queue under way misses nothing in any run: it has got, in order, all its replies that left the queue while it waits |
| `ReplyWaits.LineStepUndisturbed` | lib/client/reply-router.ts:223-267 | Every step keeps it so that no listener but the request's own can be handed its replies |
| `PendingRequest.PendingRequest.Reply` | lib/client/azure-service-bus.client.ts:177-181 | A reply joins the chain of deliveries and tells the caller nothing yet |
| `PendingRequest.PendingRequest.StartDelivery` | lib/client/azure-service-bus.client.ts:178-180 | The deliveries start one after another, in order |
| `PendingRequest.PendingRequest.DeliveryEnds` | lib/client/azure-service-bus.client.ts:178-180 | What the caller was told is what the deliveries so far mean, failed or not |
| `PendingRequest.PendingRequest.Tell` | lib/client/azure-service-bus.client.ts:344-354 | The callbacks of one delivery, failed or not, as the observer hears them |
| `PendingRequest.PendingRequest.Deliver` | lib/client/azure-service-bus.client.ts:347-354 | One callback per packet, two for a last value that is undefined |
| `PendingRequest.PendingRequest.Fail` | lib/client/azure-service-bus.client.ts:182-192 | A failure with any value is one more call of the callback; deliveries under way are untouched |
| `PendingRequest.UnfailedHearsReplies` | lib/client/azure-service-bus.client.ts:176-181 | A request that nothing failed hears what its replies mean, in order |
| `PendingRequest.FailureIsHeard` | lib/client/azure-service-bus.client.ts:182-194 | A failure is heard after what came before, unless the Observable had ended; a truthy one ends it, and nothing follows |
| `Timers.AcceptedOptionsAreHonoured` | lib/utils/index.ts:52-67 | Every accepted option gives a deadline that a timer waits for exactly |
| `ClientCloseInvariant.StepKeeps` | lib/client/azure-service-bus.client.ts:238-258 | Every step of sends, receivers, clock and any number of `close()` calls keeps the invariant |
| `ClientCloseInvariant.ExecKeeps` | lib/client/azure-service-bus.client.ts:238-258 | Every state of every run satisfies it |
| `ClientCloseGuarantees.ConnectionsAreSafe` | lib/client/azure-service-bus.client.ts:247-257 | No connection is closed twice, while in use, or before everything that started on it settled; one that was taken and is open has exactly one call that will close it |
| `ClientCloseLate.EarlyWhenCurrent` | lib/client/azure-service-bus.client.ts:477-484 | What `ConnectionsAreSafe` covers: a send or a closing is early exactly when its connection is the one in use as it starts |
| `ClientCloseLate.StepCurrentIsEarly` | lib/client/azure-service-bus.client.ts:246-248 | Every step keeps everything on the connection in use early |
| `ClientCloseLate.OnlyLateReceivers` | lib/client/azure-service-bus.client.ts:247-257 | Over all sends and receivers: whatever is unsettled on a closed connection is a receiver whose closing started when the connection was not in use |
| `ClientCloseLate.BreaksExactlyWhenTooLate` | lib/client/azure-service-bus.client.ts:247-257 | A step leaves a connection closed under something unsettled if and only if a receiver starts to close on a closed connection, or still closes there when a call's deferred close comes |
| `ClientCloseLate.RunIsSafeExactly` | lib/client/azure-service-bus.client.ts:238-258 | A run never has a connection closed under anything unsettled if and only if none of its steps finds a receiver too late |
| `ClientCloseLate.LateReceiver` | lib/client/azure-service-bus.client.ts:241-257 | From every reachable call about to close the replies with nothing in flight, a run closes the connection and then a receiver starts to close on it |
| `ClientCloseLate.UnsafeUntilSettled` | lib/client/azure-service-bus.client.ts:477-484 | A receiver that starts to close on a closed connection breaks the promise in every run from there, until it has closed |
| `ClientCloseGuarantees.SendsUseOpenConnection` | lib/client/azure-service-bus.client.ts:371-371 | A send starts on a connection nobody took or closed |
| `ClientCloseGuarantees.CloseIsBounded` | lib/client/azure-service-bus.client.ts:238-258 | With a finite timeout T every call has taken its connection T + 3000 ms after it began |
| `ClientCloseGuarantees.TimeMovesOn` | lib/utils/index.ts:138-155 | In every reachable state some call can run or the clock can advance |
| `ClientCloseGuarantees.NothingInFlightNoWait` | lib/client/azure-service-bus.client.ts:424-465 | With nothing in flight the connection is closed at the moment `close()` begins |
| `ClientCloseGuarantees.CancelledOnce` | lib/client/azure-service-bus.client.ts:425-438 | No send is cancelled twice over all calls |
| `ClientCloseGuarantees.CancelsPastDeadline` | lib/client/azure-service-bus.client.ts:425-438 | Only a call past its deadline cancels, and only unsettled sends not cancelled before |
| `ClientCloseGuarantees.NoCallGoesOnEarly` | lib/client/azure-service-bus.client.ts:424-474 | A call goes on only when what it awaits settled or its deadline passed |
| `ClientCloseGuarantees.CancelledSendsGetASecond` | lib/client/azure-service-bus.client.ts:432-440 | A send is cancelled past its canceller's deadline, never with an infinite timeout, and that call goes on only once the send settled or a second later |
| `ClientCloseGuarantees.ReceiversGetTheirTime` | lib/client/azure-service-bus.client.ts:460-474 | A call that closed the replies goes on only once every receiver closing then has closed, or both its deadline and a second are past |
| `ClientClosePatience.StepPatience` | lib/client/azure-service-bus.client.ts:424-474 | Every step keeps that patience, for every call and every cancelled send |
| `ClientShutdown.StepKeeps` | lib/client/azure-service-bus.client.ts:238-258 | Every step of router and client together keeps each closing listener's promise tracked, with its connection, settled exactly when its closing is |
| `ClientShutdown.RunKeeps` | lib/client/azure-service-bus.client.ts:238-258 | Every state of every run satisfies that |
| `ClientShutdown.ConnectionOutlivesReceivers` | lib/client/azure-service-bus.client.ts:241-257 | Every listener on the connection in use when `replies.close()` runs, open or closing by then, has closed before that connection is closed, in every run |
| `ClientShutdown.ClosedNeverOpens` | lib/client/reply-router.ts:181-184 | A listener closed before it read the connection never opens a receiver |
| `ClientLateRequests.StepKeepsNoneLate` | lib/client/azure-service-bus.client.ts:241-257 | Every step of router and client but a new request keeps it so that no receiver can be late on the connection |
| `ClientLateRequests.SafeWithoutLateRequests` | lib/client/azure-service-bus.client.ts:241-257 | If no request starts to wait between `replies.close()` and the moment the connection is taken, the connection is closed only when everything on it has settled, in every run |
| `ClientLateRequests.LateRequestBreaks` | lib/client/azure-service-bus.client.ts:241-257 | One request sent in between is enough: a run that closes the connection and then starts to close the receiver of that request on it |
| `AzureServiceBusClient.Client.Connect` | lib/client/azure-service-bus.client.ts:137-143 | A connection is made when there is none |
| `AzureServiceBusClient.Client.SendTo` | lib/client/azure-service-bus.client.ts:366-404 | The send is tracked with a state object of its own, aborted at once if the caller's signal is, and listening to it otherwise |
| `AzureServiceBusClient.Client.CallerAborts` | lib/client/azure-service-bus.client.ts:373-379 | A signal the caller aborts later aborts the send while it is listened to, and is not mistaken for a `close()` |
| `AzureServiceBusClient.Client.SdkIsDone` | lib/client/azure-service-bus.client.ts:387-393 | Once the SDK is done the signal is no longer listened to; the send stays tracked until its sender has closed |
| `AzureServiceBusClient.Client.Track` | lib/client/azure-service-bus.client.ts:477-484 | The closing is tracked |
| `AzureServiceBusClient.Client.Settles` | lib/client/azure-service-bus.client.ts:401-403 | What settled is no longer tracked |
| `AzureServiceBusClient.Client.Close` | lib/client/azure-service-bus.client.ts:239-239 | A call begins with its deadline |
| `AzureServiceBusClient.Client.SettleSends` | lib/client/azure-service-bus.client.ts:424-439 | The objects make the machine's step: wait, go on, or cancel |
| `AzureServiceBusClient.Client.LiveSends` | lib/client/azure-service-bus.client.ts:425-425 | The sends in flight that no call cancelled |
| `AzureServiceBusClient.Client.CancelAll` | lib/client/azure-service-bus.client.ts:436-439 | The loop marks and aborts exactly the sends left |
| `AzureServiceBusClient.Client.CloseReplies` | lib/client/azure-service-bus.client.ts:241-244 | The receivers that `replies.close()` closes are tracked, then awaited if there are any |
| `AzureServiceBusClient.Client.TakeConnection` | lib/client/azure-service-bus.client.ts:247-257 | The connection is taken; it is closed at once only if nothing is in flight |
| `ServerGuarantees.StepKeeps` | lib/server/azure-service-bus.server.ts:726-818 | Every step of the handlers, their Observables and the give-up keeps the invariant |
| `ServerGuarantees.ExecKeeps` | lib/server/azure-service-bus.server.ts:726-818 | Every state of every run satisfies it |
| `ServerShutdown.CutResponseCeases` | lib/server/azure-service-bus.server.ts:759-761 | A response that is cut, or is over, is inactive and starts no publish |
| `ServerShutdown.ResponseMoves` | lib/server/azure-service-bus.server.ts:878-891 | A step of a response that ceased publishes nothing and leaves it so |
| `ServerGuarantees.ActiveIsFollowed` | lib/server/azure-service-bus.server.ts:797-818 | Every subscribed, unfinished Observable is followed and of the current generation |
| `ServerGuarantees.GiveUpIsFinal` | lib/server/azure-service-bus.server.ts:751-763 | After a give-up, in every run: no earlier Observable is active or publishes again, and any later one belongs to a message that read the generation afterwards |
| `ServerGuarantees.NothingPendingIsDrained` | lib/server/azure-service-bus.server.ts:726-732 | When both sets are empty every message was handled to its end or given up, no Observable is subscribed, and every response not cut sent all its replies |
| `ServerGuarantees.RequestStaysPending` | lib/server/azure-service-bus.server.ts:797-803 | A response that is not drained is followed, whether or not its message was settled |
| `ServerGuarantees.OutcomeIsTheStreams` | lib/server/azure-service-bus.server.ts:810-818 | An event fails exactly when its Observable failed, and is cancelled only if it was stopped first |
| `ServerGuarantees.SucceededWasAnswered` | lib/server/azure-service-bus.server.ts:947-950 | In every reachable state a request whose handling succeeded was answered, but for a first reply skipped by the cut |
| `MessageHandling.StepAgrees` | lib/server/azure-service-bus.server.ts:347-395 | Every step of the handlers and of the settlement keeps both machines agreeing on how each handling ended |
| `MessageHandling.CompletedWasAnswered` | lib/server/azure-service-bus.server.ts:364-382 | In every reachable state, turns or not, a request's message is completed only if its client was answered, or its first reply was skipped by the cut |
| `ServerTurns.TurnStepKeeps` | lib/server/azure-service-bus.server.ts:737-763 | Every step of handlers, responses and settlement, and every change of phase for all responses at once, keeps the 1.2.0 responses cleanly cut or not at all |
| `ServerTurns.CompletedMeansAnswered` | lib/server/azure-service-bus.server.ts:947-949 | In every state a run in turns reaches, a completed request was answered; only a 1.1.0 client's may instead have had its first reply skipped by the cut |
| `MessageHandling.SettledAsItEnded` | lib/server/azure-service-bus.server.ts:364-382 | Every message is settled as its handling ended: abandoned only if it failed, left alone if `close()` cancelled it or for a reason of its own |
| `AzureServiceBusServer.Server.Deliver` | lib/server/azure-service-bus.server.ts:786-795 | The message is tracked; a request's handling reads the generation at once |
| `AzureServiceBusServer.Server.Reject` | lib/server/azure-service-bus.server.ts:353-356 | A rejected request is tracked and never handled |
| `AzureServiceBusServer.Server.Begin` | lib/server/azure-service-bus.server.ts:506-506 | An event's handling reads the generation |
| `AzureServiceBusServer.Server.ReturnsObservable` | lib/server/azure-service-bus.server.ts:511-516 | The Observable is subscribed and followed if and only if the generation is still the one read |
| `AzureServiceBusServer.Server.ResponseMoves` | lib/server/azure-service-bus.server.ts:797-803 | A step of a followed response moves its own objects and no other stream's; it is forgotten exactly when what `watch()` awaits has settled |
| `AzureServiceBusServer.Server.ResultEnds` | lib/server/azure-service-bus.server.ts:810-818 | An event's Observable that ended is forgotten, and nothing else is |
| `AzureServiceBusServer.Server.Settled` | lib/server/azure-service-bus.server.ts:786-793 | A message handled to its end is no longer tracked |
| `AzureServiceBusServer.Server.Pending` | lib/server/azure-service-bus.server.ts:727-732 | Whether the loop of `waitForInFlight()` goes on |
| `AzureServiceBusServer.Server.GiveUpOnInFlight` | lib/server/azure-service-bus.server.ts:751-763 | From every valid state, however far the streams got: the loop stops every followed stream and its objects are then in the machine's cut state; both sets are emptied and the generation moves on |
| `MessageSettlement.LedgerBalances` | lib/server/azure-service-bus.server.ts:347-483 | In every run each message gets at most one settlement call, none in receiveAndDelete mode or once the handler settled it; `allowedReplyTo` is asked at most once and its verdict stands; what is left unsettled has a reason |
| `MessageSettlement.StepBalances` | lib/server/azure-service-bus.server.ts:347-483 | Every step keeps the ledger of every message |
| `MessageSettlement.StillAllowed` | lib/server/azure-service-bus.server.ts:545-547 | The second check of a message agrees with the first, which let it pass, whatever `allowedReplyTo` would answer now |
| `MessageSettlement.MessageHandler.RejectsReplyTo` | lib/server/azure-service-bus.server.ts:430-442 | The verdict remembered for the message, or the answer of the one call |
| `MessageSettlement.MessageHandler.Deliver` | lib/server/azure-service-bus.server.ts:347-356 | A rejected request is dead-lettered in peekLock mode, and nothing else happens to it |
| `MessageSettlement.MessageHandler.Deserialized` | lib/server/azure-service-bus.server.ts:542-547 | The handler runs unless the second check rejects |
| `MessageSettlement.MessageHandler.HandlerEnds` | lib/server/azure-service-bus.server.ts:364-418 | The settlement call that follows the handler's outcome |

## Left out

- `RouterGuarantees.CloseFailsEveryone`: is about the requests waiting when `replies.close()` runs; a `send()` made after that opens a listener which this `close()` does not fail.
- `ReplyDemux.EndToEnd`: says nothing of a queue without sessions whose messages the broker hands out in another order than they were sent, as it may to several clients that abandon each other's replies; in `ReplyQueue` the next message waits until the one before is settled, by this client or another.
- `ReplyEventLoop.UnansweredExactly`: lets any promise callback run ahead of the give-up; which of them a given version of Node can run there is not part of this model.
- `ServerGuarantees.GiveUpIsFinal`: counts from where the generation is read, `handleEvent()` for an event and `handleMessage()` for a request.
- `ReplyGuarantees.EndedResponseFinishes`: assumes that a publish in flight settles; the SDK's retries and timeouts are not part of this model.
- `RouterProgress.SomeListenerGoesOn`: assumes likewise that the SDK's calls settle.
- The order of `closeAll()`, `settleReplies()` and the time the server's receivers take to close: no total time is claimed for the server.
- `connect()`, `listen()`, the subscriptions, `parsePattern` and `createReceiver`: wiring, settled by reading them.
- The reply timeout, the teardown function and the caller's own abort signal: the first two are a `Fail` and a `StopWaiting`, the last aborts a send the caller owns.
- `readAllowedReplyTo`: `allowedReplyTo` is an oracle; whether it is a list or a function does not matter to the settlement.
- NestJS's processing hooks, and NestJS's observer beyond the packets it interprets.
- Reply sessions as entity settings, message TTL, lock renewal and the receive mode's effect on delivery counts.
- Log lines and their texts: only the number of rate-limited warnings is modelled.
- Decorators, modules, contexts, metadata and error classes: no protocol logic.
