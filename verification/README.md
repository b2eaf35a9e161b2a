# Verification of the nng Python bindings

A Dafny model of the concurrent core of the bindings and of the example servers built on
them, with proofs over every interleaving, every event history or every input.

`dafny verify dfyconfig.toml` checks the whole project.

## What is modelled

**The asynchronous completion pipeline** (`CompletionPipeline`, `CompletionInvariant`,
`CompletionSteps`, `CompletionTheorems`, `CompletionOrder`, `CompletionOutcomes`; objects in
`DispatchQueues` and `AioManager`).
A step relation with one step per critical section, compare-and-swap, byte sent or received,
dictionary access and part of a completion callback. Submitters, nng threads, the drain (POLL or
PROACTOR) and `release()` interleave freely, addresses of dead ops are reused, the wakeup
socket may be full, users may cancel futures. `CompletionOrder` and `CompletionOutcomes` tell
from the steps of a run alone in which order completions are delivered and what a future holds.
Assumptions: nng runs one callback per started aio; the loop stays open while `release()` schedules
on it. `SockDispatchQueue.Push`, `DrainReady` and the flag of `DispatchQueueContainer` are the same
operations as methods on objects.

**The REP conversation server** (`ConversationManager`, `RepServer`, `RepServerInvariant`,
`RepServerSteps`, `RepServerTheorems`) and its **secure variant**
(`SecureServer`, `SecureTheorems`).
A step is the code between two awaits of a dispatch loop, a manager task, a pipe callback or
a done callback. The conversation callback is arbitrary code. The manager's own methods are
also given as methods on an object. The secure manager has its own guards and effects, including
the RuntimeError of a send without a context, and is proved to be an instance of the plain one.
Only the pipe-to-manager theorem assumes that no message of a pipe is dispatched after its removal
was handled.

**PipeCollection and the connection filters** (`PipeHistory`, `PipeCollections`,
`PipeFilters`, `FilterTrees`, `Cidr`). The object's methods are proved to do what the update
rules say; the rules are proved to agree with an independent definition over the event history.
nng is assumed to use distinct ids for live pipes and to send ADD_POST once, for a pipe that
it announced, that was not closed at ADD_PRE and that has not been removed; `AddPostExact`
shows what happens otherwise.

**The thread pool** (`ThreadPool`, `ThreadPoolInvariant`, `ThreadPoolTheorems`,
`ThreadPoolOutcomes`, `ThreadPoolObject`, `ThreadPoolMap`). Any number of `submit`, worker and `shutdown` threads
interleave at every shared access; user cancels are steps as well. `map` is the generator it
is: one method call per `next()`. Assumed of the channel: it delivers each message at most once and
loses messages only after the push socket is closed. In particular a worker that a user cancel ended
(`Crashed`) has no further message buffered in its pull socket.

**Handle ownership** (`Handles`, `HandlesInvariant`, `HandlesTidy`, `HandlesLinks`,
`HandlesTheorems`, `HandlesCounts`, `HandleObjects`). Construct, share, move, assign and drop in any order, with
the destructor cascade of shared pointers. `HandlesCounts` tells from the calls alone who holds what.
The graph asks whether anybody refers to an object;
`HandleObjects` updates the handles in place with strong counts and is proved to agree.

**The handshake's encodings and transcripts** (`Base64Url`, `Handshake`). Signing, key
derivation and key exchange are arbitrary functions. What an honest run needs of them is a
precondition, and nothing is postulated.

## Where a promise does not hold as stated

- "A context closes only after the aios anchored to it are freed": the anchor keeps the
  handle object alive, not the context that is in it. Moving the context out of a handle that
  anchors a live aio, or assigning to such a handle, closes the context early. The same goes
  for an aio moved out of the op that owns its container. `LinksKeptExactly` gives the exact
  condition for one step, `ContextsOutliveAios` the order in all runs that meet it, and
  `MoveThenDropClosesEarly`, `AssignClosesEarly` and `EarlyCloseIsReachable` the failure.
- "None is left behind by release()": an op created before and registered after the snapshot
  stays pending. `ReleaseLeavesNoneBehind` covers all others, and `LateOpIsStranded` and
  `StrandedOpExists` show the exception.
- "Every slot has its event set once the manager has ended": true except for a slot that a task
  outliving the conversation is still sending on, which is released when that send ends, and for
  a manager whose task was cancelled before its first step, so that no finally block runs
  (`NoSlotLeak`, an equivalence; `EndedWithSendInFlight` and `AbandonedSlotExists` are runs).
- `shutdown(cancel_futures=True)` leaves a call undone if and only if its entry is still pending,
  which happens only to calls stored after its loop found nothing (`LeftUndoneExactly`). Every
  call that is inside `submit` and not stored at that moment can end like that, for good, whether
  its `submit` raises (`UnstoredCallCanBeMissed`) or returns (`ReturnedCallCanBeMissed`).
- "Pairwise equal IP" for pipes admitted by a first-wins filter holds when the anchor is an IP
  peer (`FirstWinsAgreement`). Under a non-IP anchor, peers with different IPs are admitted
  together exactly when they meet the other selected keys (`NonIpAnchorAdmitsExactly`).
- "The signature binds the server's answer to this exact hello" (`security_utils.py`, lines
  211-212): the transcript does not mark where a challenge ends, and neither side checks the length
  of the challenge it receives. So an answer to a hello with a longer challenge is accepted as an
  answer to this one, with a key the server does not have (`AuthOfOtherHelloIsAccepted`, for every
  hello). The promise holds exactly when the accepted server challenge has 32 bytes, which the
  client could check (`AcceptedAuthIsOfOwnRun`).
- "Binding the proof to this exact session" (`security_utils.py`, lines 334-335) fails in the same
  way for the client's confirm: one made for a longer server challenge and a shorter hello challenge
  has the same transcript (`ConfirmOfOtherSessionIsAccepted`). The promise holds exactly when the
  challenge in the hello has 32 bytes, which the server could check when it reads the hello
  (`AcceptedConfirmIsOfThisSession`).
- The documentation of the dispatch loop mentions a done callback that releases the slot
  (`server.py`, lines 453-455); the code's done callback only forgets the client, and by pipe,
  whichever manager is listed by then. The model follows the code, and `AbandonedForGood` shows a
  slot that nothing ever releases.

## Model

| member | source | states |
|---|---|---|
| CompletionSteps.StepKeepsInv | nng/_aio_async.pxi:142-322 | every step of submit, fire, drain, callback or release keeps the invariant of queue, dictionary, flags and futures |
| CompletionSteps.RunKeepsInv | nng/_aio_async.pxi:646-802 | so does every interleaving of any length |
| CompletionTheorems.NoLostWakeup | nng/cpp/platform.hpp:226-258 | a non-empty queue implies a readable byte, a producer between unlock and send, or a consumer between bytes and drain_ready (or ended by release), also when a send fails on a full buffer |
| CompletionTheorems.QuiescentMeansDelivered | nng/_aio_async.pxi:646-682 | when all threads rest and no byte is readable, nothing is queued and every op that fired after submit returned False has a finished future |
| CompletionTheorems.AddressAsIdIsSafe | nng/_aio_async.pxi:94-106 | until release every id in transit is a key leading to the op that pushed it, that op is alive, and ids in transit are pairwise distinct, with address reuse |
| CompletionTheorems.RegisteredStaysAlive | nng/_aio_async.pxi:245-258 | until release, a registered op not taken by the drain is alive, found under its address, and alone at it |
| CompletionTheorems.CompletionReachesItsOp | nng/_aio_async.pxi:668-673 | a dictionary pop in the drain yields the callback of the op that pushed the id, which it pushed once |
| CompletionTheorems.ReturnIsFinal | nng/_aio_async.pxi:260-322 | the answer of submit is never revised by any later interleaving |
| CompletionTheorems.ExactlyOneRoute | nng/cpp/platform.hpp:365-382 | submit returned True: the id is never pushed and the registration is gone; False: pushed exactly once and registered until drained |
| CompletionTheorems.TakenAndSettledOnce | nng/_aio_async.pxi:142-219 | no op is taken by both drain and release, and no future is completed twice |
| CompletionTheorems.ReleaseLeavesNoneBehind | nng/_aio_async.pxi:753-802 | when drain and release have finished, every op registered before the snapshot is settled, scheduled to settle, or reported complete by its submit |
| CompletionTheorems.LateOpIsStranded | nng/_aio_async.pxi:245-252 | an op registered after the snapshot and not reported complete is never completed by drain or release |
| CompletionTheorems.StrandedOpExists | nng/_aio_async.pxi:753-802 | such an op with a pending future exists in some run |
| CompletionOrder.CompletionsAreFifo | nng/_aio_async.pxi:646-682 | over every run: ops popped so far, then those of the ids drained, lost to a release and still queued, are the ops of the push steps in push order; callbacks called so far, then those waiting, are the popped ones in that order; nothing is lost before release |
| CompletionOutcomes.ResultReachesItsFuture | nng/_aio_async.pxi:169-185 | in every run a future completed by the drain holds a result if and only if nng's callback for that op came with NNG_OK, an exception if and only if it came with an error; completed by release() it holds an exception only for an op whose callback came with an error |
| CompletionOrder.SettledOnTheLoop | nng/_aio_async.pxi:142-185 | a future changes only from waiting and only at a step on the loop thread: a drain callback, release() there, a scheduled call, or the user's cancel |
| CompletionOrder.ElsewhereItIsScheduled | nng/_aio_async.pxi:187-219 | release() on another thread leaves the future alone and queues one call on the loop, with the aio's result code, where none was queued |
| CompletionOrder.DispatchCanGoOn | nng/_aio_async.pxi:676-682 | in every reachable state the calling loop of the drain can go on, unless the running callback waits for an aio that is still busy |
| CompletionOrder.CallingCanGoOn | nng/_aio_async.pxi:753-802 | likewise for the calling loop of release() |
| DispatchQueues.DispatchQueue.Push | nng/cpp/dispatch.hpp:31-37 | appends the id and records it as pushed |
| DispatchQueues.DispatchQueue.GetReady | nng/cpp/dispatch.hpp:42-49 | fails exactly on an empty queue, otherwise hands out the oldest id |
| DispatchQueues.DispatchQueue.WaitFor | nng/cpp/dispatch.hpp:54-67 | whatever other threads push or stop while the lock is released: false only on an empty queue, after a stop or at the timeout; otherwise the oldest id |
| DispatchQueues.DispatchQueue.Stop | nng/cpp/dispatch.hpp:72-78 | drops nothing |
| DispatchQueues.DispatchQueue.DrainPass | nng/_nng.pyx:251-256 | one pass of the dispatcher, with pushes between its get_ready calls, hands out everything queued and arrived, in order, and leaves nothing |
| DispatchQueues.QueueConservation | nng/cpp/dispatch.hpp:31-78 | in every order of operations, each of which is what the methods do to the queue, items pushed are items popped followed by items still queued |
| DispatchQueues.SockDispatchQueue.Push | nng/cpp/platform.hpp:226-237 | appends, and sends one byte exactly on the transition from empty, which a full buffer swallows |
| DispatchQueues.SockDispatchQueue.GetReady | nng/cpp/platform.hpp:239-245 | hands out the oldest id as a batch of its own |
| DispatchQueues.SockDispatchQueue.DrainReady | nng/cpp/platform.hpp:247-251 | appends all queued ids in push order and empties the queue |
| DispatchQueues.SockDispatchQueue.DrainWakeup | nng/cpp/platform.hpp:255-258 | leaves no readable byte |
| DispatchQueues.SockDispatchQueue.DrainedIsPrefix | nng/cpp/platform.hpp:226-251 | the concatenated drained batches are a prefix of the push order |
| DispatchQueues.DispatchQueueContainer.Fire | nng/cpp/platform.hpp:365-372 | first to the flag pushes nothing, second pushes the id once |
| DispatchQueues.DispatchQueueContainer.ReachSkipPoint | nng/cpp/platform.hpp:374-382 | true exactly when fire came first |
| AioManager.Manager.CollectCallbacks | nng/_aio_async.pxi:656-675 | takes bytes, then ids; what stays registered is exactly what no id names, and distinct registered ids yield their callbacks in order; nothing after release |
| AioManager.Manager.Detach | nng/_aio_async.pxi:786-792 | hands over everything registered, once |
| AioManager.CollectTakesExactly | nng/_aio_async.pxi:668-673 | popping one by one leaves exactly the entries no id names, and takes the callbacks of distinct registered ids in order |
| AioManager.PopAllCollects | nng/_aio_async.pxi:668-673 | the single pops of the step relation, uninterrupted, collect what the object collects |
| ConversationManager.Manager.DispatchItem | examples/REP-REQ/conversation/server.py:112-158 | refused quietly if and only if the manager has stopped; RuntimeError if and only if it is running with a message queued or a current slot; otherwise, and only then, the item joins the inbox; in both other cases the reply event is set and nothing else changes |
| ConversationManager.Manager.SignalDisconnect | examples/REP-REQ/conversation/server.py:160-170 | stops the manager and leaves a sentinel unless shut down |
| ConversationManager.Manager.Receive | examples/REP-REQ/conversation/server.py:176-193 | a message leaves the inbox and becomes the current slot; a sentinel leaves it and is a connection reset, the current slot staying |
| ConversationManager.Manager.BeginSend | examples/REP-REQ/conversation/server.py:205-210 | the current slot leaves the manager before the await |
| ConversationManager.Manager.Finally | examples/REP-REQ/conversation/server.py:86-106 | sets the events of exactly the slots held and leaves an empty, stopped, shut-down manager |
| RepServerSteps.RunKeepsInv | examples/REP-REQ/conversation/server.py:443-510 | every interleaving of loops, managers, sends and disconnects keeps the ownership invariant |
| RepServerTheorems.SlotExclusivity | examples/REP-REQ/conversation/server.py:112-222 | an unset reply event has exactly one owner in exactly one place (inbox, current, send in flight), a set one has none |
| RepServerTheorems.LoopAloneWithContext | examples/REP-REQ/conversation/server.py:466-510 | a loop not waiting on an unset event is the only one that can use its context |
| RepServerTheorems.OwnerHasTheLoopWaiting | examples/REP-REQ/conversation/server.py:498-510 | who owns a slot has the loop of its context waiting for exactly that event |
| RepServerTheorems.NoSlotLeak | examples/REP-REQ/conversation/server.py:72-106 | after a manager's task is over, a slot ever handed to it is unset if and only if a send with it is still in flight, or the task was cancelled before its first step and the slot is in its inbox |
| RepServerTheorems.EndedWithSendInFlight | examples/REP-REQ/conversation/server.py:195-222 | a manager that has ended while a send of its conversation is in flight, its loop waiting, is reachable |
| RepServerTheorems.AbandonedSlotExists | examples/REP-REQ/conversation/server.py:488-496 | a task cancelled before its first step, its done callback run, its slot unset and its loop waiting, is reachable |
| RepServerTheorems.AbandonedForGood | examples/REP-REQ/conversation/server.py:453-496 | no continuation ever sets the event of such a slot: neither the task nor its done callback releases it |
| RepServerTheorems.NoLoopStuckOnEndedManager | examples/REP-REQ/conversation/server.py:508-510 | a loop waiting on an ended manager without sends in flight can go on |
| RepServerTheorems.LateDispatchIsReleased | examples/REP-REQ/conversation/server.py:135-138 | a slot dispatched to an ended manager is released at once |
| RepServerTheorems.InboxBound | examples/REP-REQ/conversation/server.py:61-61 | at most one message and one sentinel, the sentinel last |
| RepServerTheorems.PutNeverFindsFull | examples/REP-REQ/conversation/server.py:151-170 | put_nowait finds room in both of its uses |
| RepServerTheorems.ArecvNeverOverwrites | examples/REP-REQ/conversation/server.py:186-193 | arecv finds no live current context |
| RepServerTheorems.ReceiveRoutes | examples/REP-REQ/conversation/server.py:467-510 | in every reachable state, after a receive the loop replies itself if and only if the message has no pipe or its manager is running with a request not yet being answered; otherwise it waits for the event of the new slot |
| RepServerTheorems.ReceiveHands | examples/REP-REQ/conversation/server.py:482-510 | the message goes to the manager listed under its pipe, or to a new one; its event is set at once if and only if it came too early or that manager has stopped; otherwise the slot is in the manager's inbox |
| RepServerTheorems.OverrunOwns | examples/REP-REQ/conversation/server.py:141-158 | coming too early means that the running manager owns an unset slot in its inbox or as current |
| RepServerTheorems.LoopServesOn | examples/REP-REQ/conversation/server.py:466-512 | without an exit of its own a dispatch loop never stops serving, in any continuation |
| RepServerTheorems.RemovalIsSignalled | examples/REP-REQ/conversation/server.py:424-437 | a removed pipe is unlisted and its manager stopped, with a sentinel in its inbox unless it is shut down |
| RepServerTheorems.DoneUnlists | examples/REP-REQ/conversation/server.py:483-496 | after the done callback the pipe is unlisted, whoever was listed, and its next message starts a new manager that holds it |
| RepServerTheorems.ReplyRouting | examples/REP-REQ/conversation/server.py:176-222 | each reply answers the request received just before it, from the conversation's own pipe, on that request's slot, and no request is answered twice |
| RepServerTheorems.SlotsAreReceived | examples/REP-REQ/conversation/server.py:467-501 | every slot stands for a message its loop received on that very context earlier in the run |
| RepServerTheorems.OneLiveManagerPerPipe | examples/REP-REQ/conversation/server.py:424-437 | two live managers never share a pipe, and a live one is listed under its pipe until removal |
| RepServerTheorems.TwoLiveManagersWithoutIt | examples/REP-REQ/conversation/server.py:483-496 | without the ordering assumption a second live manager appears |
| SecureTheorems.MoveIsPlain | examples/PAIR/secure_subscriber/secure_sockets/secure_rep.py:268-314 | each move of the secure manager, with its own guard and effect, is an enabled step of the plain slot machine with the same effect on client and events, or changes neither |
| SecureTheorems.SecureRefinesPlain | examples/PAIR/secure_subscriber/secure_sockets/secure_rep.py:114-314 | every run of the secure server is, step by step, a run of the plain slot machine |
| SecureTheorems.SecureStatesArePlainStates | examples/PAIR/secure_subscriber/secure_sockets/secure_rep.py:204-314 | so all slot theorems hold of it |
| SecureTheorems.HandshakeNeverFaults | examples/PAIR/secure_subscriber/secure_sockets/secure_rep.py:288-302 | _asend_raw never raises RuntimeError in _execute: a context is at hand whenever the handshake sends |
| SecureTheorems.RunKeepsHandshake | examples/PAIR/secure_subscriber/secure_sockets/secure_rep.py:114-198 | every interleaving with disconnects and timeouts keeps each manager's actions, current slot and send in flight those of its handshake phase |
| SecureTheorems.ConversationOnlyAfterHandshake | examples/PAIR/secure_subscriber/secure_sockets/secure_rep.py:124-171 | while the callback runs: hello received, auth sent, confirm verified under an authorized key, "ok" sent, in that order, all from the manager's own pipe |
| SecureTheorems.ActionsImplyHandshake | examples/PAIR/secure_subscriber/secure_sockets/secure_rep.py:166-172 | a manager that did more than four actions completed the handshake, ended or not |
| SecureTheorems.OkOnlyToVerified | examples/PAIR/secure_subscriber/secure_sockets/secure_rep.py:154-166 | in every reachable state a sent "ok", delivered or not, answers a confirm that an authorized key accepts for the hello and auth before it |
| SecureTheorems.UnauthorizedIsRefused | examples/PAIR/secure_subscriber/secure_sockets/secure_rep.py:154-163 | in every reachable state a manager whose confirm no authorized key accepts has at most four actions, the fourth being the refusal or giving up, and never talks |
| SecureTheorems.ConversationIsReachable | examples/PAIR/secure_subscriber/secure_sockets/secure_rep.py:124-171 | for every configuration, hello and confirm that it accepts, some run starts the callback |
| SecureTheorems.ExitsUnwind | examples/PAIR/secure_subscriber/secure_sockets/secure_rep.py:160-179 | in every reachable state a disconnect, an exception, a failed send, the refusal or the end of the callback leads to the finally block, without another action |
| SecureTheorems.OnlyExitsUnwind | examples/PAIR/secure_subscriber/secure_sockets/secure_rep.py:160-179 | nothing else leads there |
| SecureTheorems.FinallyEnds | examples/PAIR/secure_subscriber/secure_sockets/secure_rep.py:177-198 | the finally block sets the events of all slots held and leaves a stopped, empty, shut-down manager |
| SecureTheorems.QuitForGood | examples/PAIR/secure_subscriber/secure_sockets/secure_rep.py:172-198 | in every continuation a manager that left its handshake does nothing more than give up the request it held, once |
| PipeCollections.PipeCollection.HandleEvent | nng/cpp/pipe.hpp:236-284 | after one more event the handles, the filter's calls and the flag are still what the whole history says; the pipe is closed exactly if rejected, the anchors are what the filter made of it, and no status goes back |
| PipeCollections.PipeCollection.MeetsItsHistory | nng/cpp/pipe.hpp:236-298 | an object with a well-formed history holds exactly the accepted, not yet removed pipes, and a filter there from the start was told of each accepted pipe's activation and removal exactly once each, and of nothing else |
| PipeCollections.PipeCollection.SetFilter | nng/cpp/pipe.hpp:229-232 | the handles stay; a change in mid-run ends the promise about the calls |
| PipeCollections.PipeCollection.FindPipe | nng/cpp/pipe.hpp:314-319 | index of the first handle with the id, or the length |
| PipeCollections.PipeCollection.RemoveAt | nng/cpp/pipe.hpp:329-338 | the handle is marked removed and leaves; the others keep their order |
| PipeCollections.PipeCollection.ClearAll | nng/cpp/pipe.hpp:292-298 | every handle is marked removed, the collection is empty and agrees with the history extended by the clear |
| PipeCollections.PipeCollection.HadEvents | nng/cpp/pipe.hpp:301-306 | true if and only if some event since the last call was visible, that is, not an ADD_PRE that the filter rejected |
| PipeHistory.CollectionRefinesHistory | nng/cpp/pipe.hpp:236-298 | for every well-formed history the collection is exactly the accepted, not yet removed pipes in ADD_PRE order, with distinct ids |
| PipeHistory.InCollectionExactly | nng/cpp/pipe.hpp:238-250 | an id is present if and only if a pipe with it was accepted and not removed; a rejected pipe never appears |
| PipeHistory.AddPostExact | nng/cpp/pipe.hpp:251-265 | an ADD_POST keeps the agreement if and only if its pipe is alive |
| PipeHistory.ReportsOnce | nng/cpp/pipe.hpp:251-282 | on_added and on_removed run at most once per pipe and only for allowed pipes |
| PipeHistory.ReportsExactly | nng/cpp/pipe.hpp:251-282 | for every accepted pipe: on_added was called if and only if its ADD_POST came while it was there, on_removed if and only if its REM_POST did |
| Cidr.Match | nng/cpp/pipe_filter.hpp:122-156 | for every pair and prefix length the byte loop and mask answer whether both addresses have equal quotient by the host-part power of two, within bounds |
| Cidr.TopBitsAreBytes | nng/cpp/pipe_filter.hpp:126-137 | equal leading bits if and only if equal whole bytes and equal masked remainder |
| Cidr.MaskCompares | nng/cpp/pipe_filter.hpp:135-137 | the mask compares exactly the leading bits of a byte |
| Cidr.ShorterPrefixMatches | nng/cpp/pipe_filter.hpp:122-156 | a match implies a match at every shorter prefix |
| Cidr.ExtremePrefixes | nng/cpp/pipe_filter.hpp:122-156 | full length matches only the address itself, length zero everything |
| PipeFilters.IpAllows | nng/cpp/pipe_filter.hpp:186-209 | non-IP peers pass; otherwise an allow list admits exactly the members of a listed network and a deny list exactly the others; an empty allow list refuses every IP peer, an empty deny list none |
| PipeFilters.PidAllows | nng/cpp/pipe_filter.hpp:253-261 | unknown process ids pass; otherwise an allow list admits exactly its members and a deny list exactly the others, also when empty |
| PipeFilters.PortAllows | nng/cpp/pipe_filter.hpp:227-237 | port 0 passes; otherwise an allow list admits exactly the raw ports inside a range and a deny list exactly the others |
| PipeFilters.AddrsEqualIpExactly | nng/cpp/pipe_filter.hpp:93-110 | two addresses are taken as equal if and only if one is not an IP address or both are of one family with the same bytes throughout |
| PipeFilters.FirstWinsFilter.Allow | nng/cpp/pipe_filter.hpp:306-329 | admits a pipe if and only if it agrees on all selected keys with the first pipe asked since the last reset, told from the calls alone |
| PipeFilters.FirstWinsFilter.Reset | nng/cpp/pipe_filter.hpp:332-335 | whichever pipe is asked next becomes the new first |
| PipeFilters.ResetStartsOver | nng/cpp/pipe_filter.hpp:306-335 | after any calls and a reset, the next pipe asked is the one that all later ones are compared with |
| PipeFilters.FirstWinsAgreement | nng/cpp/pipe_filter.hpp:93-110 | over any run of allow and reset all pipes admitted since the last anchor agree with it on the selected keys, pairwise on process id and raw port, and pairwise on every address byte when the anchor is an IP peer |
| PipeFilters.NonIpAnchorAdmitsExactly | nng/cpp/pipe_filter.hpp:97-99 | for every mask with IP: under a non-IP anchor two peers with different IPs are both admitted if and only if they meet the other selected keys (same process id; port 0) |
| FilterTrees.StatelessAllow | nng/cpp/pipe_filter.hpp:355-380 | a tree without first-wins leaves computes nested conjunction and disjunction of what its lists say, mode by mode, and changes nothing |
| FilterTrees.ScanVerdict | nng/cpp/pipe_filter.hpp:355-380 | with first-wins leaves too: All admits if and only if every child, asked in order, admits, and Any refuses if and only if every child refuses |
| FilterTrees.OrderDoesNotMatter | nng/cpp/pipe_filter.hpp:355-380 | permuting stateless children changes nothing |
| FilterTrees.AllowEffect | nng/cpp/pipe_filter.hpp:355-380 | one evaluation changes a first-wins anchor if and only if it reaches that leaf and the leaf has none |
| FilterTrees.AnchoredByFirstReached | nng/cpp/pipe_filter.hpp:306-319 | over any run a first-wins leaf is anchored by exactly the first pipe whose short-circuit evaluation reaches it |
| ThreadPoolInvariant.StepKeepsInv | examples/PULL-PUSH/threadpool/threadpool.py:139-192 | every step of submit, a worker or shutdown keeps the bookkeeping invariant |
| ThreadPoolInvariant.RunKeepsInv | examples/PULL-PUSH/threadpool/threadpool.py:139-256 | so does every interleaving |
| ThreadPoolTheorems.ExactlyOnePlace | examples/PULL-PUSH/threadpool/threadpool.py:139-192 | a call the user did not cancel is in exactly one place: being stored, pending, at one worker, held by one cancel loop, or finished |
| ThreadPoolTheorems.AtMostOneHolder | examples/PULL-PUSH/threadpool/threadpool.py:148-162 | even with user cancels a call is never held by two parties |
| ThreadPoolTheorems.NumbersAreDistinct | examples/PULL-PUSH/threadpool/threadpool.py:179-184 | no two calls share an id, and a pending entry belongs to the call with its id |
| ThreadPoolTheorems.SettledAtMostOnce | examples/PULL-PUSH/threadpool/threadpool.py:155-162 | the pool settles each future at most once; a worker meets a done future, and ends, only after a user cancel |
| ThreadPoolTheorems.MissingMeansCancelled | examples/PULL-PUSH/threadpool/threadpool.py:148-152 | a worker finds its entry missing only if a cancel loop took it |
| ThreadPoolTheorems.NoCallIsForgotten | examples/PULL-PUSH/threadpool/threadpool.py:184-192 | until the channel is closed, the message of every pending, submitted call is queued or at a worker |
| ThreadPoolTheorems.LeftUndoneExactly | examples/PULL-PUSH/threadpool/threadpool.py:235-256 | after a cancelling shutdown with all workers stopped, a stored call is undone if and only if its entry is still pending and the user did not cancel it, and then it was stored after the loop found nothing |
| ThreadPoolTheorems.UnstoredCallCanBeMissed | examples/PULL-PUSH/threadpool/threadpool.py:176-192 | from every reachable state where the cancel loops are over, any call inside submit() and not stored yet can be left undone by a submit() that raises, and no continuation ever completes it then |
| ThreadPoolTheorems.ReturnedCallCanBeMissed | examples/PULL-PUSH/threadpool/threadpool.py:184-251 | while the push socket is still open, any such call can even return a future that the pool never completes, in any continuation; only the user can cancel it |
| ThreadPoolTheorems.DoomedForGood | examples/PULL-PUSH/threadpool/threadpool.py:139-162 | a pending call whose submit() raised or whose message was lost after the cancel loops stays pending in every run |
| ThreadPoolTheorems.MissableCallExists | examples/PULL-PUSH/threadpool/threadpool.py:176-184 | states that meet the conditions of both are reachable |
| ThreadPoolOutcomes.OutcomeIsWhatHappened | examples/PULL-PUSH/threadpool/threadpool.py:155-162 | in every run a future holds a result if and only if the Finish step of the trace that settled it found the function returned, an exception if and only if it found it raised, and is cancelled if and only if the user or a cancel loop did that while it was undone |
| ThreadPoolOutcomes.NoCallAfterShutdown | examples/PULL-PUSH/threadpool/threadpool.py:176-177 | once the flag is set no run adds a call |
| ThreadPoolOutcomes.WorkerCanGoOn | examples/PULL-PUSH/threadpool/threadpool.py:139-162 | in every reachable state a worker with a message or a call in its hands can go on, and an idle one as soon as there is a message or the channel is closed |
| ThreadPoolOutcomes.SubmitCanGoOn | examples/PULL-PUSH/threadpool/threadpool.py:176-192 | submit waits for nothing but the id lock, whose holder can release it |
| ThreadPoolOutcomes.ShutdownCanGoOn | examples/PULL-PUSH/threadpool/threadpool.py:235-251 | shutdown waits for nothing before its join; its loop takes an entry or has found none |
| ThreadPoolObject.NngThreadPool.Submit | examples/PULL-PUSH/threadpool/threadpool.py:166-192 | refused after shutdown; otherwise the next number is stored and, unless the channel is closed, sent |
| ThreadPoolObject.NngThreadPool.Turn | examples/PULL-PUSH/threadpool/threadpool.py:139-162 | one worker turn removes the entry; if its future was undone it now holds a result exactly if the function returned and an exception exactly if it raised, and no other future changes; the result is refused exactly by a future that already has one |
| ThreadPoolObject.NngThreadPool.Shutdown | examples/PULL-PUSH/threadpool/threadpool.py:227-256 | a second call does nothing; with cancel_futures every pending undone future is cancelled and no other changes |
| ThreadPoolObject.SubmitRuns | examples/PULL-PUSH/threadpool/threadpool.py:176-192 | the uninterrupted steps of submit have the effect of Submit |
| ThreadPoolObject.TurnRuns | examples/PULL-PUSH/threadpool/threadpool.py:139-162 | the uninterrupted steps of a worker have the effect of Turn, and end the thread exactly when the future already had an outcome and was not cancelled |
| ThreadPoolObject.CancelLoopRuns | examples/PULL-PUSH/threadpool/threadpool.py:240-248 | the uninterrupted cancel loop has the effect of Shutdown's loop |
| ThreadPoolMap.MapGenerator.Next | examples/PULL-PUSH/threadpool/threadpool.py:210-225 | results come in input order; the k-th comes exactly when its future succeeds and the items ahead of it in the window were accepted; never more than max(1, buffersize) futures outstanding; the send buffer is set at the first next() and restored only at the normal end |
| ThreadPoolMap.Collect | examples/PULL-PUSH/threadpool/threadpool.py:210-225 | a full iteration returns the values up to the first blocked result, and raises exactly if there is one |
| HandlesInvariant.StepKeepsCore | nng/cpp/aio.hpp:28-63 | every construct, share, move, assign and drop keeps tables, log and socket order in agreement |
| HandlesTheorems.ReleasedAtMostOnce | nng/cpp/context.hpp:20-54 | nothing is released twice, and what is not released sits in exactly one live handle |
| HandlesTheorems.EverythingReleasedOnce | nng/cpp/aio.hpp:47-63 | when callers hold nothing any more, each resource has been released exactly once |
| HandlesTidy.RunKeepsTidy | nng/cpp/context.hpp:38-38 | in every run each handle object has a reference |
| HandlesTheorems.SocketsCloseLast | nng/cpp/socket.hpp:21-55 | a socket closes after all contexts opened on it and all aios anchored to it, however moved |
| HandlesCounts.SocketOpenExactly | nng/cpp/socket.hpp:21-55 | in every run an opened socket is closed if and only if its callers dropped every reference they made, counted from the calls, every context opened on it is closed and every aio anchored to it is freed |
| HandlesCounts.CallersAreCounted | nng/cpp/context.hpp:20-38 | in every run a context handle object is alive if and only if its callers made more references than they dropped or a live aio is anchored to it |
| HandlesTheorems.ContextsOutliveAios | nng/_aio_async.pxi:66-72 | in every run without a move out of or into a handle in use, contexts close after their aios and containers go after their aio |
| HandlesTheorems.LinksKeptExactly | nng/cpp/context.hpp:26-36 | a step keeps every link if and only if it is none of those moves |
| HandlesTheorems.MoveThenDropClosesEarly | nng/cpp/context.hpp:26-38 | from any state, moving out of a handle in use and dropping the new handle closes the context under a live aio |
| HandlesTheorems.AssignClosesEarly | nng/cpp/context.hpp:28-36 | from any state, assigning to a handle in use closes its context at that step, under a live aio |
| HandlesTheorems.AssignThenDropClosesEarly | nng/cpp/context.hpp:28-38 | from any state, assigning out of a handle in use and dropping the target closes the context under a live aio |
| HandlesTheorems.MoveThenDropFreesContainerEarly | nng/cpp/aio.hpp:28-34 | likewise for an aio moved out of its op |
| HandlesTheorems.AssignThenDropFreesContainerEarly | nng/cpp/aio.hpp:36-45 | likewise for an aio assigned out of its op |
| HandlesTheorems.EarlyCloseIsReachable | nng/cpp/context.hpp:26-38 | the failure occurs in some run |
| HandleObjects.SockCountZero | nng/cpp/context.hpp:56-58 | the strong count of a socket handle is zero if and only if no caller, context or aio refers to it |
| HandleObjects.CtxCountZero | nng/cpp/aio.hpp:66-67 | the strong count of a context handle is zero if and only if no caller and no aio refers to it |
| HandleObjects.HandleHeap.AssignContext | nng/cpp/context.hpp:28-36 | move assignment in place, with counts: closes its own context and, at count zero, the socket given up, exactly as the ownership graph does |
| HandleObjects.HandleHeap.AssignHandle | nng/cpp/aio.hpp:36-45 | frees its own aio and releases what its anchor held last, exactly as the graph does |
| HandleObjects.HandleHeap.Destroy | nng/cpp/aio.hpp:53-63 | the aio is freed before the anchor's count goes down, and a context or socket at zero closes after it, as in the graph |
| HandleObjects.HandleHeap.DropAio | nng/cpp/aio.hpp:47-63 | likewise for the destructor |
| HandleObjects.HandleHeap.CloseCtx | nng/cpp/context.hpp:51-54 | closes the context if open, then gives the socket reference up |
| HandleObjects.HandleHeap.GiveUpSock | nng/cpp/socket.hpp:21-55 | the socket closes exactly when its last reference goes |
| HandleObjects.HandleHeap.GiveUpCtx | nng/cpp/context.hpp:38-38 | the context handle is destroyed exactly when its last reference goes, and its context closed before its socket reference is given up |
| HandleObjects.HandleHeap.DropSocket | nng/cpp/socket.hpp:21-21 | a caller's reference to a socket goes, as in the graph |
| HandleObjects.HandleHeap.DropContext | nng/cpp/context.hpp:38-38 | a caller's reference to a context goes, as in the graph |
| Base64Url.DecodeEncode | examples/PAIR/secure_subscriber/secure_sockets/security_utils.py:121-129 | decoding the padded text of any byte string gives it back (section 5 of RFC 4648) |
| Base64Url.PaddingRestored | examples/PAIR/secure_subscriber/secure_sockets/security_utils.py:123-128 | stripping removes exactly the padding that b64dec appends |
| Base64Url.RoundTrip | examples/PAIR/secure_subscriber/secure_sockets/security_utils.py:121-129 | b64dec(b64enc(x)) is x for every byte string |
| Base64Url.EncodingIsInjective | examples/PAIR/secure_subscriber/secure_sockets/security_utils.py:121-123 | distinct byte strings have distinct texts |
| Base64Url.TextSpellsTheBits | examples/PAIR/secure_subscriber/secure_sockets/security_utils.py:121-123 | the i-th character of b64enc is the entry of table 2 of RFC 4648 for the six bits from bit 6i on, highest bit first, with zeros after the end |
| Base64Url.TextIsUrlSafe | examples/PAIR/secure_subscriber/secure_sockets/security_utils.py:121-123 | every character of b64enc is a letter, a digit, '-' or '_', and there is one per six bits, rounded up |
| Base64Url.FailsExactly | examples/PAIR/secure_subscriber/secure_sockets/security_utils.py:126-129 | b64dec of a text of symbols fails if and only if its length leaves remainder 1 by 4 |
| Base64Url.ForeignIsSkipped | examples/PAIR/secure_subscriber/secure_sockets/security_utils.py:126-129 | a character outside both alphabets changes nothing in the decoder, wherever it stands |
| Handshake.HelloIsRead | examples/PAIR/secure_subscriber/secure_sockets/security_utils.py:188-204 | the server reads the client's key and challenge, and refuses a key of the wrong size |
| Handshake.ServerAuthIsAccepted | examples/PAIR/secure_subscriber/secure_sockets/security_utils.py:261-325 | the client rebuilds the signed transcript and accepts, for all keys and challenges |
| Handshake.AcceptedAuthIsOfOwnRun | examples/PAIR/secure_subscriber/secure_sockets/security_utils.py:294-325 | if only the server's transcripts verify under the pinned key, what the client accepts is the key and challenge of a server run on its own hello if and only if the accepted challenge has 32 bytes, whatever hellos the server answered |
| Handshake.AuthOfOtherHelloIsAccepted | examples/PAIR/secure_subscriber/secure_sockets/security_utils.py:294-325 | without that check the binding fails for every hello and key-sized string: the server's answer to a longer challenge is accepted as the answer to this hello, with another key |
| Handshake.AuthTranscriptBinds | examples/PAIR/secure_subscriber/secure_sockets/security_utils.py:280-285 | for a given hello one signed transcript stands for one server key and challenge |
| Handshake.TranscriptsBindExactly | examples/PAIR/secure_subscriber/secure_sockets/security_utils.py:280-285 | across hellos, equal transcripts stand for the same run if and only if the server challenges have equal length |
| Handshake.TranscriptsCoincide | examples/PAIR/secure_subscriber/secure_sockets/security_utils.py:280-285 | bytes moved from the end of one challenge to the key and challenge after it leave the transcript as it is |
| Handshake.VerifyConfirm | examples/PAIR/secure_subscriber/secure_sockets/security_utils.py:400-434 | accepts if and only if the signature has 64 bytes and some authorized key verifies it over server challenge, client challenge, server key and client key; malformed text or, with a key to try, a wrong size is an error of its own; only the set of keys counts, not its order |
| Handshake.ConfirmIsAccepted | examples/PAIR/secure_subscriber/secure_sockets/security_utils.py:371-434 | the server rebuilds the transcript and accepts when the client's key is among the authorized |
| Handshake.TranscriptSlices | examples/PAIR/secure_subscriber/secure_sockets/security_utils.py:390-395 | each transcript is its four parts, in the documented order and with nothing between |
| Handshake.ConfirmsBindExactly | examples/PAIR/secure_subscriber/secure_sockets/security_utils.py:390-395 | with key-sized keys, equal confirm transcripts stand for the same session if and only if the server challenges have equal length |
| Handshake.ConfirmsCoincide | examples/PAIR/secure_subscriber/secure_sockets/security_utils.py:390-395 | bytes moved from the end of the server challenge to the front of the client's leave the transcript as it is |
| Handshake.AcceptedConfirmIsOfThisSession | examples/PAIR/secure_subscriber/secure_sockets/security_utils.py:421-434 | if only the clients' own sessions verify under the authorized keys, an accepted confirm is of a session on this very server challenge, server key and hello if and only if the challenge of the hello has 32 bytes |
| Handshake.ConfirmOfOtherSessionIsAccepted | examples/PAIR/secure_subscriber/secure_sockets/security_utils.py:421-434 | without that check the binding fails: for every session and every string, a confirm of the session with the string moved between the challenges is accepted |
| Handshake.HonestRunAgrees | examples/PAIR/secure_subscriber/secure_sockets/security_utils.py:97-434 | in an honest run both sides hold the same values, both checks accept and both session keys are equal |

## Left out

- nng itself, sockets, file descriptors, TLS, the GIL and asyncio internals.
- The Windows `SockDispatchQueue` (same logic) and the eventfd variant.
- The fallback `_AioCbASync` path, a loop closed before `release()`, and ops in flight when
  user code cancels the PROACTOR drain task.
- What the dispatch loop itself replies ("No pipe", an empty message) and its closing of the pipe after
  a double message; the removal that follows is a step like any other.
- Memory-order effects: locks and atomics are taken as sequentially consistent steps.
- Byte order of ports: `PortFilter` and the port key compare the raw value, as the code does.
- Prefix lengths beyond the address size, which the caller takes from Python's `ipaddress` (`nng/_pipe_filter.pxi`, lines 147-153).
- `set_filter` in the middle of a run, for the on_added and on_removed property.
- Order in which `popitem` empties the pool's dictionary, "every future resolves" after a plain
  shutdown, the join at its end, and what happens to a `map` whose consumer stops early.
- Explicit `close()` on handles, clearing of the pipe callbacks before a socket closes, and handle
  construction on the counted heap (the graph has it).
- CompletionTheorems.RegisteredStaysAlive: says nothing after release, when the detached dictionary
  and its ops form a cycle that Python's collector may free; the model has no collector.
- Task interleavings of the servers are a relation on values; aliasing between Python objects
  appears only in the objects of `ConversationManager`.
- Cryptographic strength, randomness, JSON, the encryption of the confirm and its key box.
- Calculator commands, event feed, logging, stub generator, benchmarks and demos.
