# Proofs about the sandbox control channel and the built-in container runtime

This project models three parts of the repository in Dafny and proves properties of the models.

1. **fdchan** (`pkg/sandbox/fdchan`): request/reply multiplexing with descriptor passing over one stream
   socket.  `Wire` has the frame format, `Mux` one end of a connection as a step machine, two of which are
   linked.  A run is a list of steps of either end in any interleaving; every theorem in `MuxTheorems` is about
   all runs, and `MuxMessages` says what they mean for the messages given to Request and to responders.
   `MuxObjects` is the same end as the objects it is made of (channels, the sessions map, byte buffers); each of
   its methods is proved to be the machine's step.  `Descriptors` has the `Message` class and what becomes of
   named descriptors on the other side.
2. **The fake CRI runtime** (`pkg/cri`): `CriSystem` is the concurrent system: any number of handlers with any
   requests, the ticker, both mutexes, the event list, the done channels, each critical section a step.
   `CriEffects.Serves` says what one request served alone, together with its delayed transition, may make of
   the store, over every order its map scans may take; `CriModel.Handle` is the function this is when ids are
   not empty, and `CriAnswers` a second account of the requests, field by field, that fits it both ways.
   `CriSystemTheorems` proves that the system refines both, `CriSystemProgress` that no handler waits
   for more than ten ticks and nobody is stuck, `CriSystemLimits` what an empty id does.  `Scheduler` has the
   event list on its own, for any delays.  `Records`, `RuntimeStore` and `BuiltinCri` are the stores and handlers
   on the heap, with labels and image specs shared and cloned as the program does; `Snapshots` are clients that
   keep and overwrite every object they ever exchanged with them.
3. **The sandbox bootstrap** (`pkg/sandbox/sandbox.go`): `Handshake` composes the parent program and the
   child's command loop with two linked fdchan ends, `HandshakeRuns` has a run that completes it, `CommandLoop` is
   the child's loop as code, `Bootstrap` the setup steps under the `lastError` discipline.  `Procfs` is the read of an overridden procfs file.

Nothing here was run against the Go program; the models were written from its source.

## Assumptions

- `encoding/json` is a parameter `Codec` with the laws `Wire.Lawful`: decoding undoes encoding up to the
  replacement of invalid UTF-8 in strings, and neither an empty input nor one with a raw NUL byte is a JSON
  text (sections 2 and 7 of RFC 8259).  Nil and empty `Data` are the same value.  `LawfulCodec` proves the laws
  consistent.
- A frame is written whole or not at all (`writeWire` ignores the byte count, fdchan.go:352) and is shorter than
  2^32 bytes; `Wire.HeaderExact` says that a longer body never announces its own length.  A side makes fewer
  than 2^64 requests.
- The kernel delivers a frame's descriptors with the frame's first byte and keeps the ten-element prefix that
  fits the control buffer (fdchan.go:358).  How many bytes a read returns, which goroutine moves, and whether a
  read or write fails is free.
- Clock readings are positive.  The time stamps that make new ids are arbitrary; the handlers' own checks for
  existing ids are modelled.  The runtime's tick counter does not overflow in `CriSystem` and `RuntimeStore`;
  `Scheduler` keeps the 64-bit wrap-around and says when it matters.
- Requests take any ids.  What `Handle` does equals what the handlers do when no id or image name that is looked
  up is empty and no nil image is pulled (`CriSystemTheorems.Named`).  The store invariant needs less: only a stop
  or start by the empty id that finds something to select, or the pull of a nil image, breaks it, and each of
  those does (`CriEffects.HarmlessExactly`, over a run `CriSystemTheorems.InvThroughoutExactly`).
- A label selector matches the label sets that carry all its pairs.

## Where the code and its documentation differ

- The comment on `Enqueue` (model.go:259) and a test (cri_test.go:54-61) describe a call that returns a channel at
  once.  The code blocks until the callback has run and returns nil.  The model follows the code, and the
  atomicity results depend on it.
- A `Request` that registers after the reader has closed the sessions waits for ever.  `WaitersAfterExit` says
  that exactly those calls do, `LateWaiterExists` gives a run.
- `GetSandbox("")` and `GetContainer("")` return any object, and an empty image name any image.  The lemmas named
  `...Exactly` and `...ScanExact` give the guard under which the code does what its names say.
- `CreateContainer` reads the image of its config without a check (cri.go:283).  A config without an image passes
  the checks whenever any image is stored, and the handler then panics: `BuiltinCri` says exactly when.

## Model

| member | source | states |
|---|---|---|
| Wire.HeaderExact | pkg/sandbox/fdchan/fdchan.go:338-340 | a frame's header announces its body's own length, most significant byte first, if and only if the body is shorter than 2^32 bytes |
| Wire.FdsAt | pkg/sandbox/fdchan/fdchan.go:356-376 | a header read at a frame boundary receives that frame's descriptors and no other frame's |
| MuxMessages.ReplyMatching | pkg/sandbox/fdchan/fdchan.go:111-316 | in every run, of a successful Request, the q-th its side began: the other end's HandleRequest returned the message it was given under number q (same data, cleaned strings, the first ten descriptors), and it returns, changed in the same way, the message given to the first accepted call of that request's responder |
| MuxMessages.HandledIsAsked | pkg/sandbox/fdchan/fdchan.go:145-195 | every request HandleRequest ever returns is a message that the other side's Request of that number was given |
| MuxMessages.RequestCanSucceed | pkg/sandbox/fdchan/fdchan.go:145-183 | wherever both ends are quiet any message can be sent and any reply given: a continuation makes the next Request return it |
| MuxTheorems.ReplyNotLost | pkg/sandbox/fdchan/fdchan.go:125-182 | in every run a call that has returned while some dispatched frame is a reply to it returned that success, not an error: no reply is lost |
| MuxTheorems.FramingIsPrefix | pkg/sandbox/fdchan/fdchan.go:328-392 | for every schedule of short reads, what readLoop dispatches is a prefix of what the other end wrote |
| MuxTheorems.ShortReadFails | pkg/sandbox/fdchan/fdchan.go:360-389 | a header or body read that comes up short always ends in failure |
| MuxTheorems.FailStop | pkg/sandbox/fdchan/fdchan.go:113-123 | after a failed read nothing is ever dispatched again |
| MuxTheorems.RequestsArePrefix | pkg/sandbox/fdchan/fdchan.go:185-195 | the requests HandleRequest returns, also after done was closed, are a gap-free prefix of those written, in wire order, none twice |
| MuxTheorems.ChannelSafety | pkg/sandbox/fdchan/fdchan.go:115-134 | each session's channel gets at most one send or one close over the whole run, and none hits a closed channel |
| MuxTheorems.SendNeverBlocks | pkg/sandbox/fdchan/fdchan.go:125-134 | the send made while sessionsMu is held can always complete |
| MuxMessages.QueueBlocksExactly | pkg/sandbox/fdchan/fdchan.go:135-142 | at most 128 requests are queued, and readLoop waits with one exactly when there are 128 |
| MuxTheorems.WaitersAfterExit | pkg/sandbox/fdchan/fdchan.go:115-122 | after the sessions are closed, a waiting call is stuck if and only if it registered afterwards |
| MuxTheorems.LateWaitsForever | pkg/sandbox/fdchan/fdchan.go:150-172 | such a late call is never released by any continuation of the run |
| MuxTheorems.LateWaiterExists | pkg/sandbox/fdchan/fdchan.go:150-172 | a run that leaves a Request waiting for ever |
| MuxTheorems.HandlesConserved | pkg/sandbox/fdchan/fdchan.go:373-391 | every file handle readWire made is in exactly one place: the reader, one result, one request message, or closed |
| MuxTheorems.DiscardedAreClosed | pkg/sandbox/fdchan/fdchan.go:131-133 | a step that takes handles from the reader without delivering them has closed all of them |
| MuxTheorems.DiscardedStayClosed | pkg/sandbox/fdchan/fdchan.go:373-391 | in every run the handles of an orphan reply, a failed or a malformed body are among the closed ones from then on |
| LawfulCodec.LawsAreConsistent | pkg/sandbox/fdchan/fdchan.go:24-29 | some encoding of the payload obeys all the laws assumed of the codec |
| MuxObjects.Channel.Receive | pkg/sandbox/fdchan/fdchan.go:172-175 | a receive gives the buffered result before it reports the close |
| MuxObjects.MuxEnd.Begin | pkg/sandbox/fdchan/fdchan.go:146-148 | a new call's number and channel: the machine's Start step on the objects |
| MuxObjects.MuxEnd.Register | pkg/sandbox/fdchan/fdchan.go:150-152 | storing a session: the machine's Register step on the objects |
| MuxObjects.MuxEnd.Unregister | pkg/sandbox/fdchan/fdchan.go:165-170 | the error path of Request removes the session: the machine's step on the objects |
| MuxObjects.MuxEnd.Receive | pkg/sandbox/fdchan/fdchan.go:172-182 | the end of Request: the machine's Receive step, the result being what the channel held |
| MuxObjects.MuxEnd.DispatchFrame | pkg/sandbox/fdchan/fdchan.go:125-142 | one round of readLoop on the sessions map, channels and queue is the machine's Dispatch step |
| MuxObjects.MuxEnd.CloseAllSessions | pkg/sandbox/fdchan/fdchan.go:115-122 | the loop that closes every session's channel is the machine's CloseSessions step |
| MuxObjects.MuxEnd.TakeInbound | pkg/sandbox/fdchan/fdchan.go:185-191 | receiving a queued request is the machine's TakeRequest step |
| MuxObjects.FrameBuffer | pkg/sandbox/fdchan/fdchan.go:333-340 | the buffer writeWire fills in place is the encoding of the payload |
| MuxObjects.BodyBuffer | pkg/sandbox/fdchan/fdchan.go:378-383 | the body buffer after a short read is the bytes read followed by zeros |
| MuxObjects.OpenFiles | pkg/sandbox/fdchan/fdchan.go:373-376 | the loop makes one handle per received descriptor, in order |
| Descriptors.Message.AddDescriptor | pkg/sandbox/fdchan/fdchan.go:40-61 | succeeds if and only if the file is not nil and the id not empty and new, each failure with its own error; appends to both fields or changes nothing |
| Descriptors.Message.GetDescriptor | pkg/sandbox/fdchan/fdchan.go:65-75 | the file and purpose at the first position of the id; unknown exactly when no annotation carries it |
| Descriptors.BuildOk | pkg/sandbox/fdchan/fdchan.go:40-61 | messages built by any AddDescriptor calls have distinct ids and pass the count check of writeWire |
| Descriptors.BuildHolds | pkg/sandbox/fdchan/fdchan.go:40-61 | they hold exactly the accepted calls, in order, each with its own file, id and purpose |
| Descriptors.NamingExactly | pkg/sandbox/fdchan/fdchan.go:329-376 | the receiver finds the i-th id's own file (an error from the eleventh on) if no earlier id that travelled cleans to the same string, and only if, when files are distinct |
| Descriptors.NamingSurvives | pkg/sandbox/fdchan/fdchan.go:63-75 | all ids that are valid UTF-8 are found under their own name |
| Descriptors.NeverAnother | pkg/sandbox/fdchan/fdchan.go:63-75 | a lookup never gives a file sent under an id that does not clean to the name asked for |
| Descriptors.NamedArrives | pkg/sandbox/fdchan/fdchan.go:40-75 | an accepted descriptor among the first ten, whose cleaned id no earlier one has, is found by the receiver under it with its own file and purpose |
| Descriptors.DescriptorsTravel | pkg/sandbox/fdchan/fdchan.go:302-321 | in every run both the request's handler and the caller hold the received form of the table the other side built, whatever calls built it |
| Events.SplitConserves | pkg/cri/model/model.go:286-295 | a tick's split keeps every event exactly once, each on its side of the tick |
| Events.Split | pkg/cri/model/model.go:286-295 | the one loop computes both halves of the split, in list order |
| Events.RunByConserves | pkg/cri/model/model.go:281-301 | over several ticks each event is run at most once and the rest are left, none lost |
| Scheduler.ExactlyOnce | pkg/cri/model/model.go:260-302 | in every run the events run, about to run and pending are exactly the ones enqueued, each once |
| Scheduler.LogIsStable | pkg/cri/model/model.go:260-302 | the log of run events is sorted by effective tick, ties in enqueue order, and each ran at its tick |
| Scheduler.NothingLate | pkg/cri/model/model.go:282-300 | between ticks nothing that is due is left unrun |
| Scheduler.CanRun | pkg/cri/model/model.go:277-302 | from every reachable state the ticker's own steps lead to the running of any event enqueued |
| Scheduler.OnTimeExactly | pkg/cri/model/model.go:262-262 | an event ran after exactly max(delay, 1) ticks if and only if the sum stayed below 2^64 (or the delay was at most 1) |
| Scheduler.ConstantDelayIsFifo | pkg/cri/model/model.go:260-302 | with one constant delay events run in the order they were enqueued |
| Scheduler.RefinesQueue | pkg/cri/model/model.go:260-302 | list and ticker refine a stable priority queue over every interleaving of enqueues and ticks |
| CriTheorems.HandleKeepsInv | pkg/cri/cri.go:76-386 | `Handle`, which looks ids up, keeps keys equal to ids, mirrored state, timestamps, every container's sandbox and every image's name if and only if the request does not pull a nil image; what the handlers' scans keep is HarmlessExactly |
| CriTheorems.HandleKeepsRecords | pkg/cri/cri.go:76-386 | for `Handle` the part about sandboxes and containers needs no condition |
| CriTheorems.ReplayInv | pkg/cri/cri.go:76-386 | the store invariant holds after any sequence of `Handle` steps that pull no nil image |
| CriTheorems.ReplayRecords | pkg/cri/cri.go:76-386 | its part about sandboxes and containers holds after any sequence of `Handle` steps |
| CriTheorems.StopCascades | pkg/cri/cri.go:135-164 | a successful StopPodSandbox leaves that sandbox not ready, all its containers exited in both views, and nothing else changed |
| CriTheorems.ListByState | pkg/cri/model/model.go:184-220 | a state filter, tested on the status, selects exactly the records whose own state matches; running and exited imply their timestamps |
| CriTheorems.SandboxScanExact | pkg/cri/model/model.go:334-340 | GetSandbox equals the map lookup in every iteration order if and only if the id is not empty or there is no sandbox |
| CriTheorems.ContainerScanExact | pkg/cri/model/model.go:373-379 | the same for GetContainer |
| CriTheorems.ImageScanExact | pkg/cri/model/model.go:412-422 | the same for GetImage, where a store holding no name but the empty one is fine too |
| CriSystemTheorems.HandlersAreAtomic | pkg/cri/cri.go:76-132 | at most one event is pending, its enqueuer holds b.mu blocked on it, and no other handler is inside |
| CriSystemTheorems.RefinesSequential | pkg/cri/cri.go:76-529 | in every interleaving of any requests, nil images to pull included, the store found whenever b.mu is taken or free is one that serving the recorded requests one by one, with the recorded replies, may leave; only PullImage may report a cancellation instead of its recorded reply |
| CriAnswers.ServesExactly | pkg/cri/cri.go:76-529 | a second account of all fourteen requests, by the fields of the stored records and in literal words, fits the specification both ways: for any harmless request, the same stores and replies |
| CriAnswers.RunsAnswer | pkg/cri/cri.go:76-529 | in every tame run each request that leaves has been answered, and has left the store it found, as that account says |
| CriAnswers.RunMakesReady | pkg/cri/cri.go:76-132 | in every tame run a RunPodSandbox that returned an id has added exactly that sandbox, READY in both views, with the request's metadata, labels and handler and its clock reading |
| CriAnswers.StartAndStop | pkg/cri/cri.go:311-356 | in every tame run a StartContainer answered Done left the container RUNNING, a StopContainer EXITED, in both views and with its clock reading, and nothing else changed |
| CriAnswers.RunsList | pkg/cri/model/model.go:173-229 | in every run a listing shows a record exactly when id, sandbox id and state agree with the filter and the selector's pairs are among its labels |
| CriSystemTheorems.EveryEntryIsServed | pkg/cri/cri.go:76-529 | every recorded request is one that some handler was given, at that handler's place: the order has no phantoms |
| CriSystemTheorems.CanceledExactly | pkg/cri/cri.go:498-520 | in every run a finished request gives its recorded reply, unless its own select found the context canceled, and exactly then reports that |
| CriSystemTheorems.RefinesHandle | pkg/cri/cri.go:76-529 | with ids and image names that are not empty and no nil image to pull, the replies and the store are those of the sequential function |
| CriSystemTheorems.StopsCascade | pkg/cri/cri.go:135-164 | in every tame run each successful StopPodSandbox takes the store it found to one in which exactly that pod and its containers are stopped |
| CriSystemTheorems.SlotsDistinct | pkg/cri/cri.go:498-520 | no two requests share a place in that order |
| CriSystemTheorems.RealTimeOrder | pkg/cri/cri.go:76-132 | a request that finished before another arrived precedes it in that order |
| CriSystemTheorems.AlwaysInv | pkg/cri/cri.go:146-188 | in every tame run, one in which no request is served to a store it is not harmless to, the store invariant holds at every instant, also between the critical sections of one callback |
| CriSystemTheorems.InvThroughoutExactly | pkg/cri/cri.go:76-529 | between requests the invariant holds all along a run if and only if each request was harmless to the store it found |
| CriSystemTheorems.TargetedIsTame | pkg/cri/cri.go:135-356 | a run is tame if it stops and starts nothing by the empty id and pulls no nil image, whatever its other ids |
| CriSystemLimits.EmptyIdBreaks | pkg/cri/cri.go:135-164 | a run of two requests, the second stopping the empty id, after which it does not hold |
| CriSystemLimits.ServeOne | pkg/cri/cri.go:76-529 | from every reachable state with b.mu free any request can be served to its end |
| CriSystemTheorems.CallbackKeepsKeys | pkg/cri/cri.go:322-353 | in every tame run no step of a callback changes which sandboxes and containers exist |
| CriSystemProgress.HelpfulStep | pkg/cri/model/model.go:272-300 | in every reachable state with b.mu held, a step of the holder or the ticker is enabled that lowers the distance to its release: no deadlock |
| CriSystemProgress.WaitIsBounded | pkg/cri/model/model.go:260-300 | in every run, while the channel a handler waits for is open the ticker has ticked at most ten times since; once the event is off the list, or at the tenth tick, its own callback is running and no tick can intervene |
| CriSystemProgress.WaitIsLongEnough | pkg/cri/model/model.go:260-300 | in every run the channel of a handler that begins to wait is not closed before the tenth tick |
| CriSystemProgress.HolderIsReleased | pkg/cri/model/model.go:272-300 | from every reachable state the steps of the holder and the ticker alone can release b.mu, within eleven ticks |
| CriEffects.NoResurrectionExactly | pkg/cri/cri.go:121-127 | a delayed transition never adds a key, over all scan orders, if and only if its id is not empty or there is nothing to select |
| CriEffects.InvKeptExactly | pkg/cri/cri.go:146-161 | it keeps the store invariant if and only if, besides, an image spec is not nil |
| CriAnswers.WalkDoes | pkg/cri/cri.go:152-160 | for any store, ids or not: the loop over a listing writes under each id carried by a container of the sandbox one of those containers, ended, and leaves the rest as it was |
| CriEffects.HarmlessExactly | pkg/cri/cri.go:76-529 | over all outcomes, for any id, a request keeps the store invariant if and only if it is harmless: it is a stop or start whose id is not empty or finds nothing to select, or a pull of an image that is not nil, or any other request |
| CriEffects.ServesKeepsInvExactly | pkg/cri/cri.go:76-529 | the same of each single outcome: one scan order decides as all do |
| CriEffects.ServesIsHandle | pkg/cri/cri.go:76-529 | under the store invariant a request whose looked-up ids and image names are not empty, and that pulls no nil image, has exactly one outcome, store and reply, whatever the scan orders |
| Records.Sandbox.Clone | pkg/cri/model/model.go:123-140 | a deep copy: equal values, all objects new, nil parts kept nil |
| Records.Container.Clone | pkg/cri/model/model.go:142-159 | the same for containers, with their image specs |
| Records.Sandbox.MatchIs | pkg/cri/model/model.go:173-197 | Match holds if id and state, where asked for, are there and agree, and the selector's pairs are among the labels of a record that is there; on a whole record it is the filter of the model |
| Records.Container.MatchIs | pkg/cri/model/model.go:199-229 | the same for containers |
| Records.Image.MatchIs | pkg/cri/model/model.go:231-243 | what Match selects, where a nil spec on either side matches |
| RuntimeStore.Runtime.PutPod | pkg/cri/model/model.go:304-320 | AddSandbox and UpdateSandbox store, of any handle, also one with nil parts, a copy made of new objects only |
| RuntimeStore.Runtime.ListSandboxes | pkg/cri/model/model.go:322-332 | one copy, of new objects, of each handle that passes the filter, in some order |
| RuntimeStore.Runtime.GetSandbox | pkg/cri/model/model.go:334-340 | what a filtered scan in some order gives first, as a copy of new objects |
| RuntimeStore.Runtime.PutCtr | pkg/cri/model/model.go:343-359 | the same for AddContainer and UpdateContainer |
| RuntimeStore.Runtime.ListContainers | pkg/cri/model/model.go:361-371 | copies as for sandboxes, no two of which share an object |
| RuntimeStore.Runtime.GetContainer | pkg/cri/model/model.go:373-379 | what a filtered scan in some order gives first, as a copy of new objects |
| RuntimeStore.Runtime.AddImage | pkg/cri/model/model.go:382-398 | AddImage and UpdateImage store a copy made of new objects only |
| RuntimeStore.Runtime.GetImage | pkg/cri/model/model.go:412-422 | what a scan gives first, an empty name matching every image |
| RuntimeStore.Runtime.ExitCtrsOf | pkg/cri/cri.go:152-160 | the loop writes back each container of the sandbox, exited, under the id it carries, over a listing that covers them all |
| RuntimeStore.Runtime.RunCallback | pkg/cri/cri.go:121-161 | each callback, reading copies and writing them back, has one of the effects the model allows, for any id and store |
| RuntimeStore.Runtime.Tick | pkg/cri/model/model.go:281-301 | with any number of events pending a tick runs exactly those due, in list order, closes their channels, and leaves the rest |
| RuntimeStore.Runtime.Enqueue | pkg/cri/model/model.go:260-275 | whatever else is pending it returns exactly max(delay, 1) ticks later, its event run by them with the others that came due |
| Snapshots.StoreClient.AddSandbox | pkg/cri/model/model.go:304-320 | the argument, also one with nil parts, stays the client's: the store shares nothing with any object held and depends only on the value at the call |
| Snapshots.StoreClient.ListSandboxes | pkg/cri/model/model.go:322-332 | what is listed is the client's to keep and overwrite, and carries the values the calls alone produce |
| Snapshots.StoreClient.GetSandbox | pkg/cri/model/model.go:334-340 | the same for a lookup |
| Snapshots.StoreClient.AddContainer | pkg/cri/model/model.go:343-359 | the same as for sandboxes |
| Snapshots.StoreClient.AddImage | pkg/cri/model/model.go:382-398 | the same as for sandboxes |
| Snapshots.StoreClient.Scribble | pkg/cri/model/model.go:123-170 | any writes to any fields of any objects ever passed in or handed out, their references included, leave the store what the Add, Update and Remove calls alone produce |
| Snapshots.CriClient.RunPodSandbox | pkg/cri/cri.go:89-118 | the request's labels stay the client's; the requests, with their values at the calls, explain the store |
| Snapshots.CriClient.CreateContainer | pkg/cri/cri.go:278-303 | the same for a container's image spec and labels; a call that does not return, for want of a spec, has changed nothing |
| Snapshots.CriClient.PodSandboxStatus | pkg/cri/cri.go:197-204 | the status handed out is the client's to overwrite |
| Snapshots.CriClient.Scribble | pkg/cri/cri.go:89-118 | any writes to any fields of any objects ever exchanged with the handlers leave a store that the requests made explain |
| BuiltinCri.BuiltinCRIRuntime.RunPodSandbox | pkg/cri/cri.go:76-132 | is one step of the specification (by ServesExactly: adds that sandbox, READY), and the store grows by new objects only |
| BuiltinCri.BuiltinCRIRuntime.StopPodSandbox | pkg/cri/cri.go:135-164 | for any id is one step of the specification |
| BuiltinCri.BuiltinCRIRuntime.RemovePodSandbox | pkg/cri/cri.go:167-189 | is one step of the specification, refusing while some container names the sandbox |
| BuiltinCri.BuiltinCRIRuntime.PodSandboxStatus | pkg/cri/cri.go:192-205 | for any id a fresh copy of the status of a sandbox its scan may find, or not found |
| BuiltinCri.BuiltinCRIRuntime.ListPodSandbox | pkg/cri/cri.go:208-219 | is one step of the specification; its items are one fresh copy of each sandbox whose id and state agree with the filter and whose labels have the selector's pairs |
| BuiltinCri.BuiltinCRIRuntime.CreateContainer | pkg/cri/cri.go:252-308 | is one step of the specification; without an image spec it fails to return exactly when no check fails, and stores nothing |
| BuiltinCri.BuiltinCRIRuntime.StartContainer | pkg/cri/cri.go:311-332 | for any id is one step of the specification (by ServesExactly: the container runs) |
| BuiltinCri.BuiltinCRIRuntime.StopContainer | pkg/cri/cri.go:335-356 | for any id is one step of the specification |
| BuiltinCri.BuiltinCRIRuntime.RemoveContainer | pkg/cri/cri.go:359-371 | for any id is one step of the specification: an empty one succeeds when there is a container, and removes what is stored under an empty key |
| BuiltinCri.BuiltinCRIRuntime.ContainerStatus | pkg/cri/cri.go:389-400 | for any id a fresh copy of the status of a container its scan may find, or not found |
| BuiltinCri.BuiltinCRIRuntime.ListContainers | pkg/cri/cri.go:374-386 | the same for containers, by their sandbox id too |
| BuiltinCri.BuiltinCRIRuntime.PullImage | pkg/cri/cri.go:498-520 | for any spec, also a nil one, is one step of the specification; the image is stored before the select, so a cancellation reports an error for an image that is there |
| BuiltinCri.BuiltinCRIRuntime.RemoveImage | pkg/cri/cri.go:523-529 | is one step of the specification |
| BuiltinCri.BuiltinCRIRuntime.ImageStatus | pkg/cri/cri.go:479-495 | is one step of the specification: the named image, or any image for the empty name |
| Handshake.ParentWaitsLate | pkg/sandbox/sandbox.go:423-517 | in every run the parent waits for the child only after the child answered "proxy-listener" with "proxy-listener-fd" and the listener it opened, which is the one the parent serves on, and then "complete" with "completed" |
| Handshake.ChildSetsUpLate | pkg/sandbox/sandbox.go:339-372 | in every run the child starts its setup only after the parent's complete request, its reply accepted for writing, and the parent granted the listener before |
| Handshake.ChildAnswers | pkg/sandbox/sandbox.go:325-372 | in every run each frame of the child answers "ping" with "pong", "complete" with "completed", or "proxy-listener" with the listener opened for it under its name |
| HandshakeRuns.HandshakeCompletes | pkg/sandbox/sandbox.go:423-517 | for every listener, frames this small fitting the wire, there is a run in which both programs complete the handshake |
| CommandLoop.Serve | pkg/sandbox/sandbox.go:345-372 | the loop answers each command until one fails or asks for completion |
| CommandLoop.EntersExactly | pkg/sandbox/sandbox.go:345-372 | the setup is entered if and only if some completion request was answered with every request before it |
| CommandLoop.OutcomeIsUnique | pkg/sandbox/sandbox.go:345-372 | what the child receives determines its answers |
| CommandLoop.AnswersSpell | pkg/sandbox/sandbox.go:325-372 | which answers, word for word; the round that ends the loop has no command that can be carried out, or a reply that was not accepted |
| Bootstrap.Sandbox.SetHostname | pkg/sandbox/sandbox.go:116-126 | acts only while there is no error, and then sets the first one |
| Bootstrap.Sandbox.LinkUp | pkg/sandbox/sandbox.go:128-158 | the three link calls up to the first that fails |
| Bootstrap.Sandbox.Pivot | pkg/sandbox/sandbox.go:160-186 | the four calls of the root change up to the first that fails |
| Bootstrap.Sandbox.Write | pkg/sandbox/sandbox.go:188-224 | directory, file, contents; a short write is an error |
| Bootstrap.Sandbox.Mount | pkg/sandbox/sandbox.go:226-244 | directory, then mount, up to the first that fails |
| Bootstrap.Sandbox.BindMount | pkg/sandbox/sandbox.go:281-310 | the target is made as what the source is; an error of the nested write ends the bind |
| Bootstrap.Sandbox.SetupAndExec | pkg/sandbox/sandbox.go:374-420 | the sequence of guarded steps over any payload list is the specification that stops at the first error, the one SetupDoes spells out |
| Bootstrap.FirstErrorWins | pkg/sandbox/sandbox.go:378-405 | once a step has failed, the outcome of all the steps is that step's: no later one acts |
| Bootstrap.FailsExactly | pkg/sandbox/sandbox.go:378-405 | the steps end in an error if and only if some step fails when it runs after the ones before it |
| Bootstrap.SetupStopsAtFirstFailure | pkg/sandbox/sandbox.go:374-420 | for every payload list and environment all system calls but the last succeeded in full, the error returned reports a failed one, and exec comes only after none failed |
| Bootstrap.SetupDoes | pkg/sandbox/sandbox.go:374-420 | for every payload list and environment a setup that gets to its end has done exactly this, in this order: the root, hostname and five mounts, each payload written with its text and mode or bound read-only, the six files, the interface, the root change, exec |
| Bootstrap.SetupInOrder | pkg/sandbox/sandbox.go:160-310 | for every payload list and environment a file is written right after its directory was made and it was opened, a mount follows the creation of its target, the root change is complete before exec |
| Procfs.ReadsRebuild | pkg/sandbox/procfs/procfs.go:117-123 | successive reads with any buffer sizes rebuild the content up to their total |
| Procfs.EndOfFile | pkg/sandbox/procfs/procfs.go:117-123 | the content has been read in full exactly when the next read with a non-empty buffer returns nothing |

## Left out

- Sockets, processes, namespaces, mounts, netlink and FUSE serving themselves: only their success or failure, and for the socket the byte and descriptor stream.
- The HTTP forwarder the parent serves on the listener: it starts after the step that is modelled.
- closeConn: it waits for a reader that may itself be blocked on a full queue, so no termination claim holds; a closed connection shows here as failing reads and writes.
- parseFDs errors: a failure there is a failed header read; the raw descriptors it would lose, like those that came with a short header, never become file handles and are not counted.
- Two descriptor control messages in one read: a read never spans the first bytes of two frames (`Wire.FdsAt`).
- MuxObjects: the writes to the socket and the environment's choices stay in the machine; the mutexes are not objects, a method is one critical section.
- BuiltinCri.BuiltinCRIRuntime.RunPodSandbox: like the other handlers on the heap it is proved for one caller at a time; that handlers exclude each other is CriSystemTheorems.HandlersAreAtomic.
- CreateContainer with a nil image spec in the concurrent system: it may panic, which ends the program; BuiltinCri says exactly when.
- Nil handles, and container messages without an image spec: the stores would keep them, no handler or callback makes one.
- PullImage's captured request object: the callback gets the image name read when the request arrived.
- Annotations, attempt counts beyond their value, user ids, image ids, log directories and statistics of records: copied along unread.
- Stats, metrics, exec, attach, port-forward, version, configuration and image filesystem requests, and ListImages: constant, nil or a plain copy.
- Container lifecycle monotonicity: StartContainer has no state check, so an exited container may run again.
- Closing a written file and the listener's duplicate: their errors are ignored by the program.
- Bootstrap.Sandbox.Mount: error texts are reduced to a context and the failing call; the messages that later steps return when they are skipped are ignored by run, and dropped.
- fakeProcfs and debugShell: not called by run.
- Handshake: the child process's start and end, and the commands a different parent might send after an error.
- Getattr, Open and Readlink of procfs: branches that call the handler once or forward.
- PKI, tokens, configuration files, kubeconfigs, the front end and the tools: text plumbing and foreign libraries.
