# Adaptive service: a verified model

This project models the hard core of a Go microservice library and proves properties of
it with Dafny 4.11: a prioritised message queue with a self-scaling worker pool, wildcard
service lookup, two service registries, framing and stream multiplexing, message tracing,
and service discovery.

`dafny verify dfyconfig.toml` checks the whole project.

## How it is built

Concurrent parts are labelled step systems. A label is one atomic action of one
goroutine, `Step` performs it if it is possible and otherwise leaves the state alone, and
a theorem about `Run(..., ls)` for every sequence `ls` of labels is a theorem about every
interleaving. State that nothing in the code looks at, such as logs of what was sent, is
marked as history. Code that changes fields or loops is written as methods and classes
and proved against the same functions: the new state is a function of the old one, and a
goroutine that other goroutines interrupt is given their actions as a sequence of turns
and proved to do one step of the system a turn. What the outside world decides (the
scheduler, the network, clocks, dials, encodings) is a label or a parameter.

| file | what it models |
|---|---|
| `Wildcard.dfy` | the wildcard matcher, against a recursive matcher and a closed form |
| `MsgQueue.dfy`, `MsgQueueOrder.dfy`, `MsgQueueFlow.dfy` | the message queue as a step system, and its invariant |
| `MsgQueueTheorems.dfy`, `MsgQueueWaiting.dfy` | order, conservation, bounded waiting |
| `MsgQueueBlind.dfy`, `MsgQueueWitness.dfy`, `MsgQueueLeaves.dfy` | where progress ends: runs that get stuck, and exactly which waiting messages can still leave |
| `MsgQueueCode.dfy` | `reorder` and `putMetaMsg` as code with loops, proved to do exactly what that system does |
| `WorkerPool.dfy` | the pool under every interleaving, its operations as code, and which removed workers leave |
| `Scaler.dfy`, `Residents.dfy` | the scaler over the pool: how a gap closes, and exactly when the resident workers stay |
| `Registry.dfy`, `RegistryRuns.dfy`, `Record.dfy` | in-process lookup, the root registry and its handlers, its runs, its record file |
| `Lan.dfy`, `LanRuns.dfy` | a node of the LAN registry as code, and the protocol over a bad network |
| `Framing.dfy`, `FrameSenders.dfy`, `FrameSendersCode.dfy` | frames, the receive loop, byte streams over messages, concurrent senders as a step system and as code |
| `Demux.dfy`, `EndToEnd.dfy` | stream multiplexing of both transports; one direction of a connection from interleaved senders to callbacks |
| `Tracer.dfy`, `TracerService.dfy` | the tracing service, one handler at a time, as a model and as code |
| `TracerRaces.dfy`, `TracerFates.dfy`, `TracerCalm.dfy` | its handlers interleaved: what is kept, what becomes of every record, and when it is the same as one at a time |
| `Delivery.dfy` | the loop that delivers trace records |
| `Ranking.dfy`, `Discovery.dfy` | provider ranking and the search |
| `Collections.dfy` | an optional value and facts about lists, sets and division |

## Where the code does less than its documentation or names suggest

- A queued message need not leave its queue. `reorder` reads the operands of its select once, so
  a first low message behind a first high one, or a first high message behind a first low one,
  waits until some other message wakes `reorder` (`MsgQueueLeaves.LowMessageStuck`,
  `MsgQueueLeaves.HighMessageStuck`). And a drain loop that was promised a normal message which a
  stale worker then took waits for another, with the low messages, and high ones not yet counted,
  behind it (`MsgQueueLeaves.StarvedMessageStuck`). These are the only ways:
  `MsgQueueLeaves.LeavesIff` says in every reachable state with `done` open whether a waiting
  message can leave without a further put.
- A removed worker need not exit (`WorkerPool.RemovedWorkerStays`); one whose channel was closed
  can exit exactly when it did not read a nil done variable and is not still to do so
  (`WorkerPool.RemovedWorkerLeavesIff`).
- A worker that is slow to leave can cost the pool its resident workers
  (`Residents.SlowLeaverCostsResident`); they stay exactly when at every look, if there are no
  more workers than residents, the leavers still counted idle are no more than the busy residents
  and what the queue asks for (`Residents.ResidentsStayIff`).
- A discover timeout documented to wait forever gives up after one round exactly when the
  timeout is shorter than the check interval, for instance the default of -1 with an
  interval above one second (`Discovery.WaitsForeverIff`).
- The table of tried services concatenates names without a separator, so one service can
  hide another (`Discovery.KeysCollide`). A search for everything tries all services that its
  rounds offer exactly when no two of those share a key (`Discovery.EveryServiceTriedIff`).
- The selection methods are documented to narrow the candidates to the top half one after
  the other; the code sorts half of all candidates in each method after the first. The two rank
  all lists alike exactly for at most two methods or at most three candidates
  (`Ranking.DocumentedIff`, whose proof has the lists that differ).
- The record file loses providers that the naming convention allows
  (`Record.RecordRoundTrip`, `Record.TrailingPIsLost`, `Record.ConventionIsNotEnough`), and a
  file with an underscore in a name loads a table that cannot be listed
  (`Record.LoadedIsSavableIff`).
- A sender whose message is too large (`FrameSenders.TooLargeHappens`) leaves its stream's
  encoder flag set for good (`FrameSenders.TooLargeKeepsFlag`); this costs speed, not safety. A
  set flag can come free exactly when its owner's message is not too large
  (`FrameSenders.FlagClearsIff`).
- A query in the LAN whose broadcast fails is never answered, and its caller waits for good
  (`LanRuns.DroppedIsNeverAnswered`); nothing else does that: a query not answered yet can be
  answered exactly while its broadcast has not failed (`LanRuns.AnswerableIff`).
- Interleaved tracing handlers can list one id twice (`TracerRaces.TwoSessionsForOneId`; exactly
  when a record is inserted whose id is mapped by then, `TracerRaces.ListedOnceIff`) and lose a
  record (`TracerFates.RecordLost`; exactly when it is appended to a session that its reader has
  collected, `TracerFates.AppendLostIff`; one appended to a session already evicted counts as
  evicted with it). That handlers of one id do not overlap is not enough for the list to be what
  handlers one at a time leave (`TracerCalm.EvictionReorders`); it is so at every step exactly
  when no session is evicted that a handler has found (`TracerCalm.ApartCountsIff`).

## Model

| member | source | states |
|---|---|---|
| Wildcard.WildcardMatch | adaptiveservice.go:377-420 | returns true exactly for the strings the recursive matcher accepts, for all patterns and strings |
| Wildcard.GlobIsGapForm | adaptiveservice.go:373-376 | the recursive matcher accepts exactly the strings that are the `*`-separated parts joined by some gap strings |
| Wildcard.Exchange | adaptiveservice.go:409-418 | taking the leftmost occurrence of the next part succeeds whenever any occurrence does |
| Wildcard.SearchInOrder | adaptiveservice.go:409-418 | the loop over the middle parts finds them exactly when they occur in order without overlap |
| Wildcard.GlobIsStripAndSearch | adaptiveservice.go:390-418 | stripping prefix and suffix and searching the rest is complete as well as sound |
| Wildcard.ExactPattern | registry.go:60-81 | a pattern without `*` matches only itself, which justifies the exact-key branches |
| MsgQueueOrder.SetupKept | scalamsgq.go:183-232 | every step keeps the lazy creation protocol: who holds the lock, which channels exist, who may send where |
| MsgQueueFlow.StepKeeps | scalamsgq.go:55-97 | every step of producers, reorder, workers and close keeps the whole invariant |
| MsgQueueTheorems.EachMadeOnce | scalamsgq.go:183-215 | in every run each channel is made at most once, one reorder is started, and nobody sends on a nil channel |
| MsgQueueTheorems.Conservation | scalamsgq.go:55-232 | in every run the messages put are, as a multiset, those queued, in reorder's hands, in egress, and taken by workers |
| MsgQueueTheorems.ClassOrder | scalamsgq.go:68-95 | each class leaves in the order it came, but for normal messages taken directly by stale workers |
| MsgQueueTheorems.EgressInRounds | scalamsgq.go:68-95 | egress is a sequence of rounds of shape high, normal, low, each at most 3 * qSize + 1 long |
| MsgQueueTheorems.DrainNeverStarves | scalamsgq.go:68-95 | a drain loop finds a message: always for high and low, for normal unless a stale worker took one since the count |
| MsgQueueTheorems.StaleWorkersAreGone | scalamsgq.go:99-125 | once egress exists and no worker is parked on the old queue, none ever is again |
| MsgQueueTheorems.NoDrainStarvesAgain | scalamsgq.go:68-95 | from then on no drain loop of any class receives from an empty queue |
| MsgQueueWaiting.OutWithinTwoRounds | scalamsgq.go:55-97 | while a message of any class waits in ingress, at most 2 * (3 * qSize + 1) messages enter egress |
| MsgQueueWaiting.HighWaitsForFew | scalamsgq.go:55-97 | between a high message entering its queue and entering egress at most 2 * qSize + 1 others enter egress |
| MsgQueueWitness.LowMessageLeftBehind | scalamsgq.go:60-66 | a run leaves reorder parked without the low channel and a low message queued, whatever the queue size |
| MsgQueueWitness.HighMessageLeftBehind | scalamsgq.go:60-66 | and, when a low sender came first, without the high channel and a high message queued |
| MsgQueueWitness.LowMessageBehindStarvedDrain | scalamsgq.go:68-95 | a run in which a stale worker takes the one normal message that the round has counted, with a low message queued |
| MsgQueueBlind.BlindUntilWoken | scalamsgq.go:60-66 | while the channels that reorder watches are empty and nothing is put in one of them, nothing more is sent and no other message moves, whatever else is done |
| MsgQueueLeaves.LeavesIff | scalamsgq.go:55-97 | in every run with done open, a waiting message of any class can leave without a further put, given as many workers as it takes, if and only if reorder is not blind and no starved drain stands between |
| MsgQueueLeaves.NeverStep | scalamsgq.go:55-125 | no action but a put gives a doomed message a way out |
| MsgQueueLeaves.Advance | scalamsgq.go:55-125 | from any other state some actions without a put bring the message nearer: fewer in front of it, fewer sends ahead, or fewer steps of reorder |
| MsgQueueLeaves.LowMessageStuck | scalamsgq.go:60-66 | a first low message behind a first high one cannot leave without a further put |
| MsgQueueLeaves.HighMessageStuck | scalamsgq.go:60-66 | nor can a first high message behind a first low one |
| MsgQueueLeaves.StarvedMessageStuck | scalamsgq.go:68-95 | nor a low message behind a starved drain, though its channel is watched |
| MsgQueueCode.PlayKeeps | scalamsgq.go:55-97 | every play, reorder doing one action a turn, is a run and keeps the invariant of all runs |
| MsgQueueCode.PlayIsRun | scalamsgq.go:55-97 | for every play there is a run of the step system with the same result |
| MsgQueueCode.MsgQ.Reorder | scalamsgq.go:55-97 | the goroutine with its select, counters and drain loops does exactly what the play of its turns says, until it stops |
| MsgQueueCode.MsgQ.Select | scalamsgq.go:60-66 | the select takes the head of a queue whose operand was not nil on entry, or stops when done is closed |
| MsgQueueCode.MsgQ.DrainClass | scalamsgq.go:73-95 | the message the select took, then the counted loop, then the next phase, as the play says, whatever blocks it |
| MsgQueueCode.PlayPutKeeps | scalamsgq.go:183-215 | every play of a producer keeps the invariant of all runs |
| MsgQueueCode.MsgQ.PutMetaMsg | scalamsgq.go:183-215 | does exactly what the play of its turns says, and when it returns its message is the last one put |
| MsgQueueCode.MsgQ.InitChan | scalamsgq.go:184-195 | lock, the nil checks repeated under it, the start of reorder and unlock, as the play says |
| MsgQueueCode.OthersKeepReorder | scalamsgq.go:189-193 | reorder is started once, so nobody else moves it |
| MsgQueueCode.OthersKeepProducer | scalamsgq.go:183-215 | nobody else moves a producer |
| WorkerPool.PoolAccounting | workerpool.go:27-115 | in every interleaving 0 <= idleCount <= count, both are what the program counters say, each channel is closed at most once, and the slots number the peak of unremoved workers |
| WorkerPool.PeakIsMax | workerpool.go:38-54 | the recorded peak is at least the number of unremoved workers at every earlier step |
| WorkerPool.PeakIsReached | workerpool.go:38-54 | and some step reached it |
| WorkerPool.CloseRemovesAll | workerpool.go:92-101 | when the close loop is through, every worker's channel has been closed exactly once |
| WorkerPool.RemovedWorkerLeavesIff | workerpool.go:57-89 | in every run a worker whose channel was closed can be brought to its end by its own actions if and only if it neither read a nil done variable nor is still to; the others never end in any continuation |
| WorkerPool.RemovedWorkerStays | workerpool.go:57-89 | a run from the start leaves a removed worker that can never exit |
| WorkerPool.Pool.AddWorker | workerpool.go:38-68 | the code is the four actions of the step system in a row, into the first free slot |
| WorkerPool.Pool.RmWorker | workerpool.go:73-89 | the code clears and closes the first unremoved worker, or does nothing |
| WorkerPool.Pool.CloseAll | workerpool.go:92-101 | afterwards no worker is unremoved and each channel was closed once |
| Scaler.LookMovesByOne | scalamsgq.go:127-149 | from one settled look to the next, in every interleaving of call and workers, the idle count moves by exactly one toward what it should be |
| Scaler.GapCloses | scalamsgq.go:127-149 | so with a constant queue each such round closes the gap by one, and what is slept until it is closed is the harmonic sum |
| Scaler.Settle | scalamsgq.go:127-149 | the loop over a real pool reaches what should be in exactly as many looks as the gap, sleeping at most floor(log2 n) + 1 seconds; its rounds are a run of scaler and pool |
| Scaler.SleptBound | scalamsgq.go:147 | the sleeps one second over n, n - 1, ..., 1 total at most floor(log2 n) + 1 seconds |
| Residents.ResidentsStayIff | scalamsgq.go:127-149 | over every run the resident workers stay, also through the removals decided, if and only if every look is safe: at no look with just the residents do idle-counted leavers exceed queueLen / qWeight plus the busy residents |
| Residents.CreatedIsKept | scalamsgq.go:38-44 | the pool that newMsgQ makes is reached by a run and starts the scaler in a state to which that applies |
| Residents.SlowLeaverCostsResident | scalamsgq.go:142-145 | from that pool with one resident worker a run of the scaler removes the last worker |
| Registry.ChanRegistry.ServiceNames | registry.go:60-81 | exact key or scan, the names returned are those of the table that match, each once |
| Registry.NameRoundTrip | registry.go:31-41 | a joined name comes apart again exactly when neither part has an underscore |
| Registry.RootRegistry.WalkProviders | registry.go:715-748 | visits each provider of each matching service once and removes exactly those the callback flags |
| Registry.RootRegistry.Register | registry.go:784-811 | a reachable service is entered under its name and id, an unreachable one is refused |
| Registry.RootRegistry.Delete | registry.go:820-835 | exactly the named provider goes |
| Registry.RootRegistry.Query | registry.go:858-869 | one entry for each provider of each matching service, or a panic exactly when some such name does not come apart |
| Registry.RootRegistry.Check | registry.go:878-899 | panics exactly when a provider that it keeps has a name that does not come apart, each provider being then as before or as checked; otherwise it drops exactly what has been unreachable for over five minutes, and the record lists exactly what is left |
| RegistryRuns.EachForItself | registry.go:784-899 | over any operations what the table holds of a provider depends only on what happened to that provider |
| RegistryRuns.LeavesOnlyWhenSilent | registry.go:885-899 | a provider leaves exactly when deleted, or when a check finds it silent more than five minutes after it was last registered or reached |
| Record.RecordRoundTrip | registry.go:906-951 | reloading a saved record, written in any order, rebuilds services, providers, addresses and proxied flags if and only if every provider can be carried by a line |
| Record.ReadRecord | registry.go:930-953 | the reading loop computes the load of the whole file |
| Record.WriteRecord | registry.go:906-908 | the writing loop produces one line per entry, in order |
| Record.LineBack | registry.go:907 | scanning a written line returns its four fields and leaves the rest of the file |
| Record.LoadedIsSavableIff | registry.go:933-951 | what is loaded from a file can be saved again, and listed without a panic, if and only if no publisher or service field in it has an underscore |
| Record.TrailingPIsLost | registry.go:946-949 | no unproxied address that ends in P survives, for instance one with a port named HTTP |
| Record.ConventionIsNotEnough | server.go:360-365 | the naming convention allows a character that the scanner takes for a blank |
| Record.BlankIsLost | registry.go:935 | a name with such a character does not survive, though it obeys the convention |
| Lan.RegistryLAN.OnQuery | registry.go:617-633 | exact key or scan, the replies are exactly the matching local services |
| Lan.RegistryLAN.GetServiceInfos | registry.go:539-565 | returns exactly the matching providers heard of within five minutes and forgets the older ones among them |
| Lan.RegistryLAN.DelService | registry.go:567-573 | the service leaves the local table, and this provider the cache of the service |
| Lan.RegistryLAN.OnFoundMsg | registry.go:634-641 | the announcement replaces what was known of that provider and service |
| Lan.RegistryLAN.OnTicker | registry.go:606-616 | pinged services are refreshed; those silent for five minutes leave the local table and the cache |
| Lan.RegistryLAN.Lookup | registry.go:453-464 | a result less than fifteen seconds old is reused; a table of over a thousand is emptied first |
| LanRuns.ReturnedWasAnnounced | registry.go:453-475 | over a lossy, duplicating, reordering network every returned entry matches the query and names a provider whose local table held that service and port when it replied, told at most 5 min + 15 s before |
| LanRuns.RunKeeps | registry.go:477-647 | every step keeps: packets, caches, pending results and answers are all justified by earlier steps |
| LanRuns.AnswerableIff | registry.go:453-475 | in every run a query asked and not answered yet can be answered if and only if it is pending, which is if and only if no broadcast of it has failed |
| LanRuns.DroppedIsNeverAnswered | registry.go:596-599 | from any state a query whose broadcast fails is answered in no continuation |
| Framing.ParseWire | streamtransportclient.go:90-110 | parsing framed payloads gives them back, whatever follows |
| Framing.ParseMonotone | streamtransportclient.go:90-110 | a receiver that has seen less has received a prefix |
| Framing.SizeBack | streamtransportclient.go:194-195 | the four-byte big-endian size survives |
| Framing.Conn.ReadFull | streamtransportclient.go:91-110 | fills the buffer from reads of any sizes, or has used up the bytes |
| Framing.ReadFrame | streamtransportclient.go:91-110 | size, reused or replaced buffer, payload: one whole frame, a clean end, or a cut one |
| Framing.Receiver | streamtransportserver.go:409-434 | however the bytes are chopped, the payloads are the frames in them, and the end is clean when nothing is left over |
| Framing.StreamIO.Read | adaptiveservice.go:139-148 | reads into a buffer of any size what is left of a message, or the next one, or its error |
| Framing.ReadsYieldPrefix | adaptiveservice.go:134-160 | of whatever messages have arrived, reads of any sizes yield a prefix of the bytes written |
| FrameSenders.BufferIsExclusive | streamtransportserver.go:184-214 | in every interleaving at most one sender owns a stream's encoder buffer, and who is about to write or writing sees exactly its own frame |
| FrameSenders.FlagMeansOwned | streamtransportserver.go:187-213 | the flag is set exactly while some sender owns the buffer |
| FrameSenders.ReceivedInWriteOrder | streamtransportclient.go:166-215 | whatever part of the wire arrived, the receiver has a prefix of the payloads in the order of the mutex |
| FrameSenders.AllReceived | streamtransportclient.go:166-215 | on a connection at rest that has not failed, all payloads are received with nothing left over |
| FrameSenders.SuccessIsWritten | streamtransportserver.go:184-214 | a sender that returned no error is in that order exactly once, with its own payload |
| FrameSenders.TooLargeHappens | streamtransportserver.go:196-198 | a run for any oversized message ends in ErrMsgTooLarge with the stream's own buffer claimed |
| FrameSenders.TooLargeKeepsFlag | streamtransportserver.go:196-198 | after ErrMsgTooLarge the flag of the stream stays set for good |
| FrameSenders.FlagClearsIff | streamtransportserver.go:184-214 | in every run a set flag has an owner, and some continuation clears it if and only if the owner's message is at most the largest int32 long |
| FrameSendersCode.Connection.Send | streamtransportserver.go:184-214 | does exactly what the play of its turns says: claim, encode, lock, write in pieces, clear, unlock; the result says how it ended |
| FrameSendersCode.PlayKeeps | streamtransportserver.go:184-214 | every play of a sender keeps the invariants of all interleavings |
| Demux.StreamsNeverMix | streamtransportserver.go:450-500 | what a stream id sees and causes is what it would on a connection of its own |
| Demux.CallbacksAlternate | streamtransportserver.go:451-478 | per id the callbacks are new, close, new, close, and so on, with a last new exactly while it is open |
| Demux.QueueInSendOrder | streamtransportserver.go:487-500 | unhandled messages reach their own stream's private queue in the order sent |
| Demux.Dispatcher.HandleConn | streamtransportserver.go:394-502 | however the connection's bytes are chopped, reading, decoding and dispatching over the stream map yields the reference events of the frames in them, up to the turn that finds the transport closed, and one disconnect callback |
| EndToEnd.StreamAcrossConnection | streamtransportserver.go:184-502 | for every interleaving of senders and every part of their bytes that arrived, what happens under a stream id at the other end is what the messages of that stream's own senders, in write order, would cause on a connection of their own; all of them once the connection is at rest |
| Demux.NothingIsDropped | chantransportserver.go:199-252 | at every moment what was accepted is what was dispatched and then what is buffered; when the loop has ended all of it has been dispatched |
| Demux.DrainsAndEnds | chantransportserver.go:201-207 | once the channel is closed nothing more is accepted, and the loop ends after exactly one turn for each buffered message and one more |
| Demux.Dispatcher.ServeChan | chantransportserver.go:199-252 | the loop makes of its turns what that says, dispatches each message once, and calls the disconnect callback once, at the end |
| Tracer.AlwaysDistinct | messagetracing_svc.go:48-82 | ids are distinct and at most cap sessions are held |
| Tracer.Conservation | messagetracing_svc.go:48-125 | each accepted record is in exactly one of evicted, returned and held, in arrival order |
| Tracer.ReadEmpties | messagetracing_svc.go:89-125 | a read takes out what it returns, the zero id takes everything |
| Tracer.OrderedByLastTouch | messagetracing_svc.go:57-80 | the list is ordered by last touch |
| Tracer.StillHeld | messagetracing_svc.go:48-82 | a session neither read nor followed by touches of cap other ids is still held with every record since |
| TracerService.MessageTracer.HandleRecord | messagetracing_svc.go:48-82 | over a real list and map, which stay in bijection, the handler does what the model says |
| TracerService.MessageTracer.HandleRead | messagetracing_svc.go:89-125 | likewise for a read: what it returns and what it leaves |
| TracerRaces.AllInterleavings | messagetracing_svc.go:48-125 | in every interleaving the list is within cap and each map entry points to a list element with that id |
| TracerRaces.ListedOnceIff | messagetracing_svc.go:53-80 | in every run no id is ever listed twice if and only if no record is inserted whose id is still mapped after the eviction |
| TracerRaces.TwoSessionsForOneId | messagetracing_svc.go:53-80 | racing first records of one id are listed twice |
| TracerFates.AppendLostIff | messagetracing_svc.go:53-64 | in every run an appended record is lost if and only if its session is no longer listed, was not evicted, and no reader is still to collect it |
| TracerFates.FateIsDecided | messagetracing_svc.go:48-125 | in every continuation a record is lost exactly if it was when it was appended, and a returned one is in what a reader returned |
| TracerFates.RecordLost | messagetracing_svc.go:57-64 | a run loses a record: it is not listed, not returned and not evicted |
| TracerCalm.ApartCountsIff | messagetracing_svc.go:48-125 | in every run of handlers of which no two of one id overlap and all end, the list is at every step what handlers one at a time leave if and only if no session is evicted that a handler has found |
| TracerCalm.CalmIsRun | messagetracing_svc.go:48-125 | when no two handlers of one id overlap and no found session is evicted, the list at rest is what the same handlers leave one at a time, in the order of their insert, move or detach |
| TracerCalm.CalmLosesNothing | messagetracing_svc.go:48-125 | and no record is lost: each session evicted or returned is so in that run too, with all its records |
| TracerCalm.OneAtATimeIsCalm | messagetracing_svc.go:48-125 | handlers that do not overlap at all are a special case |
| TracerCalm.EvictionReorders | messagetracing_svc.go:71-78 | handlers of different ids, one evicting what the other has found, leave a list that neither order of them leaves |
| Delivery.NothingAcceptedIsLost | messagetracing.go:388-473 | at every step accepted is delivered, then the undelivered record, then the channel |
| Delivery.StopsAtThreeFailures | messagetracing.go:432-454 | the loop stops for errors exactly at the third failure with no delivery between them |
| Delivery.MsgTraceHelper.TraceMsg | messagetracing.go:456-473 | refuses when the helper is closed or the buffer full, panics on a closed channel, else accepts the record at the end of the channel |
| Delivery.PlayKeeps | messagetracing.go:388-473 | every play of the loop keeps: nothing accepted is lost, and it stops for errors exactly at three failures |
| Delivery.MsgTraceHelper.RunSession | messagetracing.go:388-430 | one session does what the play of its turns says, and returns an error exactly after a failed connect or send |
| Delivery.MsgTraceHelper.Loop | messagetracing.go:435-452 | does exactly what the play of its turns says, and ends closed or out of turns |
| Ranking.StableSort | client.go:233-245 | what was in order comes to be in order by the method, with ties as they were |
| Ranking.Rank | client.go:219-248 | the whole list is sorted by the first method and the first half again by each later one; the result is the function of stages that the next row compares |
| Ranking.DocumentedIff | client_options.go:24-38 | that and the documented halving agree on all lists of n providers and all choices of m methods if and only if m <= 2 or n <= 3 |
| Ranking.BestHalfFirst | client.go:219-248 | nothing is lost, the first half is a best half under the first method, the rest stays sorted by it |
| Ranking.RankingIsUnique | client.go:219-248 | order of arrival and methods determine the result |
| Discovery.DeliveriesBounded | client.go:295-304 | without a wildcard at most one connection, or as many as provider ids were given |
| Discovery.TriedOnce | client.go:71-270 | across rounds and scopes no publisher, service and provider label is tried twice, and what is delivered is what was tried and answered |
| Discovery.RoundsBounded | client.go:310-325 | with a timeout of T rounds at most T + 1 are made and time-out is exactly after T + 1; a negative one never times out |
| Discovery.WaitsForeverIff | client.go:311 | a negative timeout waits forever exactly when it is at least one check interval |
| Discovery.DefaultTimeoutGivesUp | client_options.go:41-50 | the default timeout with a longer interval makes one round |
| Discovery.EveryServiceTriedIff | client.go:71-270 | with a ranking that drops nothing, a search for everything, over all its rounds and scopes, has tried every service that they offer, local ones themselves and network ones under their label, if and only if no two offered services share a key |
| Discovery.FoundIff | client.go:306-326 | with a ranking that drops nothing, a search that wants something finds it if and only if some round within the timeout is the first to offer a key under which something answers |
| Discovery.RankByPicks | client.go:175-248 | what the search assumes of a ranking holds of the staged one over any probes: nothing is invented, and nothing dropped when every probe is answered |
| Discovery.KeysCollide | client.go:73 | two different services with one key: the second is never tried |
| Discovery.FailedIsFinal | client.go:118-123 | a failed dial uses up its key: later rounds offering only that find nothing |
| Discovery.Discoverer.TryEach | client.go:101-153 | the loops within this system: skip what is in the table, dial the rest until enough is found |
| Discovery.Discoverer.TryNetwork | client.go:159-270 | the addresses are claimed first and then dialled in ranked order until enough is found |
| Discovery.Discoverer.Run | client.go:306-326 | the search goroutine computes the rounds, the outcome and the deliveries of the specification |

## Left out

- Sockets, files, directory scans, `/proc/net/unix`, and lookups over unix domain sockets: operating-system input and output. The network is packets or bytes, the record file a string.
- Message encoding, reflection, deep copies, uuids: foreign code. A message is its encoded bytes, a number, or a tag; that decoding undoes encoding is assumed by leaving both out.
- The Go memory model: fields read without a lock are read in sequentially consistent atomic steps.
- Reverse proxies, NAT checks, server start-up, signal handling, logging, built-in information services, options, context maps: little to prove.
- Selection of which messages are traced, and trace summaries: presentation.
- Float rounding and NaN in provider scores: scores and latencies are integers in Dafny, used only through comparison.
- The internals of `sort.SliceStable`: `Ranking.StableSort` has its contract and is an insertion sort.
- Tables that change while they are walked: the lookups of `Registry` and `Lan` hold one table throughout, as if the walk kept the lock it gives up between entries. Provider maps are values inside the service map, so aliasing of a provider map is not modelled.
- Invalid UTF-8 in the record file: the file is a sequence of characters.
- The LAN registry's own record of local services and its shutdown: a node starts with any local table. The split of a service name into publisher and service is in `Registry.SplitName`, so LAN entries keep the joined name.
- Write errors are sticky: once a write on a connection failed, later writes on it fail too.
- Blocking of `putMetaMsg` and of full private queues inside the receive loops: they delay a message and lose none.
- Replies on a stream and what its handlers send back: `Demux` and `EndToEnd` are about one direction of a connection, and that a decoder finds in a message the stream id its sender wrote is an assumption of `EndToEnd`.
- `streamIO.Write` over the channel transport passes the caller's slice; that the caller leaves it alone until it is read is assumed.
- MsgQueueLeaves.LeavesIff: a continuation may start workers at will; a pool that has lost its resident workers (`Residents.SlowLeaverCostsResident`) and whose scaler asks for none starts none, and then what is in egress stays there.
- MsgQueueWaiting.OutWithinTwoRounds: counts egress sends and does not claim that sends go on, because the code does not guarantee it; `MsgQueueLeaves.LeavesIff` says when they can.
- MsgQueueCode.MsgQ.Reorder: the other goroutines act only in the given turns, and what they do in a turn does not move reorder itself; `MsgQueueCode.OthersKeepReorder` shows that they never do. With the turns used up the goroutine is left where it stands.
- MsgQueueCode.MsgQ.PutMetaMsg: likewise for the producer, by `MsgQueueCode.OthersKeepProducer`.
- FrameSendersCode.Connection.Send: likewise for the sender; the client's variant differs only in what it checks before and traces after.
- Scaler.Settle: each call of the pool settles before the next look, as it does when the second slept is long enough; `Scaler.LookMovesByOne` is about every interleaving that does. Looks at other moments are in `Residents`.
- Registry.RootRegistry.Check: its panic ends the check and, in Go, the process; `RegistryRuns` is about checks that do not panic.
- Delivery.MsgTraceHelper.Loop: what other goroutines trace, and whether each connect and send succeeds, is given as turns; with the turns used up the loop is left where it stands. A send on the closed channel, which panics in Go, is an answer of `Delivery.MsgTraceHelper.TraceMsg` that changes nothing; what the panic does to its goroutine is not modelled.
- Tracer.Conservation: is about handlers run one at a time; for interleaved ones see `TracerFates` and `TracerCalm`.
- LanRuns.ReturnedWasAnnounced: when compiling and caching are apart, the bound grows by the time between them, as stated.
- Discovery.Discoverer.Run: what each round's lookups return is given for as many rounds as are modelled; the outcome says when they are used up.
