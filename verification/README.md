# A verified model of the SOCKS5 proxy

The proxy is a single-threaded, event-driven SOCKS5 server (RFC 1928, RFC 1929) with a pool of DNS worker
threads, a selector over `pselect(2)`, a line-based management protocol (SMCP, docs/protocolo.md) and a load
generator that talks to it. This project models the parts whose correctness rests on several pieces of state
staying in step, and proves what they keep in step.

- **Resolver pool and connection lifetimes** (`Pool*.dfy`). A state machine: every critical section of
  `resolver_mutex` and every main-thread action that touches jobs, connections or descriptors is one step;
  each worker has a program counter. A freed block is a key that has left its map, and a later allocation may
  reuse it. `PoolInvariant.Inv` is inductive over all steps (`PoolTheorems.Step`), so every run of any
  interleaving (`PoolTheorems.Run`) satisfies it; the theorems of `PoolTheorems` read off what it means.
  `PoolAnswers` follows each answer from the lookup to its connection over whole runs, `PoolLaws` and `PoolReaper`
  say what each event does in terms of the states before and after it, and `PoolSweep` that a sweep misses nobody.
  `JobLists.dfy` has the three linked lists themselves, spliced in place, against plain sequences.
- **One SOCKS5 connection** (`Socks5State.dfy`, `Socks5Spec.dfy`, `Socks5.dfy`). The class `Connection` has the
  fields of `struct socks5_conn`, two real buffers and the selector's rows for its two descriptors. Every
  handler is proved to take the connection from what holds in its state to what holds in the next, and to do
  exactly what its socket calls, the user store and the resolver dictate; `Socks5Spec.EventStep` says the same of a
  whole event. `Serve` is a whole life under any sequence of events, chunks, partial sends, end of streams, errors
  and reaper sweeps. `Socks5Laws.dfy` says what a client and an origin get for what they send, in bytes: from the
  first offer to the relay, in the relay, and when something fails.
- **Buffers and byte parsers** (`Buffers.dfy`, `Feeding.dfy`, `Negotiation.dfy`, `Auth.dfy`, `Request.dfy`,
  `Handshake.dfy`): the linear buffer as a bounded FIFO, and the three incremental parsers as exactly the
  grammars of the two RFCs, for any segmentation.
- **SMCP** (`Decimal.dfy`, `Mgmt*.dfy`): line framing, the in-place tokenizer, the command table, the reply
  discipline, and the session with its back-pressure, over the proxy's own user store. `MgmtSession.Serve` is a whole
  session during which other sessions and the proxy change the shared state at will; `MgmtService` says that a client
  that takes its replies gets them at once, and `MgmtLaws` what the commands mean for one another, line by line.
- **Tables and codecs**: the selector's table and its caches (`Selector.dfy`), the string comparison compiled
  into a transition table (`StringTable.dfy`), the METRICS printer and its parser (`MetricsCodec.dfy`), the
  load generator's messages against the server's parsers (`StressMessages.dfy`), its conservation accounting
  (`LoadSpec.dfy`, `LoadGen.dfy`), its runs as a function of what the sockets and the clock say (`LoadSteps.dfy`),
  which of them can succeed (`LoadReach.dfy`), and that all of them end and none overlooks a failure (`LoadLaws.dfy`).

The outside world is a parameter. `recv(2)`, `send(2)`, `connect(2)`, `poll(2)`, `getaddrinfo`, `getsockname`,
the clock and the readiness reported by `pselect(2)` become values of `Network.RecvResult`,
`Network.SendResult`, `Socks5State.World`, `LoadSteps.Io` and the like, quantified over everywhere; readiness is
filtered only by the registered interest, as `handle_iteration` does. Bytes are integers below 256 on the
SOCKS5 side and characters on the SMCP side. Wrap-around is explicit where it matters (`TotalBytes`, `Add64`,
`StrToUl`).

## What turned out to be false, and when exactly it holds

- `selector_register` compares the descriptor with the table size using `>`. Registering the descriptor that
  equals the size writes one past the table. `RegisterInBounds` shows that this is the only such descriptor,
  and `RoomyIff` that a selector never meets it exactly when it was created with at least 512 elements; the
  server asks for 1024.
- `parse_u32` is documented to accept unsigned decimal numbers only. `ParseU32Exact` shows that it does so
  except on texts with leading blanks or a sign whose value, negated modulo two to the 64 if need be, fits
  32 bits; `ParseU32Wraps` gives every 32-bit value, zero included, a negative spelling that is accepted.
- docs/protocolo.md makes every octet outside printable ASCII invalid, but for a CR right before the LF, and every
  line of more than 4096 octets too long. The parser also accepts a CR in the middle of a line
  (`CrInsideIsAccepted`), and calls a line that is too long invalid when a bad octet is among its first 4096
  (`LongBadLineIsInvalid`). `ClassifyDocumented` shows, for lines of every length, that these are the only two
  differences.
- A throughput run with fewer bytes than connections gives some connection a goal of zero bytes, and such a
  connection never finishes. `SuccessIff` shows that exit code 0 can be had exactly when there is at least one byte
  per connection: with fewer no run whatsoever returns it (`TooFewBytes`, `OneByteForTwo`), otherwise peers that take
  and echo everything bring it about (`EnoughBytes`).
- `handle_iteration` fills in the key once per slot and reads the slot's interest again after the read handler. Every
  call still goes to a descriptor registered at that moment with that interest (`CallsAreDue`). The data in the key of
  a write handler is what is registered then exactly unless the read handler called just before it, for the same
  descriptor, ends up registering it anew: after its last unregistration of that descriptor, its first registration of
  it has other data (`WriteKeysAreFreshIff`, by `DataSameIff`; `StaleKey` gives such a handler).
- docs/protocolo.md promises that `+OK n` is followed by exactly n data lines. `-u` on the command line may give a user
  a name with an LF, and LIST-USERS then sends more lines than it announces (`LfNameBreaksFraming`). `RespondGood` shows
  that a reply is well framed exactly unless it lists such a name, `ReadRender` and `ReadRenderAll` that a client
  recovers the replies exactly if they are well framed, and `RespondKeepsNames` that no command brings in such a name.

## Model

| member | source | states |
|---|---|---|
| `PoolTheorems.WorkerStep` | src/server/socks5_resolver.c:102-186 | every critical section of a worker (pop, lookup, publish or release, notify, exit) keeps the whole invariant |
| `PoolTheorems.HandlerStep` | src/server/socks5.c:510-681 | accepting, queueing a name, connecting, resolver wake-ups, connect results and closing keep the invariant |
| `PoolTheorems.ReaperStep` | src/server/socks5.c:961-1024 | each action of the idle reaper keeps the invariant, including the pointer to the next connection it saved before acting |
| `PoolTheorems.CloseDownStep` | src/server/socks5_resolver.c:220-263 | closing both descriptors, stopping the pool, joining, releasing and destroying the selector keep the invariant |
| `PoolTheorems.NameStep` | src/server/socks5.c:536-557 | a request for a name starts the pool if needed and queues a job, or fails the request; either way the invariant is kept |
| `PoolTheorems.ConnectedStep` | src/server/socks5.c:661-681 | a connect that failed closes its socket before the next address is tried; the invariant is kept |
| `PoolTheorems.Step` | src/server/socks5_resolver.c:102-342 | one step of any thread in any state keeps the invariant |
| `PoolTheorems.Run` | src/server/socks5_resolver.c:102-342 | every state of every run, under every interleaving, satisfies the invariant |
| `PoolTheorems.LinksAreExact` | src/server/socks5_resolver.c:265-342 | in every run a job points to a connection exactly when that connection's resolver_job points back; both are live and the connection waits in REQ_RESOLVE |
| `PoolTheorems.QueueIsFifo` | src/server/socks5_resolver.c:40-100 | in every run the job counter is the length of the all-jobs list and at most 64; the queue is the duplicate-free list, oldest first, of the jobs neither running nor completed |
| `PoolTheorems.ReferencesAreExact` | src/server/socks5.c:97-110 | in every run a listed connection's reference count is the number of its registered descriptors plus its pending job, and is positive: it is unlinked and freed exactly when the sum reaches zero |
| `PoolTheorems.NothingFreedTwice` | src/server/socks5.c:65-110 | blocks allocated are blocks freed plus blocks live, for jobs and connections; the active gauge counts the listed connections still flagged and never exceeds the peak |
| `PoolTheorems.WorkersTouchLiveMemory` | src/server/socks5_resolver.c:102-186 | a worker between its critical sections holds a live, running job that no other worker holds, and its connection, if any, is live |
| `PoolTheorems.SavedPointersAreLive` | src/server/socks5.c:961-1024 | the connection the main thread works on and the reaper's saved next pointer are live in every state |
| `PoolTheorems.WaitingIsNeverStranded` | src/server/socks5_resolver.c:102-178 | in every run a connection waiting in REQ_RESOLVE has its answer, or a live unfinished job that is queued or in the hands of a worker while some worker can move; every move of a worker strictly decreases what the workers have left to do |
| `PoolTheorems.WaitingIsAnswered` | src/server/socks5_resolver.c:102-178 | when no worker can move any more, every connection that waited for a name has its answer |
| `PoolTheorems.AnswerArrives` | src/server/socks5_resolver.c:102-178 | every run can be continued by the workers alone, within as many steps as they have left to do, to one in which a waiting connection has its answer |
| `PoolTheorems.ShutdownFreesEverything` | src/server/socks5_resolver.c:235-263 | once the pool is stopped and the last descriptor is gone, every job, connection and address list has been freed |
| `PoolTheorems.JoinGetsCloser` | src/server/socks5_resolver.c:235-252 | while stop joins the workers every step of a worker strictly decreases what is left to do, and nobody else can move |
| `PoolTheorems.JoinIsNeverStuck` | src/server/socks5_resolver.c:235-252 | while a worker has not exited some worker can move: the join always completes |
| `PoolShutdown.JoinedJobs` | src/server/socks5_resolver.c:253-260 | after the join the queue is empty and every remaining job is completed |
| `PoolTheorems.EventTarget` | src/server/socks5.c:1048-1090 | the connection behind a descriptor the selector reports is live, as is its job |
| `PoolSteps.PopJobInv` | src/server/socks5_resolver.c:107-118 | popping a job and marking it running keeps the invariant |
| `PoolSteps.LookupInv` | src/server/socks5_resolver.c:120-132 | an address list found outside the mutex is owned by exactly that worker |
| `PoolSteps.PublishInv` | src/server/socks5_resolver.c:138-178 | publishing to the connection, or releasing a job detached meanwhile, keeps the invariant, under which every answer has exactly one owner; what is published is the subject of `PoolLaws.AnswerIsPublished` |
| `PoolRun.QueueJobInv` | src/server/socks5_resolver.c:265-299 | queueing a job, or refusing it when full or stopping, keeps the invariant |
| `PoolMain.CancelInv` | src/server/socks5_resolver.c:301-322 | cancelling unlinks a running job and releases an idle one |
| `PoolMain.TakeInv` | src/server/socks5_resolver.c:324-342 | taking a completed job releases it and its reference |
| `PoolMain.FreeInv` | src/server/socks5.c:97-110 | a connection without references leaves the list, the gauge and the maps, with its address list |
| `PoolRun.CloseStepInv` | src/server/socks5.c:1069-1090 | closing one descriptor of a connection, with its cancel, take and free, keeps the invariant |
| `PoolRun.ResolveDoneInv` | src/server/socks5.c:561-574 | a completed resolution moves the connection on and keeps the invariant |
| `PoolShutdown.CancelVisitInv` | src/server/socks5.c:979-1017 | the reaper's cancel-and-fail of an expired resolution keeps the invariant |
| `PoolShutdown.SuccessorLive` | src/server/socks5.c:961-1024 | the list node after the visited connection is live and stays so while the visited one is torn down |
| `PoolShutdown.StopPoolInv` | src/server/socks5_resolver.c:235-252 | the stop flags every job as cancelled and keeps the invariant |
| `PoolShutdown.TakeAllInv` | src/server/socks5_resolver.c:253-260 | taking over both lists after the join keeps the invariant |
| `PoolShutdown.ReleaseOneInv` | src/server/socks5_resolver.c:220-233 | releasing one remaining job keeps the invariant |
| `PoolShutdown.DestroyFdInv` | src/shared/selector.c:313-336 | destroying the selector closes each descriptor and keeps the invariant |
| `PoolAnswers.StepKeeps` | src/server/socks5_resolver.c:102-342 | every step keeps that a worker holds what its lookup returned, that a completed job has given its connection exactly that, and that only cancelled jobs are skipped |
| `PoolAnswers.AnswerIsWhatWasFound` | src/server/socks5_resolver.c:138-178 | in every run, a connection whose job is complete and was not cancelled has exactly what the lookup of that job returned |
| `PoolAnswers.PeakIsMaximum` | src/server/metrics.c:18-40 | in every run the recorded maximum is the greatest number of connections ever active at once |
| `PoolLaws.OldestIsTaken` | src/server/socks5_resolver.c:70-118 | in every run the job a worker takes is the one queued first, the others stay in order, and it is skipped exactly if it was cancelled or the pool is stopping |
| `PoolLaws.AnswerIsHeld` | src/server/socks5_resolver.c:120-132 | a worker holds what its lookup returned, or nothing if it skipped it |
| `PoolLaws.AnswerIsPublished` | src/server/socks5_resolver.c:138-178 | a connection that still waits gets what was found and its client's descriptor is notified; for one that has gone away job and answer are freed; nobody else changes |
| `PoolLaws.NameIsQueued` | src/server/socks5_resolver.c:265-299 | a name is queued, last, exactly if the pool runs or can be started and there are fewer than 64 jobs and memory; otherwise the request is answered |
| `PoolLaws.WokenMovesOn` | src/server/socks5.c:561-574 | a connection that has its answer gets the origin that could be registered, or is answered; its job is gone; one without an answer goes on waiting |
| `PoolLaws.NameIsConnected` | src/server/socks5.c:561-657 | from the lookup through publishing to the wake-up: a name that was found gets its connection that origin |
| `PoolLaws.FinishCloses` | src/server/socks5.c:915-936 | after one step for each descriptor the connection and its descriptors are gone, its job is detached, and everything else is as it was |
| `PoolReaper.ConnectIsSettled` | src/server/socks5.c:661-681 | a completed connect keeps its origin; a failed one loses it, and the next that can be registered takes its place, or the request is answered |
| `PoolReaper.AddressIsTried` | src/server/socks5.c:605-657 | a request for an address gets the origin that could be registered, or is answered |
| `PoolReaper.VisitMeans` | src/server/socks5.c:970-1022 | what a visit of the reaper does, for every phase, to idle connections and to the others: take, leave alone, fail and drop the origin, cancel, or close |
| `PoolReaper.TakenMovesOn` | src/server/socks5.c:981-991 | a finished lookup the reaper found moves its connection on as a wake-up does |
| `PoolReaper.CancelledIsAnswered` | src/server/socks5.c:1006-1018 | a lookup that took too long is cancelled and its request answered; a job in a worker's hands is detached, any other is gone |
| `PoolSweep.SweepAdvances` | src/server/socks5.c:970-1023 | whatever happens during a sweep, the connections ahead of it only lose their first, to a visit, and it ends only when none is left |
| `PoolSweep.SweepVisitsEverybody` | src/server/socks5.c:961-1023 | however workers and closing connections interleave, a sweep that ends has visited every connection listed when it began |
| `JobLists.JobQueue.Push` | src/server/socks5_resolver.c:59-68 | the linked queue becomes the old sequence with the job at its end, and tail its last node |
| `JobLists.JobQueue.Pop` | src/server/socks5_resolver.c:70-81 | the first job is unlinked and returned, or none when the queue is empty; tail follows |
| `JobLists.JobQueue.Remove` | src/server/socks5_resolver.c:83-100 | splicing through the pointer-to-pointer removes exactly that job and keeps the order; tail follows |
| `JobLists.AllJobs.Add` | src/server/socks5_resolver.c:40-44 | the all-jobs list gets the job at its head |
| `JobLists.AllJobs.Remove` | src/server/socks5_resolver.c:46-57 | the all-jobs list loses exactly that job |
| `JobLists.ConnectionList.Push` | src/server/socks5.c:65-73 | the doubly linked list gets the connection at its head, links mutually inverse |
| `JobLists.ConnectionList.Remove` | src/server/socks5.c:76-87 | the connection is unlinked, its neighbours joined, links mutually inverse |
| `Buffers.Buffer.Fill` | src/shared/buffer.c:50-55 | what recv puts into the write window is appended to the FIFO |
| `Buffers.Buffer.Compact` | src/shared/buffer.c:91-103 | the contents move to the start of the array unchanged; an empty buffer has both indices at 0 |
| `Buffers.Buffer.ReadAdv` | src/shared/buffer.c:58-68 | exactly n octets leave the front; an emptied buffer offers its whole capacity again |
| `Buffers.Buffer.Read` | src/shared/buffer.c:71-80 | the oldest octet is taken; an empty buffer is left alone and 0 returned |
| `Buffers.Buffer.Write` | src/shared/buffer.c:83-88 | the octet is appended, or dropped when there is no room |
| `Feeding.FeedAppend` | src/server/socks5.c:208-224 | feeding a concatenation is feeding the pieces; a finished parser leaves the rest unread |
| `Feeding.FeedChunksFlatten` | src/server/socks5.c:208-224 | for every segmentation only the concatenation of the reads matters |
| `Negotiation.NegotiationParser.FeedFrom` | src/server/negotiation.c:13-40 | the byte loop over a buffer computes the parser function and consumes exactly what it consumes |
| `Negotiation.FillNegotiationReply` | src/server/negotiation.c:47-68 | with users only user/password is chosen, without only no-auth, else 0xFF; the two reply bytes are queued |
| `Negotiation.NegotiationExact` | src/server/negotiation.c:13-40 | accepted are exactly the complete messages of version 5, with the offered methods reported faithfully and every later byte unread; rejected exactly a wrong version |
| `Negotiation.ChoiceIsByOffer` | src/server/negotiation.c:47-68 | for every complete message, with and without users, the method is user/password, none needed or none acceptable as the octets offered say |
| `Auth.AuthParser.FeedFrom` | src/server/auth.c:14-63 | the byte loop over the name and password arrays computes the parser function |
| `Auth.FillAuthReply` | src/server/auth.c:70-74 | version 1 and the status are queued |
| `Auth.AuthKeepsBytes` | src/server/auth.c:14-63 | a parser in any state has kept every byte it read, in its place |
| `Auth.AuthSound` | src/server/auth.c:14-63 | what an accepting parser reports, written out again, is what it read |
| `Auth.AuthComplete` | src/server/auth.c:14-63 | every message of RFC 1929 is accepted with its name and password, any suffix left unread |
| `Request.RequestParser.FeedFrom` | src/server/request.c:20-74 | the byte loop over the address array computes the parser function |
| `Request.FillRequestReply` | src/server/request.c:97-105 | as much of the reply with an all-zero address of the given type as fits is queued, IPv4 standing for every type but IPv6 |
| `Request.FillRequestReplyAddr` | src/server/request.c:107-121 | the reply with an IPv4 or IPv6 address is queued; another family is refused with nothing written |
| `Request.ReqKeepsBytes` | src/server/request.c:20-74 | a parser in any state has kept every byte it read |
| `Request.RequestSound` | src/server/request.c:20-74 | an accepted request is well formed and, written out again, is what was read |
| `Request.RequestComplete` | src/server/request.c:20-74 | every well-formed request is accepted with its command, address and port, any suffix left unread |
| `Request.AddrReplyReadsBack` | src/server/request.c:81-121 | whatever follows it, a reply with an IPv4 or IPv6 address is read back as exactly that code, address and port |
| `Request.ZeroReplyReadsBack` | src/server/request.c:81-103 | a reply without an address is read back as that code with address and port zero |
| `Handshake.HandshakeExact` | src/server/socks5.c:208-224 | a stream of the three messages and a payload is cut into exactly those pieces |
| `Handshake.HandshakeSound` | src/server/socks5.c:208-224 | only such streams get through: what the parsers report, written out again, is what arrived |
| `Handshake.NegStable` | src/server/negotiation.c:13-40 | later bytes never change a finished negotiation |
| `Handshake.AuthStable` | src/server/auth.c:14-63 | later bytes never change a finished authentication |
| `Handshake.PayloadGrows` | src/server/request.c:20-74 | later bytes never change a finished request; they lengthen the payload |
| `Users.UserStore.Find` | src/server/users.c:12-21 | the index of the name, or -1 exactly when the store has no such name |
| `Users.UserStore.Add` | src/server/users.c:23-45 | succeeds exactly for a new name with strings of 1 to 255 bytes and room left; appends the entry and changes the answer for that name only |
| `Users.UserStore.Delete` | src/server/users.c:47-60 | succeeds exactly for a stored name; shifts the later entries down, keeping their order, and forgets that name only |
| `Users.UserStore.Validate` | src/server/users.c:68-84 | true exactly when that name with that password is an entry of the store |
| `Users.AcceptsIff` | src/server/users.c:68-84 | in a store with unique, storable names, credentials are accepted exactly if they are an entry |
| `Users.AcceptedIsStored` | src/server/users.c:68-84 | in any store, accepted credentials are an entry |
| `Users.LookupAdd` | src/server/users.c:23-45 | adding a new name changes the look-up of that name only |
| `Users.LookupDelete` | src/server/users.c:47-60 | deleting an entry of a unique-name store forgets that name only |
| `Users.UniqueDelete` | src/server/users.c:47-60 | names stay unique and storable under deletion |
| `StateMachine.Init` | src/shared/stm.c:11-24 | accepts exactly the tables numbered consecutively with the initial state below the maximum |
| `Socks5State.TableIsSound` | src/server/socks5.c:861-909 | the state table is numbered as stm_init demands; the states the reaper assigns directly have no arrival or departure hook, so the assignment is what jump would do |
| `Socks5.Connection.FillReadBuffer` | src/server/socks5.c:173-186 | takes what fits the window, which is never empty; fails exactly on end of stream or error |
| `Socks5.Connection.FeedNegotiation` | src/server/socks5.c:208-224 | buffered bytes are parsed first and the socket is read only if more are needed; the parser is where the whole stream so far puts it |
| `Socks5.Connection.FeedAuthentication` | src/server/socks5.c:208-224 | the same for the authentication message |
| `Socks5.Connection.FeedRequest` | src/server/socks5.c:208-224 | the same for the request; once it is final the read buffer is not full |
| `Socks5.Connection.NegotiationRead` | src/server/socks5.c:235-259 | next state, bytes taken and chosen method are exactly determined, the method as the octets offered and the store call for, and the client is let in without credentials exactly when the store of that moment is empty; NEG_WRITE starts with the method reply queued and the client armed for writing |
| `Socks5.Connection.SendPending` | src/server/socks5.c:261-286 | one send of the pending reply: what went out, what is left and the outcome |
| `Socks5.Connection.NegotiationWrite` | src/server/socks5.c:261-287 | stays until the reply is out, then authenticates, takes a request or closes, as the method says |
| `Socks5.Connection.AuthenticationRead` | src/server/socks5.c:298-322 | the status is success exactly if the parsed credentials are an entry of the store of that moment, and is queued; the client is let in exactly on success, with those credentials |
| `Socks5.Connection.AuthenticationWrite` | src/server/socks5.c:324-347 | a request is read only after an accepted authentication; otherwise the connection ends once the status is out |
| `Socks5.Connection.RequestFail` | src/server/socks5.c:447-466 | exactly one reply, with this code, is queued; the origin is dropped and the client armed for writing |
| `Socks5.Connection.RequestConnectSuccess` | src/server/socks5.c:578-601 | the success reply carries the local address; if it cannot be had or written the one reply is a general failure |
| `Socks5.Connection.TryCandidate` | src/server/socks5.c:608-653 | one address: unusable and remembered, connected and answered, or under way with the client parked |
| `Socks5.Connection.RequestConnect` | src/server/socks5.c:605-657 | the first usable candidate decides, the others are counted and skipped in order; with none the last failure's code is the answer |
| `Socks5.Connection.ProcessRequest` | src/server/socks5.c:519-557 | malformed, unsupported, literal and named requests lead to their own outcome and reply code, and only a CONNECT leads anywhere but to a refusal |
| `Socks5.Connection.RequestRead` | src/server/socks5.c:510-557 | waits, fails or processes the request exactly as the parser and the socket say |
| `Socks5.Connection.RequestResolveDone` | src/server/socks5.c:561-574 | pending, failed and successful resolutions lead to waiting, the one failure reply, and the connect loop |
| `Socks5.Connection.RequestConnecting` | src/server/socks5.c:661-681 | a completed connect is announced; a failed one moves on to the remaining addresses |
| `Socks5.Connection.RequestWrite` | src/server/socks5.c:685-705 | the relay starts, or the connection is done, exactly when the whole reply is out |
| `Socks5.Connection.PropagateShutdown` | src/server/socks5.c:711-727 | a side is shut exactly when its source has ended and its buffer has drained, once; the buffers keep their contents |
| `Socks5.Connection.UpdateClientInterest` | src/server/socks5.c:734-746 | the client's row and the cached interest are both what the buffers call for, also on entry, where the cache says NOOP and the row OP_WRITE |
| `Socks5.Connection.UpdateOriginInterest` | src/server/socks5.c:748-760 | the same for the origin |
| `Socks5.Connection.RelayUpdate` | src/server/socks5.c:711-763 | DONE exactly when both ends have closed and both buffers are empty, with everything delivered; else both interests are up to date |
| `Socks5.Connection.RelayInit` | src/server/socks5.c:765-779 | entering the relay establishes its invariant, the read buffer not being full |
| `Socks5.Connection.FlushToClient` | src/server/socks5.c:781-804 | sends, in order, exactly as much as the successive send results allow; fails exactly on a failed send |
| `Socks5.Connection.FlushToOrigin` | src/server/socks5.c:781-804 | the same towards the origin |
| `Socks5.Connection.RelayRead` | src/server/socks5.c:806-845 | what arrives is appended and passed on, end of stream closes that side only, errors end the connection; the window is never empty |
| `Socks5.Connection.RelayWrite` | src/server/socks5.c:847-857 | flushes that direction and recomputes the interests |
| `Socks5.Connection.HandleFirst` | src/shared/stm.c:27-34 | the first event sets the initial state and its parser, changing nothing observable |
| `Socks5.Connection.Jump` | src/shared/stm.c:37-51 | a new state's arrival hook runs and establishes what holds in it, adding nothing to the streams; the current state is left alone |
| `Socks5.Connection.StmRead` | src/shared/stm.c:54-63 | never called without a handler; does what the current state's read handler does, and leaves the connection in the state returned with its invariant holding and no unread bytes in a read state |
| `Socks5.Connection.StmWrite` | src/shared/stm.c:66-75 | the same for writes, the arrival hook included |
| `Socks5.Connection.StmBlock` | src/shared/stm.c:78-87 | the same for resolver wake-ups |
| `Socks5.Connection.SocksDone` | src/server/socks5.c:915-932 | both rows are gone and nothing else has changed |
| `Socks5.Connection.Advance` | src/server/socks5.c:1036-1046 | bytes already buffered for the next phase are read, once, and a connection that is over is closed; nothing else happens |
| `Socks5.Connection.ClientReadable` | src/server/socks5.c:1048-1052 | exactly the read handler of the state, then socks5_advance; an event the registered interest does not let through changes nothing |
| `Socks5.Connection.ClientWritable` | src/server/socks5.c:1054-1058 | exactly the write handler of the state, then socks5_advance, which may go on reading; otherwise nothing |
| `Socks5.Connection.OriginReadable` | src/server/socks5.c:1048-1052 | exactly the relay's read handler for the origin's bytes, then socks5_advance; otherwise nothing |
| `Socks5.Connection.OriginWritable` | src/server/socks5.c:1054-1058 | exactly the end of a connect or the relay's write handler, then socks5_advance; otherwise nothing |
| `Socks5.Connection.Woken` | src/server/socks5.c:1060-1067 | a wake-up outside REQ_RESOLVE changes nothing; in it the resolution leads where request_resolve_done says |
| `Socks5.Connection.ReapCompleted` | src/server/socks5.c:979-999 | a completed resolution found by the reaper leaves the connection as an ordinary jump would, and goes where request_resolve_done says |
| `Socks5.Connection.ReapExpired` | src/server/socks5.c:979-1017 | an expired connect is answered with TTL expired, an expired resolution with a general failure, anything else is closed |
| `Socks5.Connection.Dispatch` | src/server/socks5.c:979-1067 | any event does exactly what its handler, the engine and the reaper say, and keeps the connection at rest |
| `Socks5.InterestsAreHandled` | src/shared/stm.c:54-87 | no reachable event aborts the engine: whatever interest is registered for either descriptor, the current state has the handler |
| `Socks5.StreamIntegrity` | src/server/socks5.c:173-857 | bytes to the client are a prefix of method reply, authentication reply if any, exactly one request reply and the origin's bytes; each reply is one the protocol knows, and bytes are relayed only after a success reply; bytes to the origin are a prefix of what followed the request; a connect or an answer needs a client let in without users, or with credentials it sent that are in the store; nothing is tried or relayed but for a CONNECT, another command is answered with code 7 and a malformed request with code 1, byte for byte |
| `Socks5.RelayProgress` | src/server/socks5.c:711-763 | in the relay each direction not yet shut has an interest armed that can move it; sides are shut exactly on drained end of stream; rows equal caches |
| `Socks5.SegmentationIndependent` | src/server/socks5.c:208-224 | two connections that received the same stream, however cut, parsed the same messages and hold the same payload, whether the request was accepted or malformed |
| `Socks5.SameNegotiationError` | src/server/socks5.c:208-259 | a malformed negotiation ends every connection that receives it, however cut and whatever follows, in the error state with the parser at the same error |
| `Socks5.SameAuthError` | src/server/socks5.c:208-322 | the same for a malformed authentication, among connections that demand one and have sent the method reply |
| `Socks5.RelayDelivered` | src/server/socks5.c:711-731 | a relay that ends in DONE has delivered everything received in both directions |
| `Socks5.RelayEntered` | src/server/socks5.c:765-779 | on relay entry the read buffer has room, because the request took at least one byte since the last recv |
| `Socks5.Serve` | src/server/socks5.c:861-1090 | over a whole life under any events: each event did exactly what its handler does, at rest the state's invariant holds, streams are intact and commands obeyed as above, a connect or an answer was authorised by an entry, or the emptiness, of the user store consulted in one of the events, DONE means delivered |
| `Socks5.GrantFromEvent` | src/server/socks5.c:235-322 | no event lets a client in but one whose user store has the credentials, or has nobody |
| `Socks5State.FirstUsableIsFirst` | src/server/socks5.c:605-657 | the candidate that decides is the first that is not unusable |
| `Socks5State.FlushIsCapacity` | src/server/socks5.c:781-804 | relay_flush sends all, or as much as the sends before the first unwilling one take; it fails exactly if it gets to a send that fails |
| `Socks5Laws.NegotiationIsAnswered` | src/server/socks5.c:235-259 | the bytes that complete a negotiation, however much came before, are answered with version 5 and the method the offer and the store call for |
| `Socks5Laws.AuthenticationIsAnswered` | src/server/socks5.c:298-322 | the bytes that complete an authentication lead to status 0 exactly if the credentials are an entry of the store |
| `Socks5Laws.ConnectIsAnswered` | src/server/socks5.c:510-657 | the bytes that complete a CONNECT to an address that connects at once lead to a success reply that reads back as the local address |
| `Socks5Laws.RequestIsObeyed` | src/server/socks5.c:510-557 | what the bytes that complete any request lead to: code 1 for a malformed one, code 7 for another command, a lookup for a name or code 1, and for an address a connect under way, or the code of its failure |
| `Socks5Laws.ReplyIsSent` | src/server/socks5.c:261-705 | a reply the socket takes whole leads to the phase its method or status calls for, to the relay after a success, or to the end |
| `Socks5Laws.CredentialsAreServed` | src/server/socks5.c:235-707 | a client that offers user/password, gives credentials the store has and asks for an address that connects gets the three replies, byte for byte, and a relay |
| `Socks5Laws.AnonymousIsServed` | src/server/socks5.c:235-707 | likewise a client that offers no authentication where there are no users |
| `Socks5Laws.ClientReachesOrigin` | src/server/socks5.c:806-845 | bytes from the client reach the origin in the same event, all that fit, when its socket takes them; nothing is held back |
| `Socks5Laws.OriginReachesClient` | src/server/socks5.c:806-845 | bytes from the origin reach the client likewise, after the replies |
| `Socks5Laws.HeldBytesAreSent` | src/server/socks5.c:847-857 | what was held back for a side is sent, all of it, once its socket takes it |
| `Socks5Laws.EndIsPassedOn` | src/server/socks5.c:711-845 | when a side ends and nothing is held for the other, the other is shut, once; the connection ends exactly when both have ended and everything is delivered |
| `Socks5Laws.AddressesAreTried` | src/server/socks5.c:561-657 | the addresses of a name are tried in order: the first that is not unusable decides, those after it are left; with none the last one's code is the answer |
| `Socks5Laws.FailedConnectTriesOn` | src/server/socks5.c:661-681 | when a connect under way fails, the addresses left are tried in order in the same way |
| `Socks5Laws.NotFoundIsAnswered` | src/server/socks5.c:561-574 | a name without addresses is answered with code 1 |
| `Socks5Laws.CompletedConnectIsAnswered` | src/server/socks5.c:578-681 | a connect that completes is answered with success and the local address |
| `Socks5Laws.ExpiredIsEnded` | src/server/socks5.c:993-1021 | an idle connection is answered with code 6 while it connects, with code 1 while its name is looked up, and closed otherwise |
| `Socks5Laws.StreamsOnlyGrow` | src/server/socks5.c:173-857 | over any part of any run, what was received and sent on either side is never taken back, only added to |
| `Selector.NextCapacity` | src/shared/selector.c:174-190 | the bit-counting loop finds the least power of two above n, capped, plus one; the result exceeds every n up to the cap |
| `Selector.RoomyIff` | src/shared/selector.c:294-311 | a fresh table covers every valid descriptor exactly when at least 512 elements were asked for; otherwise its size is itself a valid descriptor |
| `Selector.RegisterInBounds` | src/shared/selector.c:352-362 | the slot selector_register indexes exists for every valid descriptor except the one equal to the table's size |
| `Selector.Selector.constructor` | src/shared/selector.c:294-311 | an empty, consistent table |
| `Selector.Selector.EnsureCapacity` | src/shared/selector.c:250-292 | growing keeps every registration and makes room for n, or reports that n is too great |
| `Selector.Selector.UpdateSets` | src/shared/selector.c:226-243 | the prototype sets change for that descriptor only, to its interest |
| `Selector.Selector.Register` | src/shared/selector.c:340-381 | exactly an unused valid descriptor is registered; sets, maximum and slots stay consistent; the slot looked up is past the table for the descriptor equal to its size, and for a roomy table never |
| `Selector.Selector.Unregister` | src/shared/selector.c:383-417 | exactly a registered descriptor is removed, after whatever its close handler does to the selector; the maximum is recomputed; in bounds for a roomy table |
| `Selector.CloseIsBefore` | src/shared/selector.c:399-413 | unregistering with a close handler that acts is doing its operations first and then removing the descriptor |
| `Selector.Selector.SetInterest` | src/shared/selector.c:419-436 | changes the interest of exactly a registered descriptor; in bounds for a roomy table |
| `Selector.Selector.ItemsMaxFd` | src/shared/selector.c:212-224 | the greatest used descriptor, or 0 |
| `Selector.Selector.HandleIteration` | src/shared/selector.c:455-487 | for handlers that register, unregister and change interests during the scan: a descriptor is called in a direction exactly if it is registered when its slot is reached and due when its turn comes; calls and resulting registrations are those of the specification, every access in bounds |
| `Selector.CallsAreDue` | src/shared/selector.c:455-487 | whatever handlers do meanwhile, every call goes to a descriptor registered at that moment with that interest and reported ready, within the slots up to the maximum at the start, in order, reads before writes |
| `Selector.ReadKeysAreFresh` | src/shared/selector.c:462-475 | a read handler gets the data registered when it is called |
| `Selector.WriteKeysAreFreshIff` | src/shared/selector.c:462-484 | in a whole iteration a write handler gets the data registered when it is called, exactly unless the call before it was the read handler of the same descriptor and its operations replaced that data |
| `Selector.DataSameIff` | src/shared/selector.c:340-417 | a descriptor registered before and after any operations has the same data exactly unless, after they last unregister it, they first register it with other data |
| `Selector.DataKept` | src/shared/selector.c:340-436 | operations that do not unregister a descriptor keep it registered with its data |
| `Selector.StaleKey` | src/shared/selector.c:462-484 | a read handler that does so, and the call that follows |
| `Selector.QuietScan` | src/shared/selector.c:455-487 | with handlers that leave the selector alone exactly the registered, ready and interested descriptors are called |
| `Selector.CallsAreComplete` | src/shared/selector.c:455-487 | however the handlers act, exactly the expected calls are made: registered when the slot is reached, due when the turn comes, given what the handlers called before have done |
| `Selector.UntouchedIsServed` | src/shared/selector.c:455-487 | a descriptor no handler touches is called exactly in the directions it is due in at the start |
| `Selector.ScanScripted` | src/shared/selector.c:455-487 | what is registered at each call, and at the end, is what the operations of the handlers called so far make of the start |
| `Selector.Run` | src/shared/selector.c:340-487 | any operations and iterations, handlers acting at will, on a selector of FD_SETSIZE elements: in bounds throughout, each slot its own index, sets and maximum exact, the table what the operations describe, the calls of each iteration those of the specification |
| `Selector.RunCallsAreDue` | src/shared/selector.c:455-487 | so in every run every handler called is due when it is called, in order, and its key is fresh, or stale exactly as above |
| `Selector.RunCallsAreComplete` | src/shared/selector.c:455-487 | and in every run no call is missed, for handlers that act at will |
| `StringTable.Definition.constructor` | src/shared/parser_utils.c:74-137 | the filled arrays are the comparison table of the string, all destinations valid |
| `StringTable.Parser.Feed` | src/shared/parser.c:49-82 | takes the first transition that applies, or changes nothing |
| `StringTable.StepCompares` | src/shared/parser_utils.c:96-126 | one step through the table is one step of the case-insensitive comparison |
| `StringTable.Compare` | src/shared/parser_utils.c:74-137 | after every octet the event is EQ, MAYEQ or NEQ exactly as the input so far equals, properly begins or differs from the string, case ignored |
| `Decimal.ValuePrint` | src/server/mgmt.c:135-150 | printing in decimal is inverted by reading the digits, for every number |
| `Decimal.StrToUlPrint` | stress/stress_helpers.c:76-89 | strtoull inverts %llu on every 64-bit value and stops at the first non-digit |
| `Decimal.ParseU32Exact` | src/server/mgmt.c:119-131 | parse_u32 does what it documents exactly on the texts without the lenient prefixes strtoul allows |
| `Decimal.ParseU32Wraps` | src/server/mgmt.c:119-131 | every 32-bit value, zero included, has a negative spelling that is accepted against the documentation |
| `MgmtLine.LineParser.Feed` | src/server/mgmt_parser.c:18-55 | an LF ends the line and its verdict is that of the specification for all the octets of the line, however fragmented; without one everything is taken in |
| `MgmtLine.LineParser.Accept` | src/server/mgmt_parser.c:39-52 | one octet keeps flags and stored text what the line so far determines |
| `MgmtLine.LineParser.Finish` | src/server/mgmt_parser.c:24-37 | at the LF the verdict is READY with the text, INVALID or TOO_LONG as specified, the text NUL-terminated |
| `MgmtLine.LineParser.Reset` | src/server/mgmt_parser.c:12-16 | a fresh line |
| `MgmtLine.LinesAppend` | src/server/mgmt_parser.c:18-55 | framing a concatenation resumes from the unfinished line alone: fragments do not matter |
| `MgmtLine.LinesResync` | src/server/mgmt_parser.c:18-55 | after any stream the line after an LF is judged by itself |
| `MgmtLine.ClassifyDocumented` | src/server/mgmt_parser.c:24-52 | for lines of every length, the parser agrees with the protocol document exactly when a line within the limit has no CR inside or a worse octet, and a longer one no bad octet among its first 4096 |
| `MgmtLine.CrInsideIsAccepted` | src/server/mgmt_parser.c:42-47 | a line with a CR inside that is accepted |
| `MgmtLine.LongBadLineIsInvalid` | src/server/mgmt_parser.c:38-46 | a line that is too long and is called invalid |
| `MgmtLine.Tokenize` | src/server/mgmt_parser.c:57-80 | after cutting the line in place, argv points to C strings that are its first words, in order, at most max |
| `MgmtLine.WordsSplit` | src/server/mgmt_parser.c:57-80 | words are found piece by piece across any space, runs of spaces collapsing |
| `MgmtLine.WordsFirst` | src/server/mgmt_parser.c:57-80 | a leading word is a word |
| `MgmtLine.WordsAreWords` | src/server/mgmt_parser.c:57-80 | no word is empty or has a space |
| `MgmtReplies.ReadRender` | docs/protocolo.md:105-118 | a client knowing only the counting rule recovers a reply and the rest of the stream exactly if the reply is well framed |
| `MgmtReplies.ReadRenderAll` | docs/protocolo.md:105-118 | a sequence of replies decodes to itself exactly if all are well framed |
| `MgmtReplies.ListingAnnounces` | src/server/mgmt.c:152-159 | an enumeration announces exactly its number of lines |
| `MgmtCommands.AuthGate` | src/server/mgmt.c:264-334 | without authentication nothing shared changes; it is gained exactly by AUTH with the administrator's credentials and never lost; only QUIT alone closes |
| `MgmtCommands.FiveWords` | src/server/mgmt.c:266-267 | looking at five words only is enough for every line |
| `MgmtCommands.VerbIs` | src/server/mgmt.c:275-332 | the command tests exclude each other |
| `MgmtCommands.AddThenDelete` | src/server/mgmt.c:161-185 | ADD-USER succeeds exactly for a new name that fits while there is room, opens the proxy to it and changes nothing for others; DEL-USER then restores the shared state exactly |
| `MgmtCommands.DeleteForgets` | src/server/mgmt.c:176-185 | DEL-USER succeeds exactly for a stored name and forgets that name only |
| `MgmtCommands.PasswdThenAuth` | src/server/mgmt.c:289-329 | after PASSWD an AUTH succeeds exactly with the administrator's name and the new password |
| `MgmtLaws.SetThenGet` | src/server/mgmt.c:187-223 | over whole lines: a SET with a number in range replaces exactly the line of GET-CONFIG that begins with its key, its case ignored, and is confirmed; a key no line begins with is unknown, and any other value changes nothing |
| `MgmtLaws.ConfigListed` | src/server/mgmt.c:187-194 | GET-CONFIG lists the three parameters with their values and changes nothing |
| `MgmtLaws.UsersListed` | src/server/mgmt.c:152-159 | LIST-USERS announces and names the users in order |
| `MgmtLaws.AddThenDelete` | src/server/mgmt.c:161-185 | over whole lines: ADD-USER with a name and a password refuses, for its four reasons in their order, or adds exactly that pair, and DEL-USER then restores the shared state |
| `MgmtLaws.DeleteRemoves` | src/server/mgmt.c:176-185 | DEL-USER removes exactly the user of that name, the others keeping their order, and refuses a name that is not there |
| `MgmtLaws.AuthLetsIn` | src/server/mgmt.c:289-301 | AUTH lets in exactly the configured administrator, name first; once in, it is refused |
| `MgmtLaws.PasswdThenAuth` | src/server/mgmt.c:289-329 | PASSWD with 1 to 255 characters changes the password and nothing else, and AUTH then needs that one; otherwise it is refused |
| `MgmtLaws.GateIsClosed` | src/server/mgmt.c:289-307 | before AUTH any line but AUTH, HELP and QUIT, in either case, is refused and changes nothing |
| `MgmtLaws.UnknownIsRefused` | src/server/mgmt.c:264-334 | a line whose first word spells none of the names is an unknown command |
| `MgmtLaws.LogShowsNewest` | src/server/mgmt.c:225-245 | LOG n shows the newest n lines, at most fifty and at most what there is, LOG alone ten; anything but a number is refused |
| `MgmtLaws.MetricsShown` | src/server/mgmt.c:135-150 | METRICS shows each counter under its name, the sum of the byte counters modulo two to the 64, and the number of users |
| `MgmtLaws.WrongArityIsInvalid` | src/server/mgmt.c:274-332 | a command with too few or too many words is invalid and changes nothing |
| `MgmtLaws.QuitEnds` | src/server/mgmt.c:275-282 | QUIT says goodbye and ends the session, authenticated or not |
| `MgmtCommands.RespondGood` | src/server/mgmt.c:22-334 | whatever the line, the shared state stays valid and the reply fits the line buffer and the 50*1024+4096 byte output buffer; it is well framed exactly unless it lists a user whose name has an LF |
| `MgmtCommands.RespondKeepsNames` | src/server/mgmt.c:161-174 | no command brings an LF into a user name |
| `MgmtCommands.LfNameBreaksFraming` | src/server/mgmt.c:152-159 | a user name given at start-up for which LIST-USERS announces one line and sends two |
| `MgmtCommands.OutPrintf` | src/server/mgmt.c:98-116 | appends the text cut to the line buffer and to the room left |
| `MgmtCommands.Emit` | src/server/mgmt.c:135-260 | the successive prints of a reply append the reply, cut only where the buffer ends |
| `Sequences.ClipAppend` | src/server/mgmt.c:98-116 | text written in pieces is cut where text written at once would be |
| `MgmtHandler.Session.Dispatch` | src/server/mgmt.c:264-334 | the chain of tests answers and changes exactly what the command table says, in its precedence of errors, the users being searched, added and deleted in the store's array |
| `MgmtHandler.Session.HandleLine` | src/server/mgmt.c:264-334 | the same from the raw line, through the in-place tokenizer, over all its words |
| `MgmtSession.Conn.ProcessLine` | src/server/mgmt.c:343-364 | one framed line is obeyed in the shared state as it is, which becomes exactly what the line leaves; an unfinished one changes nothing shared |
| `MgmtSession.Conn.AnswerLine` | src/server/mgmt.c:350-358 | the reply to a framed line is queued whole, nothing truncated |
| `MgmtSession.Conn.ProcessInputLines` | src/server/mgmt.c:343-364 | with no output pending the next line is obeyed and answered, or an unfinished one taken in, and nothing else changes; the shared state is what the line left |
| `MgmtSession.Conn.Flush` | src/server/mgmt.c:366-384 | sends exactly as much as the results allow; unregisters exactly on a failed or empty send |
| `MgmtSession.Conn.ProcessAndFlush` | src/server/mgmt.c:386-398 | terminates; lines are obeyed and their replies sent in turn, exactly as far as the send results go; without pending output or QUIT no input is left; the lines obeyed chain the shared state from what it was to what it is |
| `MgmtSession.Conn.Readable` | src/server/mgmt.c:400-430 | takes what fits the empty buffer, obeys and sends exactly as the octets and the send results say, and waits for what is needed next; the shared state changes by the lines obeyed and by nothing else |
| `MgmtSession.Conn.Writable` | src/server/mgmt.c:432-450 | sends, and goes on with buffered lines, exactly as the send results say, and closes after QUIT's reply is out; the shared state changes by the lines obeyed and by nothing else |
| `MgmtSession.Conn.Next` | src/server/mgmt.c:400-450 | an event, whatever became of the shared state before it, leaves exactly what the specification says of connection, interest and shared state |
| `MgmtSession.PumpAdds` | src/server/mgmt.c:386-398 | obeying and sending takes in nothing and only adds to what was sent and answered |
| `MgmtSession.Conn.Rearm` | src/server/mgmt.c:419-423 | waits to write, to read, or closes after QUIT |
| `MgmtSession.AuthMeansLogin` | src/server/mgmt.c:289-301 | a session is authenticated exactly when one of its lines was an AUTH with the credentials of that moment |
| `MgmtSession.ChangeNeedsLogin` | src/server/mgmt.c:303-334 | a line changes shared state only after a successful AUTH in the same session |
| `MgmtSession.ChainNeedsLogin` | src/server/mgmt.c:303-364 | a run of lines that leaves another shared state than it found comes after a successful AUTH in the same session |
| `MgmtSession.ReadingMeansAnswered` | src/server/mgmt.c:400-450 | while reading is armed every line received has been answered and every reply sent in full |
| `MgmtService.LinesAreAnswered` | src/server/mgmt.c:343-430 | octets that arrive while the socket takes the replies are answered in the same event: every complete line, in order and in full, or those up to a QUIT, after which the connection is closed |
| `MgmtService.PumpsAll` | src/server/mgmt.c:386-398 | with such a socket everything buffered is obeyed, up to a QUIT, and every reply sent |
| `MgmtService.NothingOvertakes` | src/server/mgmt.c:343-384 | while a reply cannot go out nothing behind it is obeyed |
| `MgmtSession.SessionIntegrity` | src/server/mgmt.c:343-450 | the lines answered are the first received, the output a prefix of their replies in order, which decode exactly unless a listed user name has an LF; nothing follows QUIT's reply; changes need a login |
| `MgmtSession.RunReceives` | src/server/mgmt.c:400-450 | over any run of events what has been received is what the events took, in order, and nothing sent or answered is taken back |
| `MgmtSession.Serve` | src/server/mgmt.c:338-450 | all of that for any chunking, partial sends and concurrent changes of the shared state: each event does exactly what the octets on offer, the send results and the shared state it finds dictate; the octets received are those the events took; the state after an event is what its last line left, and is another than it found only after a successful AUTH |
| `MetricsCodec.ParseMetrics` | stress/stress_helpers.c:91-145 | a result exactly for the texts that are the header and seven lines with all seven keys, each once, each number under its key |
| `MetricsCodec.AllBits` | stress/stress_helpers.c:134-140 | the mask is full exactly when every key has been seen |
| `MetricsCodec.OtherKey` | stress/stress_helpers.c:76-89 | a line is recognised by no key but its own |
| `MetricsCodec.PrintedIsMetrics` | src/server/mgmt.c:135-150 | what METRICS prints is such a text |
| `MetricsCodec.MetricsRoundTrip` | stress/stress_helpers.c:91-145 | whoever reads that text reads the counters |
| `MetricsCodec.ReadBack` | stress/stress_helpers.c:91-145 | printing and parsing gives the same seven values for all 64-bit counters |
| `StressMessages.BuildNegotiation` | stress/stress_helpers.c:10-19 | the three bytes, or -1 with nothing written |
| `StressMessages.BuildAuth` | stress/stress_helpers.c:21-39 | the RFC 1929 message, or -1 exactly for empty or long strings or a short buffer |
| `StressMessages.BuildConnect` | stress/stress_helpers.c:41-58 | the CONNECT request for the address and port, or -1 |
| `StressMessages.NegotiationAgreed` | stress/stress_helpers.c:60-63 | the offer is understood; the reply is accepted exactly when the server has users |
| `StressMessages.RepliesAgreed` | stress/stress_helpers.c:65-74 | replies are accepted exactly when they report success, for connects with an IPv4 address |
| `StressMessages.HandshakeUnderstood` | stress/stress_helpers.c:10-58 | from three built messages and any payload the server recovers exactly user, password, address, port and payload |
| `LoadSpec.GoalsSum` | stress/loadgen.c:188-209 | the goals of a throughput run add up to the bytes asked for |
| `LoadSpec.GoalFits` | stress/loadgen.c:188-209 | goals fit 64 bits; one is zero exactly when fewer bytes than connections were asked for |
| `LoadSpec.PatternWraps` | stress/loadgen.c:92-95 | the pattern survives the wrap-around of the offset |
| `LoadSpec.MovedOk` | stress/loadgen.c:263-424 | when one connection moves the counters still count the connections, and total_bytes is the sum of completed |
| `LoadSteps.AdvancedOk` | stress/loadgen.c:211-232 | a chunk that came back whole is added once; a connection finishes exactly at its goal, else the next chunk is the next part of its pattern |
| `LoadSteps.EchoMore` | stress/loadgen.c:386-400 | octets that pass the comparison extend the pattern |
| `LoadGen.Generator.FailConn` | stress/loadgen.c:66-75 | a connection is counted as failed at most once and closed; no other changes |
| `LoadGen.Generator.SendChunk` | stress/loadgen.c:362-373 | the chunk's offset advances by what was sent; awaiting the echo starts when all is out |
| `LoadGen.Generator.SendControl` | stress/loadgen.c:374-384 | the same for control messages |
| `LoadGen.Generator.Check` | stress/loadgen.c:392-399 | true exactly when every octet is the pattern's |
| `LoadGen.Generator.RecvChunk` | stress/loadgen.c:386-410 | a correct echo is appended and counted, a wrong one counted as corrupted and failed, end of stream failed; no other connection changes |
| `LoadGen.Generator.RecvControl` | stress/loadgen.c:411-421 | replies are collected, validated and answered with the next message |
| `LoadGen.Generator.HandleEvents` | stress/loadgen.c:329-423 | one connection becomes exactly what poll's report, the send and the recv make of it, correct echoes are added to what it has seen, no other connection changes, and conservation is kept |
| `LoadGen.HandlePoll` | stress/loadgen.c:333-424 | a poll round does that to every connection |
| `LoadGen.Generator.ExpireHandshakes` | stress/loadgen.c:268-273 | exactly the connections neither ready nor failed fail |
| `LoadGen.Generator.StartWorkload` | stress/loadgen.c:188-209 | every connection gets exactly its share and first chunk, conservation established for the workload |
| `LoadGen.Generator.FinishSoak` | stress/loadgen.c:291-299 | exactly the waiting connections are closed and counted as finished |
| `LoadGen.Generator.Refill` | stress/loadgen.c:324-328 | exactly the waiting connections whose pause is over send again |
| `LoadGen.Generator.constructor` | stress/loadgen.c:248-255 | every connection is begun; those refused at once have failed |
| `LoadGen.FinishedAll` | stress/loadgen.c:301-316 | when all are counted finished and none failed, each has had its whole goal echoed and matched |
| `LoadGen.NothingToDo` | stress/loadgen.c:188-232 | in every state a connection whose goal is zero is still sending its empty chunk or has failed, and is counted as finished only then |
| `LoadGen.ThroughputTotal` | stress/loadgen.c:188-209 | then the total is the bytes asked for, at least one per connection |
| `LoadGen.BeforePoll` | stress/loadgen.c:263-332 | a turn up to poll does exactly what the specification says; exit code 0 only with every connection finished and none failed |
| `LoadGen.Run` | stress/loadgen.c:234-436 | exit code, connections and octets seen are those of the run as a function of the poll, send, recv and clock results; conservation at every point; throughput returning 0 means exactly the requested bytes were echoed and matched the pattern |
| `LoadReach.HopelessRun` | stress/loadgen.c:188-436 | no run in which some connection has a goal of zero returns 0, whatever the peers and the clock do |
| `LoadReach.TooFewBytes` | stress/loadgen.c:188-436 | so a throughput run asked for fewer bytes than connections never succeeds; its last connection stays idle |
| `LoadReach.OneByteForTwo` | stress/loadgen.c:188-436 | for instance one byte over two connections |
| `LoadReach.ShakingStep` | stress/loadgen.c:153-186 | with a proxy that answers, each round brings a handshake one message further, up to ready |
| `LoadReach.BusyStep` | stress/loadgen.c:211-232 | with full sends and true echoes each round brings a connection strictly closer to its goal, up to done |
| `LoadReach.WorkEnds` | stress/loadgen.c:263-436 | from any such point some rounds lead to exit code 0 |
| `LoadReach.EnoughBytes` | stress/loadgen.c:234-436 | in every mode, and in throughput mode with at least one byte per connection, some run returns 0 |
| `LoadReach.SuccessIff` | stress/loadgen.c:188-436 | exit code 0 is reachable exactly when every connection has something to do |
| `LoadLaws.FailureIsFinal` | stress/loadgen.c:263-436 | a connection that has failed, at any point of a run and for any reason, keeps the run from returning 0 |
| `LoadLaws.WrongByteFails` | stress/loadgen.c:386-402 | a byte that comes back other than the pattern's, wherever it is in the stream, fails its connection and adds nothing to what has come back |
| `LoadLaws.RightBytesCount` | stress/loadgen.c:386-410 | bytes that come back as sent are added, and fail nothing |
| `LoadLaws.HandshakesEnd` | stress/loadgen.c:268-289 | after thirty seconds of handshakes the work starts if everybody is ready, and otherwise the run returns 1 |
| `LoadLaws.DeadlineEnds` | stress/loadgen.c:291-322 | work past its deadline ends the run, with 0 only if every connection is done |
| `LoadLaws.EveryRunEnds` | stress/loadgen.c:234-436 | every run has an exit code once the clock has passed the two deadlines, whatever the sockets do |
| `LoadLaws.PauseEnds` | stress/loadgen.c:324-328 | while a soak lasts a connection whose pause is over sends the next 1024 bytes of its pattern |
| `LoadLaws.HeldIsOver` | stress/loadgen.c:291-316 | a soak that is over with everybody waiting returns 0; a capacity run that holds all connections returns 0 exactly if it is released |

## Left out

- Selector.Selector.Unregister: a close handler that acts on the selector is modelled on a table with a slot for every descriptor, where the table never moves while the handler runs.
- StringTable.Definition.constructor: takes a string of ASCII octets, since what tolower and toupper do beyond them depends on the locale.
- StringTable.Compare: likewise.
- StringTable.Parser.Feed: the optional second action and character classes are not modelled; the table compiled from a string uses neither, and octet 255 is excluded because the table of empty classes has 255 entries.
- Socks5.Connection.FeedNegotiation: in the connection the three parsers are values and feeding one is its function; the in-place parsers over arrays are the classes of `Negotiation`, `Auth` and `Request`, proved to compute those functions.
- Socks5.Connection.TryCandidate: counts an attempt for every candidate, also one for which no socket could be had, so "no connect without authorisation" is stated of more than the connects made.
- LoadGen.Run: the soak mode's exit code says nothing about a byte total, since its goal is unbounded; event records written to the runner are not modelled.
- Failure of `selector_set_interest` and the ERROR returns behind it: `Selector.Selector.SetInterest` fails only for a descriptor that is not registered, which the connection never passes; so `arrival_error` stays false.
- Allocation failures, except a job that cannot be queued and workers that cannot be started.
- The list of pending block notifications in the selector: a wake-up may reach any connection at any time, which includes every order that list can produce.
- Accepting: connection limits, the paused listener and its retry; a new connection appears at any time.
- The byte counters of the metrics: they count what is received in the relay, not what is forwarded.
- The access log's file handling and line formatting: the log is a list of lines of fewer than 1024 characters, newest first.
- What `getaddrinfo` returns beyond how many addresses there are, and which reply code each errno maps to.
- Start-up, option parsing, the terminal client, the stress runner, the echo server and the reports: plumbing and I/O around the modelled core.
