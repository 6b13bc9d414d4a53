# Verification of the Geph tunnel

This project models the parts of Geph where a mistake would lose or misroute bytes, and proves what they are
for. `dafny verify dfyconfig.toml` checks everything. Inductions are written out: automatic induction is switched off
(`{:induction false}`) on every lemma it would otherwise apply to.

## The system

A *context* (`internal/niaucchi3`, and its older sibling `internal/legacy/niaucchi2`) carries many sockets over
a FIFO byte wire, or over several. Segments are OPEN, DATA, ICWD (64 credits back), CLOS and ALIV (padding and
keepalive). A writer takes a slot of a 256-place send window, then passes two locks and emits its chunk; a
reader takes segments from a 256-place queue and grants credits at a random threshold; a demultiplexer looks
every segment up in a table and kills the whole context at the first violation.

| file | what it holds |
|---|---|
| `Segments.dfy` | the wire format |
| `Padding.dfy` | chunking and the padding of each emission |
| `Sockets.dfy` | one socket: its atomic steps on a value, and the class that performs them in place |
| `Links.dfy` | one connection: the invariant behind credits, streams and closing |
| `Endpoints.dfy` | one end of a context: table, accept queue, demultiplexer, `Tunnel` |
| `Routing.dfy`, `Mux*.dfy` | both ends, any number of wires and sockets, every interleaving |
| `MuxWitnesses.dfy` | every run of one connection is one of some context, and both refusals happen |
| `MuxDelivery.dfy`, `MuxServing.dfy`, `MuxMisuse.dfy`, `MuxBarred.dfy`, `MuxDiscipline.dfy` | exactly when an ID may be used again |
| `MuxReuse.dfy` | contexts in which the code uses one too early and loses everything |
| `Absorb.dfy` | how a niaucchi2 context numbers its wires |
| `Billing.dfy` | the exit's byte counter, its dithered sync, the saturating database balance, the pumps |
| `Socks.dfy`, `Requests.dfy` | a destination from a SOCKS client through the guard and the framing to the exit |
| `GeoDB.dfy` | the country lookup |

### How concurrency is modelled

A step is what a goroutine does between two points where another may interfere: taking a slot, the locked part
of a write, the locked part of a credit grant, `Close`, one round of the demultiplexer, and so on. `Links.Next`
and `Mux.Next` let any step of any socket happen in any order; thresholds, pads, chunks, IDs and the choice of
wire are arbitrary. The classes perform the same steps in place, and each method's contract ties its new state
to the step function. Timeouts and the death of a context are steps that may come at any time (`Die`). They are
the only steps of a server socket that still waits to be accepted; a client's takes none before its OPEN is sent.

Fields gathered under `x` in a socket are what its goroutines hold between steps (slots taken but not used,
grants not yet sent) and history (bytes sent and returned). The window W is `256 - reads + 64 * grants`.

A packet on a wire in `Mux` carries, besides its segment, the name of the socket pair it was sent for. It is
history: no step looks at it, except that an OPEN gives its name to the socket it makes. "Routed" says that the
table leads a packet to the pair it was sent for.

### Main results

* Safety and refinement. In every state of every run with any number of sockets, wires and ID reuses, the
  invariant holds (`MuxRuns.Safety`), and each pair of sockets makes a run of a link of its own
  (`MuxRuns.Refinement`). What follows is stated of every reachable state: streams (`MuxRuns.Streams`), credits
  (`MuxRuns.CreditsConserved`, `MuxRuns.Windows`, `MuxRuns.NoDeadlock`), tables (`MuxRuns.TablesAgree`), endings
  (`MuxRuns.EofMeansAll`).
* The converse. Every run of one connection that meets no refusal is, step for step, what a pair does in some run
  of a context from the start (`MuxWitnesses.LinkIsRealised`), so the refinement leaves nothing out.
* Exact kills. The demultiplexer kills a context exactly when an OPEN finds the accept queue full, or a CLOS
  finds 256 unread DATA segments on a socket of which none was ever read (`MuxRuns.ExactKills`). Reachable contexts
  meet both (`MuxWitnesses.OverfullHappens`, `MuxWitnesses.AcceptOverflowHappens`).
* The ID discipline. `Tunnel` takes any ID that is not in the client's table, and an ID leaves that table when
  the peer's CLOS arrives, although the local socket may not have sent its own. An ID is *retired* for a wire if
  every earlier socket with it has sent its CLOS and, where it used another wire, that wire has carried all of it.
  A pick is followed only by runs in which every packet reaches its own socket if and only if the ID is retired, or
  the new pair can never reach the server anyway (`MuxDiscipline.DisciplineIsExact`). Otherwise some run ends with
  the server, alive, about to give a packet to another pair's socket or to none, and some run loses the whole
  context over a byte of the new pair, which nobody has closed (`MuxMisuse.UnretiredFails`). Contexts come to such a
  pick from the start, under every ID and configuration (`MuxReuse.ReuseKillsContext`). The results about runs assume
  the discipline, which never-reused IDs satisfy.
* Several wires. niaucchi2 shares one table between wires that have no order between them, and draws a wire for
  each socket. The same invariant covers it, also when an ID moves from one wire to another.
* Quiescence. With no new write, open, close or timeout every schedule, accepting what was opened, strictly lowers
  one weight. Where it ends, every end that was alive when it began has read all its peer sent, and has ended by the
  CLOS if and only if its peer has closed; live pairs have at least 32 credits free (`MuxRuns.Quiescence`).
* Calls. `Write` and `Read` are runs of the steps that all this is about (`Sockets.WriteIsRun`, `Sockets.ReadIsRun`).
  A dead socket still returns what is buffered, and only then what it died of (`Sockets.DeadReads`).
* Any peer. Also a dishonest peer's segments are taken exactly as far as credits and queue allow
  (`Sockets.ArrivalsTaken`), and nothing is dispatched after its first violation (`Endpoints.ViolationEnds`).
* Billing. Every byte ever asked for is in a settled snapshot, in a window between a snapshot and its reset, or
  in the counter (`Billing.Conservation`): the bytes of those windows are never charged. Within an epoch
  one session delivers strictly less than its balance (`Billing.AdmissionBound`), which after a sync is what its last
  deduction left (`Billing.EpochBound`); but each session that connects is
  given the user's whole balance, so `m` of them can deliver more than the user has if and only if `m` is at least 2
  (`Billing.BalanceIsGivenTwice`).
* Requests. A request is read exactly if and only if it fits a 128-byte scratch array (`Socks.RoundTrip`), and
  what is read as a request is one (`Socks.OnlyRequests`); its text determines host and port
  (`Socks.HostPortDetermines`); the guard keeps destinations and lookups apart
  (`Requests.DestinationsAreUnderstood`), and is needed for that (`Requests.GuardIsNeeded`). Which names and addresses
  it lets through is stated for each (`Requests.NameDecides`, `Requests.AddressDecides`). From end to end, the SOCKS
  client is told of success exactly when the exit is connected where it asked, and otherwise of the cause
  (`Requests.RequestReachesExit`).
* Lookup. The binary search answers as a scan (`GeoDB.AnswerIs`), in at most k + 1 looks at 2^k entries. The lower bound moves to
  the middle and not past it, so three entries can take three looks, one more than floor(log2 3) + 1.

### Where the code says one thing and does another

* `Write` reports 0 bytes with an error even when some chunks were sent (`Sockets.Socket.Write`), so its count is
  right exactly when all of them were, or none (`Sockets.ReportedIsSent`).
* `filterDest` looks host names up in order to decide by country, and then always lets them through
  (`Requests.FilterDest`).
* A SOCKS client that offers more than 128 methods, or a domain of more than 128 bytes, causes a panic rather
  than an error (`Socks.RoundTrip`).

## Model

| member | source | states |
|---|---|---|
| Segments.DecodeEncoded | internal/niaucchi3/segment.go:13-18 | Decoding the bytes of any list of segments followed by any tail gives that list, then whatever the tail decodes to |
| Segments.EncodeDecoded | internal/niaucchi3/segment.go:13-18 | Re-encoding what any bytes decode to, and adding the undecoded tail, gives the same bytes |
| Segments.EncodedFields | internal/niaucchi3/segment.go:3-18 | Flag, ID, length and body lie in this order, high bytes first, and the five flags are 1, 2, 16, 17 and 255 |
| Padding.ChunksJoin | internal/niaucchi3/socket.go:47-65 | Chunking loses nothing, keeps every chunk within 8192 bytes, fills all but the last and makes as few chunks as that allows |
| Padding.PaddedToTarget | internal/niaucchi3/socket.go:85-122 | A padded emission is exactly as long as its target for every length and draw, so the padding panic is unreachable |
| Padding.SizeInBand | internal/niaucchi3/socket.go:85-122 | The size of an emission lies in the band of its chunk's length class and in no other of the seven |
| Padding.BandsTight | internal/niaucchi3/socket.go:85-122 | Every size of every band is met by some chunk of that class and some draw |
| Padding.EmissionIs | internal/niaucchi3/socket.go:107-122 | The chunk goes first, under its socket's ID, and then at most one keepalive of zeros |
| Padding.EmissionPayload | internal/niaucchi3/socket.go:107-122 | The data bodies of an emission are exactly the chunk |
| Padding.WriteDecodes | internal/niaucchi3/socket.go:47-128 | What a write of any length emits, with any pads, decodes whole to segments whose data bodies join to the bytes written |
| Sockets.CountStep | internal/niaucchi3/socket.go:148-153 | One wrapped decrement, threshold test and increment keeps the uint8 equal to the window modulo 256 and the window in 32..255, and in 32..158 after a grant |
| Sockets.CounterIsWindow | internal/niaucchi3/socket.go:25-25 | After any number of reads with any draws the uint8 is the window modulo 256, the window is in 32..255, and the counter has wrapped exactly once |
| Sockets.ThresholdIsUniform | internal/niaucchi3/socket.go:148-153 | Of 64 draws, a read that leaves fewer than 32 grants on all, one that leaves 95 or more on none, and each one less in between on one more |
| Sockets.Wire.Pack | internal/niaucchi3/Context.go:116-120 | Under the wire lock the bytes written stay the encoding of whole segments, one more than before |
| Sockets.Wire.PackBuffer | internal/niaucchi3/socket.go:112-121 | The same for a buffer that holds several segments |
| Sockets.Socket.constructor | internal/niaucchi3/Context.go:81-86 | A new socket: empty queue, empty window, counter 0, alive |
| Sockets.Socket.Kill | internal/niaucchi3/Context.go:95-102 | The first cause of death stays |
| Sockets.FirstCauseStays | internal/niaucchi3/Context.go:95-102 | However many causes of death come, the first stays |
| Sockets.Socket.Close | internal/niaucchi3/socket.go:34-44 | The first call sends one CLOS and kills the socket; later calls do nothing |
| Sockets.Socket.TakeSlot | internal/niaucchi3/socket.go:68-75 | The three-way select: a slot, the death's cause, or a timeout that kills |
| Sockets.Socket.ChoosePad | internal/niaucchi3/socket.go:85-102 | The target size of each length class |
| Sockets.Socket.SendPadded | internal/niaucchi3/socket.go:103-122 | One write to the wire holds the chunk and its padding, and the length check inside it always passes |
| Sockets.Socket.EmitChunk | internal/niaucchi3/socket.go:77-127 | The locked part: emit and count the bytes as sent, or give up the slot if the socket has died |
| Sockets.Socket.RealWrite | internal/niaucchi3/socket.go:67-128 | With room, all of the chunk is sent; with a full window or a dead socket nothing is, and the cause is reported |
| Sockets.Socket.Write | internal/niaucchi3/socket.go:47-65 | As many chunks go out as the window has room for, and an error at a live socket means that the window is full; n is the whole length, or 0 with an error even when some chunks went out |
| Sockets.WriteIsRun | internal/niaucchi3/socket.go:47-128 | A `Write` to a live socket is a run of slots and emissions, chunk by chunk, that ends with the last chunk or where no slot is left, and then in the timeout |
| Sockets.SomeGoOut | internal/niaucchi3/socket.go:47-65 | Of two or more chunks any number may go out before the window is full |
| Sockets.ReportedIsSent | internal/niaucchi3/socket.go:47-65 | The number of bytes a `Write` reports is the number it put on the wire if and only if all of its chunks went out, or none |
| Sockets.Socket.Read | internal/niaucchi3/socket.go:131-188 | Buffered bytes are returned first and without an error, dead or alive; any error comes with no bytes and an empty buffer; and the bytes put at the front of the caller's buffer are exactly those added to what was returned |
| Sockets.ReadIsRun | internal/niaucchi3/socket.go:131-188 | A `Read` is a run of the socket's own steps |
| Sockets.ReadTells | internal/niaucchi3/socket.go:131-188 | Its error is the cause of death, the timeout, EOF at a CLOS, or a protocol failure that kills the context, each exactly when it should be, and there is none while bytes are buffered |
| Sockets.DeadReads | internal/niaucchi3/socket.go:133-140 | Repeated reads of a dead socket return all that is buffered, in order and without an error, and then what it died of |
| Sockets.Socket.Receive | internal/niaucchi3/socket.go:145-169 | The DATA branch: what fits is copied, the rest buffered, the counter and the grants move by the read |
| Sockets.Socket.SendCredit | internal/niaucchi3/socket.go:155-167 | A live receiver returns 64 credits in one ICWD; a dead one drops them |
| Sockets.Socket.Accept | internal/niaucchi3/Context.go:191-216 | An ICWD drains that many slots or overflows part way; anything else is queued or finds the queue full |
| Sockets.ArrivalsTaken | internal/niaucchi3/Context.go:191-216 | Whatever a peer sends, all of it is taken if and only if its ICWDs carry a number and return no more credits than slots in use, and the rest fits the queue of 256; then the slots are freed and the rest is queued in order |
| Links.SenderActs | internal/niaucchi3/socket.go:34-128 | Every step of a sender keeps credits, stream, shape and deaths of its direction |
| Links.ReceiverActs | internal/niaucchi3/socket.go:131-188 | Every step of a receiver keeps them too, whatever it puts on the way back |
| Links.DeliverToReceiver | internal/niaucchi3/Context.go:202-215 | Taking a segment off the wire keeps them at the receiver |
| Links.DeliverToSender | internal/niaucchi3/Context.go:191-201 | Taking a credit off the wire keeps them at the sender |
| Links.StepInv | internal/niaucchi3/socket.go:34-188 | The invariant of a connection survives every step of every schedule |
| Links.RunInv | internal/niaucchi3/socket.go:34-188 | So it holds in every state of every run of a connection |
| Links.HonestArrival | internal/niaucchi3/Context.go:191-215 | No segment of an honest peer is refused, except a CLOS exactly when nothing was ever read and all 256 initial credits sit in the queue |
| Links.ClosCanOverflow | internal/niaucchi3/Context.go:208-214 | A run of one connection, 256 unread writes and a close, in which that refusal happens |
| Links.DoomedStays | internal/niaucchi3/Context.go:202-215 | Once the whole initial window and then a CLOS are on their way to a dead socket nobody reads, every step of anybody leaves it so until the CLOS is refused |
| Links.NothingAfterClos | internal/niaucchi3/socket.go:34-44 | After its CLOS a socket puts nothing more on the wire under any sequence of steps and arrivals |
| Links.OneClos | internal/niaucchi3/socket.go:34-44 | A socket puts at most one CLOS on the wire, and it comes last |
| Links.StepSinks | internal/niaucchi3/socket.go:67-188 | Every finishing step lowers the weight of a connection, an emission by more than its padding weighs |
| Links.QuietMeansDone | internal/niaucchi3/socket.go:131-188 | Where no finishing step is left between live ends all bytes are read both ways and each free window is the peer's W |
| Links.QuietLink | internal/niaucchi3/socket.go:170-173 | Where no finishing step is left, an end that died of nothing but its peer's CLOS has every byte its peer sent, and has ended if and only if its peer has closed |
| Endpoints.Context.constructor | internal/niaucchi3/Context.go:39-51 | An empty table and queue, alive |
| Endpoints.Context.MakeSocket | internal/niaucchi3/Context.go:151-169 | A new socket takes its ID's entry in the table, replacing an earlier one; no other socket changes |
| Endpoints.Context.Enqueue | internal/niaucchi3/Context.go:171-178 | The accept queue grows by the socket, or being full kills the context |
| Endpoints.Context.AddSocket | internal/niaucchi3/Context.go:150-178 | The OPEN branch as a whole |
| Endpoints.Context.Accept | internal/niaucchi3/Context.go:58-67 | The socket that has waited longest is taken off the queue, or the cause of death is reported |
| Endpoints.Context.Unlist | internal/niaucchi3/Context.go:203-207 | A CLOS takes its ID out of the table and the socket lives on; nothing else does |
| Endpoints.Context.Give | internal/niaucchi3/Context.go:191-216 | One socket takes the segment and no other socket changes |
| Endpoints.Context.Hand | internal/niaucchi3/Context.go:191-216 | One socket takes a segment; if it refuses, the context dies with the right cause |
| Endpoints.Context.Route | internal/niaucchi3/Context.go:179-217 | The branch for an ID in the table |
| Endpoints.Context.Demux | internal/niaucchi3/Context.go:148-217 | One round of the loop has exactly the effect of the dispatch function on table, sockets, queue and death |
| Endpoints.Context.Turn | internal/niaucchi3/Context.go:140-149 | One turn of the loop: a whole segment is dispatched, or the incomplete tail ends it |
| Endpoints.Context.MainThread | internal/niaucchi3/Context.go:140-217 | The loop over a byte stream dispatches every whole segment in order and stops at the first violation or at the incomplete tail, whose read error kills the context if nothing has |
| Endpoints.ViolationEnds | internal/niaucchi3/Context.go:140-217 | Whatever a peer sends, after its first violation the context is dead and nothing more is dispatched; without one nothing is killed and the loop goes on from what it has come to |
| Endpoints.RefusesOpens | internal/legacy/niaucchi2/subCtx.go:114-121 | A context that refuses OPENs never gains a socket, and its loop goes on only while none comes |
| Endpoints.WireIsDispatched | internal/niaucchi3/Context.go:140-148 | Over the bytes one end wrote the loop dispatches, at the other, exactly the segments that end wrote |
| Endpoints.Context.OpenSocket | internal/niaucchi3/Context.go:81-94 | The socket is listed before its OPEN is sent, and one OPEN is sent |
| Endpoints.Context.Tunnel | internal/niaucchi3/Context.go:70-104 | The first draw not in the table becomes the ID of a new socket, which is opened; if all draws are taken nothing changes |
| MuxTheorems.TunnelInv | internal/niaucchi3/Context.go:70-88 | Registering a socket under a retired ID keeps the invariant of the whole context |
| MuxTheorems.SendOpenInv | internal/niaucchi3/Context.go:89-94 | So does sending its OPEN, whenever that happens |
| MuxTheorems.ClientActInv | internal/niaucchi3/socket.go:34-188 | So does any step of any client socket |
| MuxTheorems.ServerActInv | internal/niaucchi3/socket.go:34-188 | So does any step of any server socket |
| MuxTheorems.KeepAliveInv | internal/niaucchi3/Context.go:114-126 | So does a keepalive |
| MuxTheorems.ServerDeliverInv | internal/niaucchi3/Context.go:140-217 | So does a round of the server's demultiplexer on any wire |
| MuxTheorems.ClientDeliverInv | internal/legacy/niaucchi2/subCtx.go:85-189 | So does a round of the client's, with one table shared by wires that have no order between them |
| MuxTheorems.ServerRouting | internal/niaucchi3/Context.go:150-190 | What the server takes off a wire is the OPEN of a socket it lacks under a free ID, or is for the very pair its table names: the stray branch is unreachable |
| MuxTheorems.ClientRouting | internal/legacy/niaucchi2/subCtx.go:114-162 | The same at the client, and no OPEN ever reaches it |
| MuxTheorems.ServerVerdict | internal/niaucchi3/Context.go:171-215 | Under the invariant the server's dispatch fails exactly as the verdict on the packet says |
| MuxTheorems.ClientVerdict | internal/niaucchi3/Context.go:179-215 | The same at the client, which never sees an OPEN |
| MuxTheorems.ActionInv | internal/niaucchi3/Context.go:70-217 | The invariant of the whole context survives every disciplined step |
| MuxTheorems.Refines | internal/niaucchi3/Context.go:140-217 | Whatever the context does, each pair makes the corresponding step of its own link or does not move |
| MuxRuns.Safety | internal/niaucchi3/Context.go:70-217 | The invariant holds in every reachable state: after any disciplined run from the start over any number of wires |
| MuxRuns.ExactKills | internal/niaucchi3/Context.go:148-217 | In every reachable state the next packet of either side finds its own socket, and kills the context exactly when it is an OPEN and the accept queue is full or a CLOS that finds the whole initial window unread; no context ever died of anything else |
| MuxRuns.Refinement | internal/niaucchi3/Context.go:140-217 | However a run goes on from a reachable state, it is for each pair a run of a link of its own that ends in that pair's state |
| MuxRuns.RunRefines | internal/niaucchi3/Context.go:140-217 | The same from any state with the invariant |
| MuxRuns.Streams | internal/niaucchi3/socket.go:67-188 | In every reachable state and both ways, bytes returned, buffered, queued and on the wire for a pair are together, in order, the bytes put on the wire |
| MuxRuns.CreditsConserved | internal/niaucchi3/socket.go:67-84 | Both ways, in every reachable state, every slot of the send window is accounted for, with the two terms that deaths lose |
| MuxRuns.Windows | internal/niaucchi3/socket.go:145-168 | Both ways, unread DATA plus 64 times the credits under way never exceed W, at most two grants are under way, the uint8 is W modulo 256 and W is in 32..256 |
| MuxRuns.NoDeadlock | internal/niaucchi3/socket.go:67-75 | Both ways, between live ends a full window implies unread DATA, an unsent slot or a credit under way; with none of these exactly W, so at least 32, slots are free |
| MuxRuns.EofMeansAll | internal/niaucchi3/socket.go:170-173 | A `Read` that met the peer's CLOS has returned exactly every byte the peer put on the wire, both ways, also under simultaneous close |
| MuxRuns.TablesAgree | internal/niaucchi3/Context.go:203-207 | In every reachable state each table, once its wire has drained, has a pair exactly if the other end has opened and not closed it; with nothing of the ID under way the tables say so now |
| MuxRuns.ActionSinks | internal/niaucchi3/socket.go:67-188 | Every finishing step of any socket, every delivery and every accept lowers one weight of the whole context |
| MuxRuns.FinishingRunBounded | internal/niaucchi3/socket.go:67-188 | A schedule of finishing steps has at most as many steps as the weight it starts with |
| MuxRuns.Quiescence | internal/niaucchi3/socket.go:67-188 | From every reachable state every schedule of finishing steps is at most as long as the weight; where it ends with none left, every end that was alive when it began has read all its peer sent, and has ended by the CLOS if and only if its peer has closed, and each live pair has W, so at least 32, credits free at each end |
| MuxWitnesses.Realise | internal/niaucchi3/socket.go:34-188 | From any context with one accepted pair, every run of that pair's link without a refusal is the pair's trace in some run of the context |
| MuxWitnesses.LinkIsRealised | internal/niaucchi3/Context.go:70-217 | So every run of a new connection without a refusal is, step for step, a pair's trace in some run from the start |
| MuxWitnesses.OverfullHappens | internal/niaucchi3/Context.go:208-214 | Some reachable context, its server alive, is about to die of a CLOS that finds the whole initial window unread |
| MuxWitnesses.AcceptOverflowHappens | internal/niaucchi3/Context.go:171-178 | For every queue size below 65536 some reachable context, its server alive, is about to die of an OPEN that finds the queue full |
| MuxDelivery.RetiredIsSafe | internal/niaucchi3/Context.go:70-92 | After a retired ID is picked, in every state of every later run what comes next off any wire, at either end, finds its own socket |
| MuxServing.PopMany | internal/niaucchi3/Context.go:140-217 | The server can take any number of packets off one wire by its own steps, as long as no CLOS among them is one that a dead, unread socket has to refuse |
| MuxMisuse.UnretiredFails | internal/niaucchi3/Context.go:185-190 | After an ID that is not retired is picked, some run leads to a misdelivery, and some to the loss of the whole context over a byte of the new pair, which nobody has closed |
| MuxBarred.BarredIsSafe | internal/niaucchi3/Context.go:140-217 | A pick for a wire that nothing can come through, since the server is dead or a CLOS on the way will end it, is followed only by runs that misdeliver nothing and lose nothing over a stray segment |
| MuxDiscipline.DisciplineIsExact | internal/niaucchi3/Context.go:70-92 | In every reachable state a pick is followed only by runs that misdeliver nothing, and only by runs that lose no context over a stray segment, if and only if the ID is retired or the new pair's wire is barred; with one wire nothing is assumed but a place in the accept queue |
| MuxReuse.ReuseKillsContext | internal/niaucchi3/Context.go:185-190 | For every ID and configuration some context comes from the start to a pick of an ID that is not retired, and from there to the loss of the context over a byte of a pair that nobody has closed |
| Absorb.PickIsLeast | internal/legacy/niaucchi2/Context.go:140-150 | The search finds the least unused number below 65535, or there is none |
| Absorb.NthGetsN | internal/legacy/niaucchi2/Context.go:136-150 | The n-th connection gets number n up to 65534, and from the 65535th on the table is full |
| Absorb.HandshakeRoundTrip | internal/legacy/niaucchi2/Context.go:151-161 | The two bytes announced decode to the same number and nothing more is consumed |
| Absorb.Context.FindFree | internal/legacy/niaucchi2/Context.go:140-145 | The loop computes that search, 0 standing for none |
| Absorb.Context.Absorb | internal/legacy/niaucchi2/Context.go:129-177 | Both roles with every error: what is sent or read, which entry is replaced, and when the context dies |
| Billing.Database.DecAccBalance | internal/scmd/exit/postgres.go:71-105 | A deduction saturates at zero, spares unlimited users, and leaves the balance alone whichever operation fails |
| Billing.DeductionReports | internal/scmd/exit/postgres.go:71-105 | A deduction that succeeds reports what the user has left after it, a million megabytes with an unlimited plan; which faults make it fail; and what moves in the ledger |
| Billing.Meter.constructor | internal/scmd/exit/manageCtx.go:13-22 | The counter starts with what a deduction of nothing reports, even a failed one |
| Billing.ConnectGives | internal/scmd/exit/manageCtx.go:14-20 | What a session starts with, whichever operation fails: all its user has left also when the deduction of nothing could not be committed |
| Billing.Meter.Consume | internal/scmd/exit/manageCtx.go:25-34 | Both balances move by the request, which is refused exactly when nothing would be left |
| Billing.Meter.Sync | internal/scmd/exit/manageCtx.go:42-65 | One sync is the snapshot, the charge, the dithered charge and the reset; without a fault the balance is then the bytes in the megabytes the user has left, and none where the last deduction failed before it knew the plan |
| Billing.Pump | internal/scmd/exit/proxyCommon.go:121-136 | The loop forwards exactly the longest prefix of chunks that fits the balance and the far side; the chunk it stops at has been asked for too |
| Billing.PassedIsLongest | internal/scmd/exit/proxyCommon.go:121-136 | What a pump lets through is the longest prefix of chunks that leaves something of the balance |
| Billing.Conservation | internal/scmd/exit/manageCtx.go:25-65 | For every interleaving of every session, all that was asked for is in settled snapshots, lost windows or the counter |
| Billing.CellDecides | internal/scmd/exit/manageCtx.go:53-54 | All draws of one of a million equal cells decide alike: charge extra if and only if the cell is below the remainder |
| Billing.DitherIsFair | internal/scmd/exit/manageCtx.go:46-60 | A sync asks for its snapshot rounded down or up, and over the million cells for the snapshot exactly |
| Billing.ChargesFollowSnapshots | internal/scmd/exit/manageCtx.go:42-65 | Over any run the megabytes asked for and the settled bytes differ by less than one megabyte for each sync |
| Billing.AdmissionBound | internal/scmd/exit/proxyCommon.go:101-136 | Within one epoch all pumps of a session deliver strictly less than a positive starting balance, and nothing on any other |
| Billing.ResetGives | internal/scmd/exit/manageCtx.go:61-65 | Over every run, a reset starts an epoch with the bytes in the megabytes that the session's last deduction left, or with none if it failed |
| Billing.EpochBound | internal/scmd/exit/manageCtx.go:61-65 | An epoch that a reset begins delivers less than that |
| Billing.RefusalLasts | internal/scmd/exit/manageCtx.go:25-34 | Once the requests of an epoch reach the balance nothing more is accepted until the reset |
| Billing.UserBound | internal/scmd/exit/manageCtx.go:20-34 | Until a reset all sessions of a user together deliver at most all but one byte of each of their positive balances |
| Billing.BalanceIsGivenTwice | internal/scmd/exit/manageCtx.go:13-34 | With requests of at most 8192 bytes, m sessions of a billed user that connect before any reset can together deliver more than a limit if and only if it is below m times the balance less a byte; so more than the balance if and only if m is at least 2 |
| Billing.SerialDeductions | internal/scmd/exit/postgres.go:91-103 | However deductions of many sessions are ordered, a user's balance is the initial one less their sum, or zero |
| Socks.Conn.ReadFull | internal/tinysocks/socks5.go:31-34 | The buffer is filled from the front of the stream, or all of the stream is gone |
| Socks.Greet | internal/tinysocks/socks5.go:30-48 | The greeting is consumed and answered, or the error or panic comes where the format says |
| Socks.ReadAddress | internal/tinysocks/socks5.go:49-88 | The request is consumed in the reused scratch array with the same result as the format's parser |
| Socks.ReadRequest | internal/tinysocks/socks5.go:29-89 | Result, bytes left and bytes written are those of the format's parser on every input |
| Socks.CompleteRequest | internal/tinysocks/socks5.go:9-27 | The ten bytes of the reply, or nothing on a failed write |
| Socks.ReplyRead | internal/tinysocks/socks5.go:9-27 | A client that reads the reply by RFC 1928 section 6 gets the code, no address, and exactly the data behind it |
| Socks.RoundTrip | internal/tinysocks/socks5.go:29-89 | A greeting and request of RFC 1928 sections 3 to 5 is read to its last byte and no further if and only if it fits 128 bytes and can be answered; too many methods or too long a domain panic |
| Socks.GreetingAnswered | internal/tinysocks/socks5.go:30-48 | On any input the greeting is answered if and only if it is whole, of version 5, announces at most 128 methods and can be answered |
| Socks.PanicsExactly | internal/tinysocks/socks5.go:38-72 | On any input, exactly when a request panics |
| Socks.OnlyRequests | internal/tinysocks/socks5.go:29-89 | Whatever is read as a request is the encoding of one with that text, followed by what was left |
| Socks.HostPortDetermines | internal/tinysocks/socks5.go:86-88 | Two requests' texts are equal if and only if host and port are |
| Socks.DottedDetermines | internal/tinysocks/socks5.go:61-64 | Two dotted addresses are equal as texts if and only if all four bytes are |
| Requests.HostOfHostPort | internal/scmd/client/filterDest.go:28-29 | The guard sees the host that was asked for |
| Requests.HostOfBracketed | internal/scmd/client/filterDest.go:28-29 | The same for an address in brackets |
| Requests.OnlyHosts | internal/scmd/client/filterDest.go:28-29 | And no other address has a host |
| Requests.IsBlack | internal/scmd/exit/proxyCommon.go:19-38 | The loop over four networks finds exactly the addresses that begin 127, 10, 172.16 to 172.31, or 192.168 |
| Requests.FilterDest | internal/scmd/client/filterDest.go:16-75 | Which addresses go through the tunnel, with every early return and the country search; and exactly when that search panics |
| Requests.NameDecides | internal/scmd/client/filterDest.go:30-49 | A host name goes through if and only if it has a dot and does not end in .lan or .local |
| Requests.IPDecides | internal/scmd/client/filterDest.go:40-75 | Any host that is an address and is written with a dot goes through if and only if it is no IPv4 address in a local network, and in no listed country |
| Requests.AddressDecides | internal/scmd/client/filterDest.go:51-70 | A dotted address goes through if and only if its number lies in none of the local networks and it is in no listed country |
| Requests.UndottedStays | internal/scmd/client/filterDest.go:33-38 | A host without a dot, so an IPv6 address in its usual form, never goes through |
| Requests.GuardKeepsKindsApart | internal/scmd/client/filterDest.go:28-37 | No address that starts with "dns:" goes through the tunnel |
| Requests.FrameRoundTrip | internal/scmd/client/smSteadyState.go:73-73 | A framed text comes out whole with the data behind it intact if and only if it has at most 255 bytes; otherwise where it is cut |
| Requests.DestinationsAreUnderstood | internal/scmd/exit/proxyCommon.go:40-57 | The exit never takes a tunnelled address for a lookup, even a cut one, and understands it if and only if it has at most 255 bytes |
| Requests.LookupsAreUnderstood | internal/scmd/client/doDNS.go:44-44 | The exit looks up the name that was meant if and only if it has 1 to 251 bytes |
| Requests.RequestReachesExit | internal/scmd/client/smSteadyState.go:94-115 | A SOCKS request that fits and passes the guard is connected to the address and port it resolves to if these listen and are not local, and nowhere otherwise; the client reads in the reply which of these it was; what it sends next follows |
| Requests.GuardIsNeeded | internal/scmd/client/filterDest.go:33-37 | Without the guard a SOCKS request for a domain would be taken for a lookup |
| Requests.Serve | internal/scmd/exit/proxyCommon.go:39-96 | The answer, the address connected to and the bytes left for forwarding, on every stream |
| Requests.ConnectCodes | internal/scmd/exit/proxyCommon.go:70-95 | The exit's answer to an address is 4, 2, 5 or 0, each if and only if it does not resolve, is local, does not listen, or is now connected; without acknowledgements nothing is said |
| Requests.GuardedIsNotBlocked | internal/scmd/exit/proxyCommon.go:78-84 | A dotted address that the guard let through and that resolves to itself is never refused for being local |
| Requests.LookupAnswers | internal/scmd/exit/proxyCommon.go:56-68 | A lookup is answered with the first three addresses found, in order, and not at all if none was found |
| Requests.CodeTellsOutcome | internal/scmd/exit/proxyCommon.go:56-95 | Whatever data follows, the exit's answer to a tunnelled address is one byte that tells what became of it, 0 if and only if it is now connected to the address and port this very text resolves to |
| Requests.DialTunRaw | internal/scmd/client/smSteadyState.go:73-91 | One frame is written and one byte read; no byte is code 3 and kills the context; any code but 0 closes the connection |
| Requests.ResolveName | internal/scmd/client/doDNS.go:44-62 | One framed lookup is written and the first piece of a framed answer returned; without an answer the connection is closed |
| Requests.FirstAddressArrives | internal/scmd/client/doDNS.go:50-62 | The client takes the first address found if and only if the answer's wrapped length still covers it |
| GeoDB.SearchIsScan | internal/scmd/client/geoDB.go:59-77 | Over sorted disjoint ranges the search answers what a scan answers |
| GeoDB.SearchIsSound | internal/scmd/client/geoDB.go:59-77 | Over any table an answer other than "UN" is the country of a range that holds the address |
| GeoDB.AnswerIs | internal/scmd/client/geoDB.go:59-77 | Over sorted disjoint ranges the answer is the country of the range from whose first to whose last address this one lies, and "UN" between them |
| GeoDB.LooksAtMost | internal/scmd/client/geoDB.go:63-77 | Among at most 2^k ranges of any table the loop runs at most k + 1 times |
| GeoDB.LooksAtLeast | internal/scmd/client/geoDB.go:63-77 | Among more than 2^k ranges an address above them all takes more than k + 1 |
| GeoDB.Lookup | internal/scmd/client/geoDB.go:51-78 | Answer and exact worst case together |
| GeoDB.NumbersInOrder | internal/scmd/client/geoDB.go:53-56 | Numbers of addresses are in the order of their bytes, and no two addresses share one |
| GeoDB.AddressIs | internal/scmd/client/geoDB.go:53-58 | Which number is searched for, for an address of four bytes and for any of sixteen, the mapped form included |
| Requests.NumberIsSearched | internal/scmd/client/filterDest.go:62-62 | The guard has the country searched under the same number that tells the local networks |
| GeoDB.Database.GetCountry | internal/scmd/client/geoDB.go:51-78 | The loop computes that search for a four or sixteen byte address and panics exactly on an empty table or another length |

## Left out

- Sockets.Socket.Write: states a call during which nothing else runs, so a full window ends in the timeout; interleaved writers are the `Take` and `Emit` steps of `Links` and `Mux`, where bytes are ordered by emission.
- Sockets.Socket.RealWrite: the same; what may happen between the slot and the locks is what happens between `Take` and `Emit`.
- Sockets.Socket.Read: the same; one reader for each socket is assumed, because `recvcount` has no lock.
- Sockets.Socket.Kill: when the death of a context reaches a socket is left open; it is a step that may come at any time.
- Endpoints.Context.Tunnel: says what happens when every draw of a finite list is taken; on a full table the original draws for ever. The error of sending the OPEN is a wire failure.
- MuxDiscipline.DisciplineIsExact: with several wires, no CLOS of another ID that its socket has to refuse lies on the other wires of earlier holders; such a CLOS ends the server when it is taken (`Links.DoomedStays`). The accept queue has room for one socket at least; in the source it has 1024 places.
- Billing.Meter.Sync: nothing is consumed during this call; interleavings with `Consume` are the subject of `Billing.Conservation`.
- Billing.Pump: one pump alone draws on the counter; what many pumps get through together is the subject of `Billing.AdmissionBound`.
- Billing.SerialDeductions: the sessions of a run all exist when it starts; connecting one deducts nothing.
- Requests.FilterDest: whether the host is an address, and which, is a parameter, since ParseIP is not part of this model; the lookup made for host names has no effect on the decision.
- Requests.DialTunRaw: the fifteen-second timer; so for `Requests.ResolveName`, and its cache.
- Wire failures and partial writes: a wire is a reliable FIFO of bytes, and a connection that breaks is the death of its sockets.
- Time: timeouts, deadlines, keepalive pacing and watchdogs are steps that may happen at any moment.
- The insides of `struc`, `tomb` and `rate`; big-endian fields in declaration order and first-kill-wins are taken from them.
- `Ping` of niaucchi2, and the goroutines that tie a socket's death to its context's, beyond the `Die` step.
- Integer widths of the billing counters, which are 64 bits wide in the original.
- `manageLegacyCtx` and `decLegacyAccBalance`, near-copies of the modelled billing code; `authUser`.
- Loading the country table from a file, the DNS and country caches, and the entry cache.
- HTTP handlers, statistics, command flags, reverse proxies, cryptography and transports.
