# A Dafny model of the shadowsocks relay and of dnsblast

Two programs are modelled, each in the form it has in C, and what they promise is proved
for every input and every run.

**The relay** (`shadowsocks_server.c`). One client connection consists of a `server_t`, at
most one `remote_t` and at most one `query_t`; the event loop fires callbacks in an order
that the network, the resolver and the clock choose.

- `RelayMachine.dfy` is one connection as a state machine: a step per callback, for every
  result of recv, send, connect, the resolver and the cipher. The cipher is an arbitrary
  stateful function.
- `RelayHeader.dfy` is the request header: printer, parser, and the proof that they are
  inverse to each other.
- `RelayInvariant.dfy` holds the invariant that ties stage, watchers, buffer windows and
  byte streams together, and shows that every step keeps it. `RelayTheorems.dfy` draws the
  consequences for whole runs, `RelayProgress.dfy` those about draining and refused sends;
  `RelayWitness.dfy` has runs that show where they end.
- `RelayQueues.dfy` is the same connection without buffers, watchers and parser: two queues
  of bytes and a phase. The machine is proved to be that one, step by step and run by run,
  in both directions. `RelayOutcomes.dfy` reads off when exactly a callback stops, closes,
  asks, connects or starts to relay.
- `RelayHeap.dfy` has the objects with their pointers, the list of connections, the
  counters and a method per callback, each proved to make exactly its step of the machine.
  Every access to an object goes through a member that requires it not to be freed;
  freeing leaves arbitrary memory behind, and each callback ensures that what it frees it
  leaves alone. `RelayLoop.dfy` is the loop over all connections: any callback of any
  connection may come next.

**The DNS load generator** (`dnsblast.c`, `dnsblast.h`, `dns.h`).

- `DnsName.dfy` is the in-place name encoder with its space budget, `DnsQuestion.dfy` the
  packet and a reader written from sections 3.1, 4.1.1 and 4.1.2 of RFC 1035,
  `DnsSampler.dfy` the weighted choice of a type.
- `DnsTrace.dfy` defines the packets of a run as a function of the random numbers, the
  packet count and the fuzz flag; `DnsDraws.dfy` says what each random number decides, in
  names, repeated questions and every byte of fuzzed packets.
- `DnsBlast.dfy` is the program itself: `Context`, the paced sending loop and the drain
  loop over a clock and a socket that behave in any way their contracts allow.

`Octets.dfy` has the bytes both share. `dafny verify dfyconfig.toml` verifies the project.

## Where the code departs from its intent or its documentation

The model follows the code.

- `dnsblast.c:75` takes `len - 1` off the space left, where `len + 1` bytes were written,
  and `dnsblast.c:109` takes the size of a pointer, so that the size handed to the encoder
  is 2^64 - 6 on a 64-bit machine. `DnsName` proves what the budget as coded guarantees,
  that this bound is reached, and what the intended deduction would guarantee. The names
  the program makes are short, so its buffer suffices all the same.
- `datagram_start` has 65507 entries for 65536 ids (`dnsblast.h:56`). A run stays inside it
  iff it sends at most 65507 packets (`DnsBlast.SourceTable`); the default count, ULONG_MAX
  (`dnsblast.c:398`), does not. The model ends a run where C would write outside the table,
  with everything proved for the packets before that (`DnsBlast.Ending`, `Run`).
- With `-s 0` the wait after the first packet is infinite, and its conversion to `int`
  (`dnsblast.c:346`) has no defined value. The model ends such a run there.
- The initial name `"."` (`dnsblast.c:392`) encodes as two empty labels, which a reader
  takes for the end of the name. Packet i of an unfuzzed run reads back as its question iff
  one of the first i + 1 draws was above the threshold for a new question
  (`DnsTrace.TraceReadsBack`); with draws of 0 none does (`ZeroDrawsFail`).
- `README.markdown:58-60` promises the same packets every time. That holds for the same
  random numbers; `--random` seeds them from the clock. The list of types in
  `README.markdown` leaves out PTR, which the table makes the most frequent
  (`dnsblast.h:90`).
- The two calls of `rand()` at `dnsblast.c:96` have no order in C; the model draws the
  index first.
- The fuzzer works on the buffer the next packet is built in, of which only the id and the
  question are written anew (`dnsblast.c:111-123`). A header byte it changed stays changed in
  the packets that follow (`DnsDraws.FuzzedTrace`).
- After `stop_server` the client's bytes are received into the buffer that may still hold
  an answer on its way to the client (`shadowsocks_server.c:707-740`), and a client that
  closes takes only `server_t` with it. `RelayTheorems.StoppedReadOverwrites` and
  `StoppedCloseOrphans` say exactly when that changes the answer or leaves the remote
  allocated for good; `RelayWitness` has such runs.
- The closes on an empty buffer (`shadowsocks_server.c:982-986` and `1262-1266`) look
  unreachable, and are, until the kernel refuses a send of zero bytes; then the next
  callback can take one (`RelayProgress.EmptySendExact`).
- Only a chunk that fails to decrypt for want of bytes is waited for
  (`shadowsocks_server.c:751-760`). A header split over two chunks that both decrypt is
  rejected with the first, for good (`RelayTheorems.SplitHeaderLost`).
- An interrupted poll starts over with all of `remaining_time` (`dnsblast.c:371-378`), so
  interruptions lengthen a wait, unless a reply follows and the clock is read again.
  `DnsBlast.Context.Await` says by exactly how much, and every upper bound on time counts
  the time so stalled.
- A name of 255 bytes fills `host` without a terminator (`shadowsocks_server.c:799-833`).
  The model reads the name by its length.

## Model

| member | source | states |
|---|---|---|
| `Octets.BigEndianRoundTrip` | dns.h:29-32 | reading two bytes in network order and writing the number again gives the same two bytes |
| `RelayHeader.ParseInPlace` | shadowsocks_server.c:796-915 | the cursor-driven parser decides as the parser by cases, and its last length check can never fail |
| `RelayHeader.ParseSound` | shadowsocks_server.c:806-915 | an accepted header is a printed header that lies wholly inside the decrypted bytes |
| `RelayHeader.ParseComplete` | shadowsocks_server.c:806-915 | every header with room for it is accepted and read back exactly |
| `RelayHeader.ParseExact` | shadowsocks_server.c:786-915 | address, port and offset are accepted iff the decrypted bytes start with that header |
| `RelayHeader.ParseIgnoresStaleBytes` | shadowsocks_server.c:743-915 | bytes left in the buffer from earlier reads cannot change the decision |
| `RelayHeader.ParseInvertsPrint` | shadowsocks_server.c:786-915 | for every address, port, payload and stale rest, parsing the printed header gives them back and leaves the window on the payload |
| `RelayInvariant.AcceptedInv` | shadowsocks_server.c:1366-1409 | a freshly accepted connection satisfies the invariant |
| `RelayInvariant.ControlStep` | shadowsocks_server.c:700-1303 | every callback keeps the table of stages and watchers and takes no branch meant to be impossible |
| `RelayInvariant.HeaderStep` | shadowsocks_server.c:784-961 | the recorded header stays the one the decrypted stream starts with |
| `RelayInvariant.UpstreamStep` | shadowsocks_server.c:764-949 | every callback keeps upstream conservation: bytes sent to the remote plus pending bytes are the payload |
| `RelayInvariant.DownstreamStep` | shadowsocks_server.c:970-1190 | every callback keeps downstream conservation until stop_server |
| `RelayInvariant.StreamsStep` | shadowsocks_server.c:742-761 | plain and sealed stream stay what the two ciphers make of the chunks received |
| `RelayInvariant.StepKeepsInv` | shadowsocks_server.c:700-1303 | every enabled callback, with every outcome, keeps the whole invariant |
| `RelayInvariant.RunKeepsInv` | shadowsocks_server.c:700-1303 | so does every legal run |
| `RelayTheorems.ReachedInv` | shadowsocks_server.c:700-1548 | whatever a run from accept_cb reaches satisfies the invariant |
| `RelayTheorems.UpstreamConserved` | shadowsocks_server.c:764-949 | in every run, bytes sent to the remote (fast open included) and then the pending ones equal the decrypted client stream behind its header while the client side lives, and are a prefix of it after a close; nothing is sent before a header was accepted |
| `RelayTheorems.HeaderUnambiguous` | shadowsocks_server.c:786-915 | a header found in a prefix of a printed header and its payload is that header |
| `RelayTheorems.HeaderAccepted` | shadowsocks_server.c:784-915 | in every run the first chunk that decrypts has a header accepted iff that header lies wholly inside it and its name is neither blocked nor malformed |
| `RelayTheorems.SplitHeaderLost` | shadowsocks_server.c:817-911 | if it holds no complete header, then whatever comes later the relay stays stopped and never connects or sends |
| `RelayTheorems.DialsHeader` | shadowsocks_server.c:924-960 | in every run at most one connect, to the address and port of the accepted header; the resolver is asked for nothing else |
| `RelayTheorems.UpstreamDelivers` | shadowsocks_server.c:764-949 | end to end: for a client stream that decrypts to header and data, the relay connects to that address and port and nowhere else, and sends a prefix of the data |
| `RelayTheorems.DownstreamConserved` | shadowsocks_server.c:970-1181 | in every run without stop_server, bytes sent to the client and then the pending ones equal the encryption of everything read from the remote, across the reuse of server->buf |
| `RelayTheorems.ClientEofLosesNothing` | shadowsocks_server.c:717-723 | a client that closes a streaming connection has had all its decrypted bytes handed to the remote |
| `RelayTheorems.RemoteEofLosesNothing` | shadowsocks_server.c:1122-1128 | a remote that closes has had all its bytes handed to the client |
| `RelayTheorems.WatcherDiscipline` | shadowsocks_server.c:746-1303 | which watchers are armed in which stage: in STREAM a connected remote, one of client-read and remote-write, one of remote-read and client-write |
| `RelayTheorems.NoDelayUntilResponse` | shadowsocks_server.c:1183-1189 | in every run TCP_NODELAY is on until the first chunk from the remote, then off unless no_delay asks for it |
| `RelayTheorems.NeverStranded` | shadowsocks_server.c:950-1010 | every live server has an armed watcher or an unanswered query |
| `RelayTheorems.FaultsUnreachable` | shadowsocks_server.c:962-986 | FATAL, the null remote and both "invalid server" branches are never taken, the closes on an empty buffer only after a refused send of zero bytes |
| `RelayProgress.EmptySendExact` | shadowsocks_server.c:982-986 | in every run, while the client side lives, no such close has happened, and some callback can take one iff a send of zero bytes was refused |
| `RelayTheorems.StepAdvances` | shadowsocks_server.c:273-277 | no callback takes a stage back, and after stop_server none sends to the remote |
| `RelayTheorems.StagesAdvance` | shadowsocks_server.c:1243-1294 | nor does any run |
| `RelayTheorems.StopIsFinal` | shadowsocks_server.c:737-740 | from STOP on, every run stays in STOP and sends nothing more to the remote |
| `RelayProgress.FragmentsBounded` | shadowsocks_server.c:751-760 | in every run, while the header is incomplete at most MAX_FRAG + 1 chunks have come, as many as were counted |
| `RelayProgress.UpstreamShrinks` | shadowsocks_server.c:1192-1303 | while bytes wait for the remote, any callback keeps them waiting in order, delivers them all and reads the client again, or closes; a positive send takes at least one |
| `RelayProgress.UpstreamDrains` | shadowsocks_server.c:1269-1300 | over every legal run, whatever fires in between: the bytes keep waiting up to the first event after which they do not; by then at most as many positive sends were made as bytes waited (one, if none), and they are all delivered, or the connection is closed; until then waiting bytes plus positive sends stay within the number at the start |
| `RelayProgress.DownstreamShrinks` | shadowsocks_server.c:969-1019 | the same for bytes that wait for the client; after an overwriting read in STOP only their number is kept |
| `RelayProgress.DownstreamDrains` | shadowsocks_server.c:989-1010 | the same towards the client over every legal run, up to the first moment nothing waits, in order unless the client is read after stop_server |
| `RelayTheorems.StoppedReadOverwrites` | shadowsocks_server.c:707-740 | after stop_server a chunk from the client leaves the pending answer alone iff it does not reach it or repeats it |
| `RelayTheorems.StoppedCloseOrphans` | shadowsocks_server.c:719-733 | a client closing after stop_server leaves the remote out of reach of every callback iff an answer was pending |
| `RelayTheorems.OrphanLeaks` | shadowsocks_server.c:1350-1363 | no run frees such a remote |
| `RelayQueues.EnabledExact` | shadowsocks_server.c:746-1303 | a callback's watcher is active iff the queues are ready for it: a side is read iff nothing waits for the other, written iff something does |
| `RelayQueues.StepRefines` | shadowsocks_server.c:700-1303 | every callback, with every outcome, does to phase, queues, query and traffic exactly what the relay without buffers does, after STOP too |
| `RelayQueues.RunRefines` | shadowsocks_server.c:700-1548 | from accept_cb on, a sequence of events can happen iff it can to the two queues, and leaves the same phase, queues, query and traffic |
| `RelayOutcomes.StreamStopsExactly` | shadowsocks_server.c:751-760 | in every run, a chunk in STREAM stops the relay iff it fails to decrypt; one that needs more changes nothing but the cipher's context |
| `RelayOutcomes.FragmentStopsExactly` | shadowsocks_server.c:751-760 | in every run, an incomplete chunk before the header stops the relay iff more than MAX_FRAG came before it; otherwise more is read |
| `RelayOutcomes.ResolvedExact` | shadowsocks_server.c:1058-1103 | in every run, an address and a connect that gets underway leave both ends, the one dialled target and the payload sent or waiting; anything else leaves neither end |
| `RelayOutcomes.HeaderExact` | shadowsocks_server.c:847-960 | in every run, an accepted header's name is asked for, with the payload kept, iff it needs a query; otherwise the target is dialled as above, or both ends are closed |
| `RelayOutcomes.RefusedExact` | shadowsocks_server.c:784-911 | in every run, the first decrypted chunk stops the relay iff it holds no complete header or a malformed name; a blocked name closes it, and nothing is dialled |
| `RelayOutcomes.StreamEntered` | shadowsocks_server.c:1240-1294 | in every run, remote_send_cb enters STREAM iff the peer is there and the whole first payload went out, or there was none; an absent peer closes both ends |
| `RelayOutcomes.OnlyRemoteSendEnters` | shadowsocks_server.c:1243-1294 | no other callback enters STREAM |
| `RelayOutcomes.StreamEndsExactly` | shadowsocks_server.c:700-1303 | in every run, a connection in STREAM closes, both ends at once, iff a side closed or failed, a send or the encryption failed, the timer ran out, or a writable side had nothing waiting |
| `RelayWitness.EmptySendHappens` | shadowsocks_server.c:1262-1266 | a run that closes on the empty buffer after a refused send of zero bytes |
| `RelayWitness.StopCorruptsAnswer` | shadowsocks_server.c:737-749 | a run in which the client is sent a byte of its own in place of the remote's |
| `RelayWitness.StopLeaksRemote` | shadowsocks_server.c:719-723 | a run after which the remote is never freed, whatever follows |
| `RelayHeap.Relay.CloseAndFreeRemote` | shadowsocks_server.c:1335-1363 | the remote leaves the books, its server forgets it, and it is left as free_remote left it |
| `RelayHeap.Relay.CloseAndFreeServer` | shadowsocks_server.c:1411-1466 | the server leaves the list, remote and query forget it, and it is left as free_server left it |
| `RelayHeap.Relay.ServerRecvCb` | shadowsocks_server.c:700-967 | makes exactly its step, the one `RelayQueues.StepRefines` decides, on its own connection, touches no other, reads and writes no freed object, and leaves what it frees alone; the FATAL branch is dead |
| `RelayHeap.Relay.ServerSendCb` | shadowsocks_server.c:969-1019 | likewise; the "invalid server" branch is dead |
| `RelayHeap.Relay.ServerTimeoutCb` | shadowsocks_server.c:1021-1035 | likewise; closes both ends |
| `RelayHeap.Relay.RemoteRecvCb` | shadowsocks_server.c:1107-1190 | likewise; the tail after the send runs only with both ends still allocated |
| `RelayHeap.Relay.RemoteSendCb` | shadowsocks_server.c:1192-1303 | likewise; the "invalid server" branch is dead |
| `RelayHeap.Relay.ResolvCb` | shadowsocks_server.c:1049-1105 | likewise; a server that is gone is not followed |
| `RelayHeap.Relay.ResolvFreeCb` | shadowsocks_server.c:1037-1047 | the query is gone, and the server that is left forgets it |
| `RelayHeap.Relay.ConnectToRemote` | shadowsocks_server.c:503-607 | a new remote on the books iff the dial succeeds, and the window of server->buf moved past the bytes fast open sent; a remote whose connect fails is freed and left alone |
| `RelayHeap.Relay.LinkRemote` | shadowsocks_server.c:932-948 | both links set and the first payload moved to the remote's buffer |
| `RelayHeap.Relay.AcceptCb` | shadowsocks_server.c:1516-1548 | a new server on the list in the initial state |
| `RelayLoop.Dispatch` | shadowsocks_server.c:92-110 | any callback whose watcher is active makes its step and leaves what it frees alone |
| `RelayLoop.Loop.Fire` | shadowsocks_server.c:700-1303 | whichever callback of whichever connection comes next, the whole memory stays consistent, one connection makes one legal step, and what is freed is left alone |
| `RelayLoop.Loop.Accept` | shadowsocks_server.c:1516-1548 | a client adds a connection with a run of its own |
| `RelayLoop.Loop.Ownership` | shadowsocks_server.c:1305-1466 | both ends of every link agree, no live object points to a freed one, the list is the live servers, and the verbose counters count |
| `RelayLoop.Loop.FreeConnections` | shadowsocks_server.c:238-248 | terminates with no server left and no remote of a server, and sends nothing |
| `DnsName.FindNameComponentLen` | dnsblast.c:39-53 | finds the length of the label at the cursor, or fails iff it exceeds 255 |
| `DnsName.EncodeName` | dnsblast.c:55-87 | succeeds iff the coded budget admits the labels; then exactly strlen + 2 bytes are the wire form of the labels; on failure the cursor stays; bytes it need not write stay |
| `DnsName.WrittenBound` | dnsblast.c:65-83 | it writes at most strlen + 2 bytes, and exactly that many iff it succeeds |
| `DnsName.JoinSplit` | dnsblast.c:65-82 | joining the labels of a name with dots gives the name back |
| `DnsName.WireLength` | dnsblast.c:73-84 | the wire form is two bytes longer than the name |
| `DnsName.CodedBudgetGuarantee` | dnsblast.c:64-76 | as coded, any call, failing or not, writes at most encoded_size + 2 * (labels - 1) bytes |
| `DnsName.WrittenIsWire` | dnsblast.c:73-84 | on success what is written is the wire form |
| `DnsName.OfferRespected` | dnsblast.c:63-76 | a caller offering strlen + 2 bytes or more never sees more written; for one offering less, every success exceeds the offer |
| `DnsName.CodedBudgetOverrun` | dnsblast.c:64-76 | that bound is reached, for any number of labels |
| `DnsName.IntendedBudgetExact` | dnsblast.c:64-76 | with the intended deduction the checks pass iff every label fits a byte and the wire form fits the space |
| `DnsName.FailsOnlyOnLongLabels` | dnsblast.c:67-72 | given enough space, encoding fails iff some label exceeds 255 bytes |
| `DnsQuestion.PacketReadsBack` | dnsblast.c:28-34 | the packet reads back as id, RD, one question, labels, type and class IN with nothing left over iff every label holds 1 to 63 bytes, for all labels the encoder accepts |
| `DnsQuestion.SwapRecovers` | dnsblast.c:274 | the id, swapped on the wire, is recovered from the first two bytes of a reply |
| `DnsSampler.GetRandomType` | dnsblast.c:184-203 | the loop returns the type that `SliceChooses` says of the slice the draw falls into, and draws again only for the residue (`ResidueChooses`) |
| `DnsSampler.ScanFinds` | dnsblast.c:193-202 | the slice found holds the draw |
| `DnsSampler.SlicesDisjoint` | dnsblast.c:193-200 | no draw lies in two slices, or in a slice and the residue |
| `DnsSampler.TotalBelowMax` | dnsblast.h:88-94 | the weights sum to at most 95 per cent of RAND_MAX, so pos never becomes negative |
| `DnsSampler.TypeCount` | dnsblast.c:185-200 | for any RAND_MAX exactly weight_i of the values 0..RAND_MAX end the scan at entry i |
| `DnsSampler.SliceChooses` | dnsblast.c:193-200 | get_random_type returns type i after one draw iff the draw lies in slice i |
| `DnsSampler.FirstDrawShares` | dnsblast.h:88-94 | how many first draws return A, PTR, SOA, MX, TXT and AAAA at once, in figures |
| `DnsSampler.TypeDistribution` | dnsblast.c:184-203 | over all pairs of draws, exactly how many return each type |
| `DnsSampler.YieldsDrawn` | dnsblast.c:184-203 | the type returned depends on these two draws and RAND_MAX alone |
| `DnsSampler.ResidueCount` | dnsblast.c:202 | exactly RAND_MAX + 1 minus the weights go to the second draw |
| `DnsSampler.ResidueChooses` | dnsblast.c:202 | such a draw ends at entry k iff the next value of rand() is k modulo 6 |
| `DnsSampler.SecondDrawCount` | dnsblast.c:202 | for any RAND_MAX, how many values of rand() that is for each entry |
| `DnsSampler.SecondDrawUniform` | dnsblast.c:202 | those counts differ by at most one and add up to RAND_MAX + 1 |
| `DnsTrace.SplitJoin` | dnsblast.c:55-87 | splitting joined dotless labels gives the labels back |
| `DnsTrace.RandomNameAskable` | dnsblast.c:164-182 | a random name has eight characters, in a label of four and "com" |
| `DnsTrace.RandomQuadAskable` | dnsblast.c:213-214 | a dotted quad has at most 15 characters, in four labels that are its decimals |
| `DnsTrace.NextQuestionAskable` | dnsblast.c:485-490 | every name asked for is such a name, or the one before; which of the two, `DnsDraws.TurnDraws` decides |
| `DnsTrace.FuzzBounded` | dnsblast.c:89-100 | the fuzzer writes 1 to floor(log2 p) + 1 bytes, all within the packet and none 0xff, for three draws each |
| `DnsTrace.Log2Defines` | dnsblast.c:92-97 | the bound is the rounded-down logarithm |
| `DnsTrace.PlainTurn` | dnsblast.c:102-132 | an unfuzzed packet is exactly its question's, with nothing left of longer names before, and the header survives |
| `DnsTrace.TraceReadsBack` | dnsblast.c:102-138 | in every unfuzzed run packet i has 12 + strlen + 2 + 4 bytes and reads back as question i with id i modulo 65536 iff one of the first i + 1 draws asked for a question |
| `DnsTrace.StillInitial` | dnsblast.c:485-490 | the name is still the initial one iff every draw so far was at most the threshold |
| `DnsTrace.ZeroDrawsFail` | dnsblast.c:392 | with draws of 0 no packet of a run of any length reads back |
| `DnsTrace.TracedTurn` | dnsblast.c:485-497 | one more turn extends state and packets of the run by one |
| `DnsDraws.NameExact` | dnsblast.c:164-182 | the four characters of a random name are those of the charset at the low and high halves of the two draws |
| `DnsDraws.DecimalReads` | dnsblast.c:213-214 | the decimals of an address byte read back as it, without leading zeros |
| `DnsDraws.QuadExact` | dnsblast.c:213-214 | a dotted quad reads as the low bytes of four draws, in their order |
| `DnsDraws.QuestionDrawn` | dnsblast.c:205-220 | the type is drawn first; PTR asks for a dotted quad of the next four draws, every other type for a random name of the next two |
| `DnsDraws.TurnDraws` | dnsblast.c:487-490 | a turn keeps name and type iff its draw is at most the threshold, and else draws a new question behind it |
| `DnsDraws.QuestionRepeats` | dnsblast.c:485-490 | so it is with question i of every unfuzzed run |
| `DnsDraws.RepeatedPacket` | dnsblast.c:111-138 | in every unfuzzed run, a packet whose draw is at most the threshold differs from the one before in the id bytes alone |
| `DnsDraws.FuzzExact` | dnsblast.c:89-100 | which rounds fuzz() makes; every byte hit holds what the last round to hit it wrote, every other is as it was; three draws a round |
| `DnsDraws.FuzzDetermined` | dnsblast.c:89-100 | that fixes the number of rounds and every byte |
| `DnsDraws.FuzzedBlast` | dnsblast.c:102-132 | with the fuzz flag the packet is its question's after those rounds, and the next draw is behind theirs |
| `DnsDraws.FuzzedOnceBlast` | dnsblast.c:94-97 | if the third draw ends it at once, one byte of the plain packet is overwritten |
| `DnsDraws.FuzzedTrace` | dnsblast.c:89-132 | every packet of every fuzzed run is its question over the header of the packet before, after those rounds |
| `DnsBlast.GetRandomName` | dnsblast.c:164-182 | draws the random name |
| `DnsBlast.GetRandomQuestion` | dnsblast.c:205-220 | draws type and name |
| `DnsBlast.Fuzz` | dnsblast.c:89-100 | the do-while loop computes the fuzzed packet and uses up its draws |
| `DnsBlast.SendableEncodes` | dnsblast.c:108-114 | no name the program makes fails to encode |
| `DnsBlast.FillQuestion` | dnsblast.c:111-117 | id, name, type and class are in place, the rest of the buffer as before |
| `DnsBlast.WaitIsLeast` | dnsblast.c:336-346 | the computed wait is the least that brings the packets sent within the rate |
| `DnsBlast.WaitInRange` | dnsblast.c:344-346 | during a run the wait is at most a second, so it fits an int |
| `DnsBlast.WaitPaces` | dnsblast.c:335-387 | waiting that long keeps the rate, and a return at most so much later is at most so much, and a tick, after the packets are due or the call was made |
| `DnsBlast.DueExact` | dnsblast.c:336-346 | packets are within the rate from the millisecond on at which they are due |
| `DnsBlast.OnTimeExact` | dnsblast.c:485-497 | every packet left when due or later iff it left with the packets before it within the rate |
| `DnsBlast.RemembersNext` | dnsblast.c:111-118 | writing the id's slot keeps the table equal to the last 65536 send times |
| `DnsBlast.LastWithIdExact` | dnsblast.c:111-118 | the last packet with the id of packet k is packet k itself iff fewer than 65536 followed it |
| `DnsBlast.SlotHoldsLast` | dnsblast.c:274-275 | whatever was sent since, an id's slot holds the send time of the last packet with that id |
| `DnsBlast.SlotsSuffice` | dnsblast.h:56-61 | a run stays inside the table iff it has a slot for every id or for every packet |
| `DnsBlast.EndingExact` | dnsblast.h:56-61 | a run completes iff it has a rate and a slot for every packet's id; else it stops at the first packet without one, or behind the first without a rate |
| `DnsBlast.SourceTable` | dnsblast.h:56 | with the table of the source that is at most 65507 packets; the default count leaves it with packet 65507 |
| `DnsBlast.Context.constructor` | dnsblast.c:13-37 | zeroed counters and the header with RD and one question |
| `DnsBlast.Context.Blast` | dnsblast.c:102-138 | one packet as the trace has it, fuzzed as `DnsDraws.FuzzedBlast` says or plain as `DnsTrace.PlainTurn` does, sent once whatever sendto refuses, its time in the id's slot, id and counter moved on; for an id without a slot it stops and has sent nothing |
| `DnsBlast.Context.Receive` | dnsblast.c:254-284 | counts a reply, and times one that carries packet k's id against packet k if fewer than 65536 followed it |
| `DnsBlast.Context.Await` | dnsblast.c:358-385 | whenever poll reports a reply everything there is to read is read, and not otherwise; replies neither shorten nor lengthen the wait, interruptions never shorten it; in a punctual world it is longer by at most a tick and the time stalled in interrupted polls, and one that runs out by exactly those since the clock was last read (up to a tick); it ends after a finite number of events |
| `DnsBlast.Context.ThrottledReceive` | dnsblast.c:332-388 | while sending, 1000 * sent < pps * (elapsed + 1) on return, and in a punctual world at most a tick and the time stalled in interrupted polls later than that or than the call; while draining, in a punctual world, at most the timeout, a tick and that time; it first reads all replies there are iff it is behind its rate, and again whenever poll reports one |
| `DnsBlast.Context.SendPhase` | dnsblast.c:485-497 | the packets sent are the trace, packet k leaves no earlier than the rate allows, the table is the send history; the loop ends after all packets, or exactly where C has no defined meaning; in a punctual world it takes no longer than the rate asks for, a tick for every packet and the time stalled in interrupted polls |
| `DnsBlast.Context.DrainPhase` | dnsblast.c:500-507 | ends with all replies in or past the timeout, and in a punctual world within 2 * timeout, a tick and the time stalled in interrupted polls, lost or repeated replies notwithstanding |
| `DnsBlast.Run` | dnsblast.c:473-513 | whatever clock, socket and resolver do, the packets sent are a function of random numbers, fuzz flag, count, table size and whether there is a rate; every packet is within the rate; replies counted are replies received; a run that completes in a punctual world takes at most what the rate asks for, a tick a packet, 2 * timeout and a tick, and the time stalled |

## Left out

- RelayTheorems.DownstreamConserved: says nothing about runs after stop_server, where it is false; RelayWitness.StopCorruptsAnswer and RelayTheorems.StoppedReadOverwrites say when.
- RelayTheorems.FaultsUnreachable: excepts the closes on an empty buffer, which RelayProgress.EmptySendExact decides.
- DnsBlast.Run: says nothing about a run after it has stamped an id outside datagram_start or converted an infinite wait, where C has no defined meaning.
- DnsBlast.Context.Receive: an id without a slot in datagram_start reads outside the table in the source; the model gives such a reply no known time.
- DnsBlast.Context.ThrottledReceive: floating point is modelled by real numbers, so rounding is not; a run more than 24 days behind its rate would leave the range of int at the other end.
- DnsBlast.Context.DrainPhase: timeout is a natural number; its conversion from unsigned long to int is not modelled.
- Relay buffers are values owned by their object; what happens to memory when the cipher reallocates them is not modelled. A cipher's output may be longer than its buffer.
- Sockets, their options, addresses, logging, statistics (`tx`, `rx`), `no_delay` with `recv_ctx->connected`, netfilter marks, ConnectEx, the plugin, the manager and UDP relaying.
- What ACL, `cork_ip_init` and `validate_hostname` decide is a parameter of the event; cipher internals are an arbitrary function; the resolver is assumed to call `resolv_cb` at most once and `resolv_free_cb` after it.
- A send never accepts more bytes than it was offered. Host names are byte strings of their given length; the source copies them into a C string, which ends at the first zero byte. Byte order in the port handed to the resolver is not modelled.
- The rate and drain results assume a clock that never goes back; dnsblast reads gettimeofday (`dnsblast.c:8`), which can be set back.
- Errors of sendto, poll and recv on which dnsblast exits, and a recv of fewer than two bytes, whose id is whatever the buffer held: the model lets those bytes be anything.
- The character buffer `name[100]` of dnsblast is modelled by the string in it.
- Replies, interruptions, refusals and idle wake-ups in a run of dnsblast are finitely many, any number of them; endless ones would keep it from ending.
- `update_status` and its periodic call (display only), option parsing, and the near-copies `mattblast.c`, `Untitled-1.c`, `temp.c` and `mattblast_funcs.c`.
