# A model of the Linux CAPI 2.0 stack

This project models the ISDN CAPI 2.0 stack of the Linux kernel (`drivers/isdn/capi`) and proves what it keeps and
promises. It has five parts, each with a value-level description, imperative code proved against it, and theorems
about every input or every run.

**The message codec** (`capiutil.c`, `capiutil.h`): `Wire`, `Grammar`, `Writer`, `Fields`, `Programs`, `Messages`,
`Offsets`, `Cmsg`. A recursive grammar gives the coding that CAPI 2.0 prescribes (Part I, sections 3.2 and 3.3);
`Writer` describes what the in-place writer really leaves behind; the class `Cmsg` is the cursor code over the
parameter programs. The central laws are equivalences: a message is read back faithfully exactly when no composed
struct has 255 bytes or more and its length fits a word, and bytes are reproduced exactly when they are canonical.

**The data-window queue** (`capilib.c`): `DataWindow`, `WindowQueue`. The pointers threaded through the node pool are
indices into an array. The pool is always partitioned into the reachable queue, lost nodes and the free list, and the
queue is the bounded queue it is meant to be exactly as long as no id is accepted behind a confirmed tail.

**The registry** (`core.c`): `Capicore`, `CapicoreSteps`, `CapicoreRuns`, `Registry`, `FirstFit`. Threads that
register, release, send, query, bind and unregister interleave step by step, a step being what a thread does between
two points where others can see a difference. An invariant over locks, reference counters, bits, driver calls and the
position of each thread gives quiescence after unregistering, numbers that are never reused too early, and
exactly-once registration. `Registry` is the sequential code; each of its functions is a run of that machine, with its
whole effect stated beside that.

**The tty middleware** (`capi.c`, built with `CONFIG_ISDN_CAPI_MIDDLEWARE`): `AckQueue`, `MinorPath`, `MinorOutcomes`,
`TtyMinor`. A minor with its queues, counters and handles, under every order of tty and message events and every
answer of its environment: byte streams are conserved in both directions and each block is acknowledged under its own
handle.

**Call control** (`capidrv.c`): `CallControl`, `CallTables`, `CallInvariant`, `CallSteps`, `CallRuns`, `CallHistory`,
`CallEffects`, `CallFlags`, `CallTeardown`, `CallExamples`, `Controller`, `TraceRing`. The PLCI and NCCI machines of
one controller with their objects, lists and channels, under every order of messages and commands, each message going
to the handler that its address selects; and the ring of the D-channel trace.

Conventions. Words are little-endian, as on the hosts the codec assumes. What the environment decides is a parameter:
whether memory is available, what a driver, the stack or the tty answers, where a block lies. What the documentation
asks of callers is in `Can` (registry), `May` (call control) and `Enabled` (tty). Objects that are only there for the
properties are histories (`past` of a minor, `written` of the ring) and flags such as `bad`, which records any use of
a freed object: no message and no command ever sets it, and taking a controller down does exactly under the condition
given below.

Where the code differs from its documentation the model follows the code; "## Findings" lists these places.

## Findings

Properties one would expect and the code does not have. For each there is an input on which it fails, and the exact
condition under which it holds.

| property | source | it holds if and only if | fails on |
|---|---|---|---|
| what is written is read back | `capiutil.c:483-487`: the cursor stays when the body of a composed struct is moved up | no composed struct has 255 bytes or more and the length fits a word (`Messages.MessageRoundTrip`) | `Messages.LongConnectReq` |
| every accepted message id can be confirmed | `capilib.c:68-69`: removing the last entry drops the tail pointer | no id is accepted between a confirmed tail and an empty queue (`DataWindow.RefinesIffSafe`) | `DataWindow.TailConfirmed` |
| an application gets the least unused id or is refused | `core.c:232-244`: the counter has 16 bits | not all of 65535 ids are in use (`FirstFit.ApplAlloc`) | `FirstFit.ApplWraps` |
| `outbytes` is what is queued | `capi.c:558`: the length of a block has 16 bits | no block of 65536 bytes or more has left the queue (`MinorPath.CountExact`) | `MinorPath.LongBlock` |
| a failed send leaves the acknowledgements as they were | `capi.c:588`, `capidrv.c:1914,1930,1944`: handles have 16 bits | no older block waits under the same handle (`AckQueue.TakenBack`) | `MinorPath.HandleWraps`, `CallExamples.HandleWraps` |
| taking a controller down uses no freed object | `capidrv.c:2183-2186,498`: `free_ncci` goes through the PLCI | the NCCI of each channel belongs to an allocated PLCI on that channel or an earlier one (`CallTeardown.TakenDownIff`) | `CallExamples.EarlyDisconnect` |
| a hangup starts to disconnect the NCCI of the channel | `capidrv.c:1765-1776,728-760`: the flag is set and the request sent in every state, but OUTGOING has no transition for it | the NCCI is not still being set up (`CallRuns.HangupWaitsIff`) | `CallExamples.HungUpTooEarly` |
| a channel can be hung up again after a disconnect that was refused or came too early | `capidrv.c:1758-1764,1333-1344`: while the channel has a PLCI, only `free_plci` clears the flag | the PLCI of the channel has been freed since (`CallFlags.HungUpOnce`) | `CallExamples.RefusedForGood`, `CallExamples.HungUpTooEarly` |

One test has no effect: the last one of `command_2_index`, for 0xff, because the first one already catches that value
(`capiutil.c:405-411`, `Programs.LastTestDead`).

## Model

| member | source | states |
|---|---|---|
| Wire.CapiMsgSetU8 | linux/include/linux/isdn/capiutil.h:33-36 | the byte at the offset is set and no other changes |
| Wire.CapiMsgSetU16 | linux/include/linux/isdn/capiutil.h:38-42 | exactly two bytes change, low byte first |
| Wire.CapiMsgSetU32 | linux/include/linux/isdn/capiutil.h:44-50 | exactly four bytes change, low byte first |
| Wire.WordFront | linux/include/linux/isdn/capiutil.h:20 | a word stored in front of any bytes reads back as itself |
| Wire.DWordFront | linux/include/linux/isdn/capiutil.h:21 | so does a double word |
| Wire.LowByteFirst | linux/include/linux/isdn/capiutil.h:20-21 | the bytes 78 56 34 12 are the double word 12345678 |
| Grammar.DecodeEncode | linux/drivers/isdn/capi/capiutil.c:514-555 | reading the standard coding of any values gives the values back, null structs as empty ones, and stops exactly behind the coding, whatever follows |
| Grammar.EncodeDecode | linux/drivers/isdn/capi/capiutil.c:514-555 | on canonical bytes, coding what was read gives the same bytes, structs in the escape form included |
| Grammar.DecodeValid | linux/drivers/isdn/capi/capiutil.c:514-555 | whatever is read is well-formed and already normal |
| Writer.WritesStandard | linux/drivers/isdn/capi/capiutil.c:474-488 | the writer produces the standard coding if and only if no composed struct has 255 bytes or more |
| Writer.WrittenLength | linux/drivers/isdn/capi/capiutil.c:479-487 | every long composed struct makes the message strictly shorter than the standard coding |
| Writer.RoundTrip | linux/drivers/isdn/capi/capiutil.c:436-555 | reading what was written gives back all values and ends at its end if and only if no composed struct is long |
| Writer.LongOverruns | linux/drivers/isdn/capi/capiutil.c:483-487 | if a struct is long, a reader that still finds all values has read past the end of what was written |
| Writer.Reproduces | linux/drivers/isdn/capi/capiutil.c:436-555 | the writer reproduces the bytes that were read if and only if they are canonical |
| Fields.CollectStore | linux/drivers/isdn/capi/capiutil.c:416-417 | values stored in a cleared or used structure are collected again unchanged when no parameter is listed twice |
| Fields.StoreFrame | linux/drivers/isdn/capi/capiutil.c:514-555 | storing leaves every parameter that is not stored as it was |
| Programs.ScanBalanced | linux/drivers/isdn/capi/capiutil.c:419-434 | the skip passes over balanced parameters without a net change of layer |
| Programs.JumpLands | linux/drivers/isdn/capi/capiutil.c:419-434 | the skip of a composed struct ends on its own end marker if and only if its first member exists and is not composed |
| Programs.TableSound | linux/drivers/isdn/capi/capiutil.c:236-386 | for every message of CAPI 2.0 the parameter types agree with cdef, every composed struct can be skipped, and no parameter occurs twice |
| Programs.TableSpells | linux/drivers/isdn/capi/capiutil.c:336-386 | the table entry that the index selects for a message spells exactly the parameters CAPI 2.0 lists for it |
| Programs.IndexInjective | linux/drivers/isdn/capi/capiutil.c:403-413 | no two messages of CAPI 2.0 share a table entry, and all entries are inside the table |
| Programs.LastTestDead | linux/drivers/isdn/capi/capiutil.c:405-411 | command 0xff is caught by the first test, so that the last one, which is for it, never decides |
| Programs.ProgramParses | linux/drivers/isdn/capi/capiutil.c:416-417 | seen through TYP and OFF, the stored program is the flattened parameter tree and its end markers |
| Messages.MessageRoundTrip | linux/drivers/isdn/capi/capiutil.c:494-575 | for every message, field values and trailing bytes: writing then reading restores header, length and all listed fields if and only if all composed structs are short and the length fits a word |
| Messages.LongConnectReq | linux/drivers/isdn/capi/capiutil.c:483-487 | a CONNECT_REQ with well-formed structs and a B1configuration of 255 bytes that is not read back faithfully |
| Messages.FieldsRestored | linux/drivers/isdn/capi/capiutil.c:558-575 | after writing and reading, listed fields are back, null structs are empty ones, members of a defaulted struct and all unlisted fields are zero |
| Messages.Reencode | linux/drivers/isdn/capi/capiutil.c:494-575 | writing what was read reproduces a message byte for byte if and only if its composed structs are in exact short form and its length word is right |
| Messages.AnswerKnown | linux/include/linux/isdn/capiutil.h:183-186 | every indication has an answer, and the answer is its response |
| Messages.AnswerEchoes | linux/include/linux/isdn/capiutil.h:183-186 | reading any indication, answering and writing keeps application, message number and address |
| Messages.DataB3ReqBytes | linux/include/linux/isdn/capiutil.h:297-310 | a data request is 22 bytes: header, address, data pointer, length, handle, flags |
| Messages.DataB3RespBytes | linux/include/linux/isdn/capiutil.h:444-451 | a data response is 14 bytes: header, address, handle |
| Messages.DataB3IndHandle | linux/drivers/isdn/capi/capiutil.c:558-575 | reading a data indication finds the handle at offset 18 and the address at offset 8 |
| Messages.AnswerDataB3 | linux/include/linux/isdn/capiutil.h:183-186 | the answer to a data indication is the 14-byte response with the same application, number, NCCI and handle |
| Offsets.HeaderAt | linux/drivers/isdn/capi/capiutil.c:558-575 | length at offset 0, application at 2, command and subcommand at 4 and 5, number at 6, address at 8 |
| Offsets.StructForms | linux/drivers/isdn/capi/capiutil.c:545-551 | a struct is its bytes behind one length byte, or from 255 bytes on behind the escape 255 and a length word |
| Offsets.ReadPlaced | linux/drivers/isdn/capi/capiutil.c:514-555 | every listed parameter is read from the place where the ones in front of it end |
| Offsets.ClearingAt | linux/drivers/isdn/capi/capiutil.c:338-340 | ALERT_REQ, DISCONNECT_REQ: additional info at 12 |
| Offsets.ConnectReqAt | linux/drivers/isdn/capi/capiutil.c:339 | CIP value at 12, the four party numbers and subaddresses from 14, then B protocol, BC, LLC, HLC and additional info |
| Offsets.ConnectIndAt | linux/drivers/isdn/capi/capiutil.c:361 | CIP value at 12, the four party numbers and subaddresses from 14, then BC, LLC, HLC and additional info |
| Offsets.ConnectRespAt | linux/drivers/isdn/capi/capiutil.c:373 | reject at 12, B protocol at 14, then connected number, subaddress, LLC and additional info |
| Offsets.ConnectActiveIndAt | linux/drivers/isdn/capi/capiutil.c:362 | connected number, connected subaddress and LLC from 12 |
| Offsets.ListenReqAt | linux/drivers/isdn/capi/capiutil.c:341 | info mask at 12, CIP masks at 16 and 20, calling number and subaddress from 24 |
| Offsets.InfoReqAt | linux/drivers/isdn/capi/capiutil.c:342 | called party number at 12, then additional info |
| Offsets.SelectReqAt | linux/drivers/isdn/capi/capiutil.c:344 | B protocol at 12 |
| Offsets.FacilityReqAt | linux/drivers/isdn/capi/capiutil.c:343 | selector at 12, request parameter at 14 |
| Offsets.FacilityConfAt | linux/drivers/isdn/capi/capiutil.c:355 | info at 12, selector at 14, confirmation parameter at 16 |
| Offsets.FacilityIndAt | linux/drivers/isdn/capi/capiutil.c:366 | selector at 12, indication parameter at 14 |
| Offsets.FacilityRespAt | linux/drivers/isdn/capi/capiutil.c:378 | selector at 12 |
| Offsets.InfoIndAt | linux/drivers/isdn/capi/capiutil.c:365 | info number at 12, info element at 14 |
| Offsets.DisconnectIndAt | linux/drivers/isdn/capi/capiutil.c:363 | reason at 12 |
| Offsets.DisconnectB3IndAt | linux/drivers/isdn/capi/capiutil.c:369 | reason at 12, NCPI at 14 |
| Offsets.ConnectB3RespAt | linux/drivers/isdn/capi/capiutil.c:379 | reject at 12, NCPI at 14 |
| Offsets.DataB3At | linux/drivers/isdn/capi/capiutil.c:347-370 | DATA_B3_REQ and DATA_B3_IND: data at 12, length at 16, handle at 18, flags at 20 |
| Offsets.DataB3ConfAt | linux/drivers/isdn/capi/capiutil.c:359 | handle at 12, info at 14 |
| Offsets.DataB3RespAt | linux/drivers/isdn/capi/capiutil.c:382 | handle at 12 |
| Offsets.ManufacturerAt | linux/drivers/isdn/capi/capiutil.c:353-385 | manufacturer at 12, class at 16, function at 20, data at 24 |
| Offsets.ConfAt | linux/drivers/isdn/capi/capiutil.c:349-360 | all other confirmations: info at 12 |
| Offsets.NcpiAt | linux/drivers/isdn/capi/capiutil.c:345-372 | seven requests and indications: NCPI at 12 |
| Offsets.AddressOnly | linux/drivers/isdn/capi/capiutil.c:374-384 | seven responses end behind the address |
| CmsgCodec.Cmsg.JumpCStruct | linux/drivers/isdn/capi/capiutil.c:419-434 | the loop ends where the recursive scan does, and terminates |
| CmsgCodec.Cmsg.JumpGroup | linux/drivers/isdn/capi/capiutil.c:419-434 | for a composed struct of the grammar the cursor ends on its end marker |
| CmsgCodec.Cmsg.Prefix | linux/drivers/isdn/capi/capiutil.c:480-487 | the in-place prefix turns the body into the short form, or into the long form without its last two bytes |
| CmsgCodec.Cmsg.PutComposed | linux/drivers/isdn/capi/capiutil.c:474-488 | a composed struct is appended in place and everything before it is kept |
| CmsgCodec.Cmsg.PutItem | linux/drivers/isdn/capi/capiutil.c:439-491 | one round of the loop writes one parameter and leaves the rest to be written |
| CmsgCodec.Cmsg.Pars2Message | linux/drivers/isdn/capi/capiutil.c:436-492 | the writer appends exactly the written form of the collected values and stops on the end marker |
| CmsgCodec.Cmsg.TakeComposed | linux/drivers/isdn/capi/capiutil.c:545-551 | a composed struct is read and the cursor stops on its end marker |
| CmsgCodec.Cmsg.TakeItem | linux/drivers/isdn/capi/capiutil.c:516-554 | one round of the loop reads one parameter into its field |
| CmsgCodec.Cmsg.Message2Pars | linux/drivers/isdn/capi/capiutil.c:514-555 | the reader stores exactly the decoded values, consumes exactly their bytes and stops on the end marker |
| CmsgCodec.Cmsg.ProtocolMessage2Pars | linux/drivers/isdn/capi/capiutil.c:758-812 | the tracing walker ends on the same parameter and at the same byte as the reader |
| CmsgCodec.Cmsg.CapiCmsgHeader | linux/drivers/isdn/capi/capiutil.c:578-589 | all fields are cleared but header and address |
| CmsgCodec.Cmsg.CapiCmsgAnswer | linux/include/linux/isdn/capiutil.h:183-186 | only the subcommand changes, to the response |
| CmsgCodec.Cmsg.CapiCmsg2Message | linux/drivers/isdn/capi/capiutil.c:495-511 | the buffer starts with the message that stands for header and fields |
| CmsgCodec.Cmsg.CapiMessage2Cmsg | linux/drivers/isdn/capi/capiutil.c:558-575 | header, fields and length are those of the reading |
| DataWindow.StepValid | linux/drivers/isdn/capi/capilib.c:44-77 | each operation keeps the pool bound, never gives back a lost node, and succeeds exactly when a node is free or the id is queued |
| DataWindow.RunValid | linux/drivers/isdn/capi/capilib.c:44-77 | so does every run; the capacity is constant and losses only grow |
| DataWindow.LostForGood | linux/drivers/isdn/capi/capilib.c:61-77 | once nodes are lost the window is smaller by them for ever, whatever follows |
| DataWindow.RefinesIffSafe | linux/drivers/isdn/capi/capilib.c:44-77 | the pointer queue answers like a bounded queue, operation by operation, if and only if no id is accepted between a confirmed tail and an empty queue |
| DataWindow.FreshRefines | linux/drivers/isdn/capi/capilib.c:30-77 | the same from a new NCCI on, for every window size |
| DataWindow.InOrderSafe | linux/drivers/isdn/capi/capilib.c:44-77 | in-order confirmations are always safe |
| DataWindow.TailConfirmed | linux/drivers/isdn/capi/capilib.c:68-69 | a concrete run of four operations that loses an id |
| WindowQueue.PartitionMeans | linux/drivers/isdn/capi/capilib.c:10-25 | queue, lost nodes and free list share no node and hold only pool nodes |
| WindowQueue.EnqueuedValid | linux/drivers/isdn/capi/capilib.c:44-59 | the relinked pool is acyclic and partitioned again, and its view is the window after the request |
| WindowQueue.DequeuedValid | linux/drivers/isdn/capi/capilib.c:61-77 | the same after a confirmation |
| WindowQueue.Ncci.constructor | linux/drivers/isdn/capi/capilib.c:79-99 | a new NCCI has an empty window of max(1, min(winsize, maximum)) nodes |
| WindowQueue.Ncci.MqInit | linux/drivers/isdn/capi/capilib.c:30-42 | the free list threads each node of the pool once |
| WindowQueue.Ncci.MqEnqueue | linux/drivers/isdn/capi/capilib.c:44-59 | pointer updates and result are those of the window |
| WindowQueue.Ncci.FindEntry | linux/drivers/isdn/capi/capilib.c:64-65 | the search stops at the first entry with the id and knows its predecessor |
| WindowQueue.Ncci.MqDequeue | linux/drivers/isdn/capi/capilib.c:61-77 | pointer updates and result are those of the window |
| WindowQueue.DataB3Req | linux/drivers/isdn/capi/capilib.c:156-175 | only the first matching NCCI changes; an unknown one accepts, a known one refuses exactly when full |
| WindowQueue.DataB3Conf | linux/drivers/isdn/capi/capilib.c:179-198 | only the first matching NCCI changes, by one confirmation |
| AckQueue.FindsOwn | linux/drivers/isdn/capi/capi.c:213-227 | while the oldest block is fewer than 65536 sends old, a confirmation finds the very block it is for |
| AckQueue.NextUnused | linux/drivers/isdn/capi/capi.c:557-572 | the next handle is then unused |
| AckQueue.TakenBack | linux/drivers/isdn/capi/capi.c:588 | taking back a failed send restores the queue if and only if no older block has the same handle |
| AckQueue.DelCurrent | linux/drivers/isdn/capi/capi.c:213-227 | removal keeps the entries in order of sending |
| MinorPath.SendOneConserves | linux/drivers/isdn/capi/capi.c:556-600 | one round of the send loop neither loses, repeats nor reorders a byte, and keeps the byte count, in all four outcomes |
| MinorPath.SendOneHeaded | linux/drivers/isdn/capi/capi.c:557-579 | a block the stack takes travels under its own length and a handle counting the blocks taken before it |
| MinorPath.AckFailed | linux/drivers/isdn/capi/capi.c:588 | a failed put takes back the very entry that was added |
| MinorPath.RecvOneInbound | linux/drivers/isdn/capi/capi.c:527-539 | one round of the receive loop delivers a block with its own response, or leaves everything as it was |
| MinorPath.StepKeeps | linux/drivers/isdn/capi/capi.c:455-602 | every tty or message event keeps conservation, counts, handles, headers and exactly-once delivery, whatever the environment answers |
| MinorPath.RunKeeps | linux/drivers/isdn/capi/capi.c:455-602 | so does every run |
| MinorPath.EveryRun | linux/drivers/isdn/capi/capi.c:245-292 | all of it holds in every run of a new minor |
| MinorPath.CountExact | linux/drivers/isdn/capi/capi.c:544-598 | outbytes is exact if and only if no block of 65536 bytes or more has left the queue |
| MinorPath.LongBlock | linux/drivers/isdn/capi/capi.c:558 | any written block of 65536 bytes or more leaves outbytes wrong |
| MinorPath.ConfirmsOwn | linux/drivers/isdn/capi/capi.c:670-684 | a confirmation removes the entry of the block sent under its handle, and no other |
| MinorPath.FailedPutRestores | linux/drivers/isdn/capi/capi.c:588-594 | a full queue leaves block, counters and handle, and the acknowledgements if and only if no older block has the handle |
| MinorPath.HandleWraps | linux/drivers/isdn/capi/capi.c:557-594 | a run of a new minor that loses the entry of its first block: 65536 blocks unconfirmed, then a full queue |
| MinorPath.StoppedSendsNothing | linux/drivers/isdn/capi/capi.c:549-554 | while output is stopped nothing leaves the queue until it is started |
| MinorPath.ThrottledDeliversNothing | linux/drivers/isdn/capi/capi.c:481-491 | while the tty is missing or throttled nothing is delivered |
| MinorOutcomes.SendOneGoesOn | linux/drivers/isdn/capi/capi.c:556-600 | a round ends the loop exactly when there is no memory or the queue is full; each attempt takes one message number |
| MinorOutcomes.HandleSends | linux/drivers/isdn/capi/capi.c:541-602 | unless the tty has stopped output, exactly the blocks before the first such answer leave, in order, taken or dropped as answered |
| MinorOutcomes.AllTaken | linux/drivers/isdn/capi/capi.c:541-602 | if output is not stopped and the stack takes each block, the queue ends empty and all blocks are handed on in order |
| MinorOutcomes.DeliveredIff | linux/drivers/isdn/capi/capi.c:474-539 | a block is delivered if and only if there is a tty, it is not throttled, and nothing stands in the way |
| MinorOutcomes.HandleDelivers | linux/drivers/isdn/capi/capi.c:527-539 | exactly the blocks before the first that is not accepted are delivered, in order |
| MinorOutcomes.AllDelivered | linux/drivers/isdn/capi/capi.c:527-539 | if the tty listens and each block is accepted, all are delivered and none waits |
| MinorOutcomes.StepOutcome | linux/drivers/isdn/capi/capi.c:1063-1277 | every event: the bytes it makes the minor accept, the blocks that leave and arrive, and the switches of the line |
| MinorOutcomes.WrittenSent | linux/drivers/isdn/capi/capi.c:1063-1114 | with the tty open and not stopped, what is written is handed on at once if the stack takes it |
| MinorOutcomes.IndicatedDelivered | linux/drivers/isdn/capi/capi.c:474-539 | with the tty open and not throttled, an indicated block that is accepted is delivered at once |
| MinorOutcomes.ConfirmationOutcome | linux/drivers/isdn/capi/capi.c:670-684 | a confirmation removes the entry of the very block and changes nothing else |
| TtyMinor.PushDataB3Req | linux/drivers/isdn/capi/capi.c:559-570 | the hand-built header is the table-driven encoding of the data request |
| TtyMinor.GenDataB3RespFor | linux/drivers/isdn/capi/capi.c:455-472 | the hand-built message is the table-driven encoding of the data response |
| TtyMinor.CapiMinor.constructor | linux/drivers/isdn/capi/capi.c:257-264 | a new minor |
| TtyMinor.CapiMinor.AddAck | linux/drivers/isdn/capi/capi.c:196-211 | the handle is appended, or nothing changes |
| TtyMinor.CapiMinor.DelAck | linux/drivers/isdn/capi/capi.c:213-227 | the first entry with the handle goes |
| TtyMinor.CapiMinor.SendRound | linux/drivers/isdn/capi/capi.c:556-600 | one round of the loop is SendOne, and what is sent is the built message |
| TtyMinor.CapiMinor.HandleMinorSend | linux/drivers/isdn/capi/capi.c:541-602 | the loop is SendAll: unless the tty has stopped output, exactly the blocks before the first answer that finds no memory or a full queue leave |
| TtyMinor.CapiMinor.HandleRecvSkb | linux/drivers/isdn/capi/capi.c:474-525 | one block is offered to the tty, and delivered if and only if there is a tty, it is not throttled, and nothing stands in the way |
| TtyMinor.CapiMinor.HandleMinorRecv | linux/drivers/isdn/capi/capi.c:527-539 | the loop is that of the machine |
| TtyMinor.CapiMinor.TtyWrite | linux/drivers/isdn/capi/capi.c:1063-1114 | collected bytes go first; the result is the count or the error |
| TtyMinor.CapiMinor.TtyPutChar | linux/drivers/isdn/capi/capi.c:1116-1151 | a character is collected, after a full block has been queued, or lost without memory |
| TtyMinor.CapiMinor.TtyFlushChars | linux/drivers/isdn/capi/capi.c:1153-1177 | collected bytes are queued and both loops follow |
| TtyMinor.CapiMinor.Handle | linux/drivers/isdn/capi/capi.c:660-689 | every event does to the object what the machine does, has the outcome described, and keeps the invariant of every run |
| TtyMinor.CapiMinor.HandleLine | linux/drivers/isdn/capi/capi.c:1234-1277 | so do open, close, throttling, stopping and detaching |
| Capicore.InitInv | linux/drivers/isdn/capi/core.c:30-39 | the empty registry is in order |
| CapicoreRuns.StepKeeps | linux/drivers/isdn/capi/core.c:74-443 | every step of every thread keeps the invariant of locks, references, bits, calls and threads |
| CapicoreRuns.RunKeeps | linux/drivers/isdn/capi/core.c:74-443 | so does every interleaving |
| CapicoreRuns.Reachable | linux/drivers/isdn/capi/core.c:338-400 | in every reachable state no BUG_ON has fired and no freed device has been used |
| CapicoreRuns.NobodyInside | linux/drivers/isdn/capi/core.c:208-210 | once unregistering has returned no thread is inside a driver operation of the device |
| CapicoreRuns.OverStays | linux/drivers/isdn/capi/core.c:141-150 | no step brings the device back |
| CapicoreRuns.Quiescence | linux/drivers/isdn/capi/core.c:197-225 | in every continuation of every interleaving no thread is or gets inside an operation of an unregistered device |
| CapicoreRuns.EverySchedule | linux/drivers/isdn/capi/core.c:208-210 | from the empty registry on, in every schedule: once unregistering has returned, no thread is inside an operation of the device after any later step |
| CapicoreRuns.BitsBacked | linux/drivers/isdn/capi/core.c:106-117 | a set bit of a registered application is backed by the very device it was set for, alive, and its number cannot be given away |
| CapicoreRuns.RefCount | linux/drivers/isdn/capi/core.c:74-117 | the counter is the external references plus one per application holding one; zero exactly when the device is not allocated |
| CapicoreRuns.NoMisdelivery | linux/drivers/isdn/capi/core.c:383-408 | a message being put goes to the device the application was registered with, and that device is in use |
| CapicoreRuns.RegisteredOnce | linux/drivers/isdn/capi/core.c:106-138 | each registered application and listed device have had exactly one capi_register, whichever came first |
| CapicoreRuns.ReleasedOnce | linux/drivers/isdn/capi/core.c:330-355 | capi_release has called exactly the listed devices that had accepted, once each, and holds no reference |
| CapicoreRuns.CountedInside | linux/drivers/isdn/capi/core.c:106-117 | the counters of driver calls count exactly the entries of threads into capi_register and capi_release |
| CapicoreRuns.PutReaches | linux/drivers/isdn/capi/core.c:382-408 | whatever other threads do, a message for a device in use that has accepted the application gets into the driver of that very device, once |
| CapicoreRuns.QueryReaches | linux/drivers/isdn/capi/core.c:427-443 | a query finds the device with a number if and only if it is in use, and leaves no trace |
| CapicoreRuns.AllocOwned | linux/drivers/isdn/capi/core.c:58-71 | a new device has one reference, and giving it back frees it |
| CapicoreRuns.GetPut | linux/drivers/isdn/capi/core.c:74-87 | capi_device_get adds one reference and capi_device_put takes it away again |
| CapicoreRuns.LastPutFrees | linux/drivers/isdn/capi/core.c:74-87 | capi_device_put frees the device, and its number, if and only if it gives back the last reference |
| Registry.RegisterLeads | linux/drivers/isdn/capi/core.c:106-117 | register_capi_appl is a run of the machine |
| Registry.RegisterEffect | linux/drivers/isdn/capi/core.c:106-117 | its whole effect: one driver call, and bit and reference together or neither |
| Registry.ReleaseUndoes | linux/drivers/isdn/capi/core.c:253-355 | releasing right after registering leaves every device as it was |
| Registry.Registrar.RegisterCapiAppl | linux/drivers/isdn/capi/core.c:106-117 | the state afterwards is that of the run |
| Registry.Registrar.CapiRegister | linux/drivers/isdn/capi/core.c:253-302 | a run of the machine; each listed device is called once, bits and references are exactly those of the accepting devices, nothing else changes |
| Registry.Registrar.AddCapiDevice | linux/drivers/isdn/capi/core.c:90-103 | the first empty slot is taken, or none exists |
| Registry.Registrar.CapiDeviceRegister | linux/drivers/isdn/capi/core.c:120-194 | a run of the machine; the least free number is assigned unless all are used, and each application is registered once |
| Registry.Registrar.CapiDeviceUnregister | linux/drivers/isdn/capi/core.c:141-150 | a run of the machine that only takes the device off the list and ends its use, keeping its references |
| Registry.Registrar.CapiDevicePut | linux/drivers/isdn/capi/core.c:74-87 | the last reference frees the device and its slot |
| Registry.Registrar.CapiRelease | linux/drivers/isdn/capi/core.c:330-355 | a run of the machine; exactly the held references are given back and exactly the listed holders called |
| Registry.Registrar.CapiPutMessage | linux/drivers/isdn/capi/core.c:382-408 | a run of the machine; the message is delivered if and only if the bit is set and the device has not been unregistered, and then that run calls the driver of that device exactly once, otherwise none; nothing else changes |
| FirstFit.LeastUnused | linux/drivers/isdn/capi/core.c:234-246 | the number found is the least unused one, and inserting it there keeps the list sorted |
| FirstFit.FullIff | linux/drivers/isdn/capi/capi.c:268-285 | allocation fails if and only if all numbers are used |
| FirstFit.FreeKeeps | linux/drivers/isdn/capi/capi.c:294-300 | freeing keeps the list sorted and frees the number and no other |
| FirstFit.EveryRun | linux/drivers/isdn/capi/capi.c:268-300 | under every sequence of allocations and frees the list stays strictly increasing |
| FirstFit.ApplAlloc | linux/drivers/isdn/capi/core.c:228-250 | with its 16-bit counter the application allocator serves the least unused id if and only if it is not the case that the maximum is 65535 and all ids are used |
| FirstFit.ApplWraps | linux/drivers/isdn/capi/core.c:232-244 | the list of all 65535 ids, on which the counter wraps and the new application is entered under id 0 |
| FirstFit.MinorList.CapiminorAlloc | linux/drivers/isdn/capi/capi.c:268-291 | the least unused minor is allocated, and none exactly if all are used; all others stay and the list stays sorted |
| FirstFit.MinorList.CapiminorFree | linux/drivers/isdn/capi/capi.c:294-300 | the minor, and no other, is unused again; the list stays sorted |
| FirstFit.ApplList.AddCapiAppl | linux/drivers/isdn/capi/core.c:228-250 | the allocator serves, and the list stays sorted, except on a full list of 65535 |
| FirstFit.ApplList.Release | linux/drivers/isdn/capi/core.c:347-349 | the id, and no other, is unused again; the list stays sorted |
| CallTables.PlciRows | linux/drivers/isdn/capi/capidrv.c:619-671 | every row is a transition of the machine |
| CallTables.PlciComplete | linux/drivers/isdn/capi/capidrv.c:619-671 | every transition has a row |
| CallTables.ScanPlci | linux/drivers/isdn/capi/capidrv.c:673-690 | the scan finds the transition if there is one |
| CallTables.NcciRows | linux/drivers/isdn/capi/capidrv.c:728-760 | every row is a transition of the machine |
| CallTables.NcciComplete | linux/drivers/isdn/capi/capidrv.c:728-760 | every transition has a row |
| CallTables.ScanNcci | linux/drivers/isdn/capi/capidrv.c:762-785 | the scan finds the transition if there is one |
| CallSteps.EndPlci | linux/drivers/isdn/capi/capidrv.c:598-608 | a freeing transition takes the PLCI off list, channel and memory together |
| CallSteps.N0Ends | linux/drivers/isdn/capi/capidrv.c:696-717 | n0 leaves the PLCI disconnecting and the NCCI off list, channel and memory |
| CallRuns.KeepMessage | linux/drivers/isdn/capi/capidrv.c:1028-1380 | every message that reaches its handler keeps the joint invariant of PLCIs, NCCIs, lists and channels |
| CallRuns.KeepReceive | linux/drivers/isdn/capi/capidrv.c:1411-1443 | so does every message, whatever its address |
| CallRuns.KeepCommand | linux/drivers/isdn/capi/capidrv.c:1611-1947 | so does every command of the ISDN layer |
| CallRuns.RunKeeps | linux/drivers/isdn/capi/capidrv.c:1411-1443 | so does every run of messages and commands in any order |
| CallRuns.EveryRun | linux/drivers/isdn/capi/capidrv.c:1411-1443 | in every run both machines rest where they may, a PLCI is OUTGOING exactly while it has no number and an NCCI exactly while its number has no NCCI part, and no handler has used a freed object |
| CallRuns.Bijection | linux/drivers/isdn/capi/capidrv.c:371-435 | a channel points to a PLCI if and only if that PLCI is on the list with that channel |
| CallRuns.OwnerDisconnects | linux/drivers/isdn/capi/capidrv.c:696-717 | a PLCI owning an NCCI is not outgoing, and n0 always leaves it disconnecting |
| CallRuns.ChannelNcci | linux/drivers/isdn/capi/capidrv.c:439-506 | a channel points to no NCCI or to a live one of that channel, as long as DISCONNECT_IND came after the NCCIs were gone |
| CallRuns.StepPolite | linux/drivers/isdn/capi/capidrv.c:1042-1059 | that proviso is kept by every step of such a network |
| CallRuns.PoliteRun | linux/drivers/isdn/capi/capidrv.c:1042-1059 | and by every run |
| CallRuns.SendsOnlyUp | linux/drivers/isdn/capi/capidrv.c:1889-1895 | if_sendbuf hands nothing on for an NCCI that has not seen CONNECT_B3_ACTIVE_IND |
| CallRuns.OutgoingUnfound | linux/drivers/isdn/capi/capidrv.c:465-477 | no message for NCCIs finds one that is still being set up |
| CallRuns.HangupWaitsIff | linux/drivers/isdn/capi/capidrv.c:1765-1776 | a hangup flags the channel and asks for the disconnect; the NCCI then waits for it if and only if it was not still being set up |
| CallRuns.ConfirmsOwn | linux/drivers/isdn/capi/capidrv.c:1304-1320 | a confirmation removes the entry of the very block and reports the length stored for it |
| CallRuns.FailedSendRestores | linux/drivers/isdn/capi/capidrv.c:1905-1945 | a failed send leaves the handle counter, and the acknowledgements if and only if no older block has the handle |
| CallEffects.PlciByNumberFirst | linux/drivers/isdn/capi/capidrv.c:392-399 | the first PLCI of the list with the address, and none if and only if none has it |
| CallEffects.PlciByMsgidFirst | linux/drivers/isdn/capi/capidrv.c:401-408 | the same by message number |
| CallEffects.FindNcciIs | linux/drivers/isdn/capi/capidrv.c:465-492 | the first NCCI, by number and by message number, among those of the PLCI of its low word, and none if and only if none has it |
| CallEffects.DisconnectIndEffect | linux/drivers/isdn/capi/capidrv.c:1042-1059 | the PLCI found is freed with its channel, after the answer, and DHUP is reported; DISCONNECT_IND is answered in any case |
| CallEffects.DisconnectConfEffect | linux/drivers/isdn/capi/capidrv.c:1061-1073 | the channel is flagged and nothing else changes |
| CallEffects.ConnectConfEffect | linux/drivers/isdn/capi/capidrv.c:1089-1106 | an outgoing PLCI gets its address and is allocated, or if refused is freed and DHUP is reported; another one only gets its address |
| CallEffects.ConnectActiveIndEffect | linux/drivers/isdn/capi/capidrv.c:1108-1143 | the answer and the active state; unless the call came in, a new outgoing NCCI under the number of the request sent, and DCONN |
| CallEffects.AskedFound | linux/drivers/isdn/capi/capidrv.c:479-492 | that number finds the very NCCI |
| CallEffects.ConnectIndEffect | linux/drivers/isdn/capi/capidrv.c:903-935 | without a free channel nothing, without memory a cleared flag; otherwise the call rings on the first channel without a PLCI and the verdict is carried out |
| CallEffects.CallsInOrder | linux/drivers/isdn/capi/capidrv.c:957 | the commands given from within the callback are carried out one after the other |
| CallEffects.JudgeEffect | linux/drivers/isdn/capi/capidrv.c:957-1026 | verdict 1 alerts unless the call was accepted; every other verdict rejects it, with its own reason, and an incoming PLCI disconnects |
| CallEffects.B3ActiveIndEffect | linux/drivers/isdn/capi/capidrv.c:1218-1236 | answered; an allocated NCCI becomes active and BCONN is reported |
| CallEffects.B3IndEffect | linux/drivers/isdn/capi/capidrv.c:1241-1275 | accepted with a new allocated NCCI, or rejected if there is no PLCI or no memory |
| CallEffects.B3ConfEffect | linux/drivers/isdn/capi/capidrv.c:1277-1293 | an NCCI being set up gets its number and is allocated, or if refused is freed: DISCONNECT_REQ and BHUP, and its PLCI disconnects; any other only gets the number; none found, no effect |
| CallEffects.DataB3ConfUnknown | linux/drivers/isdn/capi/capidrv.c:1304-1320 | a confirmation nobody waits for has no effect |
| CallEffects.B3DisconnectIndEffect | linux/drivers/isdn/capi/capidrv.c:1322-1331 | the channel is flagged and the NCCI found is freed, whatever its state, after the answer; if none is found nothing happens and nothing is answered |
| CallEffects.B3DisconnectConfEffect | linux/drivers/isdn/capi/capidrv.c:1333-1344 | a refusal puts a disconnecting NCCI back; nothing else has an effect |
| CallEffects.ResetB3IndEffect | linux/drivers/isdn/capi/capidrv.c:1346-1355 | answered, and an active NCCI stays active; CONNECT_B3_T90_ACTIVE_IND is answered |
| CallEffects.DialEffect | linux/drivers/isdn/capi/capidrv.c:1623-1710 | an outgoing PLCI on the channel keeps the number under which CONNECT_REQ is sent; an occupied channel is left alone; without memory DHUP is reported |
| CallEffects.DialConfirmed | linux/drivers/isdn/capi/capidrv.c:1089-1106 | CONNECT_CONF with that number finds the very PLCI; a refusal leaves list, PLCIs and channels as they were before dialling |
| CallEffects.AcceptEffect | linux/drivers/isdn/capi/capidrv.c:1712-1742 | CONNECT_RESP accepts the call, and an incoming PLCI waits to become active |
| CallEffects.HangupPlciEffect | linux/drivers/isdn/capi/capidrv.c:1777-1803 | without an NCCI: an incoming call is only flagged, a call without an address left alone, any other disconnects |
| CallEffects.HangupFree | linux/drivers/isdn/capi/capidrv.c:1804-1808 | a hangup on a free channel does nothing |
| CallEffects.SendBufEffect | linux/drivers/isdn/capi/capidrv.c:1871-1947 | data are sent for an active NCCI only, under the handle counter; a block that is taken waits for its confirmation under that handle |
| CallHistory.StepKeepsPending | linux/drivers/isdn/capi/capidrv.c:762-785 | while a disconnect is pending no message and no command changes the state to go back to, except its two answers |
| CallHistory.StepEndsPending | linux/drivers/isdn/capi/capidrv.c:1322-1344 | an indication frees the NCCI, a refusal puts it back in that very state |
| CallHistory.WaitsIff | linux/drivers/isdn/capi/capidrv.c:1322-1344 | in every run the NCCI is still allocated and waiting if and only if neither answer has come for it |
| CallHistory.RefusalRestores | linux/drivers/isdn/capi/capidrv.c:728-785 | in every run, a disconnect refused however much later restores exactly the state in which it was asked for |
| CallFlags.StepSticks | linux/drivers/isdn/capi/capidrv.c:419-435 | every message and command leaves a flagged channel flagged if it leaves its PLCI allocated, and clears the flag if it frees it |
| CallFlags.FlagStaysIff | linux/drivers/isdn/capi/capidrv.c:419-435 | in every run the flag stays if and only if the PLCI is never freed |
| CallFlags.HungUpOnce | linux/drivers/isdn/capi/capidrv.c:1758-1803 | in every run after a hangup that does something, a refusal included, the channel stays flagged if and only if its PLCI is never freed, and until then every later hangup on it does nothing |
| CallTeardown.ListEmptied | linux/drivers/isdn/capi/capidrv.c:2172-2190 | the loop that takes a controller down ends with an empty PLCI list, whatever the network did before |
| CallTeardown.TakenDownIff | linux/drivers/isdn/capi/capidrv.c:2183-2186 | it uses no freed object if and only if the NCCI of each channel belongs to an allocated PLCI on that channel or an earlier one |
| CallTeardown.TakenDown | linux/drivers/isdn/capi/capidrv.c:2172-2190 | in particular after runs in which DISCONNECT_IND came only for PLCIs without NCCIs |
| CallTeardown.DisabledEach | linux/drivers/isdn/capi/capidrv.c:2172-2182 | each channel is disabled once, from the last to the first, and no message is sent |
| CallExamples.EarlyDisconnect | linux/drivers/isdn/capi/capidrv.c:494-506 | a possible run of four events after which the loop does go through a freed PLCI |
| CallExamples.HungUpTooEarly | linux/drivers/isdn/capi/capidrv.c:1758-1776 | a possible run in which a call hung up while its NCCI is being set up becomes active all the same, with no disconnect under way, and a further hangup does nothing |
| CallExamples.RefusedForGood | linux/drivers/isdn/capi/capidrv.c:1333-1344 | a possible run in which a disconnect is refused, the NCCI is back where it was, and a further hangup does nothing |
| CallExamples.HandleWraps | linux/drivers/isdn/capi/capidrv.c:1905-1945 | a possible run in which a failed send loses the acknowledgement entry of the first block |
| Controllers.Controller.NewPlciOn | linux/drivers/isdn/capi/capidrv.c:371-390 | a PLCI is put on list and channel |
| Controllers.Controller.FindPlciByPlci | linux/drivers/isdn/capi/capidrv.c:392-417 | the first PLCI with the number |
| Controllers.Controller.FindPlciByMsgid | linux/drivers/isdn/capi/capidrv.c:401-408 | the first PLCI with the message number |
| Controllers.Controller.FreePlciAt | linux/drivers/isdn/capi/capidrv.c:419-435 | the PLCI leaves list and channel, and the flags of the channel are cleared; an unknown one changes nothing |
| Controllers.Controller.NewNcciFor | linux/drivers/isdn/capi/capidrv.c:439-463 | an NCCI is put on the PLCI and its channel |
| Controllers.Controller.FindNcciByNcci | linux/drivers/isdn/capi/capidrv.c:465-477 | the first NCCI with the number on the PLCI of its low word |
| Controllers.Controller.FindNcciByNumber | linux/drivers/isdn/capi/capidrv.c:479-492 | the same by message number |
| Controllers.Controller.FreeNcciAt | linux/drivers/isdn/capi/capidrv.c:494-506 | the NCCI leaves its PLCI and its channel |
| Controllers.Controller.AddAck | linux/drivers/isdn/capi/capidrv.c:508-525 | the entry is appended, or nothing changes |
| Controllers.Controller.DelAck | linux/drivers/isdn/capi/capidrv.c:527-542 | the first entry with the handle goes and its length is returned, or -1 |
| Controllers.Controller.PlciChangeState | linux/drivers/isdn/capi/capidrv.c:673-690 | one transition of the machine, with its action |
| Controllers.Controller.N0At | linux/drivers/isdn/capi/capidrv.c:696-717 | disconnect request, PLCI transition, BHUP, free, in this order |
| Controllers.Controller.NcciChangeState | linux/drivers/isdn/capi/capidrv.c:762-785 | one transition, with the state history and its action |
| Controllers.Controller.NewBchan | linux/drivers/isdn/capi/capidrv.c:789-799 | the first channel without a PLCI, its flag cleared |
| Controllers.Controller.DialOn | linux/drivers/isdn/capi/capidrv.c:1623-1710 | a call is begun on a free channel only |
| Controllers.Controller.AcceptOn | linux/drivers/isdn/capi/capidrv.c:1712-1742 | the PLCI of the channel accepts |
| Controllers.Controller.HangupOn | linux/drivers/isdn/capi/capidrv.c:1751-1810 | NCCI before PLCI, incoming calls only flagged, calls without number left alone |
| Controllers.Controller.IfSendbuf | linux/drivers/isdn/capi/capidrv.c:1871-1947 | the joint invariant is kept, and anything is handed on only for an NCCI that has seen CONNECT_B3_ACTIVE_IND |
| Controllers.Controller.CapidrvCommand | linux/drivers/isdn/capi/capidrv.c:1611-1854 | every command keeps the joint invariant |
| Controllers.Controller.HandleIncomingCall | linux/drivers/isdn/capi/capidrv.c:903-1026 | the callback may accept or hang up; the verdict alerts, rejects, or does nothing for a call already accepted |
| Controllers.Controller.HandlePlci | linux/drivers/isdn/capi/capidrv.c:1028-1200 | every message for a PLCI does what the machine does and keeps the joint invariant |
| Controllers.Controller.HandleNcci | linux/drivers/isdn/capi/capidrv.c:1202-1380 | every message for an NCCI does what the machine does and keeps the joint invariant |
| Controllers.Controller.CapidrvRecvMessage | linux/drivers/isdn/capi/capidrv.c:1411-1443 | the address decides which handler gets a message; every message keeps the joint invariant, and one for another controller or without a case changes nothing |
| Controllers.Controller.Delcontr | linux/drivers/isdn/capi/capidrv.c:2172-2190 | the list ends empty; no freed object is used if and only if each channel still has the PLCI of its NCCI |
| TraceRing.HexBack | linux/drivers/isdn/capi/capidrv.c:1485-1493 | the hexadecimal text determines the data |
| TraceRing.DigitSpelled | linux/drivers/isdn/capi/capidrv.c:1485-1493 | the digits are 0 to 9 and A to F |
| TraceRing.TextTells | linux/drivers/isdn/capi/capidrv.c:1473-1493 | a trace line begins with D2 or D3 and the direction, ends with a newline, and tells the data |
| TraceRing.Ring.PutByte | linux/drivers/isdn/capi/capidrv.c:1454-1459 | the ring keeps the last 4096 bytes written |
| TraceRing.Ring.HandleDtraceData | linux/drivers/isdn/capi/capidrv.c:1461-1499 | exactly one trace line is written, and its length is what is announced |
| TraceRing.Ring.ReadStat | linux/drivers/isdn/capi/capidrv.c:1961-1966 | reading gives the latest byte in each place, and exactly what was written if the reader has not been overtaken |

## Left out

- The byte type of the codec: no parameter code has it.
- Messages with codes CAPI 2.0 does not define: the index function maps some of them to entries of other messages and some to empty entries.
- Aliasing of decoded structs: a struct read from a message is kept as its bytes, not as a pointer into the buffer.
- The text printed by capi_message2str and capi_cmsg2str; only the cursor of the walker is modelled.
- capilib_free_ncci, capilib_release_appl and capilib_release: plain removal from a list.
- Registry.Registrar.CapiRegister: the application id is taken as given; that it is the least unused one, and the case that there is none, is in FirstFit.
- Registry.Registrar.CapiDeviceRegister: registration with sysfs, and unregistering when that fails, is left to the caller.
- Registry.Registrar.CapiPutMessage: the tests of length and of an application marked as failed, which return before anything is looked up.
- Capicore: walks over the device and application lists take any order, and capi_appls_list_sem is merged into the steps it protects.
- Signal handlers, message queues and statistics of applications; nr_capi_devs.
- CallTeardown.TakenDownIff: addresses may be handed out again; a pointer that has outlived its object is counted as allocated, and its use is not recorded in `bad`, once its address is in use again.
- Several opens of one tty, hangup and the lifetime of a minor after its NCCI has gone; MinorPath has one opener.
- MinorPath.Confirmation and MinorPath.Kick: the write_wakeup callback of the tty may call other operations between the two, so they are separate events. In the same way receive_buf of the line discipline may call the write path; in the model a write comes before or after the delivery.
- TtyMinor.CapiMinor.TtyPutChar: the room in a block is a parameter, because the size of the allocation is not part of this model.
- The character device of capi.c: capidev lists, read, write, poll and ioctl.
- Registration of the tty driver and capifs; CAPI_MAXDATAWINDOW and CAPI_MAX_DEVS are parameters.
- CallControl: of the messages sent, command, address and number are recorded, and Reject where a response has it, not the other parameters (protocol values, numbers of the parties).
- Controllers.Controller.DialOn: the return value and the leased-line decoding of the number are not modelled.
- Controllers.Controller.HangupOn: the return value is not modelled.
- Callbacks into the ISDN layer do not call back, except from within the one for an incoming call.
- The listen machine, handle_controller, handle_data, INFO_IND and the commands SETL2, SETL3, SETEAZ and CLREAZ: no state shared with calls.
- Adding controllers, and the global list of controllers with its locking.
- kernelcapi.c and capidrv.h's tables of cause and protocol codes: lookups without state.
- Counters such as nmsg, nack, inbytes and refs do not wrap: the model's integers are unbounded there.
