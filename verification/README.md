# Sniffnet agent: a verified model of the flow pipeline

The agent captures packets, aggregates them into flows, and exports the flows as IPFIX (RFC 7011) over UDP. This
project models the whole path, from a decoded packet to the octets of a datagram and back through a collector, and
proves what holds for every batch, every run and every interleaving of the agent's two threads.
`dafny verify dfyconfig.toml` checks all of it.

| file | component |
|---|---|
| `Flow.dfy` | flow keys, values, the self-export test and the direction rule |
| `FlowTable.dfy`, `Totals.dfy` | the flow table against a fold over its packets; counter totals |
| `Intervals.dfy` | a history of packets and drains, and its intervals |
| `Capture.dfy`, `Agent.dfy` | the capture loop and the receive loop |
| `Template.dfy`, `InformationElements.dfy`, `Record.dfy` | templates, records and their octets |
| `Encode.dfy`, `Packing.dfy` | the batch encoder against plan, cut and print; what the packing achieves |
| `AnyOrder.dfy` | the packing against packings in any order |
| `Collector.dfy`, `RoundTrip.dfy` | a collector written from the standard, and its agreement with the encoder |
| `Exporter.dfy`, `Runs.dfy` | the exporter, and what a collector can conclude over whole runs |
| `Pipeline.dfy` | both threads as interleaved steps; conservation end to end |
| `Basics.dfy`, `BigEndian.dfy`, `Buffer.dfy` | machine integers, big-endian numbers, the byte buffer |

The MTU is a parameter bounded only by the encoder's compile-time assertion; the exporter fixes it at 1200. The encoder
is modelled twice: as the loop over two cursors, a growing buffer, a running 16-bit length and a back-patched header,
and as three functions (`Plan` decides how many records each message takes, `Cut` distributes them, `Print` writes the
octets); the loop is proved equal to the functions, and everything else is proved of the functions. The collector
is written from the standard: it learns field lists from Template Sets, cuts records by their lengths and reads values
by element number. It shares with the agent's model the constants of `Template.dfy` (version, Template Set id,
Information Element numbers), the types of field lists, elements and decoded records, and the summed length of a field
list, and none of the writing or packing. So that a wrong constant cannot hide on both sides, the octets of the Template
Set, of message headers and of records are also stated against literal numbers, field by field. The collector is
stricter than the standard asks: it refuses padding, empty sets, and enterprise or variable-length fields, so what it
accepts is tiled exactly.

The parser's protocols are `Udp` and any other protocol, told apart by a tag and carrying any optional IANA number.
Clock readings, interface addresses, map iteration orders, socket answers and the delivery of datagrams are arbitrary
inputs; a monotone clock is assumed only where it is said so.

Proofs are explicit: automatic induction is switched off in every lemma, and `hide` keeps out of a proof the definitions
it does not need. Where a property rests on a condition, the condition is exact:

- totals are conserved if and only if no counter saturates between two drains, and any two packets of one key that pass
  2^64 - 1 together make a run that loses some;
- a collector's loss count is right if and only if no single gap between readable datagrams reaches 2^32 records, and
  there is a run with such a gap of which the collector reports no loss at all;
- the order of packets leaves an entry's MACs, VLAN and EtherType alone if and only if the packets of its key agree on
  them; `src/flow.rs` takes this for granted of the EtherType (line 106), and `record` itself does not check it;
- the encoder's datagrams are the fewest among all v4-then-v6 packings always, and among packings in any order if and
  only if one datagram less could not carry the batch, which the two record counts decide;
- a decoded record reads as the agent's own export if and only if one of two kinds of flow that the filter lets through
  was exported, and each such flow has a run that puts it on the wire.

## Model

| member | source | states |
|---|---|---|
| `Records.TemplateDescribesRecord` | src/ipfix/template.rs:36-69 | cutting any record the writer produces at the cumulative lengths of its family's field table yields exactly the octets of every announced Information Element, so a record has the length its template announces |
| `Templates.RecordSizesMatchTemplates` | src/ipfix/mod.rs:13-19 | both templates have 14 fields, and their lengths add up to the 62 and 86 octets the encoder budgets with |
| `Templates.WriteTemplateSet` | src/ipfix/template.rs:71-78 | appends exactly the octets of the Template Set with both templates |
| `Templates.WriteTemplateRecord` | src/ipfix/template.rs:80-92 | appends the template header and every field specifier, in order, whatever the field table |
| `Templates.TemplateSetOctets` | src/ipfix/template.rs:71-92 | every octet of the Template Set as a number: set 2 of 124 octets, templates 256 and 257 of 14 fields, and the element number and length of each of the 28 specifiers |
| `Records.WriteRecord` | src/ipfix/encode.rs:138-150 | appends exactly the octets of the flow's Information Elements in template order |
| `Records.WriteCommonTail` | src/ipfix/encode.rs:152-170 | appends the twelve elements both families share; absent port, protocol number, MAC or VLAN is 0, absent direction 0xFF |
| `RoundTrip.RecordFields` | src/ipfix/encode.rs:138-170 | what stands in a record under each of the fourteen IANA element numbers, from the flow's own fields: addresses of its family and none of the other, ports, protocol number (17 for UDP), MACs, VLAN, EtherType, direction 0, 1 or 0xFF, counters and times, with the value written for each absent one |
| `BigEndian.FromBytesConcat` | src/ipfix/encode.rs:153-169 | octets are read most significant first |
| `RoundTrip.InterpretElements` | src/ipfix/encode.rs:138-170 | reading a record's elements by their numbers, not their positions, gives the flow's wire projection back |
| `RoundTrip.SameOctetsIffSameProjection` | src/ipfix/encode.rs:138-170 | two flows have the same octets exactly when family and wire projection agree |
| `Encoder.TakeRecordsIsMaximal` | src/ipfix/encode.rs:124-131 | the number of records taken is the largest that fits with one set header: exactly the counts up to it stay within the MTU; neither saturation nor the 16-bit cap changes that |
| `Encoder.MtuHoldsIff` | src/ipfix/encode.rs:25-27 | the compile-time assertion asks for 230 octets |
| `Encoder.FirstMessageProgress` | src/ipfix/encode.rs:25-27 | for every MTU the compile-time assertion admits, a message takes at least one record still owed, also beside a template set and with v4 exhausted, and stays within the MTU |
| `Encoder.WriteSetHeader` | src/ipfix/encode.rs:133-136 | appends the set id and a set length that counts the header itself |
| `Encoder.PackSet` | src/ipfix/encode.rs:101-122 | appends one Data Set of the largest number of records that fits, or nothing; advances the cursor by as many; keeps the running 16-bit length equal to the buffer length, without overflow |
| `Encoder.BuildMessage` | src/ipfix/encode.rs:54-96 | one turn of the encode loop, back-patch included, yields the octets of the message that carries the next records of both cursors |
| `Encoder.BuildFrom` | src/ipfix/encode.rs:49-98 | the loop over two cursors returns the datagrams of the plan cut along both record lists, ends for every input, and advances the sequence number by all records |
| `Encoder.BuildDatagrams` | src/ipfix/encode.rs:33-99 | the imperative encoder returns exactly the datagrams of the functional form, plan then cut then print, for every batch and every admissible MTU |
| `Encoder.PrintLength` | src/ipfix/encode.rs:89-92 | the declared length of a message is the number of its octets |
| `RoundTrip.HeaderOctets` | src/ipfix/encode.rs:57-63 | the header of every message: octets 00 0A, its length, the export time, the sequence number and the observation domain, each at its place |
| `Encoder.FamiliesKeepOrder` | src/ipfix/encode.rs:40-47 | the split by family holds the v4 flows, and the v6 flows, at increasing positions of the input, all of them and no others |
| `Packing.FullV4LeavesNoRoom` | src/ipfix/encode.rs:71-87 | the space left by a v4 set that could not take all v4 records never holds a v6 set |
| `Packing.PlanIsSound` | src/ipfix/encode.rs:54-96 | no message carries v6 records while v4 records are to come, each is within the MTU, none is empty |
| `Packing.BatchIsPartitioned` | src/ipfix/encode.rs:40-96 | the records of all messages are the v4 flows in input order and then the v6 flows in input order, together the input as a multiset, and no v6 record goes out before the last v4 record |
| `Packing.BatchMessageAt` | src/ipfix/encode.rs:54-95 | octets equal declared length and fit the MTU; sets hold their own family; at least one record; Template Set in the first message only, exactly when requested |
| `Packing.BatchIsNumbered` | src/ipfix/encode.rs:50-98 | sequence numbers in a batch count the data records before them modulo 2^32, and template records not at all |
| `Packing.GreedyStaysAhead` | src/ipfix/encode.rs:71-87 | from a position at or beyond any other plan's, the greedy message ends at or beyond where the other plan's message ends |
| `Packing.BatchUsesFewestDatagrams` | src/ipfix/encode.rs:54-96 | no other messages within the MTU that carry the v4 records and then the v6 records, templates in the first when requested, are fewer |
| `AnyOrder.NoPlanCarriesMore` | src/ipfix/encode.rs:71-87 | no messages within the MTU, in any order and however mixed, carry more v6 records beside their v4 records than the number computed from the counts |
| `AnyOrder.SomePlanCarries` | src/ipfix/encode.rs:71-87 | and for that number, and any lesser one, there are such messages |
| `AnyOrder.FewestInAnyOrder` | src/ipfix/encode.rs:54-96 | the datagrams of a batch, as many as its two record counts say, are the fewest among all messages within the MTU that carry it in any order, if and only if one datagram less could not carry that many v6 records beside that many v4 records |
| `AnyOrder.SingleFamilyIsFewest` | src/ipfix/encode.rs:54-96 | in particular whenever the batch has no v4 or no v6 flows |
| `AnyOrder.MixedOrderCanBeatGreedy` | src/ipfix/encode.rs:71-87 | they are not the fewest for any batch of 4 v4 and 24 v6 flows: two datagrams carry it, and the encoder uses more |
| `Packing.ExactCount` | src/ipfix/encode.rs:54-96 | for any numbers of v4 and v6 records and every MTU, the datagrams the v4 records need plus those the v6 records need that find no room beside the last v4 records |
| `Packing.BatchIsCounted` | src/ipfix/encode.rs:33-99 | every batch becomes exactly that many datagrams |
| `Packing.V4OnlyCount` | src/ipfix/encode.rs:54-96 | in particular the exact number for a v4 batch, with and without templates |
| `Packing.V6OnlyCount` | src/ipfix/encode.rs:54-96 | exact number of datagrams of a v6 batch for every MTU, with and without templates |
| `Packing.DatagramCountsAt1200` | src/ipfix/encode.rs:23 | at 1200 octets: n/19 or n/13 rounded up, and one more than the rounded-up rest after 17 or 12 beside the templates |
| `RoundTrip.PrintIsParsed` | src/ipfix/encode.rs:5-11 | a template-driven parser reads every message back: header fields, then exactly the optional Template Set and the non-empty v4 and v6 Data Sets, tiling it without padding |
| `RoundTrip.UnknownTemplateIsRejected` | src/ipfix/encode.rs:5-11 | a message that carries records but no templates cannot be read by a collector that has learned none |
| `Exporters.Exporter.Connect` | src/exporter.rs:16-29 | starts at sequence number 0 with no template sent, nothing attempted, and the configured observation domain |
| `Exporters.Exporter.Flush` | src/exporter.rs:31-61 | advances the state as specified whatever the sends do, hands every datagram of the batch, packed for 1200 octets, to the socket in order, and returns the last send error or none |
| `Exporters.Exporter.SendAll` | src/exporter.rs:49-59 | sends every datagram even after failures and remembers the last error |
| `Runs.FlushStamps` | src/exporter.rs:39-41 | a flush stamps its datagrams with its own wall clock reading and the configured observation domain |
| `Runs.AttemptedDatagram` | src/exporter.rs:31-61 | every datagram an exporter has handed to its socket has at most 1200 octets, version 10, its own length, the clock reading of the flush it comes from, the number of data records before it modulo 2^32, and the exporter's observation domain, at the header's octet positions |
| `Runs.RunIsNumbered` | src/exporter.rs:40-47 | over any run, every datagram's sequence number counts the data records of all earlier datagrams modulo 2^32, and the exporter's counter is the sum of all batch sizes |
| `Runs.LastTemplateSendIsLatest` | src/exporter.rs:42-44 | the recorded template send is that of the latest flush that carried templates, and absent before the first |
| `Runs.TemplateSetsAreInTemplateFlushes` | src/exporter.rs:35-44 | a Template Set is emitted by exactly the non-empty flushes that find it due, in their first datagram alone |
| `Runs.TemplateFlushIff` | src/exporter.rs:35-44 | whatever the clock, a non-empty flush carries the templates exactly when the latest one that did, if any, recorded its send at least 30_000_000_000 ns before this one decides |
| `Runs.TemplateRefresh` | src/exporter.rs:35-44 | under a monotone clock, flushes with templates are at least 30_000_000_000 ns apart from recorded send to decision, and every other non-empty flush comes less than that after one |
| `Runs.EmittedDatagramIsWellFormed` | src/ipfix/encode.rs:5-11 | every datagram of a run is within the MTU, has a record, and is read back exactly by any reader that knows the templates by then |
| `Runs.ContentsInOrder` | src/ipfix/encode.rs:71-87 | because v6 never precedes remaining v4, reading datagram by datagram reads all v4 flows and then all v6 flows |
| `Runs.ListenOnLossyChannel` | src/exporter.rs:45-59 | for any subset of datagrams delivered in order, a collector that knows no template in advance reads everything from the first delivered Template Set on and nothing before; its loss count is congruent modulo 2^32 to the records missed between readable datagrams, never more, and equal if and only if no single gap between two of them reaches 2^32 |
| `Runs.MissedIsUndelivered` | src/exporter.rs:45-47 | the records missed are those of the datagrams not delivered between the first and the last one read |
| `Runs.LossAccounting` | src/exporter.rs:45-47 | over any run and any losses, the sum of the gaps is modulo 2^32 the number of records in the datagrams not delivered between the first and the last one read, and exactly that number if and only if no gap between one readable datagram and the next reaches 2^32 |
| `Runs.WrappedGapGoesUnseen` | src/exporter.rs:45-47 | for any flow there is a run of which the collector reads the first and last datagram, misses 2^32 records in between, and reports none |
| `Runs.GapCountsRecordsBetween` | src/ipfix/encode.rs:94 | a single gap is, modulo 2^32, the number of records in the datagrams between, and exactly that number if and only if it is below 2^32 |
| `Runs.WholeRunRoundTrip` | src/exporter.rs:31-61 | fed every datagram of any run of flushes, the collector rejects none, sees no gap, and ends with exactly each flush's flows, v4 then v6 in order, up to the wire projection |
| `Runs.RefreshInBetween` | src/exporter.rs:35-44 | under a monotone clock, a Template Set goes out between flush j and any non-empty flush decided at least 30 s after the last recorded instant before j |
| `Runs.LateCollectorCatchesUp` | src/exporter.rs:35-44 | whatever was lost before, a collector that receives every datagram from flush j on reads such a flush and everything after it in full, in order, and rejects nothing from there on |
| `FlowTables.FlowTable.constructor` | src/flow.rs:88-92 | an empty table |
| `FlowTables.FlowTable.Record` | src/flow.rs:94-131 | adds one packet: the table stays the fold of the packets recorded since the last drain |
| `FlowTables.FlowTable.Drain` | src/flow.rs:138-140 | hands over that fold and leaves an empty table |
| `FlowTables.TableSummarisesLog` | src/flow.rs:94-131 | the keys are exactly those recorded; each entry has saturated sums, the earliest and latest timestamps, the first known MACs and VLAN, and the first packet's EtherType |
| `FlowTables.PacketOrderDoesNotMatter` | src/flow.rs:112-128 | permuting the packets between two drains keeps the keys and each key's counters and timestamps |
| `FlowTables.PacketOrderDecides` | src/flow.rs:106-122 | for each key, every order of the packets keeps the same source MAC, destination MAC, VLAN or EtherType, if and only if all packets of the key that tell one tell the same |
| `FlowTables.ExtraDrainMerges` | src/flow.rs:133-140 | merging the maps on both sides of an extra drain gives the map of a single drain, exactly |
| `Captures.PacketIsFrame` | src/capture.rs:76-118 | a turn contributes a flow exactly when it brought a frame whose addresses are of one family, and then that frame's: source and destination addresses and ports, protocol, octets, one packet, MACs, VLAN, EtherType, no direction, its capture time twice |
| `Captures.IntervalsOfTurns` | src/capture.rs:33-54 | the intervals are the frames from one due drain to the next, a drain coming before the packet of its own turn |
| `Captures.MapsHoldFrames` | src/capture.rs:33-54 | the keys of each map sent, and of the table, are those of exactly the frames of its interval's turns, and every entry summarises them |
| `Captures.Run` | src/capture.rs:28-55 | the capture loop sends the folds of the drain intervals in order, holds the fold of the open one, and stops at the first drain whose receiver is gone; each map holds exactly the frames of its turns |
| `Captures.PacketsCountFrames` | src/capture.rs:76-117 | each entry's packet counter is the number of turns since the last drain that brought a frame of its key, capped at 2^64 - 1; no entry has a direction before the main thread sets it; none was last seen before it was first seen |
| `Agent.EnumerationExists` | src/main.rs:56-57 | every map has an iteration order that visits each key exactly once |
| `Flows.SelfExportIff` | src/flow.rs:42-46 | the filter catches exactly UDP to the collector's address, the destination of the key's family, and port |
| `Flows.DirectionIsRight` | src/direction.rs:12-47 | the direction of every flow: none exactly without interface addresses, outgoing exactly as stated for loopback conversations, local sources and unspecified sources |
| `Flows.RepliesGoTheOtherWay` | src/direction.rs:12-47 | where the rule can tell the two ends apart, the replies of a flow get the opposite direction |
| `Flows.WithDirectionAnnotates` | src/flow.rs:75-80 | annotating keeps every other field and decides the direction from the key's source and destination in that order |
| `Agent.KeptKeys` | src/main.rs:56-60 | in any iteration order, each key of a received map yields at most one record, exactly the keys that are not self-export do, and every field is the entry's, with the direction added |
| `Agent.KeptFollowsOrder` | src/main.rs:56-60 | the records follow the iteration order |
| `Agent.CallIsExact` | src/main.rs:56-61 | what is flushed for a received map is exactly its entries that are not self-export, each once, field by field, with the direction from that turn's addresses |
| `Agent.CallsServe` | src/main.rs:54-75 | the flushes serve, in order, exactly the maps with something to export, each with the clock readings of its own turn |
| `Agent.RunFlush` | src/main.rs:65-75 | flushes a non-empty list and skips an empty one, whatever the outcome of the flush |
| `Agent.ReceiveLoop` | src/main.rs:54-62 | the exporter's flushes are those of the received maps, in order, none left out and none added |
| `Totals.MapTotalSplit` | src/main.rs:56-57 | the total of a map does not depend on the order its entries are taken in |
| `Totals.AggregationKeepsTotals` | src/flow.rs:112-113 | folding packets into a table never adds to a counter total and keeps it exactly when no counter of a chosen key saturates |
| `Pipeline.AnyOrderCountsOnce` | src/main.rs:56-57 | every iteration order of a map counts each entry once |
| `Pipeline.FilterSplitsTotals` | src/main.rs:56-60 | filtering and annotating moves every counter to the flows kept or to those filtered out |
| `Pipeline.CaptureLoopIsARun` | src/capture.rs:33-54 | any history of recorded packets and drains, as the capture loop makes, is a run of record and drain steps |
| `Pipeline.OneInterval` | src/main.rs:45-62 | any packets have a run that records them, drains once and receives the map |
| `Pipeline.ReceiveIsEnabled` | src/main.rs:54-57 | whenever a map is on the channel a receive step can be taken, with any addresses and clock readings |
| `Pipeline.ReachableIsInOrder` | src/main.rs:45-62 | in every reachable state the maps received and then those queued are the interval folds in order, and the flushes are those of the receive loop |
| `Pipeline.ReachableIsConsistent` | src/main.rs:54-62 | in every reachable state the table is the fold of the open interval, exporter and wire are those of the flushes made, and no flushed flow is self-export |
| `Pipeline.ConservationByKey` | src/capture.rs:33-55 | in every reachable state and for every key, the counter recorded is at least what the table, the queued maps, the filtered and the exported flows hold together, and equal exactly when no interval's packets pass 2^64 - 1 |
| `Pipeline.Conservation` | src/main.rs:54-62 | the same for every choice of keys at once |
| `Pipeline.EndToEnd` | src/main.rs:54-62 | the same down to the octets: under every wire key, what a collector decodes from the datagrams sent makes up what is not in the table, queued or filtered out |
| `Pipeline.EndToEndWithLoss` | src/exporter.rs:49-59 | the same whichever sends fail: what is decoded and what lost or unreadable datagrams carried add up to it, under the same exact condition |
| `Pipeline.SaturationLoses` | src/flow.rs:112-113 | any two packets of one key whose counters together pass 2^64 - 1 have a run at whose end decoded and filtered flows hold less than was recorded |
| `Pipeline.FieldsEndToEnd` | src/main.rs:54-62 | in every reachable state the decoded records are, received interval by received interval, the wire projections, v4 then v6, of exactly the entries of the interval's table that are not self-export, each once, annotated with that turn's addresses |
| `Pipeline.SelfExportOnTheWire` | src/flow.rs:42-46 | a projected key reads as UDP to the collector exactly when the filter catches its flow, or another protocol has UDP's number, or UDP has no port and the collector's port is 0 |
| `Pipeline.SelfExportOnlyByImpostors` | src/main.rs:56-60 | in any run, some decoded record reads as UDP to the collector exactly when a flow of the last two kinds was exported |
| `Pipeline.ImpostorReachesTheWire` | src/flow.rs:42-46 | every such flow has a run that puts it on the wire |
| `Pipeline.PortZeroIsShown` | src/flow.rs:42-46 | in particular, for any collector on port 0 one UDP packet without a port does |
| `Pipeline.NoSelfExportOnTheWire` | src/flow.rs:42-46 | with a collector port other than 0 and UDP's number carried by UDP alone among the packets recorded, no decoded record ever does |

## Left out

- Packet capture, BPF filters, interface lookup, socket binding and the wall clock: foreign calls; their results are inputs.
- `sniffnet_packet_parser`: not part of this model; `DecodePacket` starts from the fields it yields.
- Timestamps are arbitrary 64-bit milliseconds; the conversion from the capture header in `src/capture.rs` is not modelled.
- The 900 ms drain interval: a drain may come at any time.
- The pipeline steps assume the receiving thread is alive; the capture loop alone models its end, where the map drained last is lost.
- A collector's template lifetime over UDP, template withdrawal, Options Templates and reduced-size encoding: the agent uses none of them.
- Datagrams are lost but not reordered or duplicated.
- Resource limits such as buffer capacity and allocation failure, logging, and command-line parsing.
