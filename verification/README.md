# NetGazer backend: a verified model

A Dafny model of the parts of the Go backend whose behaviour spans many steps, with proofs.
`dafny verify dfyconfig.toml` checks everything.

**Interception** (`backend/internal/intercept`). `Entries` is what TCP and UDP streams share:
analyzers as black boxes whose state is the sequence of calls made to them, one feeding round
over the active list, removal of finished entries, closing, quotas; `Reports` is what they say
to one chunk, read off their behaviours. `TcpStreams` and
`UdpStreams` are the stream objects (classes `TcpStream`, `UdpStream`, proved against value
functions) and their lives over arbitrary packets. `UdpTable` is the bounded stream table,
`Workers` the dispatcher, the workers' queues and loops, and ruleset updates, as one
concurrent state machine, together with the object whose methods are its steps. `Rulesets` is
the rule scan. `Trojan` is the Trojan analyzer's stream over a real four-slot array.

**Traffic history** (`storage/sqlite.go`). `TierKeys` is the time and key arithmetic with
64-bit wrap-around, `Rollup` the bucket loops, `History` the four tables over whole runs of
inserts and rollups, in which each row carries the multiset of raw samples behind it, and
`Collisions` a run whose rollup mixes two nodes.

**Accounting.** `Ledger` (counters by key), `Trackers` (the agent's host, flow and protocol
trackers), `Aggregator` (the server's nodes and interfaces as linked objects), `Accounting`
(the whole system: pipes, messages under way, server), `FlowRecords` (the two-phase batch
merge of collector records), `FlowKeys` (flow key strings), `TcpSequences` (the TCP loss
counter).

**Detectors and metrics.** `Cooldown` and `PortScans` (`alerting/engine.go`), `RtpSessions`
and `Mos` (`tracker/voip_tracker.go`).

**Parsers and hub.** `Sni` and `DnsNames` (`capture/analyzer.go`), `Hub` (`api/hub.go`).
`Folds` and `Options` are small helpers.

Environment assumptions: an assembler presents each TCP packet with a fresh context, calls
`Accept` first and `ReassembledSG` at most once and only after `Accept` agreed; rule programs
and packet modifiers are arbitrary functions; the stream cache may evict any other key when
full, without closing the stream; clock readings, map iteration orders and cutoffs are
parameters or arbitrary choices. Floating-point numbers are `real`.

Where the code does not do what its comments or names suggest, the model follows the code, and
a lemma gives the input and the exact condition:

- A rollup's bucket key is the aligned time times 100000 plus a node number, in 64 bits, and
  can collide; samples are conserved all the same (`History.SamplesConserved`), and they are
  attributed rightly throughout a run exactly when no rollup of it mixes buckets
  (`History.AttributionThroughoutIff`, `History.AttributionIff`), which below 4096 nodes, or
  within wide bounds, is always so; `Collisions.CollidingRun` is a run where it is not. Times
  before 1970 are aligned to the end of their period, not the start (`TierKeys.AlignIsFloor`).
- For UDP a drop rule drops one datagram, not the stream: dropped are exactly the datagrams on
  which the ruleset is asked again and answers drop, and all those after the stream has settled
  with a drop on record (`UdpStreams.DroppedIff`). With a drop on record, a datagram on which no
  analyzer reports anything goes through, and settles the stream as accepted if it finishes the
  last analyzer (`UdpStreams.DropIsPerDatagram`).
- A packet that is neither IPv4 nor IPv6 is answered by the dispatcher at once. A stream ID
  stays in arrival order throughout a run exactly when no such packet of it meets another one
  pending (`Workers.InOrderThroughoutIff`).
- A worker's two factories hold whatever was last stored in each, so they agree after updates
  that do not overlap (`Workers.FactoriesHoldLastStores`, `Workers.SeparateUpdatesAgree`) and
  disagree after two that do, when the one to store last for TCP stores first for UDP
  (`Workers.OverlappingUpdatesDisagree`). Nothing in the repository calls
  `Engine.UpdateRuleset`, so no caller there rules overlap in or out.
- A part of a report that names no interface is booked under the node's first one. The agent
  names all its interfaces, and then every balance is exact (`Accounting.NamedConserved`);
  otherwise a first interface's counter is right exactly when no unnamed part that counts was
  delivered since the node had one (`Accounting.FirstConservedIff`,
  `Accounting.UnnamedPartStrays`).
- RTP packets missing directly after sequence number 0 are not counted
  (`RtpSessions.LossOverRun`, `RtpSessions.GapCountedIff`). A late packet adds nothing exactly
  when the number after the last one and the late one lie in the same 65536, or the last one is
  0; otherwise it adds up to 65535 (`RtpSessions.LateAddsNothingIff`). With the packet after it
  the count comes out right only for copies of the last packet other than number 65535, and for
  number 0 before an unbroken rest (`RtpSessions.LateCountedIff`,
  `RtpSessions.LatePacketCounts`). Its timestamp, earlier than the last, is read 8192 milliseconds
  too late for the jitter (`RtpSessions.BackwardRightIff`).
- The TCP loss counter does not handle the wrap of sequence numbers: a run without a gap, of
  any length, counts nothing exactly when no later segment begins at or beyond the end of the
  stretch of 2^32 numbers in which its first segment ended (`TcpSequences.GaplessCountsNothingIff`,
  `TcpSequences.WrapCounts`); within one lap it counts just those segments
  (`TcpSequences.OneLapCounts`).
- The configured cooldown is kept in every run exactly when it is at most ten minutes: a longer
  one is forgotten when its entry is pruned, and one above 153722867 minutes wraps before that
  (`Cooldown.CooldownKeptIff`, `Cooldown.LongCooldownForgotten`, `Cooldown.DurationIs`).
- A port-scan window above 9223372036 seconds wraps (`PortScans.WindowIs`). A port-scan key is
  split rightly exactly when the address has no colon, so not for IPv6 (`PortScans.SplitIff`,
  `PortScans.ColonsCollide`).
- A server name list is read for its first entry only (`Sni.Named`).
- A web client whose unregistration is handled before its registration stays registered
  (`Hub.LastOneWins`), and registering a client after its channel was closed crashes the hub
  at the next touch (`Hub.SafeRunIff`, `Hub.UnsafeCrashes`).

## Model

| member | source | states |
|---|---|---|
| Entries.FeedKeeps | backend/internal/intercept/tcp.go:176-192 | one feed of an active analyzer either leaves it active, fed every segment whole, never done and with quota left, or makes it finished after a legal history |
| Entries.CallLive | backend/internal/analyzer/interface.go:31-51 | an analyzer that was only fed and never reported done may be called once more; a close may follow any feed of it |
| Entries.FeedBudget | backend/internal/intercept/udp.go:245-255 | bytes fed plus quota left equal the limit; for TCP they never pass it, for UDP each feed found the limit not yet reached |
| Entries.FeedAllPermutes | backend/internal/intercept/tcp.go:122-133 | one feeding round with removals in place neither loses nor doubles an entry |
| Entries.FeedStep | backend/internal/intercept/tcp.go:119-133 | a segment given to every active entry keeps the invariant of both lists: each active entry fed exactly once, done entries moved, active plus done a permutation of those created |
| Entries.CloseStep | backend/internal/intercept/tcp.go:162-174 | closing all active entries leaves only finished ones, each closed once and after a legal history |
| Rulesets.Match | backend/internal/ruleset/expr.go:69-92 | the answer is that of the first rule whose program yields true and that has an action, or maybe when there is none |
| Rulesets.FirstMatchUnique | backend/internal/ruleset/expr.go:69-92 | that description admits one answer only |
| Rulesets.RunMatch | backend/internal/ruleset/expr.go:69-92 | the rule loop, in which errors and log-only rules fall through, gives that answer |
| TcpStreams.RunKeepsEntries | backend/internal/intercept/tcp.go:110-192 | over every run of packets: typestate, quotas, every segment once and in order, and active plus done a permutation of the entries created |
| TcpStreams.RunKeepsVerdict | backend/internal/intercept/tcp.go:110-155 | over every run: a verdict is on record exactly when the stream was looked at and has no analyzer left; only the last answer may be decisive, and then the verdict is what that action stands for |
| TcpStreams.VerdictIsFinal | backend/internal/intercept/tcp.go:110-117 | once a verdict is on record nothing changes any more and every later packet gets that verdict |
| TcpStreams.PacketAnswered | backend/internal/intercept/tcp.go:110-155 | over every run, packet by packet: the ruleset is asked exactly on the first segment and on those to which an active analyzer's own answer, to the feed or to the limited close, is an update; the first rule matching the properties after these updates decides; and the packet's verdict is what a decisive answer stands for, accept for good if there is none and no analyzer goes on, and accept for now otherwise |
| Reports.LastReportSettles | backend/internal/intercept/udp.go:284-308 | after any reports each property of each analyzer is what the last report that touches it says, and what it was if none does: merging touches the keys it has, replacing and deleting all of that analyzer |
| TcpStreams.CompletionFinishesAll | backend/internal/intercept/tcp.go:157-174 | when the stream completes, every analyzer it was created with is finished after a legal history |
| TcpStreams.TcpStream.FeedOne | backend/internal/intercept/tcp.go:176-192 | cuts the data to the quota, feeds, and closes on an exhausted quota, as the specification of one feed says |
| TcpStreams.TcpStream.FeedActive | backend/internal/intercept/tcp.go:119-133 | the reverse loop with removal in place gives the survivors in order, appends the leavers last first, and applies all property updates |
| TcpStreams.TcpStream.CloseActiveEntries | backend/internal/intercept/tcp.go:162-174 | closes every active entry once, in order, and empties the list |
| TcpStreams.TcpStream.Accept | backend/internal/intercept/tcp.go:110-117 | agrees while there is an active entry or no segment was seen; otherwise hands out the verdict on record |
| TcpStreams.TcpStream.ReassembledSG | backend/internal/intercept/tcp.go:119-155 | new state and verdict of a delivered segment are those of the specification function |
| TcpStreams.TcpStream.ReassemblyComplete | backend/internal/intercept/tcp.go:157-160 | closes what is active and lets the stream be removed |
| TcpStreams.TcpStream.Handle | backend/internal/intercept/worker.go:168-175 | one packet with a fresh context changes the stream and is answered as the specification says |
| UdpStreams.RunKeepsEntries | backend/internal/intercept/udp.go:170-255 | over every run of datagrams: typestate, quotas and permutation of the analyzers |
| UdpStreams.FedIsPrefix | backend/internal/intercept/udp.go:170-193 | over every run the analyzers are fed the datagrams from the first on, all of them until the stream is settled |
| UdpStreams.RunKeepsVerdict | backend/internal/intercept/udp.go:170-225 | over every run: a stream verdict is on record only once the stream is settled, a settled stream never holds plain accept, allow and block are only ever the last answer, and the stream is dropped exactly on block |
| UdpStreams.VerdictIsFinal | backend/internal/intercept/udp.go:170-176 | once settled, nothing changes and every later datagram gets the verdict on record |
| UdpStreams.DatagramAnswered | backend/internal/intercept/udp.go:170-225 | over every run, datagram by datagram: asked exactly as for TCP; a payload goes out exactly when the first matching rule modifies, its modifier is for datagrams and yields one, and it is that one; accept-modified exactly if that modifier did not fail; allow, block and drop are that datagram's own verdict; otherwise accepted, for good if no analyzer goes on |
| UdpStreams.ClosingFinishesAll | backend/internal/intercept/udp.go:227-243 | when a stream is closed after any run, every analyzer it was created with is finished after a legal history |
| UdpStreams.DroppedIff | backend/internal/intercept/udp.go:170-225 | over every run, a datagram is dropped exactly when the stream has settled with a drop on record, or has not settled and the ruleset is asked again on it and answers drop |
| UdpStreams.DropIsPerDatagram | backend/internal/intercept/udp.go:178-225 | with a drop on record and the stream not settled, a datagram that no analyzer reports anything on is let through and the drop stays on record, unless it finishes the last analyzer: then the stream is accepted |
| UdpStreams.UdpStream.FeedOne | backend/internal/intercept/udp.go:245-255 | feeds the whole datagram, then counts down the quota and closes when it is used up |
| UdpStreams.UdpStream.FeedActive | backend/internal/intercept/udp.go:178-193 | the reverse loop with removal in place, as for TCP but without cutting |
| UdpStreams.UdpStream.Feed | backend/internal/intercept/udp.go:178-225 | new state, verdict and rewritten payload are those of the specification function |
| UdpStreams.UdpStream.Close | backend/internal/intercept/udp.go:227-243 | closes every active entry once |
| UdpStreams.UdpStream.Handle | backend/internal/intercept/worker.go:177-183 | one datagram with a fresh context, as the specification says |
| UdpTable.RouteSpec | backend/internal/intercept/udp.go:108-150 | finds the stream of the same ID and flow in the direction told, or makes a new one running forward; no other stream changes |
| UdpTable.RouteByEnds | backend/internal/intercept/udp.go:108-150 | a known ID goes on with its stream exactly when addresses and ports are the same or all swapped, and in reverse exactly when swapped |
| UdpTable.HandleKeeps | backend/internal/intercept/udp.go:125-150 | a datagram keeps the table within capacity and every stream on its own flow or its exact reverse, first datagram forward |
| UdpTable.Leaving | backend/internal/intercept/udp.go:125-150 | a stream is closed exactly when another flow takes its ID, one is evicted exactly when the table is full and a new ID comes, and all others stay as they are |
| UdpTable.ReusedIdStartsAfresh | backend/internal/intercept/udp.go:125-150 | a reused ID with another flow closes the old stream first, whatever it has seen, and starts a new one under the ruleset in force |
| UdpTable.ClosedStreamsFinished | backend/internal/intercept/udp.go:138-143 | every stream that ever lost its ID to another flow was closed: all analyzers it was created with are finished, after a legal history |
| UdpTable.EveryTableOk | backend/internal/intercept/udp.go:125-150 | the same for every table of every run, and for each stream that left one, closed or evicted, as it was when it left |
| UdpTable.SlotStreamOk | backend/internal/intercept/udp.go:125-150 | whatever the table has handed a stream, the stream keeps its verdict, answer and analyzer invariants |
| UdpTable.FedAsSeen | backend/internal/intercept/udp.go:147-149 | the analyzers of a stream in the table are fed the payloads it was handed, each with the direction it ran in |
| UdpTable.UdpStreamManager.MatchWithContext | backend/internal/intercept/udp.go:125-150 | the new table is that of the specification; verdict and rewritten payload are those of the stream the datagram belongs to |
| Workers.VerdictsInArrivalOrder | backend/internal/intercept/engine.go:106-128 | under every interleaving the verdicts of a stream ID are a prefix of its dispatched packets in arrival order, each at most once, and all of them once its worker's queue has drained |
| Workers.HeldByRemainder | backend/internal/intercept/engine.go:106-128 | over every run a worker holds only packets of IP version 4 or 6 whose stream ID leaves its number as remainder |
| Workers.DispatchSplits | backend/internal/intercept/engine.go:106-128 | the next packet waits at the end of that worker's queue if it is IPv4 or IPv6 and there is room, and is answered at once if it is neither |
| Workers.BypassKeepsOrderIffIdle | backend/internal/intercept/engine.go:106-117 | a packet answered by the dispatcher keeps the order exactly when nothing of its stream ID is pending |
| Workers.InOrderThroughoutIff | backend/internal/intercept/engine.go:106-128 | over every run, all packets of a stream ID, the dispatcher's own included, are answered in arrival order at every moment exactly when the dispatcher never answers one while another of that ID is pending |
| Workers.NoStreamSeesTwoRulesets | backend/internal/intercept/tcp.go:55-83 | no stream is ever matched against two rulesets, however far an update has got |
| Workers.MatchedUnder | backend/internal/intercept/tcp.go:55-83 | over every run a packet taken up is matched once, on its known stream under that stream's ruleset, or on a new one under the ruleset last stored in the factory of its kind |
| Workers.FactoriesHoldLastStores | backend/internal/intercept/worker.go:130-135 | under every interleaving with packets and other updates, a worker's factories hold the rulesets last stored in them, so they agree exactly when those two are the same |
| Workers.SeparateUpdatesAgree | backend/internal/intercept/worker.go:130-135 | when the updates of a worker do not overlap, with anything else in between, both factories hold the ruleset of the last one |
| Workers.OverlappingUpdatesDisagree | backend/internal/intercept/worker.go:130-135 | from any reachable state, two overlapping updates can leave TCP and UDP streams of one worker under different rulesets |
| Workers.InterceptEngine.DispatchPacket | backend/internal/intercept/engine.go:106-128 | one dispatch step of the state machine |
| Workers.InterceptEngine.Round | backend/internal/intercept/worker.go:113-128 | one round of the worker loop is a take step and an answer step, and answers the oldest queued packet |
| Workers.InterceptEngine.UpdateRuleset | backend/internal/intercept/engine.go:92-100 | the update loop is a run of single stores, after which every factory has the new ruleset |
| Trojan.StretchesAreMaximal | backend/internal/analyzer/tcp/trojan.go:70-89 | the stretches alternate in direction, begin and end with the data, and their lengths add up to it |
| Trojan.SplitsDoNotMatter | backend/internal/analyzer/tcp/trojan.go:70-89 | cutting data of one direction into pieces does not change the stretches |
| Trojan.CcsIs | backend/internal/analyzer/tcp/trojan.go:63-66 | the bytes looked for are the record that announces encryption (section 7.1 of RFC 5246) |
| Trojan.CountingBegins | backend/internal/analyzer/tcp/trojan.go:48-92 | counting begins at the first piece of the client's that begins with that record and takes every piece with data from there on |
| Trojan.CutsAfterCcsDoNotMatter | backend/internal/analyzer/tcp/trojan.go:48-92 | after the ChangeCipherSpec any two continuations with the same bytes in the same directions, however cut into pieces, give the same stretches |
| Trojan.TrojanStream.Feed | backend/internal/analyzer/tcp/trojan.go:48-92 | done exactly on a gap or when a fifth stretch begins, and then the report holds the byte lengths of the first four stretches from the ChangeCipherSpec on |
| Trojan.LegalUseStaysInBuffer | backend/internal/analyzer/tcp/trojan.go:70-89 | under a legal call history the index stays inside the four slots at every feed |
| Trojan.NeverLeavesBuffer | backend/internal/intercept/tcp.go:119-192 | so it does in every run of every TCP stream |
| TierKeys.AlignNested | backend/internal/storage/sqlite.go:567 | aligning to a tier and then to the next is aligning to the next |
| TierKeys.AlignIsFloor | backend/internal/storage/sqlite.go:408 | the aligned time is the start of the period from 1970 on, and its end before |
| TierKeys.BoundedKeysInjective | backend/internal/storage/sqlite.go:414 | within explicit bounds on time and node number the key tells time and node apart |
| TierKeys.FewNodesNeverCollide | backend/internal/storage/sqlite.go:414 | below 4096 nodes it does for every 64-bit time, wrap-around included |
| TierKeys.ManyNodesCanCollide | backend/internal/storage/sqlite.go:414 | beyond the bounds two nodes can share a key |
| Rollup.IndexGrows | backend/internal/storage/sqlite.go:410-413 | numbering one more node keeps numbers distinct, from 1 without gaps, and changes no key |
| Rollup.BucketStep | backend/internal/storage/sqlite.go:416-430 | one more row keeps every bucket the node, time, sums and count of exactly the rows with its key |
| Rollup.Scan | backend/internal/storage/sqlite.go:402-432 | after the row loop there is one bucket for each key in use, holding the totals of its rows |
| Rollup.AddRow | backend/internal/storage/sqlite.go:408-430 | numbers the node if new, and adds the row to its bucket or makes one |
| Rollup.Emit | backend/internal/storage/sqlite.go:434-445 | the insertion loop adds one average row for each bucket, in any order of the map |
| Rollup.RollupRowsAreRight | backend/internal/storage/sqlite.go:434-445 | every row added has the node and aligned time of its bucket's first row, rates that times the number of rows give the plain sums, and as flow count the whole part of sum by number, towards zero |
| History.RollupConserves | backend/internal/storage/sqlite.go:376-456 | whatever the keys do, the new rows stand for exactly the samples of the rows they replace |
| History.SelectSplits | backend/internal/storage/sqlite.go:447-453 | deleting by the cutoff removes exactly what was selected by it |
| History.SelectIs | backend/internal/storage/sqlite.go:378-381 | a rollup takes exactly the rows before the cutoff |
| History.SamplesConserved | backend/internal/storage/sqlite.go:376-612 | at every moment of every run of inserts and rollups with any cutoffs, every raw sample is behind exactly one row of one tier, as often as it was inserted |
| History.AverageBetween | backend/internal/storage/sqlite.go:436-438 | an average row's rates and flow count lie between the least and the greatest of the samples behind it |
| History.RowSpans | backend/internal/storage/sqlite.go:408 | a right row of a tier stands at the start of the hour, day or week of each sample behind it |
| History.AttributionIff | backend/internal/storage/sqlite.go:414 | a rollup gives every sample its own node and aligned time, and figures between its samples', exactly when no two buckets collide |
| History.AttributionThroughoutIff | backend/internal/storage/sqlite.go:376-612 | over every run of inserts and rollups, every row of every tier is right about its samples at every moment exactly when no rollup of the run mixes buckets |
| History.RowsSpeakForTheirSamples | backend/internal/storage/sqlite.go:376-612 | so over every run whose keys fit, every row of every tier has the node and the tier's aligned time of all samples behind it, and figures between theirs |
| Collisions.CollidingRun | backend/internal/storage/sqlite.go:402-456 | a run of inserts at 64-bit times and one rollup, before which every row is right about its samples and after which not |
| History.Store.InsertSnapshot | backend/internal/storage/sqlite.go:200-207 | adds one raw row |
| History.Store.Aggregate | backend/internal/storage/sqlite.go:376-456 | selects by cutoff, rolls up, and keeps the rest, also when nothing was selected |
| History.Store.AggregateToHourly | backend/internal/storage/sqlite.go:376-456 | is a rollup step from raw rows to hours |
| History.Store.AggregateToDaily | backend/internal/storage/sqlite.go:536-612 | is a rollup step from hours to days |
| History.Store.AggregateToWeekly | backend/internal/storage/sqlite.go:459-535 | is a rollup step from days to weeks |
| Ledger.BookIsSum | backend/internal/tracker/host_tracker.go:38-63 | a book kept item by item holds, for every key, the plain sum of its items |
| Ledger.ListedAmount | backend/internal/tracker/host_tracker.go:65-74 | a snapshot list, in any order, holds every key's counters once |
| Ledger.ListBook | backend/internal/tracker/host_tracker.go:68-71 | the snapshot loop lists every entry exactly once |
| Ledger.MergeAll | backend/internal/aggregator/aggregator.go:69-113 | the merge loop adds to what is there or makes a new entry, for every item |
| Trackers.HostShare | backend/internal/tracker/host_tracker.go:22-36 | a packet counts once for its source as sent and once for its destination as received, not at all for a missing address, and only as sent for a host talking to itself |
| Trackers.ShareOfHost | backend/internal/tracker/host_tracker.go:22-59 | a host gets the packet's length and one packet, as sent if it is the source, else as received if it is the target |
| Trackers.FlowShare | backend/internal/tracker/flow_tracker.go:59-93 | a packet counts once for its flow key, unless it is ARP, has no protocol or misses an address |
| Trackers.ProtocolShare | backend/internal/tracker/protocol_tracker.go:22-42 | a packet counts once for its protocol name |
| Trackers.ProtocolNamesIdentify | backend/internal/tracker/protocol_tracker.go:24-27 | protocol counters are kept apart by protocol and application, if protocols have no colon |
| Trackers.SharesByFields | backend/internal/tracker/flow_tracker.go:58-105 | so flow and protocol counters grow by the packets with that unordered endpoint pair and protocol, or with that protocol and application, and no others |
| Trackers.HostTracker.Process | backend/internal/tracker/host_tracker.go:22-63 | every host's counters grow by exactly its share of the packet |
| Trackers.HostTracker.Snapshot | backend/internal/tracker/host_tracker.go:65-74 | hands over every counter once and starts again from nothing |
| Trackers.FlowTracker.Process | backend/internal/tracker/flow_tracker.go:59-94 | the flow of the packet is credited and stamped, no other |
| Trackers.FlowTracker.Snapshot | backend/internal/tracker/flow_tracker.go:107-116 | hands over every flow once and starts again from nothing |
| Trackers.FlowTracker.ExpireStale | backend/internal/tracker/flow_tracker.go:118-130 | deletes exactly the flows not seen since the cutoff, and counts them |
| Trackers.ProtocolTracker.Process | backend/internal/tracker/protocol_tracker.go:22-42 | every protocol's counters grow by exactly its share of the packet |
| Trackers.ProtocolTracker.Snapshot | backend/internal/tracker/protocol_tracker.go:44-59 | hands over every counter once and starts again from nothing |
| Aggregator.MergeAdds | backend/internal/aggregator/aggregator.go:60-157 | merging a report adds, for every host, flow and protocol, exactly what the report holds of it |
| Aggregator.RegisteredIs | backend/internal/aggregator/aggregator.go:244-278 | after a registration the node has all the names told, after those it had; all these interfaces are open; no counter changes, and no other node |
| Aggregator.AddedNames | backend/internal/aggregator/aggregator.go:253-260 | names already known are not added again |
| Aggregator.IfaceState.UpdateFrom | backend/internal/aggregator/aggregator.go:60-157 | the three merge loops on the object are that merge |
| Aggregator.NodeState.GetOrCreateIface | backend/internal/aggregator/aggregator.go:46-58 | returns the interface's own object, empty if new; no counter changes |
| Aggregator.NodeState.Update | backend/internal/aggregator/aggregator.go:363-384 | merges a part into the interface it is routed to and into no other |
| Aggregator.Aggregator.RegisterNode | backend/internal/aggregator/aggregator.go:244-278 | a known node keeps its counters and gains names; a new one starts empty; other nodes stay |
| Aggregator.Aggregator.Ingest | backend/internal/aggregator/aggregator.go:297-385 | both message forms update the one node as the specification says; other nodes stay |
| Accounting.DrainMoves | backend/internal/reporter/grpc_client.go:253-314 | building a message moves exactly what is pending in each interface's trackers into it |
| Accounting.RoutedParts | backend/internal/aggregator/aggregator.go:363-367 | unnamed parts are booked under the node's first interface name, if it has one; all others under their own |
| Accounting.IngestedWorth | backend/internal/aggregator/aggregator.go:297-385 | what a message adds to each counter: its parts of that name, or its own report if it has none, with unnamed ones under the first name; other nodes stay |
| Accounting.NamesGrow | backend/internal/aggregator/aggregator.go:244-278 | no step changes a node's first interface name once there is one |
| Accounting.GapStep | backend/internal/aggregator/aggregator.go:297-385 | of all steps only the delivery of unnamed parts can shift counters between interfaces |
| Accounting.Conserved | backend/internal/aggregator/aggregator.go:60-157 | for every schedule of process, drain, deliver, lose, expire and register steps, every node and interface, and every host, flow and protocol: server total plus pending plus under way plus dropped plus expired equals the plain sum over the packets, but for the unnamed parts booked under the first interface, to the byte |
| Accounting.NamedConserved | backend/cmd/agent/main.go:69-77 | when no drained part of the node is unnamed, as with the program's agent, the two are equal for every interface, the first included |
| Accounting.FirstConservedIff | backend/internal/aggregator/aggregator.go:363-367 | a counter of the node's first interface is right exactly when no unnamed part that counts was delivered since there was one |
| Accounting.UnnamedPartStrays | backend/internal/aggregator/aggregator.go:363-367 | a schedule after which the first interface holds the bytes of a packet it never saw, and the unnamed one lacks them |
| Accounting.ConservedFirst | backend/internal/aggregator/aggregator.go:315-318 | named or not, the sums of the first interface and the unnamed one together are kept, or those of the unnamed one alone while there is no first |
| FlowRecords.SameSumsNamed | backend/internal/aggregator/aggregator.go:555-572 | lists with the same sums per flow tuple have the same sums per flow ID, also when IDs coincide |
| FlowRecords.IdIdentifies | backend/internal/aggregator/aggregator.go:512 | flow IDs are equal exactly for the same node, endpoints in this direction, and protocol |
| FlowRecords.MergeLocal | backend/internal/aggregator/aggregator.go:530-572 | merging a batch's local map, in any order, is merging its items one by one |
| FlowRecords.TotalsAreSums | backend/internal/aggregator/aggregator.go:404-573 | host and flow totals are the old ones plus the plain sums over the records |
| FlowRecords.FlowTotalsAreSums | backend/internal/aggregator/aggregator.go:404-573 | the total of a flow grows by the plain sums of bytes and packets over the records of that node with these addresses, ports and protocol |
| FlowRecords.BatchesAgree | backend/internal/aggregator/aggregator.go:404-573 | any way of cutting a record sequence into batches gives the same totals |
| FlowRecords.FlowTotals.IngestFlowRecords | backend/internal/aggregator/aggregator.go:404-573 | the two-phase batch leaves the totals of taking its records one at a time |
| FlowRecords.FlowTotals.Gather | backend/internal/aggregator/aggregator.go:415-528 | the first phase fills the local maps with the sums of the batch |
| FlowKeys.DecimalReads | backend/internal/tracker/tcp_metrics.go:64-75 | decimal printing can be read back, so it is injective, and has digits only |
| FlowKeys.Itoa16 | backend/internal/tracker/tcp_metrics.go:64-75 | the digit loop prints the decimal |
| FlowKeys.LessIs | backend/internal/tracker/flow_tracker.go:101 | the order of strings: byte by byte, a prefix first |
| FlowKeys.KeysIgnoreDirection | backend/internal/tracker/flow_tracker.go:96-105 | swapping the endpoints gives the same key |
| FlowKeys.FlowKeyIdentifies | backend/internal/tracker/flow_tracker.go:96-105 | two flow keys are equal exactly for the same unordered endpoint pair and protocol |
| FlowKeys.TcpFlowKeyIdentifies | backend/internal/tracker/tcp_metrics.go:56-62 | two TCP keys are equal exactly for the same unordered endpoint pair |
| TcpSequences.UpdateSeqDirection | backend/internal/tracker/tcp_metrics.go:144-183 | one segment moves the maximum and the counters as specified; a bare ACK does nothing |
| TcpSequences.NeverAllLost | backend/internal/tracker/tcp_metrics.go:144-183 | whatever arrives, fewer segments count as lost than were expected |
| TcpSequences.LostIsMisplaced | backend/internal/tracker/tcp_metrics.go:144-183 | on every run whose numbers do not wrap, in any order, lost is the number of segments after the first that do not begin at the largest end of all earlier ones |
| TcpSequences.LostIsGaps | backend/internal/tracker/tcp_metrics.go:144-183 | so on ordered runs it is the number of gaps |
| TcpSequences.DirectionsDiffer | backend/internal/tracker/tcp_metrics.go:108-116 | the two directions of a flow use different sequence maxima |
| TcpSequences.GaplessCountsNothingIff | backend/internal/tracker/tcp_metrics.go:144-183 | a run without a gap, of any length, counts nothing as lost exactly when no later segment begins at or beyond the end of the 2^32 numbers in which its first segment ended |
| TcpSequences.OneLapCounts | backend/internal/tracker/tcp_metrics.go:144-183 | while a run without a gap sends less than 2^32 numbers, it counts exactly the segments that begin there or beyond |
| TcpSequences.WrapCounts | backend/internal/tracker/tcp_metrics.go:144-183 | three adjoining segments across the wrap, of which one counts as lost |
| Cooldown.DurationIs | backend/internal/alerting/engine.go:132 | the 64-bit product is the configured cooldown exactly up to 153722867 minutes either way |
| Cooldown.FiresAreSpaced | backend/internal/alerting/engine.go:127-148 | over every run with changing thresholds and both prunings, two fires of a fingerprint are more than the cooldown at the later one, or ten minutes if that is less, apart |
| Cooldown.FiresIff | backend/internal/alerting/engine.go:127-133 | with a cooldown of at most ten minutes a due alert fires exactly when every earlier fire of its fingerprint is further back than the cooldown, both as the 64-bit product gives it |
| Cooldown.LongCooldownForgotten | backend/internal/alerting/engine.go:50-66 | whatever the cooldown, there is a run in which a second fire comes through a moment after ten minutes |
| Cooldown.ProductKeptIff | backend/internal/alerting/engine.go:127-148 | the cooldown the program computes, wrapped or not, is kept in every run exactly when it is at most ten minutes |
| Cooldown.CooldownKeptIff | backend/internal/alerting/engine.go:127-148 | the configured cooldown, for every number of minutes, is kept in every run exactly when it is at most ten |
| Cooldown.RecordingLeavesOthers | backend/internal/alerting/engine.go:135-148 | recording one fingerprint never silences another |
| Cooldown.CleanedUp | backend/internal/alerting/engine.go:135-148 | after a fire the table has more than 2000 entries only if all are at most ten minutes old, and an older one only if the last clean-up is not |
| Cooldown.AlertThrottle.CheckFire | backend/internal/alerting/engine.go:127-133 | the check on the object |
| Cooldown.AlertThrottle.RecordFire | backend/internal/alerting/engine.go:135-148 | records the fire, and cleans up when crowded or after ten minutes |
| Cooldown.AlertThrottle.CleanUp | backend/internal/alerting/engine.go:141-145 | the loop deletes exactly the fires of more than ten minutes ago |
| PortScans.SplitNodeIP | backend/internal/alerting/engine.go:746-753 | the loop splits at the last colon |
| PortScans.SplitIff | backend/internal/alerting/engine.go:294 | splitting undoes building the key exactly when the address has no colon |
| PortScans.ColonsCollide | backend/internal/alerting/engine.go:294 | two sources with the same key, and the wrong one named |
| PortScans.WindowIs | backend/internal/alerting/engine.go:305 | the window is the configured number of seconds exactly up to 9223372036 either way |
| PortScans.EntriesBacked | backend/internal/alerting/engine.go:292-308 | an entry's ports are exactly those seen since the check that made it, and no check since found it idle for longer than the window |
| PortScans.AlertsAreSound | backend/internal/alerting/engine.go:288-336 | behind every alert of every run are as many distinct ports as it says, at least the threshold, seen since one check, with no idle gap longer than the window at any check |
| PortScans.SuspiciousIff | backend/internal/alerting/engine.go:304-309 | an entry is due exactly when the distinct ports since the check that made it reach the threshold and the last sighting is within the window |
| PortScans.DroppedWhenCrowded | backend/internal/alerting/engine.go:331-336 | an entry neither stale nor reported is dropped only while more than 5000 are left, and then just one |
| PortScans.AlertsNameTheSource | backend/internal/alerting/engine.go:310 | among addresses without a colon the key stands for one source, which the alert names |
| PortScans.NamedSourceScanned | backend/internal/alerting/engine.go:288-336 | so on every run without colons in addresses the alert is sound for the source it names: exactly as many distinct ports from there as it says, at least the threshold, since one check, and never idle longer than the window at any check |
| PortScans.FingerprintsDiffer | backend/internal/alerting/engine.go:311 | different keys have different fingerprints |
| PortScans.PortScanner.CheckPortScan | backend/internal/alerting/engine.go:288-336 | records the flows, reports each suspicious key at most once and each one the cooldown does not hold back, drops reported and stale entries and at most one more |
| PortScans.PortScanner.ReviewOne | backend/internal/alerting/engine.go:304-328 | an entry is reported exactly when it is fresh, has enough ports and is not held back |
| RtpSessions.LossInOrder | backend/internal/tracker/voip_tracker.go:117-128 | across one gap of at most 32767 missing packets, with or without a wrap, the counter grows by their number, unless the last number was 0 |
| RtpSessions.LossOverRun | backend/internal/tracker/voip_tracker.go:117-129 | over every in-order run the counter is the number of missing packets less those directly after number 0 |
| RtpSessions.GapCountedIff | backend/internal/tracker/voip_tracker.go:117-128 | the exact condition, for a gap of any size, under which the counter is right |
| RtpSessions.LateAddsNothingIff | backend/internal/tracker/voip_tracker.go:117-129 | a packet that is late or a copy adds nothing exactly when the last number is 0 or the number after it lies in the same 65536 as the late one |
| RtpSessions.LateThenNext | backend/internal/tracker/voip_tracker.go:117-129 | what a late packet and the next one in order add, on any run before them |
| RtpSessions.LateCountedIff | backend/internal/tracker/voip_tracker.go:117-129 | exactly when the two add what is really missing |
| RtpSessions.LatePacketCounts | backend/internal/tracker/voip_tracker.go:117-129 | out of order, a packet that arrived counts as lost; across the wrap a swap of two counts 65534 and a copy 65535 |
| RtpSessions.JitterOverRun | backend/internal/tracker/voip_tracker.go:94-112 | over every run the running jitter stays between 0 and the largest deviation, and so does the mean |
| RtpSessions.JitterFollows | backend/internal/tracker/voip_tracker.go:94-115 | on every run the estimate moves a sixteenth of the way to the distance between arrival and timestamp spacing (section 6.4.1 of RFC 3550), and sum and largest follow; the second packet and one after timestamp 0 do not count |
| RtpSessions.SteadyHasNoJitter | backend/internal/tracker/voip_tracker.go:94-115 | packets that arrive as evenly as they were sent have no jitter |
| RtpSessions.BackwardRightIff | backend/internal/tracker/voip_tracker.go:98-100 | for a packet with an earlier timestamp the distance is right only if the 8192 milliseconds added cancel out |
| RtpSessions.CountersOfRun | backend/internal/tracker/voip_tracker.go:67-92 | packets, bytes, last arrival and codec of a session over every run |
| RtpSessions.VoipTracker.Process | backend/internal/tracker/voip_tracker.go:61-130 | a known session is carried on, a new one opened, evicting a least recently seen one when the table is full; no other session changes |
| RtpSessions.VoipTracker.EvictOldest | backend/internal/tracker/voip_tracker.go:132-146 | removes one session seen longest ago |
| Mos.CubicMonotone | backend/internal/tracker/voip_tracker.go:317 | from where the cubic reaches 1 it only rises, and never above 4.5 |
| Mos.RatingMonotone | backend/internal/tracker/voip_tracker.go:302-324 | through clamps, cubic and two-decimal cut the score lies in 1.0 to 4.5 and rises with the rating |
| Mos.PenaltiesExchange | backend/internal/tracker/voip_tracker.go:284-300 | jitter up to 30 and delay up to 150 milliseconds are free; beyond, one percent of loss costs what 15 milliseconds of jitter or 30 of delay cost |
| Mos.CleanScores | backend/internal/tracker/voip_tracker.go:264-287 | the score of a clean call for each codec, and of one percent of loss |
| Mos.LossPercentIs | backend/internal/tracker/voip_tracker.go:200-206 | the percentage is lost by received packets, at most 100 |
| Mos.WorseNeverScoresBetter | backend/internal/tracker/voip_tracker.go:262-325 | for one codec, more loss, jitter or delay never gives a better score |
| Mos.WorseSessionNeverScoresBetter | backend/internal/tracker/voip_tracker.go:200-210 | the same for the scores of two sessions alike but for loss and jitter |
| Mos.CubicDipsBelowOne | backend/internal/tracker/voip_tracker.go:317-320 | the lower clamp is needed: below a rating of 6.5 the cubic is under 1, and it first falls |
| Mos.Summary | backend/internal/tracker/voip_tracker.go:245-255 | the loop yields the least score and the mean |
| Mos.MeanBetween | backend/internal/tracker/voip_tracker.go:252-254 | the mean lies between bounds of the scores |
| Sni.ExtractTlsSni | backend/internal/capture/analyzer.go:367-440 | on arbitrary bytes the parser ends with every index in bounds and agrees with its specification |
| Sni.ScanExtensions | backend/internal/capture/analyzer.go:416-439 | the extension loop agrees with the recursive scan |
| Sni.RoundTrip | backend/internal/capture/analyzer.go:367-440 | for every well-formed single-record ClientHello (section 4.1.2 of RFC 8446), with anything after it, the result is exactly what the message says: the first name of its first server name list (section 3 of RFC 6066) if that is a non-empty host name, else none |
| Sni.HostNameFound | backend/internal/capture/analyzer.go:416-439 | so a host name first in its list is found after any other extensions |
| Sni.OverlongBlockNamed | backend/internal/capture/analyzer.go:411-415 | a total length of the extensions beyond the end of the message does not keep the name from being found |
| Sni.RestFollows | backend/internal/capture/analyzer.go:371-380 | bytes after the record really just follow it in the encoding used |
| Sni.FoundNameStands | backend/internal/capture/analyzer.go:367-440 | whatever the bytes, a name that is found stands in a server_name extension, after its length, the kind of host names, and list and extension lengths that contain it |
| DnsNames.ParseDnsName | backend/internal/capture/analyzer.go:506-529 | the loop ends with every index in bounds and joins the labels up to a zero, an overlong length or the end |
| DnsNames.NameRoundTrip | backend/internal/capture/analyzer.go:506-529 | the labels of every uncompressed query name are read back, whatever the header and what follows |
| DnsNames.LabelsStand | backend/internal/capture/analyzer.go:506-529 | whatever the bytes, what is read are labels standing one after the other, up to where none begins: a zero, a length of 64 or more, a label cut off, or the end |
| DnsNames.JoinIdentifies | backend/internal/capture/analyzer.go:528 | the printed name tells apart all names whose labels have no dot |
| Hub.SafeIff | backend/internal/api/hub.go:37-79 | the one step that makes a crash possible is registering a client whose channel is closed |
| Hub.SafeRunIff | backend/internal/api/hub.go:37-79 | over every run, the hub stays safe on a client exactly when the client is not registered again after an unregistration that followed a registration |
| Hub.UnsafeCrashes | backend/internal/api/hub.go:37-79 | after it the next broadcast or unregistration crashes the hub |
| Hub.OnceIsSafe | backend/internal/api/hub.go:37-79 | in any order of events with at most one registration, a channel is never sent to after closing nor closed twice, and the client is sent strictly increasing broadcasts, which it takes in order |
| Hub.OneOldMessage | backend/internal/api/hub.go:45-53 | at most one of them, the latest, is from before the registration, and it comes first |
| Hub.GreetedWithLatest | backend/internal/api/hub.go:45-53 | and if there was a broadcast before, it is sent the latest one first |
| Hub.OnlyFullBuffersMiss | backend/internal/api/hub.go:69-75 | every broadcast while registered was sent or found the buffer full, never both |
| Hub.MissedIff | backend/internal/api/hub.go:69-75 | a broadcast is missed exactly when 256 messages are waiting |
| Hub.LastOneWins | backend/internal/api/hub.go:38-61 | of one registration and one unregistration the one handled last decides |
| Hub.Client.TrySend | backend/internal/api/hub.go:70-74 | a send that does not wait: into the buffer, or dropped when full; a panic on a closed channel |
| Hub.EventLoop.OnRegister | backend/internal/api/hub.go:40-53 | the registration step on the object is that of the per-client view |
| Hub.EventLoop.OnUnregister | backend/internal/api/hub.go:55-61 | the unregistration step likewise |
| Hub.EventLoop.OnBroadcast | backend/internal/api/hub.go:63-76 | every registered client is offered the message once; a panic exactly when one has a closed channel |

## Left out

- Entries.FeedStep: entries are values in sequences, not shared pointers, and property maps are copied, so that a replaced map shared between an analyzer and the stream is not captured.
- UdpTable.UdpStreamManager.MatchWithContext: the table holds each stream's history, from which its state follows, instead of a reference to a `UdpStream` object; a closed stream's final analyzers are computed from that history.
- Workers.VerdictsInArrivalOrder: covers packets that go to a worker; with those the dispatcher answers itself it is `Workers.InOrderThroughoutIff`. A stopped worker, whose queue never drains, is not modelled.
- Workers.InterceptEngine.UpdateRuleset: the method is the loop with nothing else in between; interleavings are the subject of `Workers.FactoriesHoldLastStores`. Failure of a factory to take a ruleset is not modelled; the factories always succeed.
- Trojan.TrojanStream.Feed: the flag for a check of the first bytes is never set by the constructor, so that check is dead code and not modelled; the decision tree over the four lengths is a parameter.
- History.RowsSpeakForTheirSamples: states one direction, for histories whose keys fit; the exact condition is that of `History.AttributionThroughoutIff`.
- History.Store.Aggregate: SQL text, driver, row order and failures part-way through a rollup are not modelled; a rollup is one step over table contents.
- Accounting.Conserved: counters are unbounded numbers, where the program has 64-bit ones; an agent's restart is a drain that is then lost. MD5 flow IDs are taken to be injective, so flows are keyed by their key strings. One step drains or merges all three trackers of an interface at once, where the program takes their locks one after the other, and merges outside the node's lock.
- Aggregator.IfaceState.UpdateFrom: only byte and packet counters; last-seen times, names, percentages, DNS queries, size distribution and TCP metrics are overwritten or derived values. A message without a snapshot is not modelled.
- FlowRecords.FlowTotals.IngestFlowRecords: totals are keyed by node and printed name, one flat map for the nested ones; active-flow counts and snapshot rates are left out.
- Trackers.FlowTracker.Process: application protocol names are not merged.
- RtpSessions.VoipTracker.Process: sessions are values in the table, not shared pointers.
- Cooldown.FiresAreSpaced: clock differences do not saturate as the program's do after 292 years.
- PortScans.PortScanner.CheckPortScan: the clock is read once per check, and the table's entries are values. Alerts are not sent to a channel that may be full.
- Sni.RoundTrip: the record must hold the whole message; a ClientHello over several records or segments is not found by the program either.
- Stale alert removal, the other detectors of the alerting engine, and alert texts.
- Clean-up of old rows by age, and the averaging of query results into windows.
- TCP round-trip times, flag counts and expiry in the TCP metrics tracker.
- Packet capture, reassembly, nfqueue, rewriting and serialising packets, gRPC, websockets, SNMP, GeoIP, rule compilation and the other stream analyzers: foreign or without deep properties here.
- The frontend, HTTP handlers, configuration, authentication, discovery and exports.
