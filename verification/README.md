# Verification of the eob-mcp aggregation and streaming core

This project models the stateful parts of eob-mcp, the on-site MCP server that watches a
deception sensor, and proves what they keep in every run.

| module | what it models |
|---|---|
| `Text`, `Lists` | decimals, separators, sums over maps, ranked truncation |
| `Endpoints` | the cluster snapshot index and its lookup (`internal/service/resolve_endpoints.go`) |
| `EastWest` | the service-call graph (`internal/service/east_west_graph.go`) |
| `BrokerProtocol`, `Broker`, `BrokerRefinement` | the audit fan-out, as a concurrent protocol, as an object, and the object's calls as runs of the protocol (`internal/audit/broker.go`) |
| `EventStream`, `EventServer` | the merge of the cluster's events and the audit events, as values and as a method over a broker that others use meanwhile (`internal/service/event_stream.go`) |
| `Journey`, `JourneyRuns` | the probe-journey aggregator as values and over whole runs (`internal/service/journey.go`) |
| `Rings`, `JourneyObject` | the same aggregator as an object with slices over shared arrays and records behind pointers |
| `Sampler` | the goroutine that checks, builds, installs and samples, with messages coming in at any point |
| `Lifecycle` | the aggregator's Start, Close and sampler |
| `Tail`, `TailGaps`, `TailStream` | the live tail's hand-off of messages (`internal/streams/nats.go`, `internal/service/tail_stream.go`) |
| `Envelopes`, `Reading` | the bounded read of a stream's window (`internal/streams/nats.go`, `internal/service/stream_read.go`) |
| `Discover` | site, tenant and region from resolv.conf (`internal/config/discover.go`) |

`dafny verify dfyconfig.toml` checks all of it.

## How the pieces fit

**Journey.** The aggregator is a lock-protected state machine. `Journey` says as values what
each critical section does; a run is any sequence of them, each with the time its caller
read before taking the lock, so an event may be later than the sample that follows it, and
messages may come between the check, the unlocked build and the installation of an index.
`JourneyRuns` proves what a run shows against the run's own history, which the aggregator
does not have: each chart is the last 120 of the counts since its channel became active,
everything charted, discarded or pending adds up to the denials, and every shown name is what
a scan of the last cluster snapshot gives. `JourneyObject.Dashboard` has the fields of the
source's struct; each of its methods is proved to take the matching step. The charts are Go
slices over shared arrays: `snapshot` hands them out without copying and they are encoded
after the mutex is released. `Rings` shows why that is sound. Every backing array is an
append-only log and each live slice ends where its array's log ends, so no append, reallocation,
re-slicing or re-creation of a channel writes a cell that an earlier slice shows. `Rings.Append`
names the one cell it writes, which lies past everything written before. So at the end of
any sequence of critical sections and snapshots the slices of every report still show, in memory,
the charts of the moment the report was made (`JourneyObject.Dashboard.Drive`). `Sampler` composes
check, unlocked build, installation and sample, and proves that its runs have the properties that
the results on refreshes and names ask of a run.

**Endpoint index and graph.** The four maps agree, for every address string and every signed
port, with a last-match scan of the lists that never builds a key; this rests on `"%s:%d"`
being injective, colons in the address included. The graph's key `ns|src|ip|port` is not
injective in general: the graph is exact if and only if no two sampled edges collide, and
namespaces without `|` (labels of section 2.1 of RFC 1123) are enough.

**Broker and EventStream.** Publishers hold only the read lock, so the protocol interleaves
them subscriber by subscriber. No send meets a closed channel, no channel closes twice, and
each subscriber's accounts balance: it is offered each publisher's events in order, and lacks
one only for each time its buffer was full. `BrokerRefinement.Traced` keeps, beside a broker
object, the run of the protocol that its calls amount to: Publish, Subscribe, Cancel and Receive
each extend it by their own actions, and the object's channels hold what the protocol's do.
`EventServer.Serve` is proved against the loop as values. The loop's output is tied to what came
in: its cluster part is exactly the events the watch brought before it was closed, its audit part
those published while the subscription stood, short of overflows of the channel; and the other
subscribers, who publish, take, leave and join at any point, are at its end exactly where they
would be without it.

**Tail.** The consumer's callback, the cleanup goroutine and the reader are actions of one
protocol. Accepted and lost messages merge, in order, into what the consumer delivered;
nothing is lost before the cancel; the reader's view has no hole exactly when no message is
pushed after one was dropped, and `TailGaps.GapReachableIff` says from which states that can still
happen. `TailStream.Session` is the object whose methods take these actions.

**Bounded read.** `Reading.Read` and `Reading.StreamRead` return the first wanted messages of
the window, which is a filter of the log.

## Where the code and its comments differ

The model follows the code.

- `EventStream` does not end when both sources have closed: the check at
  `internal/service/event_stream.go:87` is reached only after a Send, so from a source that is
  still there. `EventStream.EndsOnlyWhenCancelled` states it, and `EventStream.OutlivesItsSources` gives the
  input: source k8s, with the watch closed by the server. The audit channel is never found closed
  at all (`EventStream.StaysSubscribed`).
- `Tail` does not close its channel when the consumer stops by itself, as the comment at
  `internal/streams/nats.go:159-161` has it; the cleanup waits for the context only.
  `Tail.OpenUntilCancelled` states it for every continuation, and so `TailStream` does not end
  then either (`internal/service/tail_stream.go:19-20`).
- After a cancel a tail reader may see a gap: `TailGaps.GapAfterCancel` is a run,
  `TailGaps.NoGapIff` says exactly when there is none.
- A ReplicaSet is reported under its Deployment's name only when the template hash is made of
  hexadecimal digits (`Endpoints.DeploymentRecoveredIffHexHash`); Kubernetes also uses other
  letters.
- Two edges of the east-west graph can share a row (`EastWest.KeyClash`).
- With a filter, a read may return fewer messages than asked for while more match, because the
  overshoot is finite (`Reading.LateMatchIsMissed`, `Reading.AnswerExactIff`).
- A channel whose first sample comes late stays in `lastSeen` without a chart
  (`Journey.LateFirstSampleLeavesResidue`; exactly then, `Journey.NoResidueIffFirstTimely`), and
  its pending count is discarded (`JourneyRuns.ConservationIffTimely`).
- A line counts as a search line if and only if its first word starts with "search", even if that
  is not all of the word (`Discover.TokensOfAnyLine`).
- A second Start whose Subscribe fails drops the connection of the first, successful one; Close then
  returns at once and the sampler runs on (`Lifecycle.FailedRestartStrands`, and exactly when:
  `Lifecycle.LeaksIffStranded`).

## Model

| member | source | states |
|---|---|---|
| `JourneyObject.Dashboard.Drive` | internal/service/journey.go:236-387 | after any sequence of critical sections and snapshots the object's state is that of the run, and every slice ever handed out, midway ones included, still shows in memory its channel's chart of that moment |
| `JourneyObject.Dashboard.TakeCall` | internal/service/journey.go:326-340 | a snapshot changes no state, and each slice of its report is on record with the chart of that moment |
| `JourneyObject.Dashboard.Encode` | internal/service/journey.go:319-324 | encoding a handed-out slice, however long after unlocking, yields what it showed at the snapshot |
| `JourneyObject.Dashboard.TakeStep` | internal/service/journey.go:177-306 | each critical section takes its step; logs of backing arrays only grow |
| `JourneyObject.Dashboard.constructor` | internal/service/journey.go:110-121 | the new object is in the initial state, with nothing handed out |
| `JourneyObject.Dashboard.OnMessage` | internal/service/journey.go:177-217 | one message takes the message step, and writes no chart cell |
| `JourneyObject.Dashboard.CountEvent` | internal/service/journey.go:194-216 | one event is counted on its channel, its alarm and its prober |
| `JourneyObject.Dashboard.CountOnChannel` | internal/service/journey.go:194-200 | count, time and substitute of the event's channel only |
| `JourneyObject.Dashboard.CountAlarm` | internal/service/journey.go:201-206 | Tarpit and DecoyHit each bump their own counter |
| `JourneyObject.Dashboard.CountOnProber` | internal/service/journey.go:207-216 | the prober's record is created on first sight and updated in place; no host, no record |
| `JourneyObject.CountProberStat` | internal/service/journey.go:207-216 | only that prober's record changes; records are never shared |
| `JourneyObject.Dashboard.Sample` | internal/service/journey.go:240-282 | a sample takes the sample step and disturbs no slice handed out |
| `JourneyObject.Dashboard.SampleChannels` | internal/service/journey.go:247-268 | charts rolled, silent channels forgotten, counts reset |
| `JourneyObject.Dashboard.SampleProbers` | internal/service/journey.go:272-281 | silent probers pruned, unnamed ones named from the installed index |
| `JourneyObject.ActiveChannels` | internal/service/journey.go:247-252 | the set of channels heard from within 20 s, whatever the map order |
| `JourneyObject.RollCharts` | internal/service/journey.go:253-267 | after both channel loops each active channel's chart has its new value and the silent ones are gone |
| `JourneyObject.AppendAll` | internal/service/journey.go:253-260 | in whatever order the active channels come, each chart gets one value and is cut to 120 |
| `JourneyObject.DropIdle` | internal/service/journey.go:261-267 | exactly the charted silent channels leave series, lastSeen and lastSub |
| `JourneyObject.PruneAndName` | internal/service/journey.go:272-281 | the loop over the probers prunes and names as the sample step says, in any order |
| `JourneyObject.RenameAll` | internal/service/journey.go:301-304 | every record gets the name the new index gives |
| `JourneyObject.Dashboard.CheckIndex` | internal/service/journey.go:288-293 | whatever run led here, the index is found stale exactly when that run has no installation whose captured time is within 30 s |
| `JourneyObject.Dashboard.InstallIndex` | internal/service/journey.go:297-305 | installation takes the install step, renaming everyone |
| `JourneyObject.Dashboard.Snapshot` | internal/service/journey.go:326-387 | the report: chart slices on record with what they show; the newest value of each chart and their sum; one row for each prober with its address, denials and last decision and its name, or external while unnamed; the eight most denied; the totals and the mode; the state is unchanged |
| `JourneyObject.RowsTellTheRun` | internal/service/journey.go:342-352 | in terms of the run: a row's count is that of its address's events since it was last silent past the TTL, its decision that of the last event, its name what the last listed cluster gives; every such address has a row |
| `JourneyObject.ListedRowsTell` | internal/service/journey.go:342-352 | listing the probers in any order gives each its row, field by field |
| `JourneyObject.RankProbers` | internal/service/journey.go:342-358 | a permutation of all rows in descending order, cut to the eight most denied, which carry their share of the denials |
| `JourneyObject.CollectProbers` | internal/service/journey.go:342-352 | one row per prober, each telling the record's own fields, unnamed ones as external |
| `JourneyObject.NewestValues` | internal/service/journey.go:331-340 | the newest value of every chart and their sum |
| `Rings.Append` | internal/service/journey.go:255 | append in place or on a larger copy: the slice shows one value more and only the log of one array grows, at its end; of the arrays that were there at most one cell is written, and it lies past that array's log |
| `Rings.AppendSample` | internal/service/journey.go:254-259 | a channel's chart gains the value and keeps its last 120; the other charts, and every slice handed out, are as before, since the one cell written is shown by none of them; no two charts share an array |
| `Rings.UnshownIsNotCovered` | internal/service/journey.go:255 | a cell past the log of its array is in no slice handed out |
| `Rings.CutShowsTheLast` | internal/service/journey.go:256-258 | re-slicing shows the last 120 values and leaves the slice live on its array |
| `Rings.GrowingKeepsViews` | internal/service/journey.go:334-335 | when logs only grow, every slice handed out keeps showing what it showed |
| `Rings.StoreKeepsOthers` | internal/service/journey.go:259 | storing one channel's slice leaves the others' charts and keeps arrays separate |
| `JourneyRuns.RingRefinesHistory` | internal/service/journey.go:247-260 | each live chart is the last 120 of the unbounded per-interval counts since its channel last became active |
| `JourneyRuns.ChartsAreTheChannelsHeard` | internal/service/journey.go:247-267 | after a sample a channel has a chart exactly when its last event is within 20 s |
| `JourneyRuns.LastSeenIsLastEvent` | internal/service/journey.go:195 | lastSeen is the last event; a channel absent from it was already silent past the window |
| `JourneyRuns.PendingCounts` | internal/service/journey.go:194 | the pending count of a channel is its number of events since the last sample |
| `JourneyRuns.WhatCounts` | internal/service/journey.go:177-193 | a probe that decodes counts as one denial, on its own channel, unless its channel is 0; a message that does not decode changes nothing |
| `JourneyRuns.DenialLedger` | internal/service/journey.go:192-268 | in every run: appended to charts + discarded + pending = totalDenied |
| `JourneyRuns.ConservationIffTimely` | internal/service/journey.go:247-268 | charts and pending counts account for every denial if and only if each sample came within 20 s of the last event of every channel with pending events |
| `JourneyRuns.TimelyByHistory` | internal/service/journey.go:247-261 | both kinds of timeliness in terms of the events alone: every channel heard since the last sample (for the second kind: and without a chart) was heard within 20 s |
| `JourneyRuns.NothingLostIffTimely` | internal/service/journey.go:261-268 | nothing was discarded if and only if every sample was timely |
| `JourneyRuns.SampleMovesCounts` | internal/service/journey.go:253-268 | a sample moves each pending count onto a chart or discards it |
| `JourneyRuns.HeadlineRate` | internal/service/journey.go:333-340 | right after a sample the headline rate is the number of events since the previous sample, if and only if that sample is timely |
| `JourneyRuns.PendingSum` | internal/service/journey.go:194 | pending counts sum to the events since the last sample |
| `JourneyRuns.ProberLedger` | internal/service/journey.go:207-276 | totalDenied = denials of live probers + of pruned ones + events without a host |
| `JourneyRuns.ProberCountsItsEvents` | internal/service/journey.go:207-276 | a live prober's row counts exactly the events from its address since it was last silent past the TTL, and shows the last one |
| `JourneyRuns.PortDoesNotSplitAProber` | internal/service/journey.go:189 | whatever port it probes from, an address is one prober |
| `JourneyRuns.AlarmCounts` | internal/service/journey.go:201-206 | the alarm counters are the numbers of Tarpit and DecoyHit events, together at most totalDenied |
| `JourneyRuns.SignalsAndMode` | internal/service/journey.go:178-197 | threats is the number of threat messages, and lastEventAt the time of the last event, in every run |
| `JourneyRuns.LastSubIsLastShown` | internal/service/journey.go:198-265 | the payload kept for a channel is the last non-empty one since its chart was last dropped, sanitized |
| `JourneyRuns.RefreshesAreSpaced` | internal/service/journey.go:284-306 | although check and installation are separate critical sections with messages in between, the times captured by two installing samples are more than 30 s apart |
| `JourneyRuns.StaleIffNoRecentInstall` | internal/service/journey.go:289 | in every run the stored build time is that of the last installation, so stale means none in the last 30 s |
| `Sampler.SampleLoop` | internal/service/journey.go:222-306 | a fresh object through any number of wakeups, with messages at any point, follows their run; each index is built exactly when called for, from the cluster listed then |
| `Sampler.Wake` | internal/service/journey.go:236-306 | one call of sample: check, unlocked build, installation and sample, with messages before, between and after |
| `Sampler.Rebuild` | internal/service/journey.go:284-296 | an index is built if and only if there is a cluster and the check finds none of the last 30 s, and it is that cluster's |
| `Sampler.SamplerRunsAreSampled` | internal/service/journey.go:222-306 | every run of the sampler installs only after a check, only indexes built from the listed clusters, and samples in order |
| `Sampler.CheckJustifies` | internal/service/journey.go:288-299 | the check before the messages in between justifies the installation after them |
| `JourneyRuns.StillStale` | internal/service/journey.go:288-299 | what the check found still holds when the lock is taken again |
| `JourneyRuns.NamesAlwaysCoherent` | internal/service/journey.go:277-304 | in every reachable state each name is empty or what the installed index gives for the address at port 0; after an install or a sample with an index nobody is unnamed |
| `JourneyRuns.NamesComeFromTheLastSnapshot` | internal/service/journey.go:284-306 | a shown name is what a scan of the last installed cluster snapshot gives, host-network pods playing no part |
| `JourneyRuns.InstalledIndex` | internal/service/journey.go:297-299 | the installed index is that of the last installed snapshot |
| `Journey.KeysHold` | internal/service/journey.go:194-268 | in every reachable state counts, series and lastSub have keys in lastSeen only, pending counts are positive and charts hold 1 to 120 values |
| `Journey.SampleKeepsExactlyTheActive` | internal/service/journey.go:247-268 | after a sample the charted channels are exactly the active ones; lastSeen equals them if and only if every silent channel had a chart |
| `Journey.NoResidueIffFirstTimely` | internal/service/journey.go:247-268 | after every sample of a run lastSeen is exactly the active channels, if and only if the first sample of each channel was timely; a charted channel may be sampled late |
| `Journey.TimelyLeavesNoResidue` | internal/service/journey.go:247-268 | a run whose samples are all timely is one of these |
| `Journey.LateFirstSampleLeavesResidue` | internal/service/journey.go:247-268 | a late first sample leaves a channel in lastSeen without a chart |
| `Journey.ChannelNameInjective` | internal/service/journey.go:46-56 | different channel numbers never share a name, so never a counter |
| `Journey.SanitizedIsShownSafely` | internal/service/journey.go:456-475 | what is shown of a payload is printable and at most 40 long; short printable payloads pass through |
| `Journey.ShownOfPayload` | internal/service/journey.go:456-475 | a printable payload is shown by its first 40 characters, any other by its first eight bytes, each reading back from its two digits |
| `Journey.HexPreviewReadsBack` | internal/service/journey.go:470-474 | the preview has two digits for each byte, high one first, and a space between |
| `Journey.LastNIs` | internal/service/journey.go:256-258 | the window is the end of the list |
| `Text.HostOfInvertsHostPort` | internal/service/journey.go:432-437 | hostOf(ip + ":" + port) is ip, for every string and every port |
| `Text.HostPortInjective` | internal/service/resolve_endpoints.go:48-51 | the key "%s:%d" is injective on all strings and signed ports |
| `Text.DecimalRoundTrip` | internal/service/resolve_endpoints.go:48 | a number printed with %d reads back |
| `Endpoints.BuildEndpointIndex` | internal/service/resolve_endpoints.go:28-86 | the four maps answer every key as a last-match scan of the lists does |
| `Endpoints.BuildPods` | internal/service/resolve_endpoints.go:35-66 | both pod maps agree with the scan of the pods |
| `Endpoints.AddPorts` | internal/service/resolve_endpoints.go:46-53 | exactly the nonzero container and host ports of that host are written |
| `Endpoints.AddHostPod` | internal/service/resolve_endpoints.go:44-56 | exactly the declared ports of all containers are written |
| `Endpoints.AddPodIPs` | internal/service/resolve_endpoints.go:57-64 | exactly the pod's non-empty addresses are written |
| `Endpoints.BuildServices` | internal/service/resolve_endpoints.go:67-74 | ClusterIPs other than empty and None, the last service winning |
| `Endpoints.BuildNodes` | internal/service/resolve_endpoints.go:75-84 | InternalIP addresses, the last node winning |
| `Endpoints.ResolveRefinesScan` | internal/service/resolve_endpoints.go:91-105 | for every snapshot, address string and port, resolve over the maps equals the scan of the lists, and is the answer they call for |
| `Endpoints.ScanAnswers` | internal/service/resolve_endpoints.go:88-105 | the answer case by case: the last pod with the address; if none, the last service; if none, the last host-network pod declaring the port; if none, the last node; otherwise, and only then, external; each with that object's own fields |
| `Endpoints.ResolveEndpoints` | internal/service/resolve_endpoints.go:121-126 | in the order of the request, each result is the answer that the lists call for, case by case |
| `Endpoints.WorkloadOf` | internal/service/resolve_endpoints.go:132-143 | name and kind of the first owner marked as controller, a ReplicaSet as its Deployment; nothing if and only if there is no controller |
| `Endpoints.StripHashCutsTheMatch` | internal/service/resolve_endpoints.go:16 | cutting at the last dash is what replacing the pattern's match does; without a match nothing is cut |
| `Endpoints.DeploymentRecoveredIffHexHash` | internal/service/resolve_endpoints.go:137-139 | the Deployment's name is recovered if and only if the hash is 6 to 10 hexadecimal digits |
| `Endpoints.NoHostPodAtPortZero` | internal/service/resolve_endpoints.go:47-52 | no host-network pod is ever found at port 0 |
| `Endpoints.ProberNameIgnoresHostPorts` | internal/service/journey.go:278-279 | a prober's name never comes from the host-port map, whatever its address string |
| `Endpoints.ShownNamesAgreeIff` | internal/service/journey.go:439-451 | exactly when two endpoints of any kind, with or without a namespace, show the same name: place and name are read the same |
| `EastWest.EastWestGraph` | internal/service/east_west_graph.go:81-145 | the response: events seen, and a ranked selection of as many rows as asked for (50 by default), each with whom the lists name at its destination, nothing better left out, carrying at least its share of the total |
| `EastWest.EdgeIff` | internal/service/east_west_graph.go:93-110 | which edge a message counts for: namespace, pod or else command, last four address components, port; none without a kind or with a short or all-zero address |
| `EastWest.SeenIff` | internal/service/east_west_graph.go:93-101 | which messages are seen and which of them skipped |
| `EastWest.Aggregate` | internal/service/east_west_graph.go:81-113 | the edges updated in place hold the tally of the messages |
| `EastWest.Bump` | internal/service/east_west_graph.go:106-112 | only the entry of the edge's key changes: created, or one more |
| `EastWest.ExactIffNoClash` | internal/service/east_west_graph.go:106-112 | every sampled 4-tuple has a row with its exact count if and only if no two sampled edges collide |
| `EastWest.LabelNamespacesAreExact` | internal/service/east_west_graph.go:106-112 | namespaces without a vertical bar suffice, even if sources contain it |
| `EastWest.RowsCountTheirEdge` | internal/service/east_west_graph.go:112 | without a clash each row counts its own 4-tuple's messages |
| `EastWest.KeysAgreeIff` | internal/service/east_west_graph.go:106 | exactly when two edges print to the same key |
| `EastWest.KeyInjective` | internal/service/east_west_graph.go:106 | the key is injective for namespaces without a vertical bar |
| `EastWest.KeyClash` | internal/service/east_west_graph.go:106 | two different edges that share a key |
| `EastWest.TallyCounts` | internal/service/east_west_graph.go:106-112 | each entry counts the messages that print to its key and belongs to one of them |
| `EastWest.TallyConserves` | internal/service/east_west_graph.go:97-113 | edge counts plus events skipped for an empty or zero address equal the events seen |
| `EastWest.ZeroAddressTest` | internal/service/east_west_graph.go:98-101 | the test against "0.0.0.0" singles out the all-zero address |
| `EastWest.DottedInjective` | internal/service/east_west_graph.go:42 | the dotted form determines its four components |
| `EastWest.ShowRows` | internal/service/east_west_graph.go:118-144 | each surviving row with kind, name, namespace, workload and account of the answer the lists call for, or external without a cluster |
| `Lists.TruncateIsTop` | internal/service/east_west_graph.go:129-132 | a sorted list cut to k: in order, min(k, n) long, a sub-multiset, and nothing dropped outranks what is kept |
| `Lists.TopCarriesItsShare` | internal/service/east_west_graph.go:129-132 | kept sum times n is at least kept length times total sum |
| `BrokerProtocol.BrokerSafety` | internal/audit/broker.go:47-88 | in every interleaving no send meets a closed channel, no channel closes twice, members are open, and no membership change overlaps a publication |
| `BrokerProtocol.SubscriberAccounts` | internal/audit/broker.go:54-64 | attempts = received + buffered + drops at a full buffer; the stream is a subsequence, complete if and only if there was no such drop |
| `BrokerProtocol.DroppedIsOverflows` | internal/audit/broker.go:57-63 | each drop happened at a full buffer |
| `BrokerProtocol.OfferedFromPublisher` | internal/audit/broker.go:54-87 | a subscriber is offered exactly what each publisher published from the subscription to the cancel, once each and in order |
| `BrokerProtocol.KeepingUpMeansNoLoss` | internal/audit/broker.go:71-78 | a subscriber whose buffer never overflowed has every event published while it was subscribed |
| `BrokerProtocol.StreamRespectsPublisherOrder` | internal/audit/broker.go:56-58 | with losses too, each publisher's events arrive in its order |
| `BrokerProtocol.ItemsAreGenuine` | internal/audit/broker.go:47-58 | what is delivered is what was published |
| `BrokerProtocol.Reachable` | internal/audit/broker.go:30-88 | the lock, channel, account and order invariants hold in every run |
| `Broker.Broker.Publish` | internal/audit/broker.go:47-65 | every member with room gets the event last in its channel, with its own time or else the time of the call, all other fields as they were; a full one is as before; nothing else changes |
| `Broker.Broker.Subscribe` | internal/audit/broker.go:71-78 | a fresh open empty channel of the requested size, 64 when unspecified |
| `Broker.Broker.Cancel` | internal/audit/broker.go:79-86 | leaves the membership and closes the channel the first time, does nothing later |
| `BrokerRefinement.Traced.Publish` | internal/audit/broker.go:47-65 | the object's Publish is the protocol's publication, visiting all members once in some order: afterwards its channels hold what the protocol's do |
| `BrokerRefinement.Traced.Subscribe` | internal/audit/broker.go:71-78 | the object's Subscribe is the protocol's, under a number no channel has had |
| `BrokerRefinement.Traced.Cancel` | internal/audit/broker.go:79-86 | each call of the cancel function, however often, is the protocol's cancel |
| `BrokerRefinement.Traced.Receive` | internal/audit/broker.go:71-87 | receiving from the channel is the protocol's receive |
| `BrokerRefinement.Traced.NoOverflowNoLoss` | internal/audit/broker.go:54-87 | for the object: without an overflow, what a subscription received and holds is exactly each publisher's events since it began |
| `Broker.PublishIsASchedule` | internal/audit/broker.go:54-64 | within the protocol: a publisher that visits the members in any order, from any quiet point of any run, has offered the event once to each of them and changed nothing else |
| `Broker.OfferDelivers` | internal/audit/broker.go:57-63 | the protocol's delivery and the object's agree on the channel's contents |
| `EventServer.Serve` | internal/service/event_stream.go:27-91 | outcome and sent messages are those of the loop over the same turns; every message is of the kind and source asked for, audit messages carry a time; every exit gives back its own subscription; all others, who may publish, take, leave and join at any point, are exactly where that puts them; a failed watch subscribes nothing |
| `EventServer.GoRound` | internal/service/event_stream.go:53-91 | the select loop refines the loop as values, with others' doings at any point, and leaves the other subscribers where these put them |
| `EventServer.OneTurn` | internal/service/event_stream.go:54-89 | one doing of others or one round of the select does to variables, channel and own membership what it does to the loop's values, and to other subscribers only what others did |
| `EventServer.OthersDo` | internal/audit/broker.go:47-87 | whichever of the broker's operations others call, it puts their subscriptions and ours where the model of it says |
| `EventServer.Select` | internal/service/event_stream.go:54-89 | a round of the select leaves the other subscribers' channels and membership alone |
| `EventServer.TakeTurn` | internal/service/event_stream.go:54-89 | whichever arm is taken, the select changes no membership |
| `EventServer.GiveBack` | internal/service/event_stream.go:45-49 | the deferred cancel takes out our own subscription and changes nothing else |
| `EventServer.WatchArm` | internal/service/event_stream.go:58-72 | sent grows by the message describing the event exactly when the watch is open, brings an event of the kind asked for, and the Send succeeds; a vanished watch never yields |
| `EventServer.AuditArm` | internal/service/event_stream.go:74-84 | sent grows by the message describing the oldest waiting event exactly when there is one of the kind asked for and the Send succeeds; membership is untouched |
| `EventStream.MergeIsFaithful` | internal/service/event_stream.go:53-91 | after any turns: the cluster part of the stream is the watch's events that pass the filter, in order, up to the watch's close; the audit part is those received of what was published while subscribed, in order, all of it but what waits if and only if the channel never overflowed; everything was sent, short of the one whose Send failed |
| `EventStream.WatchComesIn` | internal/service/event_stream.go:58-69 | the loop receives every event its watch brings until it is closed, each once and in order |
| `EventStream.AuditComesIn` | internal/service/event_stream.go:45-46 | received plus waiting is a subsequence of what was published while subscribed, short by exactly the publications that found 64 events waiting |
| `EventStream.StaysFaithful` | internal/service/event_stream.go:53-91 | in every state of the loop the messages shuffle what was received per source |
| `EventStream.EndsOnlyWhenCancelled` | internal/service/event_stream.go:54-89 | while Sends succeed the loop goes on exactly as long as the context is not done |
| `EventStream.OutlivesItsSources` | internal/service/event_stream.go:58-89 | a stream of cluster events whose watch was closed has no source left and still runs until cancelled |
| `EventStream.StaysSubscribed` | internal/service/event_stream.go:43-49 | as nobody else holds the cancel function, the audit channel is never found closed |
| `EventStream.TakenInOrder` | internal/service/event_stream.go:53-91 | the turns that count are the first ones, all of them while the loop runs |
| `EventStream.MessagesComeFromEvents` | internal/service/event_stream.go:58-146 | every message is of the kind and source asked for and describes an event the watch brought, or one somebody published, with its time or else that of the publication |
| `EventStream.WatchedEventsAreTold` | internal/service/event_stream.go:58-72 | every event of the kind asked for that the watch brought has its message |
| `EventStream.PublishedEventsAreTold` | internal/service/event_stream.go:74-84 | every event of the kind asked for that was published has its message or still waits, when the channel never overflowed |
| `Lifecycle.OneStartIsSafe` | internal/service/journey.go:127-171 | with at most one successful Start, and any failed ones and Closes, neither channel is closed twice |
| `Lifecycle.CrashesIffDoomed` | internal/service/journey.go:127-175 | a state can still crash without another Start if and only if two samplers were launched and stop is closed or a connection is there to Close |
| `Lifecycle.CloseWaitsOnASampler` | internal/service/journey.go:158-165 | Close waits only if a sampler was launched, and is never stuck |
| `Lifecycle.Producer.Begin` | internal/service/journey.go:127-155 | any Start, however often: without a URL or a connection nothing changes, a failed Subscribe leaves no connection behind, an earlier one included, and a success launches exactly one sampler |
| `Lifecycle.Producer.SamplerEnds` | internal/service/journey.go:222-231 | a sampler that sees the stop closes done, and crashes if another has closed it |
| `Lifecycle.Producer.End` | internal/service/journey.go:158-165 | Close stops the sampler, waits for one to end and drops the connection; without one it does nothing; after at most one successful Start it does not crash, and leaves a sampler running exactly when one runs and the connection is already gone |
| `Lifecycle.LeaksIffStranded` | internal/service/journey.go:127-175 | after at most one successful Start, no sequence of Closes ends the sampler if and only if it runs and the connection is already gone |
| `Lifecycle.FailedRestartStrands` | internal/service/journey.go:141-148 | a run that strands it: a successful Start, one whose Subscribe fails, a Close |
| `Tail.TailSafety` | internal/streams/nats.go:201-231 | in every interleaving the channel closes at most once, only after cancel and Stop or a failed Consume; no panic escapes; the buffer is bounded; nothing is lost before that |
| `Tail.HandOff` | internal/streams/nats.go:201-220 | accepted and lost messages merge in order into the consumer's valid ones; until the cancel received ++ buffered ++ in flight is all of them; complete if and only if nothing was lost |
| `Tail.ForwardsWhatItTook` | internal/service/tail_stream.go:57-104 | each message taken that decodes, passes the filter and encodes is sent once, in order, with its own subject, sequence, time and encoding, short of the one whose Send failed, and nothing else is; the loop ends without error only after a cancel |
| `Tail.OpenUntilCancelled` | internal/streams/nats.go:226-231 | without a cancel no continuation closes the channel or ends the reader, even if the consumer stops |
| `Tail.CancelReleases` | internal/streams/nats.go:203-231 | after a cancel the cleanup completes, a blocked callback gets away, and nothing accepted is lost |
| `TailGaps.NoGapIff` | internal/streams/nats.go:203-206 | the accepted messages are a prefix of the consumer's if and only if the schedule has no drop followed by a push on the open channel |
| `TailGaps.GapReachableIff` | internal/streams/nats.go:190-231 | a run without a gap can still get one if and only if the channel is open, has room or someone to make room, and enough messages are to come |
| `TailGaps.GapNeverComes` | internal/streams/nats.go:190-231 | otherwise no continuation has one |
| `TailGaps.LostIsDropped` | internal/streams/nats.go:201-207 | while the channel is open messages are lost by the done arm only |
| `TailGaps.GapAfterCancel` | internal/streams/nats.go:203-206 | a run in which the first message is dropped and the second delivered |
| `Tail.Reachable` | internal/streams/nats.go:190-233 | the invariants of channel, order and reader hold in every run |
| `TailStream.Serve` | internal/service/tail_stream.go:24-78 | each error exactly when those checked before it do not apply; otherwise the loop returns at the first turn that calls for it, and has sent, in order, the envelope of each qualifying message it took, carrying that message's fields |
| `TailStream.LoopForwards` | internal/service/tail_stream.go:58-77 | the same of the loop as values |
| `TailStream.LoopIsTheReader` | internal/service/tail_stream.go:58-77 | along every run of the protocol the loop, fed with what the protocol's reader finds, does what that reader does |
| `TailStream.Channel.Send` | internal/streams/nats.go:201-207 | the guarded send: when it blocks, pushes, gives up or recovers, and that only a push changes the buffer |
| `TailStream.Session.Select` | internal/streams/nats.go:203-206 | whichever arm is picked, the closure takes the protocol's action, or waits when there is none |
| `TailStream.Session.Callback` | internal/streams/nats.go:209-219 | a message is in flight exactly when its metadata parses; it is the protocol's Deliver |
| `TailStream.Session.Consumed` | internal/streams/nats.go:221-233 | a failed Consume closes the channel once and nobody will read it, a good one hands it out open |
| `TailStream.Session.CloseChannel` | internal/streams/nats.go:230 | closes the channel when it is still open, so without a panic, and it is the only close |
| `TailStream.Session.Take` | internal/service/tail_stream.go:62-75 | the oldest message leaves the channel, and its envelope is sent if it has one |
| `Reading.StreamRead` | internal/service/stream_read.go:28-108 | the errors in the code's order, and otherwise, up to the limit, one envelope for each qualifying message among those fetched of the window, in order, carrying that message's fields; a full answer is that of the whole window |
| `Reading.Collect` | internal/service/stream_read.go:75-100 | up to the limit, one envelope for each message that decodes, passes the filter and encodes, in order, with its subject, sequence, time and encoding |
| `Reading.LimitBounds` | internal/service/stream_read.go:39-64 | 1 <= limit <= backendLimit <= 1000, and the backend's clamp leaves it alone |
| `Reading.LimitValues` | internal/service/stream_read.go:39-64 | what the limits are for every request, with and without a filter |
| `Reading.WindowIs` | internal/streams/nats.go:118-140 | the window holds the log's messages stamped from the start to the end, both included, in order |
| `Reading.Read` | internal/streams/nats.go:101-152 | the parsable messages among those fetched of the window; the partial result with a batch error |
| `Reading.ReadBatch` | internal/streams/nats.go:133-147 | on an ordered batch the break is a filter |
| `Reading.WindowIsFilteredDelivery` | internal/streams/nats.go:115-140 | start policy and client-side end time together are the window of the log |
| `Reading.CutsCommute` | internal/streams/nats.go:129-140 | fetching n and cutting at the end time equals cutting and taking n |
| `Reading.AnswerExactIff` | internal/service/stream_read.go:55-100 | looking at n messages gives the answer of the whole window if and only if they hold as many matches as asked for, or all |
| `Reading.FullAnswerIsExact` | internal/service/stream_read.go:66-100 | an answer that reaches the limit is the one the whole window gives, whatever the fetch yielded |
| `Reading.ShortAnswerIsComplete` | internal/service/stream_read.go:66-100 | when the fetch fills and the window is no longer than backendLimit, an answer shorter than the limit has every match |
| `Reading.FilledFetch` | internal/streams/nats.go:129 | a fetch that fills leaves nothing out |
| `Reading.LateMatchIsMissed` | internal/service/stream_read.go:55-64 | a window whose only match lies past the overshoot |
| `Envelopes.EnvelopesCarry` | internal/service/tail_stream.go:83-104 | each qualifying message has its envelope, in order, and nothing else has one |
| `Envelopes.QualifyingIs` | internal/service/tail_stream.go:85-97 | what qualifies of a list: those that decode, pass and encode, as often and in the order they occur |
| `Envelopes.ParsedIs` | internal/streams/nats.go:134-146 | the messages of the deliveries whose metadata parses, in order |
| `Envelopes.EnvelopesConcat` | internal/service/stream_read.go:76-96 | envelopes are built message by message, in order |
| `Discover.TenantLocalIff` | internal/config/discover.go:68-80 | the parser yields (site, tenant) exactly for the token site.tenant.tenant.local with non-empty dot-free labels |
| `Discover.ComputeInternalIff` | internal/config/discover.go:82-94 | the parser yields region exactly for region.compute.internal |
| `Discover.NeverBoth` | internal/config/discover.go:51-58 | no token parses both ways |
| `Discover.FromResolvConf` | internal/config/discover.go:33-66 | site and tenant are of the first token of the file's search lines that parses, region of the first compute token; nothing without a file |
| `Discover.ScanTokens` | internal/config/discover.go:50-63 | site and tenant stay those of the first token that parses, region that of the first compute token, however many follow |
| `Discover.WhatIsFound` | internal/config/discover.go:29-32 | in terms of the text: one and the same token prints as both site and tenant and no earlier one has the shape |
| `Discover.JoinInvertsSplit` | internal/config/discover.go:72 | the parts of a split are dot-free and join to the token |
| `Discover.SplitAtDot` | internal/config/discover.go:72 | a dot splits a name into the parts on either side |
| `Discover.TokensOfAnyLine` | internal/config/discover.go:42-50 | for every line, however spaced: its tokens are the words after the first if that starts with "search", and none otherwise |
| `Discover.SearchLineReadBack` | internal/config/discover.go:42-50 | a line written word by word, with any white space between, is read back word by word if and only if its first word starts with "search" or is the only one |
| `Discover.BlanksAndTabsSeparate` | internal/config/discover.go:42-50 | in particular words of visible characters with blanks and tabs between them |

## Left out

- NATS, JetStream, Kubernetes, gRPC, jq: a stream is a finite log in order of sequence and time, a watch a sequence of items, list calls are given lists (a failed one is empty), a filter is a predicate that may fail.
- JSON and protobuf: decoding is a partial function and a message that does not decode is one case.
- Clocks: times are parameters, read before the lock is taken; the sampler's do not go back. The saturation of time.Duration is not modelled.
- Integer widths: counters, ports and timestamps are unbounded, and the conversion of the requested limits to int is the identity.
- Series values are natural numbers where the source has float64 with integer values.
- sort.Slice is represented by an insertion sort with the contract that matters: a permutation in order, ties in any order.
- The regular expression and strings.ToLower: the pattern is a predicate (`Endpoints.HashSuffixAt`) and the source name is compared after lowering.
- Sequences of bytes are strings with one character for each byte, except in Discover, whose characters are runes: white space is a matter of code points there.
- Sharing of one published audit event between its publisher and the subscribers: events are values, stamped before delivery; the nil broker, on which Publish does nothing, is not modelled.
- Map iteration order is any order, and select picks any ready arm.
- JourneyObject: a map of the source is a map value in a field; the records and the chart arrays are on the heap. Critical sections are atomic, as the mutex makes them; a reader that encodes a slice reads only cells that no later step writes (`Rings.AppendSample` names the cell written).
- Without a cluster client no index is ever built: those runs are the ones without installations. The site block, headline and station texts of the report are not modelled.
- East-west graph: the sampling window and its clamp to 30 s only decide which messages arrive, and are not modelled.
- The tail's start options (from a sequence, a time, or now): the log is what the consumer delivers.
- EventServer.Serve: other subscribers may publish, take, leave and join at any point, but one that joins during the call stays, and what its channel holds is not stated.
- TailStream and EventStream: the response's cluster reference is not modelled. A mode in which no cluster is present is a watch that never yields.
- Reading: how long the fetch waits is a parameter, as the number of messages that arrived; connection, consumer and stream lookup errors are one case.
- bufio.Scanner's limit on line length: a file is given as the lines the scanner yields.
- Health, heartbeat, identity, resource operations, MCP tools, TLS and HTTP handlers: mappings around API calls.
