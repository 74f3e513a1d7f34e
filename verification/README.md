# SWIM membership: a verified model

This project models the gossip membership protocol of `src/swim` in Dafny and proves
properties of it: what every handler keeps, what a report means independently of the
loops that read it, what Lamport clocks guarantee over whole runs of a cluster, what
threads may do to each other inside one server, and what the failure detector's
selection, budget and eviction achieve.

`dafny verify dfyconfig.toml` checks everything.

## Layout

| file | content |
|---|---|
| `SwimTypes.dfy` | servers, records, reports, envelopes, listener events |
| `RecordSet.dfy` | the ordered record set, as a strictly sorted sequence that refines a map |
| `Membership.dfy` | one server as a value (`Node`) and what each call does to it |
| `ReportLaws.dfy` | `OnReport` without its loops; order independence, locality, idempotence |
| `Listener.dfy` | the status listener: its log rebuilds the membership |
| `Budget.dfy` | sorting, greedy prefix and cost of a report |
| `Reporting.dfy` | prepared reports, the first report to a newcomer, eviction |
| `Cluster.dfy` | many servers and a lossy, delaying, duplicating network; runs and their invariant |
| `Staleness.dfy` | exactly which entries of a report a server ignores |
| `Causality.dfy` | causal paths, superseded news, refutation of a false suspicion |
| `Scenarios.dfy` | runs in which old news is believed, and one in which a suspicion is refuted |
| `ConcurrentServer.dfy` | the mutex-guarded blocks of one server under any interleaving |
| `ConcurrentListener.dfy` | what the status listener knows while calls interleave |
| `RoundRobin.dfy` | picking servers from a ring: distinctness and fairness |
| `NeighborRing.dfy` | the ring over the ordered alive set, and series of calls that go round it |
| `Rounds.dfy` | full rounds: contacts, envelopes and conclusions; whom a series of rounds reaches |
| `GossipServer.dfy` | the server class, each method proved against `Membership` |
| `Detector.dfy` | the failure detector class |

The classes `GossipServer.SwimServer` and `Detector.GossipFailureDetector` hold the
mutable state. Each method's postcondition equates the new state with a function of the
old one; the laws are then proved about those functions. A cluster is a map of such
values, so the laws of one server carry over to every state of every run.

## How the source is read

- A server is its host name and port. Records are stamped with the receiver's own clock.
- The network is the set of all envelopes ever sent. Any of them may arrive late, more
  than once, or never. What the detector concludes from a reply or a timeout
  (`NoteAlive`, `NoteSuspect`, `Evict`) may happen at any moment.
- A client reads the clock when it is created and stamps what it sends with that reading
  plus one, even if the clock has moved on: src/swim/GossipFailureDetector.cpp:166-176
  reads once for several requests. Reading the clock is a step of its own in a run, and a
  send uses any earlier reading.
- Times come in as parameters. Lamport times are natural numbers.
- Ages follow the 64-bit arithmetic of the source: an unsigned difference read as signed
  and truncated towards zero. Costs are exact integers, so a sum of `0.01 * t * t` up to
  300 becomes a sum of `t * t` up to 30000.
- The listener is assumed to be installed. Its log is keyed by the server of the call,
  because the pointer handed to it after an insertion into the suspected set has been
  moved from (src/swim/SwimServer.cpp:322-326).
- `self()` and the sender written into outgoing envelopes are taken to be the same server.

Where documentation and code differ, the model follows the code:

- Reports are sorted by Lamport time (src/swim/SwimServer.cpp:209-212), not by timestamp
  (include/swim/SwimServer.hpp:93-96).
- A report lists all records that fit the budget, not only those added since the last
  report (include/swim/SwimServer.hpp:218-224).
- Timestamps are in milliseconds (src/utils/utils.cpp:112-119), not in seconds
  (proto/swim.proto:37-40).
- The budget cuts off a single record at 174 seconds, not at about two minutes
  (include/swim/SwimCommon.hpp:55-57).

## Results about the code that a reader might not expect

- An alive entry is ignored, in every respect, exactly if it is about the receiver, about a
  port-0 server, or older than a suspicion the receiver holds. One case differs: an entry
  about the sender itself is read after the sender's arrival has cleared any suspicion, so
  it is ignored only if it adds nothing to that arrival. A stale one replaces the time of the
  arrival by its own (`AliveEntryIgnoredIff`, `SenderVouchesForItself`).
- A suspect entry is ignored exactly if it is not about the receiver, which answers even
  stale accusations, and is about a port-0 server, stale, refuted by the same report, or
  against a suspect with no higher incarnation (`SuspectEntryIgnoredIff`,
  `AccusationIsAnswered`).
- News that B has superseded is stale only for as long as B holds the newer record. Once B
  has evicted the server, or no longer lists it as alive, the old news is believed and
  stamped afresh. `SupersededAlive` and `SupersededSuspicion` give the exact condition,
  `EvictedServerIsRevived` and `OldSuspicionReturns` are runs in which it happens.
- Reporting a suspect again does not refresh its stamp. While the suspicion stands, a sign
  of life from another server is ignored if and only if it is older than the step that began
  the suspicion (`FirstSuspicionDecides`), so one that is older than the last report of
  suspicion can still bring the server back (`LateSuspicionIsOverturned`).
- An envelope that carries an old clock reading does not move its receiver past what the
  sender knew when it sent. The causal laws therefore count from the reading, not from the
  sending; counted from the sending they fail (`OldReadingBreaksCausality`).
- Round-robin picks are always fair. The sets returned are fair, whatever the calls, if and
  only if no call asks for more servers than there are others, or the server itself is not
  in its alive set, or there are fewer than two others (`SeriesIsFairIff`). Otherwise one
  server can be returned twice as often as another (`AlternatingReturns`).
- Eviction works from a report, and a report cannot hold a record of 174 seconds or more.
  So the grace periods that evict nobody are exactly those of at least 173999 ms, plus the
  time from preparing the report to taking the cutoff, and at most the time since the epoch
  (`EvictsNobodyIff`).
- The eviction cutoff is compared as an unsigned number. If the grace period exceeds the
  time since the epoch, every reported suspect is evicted (`EvictionFollowsGraceIff`).
- Two overlapping calls about one server can leave it in both sets, and nothing else can
  (`InBothOnlyByOverlap`): exactly if each call's erase comes before the other's insert
  (`InBothIff`). There it stays until the next call about it erases it from one of them
  (`InBothUntilErased`).
- The listener is called after the lock is released. If a ReportSuspected overlaps an AddAlive
  or an eviction of the same server, the listener can be left with the wrong picture
  (`LateAliveMisleads`, `LateRemovalMisleads`); if none does, it has the right one whenever
  no call about the server is in progress (`ListenerCatchesUp`).

## Model

| member | source | states |
|---|---|---|
| RecordSet.LessIsStrictTotalOrder | src/swim/GossipFailureDetector.cpp:13-26 | the order on servers is irreflexive, transitive and total, and two servers are equivalent exactly when host name and port agree |
| RecordSet.LessIsLexicographic | src/swim/GossipFailureDetector.cpp:17-22 | host names compare at their first difference, with the end of a name before any character; equal names compare by port, the lower one first |
| RecordSet.Contents | include/swim/SwimCommon.hpp:147-174 | a strictly sorted sequence stands for a map with exactly its records, each under its own key |
| RecordSet.Find | src/swim/SwimServer.cpp:400-403 | finds a record exactly when the key is in the map, and finds the one stored there |
| RecordSet.Insert | src/swim/SwimServer.cpp:344-349 | inserting keeps the order and adds the key to the map unless it is present, in which case nothing changes |
| RecordSet.Erase | src/swim/SwimServer.cpp:373-376 | erasing keeps the order and removes exactly that key from the map |
| RecordSet.Replace | src/swim/SwimServer.cpp:353-360 | editing a stored record without touching its key is a map update |
| RecordSet.ExtractAndReinsert | src/swim/SwimServer.cpp:412-423 | extracting a record, editing it and inserting it again puts it back in the same place |
| RecordSet.SameContents | include/swim/SwimCommon.hpp:147-174 | two sorted sequences with the same map are equal, so iteration order is determined by the contents |
| RecordSet.EachKeyAtOneIndex | src/swim/SwimServer.cpp:226-245 | counting the smaller keys gives each key exactly one index below the size, and different keys different ones |
| RecordSet.KeyAtPosition | src/swim/SwimServer.cpp:237-244 | stepping through the set from the start reaches the key with that many smaller keys, and no other |
| Membership.DeliverKeepsInv | src/swim/SwimServer.cpp:83-106 | whatever arrives, stored stamps stay at or below the clock, keys match, the sets stay disjoint and free of port 0 and of the server itself; the clock becomes the maximum plus one, except for an unknown message type |
| Membership.OnUpdateIsAddAlive | src/swim/SwimServer.cpp:464-483 | the erase after AddAlive never removes anything |
| Membership.AddAliveSees | src/swim/SwimServer.cpp:332-367 | the server is alive with its former incarnation, the given time and the clock, is not suspected, the listener is told exactly if that is news, and nobody else changes; port 0 does nothing |
| Membership.ReportSuspectedSuspects | src/swim/SwimServer.cpp:290-330 | a new suspicion has the given time and the clock, a standing one is as before, the listener is told of a new one and nobody else changes; suspecting oneself is being seen, and port 0 does nothing |
| Membership.SenderIsSeen | src/swim/SwimServer.cpp:83-106 | after a ping or a request the sender is alive with its former incarnation, the time of arrival and the new clock, and nobody else changes; a port-0 sender moves the clock only, and an unknown message does nothing |
| Membership.OneDenialEach | src/swim/SwimServer.cpp:427-433 | as many pings as entries that suspect the receiver, all to the sender of the report |
| ReportLaws.AliveLoopAt | src/swim/SwimServer.cpp:391-424 | the alive loop accepts entries about a server exactly when some entry about it is not stale in the initial state, and then leaves the exact record of those that count; otherwise nothing changes for it |
| ReportLaws.SuspectLoopAt | src/swim/SwimServer.cpp:426-461 | the suspected loop accepts entries about a server exactly when some entry about it is not older than its initial alive stamp, and then leaves the exact record: a standing suspicion with its times, or a new one with the time of the first such entry |
| ReportLaws.OnReportRecords | src/swim/SwimServer.cpp:385-462 | the exact records of a server in both sets after a report: the last alive entry that counts sets the time, the first suspect entry that counts sets the time of a new suspicion, and the highest incarnation is kept |
| ReportLaws.OnReportClosedForm | src/swim/SwimServer.cpp:385-462 | membership and stamps after a report, from the state before it and the sets of entries alone; the times follow the order of the entries: the last one for a server vouched for, the first accusation that counts for a new suspicion |
| ReportLaws.OrderIndependence | src/swim/SwimServer.cpp:385-462 | neither order nor repetition of entries changes membership or stamps |
| ReportLaws.OnReportLocal | src/swim/SwimServer.cpp:385-462 | what a report does to one server depends only on what was known of it and on the entries about it |
| ReportLaws.PermutedReport | src/swim/SwimServer.cpp:385-462 | for reports that name each server once, permuting the lists leaves whole records unchanged |
| ReportLaws.AliveRecordOf | src/swim/SwimServer.cpp:408-423 | the exact record a single accepted alive entry leaves, with the higher of both incarnations, the reported time and the local clock |
| ReportLaws.SuspectRecordOf | src/swim/SwimServer.cpp:447-460 | the exact record a single accepted suspect entry leaves, keeping the times of a standing suspicion |
| ReportLaws.IncarnationNeverFalls | src/swim/SwimServer.cpp:412-423 | a server alive before and after a report has not lost its incarnation |
| ReportLaws.SuspectIncarnationNeverFalls | src/swim/SwimServer.cpp:449-460 | nor has a server suspected before and after a message whose records are older than its envelope |
| ReportLaws.GoodNewsWins | src/swim/SwimServer.cpp:93-97 | after a report whose records are older than its envelope, the sender and everyone accepted from the alive list are alive, even if the same report suspects them |
| ReportLaws.SuspicionIsFixed | src/swim/SwimServer.cpp:309-330 | a suspicion that outlives such a message keeps its stamp and its time |
| ReportLaws.QuietReport | src/swim/SwimServer.cpp:385-462 | a report that vouches only for live servers and accuses only suspects changes no membership and fires no callback |
| ReportLaws.Idempotence | src/swim/SwimServer.cpp:83-106 | receiving the same well-formed message twice in a row leaves the membership of receiving it once, and the second time fires no callback |
| Listener.AddAliveMirrored | src/swim/SwimServer.cpp:332-367 | AddAlive tells the listener exactly what changes |
| Listener.ReportSuspectedMirrored | src/swim/SwimServer.cpp:290-330 | ReportSuspected tells the listener exactly what changes |
| Listener.EvictMirrored | src/swim/SwimServer.cpp:369-383 | an eviction is announced exactly when a suspect is removed |
| Listener.DeliverMirrored | src/swim/SwimServer.cpp:83-106 | after any message the listener's log still replays to the membership |
| Listener.LastWordOnSuspect | src/swim/SwimServer.cpp:325-327 | a server the log leaves suspected was announced so, with no later event about it |
| Listener.RemovedFollowsSuspect | src/swim/SwimServer.cpp:377-382 | every removal follows a suspicion of that server with no event about it in between |
| Budget.AgeInWholeSeconds | src/swim/SwimServer.cpp:215-216 | the age is the distance in whole seconds, rounded down, for past and future timestamps alike |
| Budget.CostPermutation | src/swim/SwimServer.cpp:214-217 | the cost of a list does not depend on its order |
| Budget.BudgetedIsMostRecent | src/swim/SwimServer.cpp:201-224 | the records split into those sent, within the budget, and the rest, none of which is more recent by Lamport time |
| Budget.AllSentIffAllFit | src/swim/SwimServer.cpp:201-224 | all records are sent if and only if all of them fit the budget |
| Budget.NoOldRecordSent | include/swim/SwimServer.hpp:27-41 | no record of 174 seconds or more is sent |
| Budget.AtMost45Ages | include/swim/SwimCommon.hpp:52-57 | however ties are broken, the records of one list have at most 45 different ages |
| Reporting.AgesFitIff | include/swim/SwimCommon.hpp:52-57 | a server that has seen one other server of each age below n can report them all if and only if n is at most 45 |
| Reporting.SelectionIsFromSet | src/swim/SwimServer.cpp:170-199 | a prepared list holds stored records only, each server once |
| Reporting.WholeSetIffFits | src/swim/SwimServer.cpp:201-224 | the whole set is reported if and only if it fits the budget |
| Reporting.PreparedIsWellFormed | src/swim/GossipFailureDetector.cpp:189-197 | a prepared report sent at a later clock carries only older records |
| Reporting.BootstrapAt | src/swim/SwimServer.cpp:385-462 | a server with empty sets takes over exactly the names it is told, apart from its own, with the sender alive |
| Reporting.Bootstrap | src/swim/SwimServer.cpp:170-224 | when everything fits, the newcomer's sets are the sender's, with the sender alive and without the newcomer |
| Reporting.EvictExpiredAt | src/swim/GossipFailureDetector.cpp:242-251 | a pass removes exactly the reported suspects before the cutoff and changes nothing else |
| Reporting.EvictExpiredIsSound | src/swim/GossipFailureDetector.cpp:242-251 | a pass keeps the server's invariant and the agreement with the listener |
| Reporting.EvictionFollowsGraceIff | src/swim/GossipFailureDetector.cpp:235-252 | a reported suspect is evicted exactly when its grace period is over, if and only if the grace period does not exceed the current time; otherwise it is evicted regardless |
| Reporting.GraceIsRespected | src/swim/GossipFailureDetector.cpp:235-252 | nothing within its grace period is evicted |
| Reporting.ExpiredAreEvicted | src/swim/GossipFailureDetector.cpp:235-252 | every expired suspect is evicted when all suspects fit the budget |
| Reporting.LongGraceEvictsNobody | src/swim/GossipFailureDetector.cpp:235-252 | a grace period of 173999 ms, plus the time since the report was prepared, evicts nobody |
| Reporting.ShorterGraceEvicts | src/swim/GossipFailureDetector.cpp:235-252 | for any shorter grace period, and whenever the report was prepared, a server suspected in a fresh node is reported and evicted |
| Reporting.EvictsNobodyIff | src/swim/GossipFailureDetector.cpp:235-252 | a pass can evict nobody if and only if the grace period is at least 173999 ms plus the time since the report was prepared and does not exceed the current time |
| Cluster.SentIsSane | src/swim/SwimClient.cpp:72-76 | everything sent carries the clock reading it was made with plus one, never more than the clock plus one, and only older records |
| Cluster.RunKeepsInv | include/swim/SwimServer.hpp:293-295 | in every state of every run: stamps at or below clocks, disjoint sets, no port 0, no self-suspicion, listener in agreement, records in flight older than their envelopes and named once in their list |
| Cluster.ClockGrows | include/swim/SwimServer.hpp:293-295 | no clock goes back in any run |
| Cluster.RepeatedDelivery | src/swim/SwimServer.cpp:83-106 | in every run, delivering an envelope twice in a row has the membership of delivering it once, and notifies nobody the second time |
| Cluster.ReplayIsMembership | src/swim/SwimServer.cpp:290-383 | in every run, replaying a server's listener calls gives exactly its two sets |
| Cluster.RemovalsFollowSuspicions | src/swim/SwimServer.cpp:377-382 | in every run, a removal follows a suspicion of that server with nothing about it in between |
| Cluster.SuspicionOutlivesStep | src/swim/SwimServer.cpp:318-323 | in every run, a suspicion that outlives a step keeps its stamp and its time |
| Causality.HopClock | src/swim/SwimClient.cpp:72-76 | a delivery leaves the receiver's clock at least two above the clock that the sender read |
| Causality.EveryDeliveryIsAHop | src/swim/GossipFailureDetector.cpp:166-176 | whatever is sent and received in a run carries a reading that its sender took at some step |
| Causality.CausalClock | include/swim/SwimServer.hpp:293-295 | along any causal path the clock gains at least two for each envelope |
| Staleness.StaleAliveIsIgnored | src/swim/SwimServer.cpp:396-406 | a stale alive entry changes no membership and no stamp, and nothing at all if its server did not send the report and the report has nothing fresher about it |
| Staleness.StaleSuspectIsIgnored | src/swim/SwimServer.cpp:436-445 | a stale suspect entry changes no membership and no stamp, no record at all if the report has nothing fresher against its server, and draws an answer only from the accused |
| Staleness.AliveEntryIgnoredIff | src/swim/SwimServer.cpp:385-424 | an alive entry of a report in flight leaves records, listener calls and replies as they would be without it, if and only if it is about the receiver or port 0, or stale, or about the sender and adds nothing to its arrival |
| Staleness.SenderVouchesForItself | src/swim/SwimServer.cpp:389-410 | a stale entry of a suspect about itself is accepted: the stored time and incarnation are those of the entry, not of the arrival |
| Staleness.SuspectEntryIgnoredIff | src/swim/SwimServer.cpp:426-461 | a suspect entry of a report in flight leaves records, listener calls and replies as they would be without it, if and only if it is not about the receiver and is about port 0, stale, refuted by the report, or against a suspect with no higher incarnation |
| Staleness.AccusationIsAnswered | src/swim/SwimServer.cpp:427-434 | an accusation of the receiver, stale or not, is answered by one ping, and without it none is sent |
| Staleness.OnlyStaleAlive | src/swim/SwimServer.cpp:396-406 | a suspicion that meets only older signs of life stands unchanged |
| Staleness.OnlyStaleSuspect | src/swim/SwimServer.cpp:436-445 | a live server that meets only older suspicions stays alive |
| Causality.SupersededAlive | src/swim/SwimServer.cpp:396-410 | in every run: if the step after which A holds an alive record reaches, through at least one envelope, the step at which B begins to suspect the server, then that record and anything older is stale at B, and ignored in every respect unless the server itself sends it, if and only if B suspects the server at that moment; otherwise it makes the server alive, stamped with the current clock |
| Causality.SupersededSuspicion | src/swim/SwimServer.cpp:436-447 | the same with alive and suspected exchanged: an old suspicion is stale if and only if the server is alive at B when it arrives, and otherwise believed unless the same report vouches for the server; exactly when it is ignored in every respect |
| Causality.FirstSuspicionDecides | src/swim/SwimServer.cpp:318-329 | in every run: while a suspicion stands, a sign of life is stale if and only if it is older than the step that began the suspicion, whatever was reported since, and then ignored in every respect unless the suspect sends it; otherwise the server is alive afterwards |
| Scenarios.EvictedServerIsRevived | src/swim/SwimServer.cpp:396-410 | a run in which B suspects and evicts a server after hearing from A, and an older report of A then brings it back |
| Scenarios.OldSuspicionReturns | src/swim/SwimServer.cpp:436-447 | a run in which B sees a server and gives it up after hearing from A, and an older suspicion of A is then believed |
| Scenarios.LateSuspicionIsOverturned | src/swim/SwimServer.cpp:318-329 | a run in which a repeated suspicion follows a sign of life causally and is overturned by it |
| Scenarios.OldReadingBreaksCausality | src/swim/GossipFailureDetector.cpp:166-176 | a run in which a request with an old clock reading lets a sign of life overturn a suspicion that began after hearing from its holder |
| Causality.AccusedPingsRequestor | src/swim/SwimServer.cpp:426-434 | a server that hears itself accused in a forwarded report sends one ping, to the requestor |
| Causality.ForwardedReportArrives | src/swim/SwimServer.cpp:148-156 | where a forwarded report arrives the forwarder has been seen; the accused changes its mind about nobody else; any other server learns of the suspect only, which it suspects with the exact record unless it has a later sign of life |
| Causality.FalseSuspicionIsRefuted | src/swim/SwimServer.cpp:130-168 | in every run with the three deliveries of request, accusation and denial, each receiver knows its peer alive, the accused changes its mind about nobody but the forwarder, and the suspect is alive and not suspected at the requestor |
| Causality.RefutationSticks | src/swim/SwimServer.cpp:436-445 | a suspicion the requestor held before it read its clock for the request is stale when it comes back later, if and only if the requestor then takes the server for alive, and is then ignored in every respect |
| Scenarios.SuspicionCanBeRefuted | src/swim/SwimServer.cpp:130-168 | among any three servers of any cluster there is a run with the three deliveries, in which a suspicion is raised and refuted |
| ConcurrentServer.DisjointWithoutOverlap | src/swim/SwimServer.cpp:309-360 | while no AddAlive of a server overlaps a ReportSuspected of it, the sets are disjoint on it in every intermediate state |
| ConcurrentServer.InBothOnlyByOverlap | src/swim/SwimServer.cpp:309-360 | a server found in both sets proves an earlier overlap |
| ConcurrentServer.InBothIff | src/swim/SwimServer.cpp:309-360 | however one AddAlive and one ReportSuspected of a server interleave, it is in both sets afterwards if and only if each call's erase came before the other's insert, and it is in at least one |
| ConcurrentServer.OverlapCanLeaveBoth | src/swim/SwimServer.cpp:309-360 | some interleaving of two overlapping calls leaves the server in both sets |
| ConcurrentServer.InBothUntilErased | src/swim/SwimServer.cpp:309-360 | in every run from a state with no call about a server in progress and without overlaps: it is in both sets exactly if it was at the start and no call about it has erased it since |
| ConcurrentServer.GoodUnderAnyInterleaving | src/swim/SwimServer.cpp:290-367 | under any interleaving the server never suspects itself, no port-0 server is stored and no stamp is ahead of the clock |
| ConcurrentServer.InsertedStampWasRead | src/swim/SwimServer.cpp:304-322 | in every run the stamp of a new record is the clock in the state in which the inserting call read it |
| ConcurrentServer.StoredStampStep | src/swim/SwimServer.cpp:351-360 | a stored stamp changes only when a known server is seen again, to the clock of that moment |
| ConcurrentServer.UninterruptedAddAlive | src/swim/SwimServer.cpp:332-367 | the blocks of AddAlive, run alone, do what the whole call does, listener calls included |
| ConcurrentServer.UninterruptedReportSuspected | src/swim/SwimServer.cpp:290-330 | the blocks of ReportSuspected, run alone, do what the whole call does, listener calls included |
| ConcurrentServer.UninterruptedEvict | src/swim/SwimServer.cpp:369-383 | the blocks of an eviction, run alone, do what the whole call does, listener calls included |
| ConcurrentServer.SelfSuspicionAlone | src/swim/SwimServer.cpp:298-302 | a call that suspects the server itself, run alone, stamps it alive with the clock, and tells the listener exactly if it was not alive |
| ConcurrentServer.TickIsUpdate | include/swim/SwimServer.hpp:293-295 | advancing the clock does the same to the shared state as to the node, past both clocks, and disturbs no call |
| ConcurrentListener.ListenerCatchesUp | src/swim/SwimServer.cpp:325-327 | in every run without a ReportSuspected of a server that overlaps an AddAlive or an eviction of it, replaying the listener's calls gives its membership whenever no call about it is in progress |
| ConcurrentListener.LateAliveMisleads | src/swim/SwimServer.cpp:362-364 | an interleaving after which the server is suspected and the listener takes it for alive |
| ConcurrentListener.LateRemovalMisleads | src/swim/SwimServer.cpp:377-382 | an interleaving after which the server is suspected and the listener has forgotten it |
| RoundRobin.FirstRound | src/swim/GossipFailureDetector.cpp:121-138 | up to one round the picks differ; from one round on everybody is picked |
| RoundRobin.PickedSize | src/swim/GossipFailureDetector.cpp:121-138 | a call returns as many servers as it makes picks, or all of them |
| RoundRobin.PicksAreFair | src/swim/GossipFailureDetector.cpp:121-138 | no server is picked two times more often than another |
| RoundRobin.CallsAreFair | src/swim/GossipFailureDetector.cpp:119-138 | over any series of calls pick counts differ by at most one, and enough picks reach everybody |
| RoundRobin.ReturnsEveryPickIff | src/swim/GossipFailureDetector.cpp:119-138 | a call returns each pick once if and only if it does not go round more than once |
| RoundRobin.ReturnsAreFair | src/swim/GossipFailureDetector.cpp:119-138 | if no call goes round more than once, what is returned is fair too |
| RoundRobin.AlternatingReturns | src/swim/GossipFailureDetector.cpp:119-138 | on every ring, calls that alternate between one less and one more than a round return the last server once where they return each other server twice |
| RoundRobin.ReturnsCanBeUnfair | src/swim/GossipFailureDetector.cpp:119-138 | from every place on every ring of two or more, some calls of at most one more than a round are unfair |
| RoundRobin.FairIff | src/swim/GossipFailureDetector.cpp:119-138 | all calls bounded by some number are fair if and only if that number is at most the size of the ring, or the ring has one server |
| GossipServer.SwimServer.constructor | src/swim/SwimServer.cpp:15-25 | a new server knows nobody and its clock is 0 |
| GossipServer.SwimServer.UpdateLamportTime | include/swim/SwimServer.hpp:293-295 | only the clock changes, to the maximum plus one |
| GossipServer.SwimServer.RemoveSuspected | src/swim/SwimServer.cpp:369-383 | removes the suspect, and announces it only when evicting one that was there |
| GossipServer.SwimServer.AddAlive | src/swim/SwimServer.cpp:332-367 | the whole new state: the exact record, the listener call, nobody else changed; and when the server counts as newly inserted |
| GossipServer.SwimServer.ReportSuspected | src/swim/SwimServer.cpp:290-330 | the whole new state, with port 0 and with the server itself, which is seen instead; and when the suspect counts as newly inserted |
| GossipServer.SwimServer.OnUpdate | src/swim/SwimServer.cpp:464-483 | a ping amounts to AddAlive, and the second erase finds nothing |
| GossipServer.SwimServer.RaiseAlive | src/swim/SwimServer.cpp:412-423 | raises the stored incarnation to a higher reported one |
| GossipServer.SwimServer.RaiseSuspected | src/swim/SwimServer.cpp:449-460 | the same in the suspected set |
| GossipServer.SwimServer.ReadAliveEntry | src/swim/SwimServer.cpp:391-424 | one iteration over the alive list |
| GossipServer.SwimServer.ReadSuspectEntry | src/swim/SwimServer.cpp:426-461 | one iteration over the suspected list, with the ping that denies a suspicion of the server itself |
| GossipServer.SwimServer.OnReport | src/swim/SwimServer.cpp:385-462 | the two loops compute the report function whose closed form is proved, and send one ping for each entry that suspects the server |
| GossipServer.SwimServer.ForwardPing | src/swim/SwimServer.cpp:139-167 | sends a report in the name of the requestor that accuses the destination and says nothing else, and suspects the destination if it does not reply |
| GossipServer.SwimServer.Receive | src/swim/SwimServer.cpp:83-106 | the dispatch of the listening loop, by message type: the sender of a ping or request is seen now, with the new clock; a report is answered by exactly one ping for each entry that suspects the server; an unknown message does nothing |
| GossipServer.SwimServer.GetNeighborByIndex | src/swim/SwimServer.cpp:226-245 | the alive server with exactly that many smaller ones, the smallest past the end, nothing exactly for an empty set |
| GossipServer.SwimServer.PrepareReport | src/swim/SwimServer.cpp:170-199 | each list of the report is a budgeted selection from the set of that name |
| GossipServer.SortByLamport | src/swim/SwimServer.cpp:207-212 | a permutation in descending Lamport time, with nothing promised about ties |
| GossipServer.AddRecordsToBudget | src/swim/SwimServer.cpp:201-224 | the longest prefix of some descending order that stays within the budget |
| NeighborRing.SeriesIsOneRun | src/swim/GossipFailureDetector.cpp:119-138 | calls made one after the other with unchanged membership continue one walk round the ring |
| NeighborRing.SeriesReachesAll | src/swim/GossipFailureDetector.cpp:119-138 | as many picks as there are other servers reach all of them |
| NeighborRing.SeriesIsFair | src/swim/GossipFailureDetector.cpp:119-138 | servers are returned equally often, give or take one, if no call asks for more than there are |
| NeighborRing.SeriesIsFairIff | src/swim/GossipFailureDetector.cpp:112-138 | from every index, all series of calls that ask for at most k servers are fair if and only if k is at most the number of others, or the server is not in its own alive set, or there are fewer than two others |
| Detector.GossipFailureDetector.NextNeighbor | src/swim/GossipFailureDetector.cpp:123-127 | the neighbor at the index, which starts over past the end |
| Detector.GossipFailureDetector.PickNext | src/swim/GossipFailureDetector.cpp:123-137 | one turn of the selection loop: a pick, or a skip of the server itself that is followed by a pick unless the server is alone |
| Detector.GossipFailureDetector.GetUniqueNeighbors | src/swim/GossipFailureDetector.cpp:112-138 | terminates, never returns the server itself, returns the smaller of the number asked for and the number of other servers, all alive, and goes on where the last call stopped |
| Detector.GossipFailureDetector.GarbageCollectSuspected | src/swim/GossipFailureDetector.cpp:235-252 | removes exactly the expired suspects among those a prepared report lists |
| Detector.GossipFailureDetector.SendReportTo | src/swim/GossipFailureDetector.cpp:157-181 | sends the report; after a failure the neighbor is suspected, and the next neighbors on the ring, as many as configured or all, are asked once each to ping it, never the neighbor or the server itself |
| Detector.GossipFailureDetector.Contact | src/swim/GossipFailureDetector.cpp:195-203 | sends that, and notes a reply by seeing the neighbor |
| Detector.GossipFailureDetector.RequestPings | src/swim/GossipFailureDetector.cpp:167-177 | one request to each forwarder, stamped with the clock plus one |
| Detector.GossipFailureDetector.SendReports | src/swim/GossipFailureDetector.cpp:183-204 | a full round: the contacts are the next picks on the ring; each gets the report prepared before the round exactly once; those that replied are seen now with the clock, the silent ones suspected now and each followed by its distinct requests; nothing else is sent or changed, and the listener stays in agreement |
| Rounds.AllNotedKeys | src/swim/GossipFailureDetector.cpp:195-203 | whatever the order in which live neighbors are contacted, exactly the silent ones move from alive to suspected |
| Rounds.AllNotedRecords | src/swim/GossipFailureDetector.cpp:195-203 | after a round who replied has its incarnation, the time of the round and the clock, who stayed silent is suspected with that time and clock, and nobody else has changed |
| Rounds.RoundReports | src/swim/GossipFailureDetector.cpp:195-203 | a round sends exactly one report to each contact and none to anybody else |
| Rounds.RoundEnvelopes | src/swim/GossipFailureDetector.cpp:160-177 | everything a round sends is the report to a contact, or a request to a live server, neither the sender nor the suspect, to ping a contact that stayed silent |
| Rounds.RoundsReachAll | src/swim/GossipFailureDetector.cpp:119-138 | rounds in which everybody replies contact every other server once they have made as many picks as there are others |
| Rounds.RoundsAreFair | src/swim/GossipFailureDetector.cpp:119-138 | such rounds contact any two servers equally often, give or take one, if none asks for more servers than there are others |

## Left out

- Sockets, polling, message encoding and the thread wrapper of `postMessage`: a send is an envelope in the network and a reply that comes or does not.
- Thread start and stop, sleeps, destructors and `StopAllBackgroundThreads`: they depend on wall-clock waits.
- The REST server, the HTTP client, the example programs and the string utilities: not part of the protocol.
- `ip_addr` of a server and the `forwarder` of a record: carried along but never compared.
- Envelopes without a sender, report or destination: the handlers dereference these without a check.
- GossipServer.SwimServer.UpdateLamportTime: does not model the wrap-around of the 64-bit clock, which no run of practical length reaches.
- The conversion of the neighbor count to a 32-bit `int`.
- Rounding in the floating-point cost: exact integers take its place.
- Random neighbor selection, `SendReport` of a single report, `PingRandomSuspected` and `AddNeighbor`: the calls they end in are modelled, and happen at any moment in a run.
- ConcurrentServer.DisjointWithoutOverlap: covers membership and stamps; the checks that `OnReport` makes under one lock before it calls AddAlive or ReportSuspected are not part of that call and appear only in the call-atomic model.
- Detector.GossipFailureDetector.GetUniqueNeighbors: the alive set does not change during the call; a set emptied by another thread in between makes the source throw.
- The order in which a round contacts its neighbors: the source follows the set order, the model allows any.
- Eventual convergence and detection times: the code states no assumptions about the network that would imply them.
