# Verification of the cluster manager and its neighbours

This project models the parts of the conference server that keep state over long runs, and proves what they promise
over all of those runs.

- **The cluster manager** (`ElectionModel`, `ElectionSafety`, `ElectionNode`, `ElectionProgress`, `Replication`,
  `CatchUp`, `LogMatching`, `ElectionExamples`, `Locking`, `ClusterManager`, `FailureDetector`). A few manager nodes
  elect a leader by terms and votes; the leader sends every served update, and a snapshot on request, to the others.
  `ElectionModel` is a step relation over the nodes and a set of messages that never shrinks, so that messages can be
  lost, repeated and reordered at will. The imperative handlers in `ElectionNode` compute exactly those steps. They
  run under one lock, and `Locking` proves that lock, so each of them is one step. `ClusterManager.Manager` is the
  registry behind a node: each update it serves changes the replicated worker table as the pure `Replay` does, and the
  leader's and the follower's tables in `Replication` are made of the same `Replay`.
- **The scheduler of one purpose** (`SchedulerModel`, `Scheduler`, `SchedulerProperties`, `FreshAnswers`, `Matcher`,
  `Strategy`, `WeightRobin`, `WeightRobinFairness`): bookings with reserve timers, matching, and
  allocation strategies that remember what they did.
- **The two ends below it**: `WorkerLink`, `LinkRecovery` and `ClusterWorker` are a worker's join, keep-alive and
  recovery over a first-in-first-out channel; `NodePool`, `NodeAnswers` and `NodeManager` are an agent's pool of
  worker processes.
- **Four kernels**: the mixer of the k loudest streams (`SelectiveMixer`), the link graph of connections (`LinkGraph`,
  `LinkAgreement`, `Connections`), the portal's message buffer (`ReconnectBuffer`, `PortalConnection`), and the table of
  default bitrates (`BitrateTable`).

Each class holds the fields the source updates, and each of its methods is proved to compute a function of the old
state; the lemmas prove what those functions keep over whole runs. `Common` and `WorkerTypes` hold shared vocabulary.
Ids, tasks, names, rooms and streams are strings in the source that are only compared; numbers stand for them.
`dafny verify dfyconfig.toml` checks the whole project.

## What the proofs brought to light

The code is modelled as it stands. Where a promise does not hold in general, the exact condition is proved.

- A candidate adopts the term of a heartbeat without comparing it with its own, so a term can fall, and a new candidacy
  forgets the vote of the term it reaches again: two nodes can lead one term (`TwoLeadersInOneTerm`). The safety results
  are about runs without such an adoption, and `OnlyAdoptionLowersATerm` shows that nothing else lowers a term. The
  condition is exact for terms that never fall, not for safety: an adoption does not by itself elect a second leader.
- A leader that steps down becomes a freshman again and skips updates it counts as applied (`ExLeaderSkipsUpdates`);
  among nodes that skipped nothing, log term and position determine the table as long as none that did is elected
  (`TablesMatch`).
- A snapshot taken before its leader's first update sets a log term that this update does not name: the follower refuses
  the entry and needs a second snapshot (`FirstEntryRefused`); `CatchesUpIff` says exactly when entries are enough.
- `clusterInfo` is not part of a snapshot, so a promoted leader throws when it drops a worker of a purpose
  it never saw a worker join for (`PromotedLeaderThrows`), and leaves the rest of that check undone; no handler in
  `source/cluster_manager` catches the exception. `NeverThrowsIff` and `KnowingNeverThrows` say exactly when this cannot happen.
- The timer of a snapshot request outlives it and may end a later request (`TimerOutlivesRequest`).
- Adding a worker under a registered id wipes its task list and can orphan bookings (`AddKeepsBookingsIff`); after a
  failover so can a worker that rejoins under the id of one that is gone (`SoundRunIff`).
- Least-used looks for loads below 1 only (`LeastUsedCanFail`), whatever the workers' maximum is.
- A process that exits between its pick and the pick's zero-delay follow-up makes the pool push `undefined`
  (`HoleReachable`, `PoolOrderlyIff`). Such an entry can hide the node of a room from the search, and the room ends up on
  two running nodes (`RoomOnTwoNodes`); `RoomAffinityIff` says exactly which calls do that. A refused `getNode` wipes the
  records of all rooms of its node (`SettledIff`).
- A task that a worker is given before its first join is answered is never announced (`EarlyTaskIsLost`); both ends agree
  exactly if it has none left by then, or its entry is gone (`BothEndsAgreeIff`).
- Linking a connection again without cutting it off first leaves a destination behind, or serves it twice when the
  source is the same (`LinkSideAgreesIff`).
- A relogin deletes the times of the buffered messages, after which nothing is ever evicted (`ReloginStopsEviction`);
  a later send leaves exactly the recent messages if and only if those that relogins found are among them
  (`BufferIsExactlyTheRecentIff`). For protocol 1.2 the pending list is never drained (`PendingNeverDrains`).
- A size of 0 or less gets the top bitrate of 64000 (`BitrateRange`).

## Model

| member | source | states |
|---|---|---|
| ElectionSafety.ElectionSafety | source/cluster_manager/clusterManager.js:899-953 | Election safety: in every run in which no candidate adopts a heartbeat of a lower term, under any loss, duplication and reordering, two heartbeats of one term come from one node, and no node grants one term to two candidates |
| ElectionSafety.LeaderNeverBehindItsVoters | source/cluster_manager/clusterManager.js:1280-1326 | In every run a leader counts more than half of `totalNode` distinct voters, each of which really granted it this term, and its position is at least the one each had when it first did |
| ElectionSafety.OnlyAdoptionLowersATerm | source/cluster_manager/clusterManager.js:1327-1345 | Some node's term falls in a step if and only if a candidate adopts an older heartbeat in it: the condition on runs is exact for terms that never fall, and sufficient for safety |
| ElectionSafety.EffectOnTerm | source/cluster_manager/clusterManager.js:1327-1345 | For one handler: the term falls exactly when a candidate takes up a heartbeat of a lower term that its log does not refuse |
| ElectionSafety.EffectOnPosition | source/cluster_manager/clusterManager.js:818-830 | No handler lowers a node's commit position, and the last log index stays equal to it |
| ElectionSafety.EffectOnVotes | source/cluster_manager/clusterManager.js:1318-1325 | The marks and votes a handler publishes, repeated grants included, speak for the state it leaves behind |
| ElectionSafety.EffectOnGrant | source/cluster_manager/clusterManager.js:920-952 | A vote is new exactly when the handler casts it, on a request of a term it has not voted in and whose sender it does not outrank; otherwise the earlier vote is kept, or forgotten by a new candidacy |
| ElectionSafety.EffectKeepsVote | source/cluster_manager/clusterManager.js:920-927 | Within a term a node keeps its vote and nobody becomes a candidate again |
| ElectionSafety.EffectOnRole | source/cluster_manager/clusterManager.js:1310-1326 | Voters and role move together: a candidate counts a new vote at a time, and whoever leads has more than half; `LeadsIff` is the converse |
| ElectionSafety.NextInv | source/cluster_manager/clusterManager.js:899-953 | The vote and position invariant survives every event, with no condition on the run |
| ElectionSafety.NextOneVote | source/cluster_manager/clusterManager.js:1270-1308 | No event makes a node grant two candidates in one term |
| ElectionSafety.NextElected | source/cluster_manager/clusterManager.js:1318-1325 | Every heartbeat in flight comes from a node that a majority granted its term |
| ElectionSafety.RunSafe | source/cluster_manager/clusterManager.js:899-953 | The whole safety invariant holds after every run without an older-heartbeat adoption |
| ElectionProgress.MajorityElectsIff | source/cluster_manager/clusterManager.js:1310-1326 | A majority elects: a candidate to which any grants of its term are delivered, in any order and repeated at will, leads that term afterwards if and only if the voters it had counted and those of the grants are together more than half of `totalNode` |
| ElectionProgress.ElectionSucceedsIff | source/cluster_manager/clusterManager.js:1144-1326 | A whole election, from any state of any run: a node times out, its request reaches some nodes that may grant it and their grants come back; then it leads the next term if and only if they are more than half of `totalNode` |
| ElectionProgress.LeadsIff | source/cluster_manager/clusterManager.js:1317-1326 | A node becomes leader exactly if it is a candidate and is delivered a vote for its id and term from a node it has not counted, with no newer term in it, that lifts its count above half; it then sends its heartbeat and is no freshman |
| ElectionProgress.GivesUpIff | source/cluster_manager/clusterManager.js:1256-1345 | A candidate turns follower exactly for a request or an answer of a newer term, or for a heartbeat of a node that it is not ahead of, whatever the terms; it takes that message's term |
| ElectionProgress.StepsDownIff | source/cluster_manager/clusterManager.js:1069-1076 | A leader steps down exactly for another node's heartbeat of a newer term or the loss of its own, and is a freshman then |
| ElectionProgress.GrantedIff | source/cluster_manager/clusterManager.js:899-953 | A request is granted exactly by a node that has no other leader, has not voted in that term or newer ones and is not ahead in the log, or that repeats its vote; the grant is sent and remembered, and counted as new only the first time |
| ElectionProgress.OutranksIff | source/cluster_manager/clusterManager.js:930-945 | A node is ahead of a sender exactly if it has a log, stands at another position, and has a newer log term or a greater position |
| ElectionProgress.FollowsIff | source/cluster_manager/clusterManager.js:867-898 | A follower takes a heartbeat's sender for its leader exactly if it has no other leader and neither its term nor, at another position, its log term is newer |
| ElectionProgress.AsksForVotes | source/cluster_manager/clusterManager.js:1144-1159 | Whoever times out asks for votes in the next term, with none counted and its own vote free |
| ElectionExamples.TwoLeadersInOneTerm | source/cluster_manager/clusterManager.js:1144-1153 | Without that condition safety fails: a concrete run of twelve events, the seventh of them the adoption, after which nodes 1 and 3 have both sent heartbeats as leaders of term 0 and node 2 has granted both |
| ElectionNode.ClusterNode.Commit | source/cluster_manager/clusterManager.js:1116-1123 | A served update moves the leader's position by one and goes out with the previous index and term |
| ElectionNode.ClusterNode.OnTopicMessage | source/cluster_manager/clusterManager.js:791-1352 | For every role and message the imperative handlers compute the step of the system model |
| ElectionNode.ClusterNode.OnTimer | source/cluster_manager/clusterManager.js:1166-1179 | The same for the events a node raises itself |
| Replication.FollowerHoldsLeadersTable | source/cluster_manager/clusterManager.js:804-866 | Within one leader's term a follower that installed a snapshot holds, at position k, exactly the worker table the leader had at k, whatever entries were lost, repeated or reordered; both moments of the run are arbitrary |
| CatchUp.CatchesUpIff | source/cluster_manager/clusterManager.js:838-866 | Catching up, from any state of any run without an older-heartbeat adoption: all entries between a follower's position and its leader's are in flight, and delivering them in order brings the follower to the leader's position with the leader's table, if and only if the two stood at the same position or the leader had made an update of its term by the follower's position |
| CatchUp.TakesInEntriesIff | source/cluster_manager/clusterManager.js:838-866 | The same for any number of entries: a follower takes in all entries of its leader's term delivered in order, or, if it stands where its leader was elected, refuses them all; either way it holds what its leader had at its position |
| CatchUp.EntryTakenIff | source/cluster_manager/clusterManager.js:838-866 | An entry moves position and log exactly if its sender is heeded and it hooks onto the follower's log, freshman or not; the table follows exactly if the follower is none |
| CatchUp.SnapshotSyncsIff | source/cluster_manager/clusterManager.js:750-836 | A follower that asks its leader for a snapshot is answered and ends with the leader's table, position and term, if and only if neither its term nor its position was ahead |
| CatchUp.SnapshotInstalledIff | source/cluster_manager/clusterManager.js:804-836 | A snapshot is installed exactly by the follower it is for, if neither its term nor its position is behind; otherwise nothing changes |
| CatchUp.SnapshotSentIff | source/cluster_manager/clusterManager.js:1051-1068 | A snapshot is sent exactly by the leader that is asked for one, to another node, and holds its table and mark |
| ElectionExamples.FirstEntryRefused | source/cluster_manager/clusterManager.js:853-862 | A concrete run to the contrary: a follower with the snapshot of a leader that has made no update yet refuses its first entry, and needs another snapshot |
| Replication.FollowerNotAhead | source/cluster_manager/clusterManager.js:854-858 | While its leader leads, a follower is never past the leader's position |
| Replication.StopsFollowing | source/cluster_manager/clusterManager.js:750-765 | What makes a node stop being such a follower: a new role, a new term, or a new snapshot |
| Replication.EntryAppliedIff | source/cluster_manager/clusterManager.js:354-357 | An accepted entry moves the position; it is applied to the table if and only if the node is no freshman or the entry changes nothing |
| Replication.NewLeaderNewTerm | source/cluster_manager/clusterManager.js:1318-1325 | A node becomes leader only in a term nobody has led |
| Replication.NextLeadersDiffer | source/cluster_manager/clusterManager.js:1070-1076 | No event makes two leaders of the same term at once |
| Replication.NextMessagesRecorded | source/cluster_manager/clusterManager.js:1064-1068 | Every snapshot in flight carries a table its leader had; every entry leads from one such table to the next |
| Replication.NextFollowersExact | source/cluster_manager/clusterManager.js:854-866 | Every event keeps every follower on its leader's history |
| Replication.RunReplica | source/cluster_manager/clusterManager.js:804-866 | The replication invariant holds after every run without an older-heartbeat adoption |
| LogMatching.TablesMatch | source/cluster_manager/clusterManager.js:804-866 | Log matching across terms: in every run without an older-heartbeat adoption in which no node that skipped an entry is elected, two nodes, at any two moments, that skipped no entry since they started or installed a snapshot and have the same log term and position hold the same table, whichever leaders they followed |
| LogMatching.NoFreshmanIsWhole | source/cluster_manager/clusterManager.js:354-357 | In such runs every leader and every node that is no freshman is such a node |
| ElectionExamples.ExLeaderSkipsUpdates | source/cluster_manager/clusterManager.js:406-410 | The condition on skipped entries is needed: in a concrete run an ex-leader accepts an entry and skips it because stepping down made it a freshman, and then stands at the leader's log term and position without its table |
| Locking.HandOver | source/cluster_manager/clusterManager.js:620-683 | When every `lock` call is a request of its own and a request unlocks once, after its grant: the set of requests that were granted and have not unlocked holds at most one, is empty exactly when the lock is free, and otherwise is the request granted last; a waiting request implies that the lock is held; grants come in request order |
| Locking.UnlockKeepsIff | source/cluster_manager/clusterManager.js:664-682 | While the lock is held an unlock keeps that if and only if it is made by the request inside: `unlock` itself does not look |
| Locking.Mutex.Acquire | source/cluster_manager/clusterManager.js:635-662 | Grants at once if free, otherwise queues at the end |
| Locking.Mutex.Release | source/cluster_manager/clusterManager.js:664-682 | Hands over to the oldest waiting request and stays locked, or becomes free; the caller has unlocked |
| Locking.GateBalanced | source/cluster_manager/clusterManager.js:750-765 | In every run of requests, continuations, timeouts and installed snapshots the gate's lock is exclusive, the open request is the one inside, requests are opened in the order of their grants and closed once each, in that order and before the next one opens, and there is no unlock but these closings |
| Locking.TimerEndsOwnIff | source/cluster_manager/clusterManager.js:756-761 | A timer that fires ends the open request, which is its own if and only if that was not closed before |
| Locking.TimerOutlivesRequest | source/cluster_manager/clusterManager.js:756-761 | A concrete run in which the timer of one request ends the next one |
| Locking.NextInLine | source/cluster_manager/clusterManager.js:750-765 | However the open request ends, by a snapshot or its own timer, the oldest request that waits is opened by the next continuation; if none waits, the gate is free |
| Locking.FreeGateOpens | source/cluster_manager/clusterManager.js:750-765 | A request at a free gate is opened by its own continuation |
| Locking.SnapshotGate.InstallSnapshot | source/cluster_manager/clusterManager.js:750-752 | A snapshot request takes the gate's lock or waits for it |
| Locking.SnapshotGate.Granted | source/cluster_manager/clusterManager.js:752-765 | Once granted it opens a request only if none is open, and gives the lock back otherwise |
| Locking.SnapshotGate.Close | source/cluster_manager/clusterManager.js:756-761 | Timer and installed snapshot each end the open request once |
| ClusterManager.Manager.Join | source/cluster_manager/clusterManager.js:101-125 | The replicated worker table becomes the replay of the join, which is sent on, and the purpose is known from then on |
| ClusterManager.Manager.Quit | source/cluster_manager/clusterManager.js:127-154 | The table loses the worker; an exception is thrown exactly for an unknown worker or a purpose missing from `clusterInfo`, in the second case after the entry was sent |
| ClusterManager.Manager.ReportState | source/cluster_manager/clusterManager.js:165-168 | State reports replay exactly; unknown workers change nothing |
| ClusterManager.Manager.ReportLoad | source/cluster_manager/clusterManager.js:170-174 | Load reports replay exactly |
| ClusterManager.Manager.PickUpTasks | source/cluster_manager/clusterManager.js:176-179 | Picking up tasks replays exactly on the worker's task list |
| ClusterManager.Manager.LayDownTask | source/cluster_manager/clusterManager.js:181-184 | Laying a task down replays exactly |
| ClusterManager.Manager.UnscheduleTask | source/cluster_manager/clusterManager.js:208-211 | Unscheduling leaves the table alone and is sent on |
| ClusterManager.Manager.SetUpdatedData | source/cluster_manager/clusterManager.js:354-387 | A follower's table after an entry is the replay of the entry, exceptions included, unless it is a freshman; registry and known purposes follow |
| ClusterManager.RegistryFollowsTable | source/cluster_manager/clusterManager.js:354-387 | A replayed entry registers and drops exactly the workers it puts into and takes out of the table, and a joined one counts from 0 |
| ClusterManager.ReplayIs | source/cluster_manager/clusterManager.js:354-387 | What an entry does to the replicated table: who is in it, for which purpose, in which state, how loaded and with which tasks |
| ClusterManager.ReplayIsScheduling | source/cluster_manager/clusterManager.js:354-387 | Replaying an entry makes of a worker's record what the scheduler of its purpose makes of the worker itself |
| ClusterManager.Manager.SetRuntimeData | source/cluster_manager/clusterManager.js:342-352 | A snapshot makes the table the snapshot's table and ends being a freshman |
| ClusterManager.Manager.KeepAlive | source/cluster_manager/clusterManager.js:156-163 | A registered worker's count starts again; an unknown one is told so |
| ClusterManager.Manager.CheckAlive | source/cluster_manager/clusterManager.js:91-99 | One tick goes through different workers in some order, counts them, drops the overdue and ends with the drop that throws or after everybody; the table is the replay of the departures in that order, exactly these are sent on, and the known purposes stay |
| ClusterManager.TickThrowsIff | source/cluster_manager/clusterManager.js:91-99 | A tick throws if and only if some overdue worker is of a purpose missing from `clusterInfo`, whatever the order |
| ClusterManager.FullTick | source/cluster_manager/clusterManager.js:91-99 | A tick that has been through everybody counts everybody and drops exactly the overdue, whatever the order |
| FailureDetector.SilenceIsCounted | source/cluster_manager/clusterManager.js:91-99 | As long as every worker overdue at a tick is of a known purpose: from a count of 0 on a silent worker is registered if and only if at most `checkAliveCount` ticks have passed, and its count is the number of those ticks, whatever other workers do |
| FailureDetector.SilenceIsVisited | source/cluster_manager/clusterManager.js:91-99 | Without that condition the same holds for the number of ticks that came to the worker |
| FailureDetector.NeverThrowsIff | source/cluster_manager/clusterManager.js:91-99 | No tick of a run throws if and only if every worker overdue at a tick is of a known purpose |
| FailureDetector.KnowingNeverThrows | source/cluster_manager/clusterManager.js:107-122 | A manager that knows the purposes of all its workers goes on knowing them and never throws, until it installs a snapshot |
| FailureDetector.CheckKnowing | source/cluster_manager/clusterManager.js:91-99 | For such a manager a check does not throw and is the full tick |
| FailureDetector.SilenceSinceContact | source/cluster_manager/clusterManager.js:156-163 | The count starts at the last join or accepted keep-alive: the worker goes at tick `checkAliveCount` + 1 after it and never earlier |
| FailureDetector.PromotedLeaderThrows | source/cluster_manager/clusterManager.js:137-138 | A node that learned a worker from a snapshot only and then serves throws at the tick that should drop it |
| SchedulerProperties.NoOrphanBooking | source/cluster_manager/scheduler.js:35-118 | After any run of adds of new ids, removals, pick-ups, lay-downs, schedules, unschedules and timer firings every booking is executing on its worker or has a live timer, and task lists have no duplicates |
| SchedulerProperties.AddKeepsBookingsIff | source/cluster_manager/scheduler.js:96-105 | One join, under a registered id or not, keeps bookings backed if and only if no booking that names it lacks a live timer; so it always does for a new id where all bookings are backed |
| SchedulerProperties.StickyStep | source/cluster_manager/scheduler.js:140-184 | One operation keeps the booking of t on w if and only if it is none of: t's timer firing, an unschedule or lay-down of t, a pick-up of t elsewhere, the removal of w; and then its reserve time is the longer of what it was and what a `schedule` of t asks |
| SchedulerProperties.StickyBooking | source/cluster_manager/scheduler.js:140-155 | Over any run without those, the booking stays, every schedule of t answers w, and the reserve time is the longest that was asked for |
| SchedulerProperties.AnswersAgain | source/cluster_manager/scheduler.js:140-178 | Over any run that does not disturb the booking, `schedule` of t goes on answering the worker it answered first, whatever else is asked or found |
| SchedulerProperties.ScheduleBooks | source/cluster_manager/scheduler.js:140-178 | What `schedule` answers is booked and is executing or has a live timer; a new booking lasts as long as asked or the default, an old one the longer of its time and what is asked; no other booking changes |
| SchedulerProperties.BookedIff | source/cluster_manager/scheduler.js:35-184 | For each operation exactly when a task is booked on a worker afterwards, whether it was before or not |
| SchedulerProperties.ListedIff | source/cluster_manager/scheduler.js:52-138 | For each operation exactly which workers are registered and which tasks they execute afterwards |
| SchedulerProperties.TimeAfter | source/cluster_manager/scheduler.js:35-178 | How long a booking lasts after each operation: only `schedule` changes it, and a task picked up unbooked gets the default |
| SchedulerProperties.JoinsLoaded | source/cluster_manager/scheduler.js:96-105 | A worker joins without state and tasks and counts as loaded to its maximum, or to 1 if that is missing or 0 |
| SchedulerProperties.ReportsIff | source/cluster_manager/scheduler.js:120-126 | Reports change the state or the load they report, and no other operation changes state, load or information of a registered worker |
| SchedulerProperties.LoadIsReported | source/cluster_manager/scheduler.js:96-105 | A registered worker's load is the last one it reported since it joined, or the initial load; in a scheduler that took workers over, at first the load it was taken over with |
| SchedulerProperties.AvailableHasReported | source/cluster_manager/scheduler.js:13-15 | A worker is available only with a load below its maximum that it reported since it joined or was taken over with |
| SchedulerProperties.OpSoundIff | source/cluster_manager/scheduler.js:35-118 | Every operation keeps bookings backed, except a join that finds a booking naming it without a live timer; such a join never does |
| Scheduler.Scheduler.ReserveWorkerForTask | source/cluster_manager/scheduler.js:35-43 | A reservation replaces the task's timer by one of its own |
| Scheduler.Scheduler.RepealTask | source/cluster_manager/scheduler.js:45-50 | A repeal deletes the booking with its timer |
| Scheduler.Scheduler.ExecuteTask | source/cluster_manager/scheduler.js:52-70 | Executing a task moves the booking to the worker, ends its timer and lists the task once |
| Scheduler.Scheduler.CancelExecution | source/cluster_manager/scheduler.js:72-90 | Cancelling takes the task off the list and ends its booking or leaves it a timer |
| Scheduler.Scheduler.AddWorker | source/cluster_manager/scheduler.js:96-105 | A worker starts without tasks at its initial load |
| Scheduler.Scheduler.RemoveWorker | source/cluster_manager/scheduler.js:107-118 | Removing a worker ends the bookings it holds for its tasks |
| Scheduler.Scheduler.PickUpTasks | source/cluster_manager/scheduler.js:128-132 | Tasks are picked up one after the other |
| Scheduler.Scheduler.LayDownTask | source/cluster_manager/scheduler.js:134-138 | A task is laid down on a registered worker only |
| Scheduler.Scheduler.UnscheduleTask | source/cluster_manager/scheduler.js:180-184 | Only the booked worker's booking is ended |
| Scheduler.Scheduler.TimerFires | source/cluster_manager/scheduler.js:42 | A reserve timer that fires ends the booking of its task |
| Scheduler.Scheduler.CollectCandidates | source/cluster_manager/scheduler.js:157-166 | The candidates are the available workers, once each, in enumeration order |
| Scheduler.Scheduler.ScheduleTask | source/cluster_manager/scheduler.js:140-178 | A held booking is answered as it is with its time extended; otherwise the answer is what a fresh search ends with, down to the worker the strategy chooses and what it remembers. An answered worker has the task booked, executing or with a live timer, for the time asked for |
| Scheduler.Scheduler.ScheduleFresh | source/cluster_manager/scheduler.js:157-177 | The search ends with the matched worker that the strategy chooses, booked and answered, or with the error of the step that found nobody |
| FreshAnswers.FreshAnswerIsSound | source/cluster_manager/scheduler.js:157-177 | After any run, under any strategy and whatever it remembers, an answered worker is registered, available, has reported a load below its maximum since joining, meets the preference, and is of the preferred region whenever the purpose ranks by region and any available worker that meets the preference is; with maxima of at most 1 and no negative load a search fails only if no available worker meets the preference |
| Scheduler.Scheduler.SetData | source/cluster_manager/scheduler.js:208-213 | A snapshot's bookings are taken over without timers |
| Scheduler.Scheduler.Serve | source/cluster_manager/scheduler.js:215-222 | After `serve` every booking on a registered worker is executing or has a live timer, and every other booking is as it was |
| SchedulerProperties.SoundRunIff | source/cluster_manager/scheduler.js:96-105 | From a sound scheduler on, be it an empty one or one that took over a snapshot and serves (then for bookings on registered workers), every booking stays executing or timed throughout a run if and only if each worker that joins, under whatever id, finds no booking that names it without a live timer |
| SchedulerProperties.SoundIff | source/cluster_manager/scheduler.js:35-118 | The two readings of soundness: all bookings are backed if and only if those on registered workers are and the others have live timers |
| FreshAnswers.MatchedIsSound | source/cluster_manager/matcher.js:20-45 | After any run every worker in the match is such an answer |
| FreshAnswers.SomebodyIsFound | source/cluster_manager/strategy.js:11-106 | With maxima of at most 1 and no negative load no strategy ends a search among matched workers with nobody |
| FreshAnswers.LeastUsedCanFail | source/cluster_manager/strategy.js:11-24 | The bound is needed: two operations lead to an available matched worker with a maximum of 2 that least-used does not find |
| FreshAnswers.OrderedRun | source/cluster_manager/scheduler.js:157-166 | In every run the enumeration order lists the registered workers once each |
| FreshAnswers.CandidateIff | source/cluster_manager/scheduler.js:12-15 | In every run a search looks at exactly the registered workers that are below a maximum they name and in no state or in state 2 |
| Matcher.MatchIsBest | source/cluster_manager/matcher.js:20-45 | The match of any rule holds exactly the admitted candidates, or, when the rule ranks by region and some admitted candidate is of the preferred one, exactly those that are |
| Matcher.MatchedIff | source/cluster_manager/matcher.js:20-184 | For each purpose in its own terms: a candidate is matched if and only if it may serve the client (ISP, formats or algorithm) and is in the client's region, unless regions do not matter for the purpose or no candidate that may serve is in it |
| Matcher.KeptInOrder | source/cluster_manager/matcher.js:20-45 | Matched candidates keep their order |
| Matcher.FilterThenRank | source/cluster_manager/matcher.js:63-98 | Filtering by formats first and ranking by region afterwards is the same as ranking with both conditions |
| Matcher.Match | source/cluster_manager/matcher.js:154-184 | Each purpose's matcher computes its rule |
| Matcher.MatchByRegion | source/cluster_manager/matcher.js:20-45 | The loop with `found_sweet` computes the filter: everybody admitted until the first worker of the region shows up, then only such workers |
| Matcher.AvailableForVideo | source/cluster_manager/matcher.js:63-78 | The video filter keeps, in order, exactly the candidates that code everything asked for |
| Matcher.FormatContain | source/cluster_manager/matcher.js:52-59 | Counting contained formats decides containment |
| Strategy.Allocator.AllocateLeast | source/cluster_manager/strategy.js:11-24 | The first candidate of least load; nobody exactly when every load is 1 or more |
| Strategy.Allocator.AllocateMost | source/cluster_manager/strategy.js:26-39 | The last candidate of greatest load; nobody exactly when every load is negative |
| Strategy.Allocator.AllocateLast | source/cluster_manager/strategy.js:41-50 | Stays with the worker used last while it is a candidate |
| Strategy.Allocator.AllocateRound | source/cluster_manager/strategy.js:52-64 | The candidate after the one used last, cyclically |
| Strategy.Allocator.Allocate | source/cluster_manager/strategy.js:108-126 | The candidate that the chosen strategy takes, and what the strategy remembers afterwards |
| Strategy.ChosenFinds | source/cluster_manager/strategy.js:11-106 | Whatever the strategy, that is a candidate, and nobody exactly when least-used meets loads of 1 or more only, or most-used negative loads only |
| Strategy.EachOnce | source/cluster_manager/strategy.js:52-64 | Round robin is fair: among any n answers in a row from n candidates each candidate comes exactly once |
| Strategy.FirstTurn | source/cluster_manager/strategy.js:52-64 | It goes on after the worker used last, or begins with the first candidate |
| Strategy.RoundRobinTakesTurns | source/cluster_manager/strategy.js:52-64 | What round robin remembers between calls makes the answers of any number of calls with the same candidates such a row, whatever the loads |
| Strategy.LastUsedStays | source/cluster_manager/strategy.js:41-50 | Last-used answers the same worker at every call with the same candidates: the one it used before, if that is among them |
| WeightRobin.WeightRobinStrategy.Allocate | source/cluster_manager/strategy.js:74-105 | One call: refresh the weights, drop absent servers, one round |
| WeightRobin.WeightRobinStrategy.Refresh | source/cluster_manager/strategy.js:75-83 | Candidates get their weight of the moment; new ones are appended |
| WeightRobin.WeightRobinStrategy.Pick | source/cluster_manager/strategy.js:91-104 | One round bumps everybody by its weight and charges the first maximum with the total |
| WeightRobin.WeightRobinStrategy.DropAbsent | source/cluster_manager/strategy.js:85-89 | Walking down the list drops exactly the servers that are no candidates |
| WeightRobinFairness.ExactShares | source/cluster_manager/strategy.js:72-106 | With fixed candidates and weights of total W > 0, q * W calls from a fresh start pick each server exactly q * weight times and return every current weight to 0 |
| WeightRobinFairness.NeverAFullPickAhead | source/cluster_manager/strategy.js:72-106 | After any number m of calls a server has fewer than m * weight / W + 1 picks |
| WeightRobinFairness.RunExists | source/cluster_manager/strategy.js:72-106 | Runs of every length exist: with a candidate to pick, a call always comes to an answer |
| WeightRobinFairness.RunConservesSum | source/cluster_manager/strategy.js:72-106 | Over a whole run with any candidates and weights no server is listed twice and the current weights sum to minus what dropped servers took with them, so to 0 if and only if they took 0 in all |
| WeightRobinFairness.CallConservesSum | source/cluster_manager/strategy.js:72-106 | A call changes the sum by exactly what the servers it drops take with them |
| WeightRobinFairness.RoundConservesSum | source/cluster_manager/strategy.js:91-103 | A round conserves the sum of the current weights |
| WeightRobin.WeightIsFreeShare | source/cluster_manager/strategy.js:74-83 | A weight is the worker's free capacity in percent, cut to a whole number toward zero |
| WeightRobin.LessLoadMoreWeight | source/cluster_manager/strategy.js:74-83 | A worker with less load never weighs less |
| WeightRobin.RefreshedIs | source/cluster_manager/strategy.js:75-83 | A refresh gives every candidate its weight of the moment and keeps all current weights, 0 for new ones |
| WorkerLink.BothEndsAgreeIff | source/common/clusterWorker.js:184-253 | With a first-in-first-out channel, across loss, late replies, dropped entries, rejoins and both join answers: at every moment of a run at which the worker is registered, serving everything in flight leaves the manager with no entry or exactly the worker's own task list, if and only if the reply that first registers the worker finds it without tasks or its entry gone again |
| WorkerLink.BothEndsAgree | source/common/clusterWorker.js:184-253 | So it does for every worker that has no task when it is first registered, whatever it was given and lost again before |
| WorkerLink.EarlyTaskIsLost | source/common/clusterWorker.js:184-196 | A concrete run to the contrary: a task added before the first join is answered is never announced, and the manager's list stays empty |
| WorkerLink.FirstJoinAgreesIff | source/common/clusterWorker.js:184-196 | For that one step: it leaves both ends agreeing if and only if the entry is gone again or the worker has no tasks |
| WorkerLink.NextKeeps | source/common/clusterWorker.js:184-253 | Every event on either end, a first join under that condition, keeps the agreement |
| LinkRecovery.ForgottenComesBack | source/common/clusterWorker.js:224-285 | No worker is forgotten for good: in any state of any run with nothing in flight, when the manager drops the entry of a registered worker, one keep-alive call ends with it registered again and both ends holding the same list, which is all of its tasks if the manager was still initializing and empty otherwise |
| LinkRecovery.UnknownComesBack | source/common/clusterWorker.js:224-285 | The same from any state in which a worker is told that it is unknown, whatever is in flight |
| LinkRecovery.NobodyIsStranded | source/common/clusterWorker.js:227-253 | In every run a worker that recovers waits for the answer to a join, which is in flight or answered, or has a retry pending |
| LinkRecovery.RecoversAfterFailuresIff | source/common/clusterWorker.js:256-285 | In a run a worker starts to recover exactly at an answer that it is unknown, or at the fourth failure of a keep-alive call since the last answer of the round |
| LinkRecovery.RecoversIff | source/common/clusterWorker.js:256-285 | It does so exactly if it is not recovering yet, and then sends a join and stops its keep-alive, with its tasks kept |
| LinkRecovery.LossesAreFailures | source/common/clusterWorker.js:256-275 | The counter of a round is the number of its failures since its last answer, whatever other rounds do |
| LinkRecovery.OutcomesCountOnce | source/common/clusterWorker.js:256-285 | A keep-alive call is opened by the interval and closed by its first outcome, which counts for the call's own round |
| LinkRecovery.CallsAreNew | source/common/clusterWorker.js:184-196 | In every run a new call shares its number with nothing sent or answered before, so that no stale reply is taken for its answer |
| LinkRecovery.IntervalCalls | source/common/clusterWorker.js:257-262 | The interval sends one keep-alive call each time it fires |
| LinkRecovery.RegistersIff | source/common/clusterWorker.js:184-196 | A worker becomes registered exactly by the answer to the join it waits for, and starts a new keep-alive round |
| LinkRecovery.FailedJoinRetriesIff | source/common/clusterWorker.js:198-252 | A failed join is tried again exactly while recovering or if the first join has tries left |
| LinkRecovery.NewWorkerJoins | source/common/clusterWorker.js:198-220 | A new worker whose first join is served and answered is registered without tasks at both ends |
| LinkRecovery.TasksAre | source/common/clusterWorker.js:335-359 | Tasks are added once and removed by their own calls, and each change while registered is announced |
| LinkRecovery.QuitLeaves | source/common/clusterWorker.js:310-326 | After a registered worker quits, the manager has no entry for it once all is served |
| LinkRecovery.KnownIff | source/cluster_manager/clusterManager.js:156-163 | A keep-alive call is answered by whether the manager has an entry for the worker |
| WorkerLink.SettledAppend | source/common/clusterWorker.js:289-301 | Serving what is in flight and then more is serving all of it |
| WorkerLink.SettledDropped | source/cluster_manager/scheduler.js:107-118 | An entry the manager drops is back after all that is in flight was served only if a join was among it, and then as if it had not been dropped |
| ClusterWorker.Worker.OnEvent | source/common/clusterWorker.js:184-359 | Every event of a run that reaches the worker has the effect the link model gives it |
| ClusterWorker.Worker.OnJoinReply | source/common/clusterWorker.js:190-195 | A join reply registers the worker and, when rejoining, re-announces its tasks to a manager still initializing or gives them up to one in service |
| NodePool.PoolOrderlyIff | source/agent/nodeManager.js:45-304 | In every run, over all interleavings of waits, follow-ups, recycles, exits and drops: as long as no follow-up has pushed `undefined`, nodes in use and idle nodes are distinct and together the processes, the cap holds, and with `consumeNodeByRoom` no room is recorded on two nodes; once one has, lists and processes never agree again |
| NodePool.FollowUpKeepsIff | source/agent/nodeManager.js:259-265 | The zero-delay follow-up of a pick keeps the pool in order if and only if it does not shift from an empty list at a reached cap with reuse |
| NodePool.PromptRunsAreOrderly | source/agent/nodeManager.js:255-265 | In every run in which each follow-up runs right after its pick, no `undefined` is pushed and the pool is in order at every moment |
| NodePool.HoleReachable | source/agent/nodeManager.js:83-104 | A node that exits between its pick and the follow-up is enough to get there |
| NodePool.RoomAffinityIff | source/agent/nodeManager.js:239-304 | Room affinity on its own, holes or not: at every moment of a run no room is recorded on two nodes, `undefined` not counted, if and only if no call is made whose search ends with `undefined` while a node other than the first idle one, which is a real node, has the room |
| NodePool.NextAffineIff | source/agent/nodeManager.js:185-304 | The same for one event in any pool whatever: only such a call puts a room on a second node |
| NodePool.SplitsBehindHole | source/agent/nodeManager.js:239-247 | In a run such a call comes only after a hole, and the room's node then stands behind an `undefined` entry that is the first of its list to have the room |
| NodePool.RoomOnTwoNodes | source/agent/nodeManager.js:239-304 | A concrete run of ten events at whose end one room is recorded on two running nodes although rooms are to stay on one |
| NodePool.HoleStays | source/agent/nodeManager.js:45-61 | Nothing takes an `undefined` out of the pool again |
| NodePool.FillKeeps | source/agent/nodeManager.js:167-175 | Filling ends with `prerunNodeNum` idle nodes or the cap reached, and never overshoots either |
| NodePool.GetNodeKeeps | source/agent/nodeManager.js:270-304 | Getting a node keeps the pool in order, whether it is refused, finds its room or takes an idle node |
| NodePool.RoomPlaced | source/agent/nodeManager.js:270-290 | In a pool in order the room is afterwards on one node only: the one that had it, or the first idle one if none had |
| NodePool.UnknownRoom | source/agent/nodeManager.js:239-247 | A room found on no listed node is recorded nowhere |
| NodePool.RecycleDropsIff | source/agent/nodeManager.js:185-205 | A recycle takes a node down if and only if the last task of its only room leaves |
| NodePool.SettledIff | source/agent/nodeManager.js:291-303 | A settled `getNode` has its task on its room's list if and only if its node was ready and still had the room; otherwise every record of the node is wiped, other rooms included |
| NodeAnswers.ReadyIsAnswered | source/agent/nodeManager.js:270-304 | In any run, a call that settles on a node whose process is ready is resolved at once, and when it ends the task is at the end of its room's list on that node and no other list has changed |
| NodeAnswers.StartingIsAnswered | source/agent/nodeManager.js:207-237 | So is a call that settles on a node still starting, by the first poll after the node has become ready |
| NodeAnswers.WaitDecidedIff | source/agent/nodeManager.js:207-237 | In every run a wait is resolved if and only if the first look that decides finds its node ready, at its start or at a poll before one that finds the node gone or unready for too long; a node that failed to start decides nothing |
| NodeAnswers.AskedWaitsIff | source/agent/nodeManager.js:270-291 | A call waits exactly if it settles on a node, the one that has its room or else the first idle one |
| NodeAnswers.RecycleUndoes | source/agent/nodeManager.js:185-205 | Recycling the task of an answered call brings back all lists as they were, as long as the room or another one remains on the node |
| NodeAnswers.RecycleRemoves | source/agent/nodeManager.js:185-205 | A recycle takes one entry of the task off its room's list, the room with the last one, and nothing else, unless nothing is left on the node |
| NodeAnswers.ProcessesAre | source/agent/nodeManager.js:63-175 | Exactly which processes run after each event: those that ran, but for the ones it takes down, and as many new ones as fill the idle nodes within the cap |
| NodeAnswers.ReadinessIs | source/agent/nodeManager.js:105-147 | A process's readiness changes by its own messages only |
| NodeAnswers.SpawnFailedIs | source/agent/nodeManager.js:98-134 | Exits refill the pool only while no launch has failed since a node last became ready, or spawning was allowed again |
| NodeAnswers.AskedTakesFirst | source/agent/nodeManager.js:249-258 | A pick moves the first idle node to the end of those in use and schedules its follow-up |
| NodeAnswers.FollowUpReturnsOldest | source/agent/nodeManager.js:259-265 | At the cap the follow-up moves the node longest in use back to the end of the idle ones, if nodes are reused |
| NodePool.NextKeeps | source/agent/nodeManager.js:45-304 | Every event keeps the pool in order, under the exact condition on follow-ups |
| NodeManager.Manager.OnEvent | source/agent/nodeManager.js:83-304 | Every event of a run, from calls, timers and child processes, has the effect the pool model gives it |
| NodeManager.Manager.FillNodes | source/agent/nodeManager.js:167-175 | The launch loop starts the nodes the pool model says |
| NodeManager.Manager.FindNodeUsedByRoom | source/agent/nodeManager.js:239-247 | The search loop finds the first listed node that has the room |
| NodeManager.Manager.OnWaitSettled | source/agent/nodeManager.js:292-303 | The call is answered exactly if the node was ready and still has the room |
| NodeManager.Manager.RecycleNode | source/agent/nodeManager.js:185-205 | Removing a task, announced when no other entry of it is left |
| NodeManager.Manager.DropAllNodes | source/agent/nodeManager.js:341-347 | Every process is dropped |
| SelectiveMixer.MixingIsExactIff | source/agent/audio/selectiveMixer.js:37-100 | At every moment of a run the mixer's inputs are exactly the non-empty ids of the rank, each fed by the slot of its own place, if and only if every report that is not ignored has registered, distinct ids, no stream is called '' and every removal of a mixed stream names its owner |
| SelectiveMixer.MixIs | source/agent/audio/selectiveMixer.js:37-100 | In every run with those properties the registry holds exactly what was added and not removed since, as it was added first, and the rank is the last report of the right length without the streams removed since |
| SelectiveMixer.LoudIsMixed | source/agent/audio/selectiveMixer.js:60-73 | So every stream of that rank is mixed, fed by the slot of its place, as it was added |
| SelectiveMixer.ReportExactIff | source/agent/audio/selectiveMixer.js:37-74 | The two passes leave the mixer exact, even when ids trade places, if and only if the report is ignored for its length or its ids are registered and distinct |
| SelectiveMixer.RemoveExactIff | source/agent/audio/selectiveMixer.js:87-100 | A removal leaves it exact if and only if the stream is unknown, not mixed, or removed under its owner |
| SelectiveMixer.AddExactIff | source/agent/audio/selectiveMixer.js:76-85 | Adding an input leaves it exact if and only if its id is not '' |
| SelectiveMixer.ClearedIs | source/agent/audio/selectiveMixer.js:46-59 | The first pass takes away exactly the inputs of the streams that lose their place |
| SelectiveMixer.PlaceServed | source/agent/audio/selectiveMixer.js:60-73 | After a report every place is served by its own slot |
| SelectiveMixer.SelectiveMixer.OnRankChange | source/agent/audio/selectiveMixer.js:37-74 | The two loops compute the two passes over the pending indexes |
| SelectiveMixer.SelectiveMixer.AddInput | source/agent/audio/selectiveMixer.js:76-85 | A stream is registered once |
| SelectiveMixer.SelectiveMixer.RemoveInput | source/agent/audio/selectiveMixer.js:87-100 | A ranked stream leaves mixer and rank as well |
| LinkAgreement.GraphAgreesIff | source/agent/connections.js:27-157 | At every moment of a run each source's destinations are, once each, the receivers of the connections whose field names it, and no field names a missing connection, if and only if every link request is refused, asks for nothing, or links a free 'out' connection to an 'in' one, and no two connections share a receiver |
| LinkAgreement.LinkAgreesIff | source/agent/connections.js:116-142 | The same for one request with its two tracks, the second only if the first went through |
| LinkAgreement.LinkSideAgreesIff | source/agent/connections.js:125-139 | The same for one track |
| LinkAgreement.DestinationsExact | source/agent/connections.js:136-137 | A destination is served by a source if and only if some connection names that source and receives there |
| LinkAgreement.CutOffKeeps | source/agent/connections.js:144-157 | In such a state cutting off never throws, succeeds exactly for registered connections, and leaves no link in either direction |
| LinkAgreement.RemoveKeeps | source/agent/connections.js:99-114 | A removal succeeds exactly for registered connections and leaves no trace of them |
| LinkAgreement.RemoveEachKeeps | source/agent/connections.js:167-176 | A failed controller takes its connections with it and nothing else |
| LinkAgreement.CutFromKeeps | source/agent/connections.js:27-54 | Cutting off a source empties its destinations and every field that named it |
| LinkAgreement.CutSideKeeps | source/agent/connections.js:56-78 | Cutting off a listener takes its receiver out of its source's list |
| LinkAgreement.ReadyAgreesIff | source/agent/connections.js:131-134 | Getting a receiver keeps agreement if and only if nobody else has it |
| LinkAgreement.LinkIs | source/agent/connections.js:116-142 | A request goes through exactly if each source it names is registered and the connection is ready on that track; then its fields name these sources, audio even if video is refused, and no other connection's field changes |
| LinkAgreement.LinkSideIs | source/agent/connections.js:125-139 | The same for one track |
| LinkAgreement.CutOffIs | source/agent/connections.js:27-157 | In an agreeing graph a cut-off clears the fields of the connection and those that name it, and no others |
| LinkAgreement.CutOffFailsIff | source/agent/connections.js:56-78 | In any graph a cut-off fails exactly for an unknown connection and for an 'out' connection without a receiver on a track whose field names a registered 'in' connection; an agreeing graph has none |
| LinkAgreement.EntriesAre | source/agent/connections.js:80-114 | What becomes of every entry: a new connection is unlinked, becomes ready once per track, and a removal leaves the others as a cut-off does |
| Connections.Connections.CutOffFrom | source/agent/connections.js:27-54 | The loop over all connections computes the cut-off, in whatever order they come |
| Connections.Connections.CutOffTo | source/agent/connections.js:56-78 | Both tracks in order; it throws on a missing receiver and then stops |
| Connections.Connections.AddConnection | source/agent/connections.js:80-97 | A registered id is refused |
| Connections.Connections.RemoveConnection | source/agent/connections.js:99-114 | Cut off by direction, then deleted, unless the cut-off threw |
| Connections.Connections.LinkupConnection | source/agent/connections.js:116-142 | The first refusal ends the request and leaves what was linked before it |
| Connections.Connections.CutoffConnection | source/agent/connections.js:144-157 | Cut off by direction; an unknown id is refused |
| Connections.Connections.OnFaultDetected | source/agent/connections.js:167-176 | Exactly the connections of the failed controllers are removed |
| ReconnectBuffer.RecentMessagesAreKept | source/portal/socketIOServer.js:324-345 | Over any sends, disconnections and relogins with a clock that does not go back, the buffer is an unbroken run of numbers ending at `message_seq`, and every message of the last `message_keep_time` is in it |
| ReconnectBuffer.BufferIsExactlyTheRecentIff | source/portal/socketIOServer.js:238-243 | With a clock that does not go back a send leaves in the buffer exactly the messages of the last `message_keep_time` if and only if every message that an earlier relogin found in the buffer is one of them |
| ReconnectBuffer.SendEvictsExactly | source/portal/socketIOServer.js:338-344 | The same for one send, while every buffered message has its time |
| ReconnectBuffer.ReloginStopsEviction | source/portal/socketIOServer.js:238-243 | A relogin that finds a message in the buffer ends all eviction: from then on the buffer grows by one with every message sent |
| ReconnectBuffer.NothingLostOrRepeated | source/portal/socketIOServer.js:111-118 | Toward a client of any other protocol every message is emitted once, in order, or is still pending, and nothing is pending while it is connected |
| ReconnectBuffer.NumberedIs | source/portal/socketIOServer.js:324-345 | In every run messages are numbered in order from 1 with their times: what was asked, and, for a client of any other protocol, what each relogin sends anew, which is exactly what was asked while it was away |
| ReconnectBuffer.PendingNeverDrains | source/portal/socketIOServer.js:245-250 | With protocol 1.2 no pending message is ever emitted or forgotten: the list only grows |
| PortalConnection.Connection.SendMessage | source/portal/socketIOServer.js:324-345 | Emit or keep pending, number, buffer, and evict from the front while too old |
| PortalConnection.Connection.DrainPendingMessages | source/portal/socketIOServer.js:111-118 | The pending messages are sent in order, as new messages |
| PortalConnection.Connection.TakeOver | source/portal/socketIOServer.js:230-250 | The new connection takes over number, buffer and pending messages; what a 1.2 client is handed |
| BitrateTable.StandardBitrate | source/common/mediaUtil.js:7-38 | The loop finds the value of the piecewise-linear table, or its default |
| BitrateTable.Covered | source/common/mediaUtil.js:24-31 | A size lies on a segment if and only if it is positive and not past the table |
| BitrateTable.OneSegment | source/common/mediaUtil.js:24-31 | It lies on one segment only |
| BitrateTable.PointsAreHit | source/common/mediaUtil.js:14-22 | Every point of the table is hit exactly |
| BitrateTable.NamedSize | source/common/mediaUtil.js:14-22 | The points are the well-known resolutions from 320x240 to 7680x4320 at 30 frames a second, with 400, 800, 2000, 4000, 16000 and 64000 |
| BitrateTable.BitrateRange | source/common/mediaUtil.js:33-37 | Bitrates are positive and at most 64000, and are 64000 exactly for sizes of 0 or less and from the end of the table on |
| BitrateTable.BitrateIsMonotone | source/common/mediaUtil.js:24-31 | Over positive sizes the bitrate never falls, and rises strictly inside the table |
| BitrateTable.LargerVideo | source/common/mediaUtil.js:12 | A larger width, height or framerate never lowers the bitrate of a positive video |
| BitrateTable.CalcDefaultBitrate | source/common/mediaUtil.js:40-49 | The standard bitrate times the codec's and the motion factor |
| BitrateTable.CodecsOrdered | source/common/mediaUtil.js:41-47 | For the same video VP9 asks for least, then H.265, H.264 and VP8 |

## Left out

- The message plumbing (AMQP, gRPC, HTTP, QUIC, socket.io), the database, configuration and logging: channels are a set of messages, or a first-in-first-out queue for the worker link; the gRPC transport of a worker, which promises no order between calls, is not modelled.
- The cloud notifications of `clusterInfo`, cascading and `unregisterCluster`: side effects outside the cluster; `clusterInfo` itself is kept because a missing entry makes `workerQuit` throw.
- Restarts: a node that restarts draws a new id; the election model has fixed nodes with distinct ids that are not negative, at most `totalNode` of them, that may stop for ever.
- The filters in front of the lock (`needHandle`) and the topic routing: a message that is filtered or not routed to a role is one that was lost.
- Leader start-up, from the heartbeat to the registration of the update callback, is one step; requests served between `unserve` and the removal of the RPC server are not modelled.
- `commitId` and `voterRole` of a vote response: nobody reads them.
- The bookings of followers: their timers and `setScheduled` make them only approximate; the replicated table holds purpose, info, state, load and task list.
- ClusterManager.Manager.SetRuntimeData: the manager holds its schedulers by their states, so updates in place and aliasing of scheduler objects are not captured there; class `Scheduler` captures them for one scheduler.
- ClusterManager.Manager.SetScheduled: states only that a replicated booking leaves the worker table alone.
- The default reserve time: `source/cluster_manager/index.js:59` passes `scheduleKeepTime` while the scheduler reads `scheduleReserveTime`; the model takes the time as a parameter.
- Failover of the manager on the worker link: the manager's entry is dropped or what it served; after a failover it may be an older copy of the list while keep-alives still succeed.
- Timer durations and wall-clock times: a timer is live or not, and may fire at any moment while it is live; the portal's clock only has to be monotone.
- Rounding: loads, sizes and bitrates are real numbers; `parseInt` of a weight truncates a real number, not its printed form with an exponent.
- `Math.random`: the draw is a parameter.
- The agents' `onLoss` callbacks: modelled as a list of `removeTask` calls.
- Of the node manager: `queryNode`, node addresses, the alive check's interval and the kill signals; `tasks[id] = undefined` is modelled as a missing entry, which only `queryNode` could tell apart; the exception that a second unexpected message of a process already cleaned up would raise.
- NodeManager.Manager.DropAllNodes: the order in which the object lists its keys is left open.
- The native mixer's refusals (too many inputs, unknown codecs), its outputs and the voice detection: an added input is mixed and an input added again is fed from the new source.
- The 'data' track of the link graph: no cut-off ever clears it; `isNanObj` and the frames themselves.
- LinkGraph.RemoveEach: destination lists are fields of the registry's entries here, so a connection object shared between entries is not captured.
- PortalConnection.Connection.TakeOver: the hand-over of a relogin is one step and the buffers are handed over by value; a message sent by the old connection between `reconnect` and the hand-over, and the tickets, signatures and refusals of a login, are not modelled.
- `getVideoParameterForAddon`, `resolution2String` and `isResolutionEqual`: only easy members would be added.
- The access, RTC, QUIC and stream controllers of the conference agent, JSON schemas and request validators: they rest on calls whose outcomes are not part of this model.
