# Verified model of the replicated log

This project models the consensus server, the file log store and the byte codecs of this
repository, and proves the properties they exist for. It is checked with `dafny verify dfyconfig.toml`.

**The server and the cluster.** `ServerSpec` gives every handler of the core protocol as a function
on the state of one server. `RaftServerClass` has the same handlers as methods of a class whose fields
they change, with the loops of the code, each proved equal to its function. `Cluster` puts any number
of servers and every RPC they ever made into one state and lets the environment choose each step:
timeouts, client calls, heartbeats, delivery, responses, errors, applying one entry, crash and restart.
A request is delivered at most once and an RPC has at most one outcome, in any order or never.

The code departs from the algorithm it implements in five places, and `ServerSpec.Guards` makes each one
a switch; with all of them off (`AS_WRITTEN`) the model is the code as it stands.

| guard | the code as it stands | with the guard on |
|---|---|---|
| `stampClient` | client entries keep the client's term 0 (raft_server.cxx:181-185, 1377) | they get the leader's term |
| `dropStale` | responses of a lower term are counted, although a comment says they are ignored (raft_server.cxx:302-316) | they are dropped |
| `resetMatched` | a new leader keeps the matched indices of its earlier terms (raft_server.cxx:495-500) | they start at 0 |
| `ownTerm` | the median is committed whatever the term of the entry there (raft_server.cxx:353-354) | only at entries of the leader's term |
| `clampCommit` | a follower takes the leader's commit index as it is (raft_server.cxx:155) | no further than the request reaches |

The main theorem is an equivalence, `SafetyTheorem.SafetyExactlyWhenGuarded`: every reachable state of every
cluster is safe exactly when all five guards are on. `TrioSafeExactlyWhenGuarded` says the same of each cluster of
three servers on its own, whatever positive `max_append_size_` each of them has. One direction is State Machine
Safety for all runs; the other is five runs, one for the first guard that is off in the order `stampClient`,
`ownTerm`, `resetMatched`, `dropStale`, `clampCommit`, whatever the later ones are. The run for the clamp
(`ClampRun`) grows with the number of entries that the leader may send at once. So the code as it stands is not safe,
and none of the five changes can be left out. The properties that safety rests on need fewer of them, and each
has an equivalence of its own over the same clusters:

| property | holds exactly with |
|---|---|
| one leader per term, votes counted once, no fatal exit | `dropStale` |
| logs with the same term at an index are the same up to it | `dropStale`, `stampClient` |
| matched indices are true of their peers | `dropStale`, `stampClient`, `resetMatched` |
| later leaders have what was committed; majorities keep it; state machine safety | all five |

The proof of safety goes through `RaftCore`, a smaller machine that remembers every vote, every leader's
log and every acknowledgement, as far as the guards at hand allow (`ClusterProofs.Covers`). `ClusterInvariant`,
`HandlerProofs` and `ClusterProofs` show that each step of the cluster is a chain of its actions. `RunSteps`
gives single steps of a cluster of three in closed form, for the concrete runs.

**What gets done.** Safety alone would be met by servers that do nothing. `Elections` says which candidate wins,
for any number of servers and any order of answers, and `Outcomes` what each other handler brings about, in terms of
fields and of what was sent. `RunInvariants` has what every run keeps whatever the guards: timers, vote counts, the
saved commit index, configurations, terms, and that no peer waits for nothing. `SoleServer` is the cluster of
one, in which requests are committed as they are made. `Availability.SomeoneCanLead` and `Service.ClientCanBeServed` say
that no run gets stuck: from every reachable state a leader can be elected, in every variant, and with the guards
on a client's entries can come to be applied by every server.

**The log store.** `LogImages` defines the index file and the data file of a list of entries and shows
that they determine it. `FsLogStoreClass` has the store as a class over three file streams and a suffix
cache. Every method takes the log it stands for as a ghost argument. Where the code does not keep the
contract of log_store.hxx, the method is kept as the code has it and its postcondition says exactly when
files and cache are those of the new log; `StoreExamples` gives one concrete input for each such case, and
`StoreRuns` composes the cases that work into runs of any length. `LogCatchUp` brings a second store up to
date by packs.

**Bytes.** `BufferClass` is the buffer with its tagged header, byte by byte; `Codecs` has the layouts and
the readers as functions and says where each field lies and which values survive the way there and back; `Serializers` has the
serializers as methods over buffers.

**Smaller machines.** `Replication` is the follower's merge and the leader's backtracking, first for two logs,
then for the handlers round after round; `UrgentCommit` the notification of a new commit index;
`SnapshotTransfer` the blocks of a snapshot under losses, retries and starts over. A transfer whose last answer is
lost does not end by itself: the peer has installed the snapshot and declines the last block whenever it is sent
again, until the leader has a newer snapshot or there is another leader, which forgets the transfer.

Where code and documentation disagree the model follows the code: `term_at` fails below the start index,
where log_store.hxx:54-60 promises 0, and responses of a lower term are not ignored (the guard `dropStale`).

## Model

| member | source | states |
|---|---|---|
| SafetyTheorem.SafetyExactlyWhenGuarded | raft_server.cxx:82-564 | all reachable states of all clusters are safe if and only if the five guards are on |
| SafetyTheorem.TrioSafeExactlyWhenGuarded | raft_server.cxx:82-564 | the same for the clusters with one given choice of three positive `max_append_size_` |
| SafetyTheorem.ElectionSafeExactlyWhen | raft_server.cxx:302-316 | section 5.2 over all runs, any two moments of each, holds if and only if responses of a lower term are ignored |
| SafetyTheorem.CountsHonestExactlyWhen | raft_server.cxx:420-440 | the vote counter never runs ahead of the servers that voted, exactly then |
| SafetyTheorem.NobodyHaltsExactlyWhen | raft_server.cxx:87-93 | no server ever takes a fatal exit, exactly then |
| SafetyTheorem.LogsMatchExactlyWhen | raft_server.cxx:99-152 | section 5.3 holds if and only if moreover client entries get the leader's term |
| SafetyTheorem.LeadersInformedExactlyWhen | raft_server.cxx:495-500 | matched indices are bounded by the shared prefix, and 0 for a peer in an earlier term, if and only if moreover a new leader resets them |
| SafetyTheorem.LeadersCompleteExactlyWhen | raft_server.cxx:160-173 | section 5.4 over all runs holds if and only if all five guards are on |
| SafetyTheorem.MajoritiesKeepExactlyWhen | raft_server.cxx:343-354 | what is taken as committed stays on a majority, exactly then |
| SafetyTheorem.CodeIsUnsafe | raft_server.cxx:82-564 | the code as it stands has a run in which two servers apply different entries at one index, for every such choice |
| GuardRuns.Unstamped | raft_server.cxx:175-191 | with client entries of term 0, three servers with any positive max_append_size_ have a run in which two of them apply different entries at one index |
| GuardRuns.OldTermCommitted | raft_server.cxx:343-354 | the same when entries of older terms are committed by counting |
| GuardRuns.MatchedKept | raft_server.cxx:489-512 | the same when a new leader keeps old matched indices |
| GuardRuns.StaleVote | raft_server.cxx:291-325 | the same when votes of a lower term are counted |
| ClampRun.CommitUnclamped | raft_server.cxx:154-157 | the same when the leader's commit index is taken unclamped |
| ClampRun.WalkBack | raft_server.cxx:356-373 | as many delayed requests of former terms as entries fit a request, each rejected in the present term, bring the next index of a peer that holds the log back to 1 |
| GuardRuns.Progress | raft_server.cxx:420-440 | in every variant two servers can come to apply the same entry |
| RaftTheorems.StateMachineSafety | raft_server.cxx:82-564 | section 5.4.3 of the Raft paper: whatever any two servers ever delivered at one index is the same entry, over all runs with crashes (all guards on) |
| RaftTheorems.ElectionSafety | raft_server.cxx:160-267 | section 5.2: two leaders of one term, at any two moments of a run, are the same server (any cluster; `dropStale` on) |
| RaftTheorems.VotesAreDistinctServers | raft_server.cxx:420-440 | the integer vote counter never exceeds the number of distinct servers that voted for the candidate in its term (any cluster; `dropStale` on) |
| RaftTheorems.LogMatching | raft_server.cxx:99-152 | section 5.3: logs that agree on the term at an index are identical up to it (any cluster; `dropStale` and `stampClient` on) |
| RaftTheorems.LogMatchesRequest | raft_server.cxx:651-706 | the same between a log and any request to append ever sent (any cluster; `dropStale` and `stampClient` on) |
| RaftTheorems.LeaderCompleteness | raft_server.cxx:160-173 | section 5.4: what any server holds as committed is from then on in the log of every leader of that term or a later one (all guards on) |
| RaftTheorems.CommittedStaysOnMajority | raft_server.cxx:343-354 | what any server holds as committed is from then on in the logs of a strict majority (all guards on) |
| RaftTheorems.MatchedIsShared | raft_server.cxx:336-341 | a leader's matched index is bounded by the prefix it shares with that peer, unless the peer is in a later term; it is 0 while the peer is in an earlier one (any cluster; `dropStale`, `stampClient`, `resetMatched` on) |
| RaftTheorems.NoFatalExit | raft_server.cxx:87-93 | no server exits, be it on an append from another leader of its term, an election timeout as a leader or a next index past its log (any cluster; `dropStale` on) |
| RunInvariants.TimerUnlessLeads | raft_server.cxx:489-529 | in every run of every variant the election timer of a server runs if and only if it does not lead |
| RunInvariants.CandidatesCount | raft_server.cxx:420-440 | in every such run no candidate holds a majority of the votes, and its election is over if and only if everyone has answered |
| RunInvariants.CommitIndexIsSaved | raft_server.cxx:1303-1351 | in every such run the saved commit index is the present one unless the server knows of more that is committed |
| RunInvariants.LeaderIsNamed | raft_server.cxx:489-492 | a leader names itself to its clients |
| RunInvariants.ConfigurationsKnowTheirIndex | raft_server.cxx:502-506 | every configuration entry of a log or a delivery records the index it lies at |
| RunInvariants.ConfiguredOnce | raft_server.cxx:502-509 | a server that has ever applied a configuration appends none on taking office, nor after a restart |
| RunInvariants.NoPeerIsStuck | peer.cxx:11-32 | a busy peer waits for a request that is still open, and is free when that fails |
| RunInvariants.HeartbeatAsks | raft_server.cxx:443-452 | after a leader's heartbeat to a peer that peer is busy, asked now or before |
| RunInvariants.TermsNeverFall | raft_server.cxx:531-544 | no step lowers a term; whoever got a request or an answer is in its term or a later one |
| RunInvariants.TermsSpread | raft_server.cxx:29-80 | so at any time senders are at least in the term of their requests, and receivers that answered at least in that of their answers |
| RunInvariants.AnswerDeposes | raft_server.cxx:302-305 | an answer of a higher term that comes back deposes its receiver, which sends nothing |
| Elections.ElectionOutcome | raft_server.cxx:193-267 | for any number of servers and any sequence of fewer answers than servers, refusals among them, a server that stands ends up leading if and only if its own vote and the grants are a strict majority |
| Elections.EveryoneIsAsked | raft_server.cxx:262-266 | a candidate sends each other server one ballot with its term and the end of its log |
| Elections.VoteAnswered | raft_server.cxx:160-173 | for any voter and ballot: granted if and only if the voter is in no later term, has not voted for another in this one, and its log is not ahead; a granted vote is saved |
| Elections.CampaignOutcome | raft_server.cxx:160-267 | candidate and voters together: it wins if and only if those that support it are a strict majority with it |
| Elections.SomeoneIsAhead | raft_server.cxx:162-164 | among any servers there is one whose log all others would vote for |
| Outcomes.HigherTermDeposes | raft_server.cxx:302-305 | a response of a higher term, of any kind and to any server, leaves a follower in that term without a vote or votes, its timer on, all of it saved, log and commit index as before, nothing sent |
| Outcomes.ClientAppends | raft_server.cxx:175-191 | a leader's log is the old one and the client's entries behind it, in their order; another server does nothing |
| Outcomes.AskingOne | raft_server.cxx:280-289 | one request for a free peer, with previous entry, commit index and at most `max_append_size_` entries from its next index on, or from the end of the log if it has none; nothing for a busy one; an exit for a next index past the log |
| Outcomes.ClientEntriesGoOut | raft_server.cxx:187-188 | then each other server is busy, and each that was free was sent the request its next index calls for |
| Outcomes.OfficeBegins | raft_server.cxx:489-512 | a winner of any cluster: every peer freed, its next index at the end of the log, and asked at once; one configuration entry if none was known |
| Outcomes.MergeLays | raft_server.cxx:109-152 | for any log and entries: the log stays before them, has their terms where they lie, and is unchanged if and only if it had them |
| Outcomes.AppendAnswered | raft_server.cxx:82-158 | for any receiver but a leader of that term: taken if and only if not of an earlier term and the previous entry is there; the answer, the log, the role, the timer and the leader's name afterwards |
| Outcomes.CommitFollows | raft_server.cxx:154-157 | how far a request that is taken moves the commit index |
| Outcomes.LeaderMeetsLeader | raft_server.cxx:87-93 | a leader that hears from another one of its term exits |
| Outcomes.TopExists | raft_server.cxx:343-354 | there is a greatest index that a strict majority is known to hold |
| Outcomes.MajorityCommits | raft_server.cxx:335-354 | for any number of servers an acceptance moves the commit index exactly to that index, if that is higher and (with `ownTerm`) the entry there is of the leader's term |
| Outcomes.MajorityReaches | raft_server.cxx:343-354 | what a strict majority holds is committed once the entry at the median is of the leader's term |
| Outcomes.MatchedMoves | raft_server.cxx:335-366 | an answer moves only the matched index of its sender, and only if it accepts |
| Outcomes.SavedWhenCaughtUp | raft_server.cxx:1325-1350 | the commit index reaches the disk if and only if nothing more can be applied |
| Outcomes.RestartReadsDisk | raft_server.hxx:44-90 | servers with the same disk restart the same, whatever they had in memory |
| Outcomes.RestartKeeps | raft_server.hxx:44-90 | a restarted server follows with its term, vote, log and saved commit index, and adds a configuration on taking office if and only if none was saved |
| SoleServer.SoleLeaderHasCommitted | raft_server.cxx:269-273 | in every run of a cluster of one, in every variant, a leader's commit index is the end of its log, and nothing is ever sent |
| SoleServer.TakesOffice | raft_server.cxx:254-260 | a server alone that times out leads at once, its log committed |
| SoleServer.TakesEntries | raft_server.cxx:175-191 | a client's entries are committed by the end of its request |
| SoleServer.ClientIsServed | raft_server.cxx:269-273 | from every reachable state of such a cluster a client's entries can come to be applied, in order, and the last index saved |
| Availability.SomeoneCanLead | raft_server.cxx:193-267 | from every reachable state of every cluster, in every variant, some continuation elects a leader |
| Service.BringsUp | raft_server.cxx:335-373 | in the cluster a leader brings a server of its term to its own log, knows it, commits it if all the others have it, and tells what is committed |
| Service.ClientCanBeServed | raft_server.cxx:29-564 | from every reachable state of the guarded code some continuation has a client's entries in every log, and delivered by every server at their indices (any number of servers, each with a positive `max_append_size_`) |
| RaftTheorems.ApplyOrder | raft_server.cxx:1303-1351 | since its restart a server delivered exactly the entries of its log between the commit index it started with and the present one, in order, each once (all guards on) |
| RaftTheorems.CommitIndexNeverFalls | srv_state.hxx:16-20 | no step but a restart lowers a commit index, in any variant |
| RaftCore.CommittedReachesLeaders | raft_server.cxx:160-173 | quorum overlap: a prefix acknowledged by a majority in a term is in every later leader's log |
| RaftCore.CommittedLogsAgree | raft_server.cxx:343-354 | any two committed logs agree on every index both have |
| RaftCore.ElectKeepsInv | raft_server.cxx:432-440 | electing a leader by a majority of up-to-date votes keeps the proof's invariant |
| RaftCore.AppendKeepsInv | raft_server.cxx:181-185 | a leader's append keeps it |
| RaftCore.ReplicateKeepsInv | raft_server.cxx:107-152 | a follower's merge and acknowledgement keep it |
| RaftCore.GrantKeepsInv | raft_server.cxx:160-173 | granting a vote keeps it |
| HandlerProofs.BecomeLeaderOK | raft_server.cxx:489-512 | a winner with a majority keeps the invariant, for matched indices if it resets them; its requests fit its log |
| HandlerProofs.HandleVoteReqOK | raft_server.cxx:160-173 | answering a vote request keeps the invariant, and the answer is true of the recorded votes |
| HandlerProofs.HandleAppendReqOK | raft_server.cxx:82-158 | answering a request to append keeps the invariant, for what is committed if the commit index is clamped; an acceptance is a true acknowledgement |
| HandlerProofs.ProcessReqOK | raft_server.cxx:29-80 | the same for any request after the term update; the server never exits |
| HandlerProofs.HandleClientReqOK | raft_server.cxx:175-191 | client entries keep the invariant, for the logs if they are stamped with the leader's term |
| HandlerProofs.MedianIsCommitted | raft_server.cxx:343-354 | the log up to the median of the matched indices is committed when the entry there is of the leader's term |
| HandlerProofs.HandleAcceptedOK | raft_server.cxx:335-373 | a true acknowledgement keeps the link, matched indices included, and changes nothing but peers and commit index |
| HandlerProofs.HandleRejectedOK | raft_server.cxx:356-373 | a rejection keeps the link and changes nothing but the peer |
| HandlerProofs.ApplyNextOK | raft_server.cxx:1326-1347 | applying the next entry keeps the link, which says that every delivery was committed |
| HandlerProofs.RestartOK | raft_server.hxx:44-90 | a restart from the saved term, vote, log and commit index keeps the link |
| ClusterProofs.StepKeepsInv | raft_server.cxx:29-564 | every step of the cluster keeps the link to the smaller machine, as far as the guards allow |
| ClusterProofs.RunKeepsInv | raft_server.cxx:29-564 | so does every run |
| ClusterProofs.Elected | raft_server.cxx:432-440 | with a majority of the votes of a term nobody else leads it |
| Median.SortSorts | raft_server.cxx:353-353 | the sorted matched indices are a descending permutation |
| Median.MedianIsMajority | raft_server.cxx:343-354 | the element at n/2 is at least v exactly when a strict majority of the elements is, for every n |
| Median.HoldersCount | raft_server.cxx:343-354 | the count behind it is the size of the set of servers |
| RaftServerClass.RaftServer.constructor | raft_server.hxx:44-90 | a server started from what is on disk is the restarted server; the scan finds exactly the uncommitted configurations |
| RaftServerClass.RaftServer.UncommittedConfig | raft_server.hxx:68-75 | found if and only if an entry behind the commit index is a configuration |
| RaftServerClass.SrvState.SetCommitIdx | srv_state.hxx:16-20 | the commit index is the larger of the two |
| RaftServerClass.PeerNode.MakeBusy | peer.hxx:48-55 | only a free peer is made busy |
| RaftServerClass.PeerNode.ClearPendingCommit | peer.hxx:84-91 | the flag is cleared and its old value returned |
| RaftServerClass.RaftServer.RequestAppendEntriesTo | raft_server.cxx:280-289 | as the specification of one request, nothing for a busy peer |
| RaftServerClass.RaftServer.CreateAppendEntriesReq | raft_server.cxx:651-706 | as the specification, with the exit when the next index lies past the log |
| RaftServerClass.RaftServer.RequestAppendEntries | raft_server.cxx:269-278 | the loop over the peers sends what the specification sends, in order |
| RaftServerClass.RaftServer.Commit | raft_server.cxx:546-564 | the loop sends to free peers and marks busy ones |
| RaftServerClass.RaftServer.UpdateTerm | raft_server.cxx:531-544 | a higher term is saved without a vote and makes a follower |
| RaftServerClass.RaftServer.BecomeFollower | raft_server.cxx:520-529 | role and timer change, nothing else |
| RaftServerClass.RaftServer.BecomeLeader | raft_server.cxx:489-512 | the loop over the peers, the first configuration entry and the first requests |
| RaftServerClass.RaftServer.HandleElectionTimeout | raft_server.cxx:193-246 | a leader exits; any other server stands in the next term as specified, and term and vote are on disk |
| RaftServerClass.RaftServer.RequestVote | raft_server.cxx:248-267 | a request to every other server, or office at once in a cluster of one |
| RaftServerClass.RaftServer.HandleVotingResp | raft_server.cxx:420-440 | as the specification |
| RaftServerClass.RaftServer.HandleVoteReq | raft_server.cxx:160-173 | as the specification; the vote is on disk when it is answered |
| RaftServerClass.RaftServer.SkipAgreeing | raft_server.cxx:112-121 | the first loop counts the leading entries of equal term |
| RaftServerClass.RaftServer.Overwrite | raft_server.cxx:124-137 | the second loop runs at most once, since overwriting truncates |
| RaftServerClass.RaftServer.AppendRest | raft_server.cxx:140-151 | the third loop appends what is left |
| RaftServerClass.RaftServer.MergeEntries | raft_server.cxx:109-152 | together: cut at the first conflict, append the rest |
| RaftServerClass.RaftServer.HandleAppendEntries | raft_server.cxx:82-158 | as the specification, in all its branches |
| RaftServerClass.RaftServer.ProcessReq | raft_server.cxx:29-80 | the term is updated first, then the request handled |
| RaftServerClass.RaftServer.HandleCliReq | raft_server.cxx:175-191 | the loop appends the entries, the peers are asked, and the client hears the new end of the log or, from another server, the leader's name |
| RaftServerClass.RaftServer.CommitByCounting | raft_server.cxx:343-354 | the loop collects the matched indices; their median is committed |
| RaftServerClass.RaftServer.HandleAppendEntriesResp | raft_server.cxx:327-374 | as the specification, accepted or not; nothing for a server that is not a peer |
| RaftServerClass.RaftServer.HandlePeerResp | raft_server.cxx:291-325 | a higher term ends the handling; otherwise by kind |
| RaftServerClass.RaftServer.HandleRpcResult | peer.cxx:11-31 | the peer is free before the response or the error is handled |
| RaftServerClass.RaftServer.HandleHbTimeout | raft_server.cxx:442-461 | only a leader sends |
| RaftServerClass.RaftServer.CommitInBg | raft_server.cxx:1326-1347 | one entry is delivered; the state is saved when the loop has caught up |
| RaftServerClass.RaftServer.CommitLoop | raft_server.cxx:1303-1351 | the loop goes on to the commit index or the end of the log |
| RaftServerClass.AllAppliedMeans | raft_server.cxx:1325-1347 | the state machine receives exactly the entries of the newly committed indices, ascending, each once, never past the smaller of commit index and last index; if there are any, the new commit index is on disk |
| UrgentCommit.UrgentCommitKept | raft_server.cxx:269-374 | in every reachable state of every variant each peer of a leader is marked or was last sent the current commit index |
| UrgentCommit.CommitReminds | raft_server.cxx:546-564 | a rising commit index is sent to or marked for every peer |
| UrgentCommit.AcceptedReminds | raft_server.cxx:335-373 | clearing the mark is followed by a request unless one was just sent |
| UrgentCommit.StepReminds | raft_server.cxx:29-564 | every step keeps this |
| Replication.MergeHoldsEntries | raft_server.cxx:109-152 | the merge agrees with the leader to the end of the request; it keeps the tail exactly when nothing conflicts, else cuts there |
| Replication.MergeIsIdempotent | raft_server.cxx:109-152 | delivered twice, a request changes nothing the second time |
| Replication.StaleRequestRemovesNothing | raft_server.cxx:109-152 | no request of a leader, however old, removes an entry that the follower shares with that leader's log; it removes none at all when the logs agree to its end |
| Replication.RejectionLowers | raft_server.cxx:356-366 | each rejection strictly lowers the next index, not below 1 |
| Replication.FirstTakenIsLargest | raft_server.cxx:99-107 | the first previous index taken is the largest on which the logs agree |
| Replication.FewRejections | raft_server.cxx:356-366 | stepping back from any next index, a leader is rejected at most min of the two lengths + 1 times |
| Replication.FirstRequest | raft_server.cxx:280-289 | a leader that asks a free peer of its term starts such an exchange |
| Replication.OneRound | raft_server.cxx:82-158 | one round of the handlers: the request is rejected exactly when the logs differ at its previous index, log and next index move accordingly, and the leader has sent the request its next index calls for unless the follower holds all of its log |
| Replication.FewRefusals | raft_server.cxx:356-366 | over any number of rounds the leader is rejected at most min of the two lengths + 1 times |
| Replication.RoundsBringLeaderLog | raft_server.cxx:335-373 | after as many rounds as there are rejections and entries to send the follower holds the leader's log, or its own where that begins with the leader's |
| Replication.FollowerCatchesUp | raft_server.cxx:335-373 | after min of the lengths + 1 + the leader's length rounds the follower holds the leader's log if and only if it held it at the start or the leader may send entries at all |
| LogImages.FilesDetermineLog | fs_log_store.cxx:285-304 | no two logs have the same two files |
| LogImages.RecordAt | fs_log_store.cxx:444-458 | the bytes between two offsets are the serialized entry |
| LogImages.OffsetsIncrease | fs_log_store.cxx:285-304 | offsets strictly increase |
| LogImages.IdxConcat | fs_log_store.cxx:536-586 | index bytes of a pack are right behind other entries when the byte offsets agree |
| LogStoreBufferClass.LogStoreBuffer.Fill | fs_log_store.cxx:96-120 | the cached part of a range, with empty places before it, and nothing when the range ends before the cache |
| LogStoreBufferClass.LogStoreBuffer.Get | fs_log_store.cxx:85-93 | an entry exactly when its index is cached |
| LogStoreBufferClass.LogStoreBuffer.GetTerm | fs_log_store.cxx:142-149 | the term of a cached entry, else 0 |
| LogStoreBufferClass.LogStoreBuffer.Trim | fs_log_store.cxx:152-162 | nothing is dropped when the index lies before the cache |
| LogStoreBufferClass.LogStoreBuffer.Append | fs_log_store.cxx:164-171 | the oldest entry leaves when the cache is full |
| FsLogStoreClass.FsLogStore.Open | fs_log_store.cxx:204-264 | reopening recovers log, start index and next slot; it fails exactly when there are entries and the cache has size 0 |
| FsLogStoreClass.FsLogStore.FillBuffer | fs_log_store.cxx:777-804 | the cache becomes the suffix from its first index on |
| FsLogStoreClass.FsLogStore.LastEntry | fs_log_store.cxx:276-283 | the last entry of the log, from the cache alone |
| FsLogStoreClass.FsLogStore.EntryAt | fs_log_store.cxx:424-460 | the entry of the log whether cached or not |
| FsLogStoreClass.FsLogStore.TermAt | fs_log_store.cxx:462-488 | the term of the entry for indices in the cache, and before it up to 2^31 entries from the start, the offset being cut to an int; otherwise nothing, or another entry's; a lookup that finds nothing leaves the stream bad, exactly then |
| FsLogStoreClass.FsLogStore.LogEntries | fs_log_store.cxx:367-422 | the range of the log, except that it writes out of bounds exactly when the range ends before the cache |
| FsLogStoreClass.FsLogStore.Append | fs_log_store.cxx:285-304 | files of the longer log; the cache follows exactly when its size is at least 1 |
| FsLogStoreClass.FsLogStore.WriteAt | fs_log_store.cxx:306-365 | files right exactly when the last record is not replaced by a shorter one, cache right exactly when the index does not lie before it |
| FsLogStoreClass.FsLogStore.MakePack | fs_log_store.cxx:490-534 | the two stretches of the files that hold the entries asked for, for counts of either sign; it fails exactly before the log and when the count takes nothing |
| FsLogStoreClass.FsLogStore.ApplyPack | fs_log_store.cxx:536-586 | for any pack and index the new bytes of both files; outside the log the store is ruined; for a pack of a log files right exactly when it is byte-aligned and leaves no old bytes behind |
| FsLogStoreClass.FsLogStore.Compact | fs_log_store.cxx:588-731 | for every last index and log the entries behind it, with the wrap-around of the start index at 2^64 and the failure that follows from a start index 0 |
| FsLogStoreClass.FsLogStore.Rebase | fs_log_store.cxx:701-711 | the loop turns the old offsets into those of the remaining entries |
| StoreRuns.Perform | fs_log_store.cxx:204-804 | one operation, in the cases where the code keeps its contract |
| StoreRuns.Run | fs_log_store.cxx:204-804 | every run of them keeps the files a faithful image and the cache a suffix, across reopenings |
| StoreExamples.ShorterRecord | fs_log_store.cxx:335-354 | a concrete overwrite after which the data file is not that of the log |
| StoreExamples.BeforeTheCache | fs_log_store.cxx:356-360 | one after which the cache is wrong |
| StoreExamples.RangeBeforeTheCache | fs_log_store.cxx:392-418 | a range that writes out of bounds |
| StoreExamples.NoCache | fs_log_store.cxx:164-171 | an append after which a cache of size 0 is empty |
| StoreExamples.NoCacheAgain | fs_log_store.cxx:786-788 | a store that cannot be opened again |
| StoreExamples.MisalignedPack | fs_log_store.cxx:554-555 | a pack that leaves wrong offsets |
| StoreExamples.ShorterPack | fs_log_store.cxx:562-577 | a pack behind which bytes of a replaced entry stay |
| StoreExamples.GapPack | fs_log_store.cxx:546-553 | a pack outside the log, after which the index file is bad |
| StoreExamples.TermOfNextSlot | fs_log_store.cxx:477-481 | asking for the term of the next slot leaves it bad, too |
| StoreExamples.TermFarAway | fs_log_store.cxx:477-477 | an index 2^32 on has the first entry's term |
| StoreExamples.GreatestIndex | fs_log_store.cxx:660-665 | a compaction after which the start index is 0 |
| StoreExamples.FromIndexZero | fs_log_store.cxx:643-679 | from there another compaction fails |
| LogCatchUp.SyncBatch | raft_server.cxx:1123-1140 | a pack lengthens the prefix the new server holds by the entries packed |
| LogCatchUp.CatchUp | raft_server.cxx:1142-1170 | for any stop gap and batch size the loop stops where the specification says, and at every moment the new server's files are a prefix of the leader's |
| LogCatchUp.EndsExactlyWhen | raft_server.cxx:1142-1170 | the exchange ends exactly when the gap is below the stop gap at once, when both parameters are at least 1, or when a negative count packs all the rest and that closes the gap |
| Bytes.ReadBack | buffer.cxx:65-97 | reading little-endian bytes gives the number, cut to their width |
| Bytes.ByteIsShift | buffer.cxx:139-163 | byte i is a shift by 8i and a cast |
| Bytes.ReadOneMore | buffer.cxx:82-97 | adding shifted bytes reads the number |
| BufferClass.Buffer.constructor | buffer.cxx:28-44 | size and position in either header, tag bit readable |
| BufferClass.Buffer.SetPos | buffer.cxx:110-113 | the position is cut to the size; the bytes stay |
| BufferClass.Buffer.PutNumber | buffer.cxx:139-163 | the bytes of the number at the position, nothing else; fails exactly without room |
| BufferClass.Buffer.PutByte | buffer.cxx:129-137 | one byte at the position |
| BufferClass.Buffer.PutStr | buffer.cxx:165-177 | the characters and a NUL |
| BufferClass.Buffer.PutBuffer | buffer.cxx:185-198 | what lies after the other buffer's position |
| BufferClass.Buffer.GetUlong | buffer.cxx:82-97 | the number in the next eight bytes |
| BufferClass.Buffer.GetInt | buffer.cxx:65-80 | the signed number in the next four |
| BufferClass.Buffer.GetByte | buffer.cxx:99-108 | the next byte |
| BufferClass.Buffer.GetStr | buffer.cxx:115-127 | the string before the next NUL; nil for an empty one or without a NUL |
| BufferClass.Buffer.Copy | buffer.cxx:46-51 | a new buffer with what lies after the position |
| Codecs.SrvFieldsLie | srv_config.cxx:11-17 | the id in four bytes, the endpoint, a NUL |
| Codecs.ConfigFieldsLie | cluster_config.cxx:5-24 | the two indices, the number of servers in four bytes, the servers |
| Codecs.SnapshotFieldsLie | snapshot.cxx:13-22 | last index, last term and size, the configuration |
| Codecs.SyncFieldsLie | snapshot_sync_req.cxx:23-32 | the snapshot, the offset, one byte for the end, the payload from its position on |
| Codecs.EntryFieldsLie | log_entry.hxx:30-38 | the term, one byte for the type, the payload |
| Codecs.SrvRoundTrip | srv_config.cxx:5-17 | a server survives exactly when its endpoint is non-empty and NUL-free |
| Codecs.ServersRoundTrip | cluster_config.cxx:5-36 | a list of servers exactly when all of them do |
| Codecs.ConfigRoundTrip | cluster_config.cxx:5-36 | a configuration exactly then |
| Codecs.SnapshotRoundTrip | snapshot.cxx:5-22 | a snapshot exactly then |
| Codecs.SyncRoundTrip | snapshot_sync_req.cxx:5-32 | a sync request exactly when also its payload's position is 0 |
| Codecs.EntryRoundTrip | log_entry.hxx:30-45 | every log entry |
| Codecs.EntryBytesInjective | log_entry.hxx:30-38 | different entries have different records |
| Codecs.TermComesFirst | log_entry.hxx:47-51 | the first eight bytes of a record are the term |
| Serializers.SerializeSrv | srv_config.cxx:11-17 | writes the layout, or nothing when no buffer is large enough |
| Serializers.DeserializeSrv | srv_config.cxx:5-9 | reads what the functional reader reads |
| Serializers.SerializeConfig | cluster_config.cxx:5-24 | the two loops write the layout |
| Serializers.DeserializeConfig | cluster_config.cxx:26-36 | the loop reads what the functional reader reads, for any count |
| Serializers.SerializeSnapshot | snapshot.cxx:13-22 | writes the layout |
| Serializers.DeserializeSnapshot | snapshot.cxx:5-11 | reads what the functional reader reads |
| Serializers.SerializeSync | snapshot_sync_req.cxx:23-32 | writes the payload from its position on |
| Serializers.DeserializeSync | snapshot_sync_req.cxx:5-21 | takes all that is left for the payload |
| Serializers.SerializeEntry | log_entry.hxx:30-38 | writes the whole payload and rewinds it |
| Serializers.DeserializeEntry | log_entry.hxx:40-45 | reads what the functional reader reads |
| Serializers.TermInBuffer | log_entry.hxx:47-51 | the eight bytes behind the position, wherever it is, and the position back at the start |
| SnapshotTransfer.CreateBlock | raft_server.cxx:1264-1275 | the block at an offset, or no buffer when what is left overflows an int32 |
| SnapshotTransfer.OneRound | raft_server.cxx:1264-1278 | one round, from the leader's block to its next offset, for any loss or declined block |
| SnapshotTransfer.Transfer | raft_server.cxx:376-407 | for any losses, retries and starts over, be it for a newer snapshot or a new leader, the exchange is that of the specification, and the peer goes on behind the snapshot when it ends |
| SnapshotTransfer.SavedIsSnapshot | raft_server.cxx:800-880 | the accepted blocks tile the snapshot, only the last marked done; what was written, repeats included, is a prefix of the snapshot, and all of it once installed |
| SnapshotTransfer.CanEndExactlyWhen | raft_server.cxx:828-838 | rounds alone can still end a transfer if and only if it has ended or the peer's commit index is below the snapshot's, which it no longer is once the answer to the installing block was lost |
| SnapshotTransfer.LastAnswerLost | raft_server.cxx:828-831 | such a loss; only a start with a newer snapshot lets rounds end it |
| SnapshotTransfer.TilesJoin | raft_server.cxx:800-838 | put together the blocks are the snapshot |
| SnapshotTransfer.EndsExactlyWhen | raft_server.cxx:1230-1281 | a transfer ends exactly for sizes from 1 to 2^31 - 1 and a block size that is not negative |

## Left out

- Membership change: joining, leaving and the two places that append a configuration while another is uncommitted; the set of servers is fixed, and `config_changing_` is kept by the class but read by nothing.
- What a new leader sends before, or instead of, starting a snapshot transfer over: ordinary requests to append, as modelled in the cluster.
- Compaction and snapshot installation inside the cluster; logs there start at index 1. Both are modelled for the store and for one transfer.
- Entries other than client data and the first configuration; `pre_commit` and `rollback` of the state machine.
- The `hb_enabled_` flag and the pacing of heartbeats: a leader's heartbeat to any peer may happen at any time.
- Wrap-around of terms and log indices at 2^64 and of counters at 2^31, except for the unsigned decrement of a next index, the offsets of the store and the sizes of a snapshot.
- Service.ClientCanBeServed: says that clients can be served, not within what time; every `max_append_size_` is taken to be at least 1, since a leader with 0 sends no entries (Replication.FollowerCatchesUp).
- Liveness under real time, randomized timeouts, locking, reference counting, loggers and sockets: each handler is one step.
- Disk failures and partial writes; the path of `compact` that restores its backups.
- `buffer::get(ptr<buffer>&)`, which checks no bounds, and the unused `log_store_buffer::pack`.
- Buffers of 2^31 bytes or more inside the store: its records and the part of the index file it reads at once are taken to fit a buffer.
- FsLogStoreClass.FsLogStore.MakePack: the two int32 lengths in front of a pack are a pair of sequences here; the code cuts the first offset to an int, which matters for 2^31 entries or more.
- FsLogStoreClass.FsLogStore.Append: the data file is taken to stay below 2^64 bytes, the width of an offset.
- Codecs.ConfigRoundTrip: lists of fewer than 2^31 servers, the width of the count; longer ones do not fit a buffer.
- SafetyTheorem.TrioSafeExactlyWhenGuarded: that each guard is needed, here and in the other equivalences, is shown for three servers; what holds with the guards on is proved for any number.
