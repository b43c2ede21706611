# Raft, the replicated store on it, and the sharded store on that

This project models a Raft implementation with log compaction, the replicated state machine and key/value server built
on it, the migration of shards between groups of such servers, the shard balancer, and the lock built on a single
versioned register. It proves what they are for.

## What is modelled

**One versioned map** (`KvStore`, `KvServers`, `KvHistory`). Reads return value and version, writes are a
compare-and-set on the version. Everything else in the repository refines this map.

**Raft** is modelled three times over, and the three are proved to fit.

- `AbstractRaft` is the protocol without compaction: every locked section is an event, messages are never removed, so
  they may be lost, repeated and reordered at will. `RaftInvariant`, `RaftStability` and `RaftPreservation` prove its
  inductive invariant. For an entry of term t, the invariant says of every later leader that it holds the entry, or that
  an election quorum has left term t without it; a commit quorum rules the second out. The commit quorum is N -
  floor(N/2) peers, as in the code, only half of an even cluster, while the paper asks for a majority.
- `RaftPeer` is one compacting peer as a value, with one function for each locked section of `raft/raft.go`. Position 0
  of the log is the snapshot boundary. `RaftCluster` runs many of them over a network, with crashes that fall back to
  what was persisted. `RaftCoupling`, `RaftHandlers` and `RaftRefinement` prove that every step of the cluster is a run
  of the abstract protocol: taking a snapshot is a stuttering step, and installing one is accepting the leader's log
  from its first entry on. `RaftSafety` states the safety properties of Figure 3 of "In Search of an Understandable
  Consensus Algorithm (Extended Version)" for all reachable clusters, and that no slice access is ever out of bounds.
  `RaftMatch` finds the answer in the network behind every match index, and `RaftRepair` bounds log repair without
  compaction.
- `RaftNode` is the peer as the object it is: a class whose methods update the fields in place, with the loops of the
  source, each proved equal to the function of its section. `RaftRules` says of each section what it changes, exactly
  when, and what it answers, without those functions, in terms of fields and logical indices. The preconditions of its
  methods that concern indices are what `RaftRefinement.StepInBounds` proves of every reachable cluster.

The goroutine of `callElection` may run at any time after the candidacy that started it, in whatever term the peer is
then; two vote counters may run for one term. A heartbeat is sent to one peer at a time. A reply travels with the
arguments of its call, even across a crash of the caller, which allows more than the code does.

**The replicated state machine** (`RsmSystem`, `RsmFold`, `RsmSubmit`, `RsmTheorems`, `RsmNode`): the applier hands
committed commands and snapshots to a reader, which executes them, answers waiting `Submit` calls and asks for
snapshots. All of it is for any deterministic service (`Services`); the two in the repository are the key/value server
and the server of a shard group, and `Machines` ties both server objects to theirs. `RsmTheorems.Linearizable` gives one
log that explains every store and every answer of a run; `RsmAnswers` says exactly what callers are told, and has a run
in which one is told OK.

**Shard migration** (`ShardTypes`, `ShardGroup`, `ShardSystem`, `ShardInvariant`, `ShardMigration`, `ShardTheorems`).
Each group is one atomic state machine, which `ShardReplication` justifies: the replicas and the answers of a replicated
group are those of the machine that handles the same commands in the order of the log. `ShardRules` says what a group
does with each request, and that a request answered OK is answered alike when repeated. Controllers are any number, may
stop anywhere and leave copies of their requests in flight; what may be sent depends only on answers some controller has
had.

**The controller** (`ShardProgram`, `ShardRuns`, `ShardController`, `ShardBridge`, `ShardChoice`, `ShardCollision`).
`ShardProgram` says what `ChangeConfigTo` asks in each phase and where each answer takes it. `ShardController` is the
object with its retry loops; its contracts say that it asks just these questions, that what it goes by are the answers
it was given, in order, and which phase it has reached. `ShardBridge` runs that program inside the migration system,
between any steps of groups, clients and other controllers: every question is a step of the protocol, and however a run
ends, its target has been published. `ShardChoice` extends that to the beginning of the run, where the target is
registered or taken over. `ShardRuns` says on the exchanges alone what is asked after what: recovery, retries, and the
whole of a run without trouble. `ShardCollision` runs two controllers without any premise on registrations, and shows
what the premise below is needed for.

**The balancer** (`ShardBalance`, `ShardCfg`) for any number of groups and up to 256 shards, the bound at which the
sentinel 257 of `analyze` stops working.

**The lock** (`LockProtocol`, `LockProgress`, `LockNode`), as a protocol in which nobody is locked out and as the object
whose acts and Puts are that protocol's, and **the clients' retry loops** (`Clerks`) with what each verdict lets the
caller conclude.

## Premises

- The service snapshots only indices that were delivered to it (`RaftCluster.CanStep`), and snapshots are not empty.
- While the applier is inside a channel send, no newer snapshot is installed (`RsmSystem.Possible`): the code drops the
  lock there, and a snapshot landing then can be overtaken or cleared.
- A newer snapshot is installed only at a peer that has not applied past it (`RsmSystem.InstallPremise`). See below.
- The pairs of replica and call number are unique (`RsmSystem.Possible` for `Submit`). `RsmTheorems.FreshWithoutCrash`
  proves that they are as long as no replica restarts; after a restart the code numbers from 0 again.
- A target gives every shard to a group other than 0, and is chosen only when the previous one is published
  (`ShardSystem.CanStep` for `NewTarget`). The code ensures neither; see below for the second. Every group has servers.
- Encoding is an exact round trip of values. `RsmSystem` and `ShardTypes` take decoding as replacing what it decodes
  into; for shards `ShardTheorems.InstallsOntoNothing` shows that it makes no difference.
- The hash behind `Key2Shard` is any function; the shard is its value modulo 12.
- Lock identities are distinct and not empty, and each lock object has one sequential user.
- The configuration store answers reads with what is there at that moment, and confirms a swap only if it was made
  (`ShardBridge.Truthful`, `ShardChoice.ToldTruly`).

## Where the code falls short

- `InstallSnapShot` accepts a snapshot newer than the peer's own but older than what the peer has applied, and hands it
  to the service without lowering `lastApplied` (`raft/raft.go:584-612`). The service falls back, and nothing applies
  the lost commands again. `RaftStaleInstall.StaleInstallReachable` gives a run of two peers, without loss or crash, in
  which such a message arrives. `RsmStaleInstall.StaleInstallBreaksReplica` runs the whole system there and on: an idle
  follower, to which two commands were delivered, holds what no log with these two commands explains.
  `RsmTheorems.InstallInStep` shows that an install keeps an idle service in step exactly when `LastIncludedIndex >=
  lastApplied`. All results about stores carry that guard as a premise. Results about Raft itself do not need it.
- `ChangeConfigTo` replaces a pending configuration by one with a higher number whether or not the pending one has been
  published (`shardkv/shardctrler/shardctrler.go:131-142`), and the controller that works on the old one goes on.
  `ShardCollision.OverwriteSplitsShard`: without any message lost, two groups come to serve one shard and confirm the
  same write. `ShardCollision.OverwriteHarms`: once the old target is installed, that happens exactly as long as it has
  not been deleted at its old group. With the premise that the previous target is published first, it never happens
  (`ShardTheorems.SingleServer`).
- When nothing is pending yet, `ChangeConfigTo` takes ErrMaybe for a registration that was made
  (`shardkv/shardctrler/shardctrler.go:111-116`), although another controller's may have been.
  `ShardCollision.MaybeSplitsShard`: two targets with the same number then split a shard in the same way.
  `ShardChoice.MaybeIsWorth`: the controller's further steps are backed exactly if its configuration was registered,
  that is, while no third one is pending, if "Pending" reads back as its own. The second branch
  (`shardkv/shardctrler/shardctrler.go:131-142`) reads it back.
- The comment on the single server's `Put` says that the clerk turns an `ErrVersion` on a resend into `ErrMaybe`
  (`kvsrv/client.go:46-55`). The code reports `ErrMaybe` for every answer to a resend, `OK` included
  (`kvsrv/client.go:67-74`): answers none, then OK are told ErrMaybe (`Clerks.SingleToldOk`). The code keeps the
  comment's promise exactly for a first attempt and for ErrVersion and ErrMaybe (`Clerks.SingleKeepsPromise`). The model
  follows the code.
- The clerks of the replicated store (`kvraft/client.go:69-73`) and of the sharded store (`shardkv/client.go:102-104`)
  report `ErrNoKey` after a resend although a copy of an earlier attempt may still write; `Clerks.NoKeyAfterResend` is
  an input. `Clerks.NoKeyConclusive` says when ErrNoKey does mean that the write never happens: exactly if there was one
  attempt or the version is 0, and, where a server that refused an attempt is known not to run it, exactly if every
  earlier attempt was refused or the version is 0.
- ErrVersion means that the write never happens exactly under the premise that a call runs at most once
  (`Clerks.VersionMeansNever`).
- A sharded clerk that reads a configuration in which the shard's group has no servers panics, since it indexes the
  empty list of a group clerk (`shardkv/shardgrp/client.go:58-60`); `Clerks.ShardedClerk.Put` says exactly when, and
  `Clerks.PanicsUnassigned` has an input.

## Model

| member | source | states |
|---|---|---|
| KvServers.SingleServer.Get | kvsrv/server.go:35-45 | A read returns the record, or ErrNoKey, as the versioned map answers. |
| KvServers.SingleServer.Put | kvsrv/server.go:47-65 | A write answers and changes the map as a compare-and-set on the version does. |
| KvServers.KVServer.DoOp | kvraft/server.go:23-62 | The replicated state machine is the same map, request by request. |
| KvServers.KVServer.Snapshot | kvraft/server.go:64-72 | A snapshot is the whole map. |
| KvServers.KVServer.Restore | kvraft/server.go:74-81 | Restoring a snapshot gives back its map; an empty one changes nothing. |
| KvHistory.VersionCountsWrites | kvsrv/server.go:47-65 | In every history the version of a key is the number of writes that were answered OK. |
| KvHistory.WriteIsTold | kvsrv/server.go:47-65 | A write is answered OK if and only if it names the number of writes before it; ErrNoKey or ErrVersion otherwise, by whether there were any. |
| KvHistory.ReadIsTold | kvsrv/server.go:35-45 | A read answers the value of the last write and the number of writes, or that there was none. |
| KvHistory.AtMostOnce | kvsrv/server.go:47-65 | Of all copies of one write at most one takes effect; later ones are told ErrVersion and change nothing. |
| Clerks.SingleClerk.Put | kvsrv/client.go:63-77 | The loop ends with the first answer, which it reports only when it was the first attempt. |
| Clerks.ReplicatedClerk.Put | kvraft/client.go:57-87 | The loop ends with the first definite answer, ErrVersion after a resend becomes ErrMaybe, and the answering server is remembered as leader. |
| Clerks.ReplicatedClerk.Get | kvraft/client.go:29-55 | Get returns the first answer OK or ErrNoKey that some server gives, remembers who gave it, and gives up none. |
| Clerks.GroupClerk.Put | shardkv/shardgrp/client.go:51-77 | One attempt; no answer counts as a wrong leader, which moves on to the next server, in bounds; without servers it panics. |
| Clerks.ShardedClerk.GetOrMakeClerk | shardkv/client.go:47-56 | A cached clerk is reused, a new one is made for the servers named and cached. |
| Clerks.ShardedClerk.AskRound | shardkv/client.go:85-91 | A round asks the servers first cached for the group, and cannot ask none. |
| Clerks.ShardedClerk.Put | shardkv/client.go:82-107 | The loop retries refusals and lost attempts, reports ErrMaybe for ErrVersion after any of them, and panics exactly if it reaches a round without servers. |
| Clerks.PanicsUnassigned | shardkv/shardgrp/client.go:51-60 | A single round panics if and only if no servers are known for its group; a shard at group 0 is an input. |
| Clerks.OkMeansOnce | kvraft/client.go:66-80 | If a clerk reports OK, exactly one copy of one attempt ever writes, and that attempt is the one that was answered. |
| Clerks.VersionMeansNever | kvsrv/client.go:48-51 | ErrVersion is reported for a single attempt; the write then never happens if and only if calls run at most once. |
| Clerks.NoKeyConclusive | kvraft/client.go:66-80 | ErrNoKey means that the write never happens if and only if there was one attempt, or the version is 0, or, with refusals trusted, every earlier attempt was refused. |
| Clerks.NoKeyAfterResend | kvraft/client.go:69-73 | An input for which both clerks report ErrNoKey although an earlier attempt can still write. |
| Clerks.ToldExactly | kvraft/client.go:66-80 | The first conclusive answer is what the caller of each clerk is told, but for ErrMaybe after a resend. |
| Clerks.SingleToldOk | kvsrv/client.go:63-77 | The single server's clerk reports OK if and only if its first attempt was answered OK. |
| Clerks.SingleKeepsPromise | kvsrv/client.go:46-55 | Its verdict is the one its comment promises if and only if the attempt is the first or the answer is ErrVersion or ErrMaybe. |
| RaftNode.Raft.constructor | raft/raft.go:705-756 | A peer starts, or restarts, from exactly what was persisted; a snapshot sets its indices and is owed to the service. |
| RaftNode.Raft.ReadPersist | raft/raft.go:639-666 | Decoding restores the five persisted fields and touches nothing else. |
| RaftNode.Raft.Persist | raft/raft.go:624-636 | Saving writes the five fields and the snapshot. |
| RaftNode.Raft.ConvertToFollower | raft/raft.go:93-97 | The vote is forgotten and saved. |
| RaftNode.Raft.StepDown | raft/raft.go:99-106 | A candidate yields; the vote is forgotten only in a new term. |
| RaftNode.Raft.ConvertToCandidate | raft/raft.go:108-115 | The term rises, the peer votes for itself and saves. |
| RaftNode.Raft.ConvertToLeader | raft/raft.go:117-124 | Every nextIndex is one past the log, every matchIndex is 0. |
| RaftNode.Raft.ScanConflict | raft/raft.go:190-196 | The backwards scan finds the start of the run of the conflicting term. |
| RaftNode.Raft.ScanMatched | raft/raft.go:201-210 | The forward scan counts the entries already held. |
| RaftNode.Raft.TakeEntries | raft/raft.go:201-217 | What the log lacks of a message is taken over, in place, after truncation. |
| RaftNode.Raft.FollowCommit | raft/raft.go:219-227 | The commit index is first brought back into the log, then follows the leader's, bounded by the last entry. |
| RaftNode.Raft.AcceptEntries | raft/raft.go:201-228 | Entries are taken, saved, and then committed, in that order. |
| RaftNode.Raft.HearLeader | raft/raft.go:158-173 | Stale senders are told apart; otherwise the term is adopted and a candidate yields. |
| RaftNode.Raft.AppendEntries | raft/raft.go:154-229 | The whole handler, in place; success if and only if the entry before is held, with what is taken, committed, and answered as conflict index, at any boundary. |
| RaftNode.Raft.UpdateCommitIndex | raft/raft.go:239-253 | The sorted copy of matchIndex gives the commit index, in bounds, and only entries of the current term commit. |
| RaftNode.Raft.TakeCommitted | raft/raft.go:268-280 | The applier takes the next committed entry exactly when there is one. |
| RaftNode.Raft.MessageFor | raft/raft.go:312-361 | A peer is sent the snapshot if its next entry is compacted away, else the rest of the log. |
| RaftNode.Raft.BroadcastHeartbeats | raft/raft.go:306-397 | The loop addresses every other peer once, in order. |
| RaftNode.Raft.RaiseIndices | raft/raft.go:375-388 | An acknowledgement sets matchIndex and nextIndex each to the larger of what it was and what was acknowledged. |
| RaftNode.Broadcast | raft/raft.go:306-310 | A broadcast contains exactly the message for each peer but the sender. |
| RaftNode.Raft.ReceiveAppendReply | raft/raft.go:363-394 | A success sets both indices to the larger and commits the largest index that N - floor(N/2) peers reached, if new and of this term; a rejection lowers nextIndex; a later term is adopted. |
| RaftNode.Raft.ReceiveInstallReply | raft/raft.go:321-342 | A snapshot's reply raises both indices, and commits by the same rule. |
| RaftNode.Raft.RequestVote | raft/raft.go:415-445 | The vote is granted if and only if the term is not over, the vote is free and the candidate's log is up to date; it is then saved, and the reply has the later term. |
| RaftNode.Raft.CallElection | raft/raft.go:456-468 | The arguments are those of the term the goroutine finds. |
| RaftNode.Raft.ReceiveVoteReply | raft/raft.go:486-505 | Votes count only in the election's own term, and more than half make a leader. |
| RaftNode.Raft.Snapshot | raft/raft.go:547-561 | Compaction cuts the log at the index and saves the snapshot. |
| RaftNode.Raft.TakeOver | raft/raft.go:588-612 | A newer snapshot keeps what follows it if the log agrees there, else replaces the log. |
| RaftNode.Raft.InstallSnapShot | raft/raft.go:563-613 | The whole handler, reply included. |
| RaftNode.Raft.Start | raft/raft.go:679-699 | A leader appends, saves and broadcasts; others refuse and change nothing. |
| RaftRules.VoteByRule | raft/raft.go:415-445 | Granted if and only if term, vote and log allow it; what becomes of term, role, vote and disk, and the reply's term. |
| RaftRules.VoteReplyByRule | raft/raft.go:486-505 | A vote counts in the election's own term and candidacy only, and a count above half makes a leader with fresh indices. |
| RaftRules.CandidacyByRule | raft/raft.go:108-115 | The term rises by one, the peer votes for itself and saves, and asks with its last index and term. |
| RaftRules.AppendByRule | raft/raft.go:154-229 | Success if and only if the entry before is held; the log from the first lacking entry on is the message's; the commit index; the conflict index in logical terms. |
| RaftRules.CommitByRule | raft/raft.go:239-253 | The largest index that N - floor(N/2) peers reached is committed if it is new and its entry is of the current term; nothing else changes. |
| RaftRules.AppendReplyByRule | raft/raft.go:363-394 | What each kind of reply makes of indices, commit index and term. |
| RaftRules.InstallReplyByRule | raft/raft.go:321-342 | The same for replies to snapshots. |
| RaftRules.EnoughCommitsAll | raft/raft.go:375-388 | The acknowledgement that makes enough commits all of the leader's log if its last entry is of its term. |
| RaftRules.MessageByRule | raft/raft.go:312-361 | The snapshot if the next entry is compacted away, else every entry from the next one on, in order. |
| RaftRules.StartByRule | raft/raft.go:679-699 | A leader appends the command at its next index and saves; others refuse and stay as they are. |
| RaftRules.SnapshotByRule | raft/raft.go:547-561 | From the index on the log is as it was, and the snapshot is saved, if the index is in range; else nothing changes. |
| RaftRules.InstallByRule | raft/raft.go:563-613 | A newer snapshot of a term not over becomes the boundary; what follows is kept if and only if the peer holds its last entry; the service is owed it. |
| RaftRules.RestartByRule | raft/raft.go:705-756 | A follower with what was saved, whose indices are those of its snapshot. |
| RaftPeer.MedianIsLargest | raft/raft.go:243-247 | The sorted middle is the largest index that N - floor(N/2) peers have reached, for every N. |
| RaftPeer.ConflictStart | raft/raft.go:190-195 | Everything from the returned position to the conflict has the conflicting term, and the entry before has not. |
| RaftTypes.Matched | raft/raft.go:201-210 | The scan stops at the first entry that is missing or of another term. |
| RaftInvariant.QuorumsMeet | raft/raft.go:243-252 | Any commit quorum meets any election quorum, for even N too. |
| RaftPreservation.NextPreserves | raft/raft.go:154-613 | Every event of the uncompacted protocol keeps the inductive invariant. |
| RaftPreservation.CandidateHolds | raft/raft.go:432-443 | A candidate with an election quorum holds every entry of earlier terms that can still be committed. |
| RaftPreservation.MergeHolds | raft/raft.go:201-217 | Accepting entries never loses an acknowledged entry that can still be committed. |
| RaftCoupling.SnapshotStutters | raft/raft.go:547-561 | Taking a snapshot leaves the logical log as it is. |
| RaftCoupling.InstallRefines | raft/raft.go:563-613 | Installing a snapshot is accepting the leader's log from its first entry on: nothing committed or acknowledged is lost. |
| RaftCoupling.AppendRefines | raft/raft.go:154-229 | The handler on a compacted log is the protocol's accept step on the whole log, whatever the reply. |
| RaftCoupling.RestartRefines | raft/raft.go:735-749 | A restart loses nothing but the commit index above the snapshot. |
| RaftHandlers.VoteRefines | raft/raft.go:415-445 | The voting handler grants only what the protocol's grant step allows. |
| RaftHandlers.ElectRefines | raft/raft.go:499-505 | A counter that passes half of the peers counted an election quorum. |
| RaftHandlers.UpdateCommitRefines | raft/raft.go:239-253 | The sorted middle commits only what a commit quorum acknowledged in this term. |
| RaftHandlers.AppendReplyRefines | raft/raft.go:363-394 | Late, repeated and reordered replies keep every matchIndex backed by an acknowledgement of the term. |
| RaftHandlers.InstallReplyRefines | raft/raft.go:321-342 | The same for replies to snapshots. |
| RaftRefinement.StepInBounds | raft/raft.go:77-87 | No step of a coupled cluster accesses a slice out of bounds. |
| RaftRefinement.TraceRefines | raft/raft.go:154-749 | Every run of the compacting cluster, crashes included, is a run of the uncompacted protocol. |
| RaftSafety.NoPanic | raft/raft.go:249-272 | No run panics, and on all peers lastIncludedIndex <= lastApplied <= commitIndex <= last index, nextIndex within 1 and last index + 1. |
| RaftSafety.ElectionSafety | raft/raft.go:456-506 | At most one leader per term, between any two moments of any run, with late election goroutines and two counters for a term. |
| RaftSafety.LogMatching | raft/raft.go:201-217 | Equal index and term make two logs equal below, as far as both still hold it, across compaction. |
| RaftSafety.LogMatchingBelow | raft/raft.go:547-596 | Where one peer has compacted, the entry the other still holds is the command that was delivered at that index. |
| RaftSafety.LogShape | raft/raft.go:557-596 | Entries carry their logical index, terms never fall or exceed the current term, and the boundary has the snapshot's term. |
| RaftSafety.LeaderCompleteness | raft/raft.go:243-252 | An entry committed in a term is in the log of every leader of that or a later term, for every N. |
| RaftSafety.LeadersHoldCommitted | raft/raft.go:432-443 | What any peer has committed was committed in some term, and every leader of that or a later term holds it or has compacted it. |
| RaftSafety.StateMachineSafety | raft/raft.go:258-282 | Over every run, two commands delivered at one index by any peers are the same. |
| RaftSafety.CommittedAgree | raft/raft.go:219-227 | Committed parts of any two logs agree. |
| RaftSafety.CommitWithinMessage | raft/raft.go:348-361 | Every AppendEntries in flight has LeaderCommit <= PrevLogIndex + len(Entries). |
| RaftSafety.FollowerCommitRule | raft/raft.go:219-227 | Although a follower bounds its commit by its own last index, it computes the rule of the paper. |
| RaftSafety.MatchIndexSound | raft/raft.go:375-388 | A peer with a match index is in the leader's term or has left it for a later one; until then it holds the leader's entries through that index. |
| RaftMatch.MatchIndexAcknowledged | raft/raft.go:363-394 | Behind every positive match index of a leader there is an answer of that peer, in the leader's term, for at least that index, and what it acknowledged is the leader's log; whatever the peer did since. |
| RaftSafety.CommitNeverFalls | raft/raft.go:219-222 | The clamp after a truncation never fires: only a restart lowers a commit index. |
| RaftRepair.RejectionCounts | raft/raft.go:177-198 | Every rejection lowers nextIndex, keeps the follower's log and removes one of the terms still in the way. |
| RaftRepair.MergeRepairs | raft/raft.go:201-217 | The first acceptance makes the leader's log a prefix of the follower's. |
| RaftRepair.RepairBound | raft/raft.go:348-392 | Without compaction a follower is repaired after at most 1 + (positive terms in its log) rejections. |
| RaftRepair.ReachableRepairable | raft/raft.go:177-217 | What the bound assumes holds between any leader and uncompacted follower of any run. |
| RaftStaleInstall.StaleInstallReachable | raft/raft.go:584-612 | A reachable cluster in which a snapshot older than what its receiver applied arrives and is accepted. |
| RsmNode.RSM.BeginSubmit | kvraft/rsm/rsm.go:90-108 | The locked half of Submit numbers the operation, starts it and waits at exactly the index it got. |
| RsmNode.RSM.AwaitAnswer | kvraft/rsm/rsm.go:116-129 | The wait is decided by the first delivery or the first tick in another term or role; a foreign operation means ErrWrongLeader. |
| RsmNode.RSM.HandleMessage | kvraft/rsm/rsm.go:26-53 | One turn of the reader: a call is answered if and only if it waits at the command's index, with the operation and its result; execute or restore, stop waiting, and save when asked. |
| RsmNode.RSM.PassSnapshot | kvraft/rsm/rsm.go:49-52 | The saved state goes to the peer as a snapshot at the index it reflects. |
| RsmNode.RSM.Forget | kvraft/rsm/rsm.go:110-114 | A returning call stops waiting, and nothing else changes. |
| RsmFold.FoldPreserved | raft/raft.go:258-282 | Every step keeps each store, pending snapshot and snapshot on disk or in flight equal to the fold of the committed commands up to its index. |
| RsmFold.DecidedStateOnce | kvraft/rsm/rsm.go:26-53 | There is only one state after the committed commands 1..i. |
| RsmTheorems.Linearizable | kvraft/rsm/rsm.go:90-130 | One log explains all stores, and every call has one place in it; every OK answer is the result of the call's own operation at its own index; a call answered before another began has the smaller index, whether the other was answered OK or took effect without its caller knowing. |
| RsmTheorems.BeforeIsExact | kvraft/rsm/rsm.go:90-108 | The indices a call remembers at its start are exactly those answered OK by then. |
| RsmTheorems.RefusedNeverExecuted | kvraft/rsm/rsm.go:100-120 | A call that got ErrWrongLeader is never delivered to any replica. |
| RsmTheorems.IdleReplicaIsCurrent | kvraft/rsm/rsm.go:26-53 | A replica that is not behind on messages reflects exactly what its peer has applied. |
| RsmTheorems.FreshWithoutCrash | kvraft/rsm/rsm.go:90-97 | Without a restart, call numbers never repeat. |
| RsmAnswers.AwaitedIsAnswered | kvraft/rsm/rsm.go:35-47 | The call that waits at a command's index is sent the operation with the service's answer on the data before, and no other is. |
| RsmAnswers.OthersHearNothing | kvraft/rsm/rsm.go:26-47 | In every other case no call hears anything. |
| RsmAnswers.ReturnTells | kvraft/rsm/rsm.go:116-129 | A call returns OK with what it was sent if that was its own operation, ErrWrongLeader if not, ErrMaybe when it gives up. |
| RsmAnswers.OwnOperationReturnsOk | kvraft/rsm/rsm.go:90-130 | In every reachable system, a waiting call whose own operation is delivered can be told OK with the answer to its request. |
| RsmAnswers.SomeCallIsAnswered | kvraft/rsm/rsm.go:90-130 | A run from boot, premises kept, in which a Put is told OK. |
| RsmTheorems.ProtocolInBounds | raft/raft.go:77-87 | Raft under the service never accesses a slice out of bounds. |
| RsmTheorems.InstallInStep | raft/raft.go:584-612 | A newer snapshot keeps an idle service in step with its peer if and only if it is not older than what was applied. |
| RsmTheorems.DataFits | kvraft/server.go:74-81 | What a replica of either server holds, and every snapshot it is handed, is data of that server's own kind, so restoring never fails. |
| Machines.StateMachine.DoOp | kvraft/rsm/rsm.go:36-38 | Either server executes a command as its service does, and gives its answer. |
| Machines.StateMachine.Snapshot | kvraft/rsm/rsm.go:49-52 | The snapshot is everything the machine holds. |
| Machines.StateMachine.Restore | kvraft/rsm/rsm.go:28-30 | Restoring replaces all of it; an empty snapshot changes nothing. |
| ShardReplication.StartsAlike | shardkv/shardgrp/server.go:278-301 | A replicated group starts as the migration system has it. |
| ShardReplication.ClientIsServe | kvraft/rsm/rsm.go:26-53 | A client's command in the log of a replicated group is one step of the migration system, with the same state and answer. |
| ShardReplication.RequestIsHandle | kvraft/rsm/rsm.go:26-53 | So is a controller's request in that log. |
| ShardReplication.RunReflects | kvraft/rsm/rsm.go:26-53 | Any run in which the group handles the requests of a stretch of its log, in order, takes it from what the log folds to before to what it folds to after, whatever happens elsewhere. |
| ShardReplication.GroupIsAtomic | kvraft/rsm/rsm.go:26-130 | A replicated group is one atomic machine: its replicas hold, and its callers were answered, what the machine that handles the same log in the migration system holds and answers. |
| RsmStaleInstall.StaleInstallBreaksReplica | raft/raft.go:584-612 | A run of the whole system after which an idle follower holds what no log with the two commands delivered to it explains. |
| ShardGroup.KVServer.constructor | shardkv/shardgrp/server.go:278-301 | The first group starts owning every shard, other groups none. |
| ShardGroup.KVServer.DoOp | shardkv/shardgrp/server.go:33-172 | Each operation changes its own shard only, in place, as specified for one shard. |
| ShardGroup.KVServer.DoClient | shardkv/shardgrp/server.go:37-95 | Frozen and foreign shards refuse; others serve the versioned map. |
| ShardGroup.KVServer.DoFreeze | shardkv/shardgrp/server.go:97-127 | OK unless the number is too low, or the shard is gone for a lower number; the state comes along while the shard is here, the nil state after its delete. |
| ShardGroup.KVServer.DoInstall | shardkv/shardgrp/server.go:129-147 | Installing by configuration number; repeats change nothing. |
| ShardGroup.KVServer.DoDelete | shardkv/shardgrp/server.go:149-168 | Deleting by configuration number; repeats change nothing. |
| ShardGroup.KVServer.RestoreShard | shardkv/shardgrp/server.go:182-187 | Only the shard's store is replaced, and not by a nil state. |
| ShardGroup.KVServer.Snapshot | shardkv/shardgrp/server.go:189-202 | The snapshot holds all four tables. |
| ShardGroup.KVServer.Restore | shardkv/shardgrp/server.go:204-214 | Restoring a snapshot gives back exactly the state it was taken from. |
| ShardRules.ByRule | shardkv/shardgrp/server.go:33-172 | For each request exactly when it is answered OK, what comes along, and what becomes of the shard. |
| ShardRules.RepeatedIsAnsweredAlike | shardkv/shardgrp/server.go:97-168 | A migration request that was answered OK is answered just so again and changes nothing more. |
| ShardRules.StartingOverIsAnswered | shardkv/shardgrp/server.go:97-168 | A controller that starts over is answered OK: the freeze after the delete, with the nil state, and each request after itself. |
| ShardTypes.PartApply | shardkv/shardcfg/shardcfg.go:29-34 | A request meets the same record in its shard's part as in the whole map, and touches no other part. |
| ShardMigration.FreezeHandled | shardkv/shardgrp/server.go:97-127 | Any copy of a freeze, at any time, keeps the shard's move in order; its OK carries the shard's state while the new group lacks it. |
| ShardMigration.InstallHandled | shardkv/shardgrp/server.go:129-147 | Any copy of an install, at any time, keeps the move in order. |
| ShardMigration.DeleteHandled | shardkv/shardgrp/server.go:149-168 | Any copy of a delete, at any time, keeps the move in order. |
| ShardMigration.InvPreserved | shardkv/shardctrler/shardctrler.go:149-238 | Every step of groups, controllers and clients keeps the migration invariant. |
| ShardTheorems.OneMap | shardkv/shardgrp/server.go:37-95 | Over every run, all definite answers of all groups are those of the single map serving the same requests in the same order. |
| ShardTheorems.AnswersAreTheMaps | shardkv/shardgrp/server.go:37-95 | A group gives the single map's answer and makes its change if it owns the shard unfrozen; otherwise it refuses and changes nothing. |
| ShardTheorems.SingleServer | shardkv/shardgrp/server.go:97-168 | At most one group serves a shard, with any controllers and stale copies. |
| ShardTheorems.NothingLost | shardkv/shardgrp/server.go:97-168 | The shard's part of the map is always held by some group that owns it. |
| ShardTheorems.DeletedAfterInstall | shardkv/shardctrler/shardctrler.go:178-214 | When a delete takes a shard away, another group already serves it with everything in it. |
| ShardTheorems.PendingIsAnsweredOk | shardkv/shardgrp/server.go:97-168 | Every copy of every request of a target that is not yet published is answered OK, whoever sent it and in what order. |
| ShardTheorems.RefusalMeansPublished | shardkv/shardctrler/shardctrler.go:173-175 | A refusal that a controller has had means that its target has been published. |
| ShardTheorems.StaleCopiesHarmless | shardkv/shardgrp/server.go:97-168 | Copies of a published target's requests change nothing. |
| ShardTheorems.InstallsOntoNothing | shardkv/shardgrp/server.go:129-147 | An install that takes effect carries the shard's whole part and finds nothing of it; the nil state never takes effect. |
| ShardTheorems.PublishedOwnerServes | shardkv/client.go:63-79 | When nothing is pending, the published owner serves the shard's part of the map. |
| ShardTheorems.PublishedInOrder | shardkv/shardctrler/shardctrler.go:216-238 | A configuration is published only right after its predecessor, when every new owner already serves. |
| ShardController.ShardCtrler.Exchange | shardkv/shardctrler/shardctrler.go:244-251 | A question is asked only where the program asks it, and its answer is the next one given; otherwise the controller has crashed there. |
| ShardController.ShardCtrler.Query | shardkv/shardctrler/shardctrler.go:244-251 | The configuration returned is the one answered, or number 0 without one; asking it is what the program does next. |
| ShardController.ShardCtrler.Attempt | shardkv/shardgrp/client.go:88-115 | An attempt looks at the register first, sends this request once, and leads where its answer does. |
| ShardController.ShardCtrler.Repeat | shardkv/shardgrp/client.go:79-121 | The clerk's loop: one server further for every attempt without a conclusive answer, up to one, or to the target being published. |
| ShardController.ShardCtrler.Request | shardkv/shardgrp/client.go:79-115 | The loop ends with an OK to the last thing it sent, which is this very request to its group, in the phase that answer leads to; or stopped by ErrStale or by the target being published. The server tried first next time is the one that answered, one further for every attempt that had no answer. |
| ShardController.ShardCtrler.MoveShard | shardkv/shardctrler/shardctrler.go:161-214 | Freeze, install and delete go to the right groups, each on the answer to the one before, and the shard is through only if all were answered OK. |
| ShardController.ShardCtrler.MoveShards | shardkv/shardctrler/shardctrler.go:149-214 | The loop ends with every shard through, or where the program stops. |
| ShardController.ShardCtrler.PublishConfig | shardkv/shardctrler/shardctrler.go:216-238 | It reports success exactly if the program does: its swap was confirmed, or something as new was read. |
| ShardController.ShardCtrler.ChooseTarget | shardkv/shardctrler/shardctrler.go:107-147 | A target is returned only if it was registered, or read as pending and as new. |
| ShardController.ShardCtrler.ChangeConfigTo | shardkv/shardctrler/shardctrler.go:102-241 | The controller asks what its program asks after the answers it was given, to the program's end or a crash, and reports what the program does. |
| ShardController.ShardCtrler.InitController | shardkv/shardctrler/shardctrler.go:45-55 | What is pending is read, then what is current; the controller goes on if and only if the pending number is not below the current one, and else stops there without success. |
| ShardRuns.RecoversByProgram | shardkv/shardctrler/shardctrler.go:45-55 | The program recovers just so, on its exchanges alone. |
| ShardRuns.RequestRules | shardkv/shardgrp/client.go:79-191 | Before each request the register is read and is older; ErrStale ends the run; any other failure repeats the very same request; OK goes on, the install with the frozen state. |
| ShardRuns.SmoothRun | shardkv/shardctrler/shardctrler.go:45-241 | For all configurations, a run without trouble asks exactly: what is pending, what is current, then shard by shard freeze, install, delete, shards that stay passed over, and the swap; and ends with success. |
| ShardBridge.AskedIsStep | shardkv/shardctrler/shardctrler.go:161-214 | Every request of a controller whose answers were true is a step of the migration protocol. |
| ShardBridge.PublishIsStep | shardkv/shardctrler/shardctrler.go:216-238 | So is its swap of the register, from the moment on that the register was read. |
| ShardBridge.KnowledgeStays | shardkv/shardctrler/shardctrler.go:149-238 | What a controller knows stays true whatever the rest of the system does. |
| ShardBridge.AddedIsStep | shardkv/shardctrler/shardctrler.go:149-238 | A question or an answer adds to the system what at most one step of the protocol adds. |
| ShardBridge.ControllerRun | shardkv/shardctrler/shardctrler.go:149-238 | Over a whole run of the controller between any other steps, the system stays one the protocol reaches, the controller is where its program puts it, all it goes by is so, and if it ends its target has been published. |
| ShardBridge.TargetRun | shardkv/shardctrler/shardctrler.go:149-238 | A controller that has a target, in any reachable system, ends only when its target has been published. |
| ShardChoice.SeekingRun | shardkv/shardctrler/shardctrler.go:45-147 | Between any other steps, a controller that goes on to the shards does so for a registered target, unless its first registration was answered ErrMaybe; it gives up only if nothing was pending, or something newer is current. |
| ShardChoice.MaybeIsWorth | shardkv/shardctrler/shardctrler.go:111-116 | After that ErrMaybe its further steps are backed if and only if its configuration was registered, which reading "Pending" back would tell. |
| ShardChoice.ChangeConfigRun | shardkv/shardctrler/shardctrler.go:102-241 | The whole of ChangeConfigTo, and of InitController, from the choice of the target, unless misled by that ErrMaybe: only steps of the protocol, and the target published however it ends. |
| ShardCollision.Collide | shardkv/shardctrler/shardctrler.go:149-190 | Two controllers at a shard that their targets take to different groups can make both groups serve it, for all targets and shards. |
| ShardCollision.OverwriteHarms | shardkv/shardctrler/shardctrler.go:149-214 | A controller that comes after the install makes a second group serve the shard if and only if the old group still has it; else it stops and changes nothing. |
| ShardCollision.OverwriteSplitsShard | shardkv/shardctrler/shardctrler.go:131-142 | A run without loss from boot in which a higher target replaces an unfinished one, and two groups confirm the same first write. |
| ShardCollision.MaybeSplitsShard | shardkv/shardctrler/shardctrler.go:111-116 | The same, equal numbers included, when a first registration is answered ErrMaybe. |
| ShardBalance.MoveLowers | shardkv/shardcfg/shardcfg.go:140-153 | Every move takes exactly one from max(surplus above the ceiling, deficit below the floor), so the loop ends. |
| ShardBalance.EvenIffNoExcess | shardkv/shardcfg/shardcfg.go:141-145 | Counts differ by at most one if and only if nothing is above the ceiling or below the floor. |
| ShardBalance.FewestMoves | shardkv/shardcfg/shardcfg.go:140-153 | Any balanced assignment differs in at least that many shards. |
| ShardBalance.SettleIsOptimal | shardkv/shardcfg/shardcfg.go:140-153 | The second loop ends balanced, no shard moves twice, and no balanced assignment needs fewer changes. |
| ShardBalance.RebalancedIsOptimal | shardkv/shardcfg/shardcfg.go:122-154 | Rebalance leaves every shard in a live group, evenly, with the fewest moves once the orphans are placed. |
| ShardBalance.RebalancedTwice | shardkv/shardcfg/shardcfg.go:122-154 | Rebalancing what is balanced changes nothing. |
| ShardBalance.OrphansGoToLeast | shardkv/shardcfg/shardcfg.go:131-138 | At its turn each orphan goes to the group least loaded then, the smallest number among equals; other shards stay. |
| ShardBalance.JoinMovesOntoNewcomers | shardkv/shardcfg/shardcfg.go:207-213 | From a balanced configuration, joining moves shards onto joining groups only. |
| ShardBalance.LeaveMovesOrphansOnly | shardkv/shardcfg/shardcfg.go:215-221 | From a balanced configuration, leaving moves the shards of departed groups only. |
| ShardCfg.ShardConfig.Counts | shardkv/shardcfg/shardcfg.go:81-84 | The counters are the numbers of shards. |
| ShardCfg.ShardConfig.Analyze | shardkv/shardcfg/shardcfg.go:80-111 | The most and least loaded groups, the smallest number among equals, whatever order the map yields its keys in. |
| ShardCfg.ShardConfig.Least | shardkv/shardcfg/shardcfg.go:115-118 | The least loaded group, the smallest number among equals; -1 without groups. |
| ShardCfg.ShardConfig.AssignOrphans | shardkv/shardcfg/shardcfg.go:131-138 | Shards without a live group go to the least loaded group of the moment, others stay. |
| ShardCfg.ShardConfig.MoveOne | shardkv/shardcfg/shardcfg.go:146-152 | The first shard of the most loaded group moves. |
| ShardCfg.ShardConfig.Rebalance | shardkv/shardcfg/shardcfg.go:122-154 | The loops in place compute the assignment whose optimality is proved. |
| ShardCfg.ShardConfig.Join | shardkv/shardcfg/shardcfg.go:156-183 | Joining succeeds if and only if the groups are new, not none, and share no server; then exactly they are added. |
| ShardCfg.ShardConfig.Leave | shardkv/shardcfg/shardcfg.go:185-205 | Leaving succeeds if and only if the groups are there, not none, and named once; then exactly they are removed. |
| ShardCfg.ShardConfig.JoinBalance | shardkv/shardcfg/shardcfg.go:207-213 | Join and rebalance; from a balanced configuration the result is even and only joining groups gain. |
| ShardCfg.ShardConfig.LeaveBalance | shardkv/shardcfg/shardcfg.go:215-221 | Leave and rebalance; from a balanced configuration the result is even and only departed groups lose. |
| LockNode.Lock.constructor | kvsrv/lock/lock.go:25-29 | A lock is made by putting the empty value at version 0, and waits until that returns. |
| LockNode.Lock.Get | kvsrv/lock/lock.go:33-34 | What is read is the clerk's next answer. |
| LockNode.Lock.Put | kvsrv/lock/lock.go:37-41 | The Put that is sent is the one the program has under way, which names the version last read, and nothing else is sent. |
| LockNode.Lock.Acquire | kvsrv/lock/lock.go:31-45 | Acquire goes by the answers it is given, in order, and returns true only after reading its own identity. |
| LockNode.Lock.Round | kvsrv/lock/lock.go:34-44 | After reading anything else, it puts its identity at the version read if and only if it read the empty value, and reads again. |
| LockNode.Lock.Release | kvsrv/lock/lock.go:47-53 | Release goes by the answers it is given and puts the empty value, at the version read, if and only if it read its own identity. |
| LockNode.NextActIsStep | kvsrv/lock/lock.go:31-53 | The object's next act is a step of the protocol whenever the answer it takes is true. |
| LockNode.RunsStandFor | kvsrv/lock/lock.go:31-53 | In every run, each client's acts are such an object's, and its Puts are on the way. |
| LockProtocol.MutualExclusion | kvsrv/lock/lock.go:31-53 | No two clients are between Acquire's last read and the Put of Release. |
| LockProtocol.OwnedIsStable | kvsrv/lock/lock.go:31-53 | While a client owns the lock, no Put that anyone has sent can change it. |
| LockProtocol.NeverLeftTaken | kvsrv/lock/lock.go:47-53 | A late copy never takes the lock for a client that has released it or has not asked. |
| LockProtocol.HandledIsSpent | kvsrv/client.go:63-77 | A Put that was handled once has no further effect, however many copies run. |
| LockProgress.FreeCanBeTaken | kvsrv/lock/lock.go:31-45 | From every reachable state with the lock free, a trying client that is left alone gets it. |
| LockProgress.HeldCanBeReleased | kvsrv/lock/lock.go:47-53 | From every reachable state, a holder that is left alone can give the lock up, and it is free then. |

## Left out

- Liveness under fair schedules: elections, commitment, repair under compaction (which can stall until the leader
  compacts further), migrations and acquisition of the lock. What is proved instead is what a step or a run that is left
  alone does.
- The network, encoding, timers, goroutine scheduling, debug output and test hooks; a timeout or delivery is a step that
  may happen.
- Raft, the unlocked sends: the applier's sends over a channel are a step of their own, and the interleavings that the
  premises rule out are not modelled.
- RsmNode.RSM.HandleMessage: one turn of the reader's loop, since calls of Submit run between two turns; the size test
  before a snapshot is an arbitrary choice.
- Submit across a restart of its own replica, since call numbers start again at 0.
- Two targets in progress together, beyond what `ShardCollision` shows of them.
- Shards without a group: the branches of `ChangeConfigTo` for group 0 are in `ShardController`, but the protocol's
  premise excludes them.
- ShardController.ShardCtrler.Request: the three retry loops of the group clerk are one method; the caller's outer loop
  around each runs once, because the clerk returns only OK or ErrStale.
- RaftSafety.MatchIndexSound: says nothing of the log of a follower that moved on to a later term; `RaftMatch` says what
  it acknowledged before.
- Machines.StateMachine.DoOp: of commands whose key's shard is below 12, as `Key2Shard` makes it.
- ShardReplication.GroupIsAtomic: of one replicated group beside any run of the migration system; that such a run exists
  for all groups' logs at once is not stated.
- ShardBridge.ControllerRun: starts where the target has been chosen; `ShardChoice` has what comes before.
- ShardCollision.Collide: two controllers and no clients in between, and the old group's shard not touched by either
  yet.
- The clerks' caches of servers other than the sharded one's, `Get` of the single and sharded clerks, `CheckConfig`,
  `String`, `FromString`, `IsMember`, `Copy` and `GidServers`.
- The map-reduce part of the repository, mostly file and socket work.
