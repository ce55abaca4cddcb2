# Verified model of the Raft store, the Connect-M game and the task pipeline

A Dafny 4.11 model of three of the repository's programs. Each is modelled twice
where it changes state: as a class whose methods have the source's own branches and
loops, and as functions on values that those methods are proved equal to. The
theorems are about every run of the resulting systems.

**HW3: Raft and the key-value server.** `RaftLog`, `RaftNode` and `RaftObject` model
`hw3/internal/log/log.go` and `hw3/raft/raft.go`: one method per section that the
source runs under its mutex. `Cluster` puts n such nodes and their network together.
Every message stays in flight for ever, so a run may lose, delay, reorder or repeat
it; only the reply to a vote request reaches its closure at most once, as an RPC
reply does. Timers fire at any moment. `Invariant`, `Completeness`, `Growth`,
`Elections` and `Appends` hold the inductive invariant and its proof; `Safety` and
`Replication` state what it means for runs. `Replies` says, on the fields alone, when a
node must act and what it then does, and `Availability` that the cluster never gets
stuck. `Repair` runs the retry loop of
`sendAppendEntries` over two Raft objects. `KvCodec`, `KvServer` and `KvCluster` add
the server of `hw3/server/main.go`, its pending map and its store; a server object
represents its replica and its puts in the cluster's state, and each of its methods
is the cluster's step. `Scenario` gives concrete runs that mark the limits of what can
be promised. The theory is that
of Ongaro and Ousterhout, "In Search of an Understandable Consensus Algorithm",
section 5.

A state records, beside what the program holds, a history of past logs, votes and
confirmations. No step reads it. Node ids are 0..n-1, as the code needs when it
indexes `nextIndex` and `matchIndex` by peer id.

**HW1: Connect-M.** `Board` models `hw1/game/game.go` over a two-dimensional array,
`Game` and `GameServer` the handlers of `hw1/server/main.go`: connects, moves,
disconnects and reconnects in any order.

**HW4: broker and workers.** `Broker` models `hw4/broker/main.go`. `Pipeline` is the
broker together with any number of workers that stall, report late, twice or never,
and with the shared index they write; `Execution` compares that index with executing
each task once; `Worker` is one turn of the loop in
`hw4/worker/main.go`, proved to be a run of `Pipeline`. JSON decoding, the embedder
and the hash from chunk ids to point ids are parameters, each a function of its
input. Error texts are taken to be non-empty, because the broker reads an empty
error as success.

## Where code and documentation differ

The model follows the code.

- `hw3/raft/raft.go:106` documents `matchIndex[i] < nextIndex[i]` as an invariant. A
  rejection that arrives after a later success breaks it: `Scenario.MatchBelowNextFails`
  is such a run. Over a whole reign it holds if and only if the leader never handles a
  rejection that finds nextIndex right above the match: `Replication.MatchBelowNextIff`.
  The bounds the code always keeps are in `Replication.ProgressBounds` and
  `Replication.MatchIndexHasWitness`.
- An acknowledged Put need not be in the log of *every* leader of a later term than
  its own. With T the Put's term and U the term its server had reached when it
  answered, all leaders of terms above T hold the Put, in all runs, if and only if
  U <= T+1: `Scenario.LaterLeadersHoldIff`. For larger U a leader of term T+1 may lack
  it (`Scenario.LaterLeaderMayLackPut`), while leaders of terms from U on hold it
  whatever U is (`KvCluster.AcknowledgedIsDurable`).
- A single node is a majority of a one-node cluster, but it never leads: the votes are
  only counted when a peer replies (`Availability.CanLeadIff`).
- The command format `put:<key>:<value>` does not round-trip a key that contains a
  colon: `KvCodec.RoundTripIff`, `KvCodec.EncodingCanCollide`.
- At-least-once execution of pipeline tasks always equals executing each written task
  once in *some* order, that of the last writes
  (`Execution.IndexIsOnceEachInSomeOrder`). It equals executing them once each in *every*
  order if and only if no two of them put different points under one point id
  (`Execution.IndexIsOnceEachIff`). Tasks that reuse a chunk id for another text do so
  (`Execution.ReusedChunkClashes`), and `Execution.ClashShows` is a run for each such pair.

## Model

| member | source | states |
|---|---|---|
| `RaftLog.Log.constructor` | hw3/internal/log/log.go:28-32 | a new log holds the sentinel alone |
| `RaftLog.Log.Append` | hw3/internal/log/log.go:36-42 | the log grows by exactly the entry; the index the source panics without is demanded |
| `RaftLog.Log.At` | hw3/internal/log/log.go:46-51 | an entry is found exactly at 1..LastIndex, and it is the one with that index |
| `RaftLog.Log.Truncate` | hw3/internal/log/log.go:66-71 | everything from a valid index on goes, nothing else does; any other index changes nothing |
| `RaftLog.Log.Entries` | hw3/internal/log/log.go:75-89 | the half-open range, clamped to real entries at both ends |
| `RaftLog.SliceIsExact` | hw3/internal/log/log.go:75-89 | every entry of the clamped range is in the slice, at its place, and nothing else is |
| `RaftLog.MergeEffect` | hw3/raft/raft.go:339-357 | a log that already holds the message stays whole, longer tail included; any other keeps what precedes the first mismatch and ends with the rest of the message, commands included |
| `RaftObject.Raft.constructor` | hw3/raft/raft.go:136-152 | a node starts as a follower of term 0 with an empty log and no vote |
| `RaftObject.Raft.Quorum` | hw3/raft/raft.go:679-681 | the quorum is the least number of nodes that is more than half |
| `RaftObject.Raft.Start` | hw3/raft/raft.go:205-230 | a leader appends the command and returns its index and term; anyone else changes nothing |
| `RaftObject.Raft.BecomeFollower` | hw3/raft/raft.go:396-401 | takes the term, clears the vote, touches nothing else |
| `RaftObject.Raft.RequestVote` | hw3/raft/raft.go:265-302 | state and reply are the vote rule's: stale terms refused, one vote per term, only for logs at least as up to date |
| `RaftObject.Raft.MergeEntries` | hw3/raft/raft.go:339-357 | the in-place loop leaves the specified merge of log and message, and calls Truncate at the first mismatch alone, if at all |
| `RaftObject.Raft.AppendEntries` | hw3/raft/raft.go:311-372 | state and reply for every message: stale term, failed consistency check, merge, commit clamp; a candidate stays a candidate; which indices Truncate is called with |
| `RaftObject.Raft.StartElection` | hw3/raft/raft.go:408-431 | a non-leader enters the next term, votes for itself and advertises its log |
| `RaftObject.Raft.HandleVoteReply` | hw3/raft/raft.go:446-466 | the vote-reply closure: step down, discard, count, or win at the quorum |
| `RaftObject.Raft.BecomeLeader` | hw3/raft/raft.go:475-493 | all progress is reset and one no-op of the term is appended |
| `RaftObject.Raft.PrepareAppend` | hw3/raft/raft.go:527-556 | a leader sends its whole log from nextIndex on, with the term of the entry before |
| `RaftObject.Raft.HandleAppendReply` | hw3/raft/raft.go:569-611 | what a reply changes, and exactly when the loop sends again |
| `RaftObject.Raft.CountMatched` | hw3/raft/raft.go:632-637 | the counter is the number of nodes that hold the index, the leader included |
| `RaftObject.Raft.AdvanceCommitIndex` | hw3/raft/raft.go:623-646 | the downward scan leaves the specified commit index |
| `RaftObject.Raft.ApplyOne` | hw3/raft/raft.go:658-671 | one entry at a time goes to commitCh, in log order |
| `Replies.VoteGrantedIff` | hw3/raft/raft.go:265-302 | a vote is granted if and only if the term is no older, the node has not voted for another in it, and the candidate's last entry is of a later term or of the same and no earlier index; what reply term, vote, term and role then are |
| `Replies.GoodForIsTotal` | hw3/raft/raft.go:284-285 | of any two logs one is good enough for the other to vote for, transitively, and a log is so for all its prefixes |
| `Replies.BestLog` | hw3/raft/raft.go:284-285 | any group of nodes has one whose log all of them would vote for |
| `Replies.StandsIff` | hw3/raft/raft.go:408-426 | a node that does not lead, and no other, enters the next term with its own vote and advertises its last entry |
| `Replies.VoteCountsIff` | hw3/raft/raft.go:449-466 | which replies count, and that a counted one elects exactly if more than half of all nodes have then voted, for every cluster size; what the new leader's fields are |
| `Replies.AppendAcceptedIff` | hw3/raft/raft.go:315-371 | a message is accepted if and only if its term is no older and the entry before is there, or none is before; the exact new log, commit index, vote, term and role |
| `Replies.StartIff` | hw3/raft/raft.go:209-229 | a leader, and no other node, appends the command under the next index and its term |
| `Replies.MessageIsSuffix` | hw3/raft/raft.go:533-555 | what precedes a message and its entries together are the leader's log |
| `Replies.ReplyMovesProgress` | hw3/raft/raft.go:571-608 | a success beyond the match raises the match to the message's end and puts nextIndex right behind it, any other success changes neither, a rejection lowers nextIndex by one down to 1; other peers' progress stays |
| `Replies.AppliesIff` | hw3/raft/raft.go:658-669 | the next committed entry is handed out, exactly if there is one |
| `RaftNode.HighestCommittable` | hw3/raft/raft.go:623-646 | the scan finds a committable index with no greater one, or nothing |
| `Completeness.MajoritiesMeet` | hw3/raft/raft.go:679-681 | two majorities share a node |
| `Completeness.RootedLogsMatch` | hw3/raft/raft.go:329-357 | logs copied from the leaders of their terms agree wherever they have a term in common |
| `Completeness.UpToDateKeeps` | hw3/raft/raft.go:283-296 | the vote restriction carries what a voter retains over to the candidate (section 5.4.1) |
| `Completeness.LeaderCompleteness` | hw3/raft/raft.go:623-646 | what a majority confirmed in a term is in every later term's log (section 5.4.3) |
| `Elections.NobodyWonYet` | hw3/raft/raft.go:446-466 | a quorum of votes for a candidate excludes any other winner of the term |
| `Elections.VoterOk` | hw3/raft/raft.go:265-302 | answering a vote request keeps the invariant: one recorded vote per term, and what the voter had confirmed stays retained |
| `Elections.VictoryIsOk` | hw3/raft/raft.go:458-466 | winning keeps the invariant |
| `Elections.VoteAnswerStepOk` | hw3/raft/raft.go:446-466 | any vote reply keeps the invariant, in which the counter counts distinct voters |
| `Appends.MergeOk` | hw3/raft/raft.go:330-357 | a merge after a passed consistency check yields the sender's log to the end of the message, and cuts only where the two logs disagree |
| `Appends.FollowerCommitOk` | hw3/raft/raft.go:359-367 | the announced commit index is safe on the merged log, without clamp |
| `Appends.AdvanceCommitOk` | hw3/raft/raft.go:623-646 | what the scan commits is confirmed by a majority in the leader's term |
| `Appends.StepOk` | hw3/raft/raft.go:205-676 | every step of every node keeps the whole invariant |
| `Safety.RunOk` | hw3/raft/raft.go:205-676 | every state of every run satisfies the invariant |
| `Safety.ElectionSafety` | hw3/raft/raft.go:408-469 | at most one node ever leads a term, over all times of a run |
| `Safety.LogMatching` | hw3/raft/raft.go:329-357 | two logs, of any nodes at any times, with one term at one index are identical up to it |
| `Safety.MessageMatching` | hw3/raft/raft.go:533-555 | the same between a log and any message in flight |
| `Safety.LogShape` | hw3/raft/raft.go:205-218 | entries sit at their index, with non-decreasing terms up to the node's own |
| `Safety.LeaderAppendOnly` | hw3/raft/raft.go:475-493 | a leader's log only grows while it leads |
| `Safety.LeaderCompletenessTheorem` | hw3/raft/raft.go:623-646 | whatever a leader has committed is in the log of each leader of a higher term, whenever it leads |
| `Safety.CommittedByReaches` | hw3/raft/raft.go:359-367 | the same for what any follower knows to be committed |
| `Safety.CommittedEntryReaches` | hw3/raft/raft.go:623-646 | a committed entry is in the log of each leader of a term above the entry's own, if that term is no lower than that of the node that knows it to be committed |
| `Safety.CommittedPrefixesAgree` | hw3/raft/raft.go:359-367 | any two committed prefixes, of any nodes at any times, agree |
| `Safety.AppliedInOrder` | hw3/raft/raft.go:653-676 | the stream is the log's 1..lastApplied, gap-free and duplicate-free, with lastApplied <= commitIndex <= LastIndex |
| `Safety.StateMachineSafety` | hw3/raft/raft.go:653-676 | of two nodes' streams, at any times, one is a prefix of the other |
| `Safety.ApplyNeverMisses` | hw3/raft/raft.go:660-664 | the "missing entry" branch is unreachable |
| `Safety.RunNeverGoesBack` | hw3/raft/raft.go:396-401 | terms, commit indices and streams only grow |
| `Safety.CommittedIsImmutable` | hw3/raft/raft.go:339-357 | a node's log up to its commit index never changes again |
| `Replication.NoPanic` | hw3/internal/log/log.go:36-42 | no step a run may take panics in Append or leaves an index range |
| `Replication.WinnerKeptItsLog` | hw3/raft/raft.go:420-463 | a winner's log is the one it advertised plus the no-op, although a candidate accepts same-term entries |
| `Replication.OnlyAVoteElects` | hw3/raft/raft.go:458-463 | in every run, a candidate becomes leader only of a term that no node has led before, and adds just the no-op |
| `Replication.CountedWereGranted` | hw3/raft/raft.go:446-460 | in every run, each counted vote is a granted reply of its own voter to that candidate in that term |
| `Replication.CountedVotesAreMajority` | hw3/raft/raft.go:433-463 | in every run, when the counter reaches the quorum it is the number of distinct nodes that voted for the candidate in its term, and these are a majority |
| `Replication.TruncationSparesCommitted` | hw3/raft/raft.go:339-349 | in every run, each index AppendEntries truncates at is above the commit index |
| `Replication.EveryMessageWasSent` | hw3/raft/raft.go:533-555 | every message in flight was made by some leader from its log, at an earlier state of the run |
| `Replication.SentWhole` | hw3/raft/raft.go:533-555 | a message ends where its sender's log ends, at or beyond the announced commit index |
| `Replication.AcceptedInRun` | hw3/raft/raft.go:339-371 | success means agreement with the sender's term to the message's end |
| `Replication.FollowerCommitSound` | hw3/raft/raft.go:359-367 | for every message in flight: on success the clamp to LastIndex never bites, commitIndex becomes the maximum, and the follower holds all of the sender's log as sent |
| `Replication.RedeliveryChangesNothing` | hw3/raft/raft.go:340-357 | an old or repeated message of the same leader leaves the log as it is |
| `Replication.MatchIndexSound` | hw3/raft/raft.go:584-589 | what a leader counts as matched is in the peer's log, then and while the peer stays in the term |
| `Replication.MatchIndexHasWitness` | hw3/raft/raft.go:584-589 | a match above 0 is the end of a message of the leader's own term that the peer accepted |
| `Replication.MatchIndexMonotone` | hw3/raft/raft.go:584-589 | no reordering of replies takes a match back within the term |
| `Replication.ProgressBounds` | hw3/raft/raft.go:525-612 | 1 <= nextIndex <= LastIndex+1 and 0 <= matchIndex <= LastIndex for every leader of every run |
| `Replication.NextFollowsMatch` | hw3/raft/raft.go:585-589 | in every run, when a match rises nextIndex is right behind it, however far the log reaches, and other peers' progress stays |
| `Replication.NextMatchBelowNextIff` | hw3/raft/raft.go:584-608 | any step of the system keeps matchIndex below nextIndex exactly if it is not such a rejection |
| `Replication.MatchBelowNextIff` | hw3/raft/raft.go:104-107 | from a victory on, through the whole term, matchIndex stays below nextIndex if and only if the leader never handles a rejection that finds nextIndex right above the match |
| `Scenario.MatchBelowNextFails` | hw3/raft/raft.go:104-107 | a run of two nodes in which the documented invariant fails |
| `Replication.AdvanceCommitIsGreatest` | hw3/raft/raft.go:623-646 | the new commit index is the greatest one above the old whose entry is of the current term and that a majority of the nodes has matched, and no other value is |
| `Repair.Exchange` | hw3/raft/raft.go:330-337 | a rejection needs prevLogIndex > 0 and leaves the follower's log; an acceptance leaves it with the whole leader's log |
| `Repair.ReplyProgress` | hw3/raft/raft.go:584-611 | each reply raises the commit index, or keeps it and lowers nextIndex, or ends the loop |
| `Repair.SendAppendEntries` | hw3/raft/raft.go:525-613 | with an answering follower the retry loop ends, and the follower's log then starts with the leader's whole log; a node that does not lead sends nothing, and a leader that meets a higher term steps down and stops |
| `Repair.RunsCanRepair` | hw3/raft/raft.go:525-613 | any leader and peer of any run meet the loop's demands |
| `Availability.MajorityCanElect` | hw3/raft/raft.go:408-493 | from every state of every run, any majority of at least two nodes can, without the others, come to have a leader whose term is the group's latest |
| `Availability.MajorityCanCommit` | hw3/raft/raft.go:205-646 | from every state of every run, any majority of at least two nodes can, without the others, come to have a leader that takes any new command and commits it with all of its log |
| `Availability.SingleNodeNeverLeads` | hw3/raft/raft.go:433-469 | a one-node cluster never has a leader, as only a peer's reply completes an election |
| `Availability.CanLeadIff` | hw3/raft/raft.go:408-469 | a cluster can have a leader if and only if it has at least two nodes |
| `KvServer.Server.constructor` | hw3/server/main.go:76-88 | a new server has an empty store and nobody waiting, as in the cluster's first state |
| `KvServer.Server.Submit` | hw3/server/main.go:97-102 | Put hands its own encoded command to Raft and learns its index and term: the cluster's BeginPut |
| `KvServer.Server.Register` | hw3/server/main.go:104-107 | the handler waits at its index, replacing whoever waited there: the cluster's Register |
| `KvServer.Server.Answer` | hw3/server/main.go:110-115 | Ok exactly when the applied term is the submitted one, which is what the cluster's Answer records |
| `KvServer.Server.TimeOut` | hw3/server/main.go:116-119 | whoever waits at the index is dropped: the cluster's TimeOut |
| `KvServer.Server.ApplyMsg` | hw3/server/main.go:190-204 | the store takes the command; the handler waiting at the index gets the term and is woken |
| `KvServer.Server.Consume` | hw3/server/main.go:190-204 | one round of the apply loop is the cluster's Consume |
| `KvServer.Server.OthersStepRepresented` | hw3/server/main.go:97-206 | no step of another server or of the cluster unsettles what a server object represents |
| `KvServer.Server.ApplyLoop` | hw3/server/main.go:189-206 | the store is the fold of the whole stream; the first message at an index wakes its handler; the loop is a sequence of the cluster's Consume steps |
| `KvCodec.DecodeEncode` | hw3/server/main.go:209-224 | what any encoded command decodes to, colons in the key included |
| `KvCodec.RoundTripIff` | hw3/server/main.go:209-224 | decode(encode(k, v)) is ("put", k, v) for any v if and only if k has no colon |
| `KvCodec.DecodeIsExact` | hw3/server/main.go:215-224 | what every string decodes to, by its first and second separator |
| `KvCodec.EncodingCanCollide` | hw3/server/main.go:209-211 | two different puts with one encoding |
| `KvCodec.ApplyPut` | hw3/internal/store/store.go:28-32 | a put writes its value under its key alone; the no-op writes nothing |
| `KvCodec.ApplyIff` | hw3/server/main.go:191-194 | a command writes one key if its operation is "put", and nothing otherwise |
| `KvCluster.KvRunOk` | hw3/server/main.go:97-206 | in every run each store is the fold of its stream, and every pending handler waits where and for what the map says |
| `KvCluster.AcknowledgedIsOwn` | hw3/server/main.go:108-115 | Ok means that the committed and applied entry at the index is the Put's own command |
| `KvCluster.OkIffOwnCommand` | hw3/server/main.go:109-115 | a woken handler answers Ok if and only if the entry applied at its index is its own command, and aborts otherwise |
| `KvCluster.AcknowledgedIsDurable` | hw3/server/main.go:97-122 | every node that ever applies that index applies that command, and every leader of a later term that is no lower than the server's holds it there |
| `KvCluster.AcknowledgedInOrder` | hw3/server/main.go:97-122 | a Put submitted after another was acknowledged, on any server, comes later in the log |
| `KvCluster.AcknowledgedIsStored` | hw3/server/main.go:189-206 | a replica that has just applied the Put maps its key to its value |
| `KvCluster.ReplicasAgree` | hw3/server/main.go:189-206 | replicas that have applied equally much, at any times, hold equal maps |
| `Scenario.LaterLeaderMayLackPut` | hw3/server/main.go:97-122 | for every key and value, every term T and every U >= T+2, a run in which a Put of term T is acknowledged at term U while a leader of term T+1 lacks it |
| `Scenario.LaterLeadersHoldIff` | hw3/server/main.go:97-122 | in all runs all leaders of later terms hold a Put of term T that was acknowledged at term U, if and only if U <= T+1 |
| `Board.LowestEmpty` | hw1/game/game.go:60-71 | the row found is empty and everything below it in the column is taken |
| `Board.DropIff` | hw1/game/game.go:49-74 | each error has exactly its own cause; a move is accepted exactly if column and player are valid and the column has a free cell, and lands on the lowest |
| `Board.Board.constructor` | hw1/game/game.go:34-45 | a new board is empty and has no last move |
| `Board.Board.MakeMove` | hw1/game/game.go:49-74 | the piece lands on the lowest empty row and is the last move, or board and last move are as before, with the source's error |
| `Board.Board.CheckDirection` | hw1/game/game.go:110-134 | true exactly when M cells of the player in that line include the cell |
| `Board.Board.CheckWin` | hw1/game/game.go:77-107 | true exactly when M cells through the last move line up along one of the four lines |
| `Board.Board.IsFull` | hw1/game/game.go:142-149 | true exactly when the top row is taken |
| `Board.WindowFromExtents` | hw1/game/game.go:111-133 | the two capped counts and the cell add up to M exactly when a run of M goes through the cell |
| `Board.FourDirectionsSuffice` | hw1/game/game.go:86-104 | a run in any of the eight directions is seen along the source's four |
| `Board.WinCheckIsGlobal` | hw1/game/game.go:77-107 | if there was no run before the drop, the check through the last move is true exactly when there is a run anywhere on the board |
| `Board.TopFullIsFull` | hw1/game/game.go:142-149 | on stacks, a full top row is a full board, and conversely |
| `GameServer.Server.HandleConnect` | hw1/server/main.go:207-268 | registry, pieces, connections, board and first turn after a connect, with each refusal |
| `GameServer.Server.HandleMove` | hw1/server/main.go:289-379 | the turn rule, move, verdict and next turn, with each refusal, on the board in place |
| `GameServer.Server.Disconnect` | hw1/server/main.go:452-467 | one piece of the connection is released with all its ids, or the connection had none |
| `GameServer.Server.Unregister` | hw1/server/main.go:459-463 | exactly the ids of the piece go |
| `Game.RefusedIff` | hw1/server/main.go:301-333 | each refusal of a move request has exactly its own cause, in the source's order, and changes nothing; without one the request is accepted |
| `Game.AcceptedIff` | hw1/server/main.go:321-371 | the new board, and that the mover has won exactly if there is a run anywhere, the game is drawn exactly if there is none and the board is full, and otherwise the other piece is next |
| `Game.EveryAnswerIsExact` | hw1/server/main.go:299-379 | the same for every request in every state of every game |
| `Game.SomeMoveIsAccepted` | hw1/server/main.go:299-379 | in every game that is not over, some column is open to whoever has the turn |
| `Game.ConnectIff` | hw1/server/main.go:218-256 | each answer to a connect has its own cause; the id gets the free piece, nobody else loses anything, and only the first connect sets up board and turn |
| `Game.ConnectedMayMove` | hw1/server/main.go:233-246 | whoever has just connected with the piece that is due may move |
| `Game.ReleaseIsExact` | hw1/server/main.go:452-467 | a closed connection gives up its piece's slot and ids and nothing of the other piece's; the piece is free to connect again |
| `Game.MoveOk` | hw1/server/main.go:289-379 | any move request keeps the game invariant |
| `Game.GameOk` | hw1/server/main.go:207-379 | in every game the board is the replay of the accepted moves, which alternate from the first player; it is over exactly when a run exists or the board is full, and neither held before any accepted move |
| `Game.MovesAreBounded` | hw1/game/game.go:49-74 | at most Rows*Cols moves are ever accepted |
| `Game.OnlyMovesMatter` | hw1/server/main.go:301-333 | between two accepted moves, any refusals, connects and disconnects leave board, turn and verdict alone |
| `Game.OverIsOver` | hw1/server/main.go:309-313 | a finished game stays finished and takes no move for the rest of the run |
| `Broker.BrokerServer.constructor` | hw4/broker/main.go:52-58 | an empty broker |
| `Broker.BrokerServer.Submit` | hw4/broker/main.go:65-74 | the task goes to the end of the queue |
| `Broker.BrokerServer.Poll` | hw4/broker/main.go:78-95 | the first task moves to the in-flight table under the worker's name, or nothing changes |
| `Broker.BrokerServer.Complete` | hw4/broker/main.go:98-112 | an in-flight task is done with its error; a stale report changes nothing |
| `Broker.BrokerServer.GetResult` | hw4/broker/main.go:115-124 | the recorded outcome |
| `Broker.BrokerServer.Heartbeat` | hw4/broker/main.go:132-140 | only an in-flight task's clock moves |
| `Broker.BrokerServer.ReEnqueueStalled` | hw4/broker/main.go:144-159 | in whatever order the map is walked, exactly the silent tasks move, each once, and none is silent afterwards |
| `Broker.ReEnqueueMoves` | hw4/broker/main.go:149-156 | the moved tasks go ahead of a queue that keeps its order; done tasks and errors stay |
| `Broker.PolledIsFirst` | hw4/broker/main.go:78-95 | a poll is refused exactly on an empty queue; otherwise the first task alone goes in flight, under the worker's name, with its clock at now |
| `Broker.HeartbeatSetsClock` | hw4/broker/main.go:132-140 | a heartbeat sets the clock of an in-flight task and touches nothing else |
| `Broker.HeardFromStaysUntilTimeout` | hw4/broker/main.go:149-156 | a task polled or heard from is stalled exactly from the timeout on; until then a scan leaves it in flight, and then it is queued |
| `Broker.ResultIsRecord` | hw4/broker/main.go:115-124 | the answer is "not done" exactly until the task is done, and then its recorded error |
| `Broker.ReportIsAnswered` | hw4/broker/main.go:98-124 | a report on a task in flight is what the broker then answers; it changes no other task's answer |
| `Pipeline.ReEnqueueConserves` | hw4/broker/main.go:149-156 | a stall scan loses and duplicates no task |
| `Pipeline.EveryRunOk` | hw4/broker/main.go:65-159 | in every run each submitted task is in exactly one of queue (once), in flight and done; its recorded error is the verdict of one of its attempts; the index is the replay of the writes |
| `Pipeline.DoneIsFinal` | hw4/broker/main.go:98-112 | the first effective completion fixes the result for the rest of the run, and the task is never handed out again |
| `Pipeline.SuccessIsIndexed` | hw4/worker/main.go:153-280 | done without error means that the task's upsert happened, and without clashes the index holds, under its chunk's id, exactly its vector, document, title and text |
| `Pipeline.OrderFreeIffClashFree` | hw4/worker/main.go:153-169 | executing a set of tasks once each gives one index for all orders if and only if no two write different points under one id |
| `Pipeline.SameTasksSameIndex` | hw4/worker/main.go:153-169 | repetition and order of clash-free executions do not show in the index |
| `Pipeline.LastExecutionsCount` | hw4/worker/main.go:153-169 | executing tasks any number of times comes to executing each once, in the order of the last executions |
| `Execution.IndexIsOnceEachInSomeOrder` | hw4/worker/main.go:218-280 | after any run, clashes or not, the index equals that of each written task executed once, in some order |
| `Execution.IndexIsOnceEachIff` | hw4/worker/main.go:218-280 | after any run the index equals that of each written task executed once in every order, if and only if they do not clash |
| `Execution.ClashShows` | hw4/worker/main.go:218-280 | for any two payloads that clash, a run whose index is not that of one once-each order |
| `Execution.OnceEachAlwaysIff` | hw4/worker/main.go:218-280 | the index equals every once-each order in all runs if and only if no two payloads clash |
| `Execution.FinishedCorpusIsIndexed` | hw4/worker/main.go:218-280 | when every task came back without error, the index is that of the whole corpus |
| `Execution.EveryTaskCanFinish` | hw4/broker/main.go:78-159 | from every state of every run, whatever workers were lost, a submitted task that is not done and decodes can still be brought to be done without error |
| `Pipeline.OthersLeaveAttempt` | hw4/worker/main.go:218-280 | other workers, clients and the stall scan leave an attempt where its worker left it |
| `Worker.Worker.FailedPoll` | hw4/worker/main.go:221-226 | a poll that fails changes nothing, or leaves a task in flight with nobody at work on it |
| `Worker.Worker.Conclude` | hw4/worker/main.go:247-279 | the report of an attempt, arriving or lost, is a step of the pipeline or none |
| `Worker.Worker.Execute` | hw4/worker/main.go:245-276 | decode, embed and upsert of one task are steps of the pipeline; the verdict is empty exactly if all three go well and else the error of the first that fails; the point is written exactly if the upsert is reached and takes effect |
| `Worker.Worker.Turn` | hw4/worker/main.go:218-280 | one turn of the loop, failed polls included, is a run of the pipeline; the worker stops exactly if something on the task's way fails, and a report that arrives is the very verdict the broker then answers |

## Left out

- `KvCluster.AcknowledgedIsDurable`: leaders of terms above the Put's and below the one its server had reached when it answered are not covered, because such leaders may lack it; `Scenario.LaterLeadersHoldIff` is the exact condition.
- `Repair.SendAppendEntries`: is about a follower that answers; lost replies and steps of other nodes in between are covered by the run theorems, not by this termination proof.
- `RaftLog.Log.Append`: the panic on a wrong index is a precondition here; `Replication.NoPanic` shows that no run violates it.
- `RaftObject.Raft.AppendEntries`: demands entries that carry the indices they are stored at, since the source panics on others; every message of every run does.
- `Worker.Worker.Turn`: chains its sections without interference; `Worker.Worker.Execute` and `Worker.Worker.Conclude` are each stated for any system state in which the attempt stands where the section before left it, and `Pipeline.OthersLeaveAttempt` shows that it does.
- `Broker.BrokerServer.ReEnqueueStalled`: one clock reading serves a whole scan, where the source reads the clock at each entry.
- 64-bit and 32-bit integers are unbounded here: terms, indices and ids never wrap around.
- `dead` and `Kill`, crash with restart, persistence: a stopped node is one that takes no more steps; the source keeps its state in memory only.
- `InstallSnapshot` is a stub in the source.
- Timers, timeouts and liveness: `Availability` shows what can always still happen; that it does happen, or when, is not claimed.
- `Get` reads the local store past Raft and may be stale by design; its linearizability is not claimed.
- `leaderID`, redirects and `GetPrimary` only steer clients.
- A Put between `Start` and its entry in the pending map may be overtaken and then times out although it was committed; the model has these steps but claims nothing for a Put that was not acknowledged.
- `SetPeerClient`, configuration, gRPC, protobuf and logging.
- HW2, whose election is a documented heuristic.
- HW1 rendering, JSON, sockets and broadcasts; board sizes and M below 1, which the server does not check.
- HW4 embedder subprocess, Qdrant and the FNV arithmetic behind `chunkIDToUUID`; in-flight entries are values here, as no handler keeps a reference to one.
- Fresh task ids are assumed, as the source draws them as UUIDs.
