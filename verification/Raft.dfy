/** The Raft object of hw3/raft/raft.go. Each method is one section the source
    runs under its mutex; Node values specify what it does. */
module RaftObject {
  import opened Options
  import opened RaftLog
  import opened RaftNode

  /** The term and counter that the vote-reply closures of one election share. */
  class Election {
    const term: int
    var votes: int

    constructor (term: int)
      ensures this.term == term && votes == 1
    {
      this.term := term;
      votes := 1;
    }
  }

  class Raft {
    const id: int
    const log: Log
    const nextIndex: array<int>
    const matchIndex: array<int>

    var currentTerm: int
    var votedFor: int
    var role: Role
    var commitIndex: int
    var lastApplied: int
    var commitCh: seq<ApplyMsg>

    ghost function View(): Node
      reads this, log, nextIndex, matchIndex
    {
      Node(id, currentTerm, votedFor, role, log.entries, commitIndex, lastApplied,
           nextIndex[..], matchIndex[..], commitCh)
    }

    ghost predicate Valid()
      reads this, log, nextIndex, matchIndex
    {
      && nextIndex != matchIndex
      && Sane(View())
    }

    constructor (id: int, n: nat)
      requires 0 <= id < n
      ensures Valid() && View() == InitNode(id, n)
      ensures fresh(log) && fresh(nextIndex) && fresh(matchIndex)
    {
      this.id := id;
      log := new Log();
      nextIndex := new int[n](_ => 0);
      matchIndex := new int[n](_ => 0);
      currentTerm, votedFor, role := 0, -1, Follower;
      commitIndex, lastApplied, commitCh := 0, 0, [];
      new;
      assert nextIndex[..] == seq(n, _ => 0) && matchIndex[..] == seq(n, _ => 0);
    }

    function Quorum(): (q: nat)
      reads this
      ensures 2 * q > nextIndex.Length && 2 * (q - 1) <= nextIndex.Length
    {
      nextIndex.Length / 2 + 1
    }

    method Start(command: string) returns (index: int, term: int, isLeader: bool)
      requires Valid()
      modifies log
      ensures Valid() && View() == StartCommand(old(View()), command)
      ensures isLeader == (role == Leader) && term == currentTerm
      ensures isLeader ==> index == LastIndexOf(log.entries)
                           && log.entries[index] == Entry(index, term, command)
    {
      if role != Leader {
        return 0, currentTerm, false;
      }
      var entry := Entry(log.LastIndex() + 1, currentTerm, command);
      log.Append(entry);
      return entry.index, entry.term, true;
    }

    method BecomeFollower(term: int)
      requires Valid()
      modifies this
      ensures Valid() && View() == RaftNode.BecomeFollower(old(View()), term)
    {
      currentTerm := term;
      role := Follower;
      votedFor := -1;
    }

    method RequestVote(req: VoteArgs) returns (reply: VoteReply)
      requires Valid()
      modifies this
      ensures Valid() && (View(), reply) == OnVoteRequest(old(View()), req)
    {
      if req.term < currentTerm {
        return VoteReply(currentTerm, false);
      }
      if req.term > currentTerm {
        BecomeFollower(req.term);
      }
      var alreadyVoted := votedFor != -1 && votedFor != req.candidateId;
      var logOk := req.lastLogTerm > log.LastTerm()
                   || (req.lastLogTerm == log.LastTerm() && req.lastLogIndex >= log.LastIndex());
      if alreadyVoted {
        return VoteReply(currentTerm, false);
      }
      if !logOk {
        return VoteReply(currentTerm, false);
      }
      votedFor := req.candidateId;
      return VoteReply(currentTerm, true);
    }

    /** The merge loop: skip what matches, truncate on conflict, append the rest;
        cuts are the arguments Truncate is called with. */
    method MergeEntries(prev: nat, entries: seq<Entry>) returns (ghost cuts: seq<int>)
      requires log.Valid() && prev < |log.entries|
      requires forall i :: 0 <= i < |entries| ==> entries[i].index == prev + 1 + i
      modifies log
      ensures log.Valid() && log.entries == Merge(old(log.entries), prev, entries)
      ensures cuts == Cuts(old(log.entries), prev, entries)
    {
      cuts := [];
      ghost var before := log.entries;
      ghost var k := FirstMismatch(before, prev + 1, entries);
      for i := 0 to |entries|
        invariant log.Valid() && log.entries == MergeTo(before, prev, entries, k, i)
        invariant cuts == if i > k then Cuts(before, prev, entries) else []
      {
        MergeNext(before, prev, entries, k, i);
        var idx := prev + i + 1;
        var existing := log.At(idx);
        if existing.Some? {
          if existing.value.term == entries[i].term {
            continue;
          }
          log.Truncate(idx);
          cuts := cuts + [idx];
        }
        log.Append(entries[i]);
      }
    }

    method AppendEntries(req: AppendArgs) returns (reply: AppendReply, ghost cuts: seq<int>)
      requires Valid() && WellFormedAppend(req)
      modifies this, log
      ensures Valid() && (View(), reply) == OnAppend(old(View()), req)
      ensures cuts == AppendCuts(old(View()), req)
    {
      hide Merge, Cuts, FirstMismatch;
      if req.term < currentTerm {
        return AppendReply(currentTerm, false), [];
      }
      if req.term > currentTerm {
        BecomeFollower(req.term);
      }
      ghost var s1 := View();
      if req.prevLogIndex > 0 {
        var existing := log.At(req.prevLogIndex);
        if existing.None? || existing.value.term != req.prevLogTerm {
          return AppendReply(currentTerm, false), [];
        }
      }
      assert Consistent(s1.log, req.prevLogIndex, req.prevLogTerm);
      cuts := MergeEntries(req.prevLogIndex, req.entries);
      assert View() == s1.(log := Merge(s1.log, req.prevLogIndex, req.entries));
      if req.leaderCommit > commitIndex {
        commitIndex := req.leaderCommit;
        var last := log.LastIndex();
        if last < commitIndex {
          commitIndex := last;
        }
      }
      return AppendReply(currentTerm, true), cuts;
    }

    /** The locked half of startElection; None when this node already leads. */
    method StartElection() returns (args: Option<VoteArgs>, election: Election?)
      requires Valid()
      modifies this
      ensures Valid() && (View(), args) == BeginElection(old(View()))
      ensures args.Some? <==> election != null
      ensures election != null ==> fresh(election) && election.term == currentTerm && election.votes == 1
    {
      if role == Leader {
        return None, null;
      }
      currentTerm := currentTerm + 1;
      role := Candidate;
      votedFor := id;
      args := Some(VoteArgs(currentTerm, id, log.LastIndex(), log.LastTerm()));
      election := new Election(currentTerm);
    }

    method HandleVoteReply(election: Election, reply: VoteReply)
      requires Valid()
      modifies this, log, nextIndex, matchIndex, election
      ensures Valid()
      ensures (View(), election.votes)
           == OnVoteReply(old(View()), election.term, old(election.votes), reply)
    {
      if reply.term > currentTerm {
        BecomeFollower(reply.term);
        return;
      }
      if role != Candidate || currentTerm != election.term {
        return;
      }
      if reply.granted {
        election.votes := election.votes + 1;
        if election.votes >= Quorum() {
          BecomeLeader();
        }
      }
    }

    method BecomeLeader()
      requires Valid()
      modifies this, log, nextIndex, matchIndex
      ensures Valid() && View() == RaftNode.BecomeLeader(old(View()))
    {
      role := Leader;
      var lastIndex := log.LastIndex();
      for i := 0 to nextIndex.Length
        invariant forall j :: 0 <= j < i ==> nextIndex[j] == lastIndex + 1 && matchIndex[j] == 0
        modifies nextIndex, matchIndex
      {
        nextIndex[i] := lastIndex + 1;
        matchIndex[i] := 0;
      }
      var noop := Entry(log.LastIndex() + 1, currentTerm, NOOP);
      log.Append(noop);
      assert nextIndex[..] == seq(nextIndex.Length, _ => lastIndex + 1);
      assert matchIndex[..] == seq(nextIndex.Length, _ => 0);
    }

    /** The send half of sendAppendEntries; None when this node no longer leads. */
    method PrepareAppend(peer: int) returns (args: Option<AppendArgs>)
      requires Valid() && 0 <= peer < nextIndex.Length
      ensures args == if role == Leader then Some(MakeAppend(View(), peer)) else None
    {
      if role != Leader {
        return None;
      }
      var ni := nextIndex[peer];
      var prevLogIndex := ni - 1;
      var prevLogTerm := 0;
      if prevLogIndex > 0 {
        var e := log.At(prevLogIndex);
        if e.Some? {
          prevLogTerm := e.value.term;
        }
      }
      var entries := log.Entries(ni, log.LastIndex() + 1);
      return Some(AppendArgs(currentTerm, id, prevLogIndex, prevLogTerm, entries, commitIndex));
    }

    /** The reply half of sendAppendEntries; again tells whether its loop sends
        once more. */
    method HandleAppendReply(peer: int, args: AppendArgs, reply: AppendReply) returns (again: bool)
      requires Valid() && 0 <= peer < nextIndex.Length
      modifies this, nextIndex, matchIndex
      ensures Valid() && View() == OnAppendReply(old(View()), peer, args, reply)
      ensures again <==>
              && reply.term <= old(currentTerm)
              && role == Leader && currentTerm == args.term
              && (!reply.success || commitIndex > old(commitIndex))
    {
      if reply.term > currentTerm {
        BecomeFollower(reply.term);
        return false;
      }
      if role != Leader || currentTerm != args.term {
        return false;
      }
      if reply.success {
        var newMatch := args.prevLogIndex + |args.entries|;
        if newMatch > matchIndex[peer] {
          matchIndex[peer] := newMatch;
          nextIndex[peer] := newMatch + 1;
        }
        var oldCommit := commitIndex;
        AdvanceCommitIndex();
        return commitIndex > oldCommit;
      }
      if nextIndex[peer] > 1 {
        nextIndex[peer] := nextIndex[peer] - 1;
      }
      return true;
    }

    /** How many nodes, this one included, hold the log through index n. */
    method CountMatched(n: int) returns (count: int)
      requires Valid()
      ensures count == |Matched(View(), n)|
    {
      count := 1;
      ghost var s := View();
      for p := 0 to nextIndex.Length
        invariant count == |{id} + MatchedBelow(s, n, p)|
      {
        MatchedBelowNext(s, n, p);
        if p != id && matchIndex[p] >= n {
          count := count + 1;
        }
      }
      assert {id} + MatchedBelow(s, n, nextIndex.Length) == Matched(s, n);
    }

    method AdvanceCommitIndex()
      requires Valid()
      modifies this`commitIndex
      ensures Valid() && View() == AdvanceCommit(old(View()))
    {
      var n := log.LastIndex();
      while n > commitIndex
        invariant commitIndex == old(commitIndex)
        invariant n <= LastIndexOf(log.entries)
        invariant HighestCommittable(View(), LastIndexOf(log.entries)) == HighestCommittable(View(), n)
      {
        var entry := log.At(n);
        if entry.Some? && entry.value.term == currentTerm {
          var count := CountMatched(n);
          if count >= Quorum() {
            commitIndex := n;
            return;
          }
        }
        n := n - 1;
      }
    }

    /** One iteration of the inner apply loop; false when nothing is left to do
        or the entry is missing. */
    method ApplyOne() returns (sent: bool)
      requires Valid()
      modifies this
      ensures Valid() && View() == ApplyNext(old(View()))
      ensures sent <==> |commitCh| == |old(commitCh)| + 1
      ensures !sent ==> commitCh == old(commitCh)
    {
      if lastApplied >= commitIndex {
        return false;
      }
      lastApplied := lastApplied + 1;
      var entry := log.At(lastApplied);
      if entry.None? {
        return false;
      }
      commitCh := commitCh + [ApplyMsg(entry.value.index, entry.value.term, entry.value.command)];
      return true;
    }
  }
}
