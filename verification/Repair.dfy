/** The retry loop of sendAppendEntries against a peer that answers: it ends, and
    the peer's log then holds the leader's. */
module Repair {
  import opened RaftLog
  import opened RaftNode
  import opened RaftObject
  import opened Cluster
  import opened Invariant
  import opened Appends
  import opened Safety
  import opened Replication

  /** Log Matching between two logs. */
  ghost predicate LogsMatch(a: seq<Entry>, b: seq<Entry>) {
    forall i {:trigger a[i], b[i]} :: 0 <= i < |a| && i < |b| && a[i].term == b[i].term ==> Agree(a, b, i)
  }

  /** What a leader knows of itself and of the peer's position. */
  ghost predicate CanRepair(s: Node, peer: int) {
    && Sane(s)
    && s.role == Leader
    && 0 <= peer < |s.nextIndex| && peer != s.id
    && s.commitIndex <= LastIndexOf(s.log)
    && 1 <= s.nextIndex[peer] <= |s.log|
    && 0 <= s.matchIndex[peer] <= LastIndexOf(s.log)
  }

  /** Merging the leader's whole suffix after an entry both logs share. */
  lemma MergedHoldsAll(leader: seq<Entry>, log: seq<Entry>, prev: nat, entries: seq<Entry>, merged: seq<Entry>)
    requires LogsMatch(leader, log) && prev < |log| && prev < |leader|
    requires log[prev].term == leader[prev].term && entries == leader[prev + 1..]
    requires merged == Merge(log, prev, entries)
    ensures leader <= merged && LogsMatch(leader, merged)
  {
    var k := FirstMismatch(log, prev + 1, entries);
    if k > 0 {
      assert log[prev + 1 + (k - 1)].term == entries[k - 1].term;
    }
    assert leader[prev + k].term == log[prev + k].term;
    MergeOverlay(log, leader, prev, entries);
  }

  lemma MessageShape(s: Node, peer: int)
    requires CanRepair(s, peer)
    ensures var args := MakeAppend(s, peer);
            && args.term == s.currentTerm && args.leaderCommit == s.commitIndex
            && args.prevLogIndex == s.nextIndex[peer] - 1
            && args.prevLogTerm == s.log[args.prevLogIndex].term
            && args.entries == s.log[args.prevLogIndex + 1..]
  {
  }

  /** What one exchange does to the follower: a rejection needs prevLogIndex > 0 and
      leaves its log alone; an acceptance makes it hold the whole leader's log. */
  lemma Exchange(leader: Node, peer: int, follower: Node, args: AppendArgs, follower1: Node, reply: AppendReply)
    requires CanRepair(leader, peer) && Sane(follower)
    requires follower.currentTerm <= leader.currentTerm && LogsMatch(leader.log, follower.log)
    requires args == MakeAppend(leader, peer) && WellFormedAppend(args)
    requires (follower1, reply) == OnAppend(follower, args)
    ensures reply.term == follower1.currentTerm == leader.currentTerm
    ensures args.prevLogIndex + |args.entries| == LastIndexOf(leader.log)
    ensures !reply.success ==> leader.nextIndex[peer] > 1 && follower1.log == follower.log
    ensures reply.success ==> leader.log <= follower1.log && follower1.commitIndex >= leader.commitIndex
    ensures LogsMatch(leader.log, follower1.log)
  {
    MessageShape(leader, peer);
    if Consistent(follower.log, args.prevLogIndex, args.prevLogTerm) {
      var merged := Merge(follower.log, args.prevLogIndex, args.entries);
      MergedHoldsAll(leader.log, follower.log, args.prevLogIndex, args.entries, merged);
    }
  }

  lemma MessageIsWellFormed(s: Node, peer: int)
    requires CanRepair(s, peer)
    ensures WellFormedAppend(MakeAppend(s, peer))
  {
  }

  /** The variant of the loop: the commit index rises, or it stays and nextIndex falls. */
  lemma ReplyProgress(s: Node, peer: int, args: AppendArgs, reply: AppendReply, s1: Node)
    requires CanRepair(s, peer) && args.term == s.currentTerm == reply.term
    requires args.prevLogIndex + |args.entries| == LastIndexOf(s.log)
    requires !reply.success ==> s.nextIndex[peer] > 1
    requires s1 == OnAppendReply(s, peer, args, reply)
    ensures CanRepair(s1, peer) && s1.log == s.log && s1.currentTerm == s.currentTerm
    ensures s1.commitIndex >= s.commitIndex
    ensures !reply.success ==> s1.commitIndex == s.commitIndex && s1.nextIndex[peer] == s.nextIndex[peer] - 1
    ensures reply.success ==> s1.matchIndex[peer] == LastIndexOf(s.log)
  {
  }

  /** A node that does not lead returns at once; a leader that meets a higher term
      steps down and stops; any other goes on until the follower holds its log. */
  method SendAppendEntries(leader: Raft, peer: int, follower: Raft)
    requires leader != follower && leader.log != follower.log
    requires {leader.nextIndex, leader.matchIndex} !! {follower.nextIndex, follower.matchIndex}
    requires leader.Valid() && follower.Valid() && 0 <= peer < leader.nextIndex.Length
    requires leader.role == Leader ==>
               CanRepair(leader.View(), peer) && LogsMatch(leader.log.entries, follower.log.entries)
    modifies leader, leader.nextIndex, leader.matchIndex, follower, follower.log
    ensures leader.Valid() && follower.Valid()
    ensures old(leader.role) != Leader ==> leader.View() == old(leader.View()) && follower.View() == old(follower.View())
    ensures old(leader.role) == Leader && old(follower.currentTerm) > old(leader.currentTerm) ==>
              leader.View() == RaftNode.BecomeFollower(old(leader.View()), old(follower.currentTerm))
              && follower.View() == old(follower.View())
    ensures old(leader.role) == Leader && old(follower.currentTerm) <= old(leader.currentTerm) ==>
              && CanRepair(leader.View(), peer)
              && leader.currentTerm == old(leader.currentTerm) && leader.log.entries == old(leader.log.entries)
              && leader.commitIndex >= old(leader.commitIndex)
              && leader.matchIndex[peer] == LastIndexOf(leader.log.entries)
              && leader.log.entries <= follower.log.entries
              && follower.commitIndex >= leader.commitIndex
  {
    ghost var repairs := leader.role == Leader && follower.currentTerm <= leader.currentTerm;
    while true
      invariant leader.Valid() && follower.Valid()
      invariant !repairs ==> leader.View() == old(leader.View()) && follower.View() == old(follower.View())
      invariant repairs ==> CanRepair(leader.View(), peer)
      invariant leader.currentTerm == old(leader.currentTerm) && leader.log.entries == old(leader.log.entries)
      invariant leader.commitIndex >= old(leader.commitIndex)
      invariant repairs ==> follower.currentTerm <= leader.currentTerm
      invariant repairs ==> LogsMatch(leader.log.entries, follower.log.entries)
      decreases LastIndexOf(leader.log.entries) - leader.commitIndex, leader.nextIndex[peer]
    {
      ghost var l, f := leader.View(), follower.View();
      var args := leader.PrepareAppend(peer);
      if args.None? {
        return;
      }
      MessageIsWellFormed(l, peer);
      var reply, _ := follower.AppendEntries(args.value);
      if repairs {
        Exchange(l, peer, f, args.value, follower.View(), reply);
      }
      assert leader.View() == l;
      var again := leader.HandleAppendReply(peer, args.value, reply);
      if repairs {
        ReplyProgress(l, peer, args.value, reply, leader.View());
      }
      if !again {
        return;
      }
    }
  }

  /** Every leader of every run, and any peer, meet the method's demands. */
  lemma RunsCanRepair(n: nat, run: seq<State>, i: nat, p: nat, q: nat)
    requires IsRun(n, run) && i < |run| && p < n && q < n && p != q && |run[i].nodes| == n
    requires run[i].nodes[p].role == Leader
    ensures CanRepair(run[i].nodes[p], q) && Sane(run[i].nodes[q])
    ensures LogsMatch(run[i].nodes[p].log, run[i].nodes[q].log)
  {
    ProgressBounds(n, run, i, p, q);
    AppliedInOrder(n, run, i, p);
    NodesSane(n, run, i, p);
    NodesSane(n, run, i, q);
    var a, b := run[i].nodes[p].log, run[i].nodes[q].log;
    forall k {:trigger a[k], b[k]} | 0 <= k < |a| && k < |b| && a[k].term == b[k].term ensures Agree(a, b, k) {
      LogMatching(n, run, i, p, i, q, k);
      assert forall x :: 0 <= x <= k ==> a[x] == a[..k + 1][x] && b[x] == b[..k + 1][x];
    }
  }
}
