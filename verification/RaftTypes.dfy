/** Values that the Raft core passes around: log entries, members and messages. */
module RaftTypes {

  type NodeID = string
  type Addr = string

  datatype Mode = Static | Dynamic

  datatype Role = Follower | Candidate | Leader

  datatype Action = ActionAddVoter | ActionRemoveVoter | ActionUnknown

  datatype MembershipChange = MembershipChange(action: Action, nodeID: NodeID, addr: Addr)

  /** What an entry carries.  The JSON text of a membership change is represented by the value it
      decodes to; `Undecodable` stands for text that does not decode. */
  datatype Command =
    | Data(bytes: seq<char>)
    | Membership(change: MembershipChange)
    | Undecodable

  datatype LogEntry = LogEntry(index: nat, term: nat, command: Command)

  /** Entry 0 of every log. */
  const SENTINEL := LogEntry(0, 0, Data(""))

  /** The entries of a log: never empty, since the sentinel is always there. */
  type Entries = s: seq<LogEntry> | |s| > 0 witness [SENTINEL]

  function LastIndex(log: Entries): nat { |log| - 1 }

  function LastTerm(log: Entries): nat { log[|log| - 1].term }

  datatype MemberKind = Observer | Voter

  datatype Member = Member(id: NodeID, addr: Addr, kind: MemberKind)

  /** The cluster as one node sees it, keyed by node ID. */
  type Members = map<NodeID, Member>

  datatype VoteRequest = VoteRequest(term: nat, candidateID: NodeID, lastLogIndex: nat, lastLogTerm: nat)

  datatype VoteResponse = VoteResponse(term: nat, granted: bool)

  datatype AppendRequest = AppendRequest(
    term: nat, leaderID: NodeID, leaderAddr: Addr,
    prevIndex: nat, prevTerm: nat, entries: seq<LogEntry>, leaderCommit: nat)
  {
    /** The index of the last entry the request speaks about. */
    function End(): nat { prevIndex + |entries| }
  }

  datatype AppendResponse = AppendResponse(term: nat, success: bool, nextIndex: nat)

  /** A Go map read: a missing key reads as zero. */
  function Lookup<K>(m: map<K, nat>, k: K): nat { if k in m then m[k] else 0 }
}
