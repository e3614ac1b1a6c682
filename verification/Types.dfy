/** Shared data of the replica: log entries, roles and the messages of the two RPCs. */
module Types {

  /** A node is named by its id; the empty string stands for "nobody". */
  type Id = string

  const NOBODY: Id := ""

  datatype Option<+T> = None | Some(value: T)

  datatype Role = Follower | Candidate | Leader

  datatype Point = Point(x: real, y: real)

  datatype Stroke = Stroke(
    id: string, kind: string, targetId: string, points: seq<Point>,
    color: string, width: real, userId: string)

  const BLANK_STROKE := Stroke("", "", "", [], "", 0.0, "")

  datatype Entry = Entry(index: nat, term: nat, stroke: Stroke)

  /** Position 0 of every log: index 0, term 0, no stroke. */
  const SENTINEL := Entry(0, 0, BLANK_STROKE)

  /** The `entries` slice of a log. It always holds at least the sentinel. */
  type Entries = s: seq<Entry> | s != [] witness [SENTINEL]

  datatype VoteRequest = VoteRequest(term: nat, candidateId: Id, lastLogIndex: nat, lastLogTerm: nat)

  datatype VoteResponse = VoteResponse(term: nat, voteGranted: bool)

  datatype AppendRequest = AppendRequest(
    term: nat, leaderId: Id, prevLogIndex: nat, prevLogTerm: nat,
    entries: seq<Entry>, leaderCommit: nat)

  datatype AppendResponse = AppendResponse(term: nat, success: bool, conflictIndex: nat)
}
