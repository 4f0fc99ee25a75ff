/**
 * What the leaderboard shows: the finished entries ranked by time taken,
 * and the teams still racing.
 */
module BoardView {
  import opened Records

  predicate SortedByTime(s: seq<Entry>) {
    forall i, j :: 0 <= i < j < |s| ==> s[i].timeTaken <= s[j].timeTaken
  }

  /** Places `e` before the first entry whose time is not smaller, so earlier entries keep their lead on ties. */
  function Insert(e: Entry, s: seq<Entry>): (r: seq<Entry>)
    ensures |r| == |s| + 1
  {
    if s == [] || e.timeTaken <= s[0].timeTaken then [e] + s
    else [s[0]] + Insert(e, s[1..])
  }

  /** `[...leaderboard].sort((a, b) => a.timeTaken - b.timeTaken)`: a stable sort by time taken. */
  function Ranked(board: seq<Entry>): (r: seq<Entry>)
    ensures |r| == |board|
  {
    if board == [] then [] else Insert(board[0], Ranked(board[1..]))
  }

  /** The entries of `s` whose time is exactly `t`, in order. */
  function WithTime(s: seq<Entry>, t: int): seq<Entry> {
    if s == [] then []
    else (if s[0].timeTaken == t then [s[0]] else []) + WithTime(s[1..], t)
  }

  lemma {:induction false} InsertPermutes(e: Entry, s: seq<Entry>)
    ensures multiset(Insert(e, s)) == multiset(s) + multiset{e}
  {
    if s != [] && e.timeTaken > s[0].timeTaken {
      InsertPermutes(e, s[1..]);
      assert s == [s[0]] + s[1..];
    }
  }

  /** Every time in `Insert(e, s)` is at least any common lower bound of `e` and `s`. */
  lemma {:induction false} InsertKeepsLowerBound(e: Entry, s: seq<Entry>, b: int)
    requires b <= e.timeTaken
    requires forall k :: 0 <= k < |s| ==> b <= s[k].timeTaken
    ensures forall k :: 0 <= k < |Insert(e, s)| ==> b <= Insert(e, s)[k].timeTaken
  {
    if s != [] && e.timeTaken > s[0].timeTaken {
      InsertKeepsLowerBound(e, s[1..], b);
    }
  }

  lemma {:induction false} InsertSorted(e: Entry, s: seq<Entry>)
    requires SortedByTime(s)
    ensures SortedByTime(Insert(e, s))
  {
    if s != [] && e.timeTaken > s[0].timeTaken {
      InsertSorted(e, s[1..]);
      InsertKeepsLowerBound(e, s[1..], s[0].timeTaken);
    }
  }

  /** The ranked board is ordered by time taken and holds exactly the board's entries. */
  lemma {:induction false} RankedIsSortedPermutation(board: seq<Entry>)
    ensures SortedByTime(Ranked(board))
    ensures multiset(Ranked(board)) == multiset(board)
  {
    if board != [] {
      RankedIsSortedPermutation(board[1..]);
      InsertSorted(board[0], Ranked(board[1..]));
      InsertPermutes(board[0], Ranked(board[1..]));
      assert board == [board[0]] + board[1..];
    }
  }

  lemma {:induction false} InsertWithTime(e: Entry, s: seq<Entry>, t: int)
    requires SortedByTime(s)
    ensures WithTime(Insert(e, s), t) ==
      (if e.timeTaken == t then [e] + WithTime(s, t) else WithTime(s, t))
  {
    if s == [] || e.timeTaken <= s[0].timeTaken {
      if e.timeTaken == t {
        assert Insert(e, s) == [e] + s;
        assert Insert(e, s)[1..] == s;
      } else {
        assert Insert(e, s)[1..] == s;
      }
    } else {
      InsertWithTime(e, s[1..], t);
      assert Insert(e, s)[1..] == Insert(e, s[1..]);
      if e.timeTaken == t {
        assert s[0].timeTaken < t;
      }
    }
  }

  /**
   * The sort is stable: the entries that share one time appear in the ranked
   * board in the order they have on the board.
   */
  lemma {:induction false} RankedIsStable(board: seq<Entry>, t: int)
    ensures WithTime(Ranked(board), t) == WithTime(board, t)
  {
    if board != [] {
      RankedIsStable(board[1..], t);
      RankedIsSortedPermutation(board[1..]);
      InsertWithTime(board[0], Ranked(board[1..]), t);
    }
  }

  datatype Team = Team(name: string, email: string)

  /** The teams shown as in progress: every session whose name and email are both non-empty. */
  function InProgress(sessions: map<string, Session>): (r: map<string, Team>)
    ensures forall id :: id in r <==> id in sessions && sessions[id].name != "" && sessions[id].email != ""
    ensures forall id :: id in r ==> r[id] == Team(sessions[id].name, sessions[id].email)
  {
    map id | id in sessions && sessions[id].name != "" && sessions[id].email != "" ::
      Team(sessions[id].name, sessions[id].email)
  }
}
