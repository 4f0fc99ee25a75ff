/**
 * The records the server keeps in memory: a session per team that is still
 * racing, and a leaderboard entry per email that has finished.
 */
module Records {
  import opened Seqs
  import opened Optional

  /** A team's progress: the next clue it must scan is `currentClue`. */
  datatype Session = Session(name: string, email: string, startTime: int, currentClue: nat)

  /** A finished run: the session's fields together with the time it took. */
  datatype Entry = Entry(name: string, email: string, startTime: int, currentClue: nat, timeTaken: int)

  /** `{ ...session, timeTaken }` */
  function Finalize(s: Session, timeTaken: int): (e: Entry)
    ensures Session(e.name, e.email, e.startTime, e.currentClue) == s
    ensures e.timeTaken == timeTaken
  {
    Entry(s.name, s.email, s.startTime, s.currentClue, timeTaken)
  }

  function Emails(board: seq<Entry>): (r: seq<string>)
    ensures |r| == |board|
    ensures forall i :: 0 <= i < |board| ==> r[i] == board[i].email
  {
    seq(|board|, i requires 0 <= i < |board| => board[i].email)
  }

  /** The leaderboard holds at most one entry per email. */
  ghost predicate DistinctEmails(board: seq<Entry>) {
    forall i, j :: 0 <= i < j < |board| ==> board[i].email != board[j].email
  }

  function Min(a: int, b: int): int {
    if a <= b then a else b
  }

  /**
   * Records a finished run: the entry for the same email is replaced only by
   * a strictly faster time; an email not yet on the board is appended.
   */
  function Upserted(board: seq<Entry>, user: Entry): (r: seq<Entry>)
    ensures user.email in Emails(r)
    ensures forall e :: e in r ==> e in board || e == user
  {
    var i := IndexOf(Emails(board), user.email);
    if i == -1 then
      assert Emails(board + [user])[|board|] == user.email;
      board + [user]
    else if user.timeTaken < board[i].timeTaken then
      assert Emails(board[i := user])[i] == user.email;
      board[i := user]
    else board
  }

  /** The entry the board holds for `email`, if any (the first entry with that email). */
  function EntryOf(board: seq<Entry>, email: string): (r: Option<Entry>)
    ensures r.Some? ==> r.value in board && r.value.email == email
    ensures r.None? <==> email !in Emails(board)
  {
    var i := IndexOf(Emails(board), email);
    if i == -1 then None else Some(board[i])
  }

  /** The time the board records for `email`, if any (the first entry with that email). */
  function TimeOf(board: seq<Entry>, email: string): (t: Option<int>)
  {
    var i := IndexOf(Emails(board), email);
    if i == -1 then None else Some(board[i].timeTaken)
  }

  /** Upserting keeps one entry per email, and grows the board only for a new email. */
  lemma UpsertKeepsEmailsDistinct(board: seq<Entry>, user: Entry)
    requires DistinctEmails(board)
    ensures DistinctEmails(Upserted(board, user))
    ensures |Upserted(board, user)| == if user.email in Emails(board) then |board| else |board| + 1
  {
    var i := IndexOf(Emails(board), user.email);
    var r := Upserted(board, user);
    if i == -1 {
      forall j | 0 <= j < |board| ensures board[j].email != user.email {
        assert Emails(board)[j] == board[j].email;
      }
    } else {
      assert board[i].email == user.email;
    }
  }

  /**
   * After an upsert the board holds, for that email, the new entry if the
   * email was new or its time is strictly better, and the old entry otherwise
   * (so on a tie the earlier run's name and start time stay); a new email is
   * appended at the end.
   */
  lemma UpsertKeepsBestEntry(board: seq<Entry>, user: Entry)
    ensures EntryOf(Upserted(board, user), user.email) ==
      match EntryOf(board, user.email)
      case None => Some(user)
      case Some(e) => Some(if user.timeTaken < e.timeTaken then user else e)
    ensures user.email !in Emails(board) ==> Upserted(board, user) == board + [user]
  {
    var es := Emails(board);
    var i := IndexOf(es, user.email);
    var r := Upserted(board, user);
    var k := if i == -1 then |board| else i;
    assert |r| == (if i == -1 then |board| + 1 else |board|);
    assert r[k].email == user.email;
    assert Emails(r)[..k] == es[..k] by {
      forall j | 0 <= j < k ensures Emails(r)[j] == es[j] { }
    }
    if i == -1 {
      assert user.email !in es[..k];
    }
    IndexOfIsFirst(Emails(r), user.email, k);
  }

  /** After an upsert the board's time for that email is the better of the old and the new one. */
  lemma UpsertKeepsBestTime(board: seq<Entry>, user: Entry)
    ensures TimeOf(Upserted(board, user), user.email) ==
      match TimeOf(board, user.email)
      case None => Some(user.timeTaken)
      case Some(was) => Some(Min(was, user.timeTaken))
  {
    UpsertKeepsBestEntry(board, user);
  }

  /** An upsert leaves every entry with another email exactly where it was. */
  lemma UpsertLeavesOthers(board: seq<Entry>, user: Entry, k: nat)
    requires k < |board| && board[k].email != user.email
    ensures k < |Upserted(board, user)| && Upserted(board, user)[k] == board[k]
  {
  }

  /** An upsert does not change the time recorded for any other email. */
  lemma UpsertKeepsOtherTimes(board: seq<Entry>, user: Entry, email: string)
    requires email != user.email
    ensures TimeOf(Upserted(board, user), email) == TimeOf(board, email)
  {
    var es := Emails(board);
    var r := Upserted(board, user);
    if IndexOf(es, user.email) == -1 {
      assert Emails(r) == es + [user.email];
      var k := IndexOf(es, email);
      if k == -1 {
        assert email !in Emails(r);
      } else {
        assert Emails(r)[..k] == es[..k];
        IndexOfIsFirst(Emails(r), email, k);
      }
    } else {
      assert Emails(r) == es;
    }
  }
}
