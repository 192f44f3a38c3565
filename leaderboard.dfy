/**
 * The leaderboard's in-browser stand-in for its AO process: a table from
 * player name to score with a `submit_score` and a `get_leaderboard`
 * handler, and the form check that runs before a score is submitted.
 */
module Leaderboard {
  import opened Wrappers
  import Assoc
  import S = JsString

  /** Player name to score, in the order the players first appeared (`Object.entries` order). */
  type Scores = seq<(string, int)>

  /** The handler arguments that are read; `None` is a field that is `undefined`. */
  datatype Args = Args(player: Option<string>, score: Option<int>, limit: Option<int>)

  /** What a handler returns when it succeeds: a message or a list of entries. */
  datatype Reply = Text(text: string) | Board(entries: Scores)

  type Outcome = Result<Reply, string>

  const MissingPlayerOrScore := "Missing player or score"
  const ScoreSubmitted := "Score submitted"
  const DefaultLimit := 10

  function UnknownHandler(handler: string): string
  {
    "Unknown handler: " + handler
  }

  /** `!mockScores[player] || mockScores[player] < numScore`: no entry, a stored 0, or a lower stored score. */
  predicate Improves(scores: Scores, player: string, score: int)
  {
    var prev := Assoc.Get(scores, player);
    prev.None? || prev.value == 0 || prev.value < score
  }

  /** The `submit_score` handler: its reply and the new table. */
  function SubmitScoreHandler(scores: Scores, args: Args): (Outcome, Scores)
  {
    if args.player.None? || args.player.value == "" || args.score.None? then
      (Err(MissingPlayerOrScore), scores)
    else
      var player, score := args.player.value, args.score.value;
      (Ok(Text(ScoreSubmitted)), if Improves(scores, player, score) then Assoc.Put(scores, player, score) else scores)
  }

  // ---------------------------------------------------------------- sorting and slicing

  predicate SortedDesc(s: Scores)
  {
    forall i, j :: 0 <= i < j < |s| ==> s[i].1 >= s[j].1
  }

  /** Places `e` after every entry whose score is at least its own. */
  function Insert(e: (string, int), s: Scores): Scores
  {
    if s == [] then [e]
    else if s[0].1 >= e.1 then [s[0]] + Insert(e, s[1..])
    else [e] + s
  }

  /**
   * `sort((a, b) => b.score - a.score)`: a stable sort on descending score,
   * entries of equal score keeping their table order.
   */
  function SortDesc(s: Scores): Scores
  {
    if s == [] then [] else Insert(s[|s| - 1], SortDesc(s[..|s| - 1]))
  }

  /** The end index `slice(0, end)` stops at: a negative end counts from the back. */
  function SliceEnd(len: nat, end: int): (r: nat)
    ensures r <= len
    ensures 0 <= end ==> r == if end < len then end else len
  {
    if end < 0 then (if len + end < 0 then 0 else len + end)
    else if end < len then end
    else len
  }

  /** The `get_leaderboard` handler: the sorted table cut to `limit` (10 when absent). */
  function GetLeaderboard(scores: Scores, limit: Option<int>): Scores
  {
    var sorted := SortDesc(scores);
    var n := if limit.Some? then limit.value else DefaultLimit;
    sorted[..SliceEnd(|sorted|, n)]
  }

  /** `simulateLuaExecution(handler, args)`: the reply and the new table. */
  function Execute(scores: Scores, handler: string, args: Args): (Outcome, Scores)
  {
    if handler == "submit_score" then SubmitScoreHandler(scores, args)
    else if handler == "get_leaderboard" then (Ok(Board(GetLeaderboard(scores, args.limit))), scores)
    else (Err(UnknownHandler(handler)), scores)
  }

  // ---------------------------------------------------------------- what the handlers promise

  /**
   * `submit_score` fails exactly when the player is missing or empty or the
   * score is undefined, and a failure leaves the table alone; a success
   * always replies "Score submitted".
   */
  lemma SubmitReply(scores: Scores, args: Args)
    ensures var (r, next) := SubmitScoreHandler(scores, args);
      (r.Err? <==> args.player.None? || args.player.value == "" || args.score.None?)
      && (r.Err? ==> r.error == MissingPlayerOrScore && next == scores)
      && (r.Ok? ==> r.value == Text(ScoreSubmitted))
  {
  }

  /**
   * After a submission the player holds the new score when it improves on
   * the stored one (or the stored one is 0 or absent), and keeps the stored
   * one otherwise; every other player's entry is unchanged.
   */
  lemma SubmitEffect(scores: Scores, player: string, score: int, limit: Option<int>)
    requires player != ""
    ensures var next := SubmitScoreHandler(scores, Args(Some(player), Some(score), limit)).1;
      var prev := Assoc.Get(scores, player);
      Assoc.Get(next, player) == (if prev.None? || prev.value == 0 || prev.value < score then Some(score) else prev)
      && forall p :: p != player ==> Assoc.Get(next, p) == Assoc.Get(scores, p)
  {
  }

  /** A stored non-zero score never decreases, and no entry ever disappears. */
  lemma ScoresNeverDecrease(scores: Scores, args: Args, p: string)
    requires Assoc.Get(scores, p).Some?
    ensures var next := SubmitScoreHandler(scores, args).1;
      Assoc.Get(next, p).Some?
      && (Assoc.Get(scores, p).value != 0 ==> Assoc.Get(next, p).value >= Assoc.Get(scores, p).value)
  {
  }

  /** A submission keeps the players distinct. */
  lemma SubmitUnique(scores: Scores, args: Args)
    requires Assoc.UniqueKeys(scores)
    ensures Assoc.UniqueKeys(SubmitScoreHandler(scores, args).1)
  {
    if args.player.Some? && args.score.Some? {
      Assoc.PutUnique(scores, args.player.value, args.score.value);
    }
  }

  /** Insertion adds exactly `e`. */
  lemma {:induction false} InsertPermutation(e: (string, int), s: Scores)
    ensures multiset(Insert(e, s)) == multiset(s) + multiset{e}
    ensures |Insert(e, s)| == |s| + 1
  {
    if s != [] && s[0].1 >= e.1 {
      InsertPermutation(e, s[1..]);
      assert s == [s[0]] + s[1..];
    }
  }

  lemma {:induction false} InsertSorted(e: (string, int), s: Scores)
    requires SortedDesc(s)
    ensures SortedDesc(Insert(e, s))
  {
    if s != [] && s[0].1 >= e.1 {
      InsertSorted(e, s[1..]);
      InsertPermutation(e, s[1..]);
      var r := Insert(e, s[1..]);
      forall k | 0 <= k < |r| ensures s[0].1 >= r[k].1 {
        assert r[k] in multiset(r);
        if r[k] != e {
          assert r[k] in multiset(s[1..]);
          var m :| 0 <= m < |s[1..]| && s[1..][m] == r[k];
          assert s[1 + m] == r[k];
        }
      }
      assert Insert(e, s) == [s[0]] + r;
    }
  }

  /** The leaderboard order: by score, highest first. */
  lemma {:induction false} SortDescSorted(s: Scores)
    ensures SortedDesc(SortDesc(s))
    ensures |SortDesc(s)| == |s|
  {
    if s != [] {
      SortDescSorted(s[..|s| - 1]);
      InsertSorted(s[|s| - 1], SortDesc(s[..|s| - 1]));
      InsertPermutation(s[|s| - 1], SortDesc(s[..|s| - 1]));
    }
  }

  /** Sorting neither adds, drops nor alters an entry. */
  lemma {:induction false} SortDescPermutation(s: Scores)
    ensures multiset(SortDesc(s)) == multiset(s)
  {
    if s != [] {
      SortDescPermutation(s[..|s| - 1]);
      InsertPermutation(s[|s| - 1], SortDesc(s[..|s| - 1]));
      assert s == s[..|s| - 1] + [s[|s| - 1]];
    }
  }

  /**
   * `get_leaderboard` with a non-negative limit: `min(limit, players)` entries,
   * highest score first, each one an unaltered entry of the table; no entry
   * left out scores higher than one shown.
   */
  lemma LeaderboardTop(scores: Scores, limit: Option<int>)
    requires limit.None? || limit.value >= 0
    ensures var board := GetLeaderboard(scores, limit);
      var n := if limit.Some? then limit.value else DefaultLimit;
      |board| == (if n < |scores| then n else |scores|)
      && SortedDesc(board)
      && multiset(board) <= multiset(scores)
      && board == SortDesc(scores)[..|board|]
  {
    var sorted := SortDesc(scores);
    SortDescSorted(scores);
    SortDescPermutation(scores);
    var board := GetLeaderboard(scores, limit);
    assert sorted == board + sorted[|board|..];
    assert multiset(sorted) == multiset(board) + multiset(sorted[|board|..]);
  }

  /** A limit at least the number of players shows every entry. */
  lemma LeaderboardAll(scores: Scores, limit: int)
    requires limit >= |scores|
    ensures multiset(GetLeaderboard(scores, Some(limit))) == multiset(scores)
  {
    SortDescSorted(scores);
    SortDescPermutation(scores);
    assert SortDesc(scores)[..|scores|] == SortDesc(scores);
  }

  /** The read handler and an unknown handler leave the table alone; an unknown one is an error naming it. */
  lemma ExecuteReads(scores: Scores, handler: string, args: Args)
    requires handler != "submit_score"
    ensures Execute(scores, handler, args).1 == scores
    ensures handler != "get_leaderboard" ==> Execute(scores, handler, args).0 == Err(UnknownHandler(handler))
    ensures handler == "get_leaderboard" ==> Execute(scores, handler, args).0.Ok?
  {
  }

  // ---------------------------------------------------------------- the dry run

  /**
   * The dry run from an empty table: Alice 100, Bob 85, Charlie 150, Alice
   * 120, Bob 75, then a read with the default limit. Every step succeeds;
   * the higher second score of Alice replaces her first, the lower second
   * score of Bob does not, and the board reads Charlie 150, Alice 120, Bob 85.
   */
  lemma DryRunExpected()
    ensures Execute([], "submit_score", Args(Some("Alice"), Some(100), None))
         == (Ok(Text(ScoreSubmitted)), [("Alice", 100)])
    ensures Execute([("Alice", 100)], "submit_score", Args(Some("Bob"), Some(85), None))
         == (Ok(Text(ScoreSubmitted)), [("Alice", 100), ("Bob", 85)])
    ensures Execute([("Alice", 100), ("Bob", 85)], "submit_score", Args(Some("Charlie"), Some(150), None))
         == (Ok(Text(ScoreSubmitted)), [("Alice", 100), ("Bob", 85), ("Charlie", 150)])
    ensures Execute([("Alice", 100), ("Bob", 85), ("Charlie", 150)], "submit_score", Args(Some("Alice"), Some(120), None))
         == (Ok(Text(ScoreSubmitted)), [("Alice", 120), ("Bob", 85), ("Charlie", 150)])
    ensures Execute([("Alice", 120), ("Bob", 85), ("Charlie", 150)], "submit_score", Args(Some("Bob"), Some(75), None))
         == (Ok(Text(ScoreSubmitted)), [("Alice", 120), ("Bob", 85), ("Charlie", 150)])
    ensures Execute([("Alice", 120), ("Bob", 85), ("Charlie", 150)], "get_leaderboard", Args(None, None, Some(DefaultLimit)))
         == (Ok(Board([("Charlie", 150), ("Alice", 120), ("Bob", 85)])), [("Alice", 120), ("Bob", 85), ("Charlie", 150)])
  {
    DryRunFirst();
    DryRunSecond();
    DryRunThird();
    DryRunFourth();
    DryRunFifth();
    DryRunFinalRead();
  }

  // The steps of the dry run, one at a time.
  lemma DryRunFirst()
    ensures Execute([], "submit_score", Args(Some("Alice"), Some(100), None))
         == (Ok(Text(ScoreSubmitted)), [("Alice", 100)])
  {
  }

  lemma DryRunSecond()
    ensures Execute([("Alice", 100)], "submit_score", Args(Some("Bob"), Some(85), None))
         == (Ok(Text(ScoreSubmitted)), [("Alice", 100), ("Bob", 85)])
  {
    var t1 := [("Alice", 100)];
    assert Assoc.Keys(t1) == ["Alice"];
    assert Assoc.Get(t1, "Bob") == None;
    Assoc.PutNew(t1, "Bob", 85);
    assert t1 + [("Bob", 85)] == [("Alice", 100), ("Bob", 85)];
  }

  lemma DryRunThird()
    ensures Execute([("Alice", 100), ("Bob", 85)], "submit_score", Args(Some("Charlie"), Some(150), None))
         == (Ok(Text(ScoreSubmitted)), [("Alice", 100), ("Bob", 85), ("Charlie", 150)])
  {
    var t2 := [("Alice", 100), ("Bob", 85)];
    assert Assoc.Keys(t2) == ["Alice", "Bob"];
    assert Assoc.Get(t2, "Charlie") == None;
    Assoc.PutNew(t2, "Charlie", 150);
    assert t2 + [("Charlie", 150)] == [("Alice", 100), ("Bob", 85), ("Charlie", 150)];
  }

  lemma DryRunFourth()
    ensures Execute([("Alice", 100), ("Bob", 85), ("Charlie", 150)], "submit_score", Args(Some("Alice"), Some(120), None))
         == (Ok(Text(ScoreSubmitted)), [("Alice", 120), ("Bob", 85), ("Charlie", 150)])
  {
    var t3 := [("Alice", 100), ("Bob", 85), ("Charlie", 150)];
    assert Assoc.Get(t3, "Alice") == Some(100);
    assert Assoc.Put(t3, "Alice", 120) == [("Alice", 120)] + t3[1..];
    assert [("Alice", 120)] + t3[1..] == [("Alice", 120), ("Bob", 85), ("Charlie", 150)];
  }

  lemma DryRunFifth()
    ensures Execute([("Alice", 120), ("Bob", 85), ("Charlie", 150)], "submit_score", Args(Some("Bob"), Some(75), None))
         == (Ok(Text(ScoreSubmitted)), [("Alice", 120), ("Bob", 85), ("Charlie", 150)])
  {
  }

  lemma DryRunFinalRead()
    ensures Execute([("Alice", 120), ("Bob", 85), ("Charlie", 150)], "get_leaderboard", Args(None, None, Some(DefaultLimit)))
         == (Ok(Board([("Charlie", 150), ("Alice", 120), ("Bob", 85)])), [("Alice", 120), ("Bob", 85), ("Charlie", 150)])
  {
    DryRunRead([("Alice", 120), ("Bob", 85), ("Charlie", 150)]);
  }

  lemma DryRunRead(t: Scores)
    requires t == [("Alice", 120), ("Bob", 85), ("Charlie", 150)]
    ensures GetLeaderboard(t, Some(DefaultLimit)) == [("Charlie", 150), ("Alice", 120), ("Bob", 85)]
  {
    assert t[..1][..0] == [] && t[..1][0] == ("Alice", 120);
    assert SortDesc(t[..1]) == [("Alice", 120)];
    assert t[..2][..1] == t[..1] && t[..2][1] == ("Bob", 85);
    assert Insert(("Bob", 85), [("Alice", 120)]) == [("Alice", 120)] + Insert(("Bob", 85), []);
    assert SortDesc(t[..2]) == [("Alice", 120), ("Bob", 85)];
    assert t[..2] == t[..|t| - 1];
    assert SortDesc(t) == [("Charlie", 150), ("Alice", 120), ("Bob", 85)];
  }

  // ---------------------------------------------------------------- the component

  const EnterBoth := "Please enter both player name and score"
  const MustBeNumber := "Score must be a number"

  /** The checks `submitScore` makes before submitting: both fields filled, the score numeric. */
  function ValidateSubmission(playerName: string, playerScore: string): (r: Result<int, string>)
    ensures r.Err? <==> playerName == "" || playerScore == "" || S.ToInteger(playerScore).None?
    ensures r.Ok? ==> r.value == S.ToInteger(playerScore).value
  {
    if playerName == "" || playerScore == "" then Err(EnterBoth)
    else
      var scoreNum := S.ToInteger(playerScore);
      if scoreNum.None? then Err(MustBeNumber) else Ok(scoreNum.value)
  }

  /** The leaderboard component in simulation mode. */
  class Simulator {
    var simulatedScores: Scores
    var playerName: string
    var playerScore: string
    var message: string
    var leaderboard: Scores
    var displayLimit: int

    constructor(limit: int)
      ensures simulatedScores == [] && playerName == "" && playerScore == ""
      ensures message == "" && leaderboard == [] && displayLimit == limit
    {
      simulatedScores := [];
      playerName := "";
      playerScore := "";
      message := "";
      leaderboard := [];
      displayLimit := limit;
    }

    /** `simulateLuaExecution`: `submit_score` assigns into a copy of the table and stores the copy. */
    method SimulateLuaExecution(handler: string, args: Args) returns (r: Outcome)
      modifies this
      ensures (r, simulatedScores) == Execute(old(simulatedScores), handler, args)
      ensures playerName == old(playerName) && playerScore == old(playerScore)
      ensures message == old(message) && leaderboard == old(leaderboard) && displayLimit == old(displayLimit)
    {
      if handler == "submit_score" {
        if args.player.None? || args.player.value == "" || args.score.None? {
          return Err(MissingPlayerOrScore);
        }
        var mockScores := simulatedScores;
        var player, numScore := args.player.value, args.score.value;
        var prev := Assoc.Get(mockScores, player);
        if prev.None? || prev.value == 0 || prev.value < numScore {
          mockScores := Assoc.Put(mockScores, player, numScore);
          simulatedScores := mockScores;
        }
        return Ok(Text(ScoreSubmitted));
      }
      if handler == "get_leaderboard" {
        return Ok(Board(GetLeaderboard(simulatedScores, args.limit)));
      }
      return Err(UnknownHandler(handler));
    }

    /** `fetchLeaderboard` in simulation mode: shows the top `displayLimit` entries. */
    method FetchLeaderboard()
      modifies this
      ensures leaderboard == GetLeaderboard(simulatedScores, Some(displayLimit))
      ensures simulatedScores == old(simulatedScores) && message == old(message)
      ensures playerName == old(playerName) && playerScore == old(playerScore) && displayLimit == old(displayLimit)
    {
      var result := SimulateLuaExecution("get_leaderboard", Args(None, None, Some(displayLimit)));
      // The read handler always answers with a list, so the fallback to `[]` is never taken.
      assert result.Ok? && result.value.Board?;
      leaderboard := result.value.entries;
    }

    /**
     * `submitScore` in simulation mode: a failed check only sets its message;
     * otherwise the score is submitted, the fields are cleared and the board
     * is refreshed.
     */
    method SubmitScore()
      modifies this
      ensures var v := ValidateSubmission(old(playerName), old(playerScore));
        if v.Err? then
          message == v.error && simulatedScores == old(simulatedScores)
          && playerName == old(playerName) && playerScore == old(playerScore) && leaderboard == old(leaderboard)
        else
          simulatedScores == SubmitScoreHandler(old(simulatedScores), Args(Some(old(playerName)), Some(v.value), None)).1
          && message == ScoreSubmitted && playerName == "" && playerScore == ""
          && leaderboard == GetLeaderboard(simulatedScores, Some(displayLimit))
      ensures displayLimit == old(displayLimit)
    {
      var v := ValidateSubmission(playerName, playerScore);
      if v.Err? {
        message := v.error;
        return;
      }
      var result := SimulateLuaExecution("submit_score", Args(Some(playerName), Some(v.value), None));
      // A validated submission has a player and a score, so the handler cannot fail here.
      assert result == Ok(Text(ScoreSubmitted));
      message := result.value.text;
      playerName := "";
      playerScore := "";
      FetchLeaderboard();
    }
  }
}
