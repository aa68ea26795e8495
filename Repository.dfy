/**
 * The data repository: the dictionary of valid words and the stored history
 * of completed games. The result file is its decoded contents, or `None` when
 * the file does not exist.
 */
module Repository {
  import opened Wrappers
  import opened Counting
  import opened Results

  class DataRepository {
    /** The dictionary of valid words, loaded once. */
    const dictionary: set<string>
    /** The records held in the result file, or `None` when there is no such file. */
    var resultFile: Option<seq<GameResult>>

    constructor (dictionary: set<string>, resultFile: Option<seq<GameResult>>)
      ensures this.dictionary == dictionary && this.resultFile == resultFile
    {
      this.dictionary := dictionary;
      this.resultFile := resultFile;
    }

    /** The stored history; a missing file counts as an empty history. */
    function Stored(): seq<GameResult>
      reads this
    {
      match resultFile
      case None => []
      case Some(results) => results
    }

    /** Read the whole history, append one record, and write the whole history back. */
    method SaveResult(result: GameResult)
      modifies this
      ensures resultFile == Some(old(Stored()) + [result])
      ensures Stored()[..|Stored()| - 1] == old(Stored()) && Stored()[|Stored()| - 1] == result
    {
      var results: seq<GameResult> := [];
      if resultFile.Some? {
        results := resultFile.value;
      }
      results := results + [result];
      resultFile := Some(results);
    }

    /** All stored records, in the order they were saved; none when there is no file. */
    method LoadResults() returns (results: seq<GameResult>)
      ensures resultFile.None? ==> results == []
      ensures resultFile.Some? ==> results == resultFile.value
    {
      if resultFile.None? {
        return [];
      }
      results := resultFile.value;
    }

    /** Total wins per player over the stored history. */
    method GetTotalScores() returns (scores: map<string, nat>)
      ensures scores == TotalScores(Stored())
    {
      var results := LoadResults();
      if |results| == 0 {
        TotalScoresKeys(results);
        return map[];
      }
      scores := map[];
      var i := 0;
      while i < |results|
        invariant 0 <= i <= |results|
        invariant scores == TotalScores(results[..i])
      {
        var result := results[i];
        assert results[..i + 1] == results[..i] + [result];
        TotalScoresSnoc(results[..i], result);
        if result.winner in scores {
          scores := scores[result.winner := scores[result.winner] + 1];
        } else {
          scores := scores[result.winner := 1];
        }
        i := i + 1;
      }
      assert results[..i] == results;
    }

    /** Wins per player over the stored games between the two named players, in either seating. */
    method GetHeadToHeadScores(player1Name: string, player2Name: string) returns (scores: map<string, nat>)
      ensures scores == HeadToHead(Stored(), player1Name, player2Name)
    {
      var results := LoadResults();
      assert Between([], player1Name, player2Name) == [];
      TotalScoresKeys([]);
      if |results| == 0 {
        return map[];
      }
      scores := map[];
      assert results[..0] == [];
      var i := 0;
      while i < |results|
        invariant 0 <= i <= |results|
        invariant scores == HeadToHead(results[..i], player1Name, player2Name)
      {
        var result := results[i];
        assert results[..i + 1] == results[..i] + [result];
        var isMatchBetweenPlayers :=
          (result.player1 == player1Name && result.player2 == player2Name) ||
          (result.player1 == player2Name && result.player2 == player1Name);
        if isMatchBetweenPlayers {
          HeadToHeadSnocMatch(results[..i], result, player1Name, player2Name);
          if result.winner in scores {
            scores := scores[result.winner := scores[result.winner] + 1];
          } else {
            scores := scores[result.winner := 1];
          }
        } else {
          HeadToHeadSnocOther(results[..i], result, player1Name, player2Name);
        }
        i := i + 1;
      }
      assert results[..i] == results;
    }
  }
}
