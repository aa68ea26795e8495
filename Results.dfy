/**
 * Completed games and the statistics the game reports over their history:
 * total wins per player and wins within one pairing of players.
 */
module Results {
  import opened Counting

  /** A completed game: both players' names and the winner's name. */
  datatype GameResult = GameResult(player1: string, player2: string, winner: string)

  /** The winner of every record, in history order. */
  function Winners(history: seq<GameResult>): (w: seq<string>)
    ensures |w| == |history|
    ensures forall i :: 0 <= i < |history| ==> w[i] == history[i].winner
  {
    if history == [] then []
    else Winners(history[..|history| - 1]) + [history[|history| - 1].winner]
  }

  /** How many records of `history` name `name` as winner. */
  function WinsOf(history: seq<GameResult>, name: string): nat {
    if history == [] then 0
    else WinsOf(history[..|history| - 1], name) + (if history[|history| - 1].winner == name then 1 else 0)
  }

  /** Total wins per player: the dictionary `GetTotalScores` builds. */
  function TotalScores(history: seq<GameResult>): map<string, nat> {
    Tally(Winners(history))
  }

  lemma {:induction false} WinnersCount(history: seq<GameResult>, name: string)
    ensures multiset(Winners(history))[name] == WinsOf(history, name)
  {
    if history != [] {
      var init := history[..|history| - 1];
      WinnersCount(init, name);
      assert Winners(history) == Winners(init) + [history[|history| - 1].winner];
    }
  }

  /** The keys of the total scores are exactly the names that won some game; an empty history has none. */
  lemma TotalScoresKeys(history: seq<GameResult>)
    ensures TotalScores(history).Keys == set r | r in history :: r.winner
    ensures history == [] ==> TotalScores(history) == map[]
  {
    var w := Winners(history);
    TallyKeys(w);
    forall n ensures n in TotalScores(history) <==> n in (set r | r in history :: r.winner) {
      if n in w {
        var i :| 0 <= i < |w| && w[i] == n;
        assert history[i] in history;
      }
      if n in (set r | r in history :: r.winner) {
        var r :| r in history && r.winner == n;
        var i :| 0 <= i < |history| && history[i] == r;
        assert w[i] == n;
      }
    }
  }

  /** Every name's total is its number of wins in the history. */
  lemma TotalScoresCountWins(history: seq<GameResult>, name: string)
    ensures name in TotalScores(history) <==> WinsOf(history, name) > 0
    ensures name in TotalScores(history) ==> TotalScores(history)[name] == WinsOf(history, name)
  {
    WinnersCount(history, name);
    TallyCount(Winners(history), name);
    assert name in Winners(history) <==> name in multiset(Winners(history));
  }

  /** The totals, summed over the dictionary's keys, give the number of records. */
  lemma TotalScoresSum(history: seq<GameResult>)
    ensures SumOver(TotalScores(history), Distinct(Winners(history))) == |history|
  {
    TallySum(Winners(history));
  }

  /** One more record changes only its winner's total, by one. */
  lemma TotalScoresSnoc(history: seq<GameResult>, r: GameResult)
    ensures TotalScores(history + [r])
         == TotalScores(history)[r.winner := if r.winner in TotalScores(history) then TotalScores(history)[r.winner] + 1 else 1]
  {
    var h := history + [r];
    assert h[..|h| - 1] == history;
    var w := Winners(history);
    assert Winners(h) == w + [r.winner];
    TallySnoc(w, r.winner);
  }

  /** The record is a game between `a` and `b`, in either seating. */
  predicate IsMatchBetween(r: GameResult, a: string, b: string) {
    (r.player1 == a && r.player2 == b) || (r.player1 == b && r.player2 == a)
  }

  /** The records of games between `a` and `b`, in history order. */
  function Between(history: seq<GameResult>, a: string, b: string): seq<GameResult> {
    if history == [] then []
    else
      var last := history[|history| - 1];
      Between(history[..|history| - 1], a, b) + (if IsMatchBetween(last, a, b) then [last] else [])
  }

  /** The games between `a` and `b` are exactly the records of the history that are such games. */
  lemma {:induction false} BetweenMembers(history: seq<GameResult>, a: string, b: string)
    ensures forall r :: r in Between(history, a, b) <==> r in history && IsMatchBetween(r, a, b)
    ensures |Between(history, a, b)| <= |history|
  {
    if history != [] {
      var init, last := history[..|history| - 1], history[|history| - 1];
      assert history == init + [last];
      BetweenMembers(init, a, b);
    }
  }

  /** Wins per player over the games between `a` and `b`: the dictionary `GetHeadToHeadScores` builds. */
  function HeadToHead(history: seq<GameResult>, a: string, b: string): map<string, nat> {
    TotalScores(Between(history, a, b))
  }

  lemma BetweenSnoc(history: seq<GameResult>, r: GameResult, a: string, b: string)
    ensures Between(history + [r], a, b)
         == Between(history, a, b) + (if IsMatchBetween(r, a, b) then [r] else [])
  {
    var h := history + [r];
    assert h[..|h| - 1] == history;
  }

  /** A further game between the two players changes only its winner's head-to-head score, by one. */
  lemma HeadToHeadSnocMatch(history: seq<GameResult>, r: GameResult, a: string, b: string)
    requires IsMatchBetween(r, a, b)
    ensures HeadToHead(history + [r], a, b)
         == HeadToHead(history, a, b)[r.winner := if r.winner in HeadToHead(history, a, b) then HeadToHead(history, a, b)[r.winner] + 1 else 1]
  {
    BetweenSnoc(history, r, a, b);
    TotalScoresSnoc(Between(history, a, b), r);
  }

  /** A further game between other players leaves the head-to-head scores as they were. */
  lemma HeadToHeadSnocOther(history: seq<GameResult>, r: GameResult, a: string, b: string)
    requires !IsMatchBetween(r, a, b)
    ensures HeadToHead(history + [r], a, b) == HeadToHead(history, a, b)
  {
    BetweenSnoc(history, r, a, b);
    assert Between(history, a, b) + [] == Between(history, a, b);
  }

  lemma {:induction false} BetweenSymmetric(history: seq<GameResult>, a: string, b: string)
    ensures Between(history, a, b) == Between(history, b, a)
  {
    if history != [] {
      BetweenSymmetric(history[..|history| - 1], a, b);
    }
  }

  /** Head-to-head scores do not depend on the order of the two names. */
  lemma HeadToHeadSymmetric(history: seq<GameResult>, a: string, b: string)
    ensures HeadToHead(history, a, b) == HeadToHead(history, b, a)
  {
    BetweenSymmetric(history, a, b);
  }

  /** A name's head-to-head score counts exactly its wins in games between `a` and `b`. */
  lemma HeadToHeadCountsMatches(history: seq<GameResult>, a: string, b: string, name: string)
    ensures name in HeadToHead(history, a, b) <==> exists r :: r in history && IsMatchBetween(r, a, b) && r.winner == name
    ensures name in HeadToHead(history, a, b) ==> HeadToHead(history, a, b)[name] == WinsOf(Between(history, a, b), name)
  {
    TotalScoresKeys(Between(history, a, b));
    TotalScoresCountWins(Between(history, a, b), name);
    BetweenMembers(history, a, b);
  }

  lemma {:induction false} WinsOfBetween(history: seq<GameResult>, a: string, b: string, name: string)
    ensures WinsOf(Between(history, a, b), name) <= WinsOf(history, name)
  {
    if history != [] {
      var init, last := history[..|history| - 1], history[|history| - 1];
      WinsOfBetween(init, a, b, name);
      var part := Between(init, a, b);
      if IsMatchBetween(last, a, b) {
        assert Between(history, a, b) == part + [last];
        assert (part + [last])[..|part|] == part;
      } else {
        assert Between(history, a, b) == part;
      }
    }
  }

  /** No one has more head-to-head wins than total wins. */
  lemma HeadToHeadAtMostTotal(history: seq<GameResult>, a: string, b: string, name: string)
    requires name in HeadToHead(history, a, b)
    ensures name in TotalScores(history)
    ensures HeadToHead(history, a, b)[name] <= TotalScores(history)[name]
  {
    TotalScoresCountWins(Between(history, a, b), name);
    WinsOfBetween(history, a, b, name);
    TotalScoresCountWins(history, name);
  }

  /** Three games, two of them between A and B: A has two wins in all, B one. */
  lemma TotalScoresExample(h: seq<GameResult>)
    requires |h| == 3
    requires h[0] == GameResult("A", "B", "A") && h[1] == GameResult("A", "B", "B") && h[2] == GameResult("A", "C", "A")
    ensures TotalScores(h) == map["A" := 2, "B" := 1]
  {
    var h1, h2 := h[..1], h[..2];
    assert h1 == [] + [h[0]] && h2 == h1 + [h[1]] && h == h2 + [h[2]];
    assert TotalScores([]) == map[] by {
      assert Winners([]) == [];
    }
    TotalScoresSnoc([], h[0]);
    assert TotalScores(h1) == map["A" := 1];
    TotalScoresSnoc(h1, h[1]);
    assert TotalScores(h2) == map["A" := 1, "B" := 1];
    TotalScoresSnoc(h2, h[2]);
  }

  /** In the same history A and B have one win each against each other; the game against C is not counted. */
  lemma HeadToHeadExample(h: seq<GameResult>)
    requires |h| == 3
    requires h[0] == GameResult("A", "B", "A") && h[1] == GameResult("A", "B", "B") && h[2] == GameResult("A", "C", "A")
    ensures HeadToHead(h, "A", "B") == map["A" := 1, "B" := 1]
  {
    var h1, h2 := h[..1], h[..2];
    assert h1 == [] + [h[0]] && h2 == h1 + [h[1]] && h == h2 + [h[2]];
    BetweenSnoc([], h[0], "A", "B");
    BetweenSnoc(h1, h[1], "A", "B");
    BetweenSnoc(h2, h[2], "A", "B");
    assert Between(h, "A", "B") == h2;
    assert TotalScores(h1) == map["A" := 1] by {
      assert TotalScores([]) == map[] by {
        assert Winners([]) == [];
      }
      TotalScoresSnoc([], h[0]);
    }
    TotalScoresSnoc(h1, h[1]);
  }
}
